# pr-reviewers: the page logic, modelled and proved in Dafny

The page lets a user paste a GitHub pull-request URL and see the pull request's title, state,
repository and reviewers. Its logic is in `src/index.js`. That file is modelled here as four parts:

- **Session cache.** `loadFromCache` reads the session storage entry for a validated URL. An entry
  younger than fifteen minutes is served. The boundary is inclusive (`now - timestamp <= 900000`).
  A stale entry is deleted. A missing entry is a miss.
- **Two-stage fetch.** `fetchPR` awaits the pull-request record first. It asks for the reviewers
  only after that succeeds. The first failure is thrown on unchanged.
- **Load orchestration.** `loadPR` runs when the address-bar fragment changes. It returns at once on
  an empty fragment and shows a banner for a URL that fails validation. Otherwise it runs
  `preRender`, serves the data from the cache or fetches it, renders the data or the error, writes
  the cache entry, and runs `postRender`.
- **Form submission.** `onsubmit` validates the input. It then either shows the banner or sets the
  fragment to the normalised URL.

The model's layout:

- `Wrappers`: `Option` and `Result`.
- `PullRequest`: the data and the truthiness test applied to the validator's answer.
- `Cache`: storage entries and the cache read as a function.
- `Fetcher`: the fetch as a function and as a method that also records a log of requests.
- `Render`: the reviewers heading, the rendered sections and the single-message error container.
- `PageModel`: the whole page state as a value, with `Load` and `Submit` as state transitions.
- `App.Page`: a class whose fields are that state. Its methods are the handlers, each proved to
  leave exactly the state the matching `PageModel` function describes.
- `Session`: sequences of events and what holds across any of them.

Three behaviours of the code are easy to miss. The model follows the code:

- Every load of a valid URL writes the cache entry again with a fresh timestamp (lines 157-160).
  This happens on a cache hit too, so reloads that come at most fifteen minutes apart keep the
  same data forever (`Session.ReloadsWithinWindowNeverFetch`, `Session.DataOutlivesItsWindow`).
- A failed fetch also writes an entry, with no data in it. Because of the `||` at line 152, that
  entry reads back as a miss and the next load fetches again (`Cache.FailedEntryReadsFalsy`,
  `Session.FailedLoadIsFetchedAgain`).
- There is no request token and no comparison of keys, so a load that is no longer current is
  never discarded. Fetch errors carry no stage: the thrown value's text becomes the banner.

Inputs the page gets from outside are parameters:

- `GitHubPR.validatePRUrl` is an uninterpreted function, `string -> Option<string>`.
- `Date.now()` is two clock readings. One is taken by the cache read, the other by the cache write
  after the awaited fetch.
- The answers of `fetchInfo` and `fetchReviewers` are `Result` values.

## Model

| member | source | states |
|---|---|---|
| PullRequest.Validated | src/index.js:143-147 | a URL is accepted exactly when the validator returns a non-empty string, and the key is that string |
| PageModel.StripHash | src/index.js:143 | removing the leading `#` of a non-empty hash gives a non-empty fragment that yields the hash again when `#` is put back; an empty hash gives an empty string |
| PageModel.StripHashRoundTrip | src/index.js:111 | the key read back from a fragment set to `"#" + key` is that key |
| Cache.Lookup | src/index.js:126-136 | the read returns the stored data iff an entry exists and `now - timestamp <= 900000`, leaving storage unchanged; a stale entry is removed with every other key untouched and `false` returned; a missing entry returns `false` and changes nothing |
| Cache.WriteThenRead | src/index.js:126-131 | an entry written with data and read within fifteen minutes returns that data, truthily, with the storage unchanged |
| Cache.ExpiredEntryIsEvicted | src/index.js:130-135 | after the window the read misses and removes the entry, and a second read misses as well |
| Cache.FailedEntryReadsFalsy | src/index.js:152 | a fresh entry without data reads back as a falsy value |
| App.Page.LoadFromCache | src/index.js:126-136 | the in-place read returns what `Cache.Lookup` returns and leaves its storage; the key is absent afterwards unless the entry was served |
| Fetcher.Fetch | src/index.js:114-124 | the info request comes first; the reviewers request is issued iff info succeeded; success iff both stages succeed, with `{info, reviewers}`; otherwise the first stage's error |
| Fetcher.FetchPR | src/index.js:114-124 | the sequential fetch yields exactly `Fetcher.Fetch`'s result and request log; an info failure logs only the info request |
| Render.ReviewersTitle | src/index.js:37-38 | the heading is "Reviewers:" iff the list is non-empty, and "No reviewers found for this PR." iff it is empty |
| Render.Build | src/index.js:31-49 | the rendered sections carry the record and reviewers unchanged; the heading is "Reviewers:" iff there are reviewers and "No reviewers found for this PR." iff there are none |
| Render.WithError | src/index.js:83-94 | the first message is the new one; an empty container gains it, otherwise the rest of the container is kept |
| Render.WithErrorKeepsOneBanner | src/index.js:89-93 | a container of at most one message holds exactly the new message afterwards |
| Render.WithoutFirst | src/index.js:61-69 | the first rendered pull request is removed and the rest are kept in order |
| App.Page.RenderError | src/index.js:83-94 | only the error container changes, as `Render.WithError` says |
| App.Page.PreRender | src/index.js:60-76 | the input shows the key, the first rendered sections are removed, the messages are cleared, the button is hidden and the loader shown |
| App.Page.PostRender | src/index.js:78-81 | the button is shown and the loader hidden; nothing else changes |
| App.Page.RenderInfo | src/index.js:96-100 | the sections built for the data are appended; nothing else changes |
| PageModel.Load | src/index.js:138-162 | an empty fragment changes nothing. A rejected URL only sets the banner; nothing is fetched, read or written. After a valid URL the loader is hidden, the button shown, and the key's entry has `timestamp = writeClock`, with every other key unchanged. A cache hit fetches nothing and shows the cached data. A miss logs the fetch and either shows and caches its data or shows its error as the only banner and caches no data |
| App.Page.LoadPR | src/index.js:138-162 | the handler leaves exactly the state `PageModel.Load` describes |
| PageModel.Submit | src/index.js:102-112 | submitting never fetches or touches the storage or the rendered content; a rejected input sets the banner; a valid one only sets the fragment, which then names the key |
| App.Page.OnSubmit | src/index.js:102-112 | the handler leaves exactly the state `PageModel.Submit` describes |
| Session.FetchKeepsLogWellFormed | src/index.js:118-119 | logging a fetch keeps every reviewers request directly after the info request for the same key |
| Session.StepKeepsInvariant | src/index.js:83-162 | each handler keeps at most one banner, at most one rendered pull request and a well-formed request log |
| Session.RunKeepsInvariant | src/index.js:83-162 | over any sequence of edits, navigations, submissions and loads, the same invariant holds |
| Session.InitialInvariant | src/index.js:164-169 | a freshly opened page satisfies the invariant |
| Session.ReloadsWithinWindowNeverFetch | src/index.js:150-160 | reloads each read within fifteen minutes of the previous write never fetch again and keep the cached data, because hits renew the timestamp |
| Session.SecondLoadIsServedFromCache | src/index.js:150-160 | when the cache cannot serve a key (no entry, a stale one, or one without data) and both stages succeed, loading it and loading it again at most fifteen minutes after the first write issues exactly one info and one reviewers request |
| Session.FailedLoadIsFetchedAgain | src/index.js:149-160 | a load the cache cannot serve whose fetch fails at either stage writes an entry without data, and the next load within the window fetches again |
| Session.DataOutlivesItsWindow | src/index.js:126-160 | data fetched at time 0 is still served without a fetch at thirty minutes after a reload at fifteen |
| Session.SubmitThenLoad | src/index.js:102-147 | a valid submission followed by the fragment's change event loads the normalised key when the validator maps its output to itself |

## Left out

- DOM construction is not modelled. This covers `buildPRInfoHTML`, `buildRepoInfoHTML` and `buildInfoHTML`, the `PRInfo`, `RepoInfo` and `Reviewer` components, and `element-creator`. Their sources are not part of this model. A rendered pull request is a `Render.Section` value.
- `GitHubPR` is not part of this model. `validatePRUrl` is an uninterpreted parameter, and `fetchInfo` and `fetchReviewers` are given answers. No URL grammar is assumed.
- JSON serialisation and `sessionStorage` are a typed map. A corrupted or foreign storage value cannot occur in the model. This also excludes a key that collides with a `Storage` member name.
- `Date.now()` is the two clock parameters of a load.
- `location.hash` is a `PageModel.Hash`: empty, or `#` followed by a non-empty fragment, the only values the browser returns. The browser's handling of an assignment to it is reduced to `"#" + key`. Percent-encoding of the fragment is not modelled, and neither is the fact that assigning an unchanged fragment fires no change event.
- Event listeners and async scheduling are not modelled. Each `loadPR` runs to completion as one step. Two loads interleaving at the `await` in line 152 are not modelled. `renderInfo` is not awaited in the code and is modelled as synchronous.
- The thrown value shown by `renderError(e)` is modelled as its text.
- The `collapse` class that `preRender` adds to the form container is not modelled. Neither is `style.scss`.
- Render.WithError and App.Page.RenderError assume the error container holds only the messages `renderError` put there. The code tests `childElementCount` (line 89) but replaces `firstChild` (line 92), and `firstChild` may be a text node. If the page's markup left whitespace text in the container, the second message shown before any `preRender` would replace that text node and leave the first message in place. Two banners would then be visible until the next `preRender` clears the container. The model has no text nodes. `Session.Invariant`'s bound of one banner holds only under this assumption.
- The page's initial markup is not part of this model. A freshly opened page is assumed to show nothing, with the loader hidden and the button shown.
