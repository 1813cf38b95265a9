/** The page as a value, and what loading a pull request and submitting the form do to it. */
module PageModel {
  import opened Wrappers
  import opened PullRequest
  import opened Cache
  import opened Fetcher
  import opened Render

  /** Everything the page's handlers read or change: the address-bar fragment as
      `location.hash` reads it, the URL input's value, the session storage, the messages in the
      error container, the rendered sections, the loader and button visibility, and the log of
      requests sent to the remote API. */
  /** A value `location.hash` can read: empty, or `#` followed by a non-empty fragment. */
  type Hash = h: string | h == "" || (|h| > 1 && h[0] == '#') witness ""

  datatype PageState = PageState(
    hash: Hash,
    input: string,
    storage: map<Key, Entry>,
    banners: seq<string>,
    content: seq<Section>,
    loaderVisible: bool,
    buttonHidden: bool,
    log: seq<Request>)

  /** A freshly opened page: nothing rendered, the loader hidden, the button shown. */
  function Initial(hash: Hash, storage: map<Key, Entry>): PageState {
    PageState(hash, "", storage, [], [], false, false, [])
  }

  /** `hash.replace(/^#/, '')`: the fragment a non-empty hash names, which is never empty and
      gives the hash back when `#` is put in front of it again. */
  function StripHash(h: Hash): (r: string)
    ensures h == "" ==> r == ""
    ensures h != "" ==> r != "" && "#" + r == h
  {
    if |h| > 0 && h[0] == '#' then h[1..] else h
  }

  /** Setting the fragment to a key and reading it back gives the key. */
  lemma StripHashRoundTrip(key: Key)
    ensures StripHash("#" + key) == key
  {
  }

  /** `preRender(key)`: the input shows the key, the previous sections and messages are
      removed, the button is hidden and the loader shown. */
  function PreRendered(s: PageState, key: Key): PageState {
    s.(input := key, content := WithoutFirst(s.content), banners := [], buttonHidden := true, loaderVisible := true)
  }

  /** `postRender()`: the button is shown and the loader hidden again. */
  function PostRendered(s: PageState): PageState {
    s.(buttonHidden := false, loaderVisible := false)
  }

  /** `renderInfo(data)`: the sections for `data` are appended. */
  function Shown(s: PageState, data: PRData): PageState {
    s.(content := s.content + [Build(data)])
  }

  /** The page after a fetch: its requests logged, then its data shown or its error reported. */
  function Fetched(s: PageState, f: FetchOutcome): PageState {
    var logged := s.(log := s.log + f.issued);
    match f.result
    case Success(data) => Shown(logged, data)
    case Failure(e) => logged.(banners := WithError(logged.banners, e))
  }

  /** `loadPR()`. `readClock` is the clock as the cache read sees it and `writeClock` as the
      cache write after the (possibly awaited) fetch sees it; `info` and `reviewers` are what
      the two remote calls would answer. */
  function Load(s: PageState, validate: string -> Option<string>, readClock: int, writeClock: int,
                info: Result<PRInfo, string>, reviewers: Result<seq<Reviewer>, string>): (s': PageState)
    // An empty fragment: nothing happens at all.
    ensures s.hash == "" ==> s' == s
    // A rejected URL: the banner shows the message; nothing is fetched, read or written.
    ensures s.hash != "" && Validated(validate, StripHash(s.hash)).None? ==>
      s' == s.(banners := WithError(s.banners, InvalidUrlMessage))
    // A valid URL: whatever happens, the loader ends hidden, the button shown, and the
    // storage holds an entry for the key written at `writeClock`; no other key changes.
    ensures s.hash != "" && Validated(validate, StripHash(s.hash)).Some? ==>
      var key := Validated(validate, StripHash(s.hash)).value;
      && s'.hash == s.hash && s'.input == key
      && !s'.loaderVisible && !s'.buttonHidden
      && s'.storage.Keys == s.storage.Keys + {key}
      && s'.storage[key].timestamp == writeClock
      && (forall k :: k in s.storage && k != key ==> s'.storage[k] == s.storage[k])
    // A cache hit: nothing is fetched, the cached data is shown and written back.
    ensures s.hash != "" && Validated(validate, StripHash(s.hash)).Some? ==>
      var key := Validated(validate, StripHash(s.hash)).value;
      var read := Lookup(s.storage, key, readClock);
      Truthy(read.value) ==>
        && s'.log == s.log
        && s'.banners == []
        && s'.content == WithoutFirst(s.content) + [Build(read.value.prData.value)]
        && s'.storage[key].prData == read.value.prData
    // A miss (including a fresh entry without data): the fetch runs and is logged; its data
    // is shown and cached, or its error is the only banner and the entry is written empty.
    ensures s.hash != "" && Validated(validate, StripHash(s.hash)).Some? ==>
      var key := Validated(validate, StripHash(s.hash)).value;
      var read := Lookup(s.storage, key, readClock);
      var f := Fetch(key, info, reviewers);
      !Truthy(read.value) ==>
        && s'.log == s.log + f.issued
        && (f.result.Success? ==>
              && s'.banners == []
              && s'.content == WithoutFirst(s.content) + [Build(f.result.value)]
              && s'.storage[key].prData == Some(f.result.value))
        && (f.result.Failure? ==>
              && s'.banners == [f.result.error]
              && s'.content == WithoutFirst(s.content)
              && s'.storage[key].prData == None)
  {
    if s.hash == "" then s
    else
      match Validated(validate, StripHash(s.hash))
      case None => s.(banners := WithError(s.banners, InvalidUrlMessage))
      case Some(key) =>
        var s1 := PreRendered(s, key);
        var read := Lookup(s1.storage, key, readClock);
        var s2 := s1.(storage := read.storage);
        var f := Fetch(key, info, reviewers);
        var s3 := if Truthy(read.value) then Shown(s2, read.value.prData.value) else Fetched(s2, f);
        var prData :=
          if Truthy(read.value) then read.value.prData
          else if f.result.Success? then Some(f.result.value)
          else None;
        PostRendered(s3.(storage := s3.storage[key := Entry(writeClock, prData)]))
  }

  /** `onsubmit`: a rejected input shows the banner; a valid one only moves the fragment to
      the key (the page then reloads through the fragment's change event). Neither fetches
      nor touches the storage. */
  function Submit(s: PageState, validate: string -> Option<string>): (s': PageState)
    ensures s'.log == s.log && s'.storage == s.storage && s'.content == s.content
    ensures s'.input == s.input && s'.loaderVisible == s.loaderVisible && s'.buttonHidden == s.buttonHidden
    ensures Validated(validate, s.input).None? ==>
      s'.hash == s.hash && s'.banners == WithError(s.banners, InvalidUrlMessage)
    ensures Validated(validate, s.input).Some? ==>
      s'.banners == s.banners && s'.hash != "" && StripHash(s'.hash) == Validated(validate, s.input).value
  {
    match Validated(validate, s.input)
    case None => s.(banners := WithError(s.banners, InvalidUrlMessage))
    case Some(key) => s.(hash := "#" + key)
  }
}
