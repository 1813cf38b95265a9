/** A browsing session as a sequence of events, and what holds across any such sequence. */
module Session {
  import opened Wrappers
  import opened PullRequest
  import opened Cache
  import opened Fetcher
  import opened Render
  import opened PageModel

  /** What can happen to the page: the user edits the input, the fragment is set directly
      (a shared link, the back button), the form is submitted, or the fragment's change event
      runs `loadPR` with the given clock readings and remote answers. */
  datatype Event =
    | Edit(text: string)
    | Navigate(fragment: Hash)
    | SubmitForm
    | HashChange(readClock: int, writeClock: int, info: Result<PRInfo, string>, reviewers: Result<seq<Reviewer>, string>)

  function Step(s: PageState, validate: string -> Option<string>, e: Event): PageState {
    match e
    case Edit(text) => s.(input := text)
    case Navigate(fragment) => s.(hash := fragment)
    case SubmitForm => Submit(s, validate)
    case HashChange(r, w, info, reviewers) => Load(s, validate, r, w, info, reviewers)
  }

  function Run(s: PageState, validate: string -> Option<string>, events: seq<Event>): PageState
    decreases |events|
  {
    if events == [] then s else Run(Step(s, validate, events[0]), validate, events[1..])
  }

  /** Every reviewers request in the log directly follows the info request for the same key. */
  predicate LogWellFormed(log: seq<Request>) {
    forall i :: 0 <= i < |log| && log[i].ReviewersRequest? ==> 0 < i && log[i - 1] == InfoRequest(log[i].key)
  }

  /** At most one error message and at most one rendered pull request, and a well-formed log. */
  predicate Invariant(s: PageState) {
    |s.banners| <= 1 && |s.content| <= 1 && LogWellFormed(s.log)
  }

  lemma InitialInvariant(hash: Hash, storage: map<Key, Entry>)
    ensures Invariant(Initial(hash, storage))
  {
  }

  /** Logging one fetch keeps the log well formed. */
  lemma FetchKeepsLogWellFormed(log: seq<Request>, key: Key, info: Result<PRInfo, string>, reviewers: Result<seq<Reviewer>, string>)
    requires LogWellFormed(log)
    ensures LogWellFormed(log + Fetch(key, info, reviewers).issued)
  {
  }

  lemma StepKeepsInvariant(s: PageState, validate: string -> Option<string>, e: Event)
    requires Invariant(s)
    ensures Invariant(Step(s, validate, e))
  {
  }

  /** Over any session, the error container holds at most one message, at most one pull
      request is rendered, and no reviewers request is sent without the info request for
      the same key just before it. */
  lemma {:induction false} RunKeepsInvariant(s: PageState, validate: string -> Option<string>, events: seq<Event>)
    requires Invariant(s)
    ensures Invariant(Run(s, validate, events))
    decreases |events|
  {
    if events != [] {
      StepKeepsInvariant(s, validate, events[0]);
      RunKeepsInvariant(Step(s, validate, events[0]), validate, events[1..]);
    }
  }

  /** A run of reloads of the current fragment, each one read no later than fifteen minutes
      after the previous one wrote the cache (the first, after `since`). */
  predicate ReloadsWithin(events: seq<Event>, since: int)
    decreases |events|
  {
    events == [] ||
    (&& events[0].HashChange?
     && events[0].readClock - since <= FifteenMinutesInMilliseconds
     && ReloadsWithin(events[1..], events[0].writeClock))
  }

  /** The key the current fragment names, if it is a valid one. */
  function CurrentKey(s: PageState, validate: string -> Option<string>): Option<Key> {
    if s.hash == "" then None else Validated(validate, StripHash(s.hash))
  }

  /** Because every load rewrites the entry with a fresh timestamp, cached data whose reloads
      keep coming within fifteen minutes of each other is never fetched again, however long
      the session lasts: the log does not grow and the cached data stays the same. */
  lemma {:induction false} ReloadsWithinWindowNeverFetch(s: PageState, validate: string -> Option<string>, events: seq<Event>)
    requires CurrentKey(s, validate).Some?
    requires CurrentKey(s, validate).value in s.storage
    requires s.storage[CurrentKey(s, validate).value].prData.Some?
    requires ReloadsWithin(events, s.storage[CurrentKey(s, validate).value].timestamp)
    ensures var key := CurrentKey(s, validate).value;
      var s' := Run(s, validate, events);
      && s'.log == s.log
      && key in s'.storage
      && s'.storage[key].prData == s.storage[key].prData
    decreases |events|
  {
    if events != [] {
      var e := events[0];
      var key := CurrentKey(s, validate).value;
      var s1 := Step(s, validate, e);
      assert Truthy(Lookup(s.storage, key, e.readClock).value);
      assert s1.storage[key] == Entry(e.writeClock, s.storage[key].prData);
      assert CurrentKey(s1, validate) == CurrentKey(s, validate);
      ReloadsWithinWindowNeverFetch(s1, validate, events[1..]);
    }
  }

  /** Loading a pull request that the cache cannot serve (no entry, a stale one, or one
      without data) and loading it again at most fifteen minutes after the first load wrote
      the cache issues one fetch sequence when both stages succeed: the second load is served
      from the cache. */
  lemma SecondLoadIsServedFromCache(s: PageState, validate: string -> Option<string>, r1: int, w1: int, r2: int, w2: int,
                                    info: Result<PRInfo, string>, reviewers: Result<seq<Reviewer>, string>)
    requires CurrentKey(s, validate).Some?
    requires !Truthy(Lookup(s.storage, CurrentKey(s, validate).value, r1).value)
    requires info.Success? && reviewers.Success?
    requires r2 - w1 <= FifteenMinutesInMilliseconds
    ensures var key := CurrentKey(s, validate).value;
      var s1 := Load(s, validate, r1, w1, info, reviewers);
      var s2 := Load(s1, validate, r2, w2, info, reviewers);
      && s2.log == s.log + [InfoRequest(key), ReviewersRequest(key)]
      && s2.content == WithoutFirst(s1.content) + [Build(PRData(info.value, reviewers.value))]
  {
  }

  /** A load whose fetch failed at either stage leaves an entry without data behind; the next load within the window
      treats it as a miss and fetches again. */
  lemma FailedLoadIsFetchedAgain(s: PageState, validate: string -> Option<string>, r1: int, w1: int, r2: int, w2: int,
                                 info: Result<PRInfo, string>, reviewers: Result<seq<Reviewer>, string>,
                                 info2: Result<PRInfo, string>, reviewers2: Result<seq<Reviewer>, string>)
    requires CurrentKey(s, validate).Some?
    requires !Truthy(Lookup(s.storage, CurrentKey(s, validate).value, r1).value)
    requires Fetch(CurrentKey(s, validate).value, info, reviewers).result.Failure?
    requires r2 - w1 <= FifteenMinutesInMilliseconds
    ensures var key := CurrentKey(s, validate).value;
      var s1 := Load(s, validate, r1, w1, info, reviewers);
      var s2 := Load(s1, validate, r2, w2, info2, reviewers2);
      && s1.storage[key] == Entry(w1, None)
      && s2.log == s1.log + Fetch(key, info2, reviewers2).issued
  {
  }

  /** A concrete session: the data fetched at time 0 is still served, without a fetch, by a
      reload thirty minutes later, because a reload at fifteen minutes renewed the entry. */
  lemma DataOutlivesItsWindow(s: PageState, validate: string -> Option<string>, info: PRInfo, reviewers: seq<Reviewer>)
    requires CurrentKey(s, validate).Some?
    requires CurrentKey(s, validate).value !in s.storage
    ensures var key := CurrentKey(s, validate).value;
      var s' := Run(s, validate, [
        HashChange(0, 0, Success(info), Success(reviewers)),
        HashChange(900000, 900000, Failure("unused"), Failure("unused")),
        HashChange(1800000, 1800000, Failure("unused"), Failure("unused"))]);
      && s'.log == s.log + [InfoRequest(key), ReviewersRequest(key)]
      && key in s'.storage
      && s'.storage[key] == Entry(1800000, Some(PRData(info, reviewers)))
  {
    var key := CurrentKey(s, validate).value;
    var events := [
      HashChange(0, 0, Success(info), Success(reviewers)),
      HashChange(900000, 900000, Failure("unused"), Failure("unused")),
      HashChange(1800000, 1800000, Failure("unused"), Failure("unused"))];
    var s1 := Step(s, validate, events[0]);
    assert CurrentKey(s1, validate) == Some(key);
    assert s1.storage[key] == Entry(0, Some(PRData(info, reviewers)));
    assert ReloadsWithin(events[1..], 0) by {
      assert events[1..][1..] == events[2..];
      assert events[2..][1..] == [];
    }
    ReloadsWithinWindowNeverFetch(s1, validate, events[1..]);
    var s2 := Step(s1, validate, events[1]);
    var s3 := Step(s2, validate, events[2]);
    assert CurrentKey(s2, validate) == Some(key);
    assert s3.storage[key].timestamp == 1800000;
    assert events[1..][1..] == events[2..] && events[2..][1..] == [];
    assert Run(s2, validate, events[2..]) == s3;
    assert Run(s1, validate, events[1..]) == Run(s2, validate, events[2..]);
    assert Run(s, validate, events) == Run(s1, validate, events[1..]);
  }

  /** Submitting a valid input and then letting the fragment's change event run loads the
      normalised key, provided the validator maps its own output to itself. */
  lemma SubmitThenLoad(s: PageState, validate: string -> Option<string>, key: Key, r: int, w: int,
                       info: Result<PRInfo, string>, reviewers: Result<seq<Reviewer>, string>)
    requires Validated(validate, s.input) == Some(key)
    requires Validated(validate, key) == Some(key)
    ensures var s' := Run(s, validate, [SubmitForm, HashChange(r, w, info, reviewers)]);
      && s'.input == key
      && key in s'.storage && s'.storage[key].timestamp == w
      && !s'.loaderVisible && !s'.buttonHidden
  {
    var s1 := Submit(s, validate);
    assert StripHash(s1.hash) == key;
    assert Run(s, validate, [SubmitForm, HashChange(r, w, info, reviewers)])
        == Run(s1, validate, [HashChange(r, w, info, reviewers)]);
  }
}
