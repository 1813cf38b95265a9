/** The two-stage fetch of a pull request: its record first, its reviewers only after that. */
module Fetcher {
  import opened Wrappers
  import opened PullRequest

  /** A request sent to the remote API, as recorded in the fetch log. */
  datatype Request = InfoRequest(key: Key) | ReviewersRequest(key: Key)

  /** What a fetch yields (the combined data, or what one of the stages threw) and the
      requests it issued, in order. */
  datatype FetchOutcome = FetchOutcome(result: Result<PRData, string>, issued: seq<Request>)

  /** The fetch as a value. `info` and `reviewers` are what the two remote calls would
      answer; the second is consulted only when the first succeeded. */
  function Fetch(key: Key, info: Result<PRInfo, string>, reviewers: Result<seq<Reviewer>, string>): (f: FetchOutcome)
    ensures 1 <= |f.issued| <= 2 && f.issued[0] == InfoRequest(key)
    ensures ReviewersRequest(key) in f.issued <==> info.Success?
    ensures |f.issued| == 2 ==> f.issued[1] == ReviewersRequest(key)
    ensures f.result.Success? <==> info.Success? && reviewers.Success?
    ensures f.result.Success? ==> f.result.value == PRData(info.value, reviewers.value)
    ensures info.Failure? ==> f.result == Failure(info.error)
    ensures info.Success? && reviewers.Failure? ==> f.result == Failure(reviewers.error)
  {
    if info.Failure? then
      FetchOutcome(Failure(info.error), [InfoRequest(key)])
    else if reviewers.Failure? then
      FetchOutcome(Failure(reviewers.error), [InfoRequest(key), ReviewersRequest(key)])
    else
      FetchOutcome(Success(PRData(info.value, reviewers.value)), [InfoRequest(key), ReviewersRequest(key)])
  }

  /** `fetchPR`: await the record, then the reviewers; the first failure is thrown on. */
  method FetchPR(key: Key, info: Result<PRInfo, string>, reviewers: Result<seq<Reviewer>, string>)
    returns (result: Result<PRData, string>, issued: seq<Request>)
    ensures FetchOutcome(result, issued) == Fetch(key, info, reviewers)
    ensures info.Failure? ==> issued == [InfoRequest(key)] && result == Failure(info.error)
    ensures result.Success? ==> result.value == PRData(info.value, reviewers.value)
  {
    issued := [InfoRequest(key)];
    if info.Failure? {
      result := Failure(info.error);
      return;
    }
    var prInfo := info.value;
    issued := issued + [ReviewersRequest(key)];
    if reviewers.Failure? {
      result := Failure(reviewers.error);
      return;
    }
    result := Success(PRData(prInfo, reviewers.value));
  }
}
