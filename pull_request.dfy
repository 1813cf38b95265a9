/** The pull-request data the page fetches and shows, and the validated URL that names it. */
module PullRequest {
  import opened Wrappers

  /** A validated pull-request URL. It is the only key of the session cache; the page treats
      the validator's result as valid only when it is truthy, so a key is never empty. */
  type Key = s: string | s != "" witness "k"

  /** The fields of the pull-request record that the page reads (title, link, state, and the
      base repository's name and link). */
  datatype PRInfo = PRInfo(title: string, htmlUrl: string, state: string, repoFullName: string, repoUrl: string)

  /** One reviewer record, passed unchanged to the reviewer component. */
  datatype Reviewer = Reviewer(raw: string)

  /** The combined result of a successful fetch, `{info, reviewers}`. */
  datatype PRData = PRData(info: PRInfo, reviewers: seq<Reviewer>)

  /** The page's test `if (!prUrl)` applied to the validator's answer: a missing or empty
      result is a rejection, any other result is the key. */
  function Validated(validate: string -> Option<string>, raw: string): (r: Option<Key>)
    ensures r.Some? <==> validate(raw).Some? && validate(raw).value != ""
    ensures r.Some? ==> r.value == validate(raw).value
  {
    match validate(raw)
    case None => None
    case Some(s) => if s == "" then None else Some(s)
  }
}
