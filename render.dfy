/** What the page renders: the reviewers heading, the pull-request section and the error banner. */
module Render {
  import opened PullRequest

  const InvalidUrlMessage := "Not a valid GitHub Pull request url!"
  const ReviewersHeading := "Reviewers:"
  const NoReviewersHeading := "No reviewers found for this PR."

  /** The heading above the reviewer list. */
  function ReviewersTitle(reviewers: seq<Reviewer>): (t: string)
    ensures t == ReviewersHeading <==> |reviewers| > 0
    ensures t == NoReviewersHeading <==> |reviewers| == 0
  {
    if |reviewers| > 0 then ReviewersHeading else NoReviewersHeading
  }

  /** One rendered pull request: the info section and the reviewers section, appended together. */
  datatype Section = Section(info: PRInfo, reviewersTitle: string, reviewers: seq<Reviewer>)

  /** The sections built for `data`. */
  function Build(data: PRData): (s: Section)
    ensures s.info == data.info && s.reviewers == data.reviewers
    ensures s.reviewersTitle == ReviewersHeading <==> |data.reviewers| > 0
    ensures s.reviewersTitle == NoReviewersHeading <==> |data.reviewers| == 0
  {
    Section(data.info, ReviewersTitle(data.reviewers), data.reviewers)
  }

  /** The error container after `renderError(msg)`: the message is appended when the container
      is empty and otherwise replaces the first message. */
  function WithError(banners: seq<string>, msg: string): (b: seq<string>)
    ensures |b| >= 1 && b[0] == msg
    ensures |banners| == 0 ==> b == [msg]
    ensures |banners| > 0 ==> |b| == |banners| && b[1..] == banners[1..]
  {
    if |banners| == 0 then banners + [msg] else [msg] + banners[1..]
  }

  /** Showing an error never makes a container of at most one message longer than one. */
  lemma WithErrorKeepsOneBanner(banners: seq<string>, msg: string)
    requires |banners| <= 1
    ensures WithError(banners, msg) == [msg]
  {
  }

  /** The container after `preRender` removed the first info and reviewers sections. */
  function WithoutFirst(content: seq<Section>): (c: seq<Section>)
    ensures |content| > 0 ==> |c| == |content| - 1 && forall i :: 0 <= i < |c| ==> c[i] == content[i + 1]
    ensures |content| == 0 ==> c == []
  {
    if |content| == 0 then content else content[1..]
  }
}
