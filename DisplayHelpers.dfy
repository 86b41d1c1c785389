/** Display helpers the dashboard components each define in the same words:
    `isGitHubUrl` (ResumeView, ProjectManager) and the falsy branch of
    `formatDate` (ResumeView, ExperienceManager, ContactManager). */
module DisplayHelpers {
  import opened JsValues
  import Text

  /** `if (!url) return false; return url.includes('github.com');` */
  function IsGitHubUrl(url: JsVal<string>): (r: bool)
    ensures !TruthyStr(url) ==> !r
    ensures TruthyStr(url) ==> (r <==> exists i :: Text.OccursAt(url.v, "github.com", i))
  {
    Text.IncludesIff(if url.Val? then url.v else "", "github.com");
    TruthyStr(url) && Text.Includes(url.v, "github.com")
  }

  /** `formatDate`: a falsy date is shown as `missing` ('Present' for an end date,
      'Unknown' for a message date); any other date is rendered by the locale
      formatter, which is a parameter. */
  function FormatDate(date: JsVal<string>, missing: string, render: string -> string): (r: string)
    ensures !TruthyStr(date) ==> r == missing
    ensures TruthyStr(date) ==> r == render(date.v)
  {
    if TruthyStr(date) then render(date.v) else missing
  }

  /** A GitHub repository URL is recognised, wherever `github.com` sits in it. */
  lemma GitHubUrlsRecognised(prefix: string, rest: string)
    ensures IsGitHubUrl(Val(prefix + "github.com" + rest))
  {
    var s := prefix + "github.com" + rest;
    assert s[|prefix|..|prefix| + 10] == "github.com";
    assert Text.OccursAt(s, "github.com", |prefix|);
  }
}
