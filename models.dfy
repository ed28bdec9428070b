/** The stored records of the analyzer: rows of the `urls` and `broken_links`
    tables and the per-user statistics (backend/models/url_model.go). */
module Models {
  import opened Wrappers

  /** The analysis status stored in `urls.status`. */
  datatype Status = Queued | Running | Completed | Error {

    /** The text stored in the database column. */
    function Name(): (s: string)
      ensures s in {"queued", "running", "completed", "error"}
    {
      match this
      case Queued => "queued"
      case Running => "running"
      case Completed => "completed"
      case Error => "error"
    }
  }

  /** Every status has its own column text, so the text names the status. */
  lemma StatusNameInjective(a: Status, b: Status)
    requires a.Name() == b.Name()
    ensures a == b
  {
  }

  /** A row of `urls`. The timestamps are left out (they come from the clock). */
  datatype Url = Url(
    id: int,
    userId: int,
    url: string,
    htmlVersion: string,
    title: string,
    h1Count: int,
    h2Count: int,
    h3Count: int,
    internalLinks: int,
    externalLinks: int,
    brokenLinks: int,
    hasLoginForm: bool,
    status: Status,
    errorMessage: Option<string>)

  /** A row of `broken_links`: one broken hyperlink found on the page `urlId`. */
  datatype BrokenLink = BrokenLink(
    urlId: int,
    linkUrl: string,
    statusCode: Option<int>,
    errorMessage: Option<string>)

  /** The dashboard's per-user counters. */
  datatype UrlStats = UrlStats(
    totalUrls: int,
    queuedUrls: int,
    runningUrls: int,
    completedUrls: int,
    errorUrls: int,
    totalBrokenLinks: int)
}
