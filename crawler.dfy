/** The page analyzer of backend/utils/crawler.go: it fetches one page, counts
    its headings and links, classifies each link as internal or external and
    probes every link for liveness.

    The network, the HTML parser and `net/url` are not modelled; what they
    return enters as parameters: a `FetchOutcome` for the primary GET, a
    `Document` for the parsed page, a `Resolver` for URL parsing and
    resolution against the page's base URL, and a `LinkFate` per probed link. */
module Crawler {
  import opened Wrappers
  import opened Text

  // ---------------------------------------------------------------------------
  // Result records
  // ---------------------------------------------------------------------------

  /** One broken hyperlink: the HTTP status when the server answered, and an
      error text (the status line, or the normalised transport error). */
  datatype BrokenLinkDetail = BrokenLinkDetail(url: string, statusCode: Option<int>, error: string)

  /** What one analysis returns to the storage layer. */
  datatype CrawlResult = CrawlResult(
    htmlVersion: string,
    title: string,
    h1: int,
    h2: int,
    h3: int,
    internalLinks: int,
    externalLinks: int,
    brokenLinksDetails: seq<BrokenLinkDetail>,
    hasLoginForm: bool)

  /** The version the analyzer reports for every page: it never reads the doctype. */
  const DefaultHtmlVersion := "HTML5"

  // ---------------------------------------------------------------------------
  // Inputs from the libraries the analyzer calls
  // ---------------------------------------------------------------------------

  /** A URL as `net/url` hands it back after resolution: its scheme, its host
      (with the port, if any) and the rest of its text after `scheme:`. */
  datatype ResolvedUrl = ResolvedUrl(scheme: string, host: string, rest: string) {

    /** `URL.String()`: the scheme and a colon, when there is a scheme, then the rest. */
    function Text(): (t: string)
      ensures scheme != "" ==> |t| > |scheme|
    {
      (if scheme == "" then "" else scheme + ":") + rest
    }
  }

  /** `url.Parse(href)` followed by `base.ResolveReference(...)`: `None` when the
      href does not parse (section 5.2 of RFC 3986 is not modelled). */
  type Resolver = string -> Option<ResolvedUrl>

  /** An `<a>` element; `href` is `None` when it has no `href` attribute. */
  datatype Anchor = Anchor(href: Option<string>)

  /** What goquery gives the analyzer about the parsed page: the text of the
      first `<title>`, the sizes of the `h1`, `h2`, `h3` selections, the `<a>`
      elements in document order, and the size of the
      `form input[type="password"]` selection. */
  datatype Document = Document(
    titleText: string,
    h1Elements: nat,
    h2Elements: nat,
    h3Elements: nat,
    anchors: seq<Anchor>,
    passwordInputsInForms: nat)

  // ---------------------------------------------------------------------------
  // Link classification (crawler.go, the `a[href]` loop)
  // ---------------------------------------------------------------------------

  datatype Scope = Internal | External

  /** A link that survived filtering, with its scope. */
  datatype ClassifiedLink = ClassifiedLink(url: ResolvedUrl, scope: Scope)

  predicate IsWebScheme(scheme: string)
  {
    scheme == "http" || scheme == "https"
  }

  /** The link an anchor contributes, if any: none for a missing or empty href,
      an href that does not parse, or a scheme other than http and https. */
  function AcceptedUrl(a: Anchor, resolve: Resolver): (u: Option<ResolvedUrl>)
    ensures u.Some? <==> a.href.Some? && a.href.value != "" && resolve(a.href.value).Some?
                         && IsWebScheme(resolve(a.href.value).value.scheme)
    ensures u.Some? ==> u.value == resolve(a.href.value).value
  {
    match a.href
    case None => None
    case Some(href) =>
      if href == "" then None
      else match resolve(href)
        case None => None
        case Some(abs) => if !IsWebScheme(abs.scheme) then None else Some(abs)
  }

  /** The classified links of a sequence of anchors: the accepted ones in
      document order, duplicates kept, each internal exactly when its host
      string equals the base URL's host string. */
  function Classify(anchors: seq<Anchor>, baseHost: string, resolve: Resolver): (cs: seq<ClassifiedLink>)
    ensures |cs| <= |anchors|
    decreases |anchors|
  {
    if |anchors| == 0 then []
    else
      var init := Classify(anchors[..|anchors| - 1], baseHost, resolve);
      match AcceptedUrl(anchors[|anchors| - 1], resolve)
      case None => init
      case Some(u) => init + [ClassifiedLink(u, if u.host == baseHost then Internal else External)]
  }

  /** Every classified link is an http or https URL, and it is internal exactly
      when its host is the base host. */
  lemma {:induction false} ClassifiedLinksShape(anchors: seq<Anchor>, baseHost: string, resolve: Resolver)
    ensures forall l :: l in Classify(anchors, baseHost, resolve) ==>
              (IsWebScheme(l.url.scheme) && (l.scope == Internal <==> l.url.host == baseHost))
    decreases |anchors|
  {
    if |anchors| > 0 {
      var init := Classify(anchors[..|anchors| - 1], baseHost, resolve);
      ClassifiedLinksShape(anchors[..|anchors| - 1], baseHost, resolve);
      var a := anchors[|anchors| - 1];
      var cs := Classify(anchors, baseHost, resolve);
      if AcceptedUrl(a, resolve).Some? {
        var u := AcceptedUrl(a, resolve).value;
        assert IsWebScheme(u.scheme);
        assert cs == init + [ClassifiedLink(u, if u.host == baseHost then Internal else External)];
      } else {
        assert cs == init;
      }
    }
  }

  /** What one anchor on its own contributes. */
  function ClassifyOne(a: Anchor, baseHost: string, resolve: Resolver): seq<ClassifiedLink>
  {
    Classify([a], baseHost, resolve)
  }

  /** Classification respects document order: the links of a page made of two
      parts are the links of the first part followed by those of the second. */
  lemma {:induction false} ClassifyAppend(a: seq<Anchor>, b: seq<Anchor>, baseHost: string, resolve: Resolver)
    ensures Classify(a + b, baseHost, resolve) == Classify(a, baseHost, resolve) + Classify(b, baseHost, resolve)
    decreases |b|
  {
    if |b| == 0 {
      assert a + b == a;
    } else {
      var b' := b[..|b| - 1];
      assert (a + b)[..|a + b| - 1] == a + b';
      assert (a + b)[|a + b| - 1] == b[|b| - 1];
      ClassifyAppend(a, b', baseHost, resolve);
    }
  }

  /** Reading the page from the front: the first anchor's link, if any, comes
      first, then the links of the rest. */
  lemma ClassifyCons(a: Anchor, rest: seq<Anchor>, baseHost: string, resolve: Resolver)
    ensures Classify([a] + rest, baseHost, resolve)
         == ClassifyOne(a, baseHost, resolve) + Classify(rest, baseHost, resolve)
    ensures ClassifyOne(a, baseHost, resolve)
         == match AcceptedUrl(a, resolve)
            case None => []
            case Some(u) => [ClassifiedLink(u, if u.host == baseHost then Internal else External)]
  {
    ClassifyAppend([a], rest, baseHost, resolve);
    assert [a][..0] == [];
  }

  /** An anchor with an empty, missing or unparseable href, or one that resolves
      to a scheme other than http and https, leaves the classification of the
      rest of the page exactly as it was. */
  lemma RejectedAnchorIgnored(before: seq<Anchor>, a: Anchor, after: seq<Anchor>, baseHost: string, resolve: Resolver)
    requires a.href.None? || a.href.value == "" || resolve(a.href.value).None?
             || !IsWebScheme(resolve(a.href.value).value.scheme)
    ensures Classify(before + [a] + after, baseHost, resolve) == Classify(before + after, baseHost, resolve)
  {
    ClassifyAppend(before + [a], after, baseHost, resolve);
    ClassifyAppend(before, [a], baseHost, resolve);
    ClassifyAppend(before, after, baseHost, resolve);
    assert [a][..0] == [];
  }

  /** The number of classified links with the given scope. */
  function CountScope(cs: seq<ClassifiedLink>, scope: Scope): (n: nat)
    ensures n <= |cs|
  {
    if |cs| == 0 then 0
    else CountScope(cs[..|cs| - 1], scope) + (if cs[|cs| - 1].scope == scope then 1 else 0)
  }

  /** Every accepted link is counted exactly once, as internal or as external. */
  lemma {:induction false} CountScopePartition(cs: seq<ClassifiedLink>)
    ensures CountScope(cs, Internal) + CountScope(cs, External) == |cs|
  {
    if |cs| > 0 {
      CountScopePartition(cs[..|cs| - 1]);
    }
  }

  /** The absolute text of each classified link, in order. */
  function LinkTexts(cs: seq<ClassifiedLink>): (ts: seq<string>)
    ensures |ts| == |cs|
    ensures forall i :: 0 <= i < |cs| ==> ts[i] == cs[i].url.Text()
  {
    seq(|cs|, i requires 0 <= i < |cs| => cs[i].url.Text())
  }

  /** No classified link has an empty text, so every link handed to the
      broken-link check is a real URL. */
  lemma LinkTextsNonEmpty(anchors: seq<Anchor>, baseHost: string, resolve: Resolver)
    ensures var ts := LinkTexts(Classify(anchors, baseHost, resolve));
            forall i :: 0 <= i < |ts| ==> ts[i] != ""
  {
    ClassifiedLinksShape(anchors, baseHost, resolve);
  }

  /** One more anchor adds at most its own link to the classification. */
  lemma ClassifyStep(anchors: seq<Anchor>, i: nat, baseHost: string, resolve: Resolver)
    requires i < |anchors|
    ensures Classify(anchors[..i + 1], baseHost, resolve)
            == Classify(anchors[..i], baseHost, resolve)
               + match AcceptedUrl(anchors[i], resolve)
                 case None => []
                 case Some(u) => [ClassifiedLink(u, if u.host == baseHost then Internal else External)]
  {
    assert anchors[..i + 1][..i] == anchors[..i];
  }

  /** Appending one link adds its text and counts it in its own scope. */
  lemma CountsStep(cs: seq<ClassifiedLink>, c: ClassifiedLink)
    ensures LinkTexts(cs + [c]) == LinkTexts(cs) + [c.url.Text()]
    ensures CountScope(cs + [c], Internal) == CountScope(cs, Internal) + (if c.scope == Internal then 1 else 0)
    ensures CountScope(cs + [c], External) == CountScope(cs, External) + (if c.scope == External then 1 else 0)
  {
    assert (cs + [c])[..|cs|] == cs;
  }

  /** The checks at the head of the link loop, in the early-return form the
      loop body has: an anchor without an `href`, one that does not resolve
      against the base URL, and one whose scheme is not http or https are all
      skipped. `AcceptedUrl` is the same filter as one expression, and is what
      the loop's invariants are stated with. */
  method AcceptLink(a: Anchor, resolve: Resolver) returns (link: Option<ResolvedUrl>)
    ensures link == AcceptedUrl(a, resolve)
  {
    if a.href.None? || a.href.value == "" {
      return None;
    }
    var resolved := resolve(a.href.value);
    if resolved.None? {
      return None;
    }
    var absoluteUrl := resolved.value;
    if absoluteUrl.scheme != "http" && absoluteUrl.scheme != "https" {
      return None;
    }
    return Some(absoluteUrl);
  }

  /** The `a[href]` loop of `CrawlURL`: walks the anchors in document order,
      counts internal and external links and collects their absolute texts. */
  method ClassifyLinks(anchors: seq<Anchor>, baseHost: string, resolve: Resolver)
    returns (internal: nat, external: nat, linksToCheck: seq<string>)
    ensures linksToCheck == LinkTexts(Classify(anchors, baseHost, resolve))
    ensures internal == CountScope(Classify(anchors, baseHost, resolve), Internal)
    ensures external == CountScope(Classify(anchors, baseHost, resolve), External)
    ensures internal + external == |linksToCheck|
  {
    internal, external, linksToCheck := 0, 0, [];
    var i := 0;
    ghost var cs: seq<ClassifiedLink> := [];
    while i < |anchors|
      invariant 0 <= i <= |anchors|
      invariant cs == Classify(anchors[..i], baseHost, resolve)
      invariant linksToCheck == LinkTexts(cs)
      invariant internal == CountScope(cs, Internal)
      invariant external == CountScope(cs, External)
      invariant internal + external == |linksToCheck|
    {
      ClassifyStep(anchors, i, baseHost, resolve);
      var accepted := AcceptLink(anchors[i], resolve);
      i := i + 1;
      if accepted.None? {
        continue;
      }
      var absoluteUrl := accepted.value;
      var scope := if absoluteUrl.host == baseHost then Internal else External;
      CountsStep(cs, ClassifiedLink(absoluteUrl, scope));
      cs := cs + [ClassifiedLink(absoluteUrl, scope)];
      if absoluteUrl.host == baseHost {
        internal := internal + 1;
      } else {
        external := external + 1;
      }
      linksToCheck := linksToCheck + [absoluteUrl.Text()];
    }
    assert anchors[..i] == anchors;
  }

  // ---------------------------------------------------------------------------
  // Probing one link (checkSingleLink)
  // ---------------------------------------------------------------------------

  /** What the HEAD probe of one link ended with. */
  datatype ProbeOutcome =
    | ProbeRequestInvalid(err: string)            // `http.NewRequestWithContext` failed
    | ProbeFailed(err: string)                    // `client.Do` failed
    | ProbeAnswered(statusCode: int, status: string)  // the server answered

  /** A probe that failed outright or was answered with a status of 400 or more. */
  predicate IsFailedProbe(outcome: ProbeOutcome)
  {
    !outcome.ProbeAnswered? || outcome.statusCode >= 400
  }

  /** The transport error text of a failed probe, normalised by the first
      matching keyword: timeouts, unknown hosts and refused connections get
      fixed messages, everything else is kept verbatim. */
  function NormalizeLinkError(err: string): (msg: string)
    ensures Contains(err, "context deadline exceeded") ==> msg == "Link check timeout"
    ensures (!Contains(err, "context deadline exceeded") && Contains(err, "no such host"))
            ==> msg == "Host not found"
    ensures (!Contains(err, "context deadline exceeded") && !Contains(err, "no such host")
             && Contains(err, "connection refused")) ==> msg == "Connection refused"
    ensures (!Contains(err, "context deadline exceeded") && !Contains(err, "no such host")
             && !Contains(err, "connection refused")) ==> msg == err
  {
    if Contains(err, "context deadline exceeded") then "Link check timeout"
    else if Contains(err, "no such host") then "Host not found"
    else if Contains(err, "connection refused") then "Connection refused"
    else err
  }

  /** Every character of a contained string occurs in the containing one. */
  lemma {:induction false} ContainsChars(s: string, sub: string, c: char)
    requires Contains(s, sub) && c in sub
    ensures c in s
    decreases |s|
  {
    if sub <= s {
      var k :| 0 <= k < |sub| && sub[k] == c;
      assert s[k] == c;
    } else {
      ContainsChars(s[1..], sub, c);
      assert s[1..] <= s[1..];
    }
  }

  /** A string of the same length is contained only when it is equal. */
  lemma ContainsSameLength(s: string, sub: string)
    requires Contains(s, sub) && |sub| == |s|
    ensures s == sub
  {
    if !(sub <= s) {
      ContainsLength(s[1..], sub);
    }
  }

  /** A message that names none of the three failures passes through. */
  lemma UnmatchedErrorKept(m: string)
    requires !Contains(m, "context deadline exceeded") && !Contains(m, "no such host")
             && !Contains(m, "connection refused")
    ensures NormalizeLinkError(m) == m
  {
  }

  /** A string is not contained in a shorter one. */
  lemma NotContainedInShorter(s: string, sub: string)
    requires |s| < |sub|
    ensures !Contains(s, sub)
  {
    if Contains(s, sub) {
      ContainsLength(s, sub);
    }
  }

  /** A string is not contained in one that lacks one of its characters. */
  lemma NotContainedWithoutChar(s: string, sub: string, c: char)
    requires c in sub && c !in s
    ensures !Contains(s, sub)
  {
    if Contains(s, sub) {
      ContainsChars(s, sub, c);
    }
  }

  // Each of the three fixed messages is left as it is.

  lemma TimeoutMessageKept(m: string)
    requires m == "Link check timeout"
    ensures NormalizeLinkError(m) == m
  {
    NotContainedInShorter(m, "context deadline exceeded");
    NotContainedWithoutChar(m, "no such host", 's');
    NotContainedWithoutChar(m, "connection refused", 'r');
    UnmatchedErrorKept(m);
  }

  lemma HostMessageKept(m: string)
    requires m == "Host not found"
    ensures NormalizeLinkError(m) == m
  {
    NotContainedInShorter(m, "context deadline exceeded");
    NotContainedWithoutChar(m, "no such host", 'h');
    NotContainedInShorter(m, "connection refused");
    UnmatchedErrorKept(m);
  }

  lemma RefusedMessageKept(m: string)
    requires m == "Connection refused"
    ensures NormalizeLinkError(m) == m
  {
    NotContainedInShorter(m, "context deadline exceeded");
    NotContainedWithoutChar(m, "no such host", 'h');
    if Contains(m, "connection refused") {
      ContainsSameLength(m, "connection refused");
    }
    UnmatchedErrorKept(m);
  }

  /** The three normalised messages mention none of the keywords, so
      normalising a normalised message leaves it unchanged. */
  lemma NormalizeLinkErrorIdempotent(err: string)
    ensures NormalizeLinkError(NormalizeLinkError(err)) == NormalizeLinkError(err)
  {
    var m := NormalizeLinkError(err);
    if m == "Link check timeout" {
      TimeoutMessageKept(m);
    } else if m == "Host not found" {
      HostMessageKept(m);
    } else if m == "Connection refused" {
      RefusedMessageKept(m);
    }
  }

  /** `checkSingleLink`: the broken-link record of one probe, or `None` when the
      link is fine or the probe failed because the analysis was cancelled
      (`ctxErr`: the analysis context had already ended). */
  function CheckSingleLink(ctxErr: bool, linkUrl: string, outcome: ProbeOutcome): (d: Option<BrokenLinkDetail>)
    ensures d.Some? <==> IsFailedProbe(outcome) && !(outcome.ProbeFailed? && ctxErr)
    ensures d.Some? ==> d.value.url == linkUrl
    ensures d.Some? && outcome.ProbeAnswered? ==>
              d.value.statusCode == Some(outcome.statusCode) && d.value.error == outcome.status
    ensures d.Some? && outcome.ProbeFailed? ==>
              d.value.statusCode == None && d.value.error == NormalizeLinkError(outcome.err)
    ensures d.Some? && outcome.ProbeRequestInvalid? ==>
              d.value.statusCode == None && d.value.error == "Request creation failed: " + outcome.err
  {
    match outcome
    case ProbeRequestInvalid(err) =>
      Some(BrokenLinkDetail(linkUrl, None, "Request creation failed: " + err))
    case ProbeFailed(err) =>
      if ctxErr then None else Some(BrokenLinkDetail(linkUrl, None, NormalizeLinkError(err)))
    case ProbeAnswered(code, status) =>
      if code >= 400 then Some(BrokenLinkDetail(linkUrl, Some(code), status)) else None
  }

  /** A broken-link record always names its link and says why it is broken:
      it has a status code or a non-empty error text, as long as the link text
      and a transport error's text are not empty. */
  lemma BrokenLinkDetailInformative(ctxErr: bool, linkUrl: string, outcome: ProbeOutcome)
    requires linkUrl != ""
    requires outcome.ProbeFailed? ==> outcome.err != ""
    ensures var d := CheckSingleLink(ctxErr, linkUrl, outcome);
      d.Some? ==> d.value.url != "" && (d.value.statusCode.Some? || d.value.error != "")
  {
    if outcome.ProbeFailed? && !ctxErr {
      var m := NormalizeLinkError(outcome.err);
      assert m == "Link check timeout" || m == "Host not found" || m == "Connection refused" || m == outcome.err;
    }
  }

  // ---------------------------------------------------------------------------
  // Probing all links (checkBrokenLinks), sequentialised
  // ---------------------------------------------------------------------------

  /** What became of the probe of one link: it ran to completion and its
      result was collected (`ctxErr` tells whether the analysis context had
      ended when it failed), or its result never reached the collected list
      (it was cancelled while waiting for a slot, or it finished after the
      prober stopped waiting). */
  datatype LinkFate = Probed(outcome: ProbeOutcome, ctxErr: bool) | Abandoned

  /** The concurrency cap: ten probes at a time, fewer when there are fewer links. */
  function MaxConcurrent(n: nat): (cap: nat)
    ensures cap <= 10 && cap <= n
    ensures cap == 10 || cap == n
    ensures n > 0 ==> cap >= 1
  {
    if n < 10 then n else 10
  }

  /** The record one link adds to the broken list, if any. */
  function FateDetail(linkUrl: string, fate: LinkFate): (ds: seq<BrokenLinkDetail>)
    ensures |ds| <= 1
    ensures forall d :: d in ds ==> d.url == linkUrl
  {
    match fate
    case Abandoned => []
    case Probed(outcome, ctxErr) =>
      match CheckSingleLink(ctxErr, linkUrl, outcome)
      case None => []
      case Some(d) => [d]
  }

  /** The broken-link records collected from the probes of `links`, where
      `fates(i)` is what became of the probe of `links[i]`. */
  function Detected(links: seq<string>, fates: nat -> LinkFate): (ds: seq<BrokenLinkDetail>)
    ensures |ds| <= |links|
    ensures forall d :: d in ds ==> d.url in links
    decreases |links|
  {
    if |links| == 0 then []
    else
      var init := Detected(links[..|links| - 1], fates);
      assert forall d :: d in init ==> d.url in links by {
        forall d | d in init ensures d.url in links {
          var k :| 0 <= k < |links| - 1 && links[..|links| - 1][k] == d.url;
          assert links[k] == d.url;
        }
      }
      init + FateDetail(links[|links| - 1], fates(|links| - 1))
  }

  /** Probing a prefix of the links collects a prefix of the records:
      stopping early only drops the records of links that were not started. */
  lemma {:induction false} DetectedPrefix(links: seq<string>, fates: nat -> LinkFate, n: nat)
    requires n <= |links|
    ensures Detected(links[..n], fates) <= Detected(links, fates)
    decreases |links|
  {
    if n < |links| {
      assert links[..|links| - 1][..n] == links[..n];
      DetectedPrefix(links[..|links| - 1], fates, n);
    } else {
      assert links[..n] == links;
    }
  }

  /** When every probe completes while the analysis is still alive and every
      server answers below 400, nothing is reported broken. */
  lemma {:induction false} DetectedAllHealthy(links: seq<string>, fates: nat -> LinkFate)
    requires forall i :: 0 <= i < |links| ==> fates(i).Probed? && !IsFailedProbe(fates(i).outcome)
    ensures Detected(links, fates) == []
    decreases |links|
  {
    if |links| > 0 {
      DetectedAllHealthy(links[..|links| - 1], fates);
    }
  }

  /** The number of links whose probe fails. */
  function CountFailed(n: nat, fates: nat -> LinkFate): (c: nat)
    ensures c <= n
  {
    if n == 0 then 0
    else CountFailed(n - 1, fates)
         + (if fates(n - 1).Probed? && IsFailedProbe(fates(n - 1).outcome) then 1 else 0)
  }

  /** When every probe completes while the analysis is still alive, exactly one
      record is collected per failing link. */
  lemma {:induction false} DetectedCountsFailures(links: seq<string>, fates: nat -> LinkFate)
    requires forall i :: 0 <= i < |links| ==> fates(i).Probed? && !fates(i).ctxErr
    ensures |Detected(links, fates)| == CountFailed(|links|, fates)
    decreases |links|
  {
    if |links| > 0 {
      DetectedCountsFailures(links[..|links| - 1], fates);
    }
  }

  /** One failing server among otherwise healthy links gives exactly one
      record, carrying that link and its status. */
  lemma {:induction false} DetectedSingleFailure(links: seq<string>, fates: nat -> LinkFate, k: nat, code: int, status: string)
    requires k < |links| && code >= 400
    requires fates(k) == Probed(ProbeAnswered(code, status), false)
    requires forall i :: 0 <= i < |links| && i != k ==> fates(i).Probed? && !IsFailedProbe(fates(i).outcome)
    ensures Detected(links, fates) == [BrokenLinkDetail(links[k], Some(code), status)]
    decreases |links|
  {
    var last := |links| - 1;
    if k == last {
      DetectedAllHealthy(links[..last], fates);
    } else {
      DetectedSingleFailure(links[..last], fates, k, code, status);
    }
  }

  /** `checkBrokenLinks`, with the probes run one after another in link order.
      `ctxDoneAt` is the index of the first link at which the loop sees the
      analysis context ended (`|links|` or more when it never does). Returns
      the collected records and the concurrency cap it computes. */
  method CheckBrokenLinks(ctxDoneAt: nat, links: seq<string>, fates: nat -> LinkFate)
    returns (brokenLinks: seq<BrokenLinkDetail>, maxConcurrent: nat)
    ensures brokenLinks == Detected(links[..if ctxDoneAt < |links| then ctxDoneAt else |links|], fates)
    ensures |brokenLinks| <= |links|
    ensures forall d :: d in brokenLinks ==> d.url in links
    ensures maxConcurrent == MaxConcurrent(|links|)
    ensures maxConcurrent <= 10 && (|links| > 0 ==> 1 <= maxConcurrent <= |links|)
  {
    brokenLinks := [];
    maxConcurrent := MaxConcurrent(|links|);
    var i := 0;
    while i < |links|
      invariant 0 <= i <= |links| && i <= ctxDoneAt
      invariant brokenLinks == Detected(links[..i], fates)
    {
      if i == ctxDoneAt {
        break;
      }
      assert links[..i + 1][..i] == links[..i];
      brokenLinks := brokenLinks + FateDetail(links[i], fates(i));
      i := i + 1;
    }
    DetectedStarted(links, fates, i);
  }

  /** The records of the links started so far number at most the links, and
      each names one of them. */
  lemma DetectedStarted(links: seq<string>, fates: nat -> LinkFate, n: nat)
    requires n <= |links|
    ensures |Detected(links[..n], fates)| <= |links|
    ensures forall d :: d in Detected(links[..n], fates) ==> d.url in links
  {
  }

  // ---------------------------------------------------------------------------
  // The primary fetch and its error messages (CrawlURL)
  // ---------------------------------------------------------------------------

  /** The classes of transport failure of the primary GET, in the order they are tested. */
  datatype FetchFailure = Timeout | HostNotFound | Refused | BadCertificate | NetworkError

  /** The first keyword of the error text decides the class. */
  function ClassifyFetchError(err: string): (k: FetchFailure)
    ensures k == Timeout <==> Contains(err, "context deadline exceeded")
    ensures k == HostNotFound <==> !Contains(err, "context deadline exceeded") && Contains(err, "no such host")
    ensures k == Refused <==> !Contains(err, "context deadline exceeded") && !Contains(err, "no such host")
                               && Contains(err, "connection refused")
    ensures k == BadCertificate <==> !Contains(err, "context deadline exceeded") && !Contains(err, "no such host")
                                     && !Contains(err, "connection refused") && Contains(err, "certificate")
  {
    if Contains(err, "context deadline exceeded") then Timeout
    else if Contains(err, "no such host") then HostNotFound
    else if Contains(err, "connection refused") then Refused
    else if Contains(err, "certificate") then BadCertificate
    else NetworkError
  }

  /** The fixed opening of each class's message. */
  function FetchFailurePrefix(k: FetchFailure): (p: string)
    ensures |p| > 2 && p[|p| - 2..] == ": "
  {
    match k
    case Timeout => "website timeout: "
    case HostNotFound => "website not found: "
    case Refused => "connection refused: "
    case BadCertificate => "SSL certificate error: "
    case NetworkError => "network error: "
  }

  /** The message of a failed primary GET of `target` with error text `err`. */
  function FetchErrorMessage(target: string, err: string): (msg: string)
    ensures FetchFailurePrefix(ClassifyFetchError(err)) <= msg
  {
    var k := ClassifyFetchError(err);
    var tail := match k
      case Timeout => target + " took too long to respond (>60s)"
      case HostNotFound => target + " does not exist"
      case Refused => target + " is not accepting connections"
      case BadCertificate => target + " has invalid certificate"
      case NetworkError => err;
    assert (FetchFailurePrefix(k) + tail)[..|FetchFailurePrefix(k)|] == FetchFailurePrefix(k);
    FetchFailurePrefix(k) + tail
  }

  /** Reads the failure class back from a message by its opening. */
  function FetchFailureOfMessage(msg: string): Option<FetchFailure>
  {
    if FetchFailurePrefix(Timeout) <= msg then Some(Timeout)
    else if FetchFailurePrefix(HostNotFound) <= msg then Some(HostNotFound)
    else if FetchFailurePrefix(Refused) <= msg then Some(Refused)
    else if FetchFailurePrefix(BadCertificate) <= msg then Some(BadCertificate)
    else if FetchFailurePrefix(NetworkError) <= msg then Some(NetworkError)
    else None
  }

  /** The five messages are told apart by their openings: the class can be
      recovered from the stored message. */
  lemma FetchErrorMessageClassRecoverable(target: string, err: string)
    ensures FetchFailureOfMessage(FetchErrorMessage(target, err)) == Some(ClassifyFetchError(err))
  {
    var k := ClassifyFetchError(err);
    var msg := FetchErrorMessage(target, err);
    assert FetchFailurePrefix(k) <= msg;
    PrefixesDisjoint(k, msg);
  }

  lemma PrefixesDisjoint(k: FetchFailure, msg: string)
    requires FetchFailurePrefix(k) <= msg
    ensures FetchFailureOfMessage(msg) == Some(k)
  {
    var p := FetchFailurePrefix(k);
    assert msg[..|p|] == p;
    if k != Timeout { assert msg[8] != FetchFailurePrefix(Timeout)[8]; }
    if k != HostNotFound && k != Timeout {
      assert msg[0] != 'w';
    }
    if k != Refused && k != Timeout && k != HostNotFound {
      assert msg[0] != 'c';
    }
    if k == NetworkError {
      assert msg[0] != 'S';
    }
  }

  /** The message names its class in words a caller can search for. */
  lemma FetchErrorMessageMentionsClass(target: string, err: string)
    ensures var msg := FetchErrorMessage(target, err);
      match ClassifyFetchError(err)
      case Timeout => Contains(msg, "timeout")
      case HostNotFound => Contains(msg, "not found")
      case Refused => Contains(msg, "connection refused")
      case BadCertificate => Contains(msg, "certificate")
      case NetworkError => Contains(msg, "network error")
  {
    MentionsClassOfPrefix(ClassifyFetchError(err), FetchErrorMessage(target, err));
  }

  /** Every class prefix names its class. */
  lemma MentionsClassOfPrefix(k: FetchFailure, msg: string)
    requires FetchFailurePrefix(k) <= msg
    ensures match k
      case Timeout => Contains(msg, "timeout")
      case HostNotFound => Contains(msg, "not found")
      case Refused => Contains(msg, "connection refused")
      case BadCertificate => Contains(msg, "certificate")
      case NetworkError => Contains(msg, "network error")
  {
    match k
    case Timeout => TimeoutPrefixMentions(msg);
    case HostNotFound => HostPrefixMentions(msg);
    case Refused => RefusedPrefixMentions(msg);
    case BadCertificate => CertificatePrefixMentions(msg);
    case NetworkError => NetworkPrefixMentions(msg);
  }

  // One lemma per class keeps each proof about a single literal.

  lemma TimeoutPrefixMentions(msg: string)
    requires "website timeout: " <= msg
    ensures Contains(msg, "timeout")
  {
    ContainsInPrefix(msg, "website timeout: ", "timeout", 8);
  }

  lemma HostPrefixMentions(msg: string)
    requires "website not found: " <= msg
    ensures Contains(msg, "not found")
  {
    ContainsInPrefix(msg, "website not found: ", "not found", 8);
  }

  lemma RefusedPrefixMentions(msg: string)
    requires "connection refused: " <= msg
    ensures Contains(msg, "connection refused")
  {
    ContainsInPrefix(msg, "connection refused: ", "connection refused", 0);
  }

  lemma CertificatePrefixMentions(msg: string)
    requires "SSL certificate error: " <= msg
    ensures Contains(msg, "certificate")
  {
    assert "SSL certificate error: "[4..15] == "certificate";
    ContainsInPrefix(msg, "SSL certificate error: ", "certificate", 4);
  }

  lemma NetworkPrefixMentions(msg: string)
    requires "network error: " <= msg
    ensures Contains(msg, "network error")
  {
    ContainsInPrefix(msg, "network error: ", "network error", 0);
  }

  /** A string contains whatever its opening contains. */
  lemma ContainsInPrefix(msg: string, p: string, sub: string, i: nat)
    requires p <= msg && i + |sub| <= |p| && p[i..i + |sub|] == sub
    ensures Contains(msg, sub)
  {
    assert msg[i..i + |sub|] == p[i..i + |sub|];
    ContainsAt(msg, sub, i);
  }

  /** The message of a primary GET answered with a status of 400 or more;
      `status` is Go's status line, such as "404 Not Found". */
  function StatusErrorMessage(target: string, code: int, status: string): (msg: string)
    ensures StatusFailurePrefix <= msg
    ensures FetchFailureOfMessage(msg) == None
    ensures Contains(msg, target)
  {
    var rest := " returned " + IntToDecimal(code) + " " + status;
    ContainsInfix(StatusFailurePrefix, target, rest);
    PrefixOfConcat(StatusFailurePrefix, target + rest);
    assert StatusFailurePrefix + target + rest == StatusFailurePrefix + (target + rest);
    StatusMessageUnclassified(StatusFailurePrefix + target + rest);
    StatusFailurePrefix + target + rest
  }

  /** The opening of the message of a page answered with an error status. */
  const StatusFailurePrefix: string := "website error: "

  lemma PrefixOfConcat(p: string, rest: string)
    ensures p <= p + rest
  {
    assert (p + rest)[..|p|] == p;
  }

  /** An error-status message is told apart from every transport failure. */
  lemma StatusMessageUnclassified(msg: string)
    requires StatusFailurePrefix <= msg
    ensures FetchFailureOfMessage(msg) == None
  {
    assert msg[0] == 'w' && msg[8] == 'e';
  }

  // ---------------------------------------------------------------------------
  // The whole analysis (CrawlURL)
  // ---------------------------------------------------------------------------

  /** How the response body turned out. */
  datatype Body =
    | GzipFailed(err: string)     // the body claimed gzip and `gzip.NewReader` failed
    | ParseFailed(err: string)    // goquery could not read a document
    | Parsed(doc: Document)

  /** How the primary GET turned out. */
  datatype FetchOutcome =
    | RequestInvalid(err: string)   // `http.NewRequestWithContext` failed
    | TransportFailed(err: string)  // `client.Do` failed
    | Responded(statusCode: int, status: string, body: Body)

  /** `CrawlURL`: analyses the page `target`. `baseHost` is the host of
      `url.Parse(target)` or that call's error text; `resolve` resolves hrefs
      against that base; `ctxDoneAt` and `fates` describe the probing. Fetch
      and parse failures give an error message and no result; on success the
      result holds the page structure, the link counts and the records of the
      broken links, and probing happens only when there is a link to probe. */
  method CrawlURL(target: string, fetch: FetchOutcome, baseHost: Result<string, string>,
                  resolve: Resolver, ctxDoneAt: nat, fates: nat -> LinkFate)
    returns (r: Result<CrawlResult, string>)
    ensures fetch.RequestInvalid? ==> r == Err("failed to create request: " + fetch.err)
    ensures fetch.TransportFailed? ==> r == Err(FetchErrorMessage(target, fetch.err))
    ensures fetch.Responded? && fetch.statusCode >= 400 ==>
              r == Err(StatusErrorMessage(target, fetch.statusCode, fetch.status))
    ensures fetch.Responded? && fetch.statusCode < 400 && fetch.body.GzipFailed? ==>
              r == Err("failed to create gzip reader: " + fetch.body.err)
    ensures fetch.Responded? && fetch.statusCode < 400 && fetch.body.ParseFailed? ==>
              r == Err("parsing error: failed to parse HTML from " + target + ": " + fetch.body.err)
    ensures fetch.Responded? && fetch.statusCode < 400 && fetch.body.Parsed? && baseHost.Err? ==>
              r == Err("failed to parse base URL: " + baseHost.error)
    ensures r.Ok? <==> fetch.Responded? && fetch.statusCode < 400 && fetch.body.Parsed? && baseHost.Ok?
    ensures r.Ok? ==>
              var doc := fetch.body.doc;
              var links := Classify(doc.anchors, baseHost.value, resolve);
              var texts := LinkTexts(links);
              && r.value.htmlVersion == DefaultHtmlVersion
              && r.value.title == TrimSpace(doc.titleText)
              && r.value.h1 == doc.h1Elements && r.value.h2 == doc.h2Elements && r.value.h3 == doc.h3Elements
              && r.value.internalLinks == CountScope(links, Internal)
              && r.value.externalLinks == CountScope(links, External)
              && r.value.internalLinks + r.value.externalLinks == |links|
              && r.value.brokenLinksDetails
                 == (if |links| == 0 then []
                     else Detected(texts[..if ctxDoneAt < |texts| then ctxDoneAt else |texts|], fates))
              && r.value.hasLoginForm == (doc.passwordInputsInForms > 0)
  {
    match fetch
    case RequestInvalid(err) =>
      return Err("failed to create request: " + err);
    case TransportFailed(err) =>
      return Err(FetchErrorMessage(target, err));
    case Responded(code, status, body) =>
      if code >= 400 {
        return Err(StatusErrorMessage(target, code, status));
      }
      match body
      case GzipFailed(err) =>
        return Err("failed to create gzip reader: " + err);
      case ParseFailed(err) =>
        return Err("parsing error: failed to parse HTML from " + target + ": " + err);
      case Parsed(doc) =>
        var htmlVer := DefaultHtmlVersion;
        var title := TrimSpace(doc.titleText);
        if baseHost.Err? {
          return Err("failed to parse base URL: " + baseHost.error);
        }
        var h1, h2, h3 := doc.h1Elements, doc.h2Elements, doc.h3Elements;
        var internal, external, linksToCheck := ClassifyLinks(doc.anchors, baseHost.value, resolve);
        var brokenLinks: seq<BrokenLinkDetail> := [];
        if |linksToCheck| > 0 {
          var cap;
          brokenLinks, cap := CheckBrokenLinks(ctxDoneAt, linksToCheck, fates);
        }
        var hasLogin := doc.passwordInputsInForms > 0;
        return Ok(CrawlResult(htmlVer, title, h1, h2, h3, internal, external, brokenLinks, hasLogin));
  }
}
