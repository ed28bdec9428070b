# URL Analyzer core, modelled in Dafny

The URL Analyzer backend stores URLs per user, analyses each page in the
background, and serves listings, statistics and bulk operations over the
stored records. This project models two parts of it.

- **The page analyzer** (`backend/utils/crawler.go`):
  - how the primary GET of a page fails, and the message each failure gets;
  - the `a[href]` loop, which skips unusable hrefs, classifies each accepted
    link as internal or external, and collects the absolute link texts in
    document order;
  - the decision of `checkSingleLink` on one HEAD probe (broken, or not);
  - `checkBrokenLinks`, run one probe after another in link order, with its
    concurrency cap and its early stop on cancellation.
- **The URL handlers** (`backend/handlers/url_handler.go`):
  - the pagination clamp and the page count of `GetUrls`;
  - the SQL text and argument lists of the listing, count and bulk
    statements. The number of `?` placeholders always equals the number of
    arguments;
  - the folding of the per-status counts in `GetStats`;
  - the status of each stored URL: queued on `AddUrl`, running, then
    completed or error in `crawlAndUpdateURL`, and queued again with its
    broken-link rows deleted on `ReanalyzeUrl` and `BulkReanalyze`.
  - the deletions of `BulkDelete`.

Files:

- `wrappers.dfy`:
  - `Wrappers` holds `Option` and `Result`.
  - `Text` holds the parts of Go's `strings` and `fmt` that the model uses:
    `Contains`, `TrimSpace` and `%d`.
- `models.dfy`: the `urls` and `broken_links` rows, the statistics record and
  the status enumeration (`backend/models/url_model.go`).
- `crawler.dfy`: module `Crawler`.
- `handlers.dfy`: module `UrlHandler`. The two tables are the fields of the
  class `UrlStore`, which the handler methods update in place.

What the libraries compute enters the model as parameters:

- the network, as the outcome of a fetch or a probe;
- goquery, as a `Document`: the title text, the heading counts, the anchors
  and the password inputs;
- `net/url`, as a `Resolver` from an href to the resolved scheme, host and
  text;
- the context's cancellation, as the index of the first link at which the
  probe loop sees it;
- the database, as the rows a `GROUP BY` query returns.

## Model

| member | source | states |
|---|---|---|
| Models.Status.Name | backend/models/url_model.go:18 | the column text of each status is one of "queued", "running", "completed", "error" |
| Models.StatusNameInjective | backend/handlers/url_handler.go:592-602 | two statuses with the same column text are the same status |
| Text.Contains | backend/utils/crawler.go:63-72 | `strings.Contains`: the substring is a prefix of the string or of one of its suffixes |
| Text.OccursAt | backend/utils/crawler.go:63-72 | the substring occurs at a given offset |
| Text.ContainsOccurs | backend/utils/crawler.go:63-72 | `Contains` holds exactly when the substring occurs at some offset, both directions |
| Text.ContainsAt | backend/utils/crawler.go:63-72 | `strings.Contains` holds as soon as the substring occurs at some offset |
| Text.ContainsInfix | backend/utils/crawler.go:63-72 | a string contains each piece it was concatenated from |
| Text.ContainsLength | backend/utils/crawler.go:63-72 | a contained string is no longer than the containing one |
| Text.SpaceEnd | backend/utils/crawler.go:103 | the first index from a start on that is not white space: every character skipped is white space, and the one found is not |
| Text.SpaceStart | backend/utils/crawler.go:103 | the index after the last character before an end that is not white space: every character skipped is white space, and the one before it is not |
| Text.IsSpace | backend/utils/crawler.go:103 | `unicode.IsSpace`: tab, newline, vertical tab, form feed, carriage return, space, U+0085, U+00A0, U+1680, U+2000 to U+200A, U+2028, U+2029, U+202F, U+205F and U+3000 |
| Text.TrimSpace | backend/utils/crawler.go:103 | the title is a slice of the raw title text that neither starts nor ends with white space, and every character dropped before or after that slice is white space |
| Text.TrimSpaceIdempotent | backend/utils/crawler.go:103 | trimming an already trimmed title changes nothing |
| Text.Digit | backend/utils/crawler.go:81 | digit d is the character '0' + d |
| Text.NatToDecimal | backend/utils/crawler.go:81 | `%d` of a non-negative number is a non-empty string of decimal digits without a leading zero |
| Text.IntToDecimal | backend/utils/crawler.go:81 | `%d` of an integer starts with '-' exactly when the integer is negative; what follows the sign is a non-empty string of decimal digits without a leading zero |
| Text.DecimalValue | backend/utils/crawler.go:81 | the number a string of decimal digits denotes, read from the left |
| Text.NatToDecimalRoundTrip | backend/utils/crawler.go:81 | reading back the digits `%d` prints for a non-negative number gives that number |
| Text.IntValue | backend/utils/crawler.go:81 | the number a printed integer denotes, minus sign included |
| Text.IntToDecimalRoundTrip | backend/utils/crawler.go:81 | reading back the text `%d` prints for any integer gives that integer |
| Crawler.ResolvedUrl.Text | backend/utils/crawler.go:150 | the text of an absolute URL is longer than its scheme, so it is never empty |
| Crawler.AcceptedUrl | backend/utils/crawler.go:123-140 | an anchor yields a link exactly when its href is present and non-empty, it resolves, and the scheme is http or https; the link is the resolved URL |
| Crawler.Classify | backend/utils/crawler.go:122-151 | the loop keeps at most one link per anchor |
| Crawler.ClassifiedLinksShape | backend/utils/crawler.go:138-147 | every kept link is http or https, and it is internal exactly when its host string equals the base host, port included |
| Crawler.ClassifyAppend | backend/utils/crawler.go:122-151 | the links of a page made of two parts are those of the first part followed by those of the second, so document order is kept and duplicates are not removed |
| Crawler.ClassifyCons | backend/utils/crawler.go:122-151 | the first anchor's link, if it has one, comes before the links of the rest of the page |
| Crawler.RejectedAnchorIgnored | backend/utils/crawler.go:123-140 | inserting an anchor with an empty, missing or unresolvable href, or a non-web scheme, anywhere in a page leaves its classification unchanged |
| Crawler.CountScope | backend/utils/crawler.go:143-147 | a scope counts no more links than were kept |
| Crawler.CountScopePartition | backend/utils/crawler.go:143-147 | internal plus external equals the number of kept links |
| Crawler.LinkTexts | backend/utils/crawler.go:150 | one text per kept link, in order: its absolute URL text |
| Crawler.LinkTextsNonEmpty | backend/utils/crawler.go:150-155 | no link handed to the broken-link check is empty |
| Crawler.ClassifyStep | backend/utils/crawler.go:122-151 | one more anchor appends at most its own link |
| Crawler.CountsStep | backend/utils/crawler.go:143-150 | appending one link appends its text and adds one to the counter of its scope only |
| Crawler.AcceptLink | backend/utils/crawler.go:123-140 | the three skip checks at the head of the loop accept exactly the anchors `AcceptedUrl` accepts |
| Crawler.ClassifyLinks | backend/utils/crawler.go:110-151 | the counters and `linksToCheck` after the loop are those of the classification of all anchors, and internal + external == len(linksToCheck) |
| Crawler.NormalizeLinkError | backend/utils/crawler.go:265-272 | a probe's transport error becomes "Link check timeout", "Host not found" or "Connection refused" by its first matching keyword in that order, and is kept verbatim otherwise |
| Crawler.ContainsChars | backend/utils/crawler.go:265-272 | every character of a contained string occurs in the containing one |
| Crawler.ContainsSameLength | backend/utils/crawler.go:265-272 | a contained string of the same length is the string itself |
| Crawler.UnmatchedErrorKept | backend/utils/crawler.go:265-272 | an error naming none of the three keywords passes through unchanged |
| Crawler.NotContainedInShorter | backend/utils/crawler.go:265-272 | nothing longer than a message is contained in it |
| Crawler.NotContainedWithoutChar | backend/utils/crawler.go:265-272 | a message lacking a character of a keyword does not contain the keyword |
| Crawler.TimeoutMessageKept | backend/utils/crawler.go:266-267 | "Link check timeout" contains no keyword and is left as it is |
| Crawler.HostMessageKept | backend/utils/crawler.go:268-269 | "Host not found" contains no keyword and is left as it is |
| Crawler.RefusedMessageKept | backend/utils/crawler.go:270-271 | "Connection refused" (capitalised) does not match "connection refused" and is left as it is |
| Crawler.NormalizeLinkErrorIdempotent | backend/utils/crawler.go:265-272 | normalising an already normalised message changes nothing |
| Crawler.CheckSingleLink | backend/utils/crawler.go:239-292 | a link is reported exactly when the request cannot be built, the request fails while the analysis is alive, or the status is 400 or more. The record carries the link, plus either the status code and status text, or no code and the normalised error or "Request creation failed: " text |
| Crawler.BrokenLinkDetailInformative | backend/utils/crawler.go:274-287 | every record names a non-empty link and has a status code or a non-empty error |
| Crawler.MaxConcurrent | backend/utils/crawler.go:181-184 | the cap is min(10, number of links), so it is at least 1 when there is a link |
| Crawler.FateDetail | backend/utils/crawler.go:197-214 | one probe adds at most one record, and it names that probe's link |
| Crawler.Detected | backend/utils/crawler.go:188-215 | the collected records number at most the links, and each names one of the links |
| Crawler.DetectedPrefix | backend/utils/crawler.go:188-194 | stopping the loop early yields a prefix of the full collection: unstarted links add nothing |
| Crawler.DetectedStarted | backend/utils/crawler.go:188-215 | the records of the links started before cancellation number at most the links, and each names one of them |
| Crawler.DetectedAllHealthy | backend/utils/crawler.go:282-291 | when every probe is answered below 400, nothing is reported |
| Crawler.CountFailed | backend/utils/crawler.go:209-213 | no more links fail than there are links |
| Crawler.DetectedCountsFailures | backend/utils/crawler.go:209-213 | when every probe completes while the analysis is alive, there is exactly one record per failing link |
| Crawler.DetectedSingleFailure | backend/utils/crawler.go:282-288 | one link answered with status 400 or more among healthy links gives exactly one record, with that link, code and status text |
| Crawler.CheckBrokenLinks | backend/utils/crawler.go:175-236 | the result is the records of the links started before cancellation, in link order. It has at most one record per link, each naming a link, and the cap is exactly min(10, n) |
| Crawler.ClassifyFetchError | backend/utils/crawler.go:60-76 | the class of a primary-fetch error is its first keyword in the order timeout, unknown host, refused, certificate, with any other error a network error; each class is characterised both ways |
| Crawler.FetchErrorMessage | backend/utils/crawler.go:63-75 | the message of a failed fetch starts with its class's fixed opening |
| Crawler.FetchFailurePrefix | backend/utils/crawler.go:63-75 | each class's message opens with its fixed text, which ends in ": " |
| Crawler.FetchErrorMessageClassRecoverable | backend/utils/crawler.go:63-75 | the class can be read back from the message: the five openings are told apart |
| Crawler.PrefixesDisjoint | backend/utils/crawler.go:63-75 | a message starting with one class's opening starts with no earlier-tested opening |
| Crawler.FetchErrorMessageMentionsClass | backend/utils/crawler.go:63-75 | the message contains "timeout", "not found", "connection refused", "certificate" or "network error", by class |
| Crawler.MentionsClassOfPrefix | backend/utils/crawler.go:63-75 | each class's opening contains the words that name the class |
| Crawler.TimeoutPrefixMentions | backend/utils/crawler.go:64 | a message opening "website timeout: " contains "timeout" |
| Crawler.HostPrefixMentions | backend/utils/crawler.go:67 | a message opening "website not found: " contains "not found" |
| Crawler.RefusedPrefixMentions | backend/utils/crawler.go:70 | a message opening "connection refused: " contains "connection refused" |
| Crawler.CertificatePrefixMentions | backend/utils/crawler.go:73 | a message opening "SSL certificate error: " contains "certificate" |
| Crawler.NetworkPrefixMentions | backend/utils/crawler.go:75 | a message opening "network error: " contains "network error" |
| Crawler.ContainsInPrefix | backend/utils/crawler.go:63-75 | a string contains whatever its opening contains |
| Crawler.StatusErrorMessage | backend/utils/crawler.go:80-82 | the message of a page answered with status 400 or more opens with "website error: ", names the target, and is told apart from every transport-failure message |
| Crawler.StatusMessageUnclassified | backend/utils/crawler.go:80-82 | a message opening "website error: " opens with none of the five transport-failure texts |
| Crawler.CrawlURL | backend/utils/crawler.go:36-172 | a failed request, transport, status ≥ 400, gzip, parse or base-URL step gives its error message and no result. Otherwise the result has version "HTML5", the trimmed title, the heading counts and the link counts of the classification (summing to the number of links), the probe records only when there is a link, and the login flag |
| UrlHandler.Reply.HttpStatus | backend/handlers/url_handler.go:25-101 | each reply kind has its own code, both directions: 401 unauthorized, 400 bad request, 404 not found, 409 conflict, 201 created, 200 succeeded; only the last two are below 300 |
| UrlHandler.NormalizePagination | backend/handlers/url_handler.go:165-177 | a page below 1 becomes 1 and a limit outside [1, 100] becomes 10, other values are kept; the offset is (page-1)·limit in 64-bit arithmetic, which equals the exact product and is non-negative whenever that product fits |
| UrlHandler.IsInt64 | backend/handlers/url_handler.go:165-177 | the range of Go's 64-bit `int` |
| UrlHandler.Wrap64 | backend/handlers/url_handler.go:177 | two's-complement wrap-around: the result is a 64-bit integer congruent to the input modulo 2^64, and a value in range is kept |
| UrlHandler.PageOffset | backend/handlers/url_handler.go:177 | the offset as Go computes it is a 64-bit integer, equal to (page-1)·limit and non-negative when that product fits |
| UrlHandler.OffsetWrapsNegative | backend/handlers/url_handler.go:177 | page 100000000000000000 with limit 100 gives a negative offset |
| UrlHandler.CheckedOffset | backend/handlers/url_handler.go:177 | the intended offset: defined exactly when (page-1)·limit fits in 64 bits, and then non-negative and equal to Go's offset |
| UrlHandler.PageCount | backend/handlers/url_handler.go:261 | (total + limit - 1) / limit is the ceiling of total / limit: the pages hold every row, the last page is not empty, and there are no pages without rows |
| UrlHandler.Placeholders | backend/handlers/url_handler.go:180-206 | the number of `?` placeholders of a statement |
| UrlHandler.PlaceholdersMarks | backend/handlers/url_handler.go:180-206 | the placeholders of a statement are exactly its question marks, counted as a multiset |
| UrlHandler.PlaceholdersConcat | backend/handlers/url_handler.go:192-206 | appending statement text adds up the placeholders |
| UrlHandler.NoPlaceholders | backend/handlers/url_handler.go:180-186 | text without `?` has no placeholder |
| UrlHandler.OnePlaceholder | backend/handlers/url_handler.go:188 | text with one `?` has one placeholder |
| UrlHandler.TwoPlaceholders | backend/handlers/url_handler.go:199 | text with two `?` has two placeholders |
| UrlHandler.SelectColumnsPlaceholders | backend/handlers/url_handler.go:181 | the first line of the column list holds no placeholder |
| UrlHandler.HeadingColumnsPlaceholders | backend/handlers/url_handler.go:181 | the heading columns hold no placeholder |
| UrlHandler.LinkColumnsPlaceholders | backend/handlers/url_handler.go:182 | the link columns hold no placeholder |
| UrlHandler.FlagColumnsPlaceholders | backend/handlers/url_handler.go:182 | the broken-link and login columns hold no placeholder |
| UrlHandler.StateColumnsPlaceholders | backend/handlers/url_handler.go:183 | the status columns hold no placeholder |
| UrlHandler.TimeColumnsPlaceholders | backend/handlers/url_handler.go:183 | the timestamp columns hold no placeholder |
| UrlHandler.FromOwnerPlaceholders | backend/handlers/url_handler.go:184-185 | the FROM and WHERE lines hold no placeholder before the owner's `?` |
| UrlHandler.ListSelectPlaceholders | backend/handlers/url_handler.go:180-186 | the listing statement before its filters has exactly one placeholder, for the user |
| UrlHandler.CountSelectPlaceholders | backend/handlers/url_handler.go:188 | the count statement before its filters has exactly one placeholder, for the user |
| UrlHandler.StatusFilterPlaceholders | backend/handlers/url_handler.go:193-194 | the status filter has one placeholder |
| UrlHandler.SearchFilterPlaceholders | backend/handlers/url_handler.go:199-200 | the search filter has two placeholders, for title and url |
| UrlHandler.ListOrderPlaceholders | backend/handlers/url_handler.go:206 | the ordering and paging tail has two placeholders, for limit and offset |
| UrlHandler.FilterArgs | backend/handlers/url_handler.go:189-204 | the count arguments are the user, then the status if one is given, then the search pattern twice if a search is given |
| UrlHandler.FilterClause | backend/handlers/url_handler.go:192-204 | the filter text: " AND status = ?" when a status is given, then " AND (title LIKE ? OR url LIKE ?)" when a search term is given |
| UrlHandler.FilterClausePlaceholders | backend/handlers/url_handler.go:192-204 | the filter text has one placeholder per filter argument after the user's |
| UrlHandler.BuildListQueries | backend/handlers/url_handler.go:180-207 | the count statement is the count head plus the filters; the listing is the listing head plus the same filters plus the paging tail. The count arguments are `FilterArgs`, the listing's are those plus [limit, offset], and each statement has exactly as many placeholders as arguments |
| UrlHandler.ListedPlaceholders | backend/handlers/url_handler.go:180-207 | for every status and search, the count statement has as many placeholders as `FilterArgs` has arguments, and the listing two more |
| UrlHandler.SearchPatternShared | backend/handlers/url_handler.go:198-204 | with a search term, the title slot and the url slot are bound to the same pattern "%" + search + "%" |
| UrlHandler.GetUrls | backend/handlers/url_handler.go:155-207 | without a user the reply is 401, with a user it is always the plan: the clamped page and limit of the parameters, the two statements and their arguments, with the 64-bit offset, and placeholder counts equal to argument counts |
| UrlHandler.InList | backend/handlers/url_handler.go:454-462 | the list for n ids is `?` and `,` alternating, 2n-1 characters long, starting and ending with `?` |
| UrlHandler.InListPlaceholders | backend/handlers/url_handler.go:454-462 | the list for n ids has exactly n placeholders |
| UrlHandler.IdArgs | backend/handlers/url_handler.go:454-461 | the id arguments are the ids in order |
| UrlHandler.BulkDeletePrefixPlaceholders | backend/handlers/url_handler.go:454 | the DELETE head has one placeholder, for the user |
| UrlHandler.BulkSelectPrefixPlaceholders | backend/handlers/url_handler.go:510 | the SELECT head has one placeholder, for the user |
| UrlHandler.BuildInQuery | backend/handlers/url_handler.go:454-464 | the statement is the head, one `?` per id joined by commas, then `)`; the arguments are the user then the ids in order; it has one placeholder more than the head per id |
| UrlHandler.PlanBulk | backend/handlers/url_handler.go:426-464 | no user gives 401, an unbound body "Invalid request format", an empty list "No IDs provided"; any non-empty list builds a statement whose n+1 placeholders match the arguments [user] ++ ids |
| UrlHandler.SumCounts | backend/handlers/url_handler.go:588-604 | the total: the sum of the counts of the rows that scanned |
| UrlHandler.BucketCount | backend/handlers/url_handler.go:588-602 | a status's counter: the count of the last scanned row with that status, 0 when there is none |
| UrlHandler.BucketOfRow | backend/handlers/url_handler.go:592-600 | with distinct statuses, each status's counter receives its own row's count |
| UrlHandler.BucketOfAbsent | backend/handlers/url_handler.go:592-600 | a status no row has leaves its counter at zero |
| UrlHandler.TotalCoversBuckets | backend/handlers/url_handler.go:588-604 | with distinct statuses and non-negative counts, the total is at least queued + running + completed + error |
| UrlHandler.UnknownStatusOnlyInTotal | backend/handlers/url_handler.go:592-602 | a row with an unrecognised status adds to the total and to no counter |
| UrlHandler.GetStats | backend/handlers/url_handler.go:567-617 | without a user the reply is 401, with a user it is always the statistics. A failed count query leaves every counter at 0. Otherwise the total is the sum of the scanned counts, each counter is the count of the last row whose status is that status's column text, and the broken-link total is what its query returned |
| UrlHandler.NewRecord | backend/handlers/url_handler.go:64-98 | a new record has its id, user and url, status queued, no error and no broken links |
| UrlHandler.WithCrawl | backend/handlers/url_handler.go:122-143 | a completed analysis stores each of the page's figures in its column (version, title, h1 to h3, internal and external links, login flag), the number of broken links, and status completed; the id, user, url and error message are kept |
| UrlHandler.Requeued | backend/handlers/url_handler.go:398-402 | requeuing sets queued, clears the error message and changes no other column |
| UrlHandler.BrokenLinkRows | backend/handlers/url_handler.go:145-151 | one row per broken link, in order, with the page's id, the link, its status code and its error |
| UrlHandler.BrokenLinkRowsOfPage | backend/handlers/url_handler.go:147-150 | every row stored for an analysis names its page |
| UrlHandler.WithoutPages | backend/handlers/url_handler.go:411 | deleting the rows of some pages keeps exactly the rows of the other pages |
| UrlHandler.WithoutPagesCount | backend/handlers/url_handler.go:411 | each row of another page is kept as often as it was there, and no row of a deleted page is left |
| UrlHandler.RequeueOneMore | backend/handlers/url_handler.go:547-551 | requeuing one more page of a batch is one record update |
| UrlHandler.OwnedOneMore | backend/handlers/url_handler.go:509-544 | one more listed id joins the selected set exactly when it is stored, owned by the user, and not yet selected |
| UrlHandler.WithoutNoPages | backend/handlers/url_handler.go:552 | deleting the rows of no page keeps every row in order |
| UrlHandler.WithoutPagesTwice | backend/handlers/url_handler.go:546-557 | deleting the rows of one set of pages and then another deletes those of both |
| UrlHandler.ReanalysisReplacesRows | backend/handlers/url_handler.go:107-152 | after a reanalysis and the next analysis, a page holds each row of the new analysis as often as it was found and no other, and every other page keeps its rows with their multiplicities |
| UrlHandler.OwnedIds | backend/handlers/url_handler.go:509-544 | the selected ids are exactly the listed ids that are stored and owned by the user |
| UrlHandler.RequeueAll | backend/handlers/url_handler.go:546-551 | every selected record is requeued, the others are unchanged, and no record is added or removed |
| UrlHandler.RequeueBatch | backend/handlers/url_handler.go:546-557 | the loop requeues each owned listed record once, deletes their rows, and counts each once however often it is listed |
| UrlHandler.UrlStore.AddUrl | backend/handlers/url_handler.go:17-104 | the checks run in order: user (401), body (400 "Invalid request format"), empty URL (400 "URL is required"), duplicate URL for the user (409 with the existing id). A request is stored, as a queued record under a fresh id, exactly when all pass. A rejected request changes nothing |
| UrlHandler.UrlStore.StartCrawl | backend/handlers/url_handler.go:108-109 | the record, if still stored, becomes running; nothing else changes |
| UrlHandler.UrlStore.FinishCrawl | backend/handlers/url_handler.go:111-151 | on error the record becomes error with the message; on success it takes `WithCrawl` and one broken-link row per record is appended, in order |
| UrlHandler.UrlStore.CrawlAndUpdateUrl | backend/handlers/url_handler.go:107-152 | the record ends in completed or error according to the crawl; on error it is the old record with status error and the message, and no row is added; the other records, the set of ids and the next id are unchanged |
| UrlHandler.UrlStore.ReanalyzeUrl | backend/handlers/url_handler.go:371-423 | without a user the reply is 401; for a missing or unowned id it is 404 and nothing changes; for an owned id the record is requeued and that page's broken-link rows are deleted |
| UrlHandler.UrlStore.BulkReanalyze | backend/handlers/url_handler.go:482-564 | after the `PlanBulk` checks, every listed owned record is requeued and its rows deleted, and the reply counts the distinct owned records; a rejected request changes nothing |
| UrlHandler.UrlStore.BulkDelete | backend/handlers/url_handler.go:426-479 | after the `PlanBulk` checks, exactly the listed owned records are deleted, and the reply counts them; broken-link rows are untouched |

## Left out

- Network I/O: the HTTP clients, request headers, timeouts, response bodies and gzip decoding. A fetch or a probe enters as its outcome: an error text, or a status code and status text.
- CheckBrokenLinks: the goroutines, the semaphore, the mutex and the wait group are not modelled. The probes run one after another in link order. In the source, the collected list is in completion order, which is not determined. A probe cancelled while waiting for a slot, and one that finished after the 30-second wait ended, is described as `Abandoned` rather than derived from a timer. So are the probes still running when the launch loop returns early on cancellation (backend/utils/crawler.go:190-192) and when the final wait ends on `ctx.Done()` (backend/utils/crawler.go:231-233): their records are discarded.
- The 90- and 60-second contexts and timeouts are not modelled. Whether the context has ended is a parameter.
- goquery parsing and selectors are not modelled. The title text, heading counts, anchors and password-input count are inputs. An anchor without an `href` attribute is an `Anchor(None)`, which is skipped like an empty href.
- `net/url` parsing, `ResolveReference` (section 5.2 of RFC 3986) and `URL.String()` are not modelled. The resolver is a parameter, and the base host is a parameter or the error text of `url.Parse`.
- Text.TrimSpace: it covers the Unicode White_Space characters that Go's `unicode.IsSpace` accepts. Strings are character sequences, not UTF-8 bytes.
- The HTML version is always "HTML5", as the code hardcodes it (backend/utils/crawler.go:101). The doctype detection suggested by the comment there, and expected by tests, does not exist in the code.
- Database failures and every 500 reply they cause are not modelled. The tables are a store whose statements always succeed. The one exception is the per-status count query of `GetStats`: its failure is the `None` case, as the code tolerates it.
- `GetStats`' broken-link sum query is not computed from the table. Its result is a parameter.
- JSON binding is not modelled. A body that does not bind is `None`.
  - For `AddUrl`, gin's `binding:"required"` also rejects an empty `url`, so in the running program the "URL is required" branch is only reached if binding lets "" through. The model keeps both checks in the code's order.
  - An empty JSON id list binds and gives "No IDs provided", as the code checks its length.
- `strconv.Atoi` for `page` and `limit` is not modelled. The parameters are its results, 0 for text that is not a number, so they lie in the 64-bit range.
- UrlHandler.NormalizePagination: the offset wraps around as Go's 64-bit `int` does, and the model says so (see Findings); it does not model that the database then rejects the negative offset with a 500 reply.
- String comparison inside MySQL is not modelled. The duplicate check of `AddUrl` (`url = ? AND user_id = ?`) and the status filter of `GetUrls` compare by the column collation, which for MySQL's default utf8mb4 collation ignores case and accents. The model compares exact character sequences. The schema and its collations are not part of this model.
- UrlHandler.UrlStore.ReanalyzeUrl: the id is an integer. The source passes the path text to SQL and echoes it in the reply. The reply carries the id itself.
- The JSON response bodies and `GetUrls`' row scanning are not modelled, including rows skipped when they fail to scan. The model stops where the statements are sent.
- Timestamps (`created_at`, `updated_at`) come from the clock and are not modelled.
- Row order within `urls` is not modelled: it is a map from id to record. `broken_links` is a sequence in insertion order, without its own ids.
- `LastInsertId` is modelled as a counter `nextId` that the store increments on each insert.
- UrlHandler.UrlStore.FinishCrawl: the broken-link rows are inserted even when the page's record is gone, as the source's inserts do not check. Foreign-key enforcement is not modelled.
- UrlHandler.UrlStore.BulkDelete: the broken-link rows of deleted pages are left in place. The handler deletes none, and cascading deletes in the schema are not modelled.
- The crawl started in the background is not modelled: a goroutine's crawl is the separate call `CrawlAndUpdateUrl`. The interleaving of concurrent crawls, and a crawl racing a reanalysis of the same record, are not modelled.
- `DeleteUrl`, `GetUrlByID`, authentication, routing and database setup are not part of this model.
- The handler tests expect 400 for an invalid id. No such check exists in the code, so none is modelled.

## Findings

| source | as written | input that shows it | evidently intended | confidence | as-written member | corrected member |
|---|---|---|---|---|---|---|
| backend/handlers/url_handler.go:177 | `offset := (page - 1) * limit` in 64-bit `int`, with `page` unbounded above | `page=100000000000000000&limit=100`: (10^17 - 1)·100 exceeds 2^63 - 1 and wraps to a negative offset | a non-negative offset, or the page rejected when it has none | not executed | UrlHandler.OffsetWrapsNegative | UrlHandler.CheckedOffset |

`GetUrls` keeps the offset as written, since that is what the handler sends to the database; `CheckedOffset` is the bounded definition, proved to agree with it wherever the product fits.
