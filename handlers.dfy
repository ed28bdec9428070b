/** The request-shaping and record-lifecycle logic of
    backend/handlers/url_handler.go: pagination, the SQL text and argument
    lists built for the list and bulk endpoints, the statistics aggregation,
    and the status of each stored URL across adding, crawling and
    reanalysing.

    Gin's request parsing and JSON replies, and the execution of SQL, are not
    modelled. The `urls` and `broken_links` tables are an in-memory store
    whose statements always succeed; what a query returns (a row count, the
    rows of a `GROUP BY`) enters as a parameter. */
module UrlHandler {
  import opened Wrappers
  import opened Models
  import Crawler

  // ---------------------------------------------------------------------------
  // Replies
  // ---------------------------------------------------------------------------

  /** The outcome a handler reports to the client. */
  datatype Reply =
    | Unauthorized                            // no authenticated user
    | BadRequest(error: string)               // the request body is unusable
    | NotFound                                // no such URL owned by the user
    | Conflict(existingId: int)               // the user already stored this URL
    | Created(record: Url)                    // a URL was stored and queued
    | Succeeded(message: string, count: int)  // 200: a bulk or reanalyse request went through
  {
    /** The HTTP status code sent with the reply. */
    function HttpStatus(): (code: int)
      ensures code < 300 <==> Created? || Succeeded?
      ensures Unauthorized? <==> code == 401
      ensures BadRequest? <==> code == 400
      ensures NotFound? <==> code == 404
      ensures Conflict? <==> code == 409
      ensures Created? <==> code == 201
      ensures Succeeded? <==> code == 200
    {
      match this
      case Unauthorized => 401
      case BadRequest(_) => 400
      case NotFound => 404
      case Conflict(_) => 409
      case Created(_) => 201
      case Succeeded(_, _) => 200
    }
  }

  // ---------------------------------------------------------------------------
  // Pagination (GetUrls)
  // ---------------------------------------------------------------------------

  const DefaultLimit := 10
  const MaxLimit := 100

  /** The range of Go's `int` on the 64-bit platforms the server runs on. */
  const MinInt64: int := -0x8000_0000_0000_0000
  const MaxInt64: int := 0x7FFF_FFFF_FFFF_FFFF

  predicate IsInt64(x: int)
  {
    MinInt64 <= x <= MaxInt64
  }

  /** Go's two's-complement wrap-around of a 64-bit `int` result. */
  function Wrap64(x: int): (w: int)
    ensures IsInt64(w)
    ensures (w - x) % 0x1_0000_0000_0000_0000 == 0
    ensures IsInt64(x) ==> w == x
  {
    (x - MinInt64) % 0x1_0000_0000_0000_0000 + MinInt64
  }

  /** The row offset of a page as Go computes it: `(page - 1) * limit` in
      64-bit arithmetic. */
  function PageOffset(page: int, limit: int): (offset: int)
    requires page >= 1 && 1 <= limit <= MaxLimit
    ensures IsInt64(offset)
    ensures (page - 1) * limit <= MaxInt64 ==> offset == (page - 1) * limit && offset >= 0
  {
    assert (page - 1) * limit >= 0 by {
      NonNegativeProduct(page - 1, limit);
    }
    Wrap64((page - 1) * limit)
  }

  /** A page far enough out makes the offset wrap around to a negative number. */
  lemma OffsetWrapsNegative()
    ensures PageOffset(100_000_000_000_000_000, 100) < 0
  {
  }

  /** The offset the listing evidently intends: the first row of the page,
      never negative, and no page whose offset does not fit in an `int`. */
  function CheckedOffset(page: int, limit: int): (offset: Option<int>)
    requires page >= 1 && 1 <= limit <= MaxLimit
    ensures offset.Some? <==> (page - 1) * limit <= MaxInt64
    ensures offset.Some? ==> offset.value >= 0 && offset.value == PageOffset(page, limit)
  {
    if (page - 1) * limit <= MaxInt64 then Some((page - 1) * limit) else None
  }

  /** Clamps the page number and page size read from the query string (as
      `strconv.Atoi` returned them: 0 when the text is not a number) and
      computes the row offset of the page. */
  method NormalizePagination(pageParam: int, limitParam: int) returns (page: int, limit: int, offset: int)
    requires IsInt64(pageParam) && IsInt64(limitParam)
    ensures page == (if pageParam < 1 then 1 else pageParam)
    ensures limit == (if 1 <= limitParam <= MaxLimit then limitParam else DefaultLimit)
    ensures page >= 1 && 1 <= limit <= MaxLimit
    ensures offset == PageOffset(page, limit)
    ensures (page - 1) * limit <= MaxInt64 ==> offset == (page - 1) * limit && offset >= 0
  {
    page, limit := pageParam, limitParam;
    if page < 1 {
      page := 1;
    }
    if limit < 1 || limit > MaxLimit {
      limit := DefaultLimit;
    }
    offset := PageOffset(page, limit);
  }

  lemma NonNegativeProduct(a: nat, b: nat)
    ensures a * b >= 0
  {
  }

  /** The number of pages reported with a listing: the ceiling of
      `total / limit`, so the pages hold every row and the last page is not empty. */
  function PageCount(total: nat, limit: int): (pages: nat)
    requires limit >= 1
    ensures pages * limit >= total
    ensures total > 0 ==> (pages - 1) * limit < total
    ensures total == 0 ==> pages == 0
  {
    var n := total + limit - 1;
    var q := n / limit;
    assert n == q * limit + n % limit && 0 <= n % limit < limit;
    assert q * limit >= total;
    assert (q - 1) * limit == q * limit - limit;
    q
  }

  // ---------------------------------------------------------------------------
  // SQL text and arguments
  // ---------------------------------------------------------------------------

  /** A value bound to a `?` placeholder. */
  datatype SqlArg = IntArg(i: int) | TextArg(s: string)

  /** The number of `?` placeholders in a statement. */
  function Placeholders(query: string): nat
  {
    if |query| == 0 then 0
    else Placeholders(query[..|query| - 1]) + (if query[|query| - 1] == '?' then 1 else 0)
  }

  /** The placeholders of a statement are its question marks. */
  lemma {:induction false} PlaceholdersMarks(query: string)
    ensures Placeholders(query) == multiset(query)['?']
  {
    if |query| > 0 {
      PlaceholdersMarks(query[..|query| - 1]);
      assert query == query[..|query| - 1] + [query[|query| - 1]];
    }
  }

  /** Gluing statement text together adds up the placeholders. */
  lemma {:induction false} PlaceholdersConcat(a: string, b: string)
    ensures Placeholders(a + b) == Placeholders(a) + Placeholders(b)
    decreases |b|
  {
    if |b| == 0 {
      assert a + b == a;
    } else {
      assert (a + b)[..|a + b| - 1] == a + b[..|b| - 1];
      PlaceholdersConcat(a, b[..|b| - 1]);
    }
  }

  /** Text without a `?` has no placeholder. */
  lemma {:induction false} NoPlaceholders(s: string)
    requires '?' !in s
    ensures Placeholders(s) == 0
    decreases |s|
  {
    if |s| > 0 {
      assert s[..|s| - 1] + [s[|s| - 1]] == s;
      NoPlaceholders(s[..|s| - 1]);
    }
  }

  lemma OnePlaceholder(a: string, b: string)
    requires '?' !in a && '?' !in b
    ensures Placeholders(a + "?" + b) == 1
  {
    NoPlaceholders(a);
    NoPlaceholders(b);
    PlaceholdersConcat(a, "?");
    PlaceholdersConcat(a + "?", b);
  }

  lemma TwoPlaceholders(a: string, b: string, c: string)
    requires '?' !in a && '?' !in b && '?' !in c
    ensures Placeholders(a + "?" + b + "?" + c) == 2
  {
    OnePlaceholder(a, b);
    NoPlaceholders(c);
    PlaceholdersConcat(a + "?" + b, "?");
    PlaceholdersConcat(a + "?" + b + "?", c);
  }

  /** The listing statement's column list (the whitespace is that of the
      source's raw string literal), cut into pieces to keep the proofs small. */
  const SelectColumns: string := "\n\t\tSELECT id, user_id, url, html_version, "
  const HeadingColumns: string := "title, h1_count, h2_count, h3_count,"
  const LinkColumns: string := "\n\t\t       internal_links, external_links, "
  const FlagColumns: string := "broken_links, has_login_form, "
  const StateColumns: string := "\n\t\t       status, error_message, "
  const TimeColumns: string := "created_at, updated_at"
  const FromOwner: string := "\n\t\tFROM urls " + "\n\t\tWHERE user_id = "

  /** The listing statement up to its first filter. */
  const ListSelect: string :=
    SelectColumns + HeadingColumns + LinkColumns + FlagColumns + StateColumns + TimeColumns
    + FromOwner + "?" + "\n\t"
  const CountSelect: string := "SELECT COUNT(*) FROM " + "urls WHERE user_id = " + "?"
  const StatusFilter: string := " AND status = " + "?"
  const SearchFilter: string := " AND (title LIKE " + "?" + " OR url LIKE " + "?" + ")"
  const ListOrder: string := " ORDER BY created_at DESC LIMIT " + "?" + " OFFSET " + "?"

  // None of the pieces of the listing statement holds a placeholder.

  lemma SelectColumnsPlaceholders()
    ensures Placeholders(SelectColumns) == 0
  {
    NoPlaceholders(SelectColumns);
  }

  lemma HeadingColumnsPlaceholders()
    ensures Placeholders(HeadingColumns) == 0
  {
    NoPlaceholders(HeadingColumns);
  }

  lemma LinkColumnsPlaceholders()
    ensures Placeholders(LinkColumns) == 0
  {
    NoPlaceholders(LinkColumns);
  }

  lemma FlagColumnsPlaceholders()
    ensures Placeholders(FlagColumns) == 0
  {
    NoPlaceholders(FlagColumns);
  }

  lemma StateColumnsPlaceholders()
    ensures Placeholders(StateColumns) == 0
  {
    NoPlaceholders(StateColumns);
  }

  lemma TimeColumnsPlaceholders()
    ensures Placeholders(TimeColumns) == 0
  {
    NoPlaceholders(TimeColumns);
  }

  lemma FromOwnerPlaceholders()
    ensures Placeholders(FromOwner) == 0
  {
    NoPlaceholders(FromOwner);
  }

  lemma ListSelectPlaceholders()
    ensures Placeholders(ListSelect) == 1
  {
    SelectColumnsPlaceholders();
    HeadingColumnsPlaceholders();
    LinkColumnsPlaceholders();
    FlagColumnsPlaceholders();
    StateColumnsPlaceholders();
    TimeColumnsPlaceholders();
    FromOwnerPlaceholders();
    NoPlaceholders("\n\t");
    var a := SelectColumns;
    PlaceholdersConcat(a, HeadingColumns);
    a := a + HeadingColumns;
    PlaceholdersConcat(a, LinkColumns);
    a := a + LinkColumns;
    PlaceholdersConcat(a, FlagColumns);
    a := a + FlagColumns;
    PlaceholdersConcat(a, StateColumns);
    a := a + StateColumns;
    PlaceholdersConcat(a, TimeColumns);
    a := a + TimeColumns;
    PlaceholdersConcat(a, FromOwner);
    a := a + FromOwner;
    PlaceholdersConcat(a, "?");
    a := a + "?";
    PlaceholdersConcat(a, "\n\t");
  }

  lemma CountSelectPlaceholders()
    ensures Placeholders(CountSelect) == 1
  {
    assert '?' !in "SELECT COUNT(*) FROM " && '?' !in "urls WHERE user_id = ";
    OnePlaceholder("SELECT COUNT(*) FROM " + "urls WHERE user_id = ", "");
    assert CountSelect == "SELECT COUNT(*) FROM " + "urls WHERE user_id = " + "?" + "";
  }

  lemma StatusFilterPlaceholders()
    ensures Placeholders(StatusFilter) == 1
  {
    assert '?' !in " AND status = ";
    OnePlaceholder(" AND status = ", "");
    assert StatusFilter == " AND status = " + "?" + "";
  }

  lemma SearchFilterPlaceholders()
    ensures Placeholders(SearchFilter) == 2
  {
    assert '?' !in " AND (title LIKE " && '?' !in " OR url LIKE " && '?' !in ")";
    TwoPlaceholders(" AND (title LIKE ", " OR url LIKE ", ")");
  }

  lemma ListOrderPlaceholders()
    ensures Placeholders(ListOrder) == 2
  {
    assert '?' !in " ORDER BY created_at DESC LIMIT " && '?' !in " OFFSET ";
    TwoPlaceholders(" ORDER BY created_at DESC LIMIT ", " OFFSET ", "");
    assert ListOrder == " ORDER BY created_at DESC LIMIT " + "?" + " OFFSET " + "?" + "";
  }

  /** The arguments of the count statement: the user, then the status filter
      when one is given, then the search pattern twice (title and url) when a
      search text is given. */
  function FilterArgs(userID: int, status: string, search: string): (args: seq<SqlArg>)
    ensures |args| == 1 + (if status != "" then 1 else 0) + (if search != "" then 2 else 0)
  {
    [IntArg(userID)]
    + (if status != "" then [TextArg(status)] else [])
    + (if search != "" then [TextArg("%" + search + "%"), TextArg("%" + search + "%")] else [])
  }

  /** The filter text both statements share: the status condition when a status
      is given, then the search condition when a search term is given. */
  function FilterClause(status: string, search: string): string
  {
    (if status != "" then StatusFilter else "") + (if search != "" then SearchFilter else "")
  }

  /** The filter binds exactly the filter arguments after the owner's id. */
  lemma FilterClausePlaceholders(userID: int, status: string, search: string)
    ensures Placeholders(FilterClause(status, search)) + 1 == |FilterArgs(userID, status, search)|
  {
    StatusFilterPlaceholders();
    SearchFilterPlaceholders();
    NoPlaceholders("");
    PlaceholdersConcat(if status != "" then StatusFilter else "", if search != "" then SearchFilter else "");
  }

  /** Builds the listing and count statements of `GetUrls` with their
      arguments. Both share the filters; the listing adds the page bounds. */
  method BuildListQueries(userID: int, status: string, search: string, limit: int, offset: int)
    returns (baseQuery: string, args: seq<SqlArg>, countQuery: string, countArgs: seq<SqlArg>)
    ensures countQuery == CountSelect + FilterClause(status, search)
    ensures baseQuery == ListSelect + FilterClause(status, search) + ListOrder
    ensures countArgs == FilterArgs(userID, status, search)
    ensures args == countArgs + [IntArg(limit), IntArg(offset)]
    ensures Placeholders(baseQuery) == |args|
    ensures Placeholders(countQuery) == |countArgs|
  {
    baseQuery := ListSelect;
    countQuery := CountSelect;
    args := [IntArg(userID)];
    countArgs := [IntArg(userID)];
    ghost var filter := "";
    if status != "" {
      baseQuery := baseQuery + StatusFilter;
      countQuery := countQuery + StatusFilter;
      args := args + [TextArg(status)];
      countArgs := countArgs + [TextArg(status)];
      filter := StatusFilter;
    }
    assert baseQuery == ListSelect + filter && countQuery == CountSelect + filter;
    if search != "" {
      Reassociate(ListSelect, filter, SearchFilter);
      Reassociate(CountSelect, filter, SearchFilter);
      baseQuery := baseQuery + SearchFilter;
      countQuery := countQuery + SearchFilter;
      var searchPattern := "%" + search + "%";
      args := args + [TextArg(searchPattern), TextArg(searchPattern)];
      countArgs := countArgs + [TextArg(searchPattern), TextArg(searchPattern)];
      filter := filter + SearchFilter;
    }
    assert filter == FilterClause(status, search);
    baseQuery := baseQuery + ListOrder;
    args := args + [IntArg(limit), IntArg(offset)];
    ListedPlaceholders(userID, status, search);
  }

  lemma Reassociate(a: string, b: string, c: string)
    ensures (a + b) + c == a + (b + c)
  {
  }

  /** Both statements bind as many arguments as they have placeholders. */
  lemma ListedPlaceholders(userID: int, status: string, search: string)
    ensures Placeholders(CountSelect + FilterClause(status, search)) == |FilterArgs(userID, status, search)|
    ensures Placeholders(ListSelect + FilterClause(status, search) + ListOrder)
            == |FilterArgs(userID, status, search)| + 2
  {
    var f := FilterClause(status, search);
    ListSelectPlaceholders();
    CountSelectPlaceholders();
    ListOrderPlaceholders();
    FilterClausePlaceholders(userID, status, search);
    PlaceholdersConcat(CountSelect, f);
    PlaceholdersConcat(ListSelect, f);
    PlaceholdersConcat(ListSelect + f, ListOrder);
  }

  /** The search pattern matches the text anywhere, and the same pattern is
      bound to the title slot and to the url slot. */
  lemma SearchPatternShared(userID: int, status: string, search: string)
    requires search != ""
    ensures var args := FilterArgs(userID, status, search);
      args[|args| - 2] == args[|args| - 1] == TextArg("%" + search + "%")
  {
  }

  /** What `GetUrls` sends to the database and reports as pagination, per
      authenticated request. */
  datatype ListPlan = ListPlan(
    page: int,
    limit: int,
    baseQuery: string,
    args: seq<SqlArg>,
    countQuery: string,
    countArgs: seq<SqlArg>)

  /** `GetUrls` up to the point where the statements run. `pageParam` and
      `limitParam` are what `strconv.Atoi` made of the query string. */
  method GetUrls(userID: Option<int>, pageParam: int, limitParam: int, status: string, search: string)
    returns (r: Result<ListPlan, Reply>)
    requires IsInt64(pageParam) && IsInt64(limitParam)
    ensures userID.None? <==> r == Err(Unauthorized)
    ensures userID.Some? ==> r.Ok?
    ensures r.Ok? ==> && r.value.page == (if pageParam < 1 then 1 else pageParam)
                      && r.value.limit == (if 1 <= limitParam <= MaxLimit then limitParam else DefaultLimit)
                      && r.value.countQuery == CountSelect + FilterClause(status, search)
                      && r.value.baseQuery == ListSelect + FilterClause(status, search) + ListOrder
                      && r.value.countArgs == FilterArgs(userID.value, status, search)
                      && r.value.args == r.value.countArgs + [IntArg(r.value.limit), IntArg(PageOffset(r.value.page, r.value.limit))]
                      && Placeholders(r.value.baseQuery) == |r.value.args|
                      && Placeholders(r.value.countQuery) == |r.value.countArgs|
  {
    if userID.None? {
      return Err(Unauthorized);
    }
    var page, limit, offset := NormalizePagination(pageParam, limitParam);
    var baseQuery, args, countQuery, countArgs := BuildListQueries(userID.value, status, search, limit, offset);
    return Ok(ListPlan(page, limit, baseQuery, args, countQuery, countArgs));
  }

  /** The `?` list inside `IN (...)`: one `?` per id, separated by commas. */
  function InList(n: nat): (s: string)
    ensures |s| == (if n == 0 then 0 else 2 * n - 1)
    ensures forall i :: 0 <= i < |s| ==> s[i] == (if i % 2 == 0 then '?' else ',')
  {
    if n == 0 then "" else if n == 1 then "?" else InList(n - 1) + ",?"
  }

  /** The `?` list of n ids holds exactly n placeholders. */
  lemma {:induction false} InListPlaceholders(n: nat)
    ensures Placeholders(InList(n)) == n
  {
    if n > 1 {
      InListPlaceholders(n - 1);
      PlaceholdersConcat(InList(n - 1), ",?");
      assert Placeholders(",?") == Placeholders(",") + 1 by {
        assert ",?"[..1] == ",";
      }
    }
  }

  /** The ids as statement arguments, in order. */
  function IdArgs(ids: seq<int>): (args: seq<SqlArg>)
    ensures |args| == |ids|
    ensures forall i :: 0 <= i < |ids| ==> args[i] == IntArg(ids[i])
  {
    seq(|ids|, i requires 0 <= i < |ids| => IntArg(ids[i]))
  }

  const BulkDeletePrefix: string := "DELETE FROM " + "urls WHERE user_id = " + "?" + " AND id IN ("
  const BulkSelectPrefix: string := "SELECT id, url FROM " + "urls WHERE user_id = " + "?" + " AND id IN ("

  lemma BulkDeletePrefixPlaceholders()
    ensures Placeholders(BulkDeletePrefix) == 1
  {
    assert '?' !in "DELETE FROM " && '?' !in "urls WHERE user_id = " && '?' !in " AND id IN (";
    OnePlaceholder("DELETE FROM " + "urls WHERE user_id = ", " AND id IN (");
  }

  lemma BulkSelectPrefixPlaceholders()
    ensures Placeholders(BulkSelectPrefix) == 1
  {
    assert '?' !in "SELECT id, url FROM " && '?' !in "urls WHERE user_id = " && '?' !in " AND id IN (";
    OnePlaceholder("SELECT id, url FROM " + "urls WHERE user_id = ", " AND id IN (");
  }

  /** The bulk statement builder shared by `BulkDelete` and `BulkReanalyze`:
      `prefix` followed by one `?` per id and a closing parenthesis, bound to
      the user and then the ids in order. */
  method BuildInQuery(prefix: string, userID: int, ids: seq<int>) returns (query: string, args: seq<SqlArg>)
    ensures query == prefix + InList(|ids|) + ")"
    ensures args == [IntArg(userID)] + IdArgs(ids)
    ensures Placeholders(query) == Placeholders(prefix) + |ids|
  {
    query := prefix;
    args := [IntArg(userID)];
    var i := 0;
    while i < |ids|
      invariant 0 <= i <= |ids|
      invariant query == prefix + InList(i)
      invariant args == [IntArg(userID)] + IdArgs(ids[..i])
    {
      if i > 0 {
        query := query + ",";
      }
      query := query + "?";
      assert IdArgs(ids[..i + 1]) == IdArgs(ids[..i]) + [IntArg(ids[i])];
      args := args + [IntArg(ids[i])];
      i := i + 1;
    }
    query := query + ")";
    assert ids[..i] == ids;
    InListPlaceholders(|ids|);
    PlaceholdersConcat(prefix, InList(|ids|));
    PlaceholdersConcat(prefix + InList(|ids|), ")");
  }

  /** Validates a bulk request and builds its statement: the user must be
      known and the id list non-empty; then the statement has one
      placeholder per argument, the user's and one per id. */
  method PlanBulk(prefix: string, userID: Option<int>, ids: Option<seq<int>>)
    returns (r: Result<(string, seq<SqlArg>), Reply>)
    requires Placeholders(prefix) == 1
    ensures userID.None? ==> r == Err(Unauthorized)
    ensures userID.Some? && ids.None? ==> r == Err(BadRequest("Invalid request format"))
    ensures userID.Some? && ids == Some([]) ==> r == Err(BadRequest("No IDs provided"))
    ensures r.Ok? <==> userID.Some? && ids.Some? && |ids.value| > 0
    ensures r.Ok? ==> r.value.1 == [IntArg(userID.value)] + IdArgs(ids.value)
                      && Placeholders(r.value.0) == |r.value.1| == |ids.value| + 1
  {
    if userID.None? {
      return Err(Unauthorized);
    }
    if ids.None? {
      return Err(BadRequest("Invalid request format"));
    }
    if |ids.value| == 0 {
      return Err(BadRequest("No IDs provided"));
    }
    var query, args := BuildInQuery(prefix, userID.value, ids.value);
    return Ok((query, args));
  }

  // ---------------------------------------------------------------------------
  // Statistics (GetStats)
  // ---------------------------------------------------------------------------

  /** One row of `SELECT status, COUNT(*) ... GROUP BY status`; `None` for a
      row that failed to scan and is skipped. */
  datatype StatusCount = StatusCount(status: string, count: int)

  /** The sum of the counts of the rows that scanned. */
  function SumCounts(rows: seq<Option<StatusCount>>): int
  {
    if |rows| == 0 then 0
    else SumCounts(rows[..|rows| - 1]) + (match rows[|rows| - 1] case None => 0 case Some(r) => r.count)
  }

  /** The bucket of `status`: the count of the last scanned row with that
      status, or 0 when there is none. */
  function BucketCount(rows: seq<Option<StatusCount>>, status: string): int
  {
    if |rows| == 0 then 0
    else match rows[|rows| - 1]
      case Some(r) => if r.status == status then r.count else BucketCount(rows[..|rows| - 1], status)
      case None => BucketCount(rows[..|rows| - 1], status)
  }

  /** No two scanned rows share a status, as `GROUP BY status` guarantees. */
  ghost predicate DistinctStatuses(rows: seq<Option<StatusCount>>)
  {
    forall i, j :: 0 <= i < j < |rows| && rows[i].Some? && rows[j].Some? ==> rows[i].value.status != rows[j].value.status
  }

  /** With distinct statuses, a status's bucket holds exactly its row's count. */
  lemma {:induction false} BucketOfRow(rows: seq<Option<StatusCount>>, k: nat)
    requires k < |rows| && rows[k].Some? && DistinctStatuses(rows)
    ensures BucketCount(rows, rows[k].value.status) == rows[k].value.count
    decreases |rows|
  {
    if k < |rows| - 1 {
      BucketOfRow(rows[..|rows| - 1], k);
    }
  }

  /** A status no scanned row has gets a zero bucket. */
  lemma {:induction false} BucketOfAbsent(rows: seq<Option<StatusCount>>, status: string)
    requires forall i :: 0 <= i < |rows| && rows[i].Some? ==> rows[i].value.status != status
    ensures BucketCount(rows, status) == 0
    decreases |rows|
  {
    if |rows| > 0 {
      BucketOfAbsent(rows[..|rows| - 1], status);
    }
  }

  /** The four known buckets together. */
  function KnownBuckets(rows: seq<Option<StatusCount>>): int
  {
    BucketCount(rows, Queued.Name()) + BucketCount(rows, Running.Name())
    + BucketCount(rows, Completed.Name()) + BucketCount(rows, Error.Name())
  }

  /** With distinct statuses and non-negative counts, the total is at least the
      sum of the four buckets: it also counts rows with any other status. */
  lemma {:induction false} TotalCoversBuckets(rows: seq<Option<StatusCount>>)
    requires DistinctStatuses(rows)
    requires forall i :: 0 <= i < |rows| && rows[i].Some? ==> rows[i].value.count >= 0
    ensures SumCounts(rows) >= KnownBuckets(rows)
    decreases |rows|
  {
    if |rows| > 0 {
      var init := rows[..|rows| - 1];
      TotalCoversBuckets(init);
      match rows[|rows| - 1]
      case None =>
      case Some(r) =>
        assert forall i :: 0 <= i < |init| && init[i].Some? ==> init[i].value.status != r.status;
        BucketOfAbsent(init, r.status);
    }
  }

  /** An unrecognised status adds to the total and to no bucket. */
  lemma UnknownStatusOnlyInTotal(rows: seq<Option<StatusCount>>, r: StatusCount)
    requires forall st: Status :: r.status != st.Name()
    ensures SumCounts(rows + [Some(r)]) == SumCounts(rows) + r.count
    ensures KnownBuckets(rows + [Some(r)]) == KnownBuckets(rows)
  {
    assert (rows + [Some(r)])[..|rows|] == rows;
  }

  /** `GetStats`: folds the rows of the per-status count into the counters.
      `rows` is `None` when that query failed (every counter stays 0);
      `totalBrokenLinks` is what the broken-link sum query returned. */
  method GetStats(userID: Option<int>, rows: Option<seq<Option<StatusCount>>>, totalBrokenLinks: int)
    returns (r: Result<UrlStats, Reply>)
    ensures userID.None? <==> r == Err(Unauthorized)
    ensures userID.Some? ==> r.Ok?
    ensures r.Ok? && rows.None? ==> r.value == UrlStats(0, 0, 0, 0, 0, totalBrokenLinks)
    ensures r.Ok? && rows.Some? ==>
              && r.value.totalUrls == SumCounts(rows.value)
              && r.value.queuedUrls == BucketCount(rows.value, Queued.Name())
              && r.value.runningUrls == BucketCount(rows.value, Running.Name())
              && r.value.completedUrls == BucketCount(rows.value, Completed.Name())
              && r.value.errorUrls == BucketCount(rows.value, Error.Name())
              && r.value.totalBrokenLinks == totalBrokenLinks
  {
    if userID.None? {
      return Err(Unauthorized);
    }
    var stats := UrlStats(0, 0, 0, 0, 0, 0);
    if rows.Some? {
      var rs := rows.value;
      var i := 0;
      while i < |rs|
        invariant 0 <= i <= |rs|
        invariant stats.totalUrls == SumCounts(rs[..i])
        invariant stats.queuedUrls == BucketCount(rs[..i], "queued")
        invariant stats.runningUrls == BucketCount(rs[..i], "running")
        invariant stats.completedUrls == BucketCount(rs[..i], "completed")
        invariant stats.errorUrls == BucketCount(rs[..i], "error")
        invariant stats.totalBrokenLinks == 0
      {
        assert rs[..i + 1][..i] == rs[..i];
        if rs[i].Some? {
          var row := rs[i].value;
          if row.status == "queued" {
            stats := stats.(queuedUrls := row.count);
          } else if row.status == "running" {
            stats := stats.(runningUrls := row.count);
          } else if row.status == "completed" {
            stats := stats.(completedUrls := row.count);
          } else if row.status == "error" {
            stats := stats.(errorUrls := row.count);
          }
          stats := stats.(totalUrls := stats.totalUrls + row.count);
        }
        i := i + 1;
      }
      assert rs[..i] == rs;
    }
    stats := stats.(totalBrokenLinks := totalBrokenLinks);
    return Ok(stats);
  }

  // ---------------------------------------------------------------------------
  // The URL records and their status
  // ---------------------------------------------------------------------------

  /** A freshly added URL: queued, nothing analysed yet. */
  function NewRecord(id: int, userId: int, url: string): (u: Url)
    ensures u.id == id && u.userId == userId && u.url == url
    ensures u.status == Queued && u.errorMessage == None && u.brokenLinks == 0
  {
    Url(id, userId, url, "", "", 0, 0, 0, 0, 0, 0, false, Queued, None)
  }

  /** A record after a successful analysis: the page's figures, the number of
      broken links, and `completed`; the other columns (including an old error
      message, which this update does not touch) are kept. */
  function WithCrawl(u: Url, cr: Crawler.CrawlResult): (v: Url)
    ensures v.id == u.id && v.userId == u.userId && v.url == u.url && v.errorMessage == u.errorMessage
    ensures v.status == Completed && v.brokenLinks == |cr.brokenLinksDetails|
    ensures v.htmlVersion == cr.htmlVersion && v.title == cr.title
    ensures v.h1Count == cr.h1 && v.h2Count == cr.h2 && v.h3Count == cr.h3
    ensures v.internalLinks == cr.internalLinks && v.externalLinks == cr.externalLinks
    ensures v.hasLoginForm == cr.hasLoginForm
  {
    u.(htmlVersion := cr.htmlVersion, title := cr.title,
       h1Count := cr.h1, h2Count := cr.h2, h3Count := cr.h3,
       internalLinks := cr.internalLinks, externalLinks := cr.externalLinks,
       brokenLinks := |cr.brokenLinksDetails|, hasLoginForm := cr.hasLoginForm,
       status := Completed)
  }

  /** A record put back in the queue for reanalysis. */
  function Requeued(u: Url): (v: Url)
    ensures v.status == Queued && v.errorMessage == None
    ensures v.(status := u.status, errorMessage := u.errorMessage) == u
  {
    u.(status := Queued, errorMessage := None)
  }

  /** The `broken_links` rows stored for the records of one analysis. */
  function BrokenLinkRows(urlId: int, details: seq<Crawler.BrokenLinkDetail>): (rows: seq<BrokenLink>)
    ensures |rows| == |details|
    ensures forall i :: 0 <= i < |details| ==>
              rows[i] == BrokenLink(urlId, details[i].url, details[i].statusCode, Some(details[i].error))
  {
    seq(|details|, i requires 0 <= i < |details| =>
      BrokenLink(urlId, details[i].url, details[i].statusCode, Some(details[i].error)))
  }

  /** Every row stored for an analysis names its page. */
  lemma BrokenLinkRowsOfPage(urlId: int, details: seq<Crawler.BrokenLinkDetail>, b: BrokenLink)
    requires b in BrokenLinkRows(urlId, details)
    ensures b.urlId == urlId
  {
    var rows := BrokenLinkRows(urlId, details);
    var i :| 0 <= i < |rows| && rows[i] == b;
  }

  /** The `broken_links` rows that do not belong to any of the pages `ids`,
      in their order. */
  function WithoutPages(rows: seq<BrokenLink>, ids: set<int>): (kept: seq<BrokenLink>)
    ensures |kept| <= |rows|
    ensures forall b :: b in kept <==> b in rows && b.urlId !in ids
  {
    if |rows| == 0 then []
    else (if rows[0].urlId in ids then [] else [rows[0]]) + WithoutPages(rows[1..], ids)
  }

  /** Deleting the rows of the pages `ids` keeps every other row as often as
      it was there, and none of those pages' rows. */
  lemma {:induction false} WithoutPagesCount(rows: seq<BrokenLink>, ids: set<int>)
    ensures forall b :: multiset(WithoutPages(rows, ids))[b] == if b.urlId in ids then 0 else multiset(rows)[b]
    decreases |rows|
  {
    if |rows| > 0 {
      WithoutPagesCount(rows[1..], ids);
      assert rows == [rows[0]] + rows[1..];
    }
  }

  /** Requeuing one more page of a batch is one map update. */
  lemma RequeueOneMore(urls: map<int, Url>, seen: set<int>, id: int)
    requires id in urls && id !in seen
    ensures var m := RequeueAll(urls, seen);
            m[id := Requeued(m[id])] == RequeueAll(urls, seen + {id})
  {
  }

  /** Scanning one more id adds it to the owned set exactly when it is owned and
      not yet seen. */
  lemma OwnedOneMore(urls: map<int, Url>, user: int, list: seq<int>, i: nat)
    requires i < |list|
    ensures var seen := OwnedIds(urls, user, list[..i]);
            var id := list[i];
            OwnedIds(urls, user, list[..i + 1])
            == if id !in seen && id in urls && urls[id].userId == user then seen + {id} else seen
  {
    assert list[..i + 1] == list[..i] + [list[i]];
  }

  /** Removing no page keeps every row, in order. */
  lemma {:induction false} WithoutNoPages(rows: seq<BrokenLink>)
    ensures WithoutPages(rows, {}) == rows
  {
    if |rows| > 0 {
      WithoutNoPages(rows[1..]);
      assert [rows[0]] + rows[1..] == rows;
    }
  }

  /** Deleting the rows of `a` and then those of `b` deletes those of both. */
  lemma {:induction false} WithoutPagesTwice(rows: seq<BrokenLink>, a: set<int>, b: set<int>)
    ensures WithoutPages(WithoutPages(rows, a), b) == WithoutPages(rows, a + b)
    decreases |rows|
  {
    if |rows| > 0 {
      WithoutPagesTwice(rows[1..], a, b);
      var once := WithoutPages(rows, a);
      if rows[0].urlId !in a {
        assert once == [rows[0]] + WithoutPages(rows[1..], a);
        assert once[0] == rows[0] && once[1..] == WithoutPages(rows[1..], a);
        assert WithoutPages(once, b) == (if rows[0].urlId in b then [] else [rows[0]]) + WithoutPages(once[1..], b);
      } else {
        assert once == WithoutPages(rows[1..], a);
      }
    }
  }

  /** Reanalysing a page and storing the next analysis leaves exactly that
      analysis's rows for the page, each as often as it was found: the old
      ones were deleted first, and every other page keeps its rows. */
  lemma ReanalysisReplacesRows(rows: seq<BrokenLink>, id: int, details: seq<Crawler.BrokenLinkDetail>)
    ensures var stored := BrokenLinkRows(id, details);
            var after := WithoutPages(rows, {id}) + stored;
            forall b :: multiset(after)[b] == if b.urlId == id then multiset(stored)[b] else multiset(rows)[b]
  {
    var stored := BrokenLinkRows(id, details);
    WithoutPagesCount(rows, {id});
    forall b: BrokenLink | b.urlId != id
      ensures multiset(stored)[b] == 0
    {
      if b in stored {
        BrokenLinkRowsOfPage(id, details, b);
      }
    }
  }

  /** The ids of `ids` that name a stored record of `user`. */
  function OwnedIds(urls: map<int, Url>, user: int, ids: seq<int>): (owned: set<int>)
    ensures forall k :: k in owned <==> k in ids && k in urls && urls[k].userId == user
  {
    set k | k in ids && k in urls && urls[k].userId == user
  }

  /** Marks every record in `ids` as queued again. */
  function RequeueAll(urls: map<int, Url>, ids: set<int>): (m: map<int, Url>)
    ensures m.Keys == urls.Keys
    ensures forall k :: k in urls ==> m[k] == if k in ids then Requeued(urls[k]) else urls[k]
  {
    map k | k in urls :: if k in ids then Requeued(urls[k]) else urls[k]
  }

  /** The loop of `BulkReanalyze` over the selected rows: each listed record the
      user owns is queued again once, and its `broken_links` rows go. */
  method RequeueBatch(urls: map<int, Url>, links: seq<BrokenLink>, user: int, list: seq<int>)
    returns (requeued: map<int, Url>, kept: seq<BrokenLink>, queued: nat)
    ensures requeued == RequeueAll(urls, OwnedIds(urls, user, list))
    ensures kept == WithoutPages(links, OwnedIds(urls, user, list))
    ensures queued == |OwnedIds(urls, user, list)|
  {
    requeued, kept := urls, links;
    var seen: set<int> := {};
    queued := 0;
    var i := 0;
    WithoutNoPages(links);
    assert list[..0] == [];
    assert RequeueAll(urls, seen) == urls;
    while i < |list|
      invariant 0 <= i <= |list|
      invariant seen == OwnedIds(urls, user, list[..i])
      invariant queued == |seen|
      invariant requeued == RequeueAll(urls, seen)
      invariant kept == WithoutPages(links, seen)
    {
      var id := list[i];
      OwnedOneMore(urls, user, list, i);
      if id !in seen && id in urls && urls[id].userId == user {
        RequeueOneMore(urls, seen, id);
        requeued := requeued[id := Requeued(requeued[id])];
        WithoutPagesTwice(links, seen, {id});
        kept := WithoutPages(kept, {id});
        seen := seen + {id};
        queued := queued + 1;
      }
      i := i + 1;
    }
    assert list[..i] == list;
  }

  /** The two tables, updated in place by the handlers. `nextId` is the id the
      database assigns to the next inserted URL. */
  class UrlStore {
    var urls: map<int, Url>
    var brokenLinks: seq<BrokenLink>
    var nextId: int

    /** Every record is stored under its own id, and ids are assigned in increasing order. */
    ghost predicate Valid()
      reads this
    {
      nextId >= 1 && forall id :: id in urls ==> 1 <= id < nextId && urls[id].id == id
    }

    constructor ()
      ensures Valid() && urls == map[] && brokenLinks == [] && nextId == 1
    {
      urls, brokenLinks, nextId := map[], [], 1;
    }

    /** `AddUrl`: stores a new URL as queued, after the user, the request body
        (`None` when it does not bind) and the URL text have been checked and
        no record of this user has this URL already. The crawl it starts in
        the background is `CrawlAndUpdateUrl`. */
    method AddUrl(userID: Option<int>, body: Option<string>) returns (reply: Reply)
      requires Valid()
      modifies this
      ensures Valid()
      ensures userID.None? ==> reply == Unauthorized
      ensures userID.Some? && body.None? ==> reply == BadRequest("Invalid request format")
      ensures userID.Some? && body == Some("") ==> reply == BadRequest("URL is required")
      ensures reply.Conflict? <==>
                userID.Some? && body.Some? && body.value != ""
                && exists k :: k in old(urls) && old(urls)[k].url == body.value && old(urls)[k].userId == userID.value
      ensures reply.Created? <==>
                userID.Some? && body.Some? && body.value != ""
                && !(exists k :: k in old(urls) && old(urls)[k].url == body.value && old(urls)[k].userId == userID.value)
      ensures reply.Conflict? ==> var k := reply.existingId;
                k in old(urls) && old(urls)[k].url == body.value && old(urls)[k].userId == userID.value
      ensures !reply.Created? ==> urls == old(urls) && brokenLinks == old(brokenLinks) && nextId == old(nextId)
      ensures reply.Created? ==>
                && reply.record == NewRecord(old(nextId), userID.value, body.value)
                && urls == old(urls)[old(nextId) := reply.record]
                && old(nextId) !in old(urls)
                && brokenLinks == old(brokenLinks) && nextId == old(nextId) + 1
    {
      if userID.None? {
        return Unauthorized;
      }
      if body.None? {
        return BadRequest("Invalid request format");
      }
      var url := body.value;
      if url == "" {
        return BadRequest("URL is required");
      }
      if k :| k in urls && urls[k].url == url && urls[k].userId == userID.value {
        return Conflict(k);
      }
      var id := nextId;
      var record := NewRecord(id, userID.value, url);
      urls := urls[id := record];
      nextId := nextId + 1;
      return Created(record);
    }

    /** First step of `crawlAndUpdateURL`: the record, if still there, becomes running. */
    method StartCrawl(id: int)
      requires Valid()
      modifies this
      ensures Valid()
      ensures urls == if id in old(urls) then old(urls)[id := old(urls)[id].(status := Running)] else old(urls)
      ensures brokenLinks == old(brokenLinks) && nextId == old(nextId)
    {
      if id in urls {
        urls := urls[id := urls[id].(status := Running)];
      }
    }

    /** Last step of `crawlAndUpdateURL`, given what `CrawlURL` returned: on an
        error the record becomes `error` with the message; on success it
        takes the page's figures and becomes `completed`, and one
        `broken_links` row is inserted per broken link, in order. */
    method FinishCrawl(id: int, crawl: Result<Crawler.CrawlResult, string>)
      requires Valid()
      modifies this
      ensures Valid()
      ensures nextId == old(nextId)
      ensures crawl.Err? ==>
                && urls == (if id in old(urls)
                            then old(urls)[id := old(urls)[id].(status := Error, errorMessage := Some(crawl.error))]
                            else old(urls))
                && brokenLinks == old(brokenLinks)
      ensures crawl.Ok? ==>
                && urls == (if id in old(urls) then old(urls)[id := WithCrawl(old(urls)[id], crawl.value)] else old(urls))
                && brokenLinks == old(brokenLinks) + BrokenLinkRows(id, crawl.value.brokenLinksDetails)
    {
      match crawl
      case Err(msg) =>
        if id in urls {
          urls := urls[id := urls[id].(status := Error, errorMessage := Some(msg))];
        }
      case Ok(cr) =>
        if id in urls {
          urls := urls[id := WithCrawl(urls[id], cr)];
        }
        var details := cr.brokenLinksDetails;
        var inserted: seq<BrokenLink> := [];
        var i := 0;
        while i < |details|
          invariant 0 <= i <= |details|
          invariant inserted == BrokenLinkRows(id, details[..i])
        {
          var d := details[i];
          assert BrokenLinkRows(id, details[..i + 1]) == BrokenLinkRows(id, details[..i]) + [BrokenLink(id, d.url, d.statusCode, Some(d.error))];
          inserted := inserted + [BrokenLink(id, d.url, d.statusCode, Some(d.error))];
          i := i + 1;
        }
        assert details[..i] == details;
        brokenLinks := brokenLinks + inserted;
    }

    /** `crawlAndUpdateURL`: running, then the outcome of the crawl. */
    method CrawlAndUpdateUrl(id: int, crawl: Result<Crawler.CrawlResult, string>)
      requires Valid()
      modifies this
      ensures Valid()
      ensures id in urls <==> id in old(urls)
      ensures id in urls ==> urls[id].status == (if crawl.Ok? then Completed else Error)
      ensures id in urls && crawl.Err? ==> urls[id] == old(urls)[id].(status := Error, errorMessage := Some(crawl.error))
      ensures id in urls && crawl.Ok? ==> urls[id] == WithCrawl(old(urls)[id], crawl.value)
      ensures forall k :: k in old(urls) && k != id ==> k in urls && urls[k] == old(urls)[k]
      ensures urls.Keys == old(urls).Keys
      ensures nextId == old(nextId)
      ensures brokenLinks == old(brokenLinks) + (if crawl.Ok? then BrokenLinkRows(id, crawl.value.brokenLinksDetails) else [])
    {
      StartCrawl(id);
      FinishCrawl(id, crawl);
    }

    /** `ReanalyzeUrl`: a record the user owns is queued again with its error
        message cleared and its `broken_links` rows deleted; anything else
        changes nothing. */
    method ReanalyzeUrl(userID: Option<int>, id: int) returns (reply: Reply)
      requires Valid()
      modifies this
      ensures Valid()
      ensures userID.None? ==> reply == Unauthorized
      ensures userID.Some? && (id !in old(urls) || old(urls)[id].userId != userID.value) ==> reply == NotFound
      ensures !reply.Succeeded? ==> urls == old(urls) && brokenLinks == old(brokenLinks)
      ensures reply.Succeeded? <==> userID.Some? && id in old(urls) && old(urls)[id].userId == userID.value
      ensures reply.Succeeded? ==>
                && reply == Succeeded("URL queued for reanalysis", id)
                && urls == old(urls)[id := Requeued(old(urls)[id])]
                && brokenLinks == WithoutPages(old(brokenLinks), {id})
      ensures nextId == old(nextId)
    {
      if userID.None? {
        return Unauthorized;
      }
      if id !in urls || urls[id].userId != userID.value {
        return NotFound;
      }
      urls := urls[id := Requeued(urls[id])];
      brokenLinks := WithoutPages(brokenLinks, {id});
      return Succeeded("URL queued for reanalysis", id);
    }

    /** `BulkReanalyze`: every listed record the user owns is queued again, its
        error message cleared and its `broken_links` rows deleted; the reply
        counts those records (each once, however often it is listed). */
    method BulkReanalyze(userID: Option<int>, ids: Option<seq<int>>) returns (reply: Reply)
      requires Valid()
      modifies this
      ensures Valid()
      ensures userID.None? ==> reply == Unauthorized
      ensures userID.Some? && ids.None? ==> reply == BadRequest("Invalid request format")
      ensures userID.Some? && ids == Some([]) ==> reply == BadRequest("No IDs provided")
      ensures !reply.Succeeded? ==> urls == old(urls) && brokenLinks == old(brokenLinks)
      ensures reply.Succeeded? <==> userID.Some? && ids.Some? && |ids.value| > 0
      ensures reply.Succeeded? ==>
                var owned := OwnedIds(old(urls), userID.value, ids.value);
                && reply == Succeeded("URLs queued for reanalysis", |owned|)
                && urls == RequeueAll(old(urls), owned)
                && brokenLinks == WithoutPages(old(brokenLinks), owned)
      ensures nextId == old(nextId)
    {
      BulkSelectPrefixPlaceholders();
      var plan := PlanBulk(BulkSelectPrefix, userID, ids);
      if plan.Err? {
        return plan.error;
      }
      var requeued, kept, queued := RequeueBatch(urls, brokenLinks, userID.value, ids.value);
      urls, brokenLinks := requeued, kept;
      return Succeeded("URLs queued for reanalysis", queued);
    }

    /** `BulkDelete`: deletes every listed record the user owns and reports how
        many went. The handler deletes no `broken_links` rows. */
    method BulkDelete(userID: Option<int>, ids: Option<seq<int>>) returns (reply: Reply)
      requires Valid()
      modifies this
      ensures Valid()
      ensures userID.None? ==> reply == Unauthorized
      ensures userID.Some? && ids.None? ==> reply == BadRequest("Invalid request format")
      ensures userID.Some? && ids == Some([]) ==> reply == BadRequest("No IDs provided")
      ensures reply.Succeeded? <==> userID.Some? && ids.Some? && |ids.value| > 0
      ensures !reply.Succeeded? ==> urls == old(urls)
      ensures reply.Succeeded? ==>
                var owned := OwnedIds(old(urls), userID.value, ids.value);
                && reply == Succeeded("URLs deleted successfully", |owned|)
                && urls == old(urls) - owned
      ensures brokenLinks == old(brokenLinks) && nextId == old(nextId)
    {
      BulkDeletePrefixPlaceholders();
      var plan := PlanBulk(BulkDeletePrefix, userID, ids);
      if plan.Err? {
        return plan.error;
      }
      var owned := OwnedIds(urls, userID.value, ids.value);
      urls := urls - owned;
      return Succeeded("URLs deleted successfully", |owned|);
    }
  }
}
