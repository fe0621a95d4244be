/**
 * storage/postgres/url.go: the `urls` table as an in-memory table of rows
 * kept in insertion order, with the serial id counter and the database
 * clock that fills `created_at`. Every query of `urlRepo` becomes a method
 * that reads or rewrites `rows`.
 */
module LinkStore {
  import opened Wrappers
  import opened Text
  import opened Nulls
  import opened Repo

  /** One row of `urls`: `max_clicks` is a nullable column. */
  datatype LinkRow = LinkRow(
    id: int, userId: int, originalUrl: string, hashedUrl: string,
    maxClicks: NullInt64, expiresAt: Option<int>, createdAt: int)

  /** Scanning a row into `repo.Url`; a NULL `max_clicks` reads back as 0. */
  function ReadRow(r: LinkRow): (u: Url)
    ensures u.maxClicks == if r.maxClicks.valid then r.maxClicks.int64 else 0
    ensures u.id == r.id && u.userId == r.userId && u.createdAt == r.createdAt
    ensures u.originalUrl == r.originalUrl && u.hashedUrl == r.hashedUrl && u.expiresAt == r.expiresAt
  {
    Url(r.id, r.userId, r.originalUrl, r.hashedUrl,
        if r.maxClicks.valid then r.maxClicks.int64 else 0, r.expiresAt, r.createdAt)
  }

  /** Scanning every row of a result set, in order. */
  function ReadRows(s: seq<LinkRow>): (r: seq<Url>)
    ensures |r| == |s|
    ensures forall i :: 0 <= i < |s| ==> r[i] == ReadRow(s[i])
  {
    if s == [] then [] else [ReadRow(s[0])] + ReadRows(s[1..])
  }

  /** The row `insert into urls(...)` writes for `url` (the zero `max_clicks` becomes NULL). */
  function InsertedRow(url: Url, id: int, now: int): LinkRow
  {
    LinkRow(id, url.userId, url.originalUrl, url.hashedUrl, ToNullInt64(url.maxClicks), url.expiresAt, now)
  }

  /** Storing a record and reading it back gives the record with its new id and `created_at`. */
  lemma {:induction false} StoreThenRead(url: Url, id: int, now: int)
    ensures ReadRow(InsertedRow(url, id, now)) == url.(id := id, createdAt := now)
  {
    assert ToNullInt64(url.maxClicks).valid ==> ToNullInt64(url.maxClicks).int64 == url.maxClicks;
  }

  /** `id = $i and user_id = $u`: the ownership-scoped row selector. */
  predicate Owned(r: LinkRow, id: int, userId: int)
  {
    r.id == id && r.userId == userId
  }

  /** The `update urls set hashed_url, max_clicks, expires_at` assignment. */
  function Rewritten(r: LinkRow, url: Url): (r': LinkRow)
    ensures r'.hashedUrl == url.hashedUrl && r'.expiresAt == url.expiresAt
    ensures ReadRow(r').maxClicks == url.maxClicks
    ensures r'.id == r.id && r'.userId == r.userId && r'.originalUrl == r.originalUrl && r'.createdAt == r.createdAt
  {
    r.(hashedUrl := url.hashedUrl, maxClicks := ToNullInt64(url.maxClicks), expiresAt := url.expiresAt)
  }

  /** `max_clicks = max_clicks - 1`: no floor at zero, and NULL - 1 stays NULL. */
  function Decremented(r: LinkRow): (r': LinkRow)
    ensures r.maxClicks.valid ==> r'.maxClicks == NullInt64(r.maxClicks.int64 - 1, true)
    ensures !r.maxClicks.valid ==> r'.maxClicks == r.maxClicks
    ensures r' == r.(maxClicks := r'.maxClicks)
    ensures ReadRow(r').maxClicks == ReadRow(r).maxClicks - (if r.maxClicks.valid then 1 else 0)
  {
    if r.maxClicks.valid then r.(maxClicks := NullInt64(r.maxClicks.int64 - 1, true)) else r
  }

  /** Ids strictly increase and `created_at` never decreases along insertion order. */
  ghost predicate Ordered(s: seq<LinkRow>)
  {
    forall i, j :: 0 <= i < j < |s| ==> s[i].id < s[j].id && s[i].createdAt <= s[j].createdAt
  }

  /** `delete from urls where id=$1 and user_id=$2`: every other row is kept, in order. */
  function Without(s: seq<LinkRow>, id: int, userId: int): (r: seq<LinkRow>)
    ensures |r| <= |s|
    ensures forall x :: x in r <==> x in s && !Owned(x, id, userId)
    ensures (forall k :: 0 <= k < |s| ==> !Owned(s[k], id, userId)) ==> r == s
  {
    if s == [] then []
    else
      var tail := Without(s[1..], id, userId);
      if Owned(s[0], id, userId) then tail else [s[0]] + tail
  }

  /** A row that precedes every row of an ordered table can be put in front of it. */
  lemma ConsOrdered(x: LinkRow, tail: seq<LinkRow>)
    requires Ordered(tail)
    requires forall y :: y in tail ==> x.id < y.id && x.createdAt <= y.createdAt
    ensures Ordered([x] + tail)
  {
    var r := [x] + tail;
    forall i, j | 0 <= i < j < |r|
      ensures r[i].id < r[j].id && r[i].createdAt <= r[j].createdAt
    {
      if i == 0 {
        assert r[j] == tail[j - 1];
      } else {
        assert r[i] == tail[i - 1] && r[j] == tail[j - 1];
      }
    }
  }

  /** In an ordered table the first row precedes every later one. */
  lemma HeadFirst(s: seq<LinkRow>)
    requires Ordered(s) && s != []
    ensures forall x :: x in s[1..] ==> s[0].id < x.id && s[0].createdAt <= x.createdAt
  {
    forall x | x in s[1..]
      ensures s[0].id < x.id && s[0].createdAt <= x.createdAt
    {
      var m :| 0 <= m < |s[1..]| && s[1..][m] == x;
      assert s[m + 1] == x;
    }
  }

  /** Removing rows keeps ids increasing and `created_at` non-decreasing. */
  lemma {:induction false} WithoutOrdered(s: seq<LinkRow>, id: int, userId: int)
    requires Ordered(s)
    ensures Ordered(Without(s, id, userId))
  {
    if s != [] {
      WithoutOrdered(s[1..], id, userId);
      var tail := Without(s[1..], id, userId);
      if !Owned(s[0], id, userId) {
        HeadFirst(s);
        ConsOrdered(s[0], tail);
      }
    }
  }

  /** The index of the first row whose `hashed_url` equals `h`, or -1. */
  function FindHash(s: seq<LinkRow>, h: string): (k: int)
    ensures -1 <= k < |s|
    ensures k >= 0 ==> s[k].hashedUrl == h && forall j :: 0 <= j < k ==> s[j].hashedUrl != h
    ensures k == -1 ==> forall j :: 0 <= j < |s| ==> s[j].hashedUrl != h
  {
    if s == [] then -1
    else if s[0].hashedUrl == h then 0
    else
      var k := FindHash(s[1..], h);
      if k == -1 then -1 else k + 1
  }

  // ---------------------------------------------------------------------
  // The WHERE clause of GetAll, built by appending text as the Go code does.

  /** One comparison of the listing filter (`ILIKE` is case-insensitive containment). */
  datatype Term = TrueTerm | OriginalILike(search: string) | HashedILike(search: string) | UserIdIs(userId: int)

  datatype Conn = AND | OR

  /** A flat chain `first conn1 term1 conn2 term2 ...`, as the concatenated SQL reads. */
  datatype Where = Where(first: Term, rest: seq<(Conn, Term)>)

  predicate Holds(t: Term, r: LinkRow)
  {
    match t
    case TrueTerm => true
    case OriginalILike(s) => IContains(r.originalUrl, s)
    case HashedILike(s) => IContains(r.hashedUrl, s)
    case UserIdIs(u) => r.userId == u
  }

  /**
   * SQL precedence over a flat chain: AND binds tighter than OR. `done` is
   * the value of the OR-groups already closed, `cur` the open AND-group.
   */
  predicate EvalChain(rest: seq<(Conn, Term)>, r: LinkRow, done: bool, cur: bool)
    decreases |rest|
  {
    if rest == [] then done || cur
    else if rest[0].0 == AND then EvalChain(rest[1..], r, done, cur && Holds(rest[0].1, r))
    else EvalChain(rest[1..], r, done || cur, Holds(rest[0].1, r))
  }

  predicate Eval(w: Where, r: LinkRow)
  {
    EvalChain(w.rest, r, false, Holds(w.first, r))
  }

  /** `" where true "`, then `AND original_url ilike .. or hashed_url ilike ..`, then `AND user_id = ..`. */
  function UrlFilter(search: string, userId: int): Where
  {
    var filter := Where(TrueTerm, []);
    var filter := if search != "" then filter.(rest := filter.rest + [(AND, OriginalILike(search)), (OR, HashedILike(search))]) else filter;
    if userId != 0 then filter.(rest := filter.rest + [(AND, UserIdIs(userId))]) else filter
  }

  /** The reading of the built filter: which rows a listing includes. */
  predicate UrlMatches(r: LinkRow, search: string, userId: int)
  {
    if search == "" then userId == 0 || r.userId == userId
    else if userId == 0 then IContains(r.originalUrl, search) || IContains(r.hashedUrl, search)
    else IContains(r.originalUrl, search) || (IContains(r.hashedUrl, search) && r.userId == userId)
  }

  /**
   * The text `true AND o OR h AND u` evaluates as `(o) OR (h AND u)`: an
   * owner filter does not restrict rows found by their `original_url`.
   */
  lemma UrlFilterMeaning(r: LinkRow, search: string, userId: int)
    ensures Eval(UrlFilter(search, userId), r) <==> UrlMatches(r, search, userId)
  {
    var o, h, u := OriginalILike(search), HashedILike(search), UserIdIs(userId);
    if search != "" && userId != 0 {
      var rest := [(AND, o), (OR, h), (AND, u)];
      assert UrlFilter(search, userId).rest == rest;
      assert EvalChain(rest, r, false, true) == EvalChain(rest[1..], r, false, Holds(o, r));
      assert EvalChain(rest[1..], r, false, Holds(o, r)) == EvalChain(rest[2..], r, Holds(o, r), Holds(h, r));
      assert EvalChain(rest[2..], r, Holds(o, r), Holds(h, r)) == EvalChain([], r, Holds(o, r), Holds(h, r) && Holds(u, r));
    } else if search != "" {
      var rest := [(AND, o), (OR, h)];
      assert UrlFilter(search, userId).rest == rest;
      assert EvalChain(rest, r, false, true) == EvalChain(rest[1..], r, false, Holds(o, r));
      assert EvalChain(rest[1..], r, false, Holds(o, r)) == EvalChain([], r, Holds(o, r), Holds(h, r));
    } else if userId != 0 {
      var rest := [(AND, u)];
      assert UrlFilter(search, userId).rest == rest;
      assert EvalChain(rest, r, false, true) == EvalChain([], r, false, Holds(u, r));
    }
  }

  function RowCreatedAt(r: LinkRow): int { r.createdAt }

  function UrlCreatedAt(u: Url): int { u.createdAt }

  /** The row predicate of the built `WHERE` clause. */
  function Filter(p: GetAllUrlsParams): LinkRow -> bool
  {
    r => Eval(UrlFilter(p.search, p.userId), r)
  }

  /** The filtered set, newest first: what both the page and the count query see. */
  function Listed(rows: seq<LinkRow>, p: GetAllUrlsParams): seq<LinkRow>
  {
    Keep(Reverse(rows), Filter(p))
  }

  /**
   * `GetAll`: the page `LIMIT limit OFFSET (page-1)*limit` of the filtered
   * rows, newest first, and the size of the whole filtered set.
   */
  function ListUrls(rows: seq<LinkRow>, p: GetAllUrlsParams): (res: Result<GetAllUrlsResult, DbError>)
    ensures var offset := Offset(p.page, p.limit);
      res.Err? <==> offset < 0 || p.limit < 0
    ensures res.Ok? ==> |res.value.urls| <= p.limit && res.value.count == |Listed(rows, p)|
    ensures res.Ok? ==> forall u :: u in res.value.urls ==> exists r :: r in rows && UrlMatches(r, p.search, p.userId) && u == ReadRow(r)
  {
    var offset := Offset(p.page, p.limit);
    match PageError(offset, p.limit)
    case Some(e) => Err(e)
    case None =>
      var listed := Listed(rows, p);
      var page := Window(listed, offset, p.limit);
      assert forall x :: x in page ==> x in listed;
      forall x | x in listed
        ensures x in rows && UrlMatches(x, p.search, p.userId)
      {
        UrlFilterMeaning(x, p.search, p.userId);
        ReverseMembers(rows, x);
      }
      Ok(GetAllUrlsResult(ReadRows(page), |listed|))
  }

  /**
   * The `rows.Next()` loop of `GetAll`: each row of the page is scanned, a
   * NULL `max_clicks` into 0, and appended in order.
   */
  method ReadPage(page: seq<LinkRow>) returns (urls: seq<Url>)
    ensures urls == ReadRows(page)
  {
    urls := [];
    for i := 0 to |page|
      invariant |urls| == i
      invariant forall j :: 0 <= j < i ==> urls[j] == ReadRow(page[j])
    {
      urls := urls + [ReadRow(page[i])];
    }
  }

  /** Every page of the listing is ordered by `created_at desc`. */
  lemma {:induction false} ListingNewestFirst(rows: seq<LinkRow>, p: GetAllUrlsParams)
    requires Ordered(rows)
    requires ListUrls(rows, p).Ok?
    ensures Descending(ListUrls(rows, p).value.urls, UrlCreatedAt)
  {
    assert Ascending(rows, RowCreatedAt);
    ReverseDescending(rows, RowCreatedAt);
    KeepDescending(Reverse(rows), Filter(p), RowCreatedAt);
    var listed := Listed(rows, p);
    var offset := Offset(p.page, p.limit);
    var page := Window(listed, offset, p.limit);
    WindowDescending(listed, offset, p.limit, RowCreatedAt);
    var urls := ListUrls(rows, p).value.urls;
    assert urls == ReadRows(page);
  }

  /**
   * With no search term, a non-zero `UserID` lists only that owner's links,
   * and counts exactly that owner's rows.
   */
  lemma {:induction false} ListingOwnerScoped(rows: seq<LinkRow>, p: GetAllUrlsParams)
    requires p.search == "" && p.userId != 0
    requires ListUrls(rows, p).Ok?
    ensures forall u :: u in ListUrls(rows, p).value.urls ==> u.userId == p.userId
    ensures forall r :: r in Listed(rows, p) <==> r in rows && r.userId == p.userId
  {
    forall r
      ensures r in Listed(rows, p) <==> r in rows && r.userId == p.userId
    {
      UrlFilterMeaning(r, p.search, p.userId);
      ReverseMembers(rows, r);
    }
  }

  /** An owner without links gets an empty page and a count of 0. */
  lemma {:induction false} ListingUnknownOwner(rows: seq<LinkRow>, p: GetAllUrlsParams)
    requires p.search == "" && p.userId != 0
    requires forall k :: 0 <= k < |rows| ==> rows[k].userId != p.userId
    requires ListUrls(rows, p).Ok?
    ensures ListUrls(rows, p).value.urls == []
    ensures ListUrls(rows, p).value.count == 0
  {
    ListingOwnerScoped(rows, p);
    var rev := Reverse(rows);
    forall k | 0 <= k < |rev|
      ensures !Filter(p)(rev[k])
    {
      ReverseAt(rows, k);
      UrlFilterMeaning(rev[k], p.search, p.userId);
    }
  }

  /**
   * With a search term, a row whose `original_url` matches is part of the
   * listing whoever owns it: the owner filter only binds to `hashed_url`.
   */
  lemma {:induction false} ListingSearchIgnoresOwner(rows: seq<LinkRow>, p: GetAllUrlsParams, r: LinkRow)
    requires p.search != ""
    requires r in rows && IContains(r.originalUrl, p.search)
    ensures r in Listed(rows, p)
  {
    UrlFilterMeaning(r, p.search, p.userId);
    ReverseMembers(rows, r);
  }

  // ---------------------------------------------------------------------

  class LinkTable {
    /** The rows of `urls`, oldest first. */
    var rows: seq<LinkRow>
    /** The next value of the `id` serial. */
    var nextId: int
    /** The database clock: the latest `created_at` handed out. */
    var clock: int

    ghost predicate Valid()
      reads this
    {
      && 1 <= nextId
      && (forall k :: 0 <= k < |rows| ==> 1 <= rows[k].id < nextId && rows[k].createdAt <= clock)
      && Ordered(rows)
    }

    constructor (now: int)
      ensures Valid() && rows == [] && nextId == 1 && clock == now
    {
      rows := [];
      nextId := 1;
      clock := now;
    }

    /**
     * `Create`: inserts the five given columns and fills in the caller's
     * record with the fresh `id` and the `created_at` of `now`.
     */
    method Create(url: Url, now: int) returns (r: Url)
      requires Valid() && clock <= now
      modifies this
      ensures Valid()
      ensures r == url.(id := old(nextId), createdAt := now)
      ensures forall k :: 0 <= k < |old(rows)| ==> old(rows)[k].id != r.id
      ensures rows == old(rows) + [InsertedRow(url, r.id, now)]
      ensures nextId == old(nextId) + 1 && clock == now
    {
      var row := InsertedRow(url, nextId, now);
      rows := rows + [row];
      r := url.(id := nextId, createdAt := now);
      nextId := nextId + 1;
      clock := now;
    }

    /** `Get`: the row whose `hashed_url` equals the argument exactly, or `ErrNoRows`. */
    method Get(hashedUrl: string) returns (res: Result<Url, DbError>)
      ensures res.Err? <==> forall k :: 0 <= k < |rows| ==> rows[k].hashedUrl != hashedUrl
      ensures res.Err? ==> res.error == ErrNoRows
      ensures res.Ok? ==> res.value.hashedUrl == hashedUrl
      ensures res.Ok? ==> exists k :: 0 <= k < |rows| && rows[k].hashedUrl == hashedUrl && res.value == ReadRow(rows[k])
    {
      var k := FindHash(rows, hashedUrl);
      if k < 0 {
        res := Err(ErrNoRows);
      } else {
        res := Ok(ReadRow(rows[k]));
      }
    }

    /**
     * `GetAll`: runs the page query, scans its rows one by one into the
     * result, then runs the count query over the same filter.
     */
    method GetAll(params: GetAllUrlsParams) returns (res: Result<GetAllUrlsResult, DbError>)
      ensures res == ListUrls(rows, params)
    {
      var offset := Offset(params.page, params.limit);
      var queryError := PageError(offset, params.limit);
      if queryError.Some? {
        return Err(queryError.value);
      }
      var urls := ReadPage(Window(Listed(rows, params), offset, params.limit));
      res := Ok(GetAllUrlsResult(urls, |Listed(rows, params)|));
    }

    /**
     * `Update`: rewrites `hashed_url`, `max_clicks` and `expires_at` of the row
     * matching both `id` and `user_id`; every other column and row is kept.
     */
    method Update(url: Url) returns (res: Result<Url, DbError>)
      requires Valid()
      modifies this
      ensures Valid() && nextId == old(nextId) && clock == old(clock)
      ensures |rows| == |old(rows)|
      ensures forall k :: 0 <= k < |rows| ==>
        rows[k] == if Owned(old(rows)[k], url.id, url.userId) then Rewritten(old(rows)[k], url) else old(rows)[k]
      ensures res.Err? <==> forall k :: 0 <= k < |rows| ==> !Owned(old(rows)[k], url.id, url.userId)
      ensures res.Err? ==> res.error == ErrNoRows
      ensures res.Ok? ==> exists k :: 0 <= k < |rows| && Owned(old(rows)[k], url.id, url.userId) && res.value == ReadRow(Rewritten(old(rows)[k], url))
    {
      var before := rows;
      rows := seq(|before|, k requires 0 <= k < |before| =>
        if Owned(before[k], url.id, url.userId) then Rewritten(before[k], url) else before[k]);
      var k := FindOwned(before, url.id, url.userId);
      if k < 0 {
        res := Err(ErrNoRows);
      } else {
        res := Ok(ReadRow(rows[k]));
      }
    }

    /** `Delete`: removes the rows matching both `id` and `user_id`; `ErrNoRows` if none did. */
    method Delete(id: int, userId: int) returns (err: Option<DbError>)
      requires Valid()
      modifies this
      ensures Valid() && nextId == old(nextId) && clock == old(clock)
      ensures rows == Without(old(rows), id, userId)
      ensures err.Some? <==> forall k :: 0 <= k < |old(rows)| ==> !Owned(old(rows)[k], id, userId)
      ensures err.Some? ==> err.value == ErrNoRows
    {
      var k := FindOwned(rows, id, userId);
      WithoutOrdered(rows, id, userId);
      var before := rows;
      rows := Without(rows, id, userId);
      forall j | 0 <= j < |rows|
        ensures 1 <= rows[j].id < nextId && rows[j].createdAt <= clock
      {
        assert rows[j] in before;
      }
      err := if k < 0 then Some(ErrNoRows) else None;
    }

    /**
     * `DecrementClick`: `max_clicks - 1` on every row whose `hashed_url`
     * contains the argument; `ErrNoRows` when no row does.
     */
    method DecrementClick(url: string) returns (err: Option<DbError>)
      requires Valid()
      modifies this
      ensures Valid() && nextId == old(nextId) && clock == old(clock)
      ensures |rows| == |old(rows)|
      ensures forall k :: 0 <= k < |rows| ==>
        rows[k] == if Contains(old(rows)[k].hashedUrl, url) then Decremented(old(rows)[k]) else old(rows)[k]
      ensures err.Some? <==> forall k :: 0 <= k < |rows| ==> !Contains(old(rows)[k].hashedUrl, url)
      ensures err.Some? ==> err.value == ErrNoRows
    {
      var before := rows;
      rows := seq(|before|, k requires 0 <= k < |before| =>
        if Contains(before[k].hashedUrl, url) then Decremented(before[k]) else before[k]);
      var affected := exists k :: 0 <= k < |before| && Contains(before[k].hashedUrl, url);
      err := if affected then None else Some(ErrNoRows);
    }
  }

  lemma {:induction false} ReadRowsAppend(s: seq<LinkRow>, x: LinkRow)
    ensures ReadRows(s + [x]) == ReadRows(s) + [ReadRow(x)]
  {
    assert |ReadRows(s + [x])| == |s| + 1;
  }

  /** The index of a row matching `(id, user_id)`, or -1. */
  function FindOwned(s: seq<LinkRow>, id: int, userId: int): (k: int)
    ensures -1 <= k < |s|
    ensures k >= 0 ==> Owned(s[k], id, userId)
    ensures k == -1 ==> forall j :: 0 <= j < |s| ==> !Owned(s[j], id, userId)
  {
    if s == [] then -1
    else if Owned(s[0], id, userId) then 0
    else
      var k := FindOwned(s[1..], id, userId);
      if k == -1 then -1 else k + 1
  }
}
