/**
 * storage/postgres/user.go: the `users` table as an in-memory table of rows
 * kept in insertion order, with the serial id counter and the database
 * clock that fills `created_at`.
 */
module UserStore {
  import opened Wrappers
  import opened Text
  import opened Nulls
  import opened Repo

  /** One row of `users`: the two name columns are nullable. */
  datatype UserRow = UserRow(
    id: int, firstName: NullString, lastName: NullString, email: string, password: string, createdAt: int)

  /** What scanning a nullable column into `sql.NullString` and reading `.String` gives. */
  function NameOf(ns: NullString): (s: string)
    ensures ns.valid ==> s == ns.str
    ensures !ns.valid ==> s == ""
  {
    if ns.valid then ns.str else ""
  }

  /** The row `insert into users(...)` writes: empty names become NULL. */
  function InsertedRow(user: User, id: int, now: int): UserRow
  {
    UserRow(id, ToNullString(user.firstName), ToNullString(user.lastName), user.email, user.password, now)
  }

  /** `Get` by id: every column but the password, NULL names read back as "". */
  function ReadProfile(r: UserRow): (u: User)
    ensures u.id == r.id && u.email == r.email && u.createdAt == r.createdAt
    ensures u.firstName == NameOf(r.firstName) && u.lastName == NameOf(r.lastName)
    ensures u.password == ""
  {
    User(r.id, NameOf(r.firstName), NameOf(r.lastName), r.email, "", r.createdAt)
  }

  /** `GetByEmail`: the profile together with the stored password hash. */
  function ReadWithPassword(r: UserRow): (u: User)
    ensures u == ReadProfile(r).(password := r.password)
  {
    User(r.id, NameOf(r.firstName), NameOf(r.lastName), r.email, r.password, r.createdAt)
  }

  /** Storing a user and reading its profile back recovers the names, empty ones included. */
  lemma {:induction false} StoreThenReadProfile(user: User, id: int, now: int)
    ensures ReadProfile(InsertedRow(user, id, now)) == user.(id := id, createdAt := now, password := "")
  {
    assert NameOf(ToNullString(user.firstName)) == user.firstName;
    assert NameOf(ToNullString(user.lastName)) == user.lastName;
  }

  /** Ids strictly increase and `created_at` never decreases along insertion order. */
  ghost predicate Ordered(s: seq<UserRow>)
  {
    forall i, j :: 0 <= i < j < |s| ==> s[i].id < s[j].id && s[i].createdAt <= s[j].createdAt
  }

  /** The index of the first row with `id`, or -1. */
  function FindId(s: seq<UserRow>, id: int): (k: int)
    ensures -1 <= k < |s|
    ensures k >= 0 ==> s[k].id == id
    ensures k == -1 ==> forall j :: 0 <= j < |s| ==> s[j].id != id
  {
    if s == [] then -1
    else if s[0].id == id then 0
    else
      var k := FindId(s[1..], id);
      if k == -1 then -1 else k + 1
  }

  /** The index of the first row with `email`, or -1. */
  function FindEmail(s: seq<UserRow>, email: string): (k: int)
    ensures -1 <= k < |s|
    ensures k >= 0 ==> s[k].email == email && forall j :: 0 <= j < k ==> s[j].email != email
    ensures k == -1 ==> forall j :: 0 <= j < |s| ==> s[j].email != email
  {
    if s == [] then -1
    else if s[0].email == email then 0
    else
      var k := FindEmail(s[1..], email);
      if k == -1 then -1 else k + 1
  }

  /** `WHERE id=$1` */
  predicate HasId(r: UserRow, id: int)
  {
    r.id == id
  }

  /** `DELETE FROM users WHERE id=$1`: every other row is kept, in order. */
  function WithoutId(s: seq<UserRow>, id: int): (r: seq<UserRow>)
    ensures |r| <= |s|
    ensures forall x :: x in r <==> x in s && !HasId(x, id)
    ensures (forall k :: 0 <= k < |s| ==> !HasId(s[k], id)) ==> r == s
  {
    if s == [] then []
    else
      var tail := WithoutId(s[1..], id);
      if HasId(s[0], id) then tail else [s[0]] + tail
  }

  /** A row that precedes every row of an ordered table can be put in front of it. */
  lemma ConsOrdered(x: UserRow, tail: seq<UserRow>)
    requires Ordered(tail)
    requires forall y :: y in tail ==> x.id < y.id && x.createdAt <= y.createdAt
    ensures Ordered([x] + tail)
  {
    var r := [x] + tail;
    forall i, j | 0 <= i < j < |r|
      ensures r[i].id < r[j].id && r[i].createdAt <= r[j].createdAt
    {
      if i == 0 {
        assert r[j] == tail[j - 1];
      } else {
        assert r[i] == tail[i - 1] && r[j] == tail[j - 1];
      }
    }
  }

  /** In an ordered table the first row precedes every later one. */
  lemma HeadFirst(s: seq<UserRow>)
    requires Ordered(s) && s != []
    ensures forall x :: x in s[1..] ==> s[0].id < x.id && s[0].createdAt <= x.createdAt
  {
    forall x | x in s[1..]
      ensures s[0].id < x.id && s[0].createdAt <= x.createdAt
    {
      var m :| 0 <= m < |s[1..]| && s[1..][m] == x;
      assert s[m + 1] == x;
    }
  }

  lemma {:induction false} WithoutIdOrdered(s: seq<UserRow>, id: int)
    requires Ordered(s)
    ensures Ordered(WithoutId(s, id))
  {
    if s != [] {
      WithoutIdOrdered(s[1..], id);
      var tail := WithoutId(s[1..], id);
      if !HasId(s[0], id) {
        HeadFirst(s);
        ConsOrdered(s[0], tail);
      }
    }
  }

  /** `col ILIKE '%s%'` on a nullable column: NULL never matches. */
  predicate NullableILike(ns: NullString, search: string)
  {
    ns.valid && IContains(ns.str, search)
  }

  /**
   * The listing filter: no `WHERE` for an empty search, otherwise
   * `first_name ILIKE s OR last_name ILIKE s OR email ILIKE s`.
   */
  predicate UserMatches(r: UserRow, search: string)
  {
    search == "" || NullableILike(r.firstName, search) || NullableILike(r.lastName, search) || IContains(r.email, search)
  }

  function Filter(search: string): UserRow -> bool
  {
    r => UserMatches(r, search)
  }

  function RowCreatedAt(r: UserRow): int { r.createdAt }

  function UserCreatedAt(u: User): int { u.createdAt }

  /** The filtered set, newest first. */
  function Listed(rows: seq<UserRow>, p: GetAllUsersParams): seq<UserRow>
  {
    Keep(Reverse(rows), Filter(p.search))
  }

  /** `Scan` of the id, name and email columns into plain strings fails on a NULL name. */
  predicate ScanFails(r: UserRow)
  {
    !r.firstName.valid || !r.lastName.valid
  }

  /**
   * The column a failing scan names: `Scan` fills its destinations left to
   * right, so a NULL `first_name` is reported before a NULL `last_name`.
   */
  function FailingColumn(r: UserRow): (c: NameColumn)
    requires ScanFails(r)
    ensures c == FirstNameColumn <==> !r.firstName.valid
    ensures c == LastNameColumn ==> !r.lastName.valid
  {
    if !r.firstName.valid then FirstNameColumn else LastNameColumn
  }

  /**
   * One listed user as `GetAll` builds it: the names scanned into the
   * record are then overwritten by the never-filled `NullString`s.
   */
  function Listing(r: UserRow): (u: User)
    ensures u.id == r.id && u.email == r.email && u.createdAt == r.createdAt
    ensures u.firstName == "" && u.lastName == "" && u.password == ""
  {
    User(r.id, "", "", r.email, "", r.createdAt)
  }

  function Listings(s: seq<UserRow>): (r: seq<User>)
    ensures |r| == |s|
    ensures forall i :: 0 <= i < |s| ==> r[i] == Listing(s[i])
  {
    if s == [] then [] else [Listing(s[0])] + Listings(s[1..])
  }

  /** The index of the first row of `s` whose scan fails, or -1. */
  function FirstScanFailure(s: seq<UserRow>): (k: int)
    ensures -1 <= k < |s|
    ensures k >= 0 ==> ScanFails(s[k]) && forall j :: 0 <= j < k ==> !ScanFails(s[j])
    ensures k == -1 ==> forall j :: 0 <= j < |s| ==> !ScanFails(s[j])
  {
    if s == [] then -1
    else if ScanFails(s[0]) then 0
    else
      var k := FirstScanFailure(s[1..]);
      if k == -1 then -1 else k + 1
  }

  /** The rows of the requested page: `LIMIT limit OFFSET (page-1)*limit` of the filtered set. */
  function PageOf(rows: seq<UserRow>, p: GetAllUsersParams): seq<UserRow>
    requires Offset(p.page, p.limit) >= 0 && p.limit >= 0
  {
    Window(Listed(rows, p), Offset(p.page, p.limit), p.limit)
  }

  /**
   * `GetAll`: the page `LIMIT limit OFFSET (page-1)*limit` of the filtered
   * users, newest first, with blank names, and the size of the filtered set;
   * a NULL name anywhere in the page makes the scan fail.
   */
  function ListUsers(rows: seq<UserRow>, p: GetAllUsersParams): (res: Result<GetAllUsersResult, DbError>)
    ensures var offset := Offset(p.page, p.limit);
      offset < 0 || p.limit < 0 ==> res.Err?
    ensures res.Ok? ==> |res.value.users| <= p.limit && res.value.count == |Listed(rows, p)|
  {
    var offset := Offset(p.page, p.limit);
    match PageError(offset, p.limit)
    case Some(e) => Err(e)
    case None =>
      match ScanPage(PageOf(rows, p))
      case Err(e) => Err(e)
      case Ok(users) => Ok(GetAllUsersResult(users, |Listed(rows, p)|))
  }

  /** Scanning the rows of a page: the first NULL name fails the whole scan. */
  function ScanPage(page: seq<UserRow>): (r: Result<seq<User>, DbError>)
    ensures r.Err? <==> exists k :: 0 <= k < |page| && ScanFails(page[k])
    ensures r.Err? ==> var k := FirstScanFailure(page); 0 <= k && r.error == NullIntoString(FailingColumn(page[k]))
    ensures r.Ok? ==> |r.value| == |page| && forall k :: 0 <= k < |page| ==> r.value[k] == Listing(page[k])
  {
    var k := FirstScanFailure(page);
    if k >= 0 then Err(NullIntoString(FailingColumn(page[k]))) else Ok(Listings(page))
  }

  /**
   * The `rows.Next()` loop of `GetAll`: scans each row into a record whose
   * names are then blanked, and stops at the first scan error.
   */
  method ScanRows(page: seq<UserRow>) returns (res: Result<seq<User>, DbError>)
    ensures res == ScanPage(page)
  {
    var users: seq<User> := [];
    for i := 0 to |page|
      invariant |users| == i
      invariant forall j :: 0 <= j < i ==> users[j] == Listing(page[j])
      invariant forall j :: 0 <= j < i ==> !ScanFails(page[j])
    {
      if ScanFails(page[i]) {
        assert FirstScanFailure(page) == i;
        return Err(NullIntoString(FailingColumn(page[i])));
      }
      users := users + [Listing(page[i])];
    }
    assert users == Listings(page);
    return Ok(users);
  }

  /**
   * A listing either fails on a page row with a NULL name, or returns users
   * with blank names and no password, each one a row that matches the search:
   * exactly the page's rows, in order.
   */
  lemma {:induction false} ListingContents(rows: seq<UserRow>, p: GetAllUsersParams)
    requires Offset(p.page, p.limit) >= 0 && p.limit >= 0
    ensures var page := Window(Listed(rows, p), Offset(p.page, p.limit), p.limit);
      ListUsers(rows, p).Err? <==> exists r :: r in page && ScanFails(r)
    ensures ListUsers(rows, p).Ok? ==> forall u :: u in ListUsers(rows, p).value.users ==>
      u.firstName == "" && u.lastName == "" && u.password == ""
    ensures ListUsers(rows, p).Ok? ==> forall u :: u in ListUsers(rows, p).value.users ==>
      exists r :: r in rows && UserMatches(r, p.search) && u == Listing(r)
    ensures ListUsers(rows, p).Ok? ==>
      ListUsers(rows, p).value.users == Listings(Window(Listed(rows, p), Offset(p.page, p.limit), p.limit))
  {
    var page := PageOf(rows, p);
    var scanned := ScanPage(page);
    assert ListUsers(rows, p).Err? <==> scanned.Err?;
    if scanned.Err? {
      var k :| 0 <= k < |page| && ScanFails(page[k]);
      assert page[k] in page;
    } else {
      PageRowsMatch(rows, p);
      var users := scanned.value;
      assert users == Listings(page);
      forall u | u in users
        ensures exists r :: r in rows && UserMatches(r, p.search) && u == Listing(r)
      {
        var i :| 0 <= i < |users| && users[i] == u;
        assert page[i] in page;
      }
    }
  }

  /** Every row of a page is a stored row that matches the search. */
  lemma PageRowsMatch(rows: seq<UserRow>, p: GetAllUsersParams)
    requires Offset(p.page, p.limit) >= 0 && p.limit >= 0
    ensures forall r :: r in PageOf(rows, p) ==> r in rows && UserMatches(r, p.search)
  {
    forall r | r in PageOf(rows, p)
      ensures r in rows && UserMatches(r, p.search)
    {
      assert r in Listed(rows, p);
      ReverseMembers(rows, r);
    }
  }

  /** Every page of the user listing is ordered by `created_at desc`. */
  lemma {:induction false} ListingNewestFirst(rows: seq<UserRow>, p: GetAllUsersParams)
    requires Ordered(rows)
    requires ListUsers(rows, p).Ok?
    ensures Descending(ListUsers(rows, p).value.users, UserCreatedAt)
  {
    assert Ascending(rows, RowCreatedAt);
    ReverseDescending(rows, RowCreatedAt);
    KeepDescending(Reverse(rows), Filter(p.search), RowCreatedAt);
    var listed := Listed(rows, p);
    var offset := Offset(p.page, p.limit);
    WindowDescending(listed, offset, p.limit, RowCreatedAt);
    assert ListUsers(rows, p).value.users == Listings(Window(listed, offset, p.limit));
  }

  /** A search term keeps exactly the users with a matching first name, last name or email. */
  lemma {:induction false} ListingSearch(rows: seq<UserRow>, p: GetAllUsersParams, r: UserRow)
    ensures r in Listed(rows, p) <==>
      r in rows && (p.search == "" || NullableILike(r.firstName, p.search) || NullableILike(r.lastName, p.search) || IContains(r.email, p.search))
  {
    ReverseMembers(rows, r);
  }

  class UserTable {
    /** The rows of `users`, oldest first. */
    var rows: seq<UserRow>
    /** The next value of the `id` serial. */
    var nextId: int
    /** The database clock: the latest `created_at` handed out. */
    var clock: int

    ghost predicate Valid()
      reads this
    {
      && 1 <= nextId
      && (forall k :: 0 <= k < |rows| ==> 1 <= rows[k].id < nextId && rows[k].createdAt <= clock)
      && Ordered(rows)
    }

    constructor (now: int)
      ensures Valid() && rows == [] && nextId == 1 && clock == now
    {
      rows := [];
      nextId := 1;
      clock := now;
    }

    /** `Create`: stores the user (empty names as NULL), fills in a fresh `id` and `created_at`. */
    method Create(user: User, now: int) returns (r: User)
      requires Valid() && clock <= now
      modifies this
      ensures Valid()
      ensures r == user.(id := old(nextId), createdAt := now)
      ensures forall k :: 0 <= k < |old(rows)| ==> old(rows)[k].id != r.id
      ensures rows == old(rows) + [InsertedRow(user, r.id, now)]
      ensures nextId == old(nextId) + 1 && clock == now
    {
      rows := rows + [InsertedRow(user, nextId, now)];
      r := user.(id := nextId, createdAt := now);
      nextId := nextId + 1;
      clock := now;
    }

    /** `Get`: the profile of the user with `id` (no password), or `ErrNoRows`. */
    method Get(id: int) returns (res: Result<User, DbError>)
      ensures res.Err? <==> forall k :: 0 <= k < |rows| ==> rows[k].id != id
      ensures res.Err? ==> res.error == ErrNoRows
      ensures res.Ok? ==> res.value.id == id && res.value.password == ""
      ensures res.Ok? ==> res.value == ReadProfile(rows[FindId(rows, id)])
    {
      var k := FindId(rows, id);
      if k < 0 {
        res := Err(ErrNoRows);
      } else {
        res := Ok(ReadProfile(rows[k]));
      }
    }

    /** `GetByEmail`: the first user whose email is exactly `email`, password hash included. */
    method GetByEmail(email: string) returns (res: Result<User, DbError>)
      ensures res.Err? <==> forall k :: 0 <= k < |rows| ==> rows[k].email != email
      ensures res.Err? ==> res.error == ErrNoRows
      ensures res.Ok? ==> res.value.email == email
      ensures res.Ok? ==> res.value == ReadWithPassword(rows[FindEmail(rows, email)])
    {
      var k := FindEmail(rows, email);
      if k < 0 {
        res := Err(ErrNoRows);
      } else {
        res := Ok(ReadWithPassword(rows[k]));
      }
    }

    /**
     * `GetAll`: runs the page query, scans each row (overwriting the names
     * with empty strings), then runs the count query.
     */
    method GetAll(params: GetAllUsersParams) returns (res: Result<GetAllUsersResult, DbError>)
      ensures res == ListUsers(rows, params)
    {
      var offset := Offset(params.page, params.limit);
      var queryError := PageError(offset, params.limit);
      if queryError.Some? {
        return Err(queryError.value);
      }
      var page := PageOf(rows, params);
      var count := |Listed(rows, params)|;
      var scanned := ScanRows(page);
      if scanned.Err? {
        return Err(scanned.error);
      }
      res := Ok(GetAllUsersResult(scanned.value, count));
    }

    /**
     * `UpdateUser`: sets both names of the row with `id` (stored as given,
     * not through `NullString`), and returns only id, email and `created_at`.
     */
    method UpdateUser(user: User) returns (res: Result<User, DbError>)
      requires Valid()
      modifies this
      ensures Valid() && nextId == old(nextId) && clock == old(clock)
      ensures |rows| == |old(rows)|
      ensures forall k :: 0 <= k < |rows| ==>
        rows[k] == if old(rows)[k].id == user.id
                   then old(rows)[k].(firstName := NullString(user.firstName, true), lastName := NullString(user.lastName, true))
                   else old(rows)[k]
      ensures res.Err? <==> forall k :: 0 <= k < |rows| ==> old(rows)[k].id != user.id
      ensures res.Err? ==> res.error == ErrNoRows
      ensures res.Ok? ==> exists k :: 0 <= k < |rows| && rows[k].id == user.id &&
                                      res.value == User(user.id, "", "", rows[k].email, "", rows[k].createdAt)
    {
      var before := rows;
      rows := seq(|before|, k requires 0 <= k < |before| =>
        if before[k].id == user.id
        then before[k].(firstName := NullString(user.firstName, true), lastName := NullString(user.lastName, true))
        else before[k]);
      var k := FindId(before, user.id);
      if k < 0 {
        res := Err(ErrNoRows);
      } else {
        res := Ok(User(rows[k].id, "", "", rows[k].email, "", rows[k].createdAt));
      }
    }

    /** `DeleteUser`: removes the row with `id`; `ErrNoRows` when there was none. */
    method DeleteUser(id: int) returns (err: Option<DbError>)
      requires Valid()
      modifies this
      ensures Valid() && nextId == old(nextId) && clock == old(clock)
      ensures rows == WithoutId(old(rows), id)
      ensures err.Some? <==> forall k :: 0 <= k < |old(rows)| ==> old(rows)[k].id != id
      ensures err.Some? ==> err.value == ErrNoRows
    {
      var k := FindId(rows, id);
      WithoutIdOrdered(rows, id);
      var before := rows;
      rows := WithoutId(rows, id);
      forall j | 0 <= j < |rows|
        ensures 1 <= rows[j].id < nextId && rows[j].createdAt <= clock
      {
        assert rows[j] in before;
      }
      err := if k < 0 then Some(ErrNoRows) else None;
    }
  }
}
