/**
 * storage/repo: the records exchanged with the storage layer and the errors
 * the Postgres driver can report for the modelled queries.
 */
module Repo {
  import opened Wrappers
  import opened Text

  /** `repo.Url`; times are integers, `expiresAt` is the nullable `*time.Time`. */
  datatype Url = Url(
    id: int, userId: int, originalUrl: string, hashedUrl: string,
    maxClicks: int, expiresAt: Option<int>, createdAt: int)

  /** `repo.User`; `password` holds the bcrypt hash. */
  datatype User = User(
    id: int, firstName: string, lastName: string, email: string, password: string, createdAt: int)

  /** The Go zero value of `repo.User`. */
  const EmptyUser: User := User(0, "", "", "", "", 0)

  /**
   * `repo.GetAllUrlsParams`, with the `UserID` field that the listing code
   * reads (0 means no owner filter).
   */
  datatype GetAllUrlsParams = GetAllUrlsParams(limit: Int32, page: Int32, search: string, userId: int)

  datatype GetAllUrlsResult = GetAllUrlsResult(urls: seq<Url>, count: int)

  datatype GetAllUsersParams = GetAllUsersParams(limit: Int32, page: Int32, search: string)

  datatype GetAllUsersResult = GetAllUsersResult(users: seq<User>, count: int)

  /**
   * Errors of the modelled queries: `sql.ErrNoRows`, Postgres rejecting a
   * negative OFFSET or LIMIT, and `Scan` refusing to put NULL into a Go string
   * (with the result column it refused).
   */
  datatype DbError = ErrNoRows | NegativeOffset | NegativeLimit | NullIntoString(column: NameColumn)

  /** The nullable name columns of the users listing: result columns 1 and 2. */
  datatype NameColumn = FirstNameColumn | LastNameColumn

  /** `(page - 1) * limit`, computed in 32-bit arithmetic as the Go code does. */
  function Offset(page: Int32, limit: Int32): (r: Int32)
    ensures 1 <= page && 0 <= limit && IsInt32((page - 1) * limit) ==> r == (page - 1) * limit
  {
    var prev := ToInt32(page - 1);
    assert 1 <= page ==> prev == page - 1;
    ToInt32(prev * limit)
  }

  /**
   * `LIMIT limit OFFSET offset` over `s`: skip `offset` entries, keep at most
   * `limit` (both already known to be non-negative).
   */
  function Window<T>(s: seq<T>, offset: nat, limit: nat): (r: seq<T>)
    ensures |r| <= limit
    ensures offset >= |s| ==> r == []
    ensures offset < |s| ==> r == s[offset..if offset + limit <= |s| then offset + limit else |s|]
  {
    if offset >= |s| then [] else s[offset..if offset + limit <= |s| then offset + limit else |s|]
  }

  /** The page query fails exactly when Postgres rejects its OFFSET or LIMIT. */
  function PageError(offset: int, limit: int): (r: Option<DbError>)
    ensures r.None? <==> offset >= 0 && limit >= 0
  {
    if offset < 0 then Some(NegativeOffset) else if limit < 0 then Some(NegativeLimit) else None
  }

  /** `s` in reverse order: the `ORDER BY created_at desc` of rows kept oldest first. */
  function Reverse<T>(s: seq<T>): (r: seq<T>)
    ensures |r| == |s|
  {
    if s == [] then [] else [s[|s| - 1]] + Reverse(s[..|s| - 1])
  }

  lemma {:induction false} ReverseAt<T>(s: seq<T>, k: int)
    requires 0 <= k < |s|
    ensures Reverse(s)[k] == s[|s| - 1 - k]
    decreases |s|
  {
    if k > 0 {
      ReverseAt(s[..|s| - 1], k - 1);
    }
  }

  lemma {:induction false} ReverseMembers<T>(s: seq<T>, x: T)
    ensures x in Reverse(s) <==> x in s
  {
    if x in Reverse(s) {
      var k :| 0 <= k < |s| && Reverse(s)[k] == x;
      ReverseAt(s, k);
    }
    if x in s {
      var k :| 0 <= k < |s| && s[k] == x;
      ReverseAt(s, |s| - 1 - k);
    }
  }

  /** The entries of `s` a `WHERE` clause keeps, in the order of `s`. */
  function Keep<T(!new)>(s: seq<T>, f: T -> bool): (r: seq<T>)
    ensures |r| <= |s|
    ensures forall x :: x in r <==> x in s && f(x)
    ensures (forall k :: 0 <= k < |s| ==> !f(s[k])) ==> r == []
  {
    if s == [] then []
    else Keep(s[..|s| - 1], f) + (if f(s[|s| - 1]) then [s[|s| - 1]] else [])
  }

  /** `key` never decreases along `s` (rows in insertion order, by `created_at`). */
  predicate Ascending<T>(s: seq<T>, key: T -> int)
  {
    forall i, j :: 0 <= i < j < |s| ==> key(s[i]) <= key(s[j])
  }

  /** `key` never increases along `s` (`ORDER BY key desc`). */
  predicate Descending<T>(s: seq<T>, key: T -> int)
  {
    forall i, j :: 0 <= i < j < |s| ==> key(s[i]) >= key(s[j])
  }

  lemma {:induction false} ReverseDescending<T>(s: seq<T>, key: T -> int)
    requires Ascending(s, key)
    ensures Descending(Reverse(s), key)
  {
    var r := Reverse(s);
    forall i, j | 0 <= i < j < |r|
      ensures key(r[i]) >= key(r[j])
    {
      ReverseAt(s, i);
      ReverseAt(s, j);
    }
  }

  lemma {:induction false} KeepDescending<T(!new)>(s: seq<T>, f: T -> bool, key: T -> int)
    requires Descending(s, key)
    ensures Descending(Keep(s, f), key)
    decreases |s|
  {
    if s != [] {
      var init, last := s[..|s| - 1], s[|s| - 1];
      KeepDescending(init, f, key);
      forall x | x in Keep(init, f)
        ensures key(x) >= key(last)
      {
        var m :| 0 <= m < |init| && init[m] == x;
      }
    }
  }

  /** A page of a descending sequence is descending. */
  lemma WindowDescending<T>(s: seq<T>, offset: nat, limit: nat, key: T -> int)
    requires Descending(s, key)
    ensures Descending(Window(s, offset, limit), key)
  {
  }
}
