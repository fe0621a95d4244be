/**
 * `database/sql`'s nullable column values and the two constructors of
 * pkg/utils/null.go that turn Go's zero value into SQL NULL.
 */
module Nulls {

  /** `sql.NullString`: `valid == false` is NULL; `str` is what `.String` reads. */
  datatype NullString = NullString(str: string, valid: bool)

  /** `sql.NullInt64`: `valid == false` is NULL; `int64` is what `.Int64` reads. */
  datatype NullInt64 = NullInt64(int64: int, valid: bool)

  /** The value SQL writes for a NULL column of either kind. */
  const NullStr: NullString := NullString("", false)
  const NullInt: NullInt64 := NullInt64(0, false)

  /** `utils.NullString`: the empty string becomes NULL, anything else is stored. */
  function ToNullString(s: string): (ns: NullString)
    ensures ns.valid <==> s != ""
    ensures ns.str == s
    ensures s == "" ==> ns == NullStr
  {
    if s != "" then NullString(s, true) else NullStr
  }

  /** `utils.NullInt64`: zero becomes NULL, anything else is stored. */
  function ToNullInt64(f: int): (ns: NullInt64)
    ensures ns.valid <==> f != 0
    ensures ns.int64 == f
    ensures f == 0 ==> ns == NullInt
  {
    if f != 0 then NullInt64(f, true) else NullInt
  }
}
