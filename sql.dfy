/**
 * The nullable catalog values the generator scans query rows into:
 * `database/sql`'s and pgx's `NullString`/`NullInt32`/`NullInt64`
 * (a value and a `Valid` flag) and pgtype's `Text`/`Int4` (a value and a
 * three-way `Status`).
 */
module Sql {

  type Int32 = x: int | -0x8000_0000 <= x < 0x8000_0000
  type Int64 = x: int | -0x8000_0000_0000_0000 <= x < 0x8000_0000_0000_0000

  datatype NullString = NullString(value: string, valid: bool)
  datatype NullInt32 = NullInt32(value: Int32, valid: bool)
  datatype NullInt64 = NullInt64(value: Int64, valid: bool)

  /** pgtype's status of a scanned value. */
  datatype Status = Undefined | Null | Present

  datatype PgText = PgText(value: string, status: Status)
  datatype PgInt4 = PgInt4(value: Int32, status: Status)
}
