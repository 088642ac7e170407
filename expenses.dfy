/** The one entity of the expense tracker, and the small wrappers its operations use. */
module Expenses {

  datatype Option<+T> = None | Some(value: T)

  datatype Result<+T, +E> = Ok(value: T) | Err(error: E)

  /** A timestamp, as an integer on a single time line (naive UTC datetimes in the source). */
  type Timestamp = int

  /** One row of the `expenses` table. Amounts are integers (for instance cents). */
  datatype Expense = Expense(
    id: int,
    description: string,
    category: string,
    amount: int,
    createdAt: Timestamp
  )

  /** Python's truthiness of an optional text parameter: present and non-empty. */
  predicate Given(p: Option<string>) {
    p.Some? && p.value != ""
  }

  /** The primary key is unique over the whole table. */
  ghost predicate UniqueIds(rows: seq<Expense>) {
    forall i, j :: 0 <= i < j < |rows| ==> rows[i].id != rows[j].id
  }

  /** Some row of `rows` carries the key `id`. */
  predicate HasId(rows: seq<Expense>, id: int) {
    exists e :: e in rows && e.id == id
  }
}
