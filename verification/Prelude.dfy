/** Small vocabulary shared by every module. */
module Prelude {

  datatype Option<+T> = None | Some(value: T)

  /** `unwrap_or`, and SQL's coalesce of a parameter with a column. */
  function Or<T>(o: Option<T>, default: T): T {
    match o
    case Some(v) => v
    case None => default
  }

  /** The ways Postgres can abort a statement, and with it the whole transaction. */
  datatype DbError = CheckViolation | ForeignKeyViolation | UniqueViolation | NumericOverflow

  /** The outcome of one statement, or of a sequence of them, inside a transaction. */
  datatype Result<+T> = Ok(value: T) | Err(error: DbError) {
    /** `unwrap_or`: total, so contracts can speak of the outcome behind `Ok?`. */
    function Or(default: T): T {
      if Ok? then value else default
    }

    predicate IsFailure() {
      Err?
    }

    function PropagateFailure<U>(): Result<U>
      requires Err?
    {
      Err(error)
    }

    function Extract(): T
      requires Ok?
    {
      value
    }
  }

  const I64_MIN: int := -0x8000_0000_0000_0000
  const I64_MAX: int := 0x7fff_ffff_ffff_ffff

  /** A Rust i64 / Postgres bigint amount. */
  type Centavos = c: int | I64_MIN <= c <= I64_MAX

  /** Row ids. A uuid is modelled as a number drawn from a counter that only grows, so an id is
      never handed out twice and id order is insertion order. */
  type Id = nat

  /** A calendar day (see module Calendar) and an instant in milliseconds. */
  type Day = int
  type Time = int

  function Min(a: int, b: int): int {
    if a <= b then a else b
  }

  function Max(a: int, b: int): int {
    if a >= b then a else b
  }
}
