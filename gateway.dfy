/** The remote data gateway as the pages see it: every select or insert is an
    outcome handed in by the caller, and every query the pages build is
    recorded as a value, so that the filter and the order they request can be
    stated without modelling the server. Toast notifications are an append-only
    event log. */
module Gateway {

  datatype Option<+T> = None | Some(value: T) {
    function GetOr(default: T): T {
      match this
      case Some(v) => v
      case None => default
    }
  }

  /** What an awaited `insert` call produced: no error, an `{ error }` result,
      or an exception thrown by the client. */
  datatype InsertOutcome = Inserted | Rejected(message: string) | Threw(message: string)

  /** What an awaited `select` produced: `{ data }` (possibly null) with no
      error, an `{ error }` result, or an exception thrown by the client. */
  datatype QueryResult<+T> = Rows(data: Option<T>) | QueryError(message: string) | QueryThrew(message: string) {
    predicate Failed() {
      !Rows?
    }
  }

  /** A literal compared against a column by `eq`. */
  datatype Literal = TextLit(s: string) | BoolLit(b: bool)

  datatype Filter = Eq(column: string, value: Literal)

  datatype Ordering = OrderBy(column: string, ascending: bool)

  /** A `from(table).select('*')` chain with its `eq` filters, its `order`
      calls in sequence, and whether it ends in `maybeSingle()`. */
  datatype Query = Query(table: string, filters: seq<Filter>, order: seq<Ordering>, maybeSingle: bool)

  /** One `toast({ title, description, variant })` call; `destructive` is
      whether the variant is "destructive". */
  datatype Toast = Toast(title: string, description: string, destructive: bool)
}
