/**
 * The hosted table client as the hooks see it. A request is a description
 * built step by step with the client's builder (table, count option,
 * ordering, filters, range, limit, how many rows are expected); the server
 * runs it. What an awaited call yields is a parameter of every operation that
 * awaits one: data on success, or the error the hook throws.
 */
module Remote {
  import opened Js

  datatype Direction = Ascending | Descending

  datatype Ordering = OrderBy(column: string, direction: Direction)

  /** Inclusive zero-based row offsets, as `range(from, to)` takes them. */
  datatype Range = Range(from: int, to: int)

  /** `select` returns many rows; `single()` demands exactly one; `maybeSingle()` at most one. */
  datatype Cardinality = Many | Single | MaybeSingle

  datatype Query = Query(
    table: string,
    countExact: bool,
    order: Option<Ordering>,
    // `or(title.ilike.%t%,description.ilike.%t%)` for the term t
    titleOrDescriptionLike: Option<string>,
    // `contains('tags', [t])` for the tag t
    tagsContain: Option<string>,
    // `eq('id', v)` for the value v
    idEquals: Option<string>,
    range: Option<Range>,
    limit: Option<nat>,
    cardinality: Cardinality)

  /** `from(table).select('*')`: every column, no filter, no order. */
  function SelectAll(table: string): Query {
    Query(table, false, None, None, None, None, None, None, Many)
  }

  /**
   * The outcome of an awaited call. `Failed(Some(m))` is an error that is an
   * `Error` instance with message m; `Failed(None)` is any other thrown value.
   */
  datatype Response<D> = Ok(data: D) | Failed(message: Option<string>)

  /** `err instanceof Error ? err.message : fallback`. */
  function ErrorText(message: Option<string>, fallback: string): string {
    match message
    case Some(m) => m
    case None => fallback
  }
}
