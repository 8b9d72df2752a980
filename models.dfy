/** Value types of the grid: query parameters, a fetched page of records,
    one grid's entry in the store and the store's keyed collection of
    entries. JavaScript's `null` and `undefined` are both `None`: every
    read the grid component makes folds the two together. */
module Models {

  /** A value that may be `null` or `undefined` (`None`). */
  datatype Option<+T> = None | Some(value: T) {
    /** The value, or `default` when there is none. */
    function GetOr(default: T): T
    {
      match this
      case Some(v) => v
      case None => default
    }
  }

  /** A value, or the error a JavaScript expression would throw. */
  datatype Result<+T> = Ok(value: T) | Err(error: string)

  /** How an `async` function's promise settles: normally, or with the
      error it throws (or lets propagate). */
  datatype Completion = Normal | Threw(error: string)

  /** How the caller-supplied retrieval function's promise settles. The
      resolved value may itself be `null`. */
  datatype Outcome = Resolved(result: Option<QueryResult>) | Rejected(error: string)

  /** One sort rule of the table widget: a column and its direction. */
  datatype SortingRule = SortingRule(id: string, desc: bool)

  /** One filter of the table widget: a column and the filter value. */
  datatype Filter = Filter(id: string, value: string)

  /** What to fetch: a page index, a page size, sort rules and filters. */
  datatype QueryParameters = QueryParameters(
    page: int,
    pageSize: int,
    sorts: seq<SortingRule>,
    filters: seq<Filter>)

  /** One record of a fetched page, column name to cell text. */
  datatype Row = Row(cells: map<string, string>)

  /** One fetched page, with the total record and page counts. */
  datatype QueryResult = QueryResult(data: seq<Row>, count: int, pages: int)

  /** One grid's entry in the store. Entries are built by spreading the
      previous entry, which is `undefined` the first time, so every field
      may be absent. `isReloadRequested` is written by the reducer although
      the declared interface does not list it. */
  datatype GridState = GridState(
    queryParameters: Option<QueryParameters>,
    queryResult: Option<QueryResult>,
    queryResultParameters: Option<QueryParameters>,
    isLoading: Option<bool>,
    isReloadRequested: Option<bool>)

  /** `{...undefined}`: the entry with no field set. */
  const EmptyGridState := GridState(None, None, None, None, None)

  /** The store's `grid` slice: grid name to entry. */
  datatype GridStateCollection = GridStateCollection(grids: map<string, GridState>)

  /** The entry of `gridName` as a spread sees it: the empty entry when the
      name has none. */
  function EntryOf(state: GridStateCollection, gridName: string): GridState
  {
    if gridName in state.grids then state.grids[gridName] else EmptyGridState
  }
}
