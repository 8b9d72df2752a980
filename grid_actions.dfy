/** The action objects of the grid: the `gridActionTypes` table and the
    shapes the thunks and `reloadGrid` dispatch. */
module GridActions {
  import opened Models

  const SetQueryParametersKey := "GRID_SET_QUERY_PARAMETERS"
  const FetchDataKey := "GRID_FETCH_DATA"
  const SetQueryResultKey := "GRID_SET_QUERY_RESULT"
  const SetIsLoadingKey := "GRID_SET_IS_LOADING"
  /** Used by `reloadGrid` and the reducer, but not a key of the table. */
  const SetIsReloadRequestedKey := "GRID_SET_IS_RELOAD_REQUESTED"

  /** The `gridActionTypes` object: each of its four keys maps to itself. */
  const GridActionTypes: map<string, string> := map[
    SetQueryParametersKey := SetQueryParametersKey,
    FetchDataKey := FetchDataKey,
    SetQueryResultKey := SetQueryResultKey,
    SetIsLoadingKey := SetIsLoadingKey
  ]

  /** The property access `gridActionTypes[key]`: `undefined` for a key the
      object does not have. */
  function ActionType(key: string): Option<string>
  {
    if key in GridActionTypes then Some(GridActionTypes[key]) else None
  }

  /** An action's untyped payload. Every creator supplies the grid name;
      the other fields are present only where that creator sets them. */
  datatype Payload = Payload(
    gridName: string,
    queryParameters: Option<QueryParameters>,
    queryResult: Option<QueryResult>,
    queryResultParameters: Option<QueryParameters>,
    isLoading: Option<bool>,
    isReloadRequested: Option<bool>)

  /** An action object; `kind` is its `type` property, possibly `undefined`. */
  datatype Action = Action(kind: Option<string>, payload: Payload)

  /** A payload carrying only the grid name. */
  function NamePayload(gridName: string): Payload
  {
    Payload(gridName, None, None, None, None, None)
  }

  /** The action `setGridQueryParameters` dispatches. */
  function SetQueryParametersAction(gridName: string, queryParameters: QueryParameters): Action
  {
    Action(ActionType(SetQueryParametersKey),
           NamePayload(gridName).(queryParameters := Some(queryParameters)))
  }

  /** The result action `fetchData` dispatches. */
  function SetQueryResultAction(gridName: string, queryResult: Option<QueryResult>,
                                queryResultParameters: Option<QueryParameters>): Action
  {
    Action(ActionType(SetQueryResultKey),
           NamePayload(gridName).(queryResult := queryResult,
                                  queryResultParameters := queryResultParameters))
  }

  /** The loading-flag action `fetchData` dispatches. */
  function SetIsLoadingAction(gridName: string, isLoading: bool): Action
  {
    Action(ActionType(SetIsLoadingKey), NamePayload(gridName).(isLoading := Some(isLoading)))
  }

  /** The four keys the table has resolve to themselves, the fetch-data key
      among them, and the reload key resolves to `undefined`; the four
      labels the reducer switches on are therefore pairwise distinct. */
  lemma ActionTypeLabels()
    ensures ActionType(SetQueryParametersKey) == Some(SetQueryParametersKey)
    ensures ActionType(FetchDataKey) == Some(FetchDataKey)
    ensures ActionType(SetQueryResultKey) == Some(SetQueryResultKey)
    ensures ActionType(SetIsLoadingKey) == Some(SetIsLoadingKey)
    ensures ActionType(SetIsReloadRequestedKey) == None
    ensures SetQueryParametersKey != SetQueryResultKey
    ensures SetQueryParametersKey != SetIsLoadingKey
    ensures SetQueryResultKey != SetIsLoadingKey
    ensures FetchDataKey != SetQueryParametersKey
    ensures FetchDataKey != SetQueryResultKey
    ensures FetchDataKey != SetIsLoadingKey
  {
  }
}
