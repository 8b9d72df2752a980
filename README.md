# async-react-table: fetch coordination and store reconciliation

A Dafny model of the core of a paginated, sortable, filterable data grid that
keeps its query parameters, its fetched page and its loading flag in a Redux
store, keyed by grid name. The model covers:

- the reducer (`Reducer`): a pure, total transition function on the map from
  grid name to grid entry, with its four action cases and the default
  pass-through, and the fold of it over a sequence of actions;
- the action objects and the `gridActionTypes` table (`GridActions`),
  including the missing `GRID_SET_IS_RELOAD_REQUESTED` key, which makes both
  `reloadGrid`'s action type and the reducer's reload case label `undefined`;
- the store (`ReduxStore.Store`): a class holding the collection and a log of
  every action it accepted, whose state is always the reducer folded over
  the log; like Redux's `dispatch`, it refuses an action whose type is
  `undefined`;
- the thunks (`Thunks`): `setGridQueryParameters` and `fetchData`, the
  latter with its exact dispatch order, its parameter capture before the
  await, its `try`/`finally` without `catch`, and the actions other code may
  dispatch while the retrieval is awaited;
- `reloadGrid` (`Reload`);
- the grid component (`Coordinator`): `defaultProps`, `mapStateToProps`,
  page clamping, the fetch-skip policy with its `hasFirstFetchOccurred`
  flag, the mount and update sequences and the four parameter mutators, as
  a class `Grid` over a `Store`;
- whole interactions (`Scenarios`): mount with a forced fetch, a settled
  fetch that is not repeated, parameters that change while a fetch is
  pending, a failing retrieval, and `reloadGrid` as seen by a grid.

JavaScript's `null` and `undefined` are both `Option.None`.
`mapStateToProps` folds both to `null`, and the model treats them alike
everywhere else too, although `defaultProps` replaces only `undefined` (see
"## Left out" on a `null` initial-parameters prop). The
retrieval function is a parameter of type
`Option<QueryParameters> -> Outcome`, where an `Outcome` is a resolved value
(possibly `null`) or a rejection. An `async` function's settling is a
`Completion`: normal, or the error it throws.

Three behaviours of the code are easy to misread; the model follows the
code:

- A rejected retrieval dispatches no `SetQueryResult` (there is no `catch`);
  only the loading reset in the `finally` runs, and the rejection propagates
  out of `fetchData`, `fetchDataIfRequired` and the lifecycle method. So the
  result parameters keep their old value, and the next evaluation of the
  fetch policy fetches again whenever they differ from the parameters
  (`Scenarios.FailedFetchIsRetried`), rather than settling on a `null`
  result.
- `reloadGrid`'s action has an `undefined` type, which a Redux store's
  `dispatch` refuses with an error before the reducer runs, so dispatching
  it stores nothing (`ReduxStore.Store.Dispatch`,
  `Reload.ReloadGridIsRefusedByStore`). Even the reload flag written by the
  reducer, were it called directly, is never read: `mapStateToProps` does
  not project it and the fetch policy does not consult it, so `reloadGrid`
  never causes a fetch (`Scenarios.ReloadIsInvisibleToGrids`).
- Because the reload case label is `undefined`, the reducer itself also
  treats any other action whose type is `undefined` as a reload request.

## Model

| member | source | states |
|---|---|---|
| `Reducer.Reduce` | src/reducer.ts:8-63 | an unhandled action type returns the state unchanged; a handled one adds exactly the payload's grid name to the keys; every other entry is carried over unchanged |
| `Reducer.InitialStateIsEmpty` | src/reducer.ts:4-8 | with no state passed, the reducer starts from an empty collection |
| `Reducer.SetQueryParametersWritesOnlyParameters` | src/reducer.ts:10-21 | SET_QUERY_PARAMETERS writes the payload's parameters into the named entry (creating it) and keeps its other four fields |
| `Reducer.SetQueryResultWritesResultAndParameters` | src/reducer.ts:22-34 | SET_QUERY_RESULT writes both the result, also a null one, and the result parameters, and leaves the loading flag and the other fields alone |
| `Reducer.SetIsLoadingWritesOnlyFlag` | src/reducer.ts:35-46 | SET_IS_LOADING changes only the loading flag of the named entry |
| `Reducer.SetIsReloadRequestedWritesOnlyFlag` | src/reducer.ts:47-58 | the reload case changes only the reload flag of the named entry |
| `Reducer.FetchDataTypeIsIgnored` | src/reducer.ts:59-61 | the declared but unhandled GRID_FETCH_DATA type returns the state unchanged |
| `Reducer.LazyEntryCreation` | src/reducer.ts:13-19 | for an absent grid name, the result's keys are the old keys plus that name, and the new entry holds only the field(s) the action writes |
| `Reducer.ReduceIdempotent` | src/reducer.ts:10-58 | reducing the same action twice equals reducing it once |
| `Reducer.ReduceAllAppend` | src/reducer.ts:8 | folding the reducer over a concatenation of action sequences is folding over one then the other |
| `Reducer.ReduceAllKeepsUntouchedEntry` | src/reducer.ts:12-20 | over any sequence of actions, the entry of a grid that no handled action names is unchanged, present or absent |
| `Reducer.ReduceAllKeepsResult` | src/reducer.ts:22-34 | actions that are not result writes for a grid keep its result and result parameters |
| `Reducer.LastResultWins` | src/reducer.ts:22-34 | after a sequence of actions, a grid holds the result and result parameters of the last result write for it, in dispatch order |
| `GridActions.ActionTypeLabels` | src/actions.ts:4-9 | the four table keys resolve to themselves and are distinct; GRID_SET_IS_RELOAD_REQUESTED resolves to undefined |
| `ReduxStore.Store.Dispatch` | src/actions.ts:18 | an action with an undefined type is refused with an error and changes nothing; any other applies one reducer step and is appended to the log, keeping the state equal to the fold of the log and the log free of undefined types |
| `ReduxStore.Store.Interleave` | src/actions.ts:28 | actions dispatched by others and accepted by the store during the await are applied in order and logged |
| `Thunks.SetGridQueryParameters` | src/actions.ts:11-16 | exactly one SET_QUERY_PARAMETERS action with payload {gridName, queryParameters} is dispatched |
| `Thunks.FetchData` | src/actions.ts:18-41 | the log grows by SetIsLoading(true), the interleaved actions, SetQueryResult(result, captured) only on success, SetIsLoading(false); the retrieval is called with the parameters read after the first dispatch; a rejection propagates |
| `Thunks.OwnDispatches` | src/actions.ts:21-39 | the thunk's own dispatches all name the grid, start with the loading flag and end with its reset, and include a result write exactly on success, carrying the resolved value and the captured parameters |
| `Thunks.FetchLeavesGridNotLoading` | src/actions.ts:34-39 | on every exit path and whatever was interleaved, the grid ends with its loading flag false |
| `Thunks.FetchRecordsCapturedParameters` | src/actions.ts:27-33 | on success the grid holds the resolved result with the parameters captured before the await, even when others changed the parameters meanwhile |
| `Thunks.FetchFailureKeepsResult` | src/actions.ts:26-40 | on rejection the grid keeps its previous result and result parameters and its loading flag is reset |
| `Thunks.FetchKeepsOtherGrids` | src/actions.ts:21-39 | a fetch leaves the entry of every other grid that nothing interleaved names unchanged |
| `Thunks.FetchSettledEntry` | src/actions.ts:21-39 | with nothing interleaved, a fetch leaves the grid's entry as it was except for a false loading flag and, on success, the new result and captured parameters |
| `Reload.ReloadGrid` | src/index.ts:7-13 | the action's payload is {gridName, isReloadRequested: true} and its type is undefined |
| `Reload.ReloadSetsOnlyReloadFlag` | src/reducer.ts:47-58 | reloadGrid's type equals the reducer's reload label, and reducing it sets only the named grid's reload flag |
| `Reload.ReloadGridIsRefusedByStore` | src/index.ts:7-13 | reloadGrid's action has an undefined type, so a store refuses it before the reducer runs |
| `Reload.ReloadIdempotent` | src/reducer.ts:47-58 | reducing reloadGrid(g) twice equals reducing it once |
| `Coordinator.ApplyDefaultProps` | src/grid.tsx:39-42 | given props are kept; missing initial parameters become page 0 of 10 with no sorts or filters, and a missing force flag becomes true |
| `Coordinator.MapStateToProps` | src/grid.tsx:163-169 | an absent entry gives isLoading false and null for the rest; otherwise isLoading is true only when the stored flag is true, and the other three props are the entry's fields |
| `Coordinator.LastPage` | src/grid.tsx:70 | the last page index is max(pages - 1, 0) |
| `Coordinator.FixInvalidQueryParameters` | src/grid.tsx:64-73 | with no result the input is returned; null parameters with a result throw; otherwise the page ends at most the last page, only the page changes, and it changes exactly when it lay past the last page, to the last page |
| `Coordinator.ClampsPageFiveOfThreePages` | src/grid.tsx:69-72 | page 5 of a three-page result is corrected to page 2 |
| `Coordinator.UpdateDispatchesOnlyWhenClamping` | src/grid.tsx:56-60 | the update dispatches new parameters exactly when the page lies past the last page of the current result, and then only the page differs |
| `Coordinator.FetchPolicy` | src/grid.tsx:85-91 | a forced first evaluation always fetches; otherwise no fetch while loading or when the parameters equal the result parameters; an idle grid with a stale result always fetches |
| `Coordinator.WithPage` | src/grid.tsx:94-100 | the parameters differ from the input only in the page, which is the given index |
| `Coordinator.WithPageSize` | src/grid.tsx:102-109 | the parameters differ from the input only in page and page size, which are the given ones |
| `Coordinator.WithSorts` | src/grid.tsx:111-117 | the parameters differ from the input only in the sort rules |
| `Coordinator.WithFilters` | src/grid.tsx:119-125 | the parameters differ from the input only in the filters |
| `Coordinator.Grid.constructor` | src/grid.tsx:44-49 | a new grid has not had its first fetch and uses its owner's props with the defaults applied |
| `Coordinator.Grid.FetchDataIfRequired` | src/grid.tsx:79-92 | the first-fetch flag becomes true and stays true; the fetch happens exactly when the policy holds for the flag as it was before and the current props, and then the store receives one whole fetch of the grid's current parameters |
| `Coordinator.Grid.ComponentDidMount` | src/grid.tsx:51-54 | the initial parameters are dispatched, then the policy is evaluated on the resulting state; a forced first mount always fetches, and the retrieval receives the initial parameters; the returned promise settles as the retrieval did when a fetch happened, and normally otherwise |
| `Coordinator.Grid.ComponentDidUpdate` | src/grid.tsx:56-62 | a throwing clamp dispatches nothing; otherwise the clamped parameters are dispatched only when they changed, the policy is always evaluated afterwards on the resulting state, and the promise settles as the retrieval of the clamped parameters did when a fetch happened, and normally otherwise |
| `Coordinator.Grid.OnPageChange` | src/grid.tsx:94-100 | exactly one SET_QUERY_PARAMETERS with only the page changed |
| `Coordinator.Grid.OnPageSizeChange` | src/grid.tsx:102-109 | exactly one SET_QUERY_PARAMETERS with the page and page size changed |
| `Coordinator.Grid.OnSortedChange` | src/grid.tsx:111-117 | exactly one SET_QUERY_PARAMETERS with the sort rules changed |
| `Coordinator.Grid.OnFilteredChange` | src/grid.tsx:119-125 | exactly one SET_QUERY_PARAMETERS with the filters changed |
| `Scenarios.MountWithForcedFetch` | src/grid.tsx:51-54 | a forced mount dispatches [SetQueryParameters(initial), SetIsLoading(true), SetQueryResult(result, initial), SetIsLoading(false)] and ends idle with result parameters equal to the parameters |
| `Scenarios.SettledFetchIsNotRepeated` | src/grid.tsx:85-88 | after a fetch settles with nothing interleaved, the grid is idle with result parameters equal to its parameters, so the policy does not fetch again |
| `Scenarios.SameParametersAgainAreNotFetched` | src/grid.tsx:85-88 | dispatching structurally equal parameters again to a settled, idle grid does not make the policy fetch |
| `Scenarios.StaleResultIsRefetched` | src/actions.ts:27-32 | parameters changed during a pending fetch leave a stale result with the old parameters, the policy then fetches, and the second fetch brings result and parameters back in step |
| `Scenarios.FailedFetchIsRetried` | src/actions.ts:26-40 | after a rejected fetch the grid is idle with its old result and result parameters, so a stale grid is fetched again on the next evaluation |
| `Scenarios.RetryAfterFailureIsInStep` | src/actions.ts:26-33 | after a rejected fetch, a retry of the same parameters that resolves leaves the grid idle with the new result and result parameters equal to the parameters |
| `Scenarios.ReloadIsInvisibleToGrids` | src/grid.tsx:163-169 | reducing reloadGrid changes no grid's props, so no fetch decision changes |
| `Scenarios.PropsOfUntouchedGridAreStable` | src/reducer.ts:12-20 | over any sequence of actions, a grid's props change only through actions that name it |

## Left out

- `render` and the props passed to the table widget: user interface only.
- `createGrid`, `connect`, `bindActionCreators`, `mapActionToProps` and `WrappedGrid`: store-binding plumbing; the grid name is fixed when a `Grid` is constructed and the thunks are called directly.
- Promise and `await` scheduling: the retrieval is a total function returning an outcome, and other code's activity during the await is a given sequence of actions applied between the parameter read and the settling dispatches. Truly overlapping fetches of one grid and the re-entrant lifecycle calls that React's re-renders would trigger are not modelled; callers invoke the lifecycle methods explicitly.
- When React refreshes `this.props`: the model reads the grid's props from the store each time they are used. The `hasFirstFetchOccurred` state update is applied at once; the decision uses the value read before it either way.
- `lodash.isEqual`: structural equality of the parameter datatype.
- Numbers: page, page size, counts and page totals are unbounded integers; NaN and fractional values are not modelled.
- A filter's value is a string; the table widget allows any value.
- An owner passing `null` (rather than nothing) as the initial parameters is not modelled; `None` means "not given", which the defaults replace.
- `Coordinator.Grid.OnPageChange`: requires the grid's parameters to be present; spreading `null` parameters, which yields an object holding only the changed field, is outside the parameter datatype.
- `Coordinator.Grid.OnPageSizeChange`: requires the grid's parameters to be present, for the same reason.
- `Coordinator.Grid.OnSortedChange`: requires the grid's parameters to be present, for the same reason; the unused column and shift-key arguments are dropped.
- `Coordinator.Grid.OnFilteredChange`: requires the grid's parameters to be present, for the same reason; the unused column argument is dropped.
- `Coordinator.Grid.retrieve`: the owner's retrieval is a fixed function of the parameters, so for one `Grid` a retrieval that rejected for some parameters rejects for them on every later fetch; a transient failure followed by a successful retry is stated on the thunk level instead, where `Thunks.FetchLog` takes the outcome as an argument (`Scenarios.FailedFetchIsRetried`, `Scenarios.RetryAfterFailureIsInStep`).
- Redux itself is not part of this model: of its `dispatch`, only the reducer step and the refusal of an `undefined` type are modelled; middleware other than the thunk calls made directly, subscriptions and the other checks on an action are left out.
- `src/models.ts` carries only type declarations; it supplies the datatypes in `Models`.
