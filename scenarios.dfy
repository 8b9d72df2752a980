/** Properties of whole interactions: the coordinator's decisions judged on
    the store states that the thunks' dispatch sequences produce. */
module Scenarios {
  import opened Models
  import opened GridActions
  import opened Reducer
  import opened Thunks
  import opened Reload
  import opened Coordinator

  /** Mounting a grid that forces its first fetch: the store receives the
      initial parameters, the loading flag, the result for exactly those
      parameters and the loading reset, in that order, and the grid ends
      idle with a result that matches its parameters. */
  lemma MountWithForcedFetch(state: GridStateCollection, gridName: string,
                             initial: QueryParameters, result: Option<QueryResult>)
    ensures var mounted := Reduce(state, SetQueryParametersAction(gridName, initial));
            && EntryOf(mounted, gridName).queryParameters == Some(initial)
            && ShouldFetch(false, true, MapStateToProps(mounted, gridName))
            && [SetQueryParametersAction(gridName, initial)] + FetchLog(gridName, Some(initial), Resolved(result), [])
               == [SetQueryParametersAction(gridName, initial),
                   SetIsLoadingAction(gridName, true),
                   SetQueryResultAction(gridName, result, Some(initial)),
                   SetIsLoadingAction(gridName, false)]
            && MapStateToProps(ReduceAll(mounted, FetchLog(gridName, Some(initial), Resolved(result), [])), gridName)
               == StateProps(false, Some(initial), result, Some(initial))
  {
    var mounted := Reduce(state, SetQueryParametersAction(gridName, initial));
    SetQueryParametersWritesOnlyParameters(state, SetQueryParametersAction(gridName, initial));
    FetchSettledEntry(mounted, gridName, Some(initial), Resolved(result));
  }

  /** Once a fetch has settled with nothing interleaved, the grid is idle
      with a result for exactly its parameters, so evaluating the policy
      again does not fetch. */
  lemma SettledFetchIsNotRepeated(state: GridStateCollection, gridName: string,
                                  result: Option<QueryResult>, forceFetchOnMount: bool)
    ensures var captured := EntryOf(state, gridName).queryParameters;
            var props := MapStateToProps(ReduceAll(state, FetchLog(gridName, captured, Resolved(result), [])),
                                         gridName);
            && props == StateProps(false, captured, result, captured)
            && !ShouldFetch(true, forceFetchOnMount, props)
  {
    FetchSettledEntry(state, gridName, EntryOf(state, gridName).queryParameters, Resolved(result));
  }

  /** Dispatching structurally equal parameters again to a settled grid
      does not make the policy fetch: no duplicate fetch. */
  lemma SameParametersAgainAreNotFetched(state: GridStateCollection, gridName: string,
                                         queryParameters: QueryParameters, forceFetchOnMount: bool)
    requires EntryOf(state, gridName).queryParameters == Some(queryParameters)
    requires EntryOf(state, gridName).queryResultParameters == Some(queryParameters)
    requires EntryOf(state, gridName).isLoading == Some(false)
    ensures !ShouldFetch(true, forceFetchOnMount,
                         MapStateToProps(Reduce(state, SetQueryParametersAction(gridName, queryParameters)), gridName))
  {
    SetQueryParametersWritesOnlyParameters(state, SetQueryParametersAction(gridName, queryParameters));
  }

  /** Parameters that change while a fetch is pending: the result is
      recorded with the parameters it was fetched for, the grid is then
      idle with a stale result, so the policy fetches again, and that
      second fetch, of the newer parameters, brings result and parameters
      back in step. The older result never overwrites the newer one. */
  lemma StaleResultIsRefetched(state: GridStateCollection, gridName: string, newer: QueryParameters,
                               first: Option<QueryResult>, second: Option<QueryResult>,
                               forceFetchOnMount: bool)
    requires Some(newer) != EntryOf(state, gridName).queryParameters
    ensures var captured := EntryOf(state, gridName).queryParameters;
            var afterFirst := ReduceAll(state, FetchLog(gridName, captured, Resolved(first),
                                                        [SetQueryParametersAction(gridName, newer)]));
            var props := MapStateToProps(afterFirst, gridName);
            && props == StateProps(false, Some(newer), first, captured)
            && ShouldFetch(true, forceFetchOnMount, props)
            && MapStateToProps(ReduceAll(afterFirst, FetchLog(gridName, Some(newer), Resolved(second), [])), gridName)
               == StateProps(false, Some(newer), second, Some(newer))
  {
    var captured := EntryOf(state, gridName).queryParameters;
    var change := SetQueryParametersAction(gridName, newer);
    var log := FetchLog(gridName, captured, Resolved(first), [change]);
    var afterFirst := ReduceAll(state, log);
    FetchLogFolds(state, gridName, captured, Resolved(first), [change]);
    var loading := Reduce(state, SetIsLoadingAction(gridName, true));
    SetIsLoadingWritesOnlyFlag(state, SetIsLoadingAction(gridName, true));
    assert ReduceAll(loading, [change]) == Reduce(loading, change);
    var changed := Reduce(loading, change);
    SetQueryParametersWritesOnlyParameters(loading, change);
    SettleFolds(changed, gridName, captured, Resolved(first));
    var written := Reduce(changed, SetQueryResultAction(gridName, first, captured));
    SetQueryResultWritesResultAndParameters(changed, SetQueryResultAction(gridName, first, captured));
    SetIsLoadingWritesOnlyFlag(written, SetIsLoadingAction(gridName, false));
    assert EntryOf(afterFirst, gridName).queryParameters == Some(newer);
    FetchSettledEntry(afterFirst, gridName, Some(newer), Resolved(second));
  }

  /** A retrieval that rejects dispatches no result: the grid ends idle
      with its previous result and result parameters, so when those did not
      match its parameters, the next evaluation fetches again. */
  lemma FailedFetchIsRetried(state: GridStateCollection, gridName: string, error: string,
                             forceFetchOnMount: bool)
    requires EntryOf(state, gridName).queryParameters != EntryOf(state, gridName).queryResultParameters
    ensures var entry := EntryOf(state, gridName);
            var after := ReduceAll(state, FetchLog(gridName, entry.queryParameters, Rejected(error), []));
            var props := MapStateToProps(after, gridName);
            && props == StateProps(false, entry.queryParameters, entry.queryResult, entry.queryResultParameters)
            && ShouldFetch(true, forceFetchOnMount, props)
  {
    FetchSettledEntry(state, gridName, EntryOf(state, gridName).queryParameters, Rejected(error));
  }

  /** The retry that follows a rejected fetch, once it resolves, brings the
      result and its parameters back in step with the parameters. */
  lemma RetryAfterFailureIsInStep(state: GridStateCollection, gridName: string, error: string,
                                  retried: Option<QueryResult>)
    ensures var parameters := EntryOf(state, gridName).queryParameters;
            var failed := ReduceAll(state, FetchLog(gridName, parameters, Rejected(error), []));
            MapStateToProps(ReduceAll(failed, FetchLog(gridName, parameters, Resolved(retried), [])), gridName)
            == StateProps(false, parameters, retried, parameters)
  {
    var parameters := EntryOf(state, gridName).queryParameters;
    FetchSettledEntry(state, gridName, parameters, Rejected(error));
    var failed := ReduceAll(state, FetchLog(gridName, parameters, Rejected(error), []));
    FetchSettledEntry(failed, gridName, parameters, Resolved(retried));
  }

  /** `reloadGrid` is invisible to every grid component even where the
      reducer is handed it directly (a store refuses it before that): the
      flag the reducer sets is not part of any grid's props, so no fetch
      decision changes. */
  lemma ReloadIsInvisibleToGrids(state: GridStateCollection, reloaded: string, gridName: string)
    ensures MapStateToProps(Reduce(state, ReloadGrid(reloaded)), gridName) == MapStateToProps(state, gridName)
  {
    ReloadSetsOnlyReloadFlag(state, reloaded);
  }

  /** Over any sequence of actions, a grid's props change only through
      actions that name it. */
  lemma PropsOfUntouchedGridAreStable(state: GridStateCollection, actions: seq<Action>, gridName: string)
    requires forall i :: 0 <= i < |actions| ==> !Touches(actions[i], gridName)
    ensures MapStateToProps(ReduceAll(state, actions), gridName) == MapStateToProps(state, gridName)
  {
    ReduceAllKeepsUntouchedEntry(state, actions, gridName);
  }
}
