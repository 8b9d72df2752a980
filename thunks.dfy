/** The two thunks of the grid: `setGridQueryParameters`, which dispatches
    one action, and `fetchData`, which brackets a call of the caller's
    retrieval function between two loading-flag dispatches. */
module Thunks {
  import opened Models
  import opened GridActions
  import opened Reducer
  import opened ReduxStore

  /** `setGridQueryParameters(gridName, queryParameters)`: exactly one
      SET_QUERY_PARAMETERS action with that payload. */
  method SetGridQueryParameters(store: Store, gridName: string, queryParameters: QueryParameters)
    requires store.Valid()
    modifies store
    ensures store.Valid()
    ensures store.log == old(store.log) + [SetQueryParametersAction(gridName, queryParameters)]
    ensures store.state == Reduce(old(store.state), SetQueryParametersAction(gridName, queryParameters))
  {
    ActionTypeLabels();
    var _ := store.Dispatch(SetQueryParametersAction(gridName, queryParameters));
  }

  /** What `fetchData` dispatches once the retrieval has settled: the result
      with the captured parameters if it resolved (there is no `catch`, so
      nothing if it rejected), then, in the `finally`, the loading reset. */
  function Settle(gridName: string, captured: Option<QueryParameters>, outcome: Outcome): seq<Action>
  {
    (if outcome.Resolved? then [SetQueryResultAction(gridName, outcome.result, captured)] else [])
    + [SetIsLoadingAction(gridName, false)]
  }

  /** Everything the store receives from the start of `fetchData` to its
      end: the loading flag, what others dispatch while the retrieval is
      awaited, then the settling dispatches. */
  function FetchLog(gridName: string, captured: Option<QueryParameters>, outcome: Outcome,
                    interleaved: seq<Action>): seq<Action>
  {
    [SetIsLoadingAction(gridName, true)] + interleaved + Settle(gridName, captured, outcome)
  }

  /** How the thunk's promise settles: a rejected retrieval propagates. */
  function CompletionOf(outcome: Outcome): Completion
  {
    match outcome
    case Resolved(_) => Normal
    case Rejected(e) => Threw(e)
  }

  /** `fetchData(gridName, retrieve)` run against `store`, with `interleaved`
      standing for the actions other code dispatches while the retrieval is
      awaited. Returns the parameters the retrieval was called with. */
  method FetchData(store: Store, gridName: string, retrieve: Option<QueryParameters> -> Outcome,
                   interleaved: seq<Action>)
    returns (captured: Option<QueryParameters>, completion: Completion)
    requires store.Valid()
    requires forall i :: 0 <= i < |interleaved| ==> Accepted(interleaved[i])
    modifies store
    ensures store.Valid()
    ensures captured == Reduce(old(store.state), SetIsLoadingAction(gridName, true)).grids[gridName].queryParameters
    ensures captured == EntryOf(old(store.state), gridName).queryParameters
    ensures store.log == old(store.log) + FetchLog(gridName, captured, retrieve(captured), interleaved)
    ensures store.state == ReduceAll(old(store.state), FetchLog(gridName, captured, retrieve(captured), interleaved))
    ensures completion == CompletionOf(retrieve(captured))
  {
    ghost var start := store.state;
    ActionTypeLabels();
    var _ := store.Dispatch(SetIsLoadingAction(gridName, true));
    SetIsLoadingWritesOnlyFlag(start, SetIsLoadingAction(gridName, true));
    // The entry exists now, so this read cannot throw inside the `try`.
    captured := store.state.grids[gridName].queryParameters;
    var outcome := retrieve(captured);
    store.Interleave(interleaved);
    ghost var settled := store.state;
    if outcome.Resolved? {
      var _ := store.Dispatch(SetQueryResultAction(gridName, outcome.result, captured));
      completion := Normal;
    } else {
      completion := Threw(outcome.error);
    }
    var _ := store.Dispatch(SetIsLoadingAction(gridName, false));
    SettleFolds(settled, gridName, captured, outcome);
    FetchLogFolds(start, gridName, captured, outcome, interleaved);
  }

  /** The fold of the settling dispatches, one step at a time. */
  lemma SettleFolds(state: GridStateCollection, gridName: string, captured: Option<QueryParameters>,
                    outcome: Outcome)
    ensures ReduceAll(state, Settle(gridName, captured, outcome))
            == Reduce(if outcome.Resolved? then Reduce(state, SetQueryResultAction(gridName, outcome.result, captured))
                      else state,
                      SetIsLoadingAction(gridName, false))
  {
    var settle := Settle(gridName, captured, outcome);
    if outcome.Resolved? {
      var reset := SetIsLoadingAction(gridName, false);
      var next := Reduce(state, SetQueryResultAction(gridName, outcome.result, captured));
      assert settle[1..] == [reset];
      assert ReduceAll(state, settle) == ReduceAll(next, [reset]);
      assert ReduceAll(next, [reset]) == ReduceAll(Reduce(next, reset), []);
    } else {
      assert settle == [SetIsLoadingAction(gridName, false)];
    }
  }

  /** The fold of the fetch log, split at its three parts. */
  lemma FetchLogFolds(state: GridStateCollection, gridName: string, captured: Option<QueryParameters>,
                      outcome: Outcome, interleaved: seq<Action>)
    ensures ReduceAll(state, FetchLog(gridName, captured, outcome, interleaved))
            == ReduceAll(ReduceAll(Reduce(state, SetIsLoadingAction(gridName, true)), interleaved),
                         Settle(gridName, captured, outcome))
  {
    var first := [SetIsLoadingAction(gridName, true)];
    assert FetchLog(gridName, captured, outcome, interleaved)
           == first + interleaved + Settle(gridName, captured, outcome);
    ReduceAllAppend(state, first + interleaved, Settle(gridName, captured, outcome));
    ReduceAllAppend(state, first, interleaved);
    assert ReduceAll(state, first) == Reduce(state, SetIsLoadingAction(gridName, true));
  }

  /** The thunk's own dispatches (nothing interleaved): every one names
      `gridName`; the first sets the loading flag and the last clears it;
      a result is dispatched exactly when the retrieval resolved, and it
      carries the resolved value and the captured parameters. */
  lemma OwnDispatches(gridName: string, captured: Option<QueryParameters>, outcome: Outcome)
    ensures var own := FetchLog(gridName, captured, outcome, []);
            && |own| == (if outcome.Resolved? then 3 else 2)
            && (forall i :: 0 <= i < |own| ==> own[i].payload.gridName == gridName)
            && own[0] == SetIsLoadingAction(gridName, true)
            && own[|own| - 1] == SetIsLoadingAction(gridName, false)
            && ((exists i :: 0 <= i < |own| && WritesResult(own[i], gridName)) <==> outcome.Resolved?)
            && (forall i :: 0 <= i < |own| && WritesResult(own[i], gridName) ==>
                  own[i] == SetQueryResultAction(gridName, outcome.result, captured))
  {
    ActionTypeLabels();
    var own := FetchLog(gridName, captured, outcome, []);
    if outcome.Resolved? {
      assert own == [SetIsLoadingAction(gridName, true),
                     SetQueryResultAction(gridName, outcome.result, captured),
                     SetIsLoadingAction(gridName, false)];
      assert WritesResult(own[1], gridName);
    } else {
      assert own == [SetIsLoadingAction(gridName, true), SetIsLoadingAction(gridName, false)];
    }
  }

  /** On every exit path, whatever was interleaved, the grid is left with
      its loading flag false. */
  lemma FetchLeavesGridNotLoading(state: GridStateCollection, gridName: string,
                                  captured: Option<QueryParameters>, outcome: Outcome,
                                  interleaved: seq<Action>)
    ensures EntryOf(ReduceAll(state, FetchLog(gridName, captured, outcome, interleaved)), gridName).isLoading
            == Some(false)
  {
    FetchLogFolds(state, gridName, captured, outcome, interleaved);
    var mid := ReduceAll(Reduce(state, SetIsLoadingAction(gridName, true)), interleaved);
    var settle := Settle(gridName, captured, outcome);
    var reset := SetIsLoadingAction(gridName, false);
    ReduceAllAppend(mid, settle[..|settle| - 1], [reset]);
    assert settle == settle[..|settle| - 1] + [reset];
    assert ReduceAll(ReduceAll(mid, settle[..|settle| - 1]), [reset])
           == Reduce(ReduceAll(mid, settle[..|settle| - 1]), reset);
    SetIsLoadingWritesOnlyFlag(ReduceAll(mid, settle[..|settle| - 1]), reset);
  }

  /** On success the grid holds the resolved result together with the
      parameters captured before the await, even if others changed the
      grid's parameters while the retrieval was pending. */
  lemma FetchRecordsCapturedParameters(state: GridStateCollection, gridName: string,
                                       captured: Option<QueryParameters>, result: Option<QueryResult>,
                                       interleaved: seq<Action>)
    ensures var after := ReduceAll(state, FetchLog(gridName, captured, Resolved(result), interleaved));
            && EntryOf(after, gridName).queryResult == result
            && EntryOf(after, gridName).queryResultParameters == captured
  {
    ActionTypeLabels();
    var log := FetchLog(gridName, captured, Resolved(result), interleaved);
    var i := |log| - 2;
    assert log[i] == SetQueryResultAction(gridName, result, captured);
    assert !WritesResult(log[i + 1], gridName);
    LastResultWins(state, log, gridName, i);
  }

  /** On failure no result is dispatched: the grid keeps the result and
      result parameters it had (when nothing interleaved wrote one), and its
      loading flag is reset. */
  lemma FetchFailureKeepsResult(state: GridStateCollection, gridName: string,
                                captured: Option<QueryParameters>, error: string,
                                interleaved: seq<Action>)
    requires forall i :: 0 <= i < |interleaved| ==> !WritesResult(interleaved[i], gridName)
    ensures var after := ReduceAll(state, FetchLog(gridName, captured, Rejected(error), interleaved));
            && EntryOf(after, gridName).queryResult == EntryOf(state, gridName).queryResult
            && EntryOf(after, gridName).queryResultParameters == EntryOf(state, gridName).queryResultParameters
            && EntryOf(after, gridName).isLoading == Some(false)
  {
    ActionTypeLabels();
    var log := FetchLog(gridName, captured, Rejected(error), interleaved);
    assert log == [SetIsLoadingAction(gridName, true)] + interleaved + [SetIsLoadingAction(gridName, false)];
    forall i | 0 <= i < |log| ensures !WritesResult(log[i], gridName) {
      if 0 < i < |log| - 1 {
        assert log[i] == interleaved[i - 1];
      }
    }
    ReduceAllKeepsResult(state, log, gridName);
    FetchLeavesGridNotLoading(state, gridName, captured, Rejected(error), interleaved);
  }

  /** A fetch for one grid leaves the entry of every other grid, that
      nothing interleaved names, exactly as it was. */
  lemma FetchKeepsOtherGrids(state: GridStateCollection, gridName: string,
                             captured: Option<QueryParameters>, outcome: Outcome,
                             interleaved: seq<Action>, other: string)
    requires other != gridName
    requires forall i :: 0 <= i < |interleaved| ==> !Touches(interleaved[i], other)
    ensures var after := ReduceAll(state, FetchLog(gridName, captured, outcome, interleaved));
            && (other in after.grids <==> other in state.grids)
            && EntryOf(after, other) == EntryOf(state, other)
  {
    var log := FetchLog(gridName, captured, outcome, interleaved);
    forall i | 0 <= i < |log| ensures !Touches(log[i], other) {
      if 0 < i <= |interleaved| {
        assert log[i] == interleaved[i - 1];
      } else {
        assert log[i].payload.gridName == gridName;
      }
    }
    ReduceAllKeepsUntouchedEntry(state, log, other);
  }

  /** A fetch with nothing interleaved leaves the grid's entry as it was
      except that the loading flag is false and, when the retrieval
      resolved, the result and its parameters are the resolved value and
      the captured parameters. */
  lemma FetchSettledEntry(state: GridStateCollection, gridName: string,
                          captured: Option<QueryParameters>, outcome: Outcome)
    ensures var after := ReduceAll(state, FetchLog(gridName, captured, outcome, []));
            var entry := EntryOf(state, gridName);
            && gridName in after.grids
            && EntryOf(after, gridName)
               == match outcome
                  case Resolved(result) =>
                    entry.(queryResult := result, queryResultParameters := captured, isLoading := Some(false))
                  case Rejected(_) => entry.(isLoading := Some(false))
  {
    var loading := Reduce(state, SetIsLoadingAction(gridName, true));
    SetIsLoadingWritesOnlyFlag(state, SetIsLoadingAction(gridName, true));
    FetchLogFolds(state, gridName, captured, outcome, []);
    SettleFolds(loading, gridName, captured, outcome);
    var reset := SetIsLoadingAction(gridName, false);
    if outcome.Resolved? {
      var written := Reduce(loading, SetQueryResultAction(gridName, outcome.result, captured));
      SetQueryResultWritesResultAndParameters(loading, SetQueryResultAction(gridName, outcome.result, captured));
      SetIsLoadingWritesOnlyFlag(written, reset);
    } else {
      SetIsLoadingWritesOnlyFlag(loading, reset);
    }
  }
}
