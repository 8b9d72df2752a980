/** The grid reducer: a pure, total transition function on the collection
    of grid entries, and the fold of it over a sequence of actions that a
    store performs. */
module Reducer {
  import opened Models
  import opened GridActions

  /** The state the reducer starts from when the store passes none. */
  const InitialState := GridStateCollection(map[])

  /** The collection with `gridName`'s entry replaced and every other entry
      shared. */
  function Put(state: GridStateCollection, gridName: string, entry: GridState): GridStateCollection
  {
    GridStateCollection(state.grids[gridName := entry])
  }

  /** The action types the switch has a case for. The reload label is the
      missing table key, i.e. `undefined`, so an action whose type is
      `undefined` is handled too. */
  predicate Handled(kind: Option<string>)
  {
    || kind == ActionType(SetQueryParametersKey)
    || kind == ActionType(SetQueryResultKey)
    || kind == ActionType(SetIsLoadingKey)
    || kind == ActionType(SetIsReloadRequestedKey)
  }

  /** Whether `action` may change the entry of `gridName`. */
  predicate Touches(action: Action, gridName: string)
  {
    Handled(action.kind) && action.payload.gridName == gridName
  }

  /** One reducer step. A handled action rewrites one or two fields of the
      entry named in its payload, creating that entry if it is absent; every
      other entry is carried over. Any other action returns the state. */
  function Reduce(state: GridStateCollection, action: Action): (r: GridStateCollection)
    ensures !Handled(action.kind) ==> r == state
    ensures Handled(action.kind) ==> r.grids.Keys == state.grids.Keys + {action.payload.gridName}
    ensures forall h :: h in state.grids && h != action.payload.gridName ==>
              h in r.grids && r.grids[h] == state.grids[h]
  {
    var gridName := action.payload.gridName;
    var entry := EntryOf(state, gridName);
    if action.kind == ActionType(SetQueryParametersKey) then
      Put(state, gridName, entry.(queryParameters := action.payload.queryParameters))
    else if action.kind == ActionType(SetQueryResultKey) then
      Put(state, gridName, entry.(queryResult := action.payload.queryResult,
                                  queryResultParameters := action.payload.queryResultParameters))
    else if action.kind == ActionType(SetIsLoadingKey) then
      Put(state, gridName, entry.(isLoading := action.payload.isLoading))
    else if action.kind == ActionType(SetIsReloadRequestedKey) then
      Put(state, gridName, entry.(isReloadRequested := action.payload.isReloadRequested))
    else
      state
  }

  /** The reducer as the store calls it: no state means the initial state. */
  function ReduceOrInit(state: Option<GridStateCollection>, action: Action): GridStateCollection
  {
    Reduce(state.GetOr(InitialState), action)
  }

  /** The state after the store has applied `actions` in order. */
  function ReduceAll(state: GridStateCollection, actions: seq<Action>): GridStateCollection
    decreases |actions|
  {
    if |actions| == 0 then state else ReduceAll(Reduce(state, actions[0]), actions[1..])
  }

  /** A store given no state starts from an empty collection, and an action
      it does not handle leaves it there. */
  lemma InitialStateIsEmpty(action: Action)
    requires !Handled(action.kind)
    ensures ReduceOrInit(None, action).grids == map[]
  {
  }

  /** SET_QUERY_PARAMETERS writes the payload's parameters into the named
      entry and keeps that entry's other fields. */
  lemma SetQueryParametersWritesOnlyParameters(state: GridStateCollection, action: Action)
    requires action.kind == ActionType(SetQueryParametersKey)
    ensures var gridName := action.payload.gridName;
            var was := EntryOf(state, gridName);
            var now := EntryOf(Reduce(state, action), gridName);
            && gridName in Reduce(state, action).grids
            && now.queryParameters == action.payload.queryParameters
            && now.queryResult == was.queryResult
            && now.queryResultParameters == was.queryResultParameters
            && now.isLoading == was.isLoading
            && now.isReloadRequested == was.isReloadRequested
  {
    ActionTypeLabels();
  }

  /** SET_QUERY_RESULT writes both the result, also a `null` one, and the
      parameters that produced it, and leaves the loading flag alone. */
  lemma SetQueryResultWritesResultAndParameters(state: GridStateCollection, action: Action)
    requires action.kind == ActionType(SetQueryResultKey)
    ensures var gridName := action.payload.gridName;
            var was := EntryOf(state, gridName);
            var now := EntryOf(Reduce(state, action), gridName);
            && gridName in Reduce(state, action).grids
            && now.queryResult == action.payload.queryResult
            && now.queryResultParameters == action.payload.queryResultParameters
            && now.queryParameters == was.queryParameters
            && now.isLoading == was.isLoading
            && now.isReloadRequested == was.isReloadRequested
  {
    ActionTypeLabels();
  }

  /** SET_IS_LOADING changes only the loading flag of the named entry. */
  lemma SetIsLoadingWritesOnlyFlag(state: GridStateCollection, action: Action)
    requires action.kind == ActionType(SetIsLoadingKey)
    ensures var gridName := action.payload.gridName;
            var was := EntryOf(state, gridName);
            var now := EntryOf(Reduce(state, action), gridName);
            && gridName in Reduce(state, action).grids
            && now.isLoading == action.payload.isLoading
            && now.queryParameters == was.queryParameters
            && now.queryResult == was.queryResult
            && now.queryResultParameters == was.queryResultParameters
            && now.isReloadRequested == was.isReloadRequested
  {
    ActionTypeLabels();
  }

  /** The reload case (label `undefined`) changes only the reload flag. */
  lemma SetIsReloadRequestedWritesOnlyFlag(state: GridStateCollection, action: Action)
    requires action.kind == ActionType(SetIsReloadRequestedKey)
    ensures var gridName := action.payload.gridName;
            var was := EntryOf(state, gridName);
            var now := EntryOf(Reduce(state, action), gridName);
            && gridName in Reduce(state, action).grids
            && now.isReloadRequested == action.payload.isReloadRequested
            && now.queryParameters == was.queryParameters
            && now.queryResult == was.queryResult
            && now.queryResultParameters == was.queryResultParameters
            && now.isLoading == was.isLoading
  {
    ActionTypeLabels();
  }

  /** GRID_FETCH_DATA is declared in the table but has no case: reducing it
      returns the state as it was. */
  lemma FetchDataTypeIsIgnored(state: GridStateCollection, payload: Payload)
    ensures Reduce(state, Action(ActionType(FetchDataKey), payload)) == state
  {
    ActionTypeLabels();
  }

  /** Entries are created lazily: for a name the collection lacks, a handled
      action adds exactly that key, and the new entry holds nothing but the
      field(s) the action writes. */
  lemma LazyEntryCreation(state: GridStateCollection, action: Action)
    requires Handled(action.kind)
    requires action.payload.gridName !in state.grids
    ensures var r := Reduce(state, action);
            var e := r.grids[action.payload.gridName];
            && r.grids.Keys == state.grids.Keys + {action.payload.gridName}
            && (e.queryParameters.Some? ==> action.kind == ActionType(SetQueryParametersKey))
            && (e.queryResult.Some? || e.queryResultParameters.Some? ==>
                  action.kind == ActionType(SetQueryResultKey))
            && (e.isLoading.Some? ==> action.kind == ActionType(SetIsLoadingKey))
            && (e.isReloadRequested.Some? ==> action.kind == ActionType(SetIsReloadRequestedKey))
  {
    ActionTypeLabels();
  }

  /** Applying the same action twice yields what applying it once does. */
  lemma ReduceIdempotent(state: GridStateCollection, action: Action)
    ensures Reduce(Reduce(state, action), action) == Reduce(state, action)
  {
    ActionTypeLabels();
  }

  /** Folding a concatenation is folding one part after the other. */
  lemma {:induction false} ReduceAllAppend(state: GridStateCollection, xs: seq<Action>, ys: seq<Action>)
    ensures ReduceAll(state, xs + ys) == ReduceAll(ReduceAll(state, xs), ys)
    decreases |xs|
  {
    if |xs| == 0 {
      assert xs + ys == ys;
    } else {
      assert (xs + ys)[1..] == xs[1..] + ys;
      ReduceAllAppend(Reduce(state, xs[0]), xs[1..], ys);
    }
  }

  /** Over any sequence of actions, the entry of a grid that no action
      names is exactly what it was, present or absent. */
  lemma {:induction false} ReduceAllKeepsUntouchedEntry(state: GridStateCollection, actions: seq<Action>,
                                                        gridName: string)
    requires forall i :: 0 <= i < |actions| ==> !Touches(actions[i], gridName)
    ensures gridName in ReduceAll(state, actions).grids <==> gridName in state.grids
    ensures EntryOf(ReduceAll(state, actions), gridName) == EntryOf(state, gridName)
    decreases |actions|
  {
    if |actions| > 0 {
      ReduceAllKeepsUntouchedEntry(Reduce(state, actions[0]), actions[1..], gridName);
    }
  }

  /** Whether `action` is a query-result write for `gridName`. */
  predicate WritesResult(action: Action, gridName: string)
  {
    action.kind == ActionType(SetQueryResultKey) && action.payload.gridName == gridName
  }

  /** Actions that are not result writes for a grid keep its result and
      result parameters. */
  lemma {:induction false} ReduceAllKeepsResult(state: GridStateCollection, actions: seq<Action>,
                                                gridName: string)
    requires forall i :: 0 <= i < |actions| ==> !WritesResult(actions[i], gridName)
    ensures EntryOf(ReduceAll(state, actions), gridName).queryResult == EntryOf(state, gridName).queryResult
    ensures EntryOf(ReduceAll(state, actions), gridName).queryResultParameters
            == EntryOf(state, gridName).queryResultParameters
    decreases |actions|
  {
    if |actions| > 0 {
      var a := actions[0];
      ActionTypeLabels();
      if a.kind == ActionType(SetQueryParametersKey) {
        SetQueryParametersWritesOnlyParameters(state, a);
      } else if a.kind == ActionType(SetIsLoadingKey) {
        SetIsLoadingWritesOnlyFlag(state, a);
      } else if a.kind == ActionType(SetIsReloadRequestedKey) {
        SetIsReloadRequestedWritesOnlyFlag(state, a);
      }
      ReduceAllKeepsResult(Reduce(state, a), actions[1..], gridName);
    }
  }

  /** Last writer wins: once several results for a grid have been reduced,
      the grid holds the result, and the parameters, of the last one in
      dispatch order. */
  lemma LastResultWins(state: GridStateCollection, actions: seq<Action>, gridName: string, i: nat)
    requires i < |actions| && WritesResult(actions[i], gridName)
    requires forall j :: i < j < |actions| ==> !WritesResult(actions[j], gridName)
    ensures EntryOf(ReduceAll(state, actions), gridName).queryResult == actions[i].payload.queryResult
    ensures EntryOf(ReduceAll(state, actions), gridName).queryResultParameters
            == actions[i].payload.queryResultParameters
  {
    var before, at, after := actions[..i], actions[i], actions[i + 1..];
    assert actions == before + [at] + after;
    ReduceAllAppend(state, before + [at], after);
    ReduceAllAppend(state, before, [at]);
    var mid := ReduceAll(state, before);
    assert ReduceAll(mid, [at]) == Reduce(mid, at);
    SetQueryResultWritesResultAndParameters(mid, at);
    ReduceAllKeepsResult(Reduce(mid, at), after, gridName);
  }
}
