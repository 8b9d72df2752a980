/** `reloadGrid`, the one action creator the package exports besides the
    grid component. */
module Reload {
  import opened Models
  import opened GridActions
  import opened Reducer
  import opened ReduxStore

  /** `reloadGrid(gridName)`: only builds an action object. Its type is
      `gridActionTypes.GRID_SET_IS_RELOAD_REQUESTED`, a key the table does
      not have, so the type is `undefined`. */
  function ReloadGrid(gridName: string): (action: Action)
    ensures action.payload == NamePayload(gridName).(isReloadRequested := Some(true))
    ensures action.kind == None
  {
    Action(ActionType(SetIsReloadRequestedKey), NamePayload(gridName).(isReloadRequested := Some(true)))
  }

  /** The action's undefined type equals the reducer's undefined case label,
      so the reducer handles it: it sets the named grid's reload flag and
      changes nothing else, in that entry or in any other. */
  lemma ReloadSetsOnlyReloadFlag(state: GridStateCollection, gridName: string)
    ensures ReloadGrid(gridName).kind == ActionType(SetIsReloadRequestedKey)
    ensures Reduce(state, ReloadGrid(gridName))
            == Put(state, gridName, EntryOf(state, gridName).(isReloadRequested := Some(true)))
  {
    ActionTypeLabels();
  }

  /** A Redux store refuses the action before its reducer runs, since the
      type is `undefined`: `dispatch(reloadGrid(g))` throws and stores
      nothing (see `Store.Dispatch`). */
  lemma ReloadGridIsRefusedByStore(gridName: string)
    ensures !Accepted(ReloadGrid(gridName))
  {
  }

  /** Reducing `reloadGrid(g)` twice gives the state reducing it once does. */
  lemma ReloadIdempotent(state: GridStateCollection, gridName: string)
    ensures Reduce(Reduce(state, ReloadGrid(gridName)), ReloadGrid(gridName))
            == Reduce(state, ReloadGrid(gridName))
  {
    ReloadSetsOnlyReloadFlag(state, gridName);
    ReloadSetsOnlyReloadFlag(Reduce(state, ReloadGrid(gridName)), gridName);
  }
}
