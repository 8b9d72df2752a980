/** The host store the grid dispatches to: it holds the collection of grid
    entries, applies the reducer to every action it accepts and records
    those actions in dispatch order. */
module ReduxStore {
  import opened Models
  import opened GridActions
  import opened Reducer

  /** The error Redux's `dispatch` throws for an action whose `type` is
      `undefined`, before the reducer sees it. */
  const UndefinedTypeError := "Actions may not have an undefined \"type\" property. Have you misspelled a constant?"

  /** Whether the store lets `action` through to the reducer. */
  predicate Accepted(action: Action)
  {
    action.kind.Some?
  }

  class Store {
    /** What `getState().grid` returns. */
    var state: GridStateCollection
    /** Every action the store has accepted so far, oldest first. */
    var log: seq<Action>
    /** The state the store was created with. */
    ghost const initial: GridStateCollection

    /** The state is always the reducer folded over the log, and the log
        holds only actions with a defined type. */
    ghost predicate Valid()
      reads this
    {
      && state == ReduceAll(initial, log)
      && forall i :: 0 <= i < |log| ==> Accepted(log[i])
    }

    constructor (initial: GridStateCollection)
      ensures Valid()
      ensures this.initial == initial && state == initial && log == []
    {
      this.initial := initial;
      state := initial;
      log := [];
    }

    /** `dispatch(action)`: an action with an undefined type is refused with
        an error and leaves the store as it was; any other is one reducer
        step, recorded in the log. */
    method Dispatch(action: Action) returns (completion: Completion)
      requires Valid()
      modifies this
      ensures Valid()
      ensures !Accepted(action) ==> completion == Threw(UndefinedTypeError) && state == old(state) && log == old(log)
      ensures Accepted(action) ==>
                completion == Normal && state == Reduce(old(state), action) && log == old(log) + [action]
    {
      if action.kind.None? {
        return Threw(UndefinedTypeError);
      }
      ReduceAllAppend(initial, log, [action]);
      state := Reduce(state, action);
      log := log + [action];
      completion := Normal;
    }

    /** Actions other parties dispatch, and the store accepts, while a fetch
        is awaiting its retrieval, applied in the order the event loop runs
        them. One the store refuses leaves no trace and is not listed. */
    method Interleave(actions: seq<Action>)
      requires Valid()
      requires forall i :: 0 <= i < |actions| ==> Accepted(actions[i])
      modifies this
      ensures Valid()
      ensures state == ReduceAll(old(state), actions)
      ensures log == old(log) + actions
    {
      ReduceAllAppend(initial, log, actions);
      state := ReduceAll(state, actions);
      log := log + actions;
    }
  }
}
