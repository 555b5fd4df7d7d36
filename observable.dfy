/**
 * Stand-ins for the two libraries the scope tree is built on: the observable
 * state container (a `ScopeState`, which is an `unstated` `Container` whose
 * constructor stores the state it is given) and the payload-free change
 * emitter of `safe-single-emitter`.  Only what the scope tree relies on is
 * modelled: the current value, the set of subscribed callbacks, and how many
 * times an emitter has fired.
 */
module Observable {

  /** A state record.  The model never looks inside it: merging a partial
      change into it is done by a function the caller supplies. */
  type State = map<string, int>

  /** A payload-free emitter; `emitted` counts the emissions so far. */
  class Emitter {
    var emitted: nat

    constructor ()
      ensures emitted == 0
    {
      emitted := 0;
    }

    /** Fire once. */
    method Emit()
      modifies this
      ensures emitted == old(emitted) + 1
    {
      emitted := emitted + 1;
    }
  }

  /**
   * An observable state cell.  A subscribed callback is identified by the
   * object that owns it: the only subscriber in the scope tree is a node's
   * bridge callback, so the node itself stands for it.
   */
  class Cell {
    var state: State
    var subscribers: set<object>

    /** A cell holds exactly the state it is created with and has no subscribers. */
    constructor (initial: State)
      ensures state == initial && subscribers == {}
    {
      state := initial;
      subscribers := {};
    }

    method Subscribe(callback: object)
      modifies this`subscribers
      ensures subscribers == old(subscribers) + {callback}
    {
      subscribers := subscribers + {callback};
    }

    method Unsubscribe(callback: object)
      modifies this`subscribers
      ensures subscribers == old(subscribers) - {callback}
    {
      subscribers := subscribers - {callback};
    }

    /** Replace the current value by the merge of `change` into it.  The merge
        belongs to the container library and is passed in as `merge`. */
    method Update(change: State, merge: (State, State) -> State)
      modifies this`state
      ensures state == merge(old(state), change)
    {
      state := merge(state, change);
    }
  }
}
