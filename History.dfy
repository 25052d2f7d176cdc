/** The undo/redo container behind `useHistoryState`: the list of values
    seen so far and a cursor on the current one. */
module HistoryState {

  class History<T(==)> {
    var history: seq<T>
    var currentIndex: nat

    /** The cursor always points into the list. */
    predicate Valid()
      reads this
    {
      currentIndex < |history|
    }

    /** The state the hook starts from: the initial value alone. */
    constructor(initialState: T)
      ensures Valid()
      ensures history == [initialState] && currentIndex == 0
      ensures CurrentState() == initialState
    {
      history := [initialState];
      currentIndex := 0;
    }

    /** The value under the cursor. */
    function CurrentState(): (v: T)
      reads this
      requires Valid()
      ensures v in history
    {
      history[currentIndex]
    }

    function CanUndo(): (b: bool)
      reads this
      ensures b <==> currentIndex > 0
    {
      currentIndex > 0
    }

    function CanRedo(): (b: bool)
      reads this
      ensures b <==> currentIndex < |history| - 1
    {
      currentIndex < |history| - 1
    }

    /** `updateState`: a value equal to the current one is ignored; any
        other value replaces the redo branch and becomes current. */
    method UpdateState(newState: T)
      requires Valid()
      modifies this
      ensures Valid()
      ensures newState == old(CurrentState()) ==>
        history == old(history) && currentIndex == old(currentIndex)
      ensures newState != old(CurrentState()) ==>
        history == old(history)[..old(currentIndex) + 1] + [newState]
        && currentIndex == |history| - 1
        && !CanRedo()
      ensures CurrentState() == newState
    {
      if newState == history[currentIndex] {
        return;
      }
      var newHistory := history[..currentIndex + 1];
      newHistory := newHistory + [newState];
      history := newHistory;
      currentIndex := |newHistory| - 1;
    }

    /** `undo`: step back unless already at the first value. */
    method Undo()
      requires Valid()
      modifies this
      ensures Valid()
      ensures history == old(history)
      ensures old(CanUndo()) ==> currentIndex == old(currentIndex) - 1
      ensures !old(CanUndo()) ==> currentIndex == old(currentIndex)
    {
      if currentIndex > 0 {
        currentIndex := currentIndex - 1;
      }
    }

    /** `redo`: step forward unless already at the last value. */
    method Redo()
      requires Valid()
      modifies this
      ensures Valid()
      ensures history == old(history)
      ensures old(CanRedo()) ==> currentIndex == old(currentIndex) + 1
      ensures !old(CanRedo()) ==> currentIndex == old(currentIndex)
    {
      if currentIndex < |history| - 1 {
        currentIndex := currentIndex + 1;
      }
    }
  }

  /** Undoing and then redoing returns to where one started. */
  method UndoThenRedo<T(==)>(h: History<T>)
    requires h.Valid() && h.CanUndo()
    modifies h
    ensures h.Valid()
    ensures h.history == old(h.history) && h.currentIndex == old(h.currentIndex)
  {
    h.Undo();
    h.Redo();
  }

  /** Pushing a new value and undoing it brings back the value that was
      current before, with the pushed value left to redo. */
  method UpdateThenUndo<T(==)>(h: History<T>, v: T)
    requires h.Valid() && v != h.CurrentState()
    modifies h
    ensures h.Valid()
    ensures h.CurrentState() == old(h.CurrentState())
    ensures h.CanRedo() && h.history[h.currentIndex + 1] == v
  {
    h.UpdateState(v);
    h.Undo();
  }

  /** A fresh history can be neither undone nor redone. */
  method FreshHistory<T(==)>(initialState: T) returns (h: History<T>)
    ensures h.Valid() && h.CurrentState() == initialState
    ensures !h.CanUndo() && !h.CanRedo()
  {
    h := new History(initialState);
  }
}
