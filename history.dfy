/** The undo ledger: snapshots before the present (`past`, oldest first), the
    present one, and snapshots undone (`future`, nearest first). */
module HistoryLedger {

  datatype Ledger<T> = Ledger(past: seq<T>, present: T, future: seq<T>)
  {
    /** Every snapshot the ledger holds, oldest first. */
    function Timeline(): (r: seq<T>)
      ensures |r| == |past| + 1 + |future| && r[|past|] == present
    {
      past + [present] + future
    }

    /** A new present; the old one becomes the newest past entry and the
        undone snapshots are dropped. */
    function Pushed(next: T): (r: Ledger<T>)
      ensures r.present == next && r.future == []
      ensures r.Timeline() == past + [present, next]
    {
      Ledger(past + [present], next, [])
    }

    /** One step back: no change when there is nothing to undo. */
    function Undone(): (r: Ledger<T>)
      ensures |past| == 0 ==> r == this
      ensures |past| > 0 ==> r.present == past[|past| - 1] && |r.past| == |past| - 1
      ensures r.Timeline() == Timeline()
    {
      if |past| == 0 then this
      else
        var r := Ledger(past[..|past| - 1], past[|past| - 1], [present] + future);
        assert r.Timeline() == Timeline() by {
          assert past == past[..|past| - 1] + [past[|past| - 1]];
        }
        r
    }

    /** One step forward: no change when there is nothing to redo. */
    function Redone(): (r: Ledger<T>)
      ensures |future| == 0 ==> r == this
      ensures |future| > 0 ==> r.present == future[0] && |r.past| == |past| + 1
      ensures r.Timeline() == Timeline()
    {
      if |future| == 0 then this
      else
        var r := Ledger(past + [present], future[0], future[1..]);
        assert r.Timeline() == Timeline() by {
          assert future == [future[0]] + future[1..];
        }
        r
    }
  }

  /** Undo and redo only move the cursor along one timeline: the timeline
      never changes, and the present is the entry at the cursor. */
  lemma {:induction false} TimelineFixed<T>(h: Ledger<T>)
    ensures h.Undone().Timeline() == h.Timeline() && h.Redone().Timeline() == h.Timeline()
    ensures h.Undone().Timeline()[|h.Undone().past|] == h.Undone().present
  {
  }

  /** Redo undoes an undo that did something. */
  lemma {:induction false} UndoThenRedo<T>(h: Ledger<T>)
    requires |h.past| > 0
    ensures h.Undone().Redone() == h
  {
    var u := h.Undone();
    assert u.future[1..] == h.future;
    assert u.past + [u.present] == h.past;
  }

  /** Undo undoes a redo that did something. */
  lemma {:induction false} RedoThenUndo<T>(h: Ledger<T>)
    requires |h.future| > 0
    ensures h.Redone().Undone() == h
  {
    var r := h.Redone();
    assert r.past[..|r.past| - 1] == h.past;
    assert [r.present] + r.future == h.future;
  }

  /** Undo right after a push returns to the state before it, with the pushed
      snapshot ready to redo. */
  lemma {:induction false} PushThenUndo<T>(h: Ledger<T>, next: T)
    ensures h.Pushed(next).Undone() == Ledger(h.past, h.present, [next])
  {
    var p := h.Pushed(next);
    assert p.past[..|p.past| - 1] == h.past;
  }

  /** Redo right after a push does nothing. */
  lemma PushThenRedo<T>(h: Ledger<T>, next: T)
    ensures h.Pushed(next).Redone() == h.Pushed(next)
  {
  }

  /** A history object: the ledger is reassigned by every operation. */
  class History<T> {
    var state: Ledger<T>

    constructor (initial: T)
      ensures state == Ledger([], initial, [])
    {
      state := Ledger([], initial, []);
    }

    method Push(next: T)
      modifies this
      ensures state == old(state).Pushed(next)
    {
      state := Ledger(state.past + [state.present], next, []);
    }

    /** Steps back and returns the present, which is the old one when there
        is nothing to undo. */
    method Undo() returns (present: T)
      modifies this
      ensures state == old(state).Undone() && present == state.present
    {
      if |state.past| == 0 {
        return state.present;
      }
      var previous := state.past[|state.past| - 1];
      state := Ledger(state.past[..|state.past| - 1], previous, [state.present] + state.future);
      return state.present;
    }

    method Redo() returns (present: T)
      modifies this
      ensures state == old(state).Redone() && present == state.present
    {
      if |state.future| == 0 {
        return state.present;
      }
      var next := state.future[0];
      state := Ledger(state.past + [state.present], next, state.future[1..]);
      return state.present;
    }

    method GetState() returns (s: Ledger<T>)
      ensures s == state
    {
      return state;
    }
  }
}
