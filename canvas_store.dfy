/** The scene store: the current canvas state and the undo ledger beside it.
    Every action goes through `UpdateState`, which records the new state in
    the ledger unless the action is a preview. */
module CanvasStore {
  import opened Util
  import opened Canvas
  import opened HistoryLedger
  import opened StoreActions

  class Store {
    var state: CanvasState
    const history: History<CanvasState>

    /** The state shows the ledger's present: true after every recorded
        action, undo and redo, and false while a preview is on screen. */
    predicate Synced()
      reads this, history
    {
      state == history.state.present
    }

    /** `now` is the time the module is loaded at. */
    constructor (now: int)
      ensures state == InitialState(now) && history.state == Ledger([], InitialState(now), [])
      ensures fresh(history) && Synced()
    {
      state := InitialState(now);
      history := new History(InitialState(now));
    }

    method SetState(next: CanvasState, pushHistory: bool)
      modifies this, history
      ensures state == next
      ensures history.state == if pushHistory then old(history.state).Pushed(next) else old(history.state)
      ensures pushHistory ==> Synced()
    {
      if pushHistory {
        history.Push(next);
      }
      state := next;
    }

    method UpdateState(updater: CanvasState -> CanvasState, pushHistory: bool)
      modifies this, history
      ensures state == updater(old(state))
      ensures history.state == if pushHistory then old(history.state).Pushed(state) else old(history.state)
      ensures pushHistory ==> Synced()
    {
      SetState(updater(state), pushHistory);
    }

    method AddNodes(reqs: seq<NodeRequest>, freshIds: seq<string>, now: int)
      requires |freshIds| == |reqs|
      modifies this, history
      ensures state == StoreActions.AddNodes(old(state), reqs, freshIds, now)
      ensures history.state == old(history.state).Pushed(state) && Synced()
    {
      UpdateState(s => StoreActions.AddNodes(s, reqs, freshIds, now), true);
    }

    method AddNode(req: NodeRequest, freshId: string, now: int)
      modifies this, history
      ensures state == StoreActions.AddNode(old(state), req, freshId, now)
      ensures history.state == old(history.state).Pushed(state) && Synced()
    {
      UpdateState(s => StoreActions.AddNode(s, req, freshId, now), true);
    }

    method AddGeometry(kind: GeometryKind, freshId: string, now: int)
      modifies this, history
      ensures state == StoreActions.AddGeometry(old(state), kind, freshId, now)
      ensures history.state == old(history.state).Pushed(state) && Synced()
    {
      UpdateState(s => StoreActions.AddGeometry(s, kind, freshId, now), true);
    }

    method AddText(freshId: string, now: int)
      modifies this, history
      ensures state == StoreActions.AddText(old(state), freshId, now)
      ensures history.state == old(history.state).Pushed(state) && Synced()
    {
      UpdateState(s => StoreActions.AddText(s, freshId, now), true);
    }

    method UpdateNode(id: string, patch: NodePatch, now: int)
      modifies this, history
      ensures state == StoreActions.UpdateNode(old(state), id, patch, now)
      ensures history.state == old(history.state).Pushed(state) && Synced()
    {
      UpdateState(s => StoreActions.UpdateNode(s, id, patch, now), true);
    }

    method UpdateNodePreview(id: string, patch: NodePatch, now: int)
      modifies this, history
      ensures state == StoreActions.UpdateNode(old(state), id, patch, now)
      ensures history.state == old(history.state)
    {
      UpdateState(s => StoreActions.UpdateNode(s, id, patch, now), false);
    }

    method UpdateNodesPosition(updates: seq<PositionUpdate>, now: int)
      modifies this, history
      ensures state == StoreActions.UpdateNodesPosition(old(state), updates, now)
      ensures history.state == old(history.state).Pushed(state) && Synced()
    {
      UpdateState(s => StoreActions.UpdateNodesPosition(s, updates, now), true);
    }

    method UpdateNodesPositionPreview(updates: seq<PositionUpdate>, now: int)
      modifies this, history
      ensures state == StoreActions.UpdateNodesPosition(old(state), updates, now)
      ensures history.state == old(history.state)
    {
      UpdateState(s => StoreActions.UpdateNodesPosition(s, updates, now), false);
    }

    method UpdateNodesTransformCommit(updates: seq<TransformUpdate>, now: int)
      modifies this, history
      ensures state == StoreActions.UpdateNodesTransform(old(state), updates, now)
      ensures history.state == old(history.state).Pushed(state) && Synced()
    {
      UpdateState(s => StoreActions.UpdateNodesTransform(s, updates, now), true);
    }

    method UpdateNodesTransformPreview(updates: seq<TransformUpdate>, now: int)
      modifies this, history
      ensures state == StoreActions.UpdateNodesTransform(old(state), updates, now)
      ensures history.state == old(history.state)
    {
      UpdateState(s => StoreActions.UpdateNodesTransform(s, updates, now), false);
    }

    method RemoveNode(id: string, now: int)
      modifies this, history
      ensures state == StoreActions.RemoveNode(old(state), id, now)
      ensures history.state == old(history.state).Pushed(state) && Synced()
    {
      UpdateState(s => StoreActions.RemoveNode(s, id, now), true);
    }

    method AddEdge(source: string, target: string, freshId: string, now: int)
      modifies this, history
      ensures state == StoreActions.AddEdge(old(state), source, target, freshId, now)
      ensures history.state == old(history.state).Pushed(state) && Synced()
    {
      UpdateState(s => StoreActions.AddEdge(s, source, target, freshId, now), true);
    }

    method RemoveEdge(id: string, now: int)
      modifies this, history
      ensures state == StoreActions.RemoveEdge(old(state), id, now)
      ensures history.state == old(history.state).Pushed(state) && Synced()
    {
      UpdateState(s => StoreActions.RemoveEdge(s, id, now), true);
    }

    method AddGroup(name: string, nodeIds: seq<string>, freshId: string, now: int)
      modifies this, history
      ensures state == StoreActions.AddGroup(old(state), name, nodeIds, freshId, now)
      ensures history.state == old(history.state).Pushed(state) && Synced()
    {
      UpdateState(s => StoreActions.AddGroup(s, name, nodeIds, freshId, now), true);
    }

    method SetSelection(selection: Selection, now: int)
      modifies this, history
      ensures state == StoreActions.SetSelection(old(state), selection, now)
      ensures history.state == old(history.state).Pushed(state) && Synced()
    {
      UpdateState(s => StoreActions.SetSelection(s, selection, now), true);
    }

    method ClearSelection(now: int)
      modifies this, history
      ensures state == StoreActions.ClearSelection(old(state), now)
      ensures history.state == old(history.state).Pushed(state) && Synced()
    {
      UpdateState(s => StoreActions.ClearSelection(s, now), true);
    }

    method ToggleSelection(nodeId: string, now: int)
      modifies this, history
      ensures state == StoreActions.ToggleSelection(old(state), nodeId, now)
      ensures history.state == old(history.state).Pushed(state) && Synced()
    {
      UpdateState(s => StoreActions.ToggleSelection(s, nodeId, now), true);
    }

    method SetSelectionBox(box: Option<Rect>, now: int)
      modifies this, history
      ensures state == StoreActions.SetSelectionBox(old(state), box, now)
      ensures history.state == old(history.state).Pushed(state) && Synced()
    {
      UpdateState(s => StoreActions.SetSelectionBox(s, box, now), true);
    }

    method ClearSelectionBox(now: int)
      modifies this, history
      ensures state == StoreActions.ClearSelectionBox(old(state), now)
      ensures history.state == old(history.state).Pushed(state) && Synced()
    {
      UpdateState(s => StoreActions.ClearSelectionBox(s, now), true);
    }

    method SetViewport(viewport: Viewport, now: int)
      modifies this, history
      ensures state == StoreActions.SetViewport(old(state), viewport, now)
      ensures history.state == old(history.state).Pushed(state) && Synced()
    {
      UpdateState(s => StoreActions.SetViewport(s, viewport, now), true);
    }

    /** Back to the initial scene, recorded like any other action. */
    method Reset(now: int)
      modifies this, history
      ensures state == InitialState(now)
      ensures history.state == old(history.state).Pushed(state) && Synced()
    {
      SetState(InitialState(now), true);
    }

    /** Shows the ledger's previous snapshot without recording anything. */
    method Undo()
      modifies this, history
      ensures history.state == old(history.state).Undone() && Synced()
    {
      var previous := history.Undo();
      state := previous;
    }

    method Redo()
      modifies this, history
      ensures history.state == old(history.state).Redone() && Synced()
    {
      var next := history.Redo();
      state := next;
    }
  }
}
