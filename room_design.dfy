/** The room-design store behind the editor: the live furniture list, a
    linear undo/redo history of list snapshots with a cursor into it, and the
    selected item. Every edit truncates the history after the cursor, appends
    one snapshot and moves the cursor onto it; undo and redo move the cursor
    and reload the live list from the history.

    The store's transitions are first given as functions on a `DesignState`
    value, where their properties are proved; the class `RoomDesignStore`
    then implements them on fields and is proved to follow them. */
module RoomDesign {
  import opened Wrappers
  import opened Room
  import Seqs

  /** One entry of the undo history. */
  datatype HistoryState = HistoryState(placedFurniture: seq<FurnitureItem>)

  /** The four state cells of the store. */
  datatype DesignState = DesignState(
    placedFurniture: seq<FurnitureItem>,
    selectedFurniture: Option<FurnitureItem>,
    history: seq<HistoryState>,
    historyIndex: int)

  /** The store's invariant: the cursor is in bounds and the live list is the
      snapshot under the cursor. */
  predicate Consistent(s: DesignState)
  {
    0 <= s.historyIndex < |s.history| &&
    s.placedFurniture == s.history[s.historyIndex].placedFurniture
  }

  /** `canUndo` */
  predicate HasPast(s: DesignState)
  {
    s.historyIndex > 0
  }

  /** `canRedo` */
  predicate HasFuture(s: DesignState)
  {
    s.historyIndex < |s.history| - 1
  }

  /** The state of a freshly mounted editor. */
  function InitialState(): (s: DesignState)
    ensures Consistent(s)
    ensures s.placedFurniture == [] && s.selectedFurniture == None
    ensures |s.history| == 1 && s.history[0] == HistoryState([])
    ensures !HasPast(s) && !HasFuture(s)
  {
    DesignState([], None, [HistoryState([])], 0)
  }

  /** `r` follows `s` by one recorded edit: the snapshots up to the old
      cursor are kept, everything after it is dropped, the new live list is
      appended as the only newer snapshot and the cursor points at it. */
  predicate Recorded(s: DesignState, r: DesignState)
    requires 0 <= s.historyIndex < |s.history|
  {
    |r.history| == s.historyIndex + 2 &&
    r.history[..s.historyIndex + 1] == s.history[..s.historyIndex + 1] &&
    r.historyIndex == s.historyIndex + 1 &&
    r.history[r.historyIndex] == HistoryState(r.placedFurniture)
  }

  /** `addToHistory(newFurniture)`: touches only the history and the cursor. */
  function AddToHistoryStep(s: DesignState, newFurniture: seq<FurnitureItem>): (r: DesignState)
    requires 0 <= s.historyIndex < |s.history|
    ensures r.placedFurniture == s.placedFurniture && r.selectedFurniture == s.selectedFurniture
    ensures |r.history| == s.historyIndex + 2 && r.historyIndex == |r.history| - 1
    ensures r.history[..s.historyIndex + 1] == s.history[..s.historyIndex + 1]
    ensures r.history[r.historyIndex] == HistoryState(newFurniture)
  {
    var newHistory := s.history[..s.historyIndex + 1] + [HistoryState(newFurniture)];
    s.(history := newHistory, historyIndex := |newHistory| - 1)
  }

  /** Sets the live list and the selection, then records the list. */
  function Commit(s: DesignState, updated: seq<FurnitureItem>, selected: Option<FurnitureItem>): (r: DesignState)
    requires Consistent(s)
    ensures Consistent(r) && Recorded(s, r)
    ensures r.placedFurniture == updated && r.selectedFurniture == selected
    ensures HasPast(r) && !HasFuture(r)
  {
    AddToHistoryStep(s.(placedFurniture := updated, selectedFurniture := selected), updated)
  }

  // ---------------------------------------------------------------------
  // The list transforms of the individual edits

  /** `{...furniture, id: furniture.id || uuidv4()}`, with the generated id
      supplied by the caller. */
  function WithId(furniture: FurnitureItem, freshId: string): (r: FurnitureItem)
    requires freshId != ""
    ensures r.id != ""
    ensures furniture.id != "" ==> r.id == furniture.id
    ensures furniture.id == "" ==> r.id == freshId
    ensures r.(id := furniture.id) == furniture
  {
    furniture.(id := if furniture.id != "" then furniture.id else freshId)
  }

  /** `placedFurniture.filter(item => item.id !== id)` */
  function RemoveById(items: seq<FurnitureItem>, id: string): (r: seq<FurnitureItem>)
    ensures Seqs.IsSubsequence(r, items)
    ensures forall i :: 0 <= i < |r| ==> r[i].id != id
    ensures forall i :: 0 <= i < |items| && items[i].id != id ==> items[i] in r
  {
    var keep := (item: FurnitureItem) => item.id != id;
    Seqs.FilterIsSubsequence(items, keep);
    Seqs.Filter(items, keep)
  }

  /** Removing an id that no item carries leaves the list as it was. */
  lemma RemoveAbsentKeepsList(items: seq<FurnitureItem>, id: string)
    requires forall i :: 0 <= i < |items| ==> items[i].id != id
    ensures RemoveById(items, id) == items
  {
    Seqs.FilterKeepsAll(items, (item: FurnitureItem) => item.id != id);
  }

  /** Removal drops every copy of an item with the id and keeps every copy of
      any other item. */
  lemma RemoveByIdCount(items: seq<FurnitureItem>, id: string, x: FurnitureItem)
    ensures multiset(RemoveById(items, id))[x] == if x.id == id then 0 else multiset(items)[x]
  {
    Seqs.FilterCount(items, (item: FurnitureItem) => item.id != id, x);
  }

  /** `placedFurniture.map(item => item.id === id ? {...item, position} : item)` */
  function MoveById(items: seq<FurnitureItem>, id: string, position: Position): (r: seq<FurnitureItem>)
    ensures |r| == |items|
    ensures forall i :: 0 <= i < |items| ==> r[i].(position := items[i].position) == items[i]
    ensures forall i :: 0 <= i < |items| ==>
      r[i].position == if items[i].id == id then position else items[i].position
  {
    if items == [] then []
    else
      var head := if items[0].id == id then items[0].(position := position) else items[0];
      [head] + MoveById(items[1..], id, position)
  }

  /** `placedFurniture.map(item => item.id === id ? {...item, rotation} : item)` */
  function RotateById(items: seq<FurnitureItem>, id: string, rotation: real): (r: seq<FurnitureItem>)
    ensures |r| == |items|
    ensures forall i :: 0 <= i < |items| ==> r[i].(rotation := items[i].rotation) == items[i]
    ensures forall i :: 0 <= i < |items| ==>
      r[i].rotation == if items[i].id == id then rotation else items[i].rotation
  {
    if items == [] then []
    else
      var head := if items[0].id == id then items[0].(rotation := rotation) else items[0];
      [head] + RotateById(items[1..], id, rotation)
  }

  /** `k` is the first index of `items` whose id is `id`. */
  predicate IsFirstMatch(items: seq<FurnitureItem>, id: string, k: int)
  {
    0 <= k < |items| && items[k].id == id &&
    forall j :: 0 <= j < k ==> items[j].id != id
  }

  /** `items.find(item => item.id === id) || null` */
  function FindById(items: seq<FurnitureItem>, id: string): (r: Option<FurnitureItem>)
    ensures r.None? <==> forall i :: 0 <= i < |items| ==> items[i].id != id
    ensures r.Some? ==> exists k :: IsFirstMatch(items, id, k) && items[k] == r.value
  {
    if items == [] then None
    else if items[0].id == id then
      assert IsFirstMatch(items, id, 0);
      Some(items[0])
    else
      var r := FindById(items[1..], id);
      if r.Some? then
        var k :| IsFirstMatch(items[1..], id, k) && items[1..][k] == r.value;
        assert IsFirstMatch(items, id, k + 1);
        r
      else
        r
  }

  /** After a move, the item found by id is the first match, moved. */
  lemma {:induction false} FindAfterMove(items: seq<FurnitureItem>, id: string, position: Position)
    ensures FindById(MoveById(items, id, position), id) ==
      match FindById(items, id)
      case None => None
      case Some(x) => Some(x.(position := position))
  {
    if items != [] && items[0].id != id {
      FindAfterMove(items[1..], id, position);
      assert MoveById(items, id, position)[1..] == MoveById(items[1..], id, position);
    }
  }

  /** After a rotation, the item found by id is the first match, rotated. */
  lemma {:induction false} FindAfterRotate(items: seq<FurnitureItem>, id: string, rotation: real)
    ensures FindById(RotateById(items, id, rotation), id) ==
      match FindById(items, id)
      case None => None
      case Some(x) => Some(x.(rotation := rotation))
  {
    if items != [] && items[0].id != id {
      FindAfterRotate(items[1..], id, rotation);
      assert RotateById(items, id, rotation)[1..] == RotateById(items[1..], id, rotation);
    }
  }

  // ---------------------------------------------------------------------
  // The store's operations as transitions

  /** `addFurniture`: appends the item (with an id), selects it, records. */
  function AddStep(s: DesignState, furniture: FurnitureItem, freshId: string): (r: DesignState)
    requires Consistent(s) && freshId != ""
    ensures Consistent(r) && Recorded(s, r) && !HasFuture(r)
    ensures |r.placedFurniture| == |s.placedFurniture| + 1
    ensures r.placedFurniture[..|s.placedFurniture|] == s.placedFurniture
    ensures r.selectedFurniture == Some(r.placedFurniture[|s.placedFurniture|])
    ensures r.placedFurniture[|s.placedFurniture|] == WithId(furniture, freshId)
  {
    var newFurniture := WithId(furniture, freshId);
    Commit(s, s.placedFurniture + [newFurniture], Some(newFurniture))
  }

  /** An item added without an id gets the generated one; when that id is
      new to the room, the added item's id differs from every earlier id. */
  lemma AddStepGeneratesNewId(s: DesignState, furniture: FurnitureItem, freshId: string)
    requires Consistent(s) && freshId != "" && furniture.id == ""
    requires forall i :: 0 <= i < |s.placedFurniture| ==> s.placedFurniture[i].id != freshId
    ensures var r := AddStep(s, furniture, freshId); var n := |s.placedFurniture|;
      r.placedFurniture[n].id == freshId &&
      forall i :: 0 <= i < n ==> r.placedFurniture[i].id != r.placedFurniture[n].id
  {
    var r := AddStep(s, furniture, freshId);
    var n := |s.placedFurniture|;
    forall i | 0 <= i < n
      ensures r.placedFurniture[i].id != r.placedFurniture[n].id
    {
      assert r.placedFurniture[i] == s.placedFurniture[i];
    }
  }

  /** `removeFurniture`: drops every item with the id, clears the selection,
      records (also when nothing matched). */
  function RemoveStep(s: DesignState, id: string): (r: DesignState)
    requires Consistent(s)
    ensures Consistent(r) && Recorded(s, r) && !HasFuture(r)
    ensures r.placedFurniture == RemoveById(s.placedFurniture, id)
    ensures r.selectedFurniture == None
  {
    Commit(s, RemoveById(s.placedFurniture, id), None)
  }

  /** `moveFurniture`: repositions every item with the id and selects the
      first of them (or nothing), then records. */
  function MoveStep(s: DesignState, id: string, position: Position): (r: DesignState)
    requires Consistent(s)
    ensures Consistent(r) && Recorded(s, r) && !HasFuture(r)
    ensures r.placedFurniture == MoveById(s.placedFurniture, id, position)
    ensures r.selectedFurniture == match FindById(s.placedFurniture, id)
      case None => None
      case Some(x) => Some(x.(position := position))
  {
    var updated := MoveById(s.placedFurniture, id, position);
    FindAfterMove(s.placedFurniture, id, position);
    Commit(s, updated, FindById(updated, id))
  }

  /** `rotateFurniture`: as `moveFurniture`, for the rotation. */
  function RotateStep(s: DesignState, id: string, rotation: real): (r: DesignState)
    requires Consistent(s)
    ensures Consistent(r) && Recorded(s, r) && !HasFuture(r)
    ensures r.placedFurniture == RotateById(s.placedFurniture, id, rotation)
    ensures r.selectedFurniture == match FindById(s.placedFurniture, id)
      case None => None
      case Some(x) => Some(x.(rotation := rotation))
  {
    var updated := RotateById(s.placedFurniture, id, rotation);
    FindAfterRotate(s.placedFurniture, id, rotation);
    Commit(s, updated, FindById(updated, id))
  }

  /** `applyAIRecommendation`: installs the recommendation's furniture list
      wholesale, clears the selection, records. */
  function ApplyStep(s: DesignState, recommendation: Recommendation): (r: DesignState)
    requires Consistent(s)
    ensures Consistent(r) && Recorded(s, r) && !HasFuture(r)
    ensures r.placedFurniture == recommendation.furniture && r.selectedFurniture == None
  {
    Commit(s, recommendation.furniture, None)
  }

  /** `undoAction` */
  function UndoStep(s: DesignState): (r: DesignState)
    requires Consistent(s)
    ensures Consistent(r) && r.history == s.history
    ensures HasPast(s) ==> r.historyIndex == s.historyIndex - 1 && r.selectedFurniture == None
    ensures !HasPast(s) ==> r == s
    ensures HasPast(s) ==> HasFuture(r)
  {
    if s.historyIndex > 0 then
      var newIndex := s.historyIndex - 1;
      DesignState(s.history[newIndex].placedFurniture, None, s.history, newIndex)
    else
      s
  }

  /** `redoAction` */
  function RedoStep(s: DesignState): (r: DesignState)
    requires Consistent(s)
    ensures Consistent(r) && r.history == s.history
    ensures HasFuture(s) ==> r.historyIndex == s.historyIndex + 1 && r.selectedFurniture == None
    ensures !HasFuture(s) ==> r == s
    ensures HasFuture(s) ==> HasPast(r)
  {
    if s.historyIndex < |s.history| - 1 then
      var newIndex := s.historyIndex + 1;
      DesignState(s.history[newIndex].placedFurniture, None, s.history, newIndex)
    else
      s
  }

  /** Undo then redo gives back the live list, history and cursor; only the
      selection is lost. */
  lemma UndoThenRedo(s: DesignState)
    requires Consistent(s) && HasPast(s)
    ensures RedoStep(UndoStep(s)) == s.(selectedFurniture := None)
  {
  }

  /** Redo then undo gives back the live list, history and cursor. */
  lemma RedoThenUndo(s: DesignState)
    requires Consistent(s) && HasFuture(s)
    ensures UndoStep(RedoStep(s)) == s.(selectedFurniture := None)
  {
  }

  /** A new edit after undoing discards the redo branch: with five snapshots
      and the cursor on the last, two undos and a move leave four snapshots
      and nothing to redo. */
  lemma EditDiscardsRedoBranch(s: DesignState, id: string, position: Position)
    requires Consistent(s) && |s.history| == 5 && s.historyIndex == 4
    ensures var r := MoveStep(UndoStep(UndoStep(s)), id, position);
      |r.history| == 4 && r.history[..3] == s.history[..3] && !HasFuture(r)
  {
  }

  /** Removing an id that is not present leaves the list as it was but still
      records a snapshot (and so still drops the redo branch). */
  lemma RemoveAbsentStillRecords(s: DesignState, id: string)
    requires Consistent(s)
    requires forall i :: 0 <= i < |s.placedFurniture| ==> s.placedFurniture[i].id != id
    ensures var r := RemoveStep(s, id);
      r.placedFurniture == s.placedFurniture &&
      |r.history| == s.historyIndex + 2 && r.historyIndex == s.historyIndex + 1
  {
    RemoveAbsentKeepsList(s.placedFurniture, id);
  }

  /** `canUndo` and `canRedo` say exactly when undo and redo change the
      state. */
  lemma UndoRedoAvailability(s: DesignState)
    requires Consistent(s)
    ensures HasPast(s) <==> UndoStep(s) != s
    ensures HasFuture(s) <==> RedoStep(s) != s
  {
  }

  // ---------------------------------------------------------------------
  // Arbitrary sessions

  /** One call into the store. */
  datatype Action =
    | AddFurniture(furniture: FurnitureItem, freshId: string)
    | RemoveFurniture(id: string)
    | MoveFurniture(id: string, position: Position)
    | RotateFurniture(id: string, rotation: real)
    | ApplyAIRecommendation(recommendation: Recommendation)
    | UndoAction
    | RedoAction
    | SetSelectedFurniture(item: Option<FurnitureItem>)

  /** Every generated id handed to an `AddFurniture` call is non-empty. */
  predicate FreshIdsNonEmpty(actions: seq<Action>)
  {
    forall i :: 0 <= i < |actions| && actions[i].AddFurniture? ==> actions[i].freshId != ""
  }

  function Step(s: DesignState, a: Action): (r: DesignState)
    requires Consistent(s)
    requires a.AddFurniture? ==> a.freshId != ""
    ensures Consistent(r)
  {
    match a
    case AddFurniture(furniture, freshId) => AddStep(s, furniture, freshId)
    case RemoveFurniture(id) => RemoveStep(s, id)
    case MoveFurniture(id, position) => MoveStep(s, id, position)
    case RotateFurniture(id, rotation) => RotateStep(s, id, rotation)
    case ApplyAIRecommendation(recommendation) => ApplyStep(s, recommendation)
    case UndoAction => UndoStep(s)
    case RedoAction => RedoStep(s)
    case SetSelectedFurniture(item) => s.(selectedFurniture := item)
  }

  /** The state after performing `actions` in order from `s`. */
  function Run(s: DesignState, actions: seq<Action>): DesignState
    requires Consistent(s) && FreshIdsNonEmpty(actions)
    decreases |actions|
  {
    if actions == [] then s
    else Run(Step(s, actions[0]), actions[1..])
  }

  /** In every session started from the initial state, the cursor stays in
      bounds, the live list is the snapshot under the cursor, the empty room
      stays the oldest snapshot, and each call adds at most one snapshot. */
  lemma {:induction false} SessionInvariant(s: DesignState, actions: seq<Action>)
    requires Consistent(s) && s.history[0] == HistoryState([])
    requires FreshIdsNonEmpty(actions)
    decreases |actions|
    ensures var r := Run(s, actions);
      Consistent(r) && r.history[0] == HistoryState([]) &&
      |r.history| <= |s.history| + |actions|
  {
    if actions != [] {
      var t := Step(s, actions[0]);
      assert t.history[0] == HistoryState([]) && |t.history| <= |s.history| + 1 by {
        if actions[0].AddFurniture? || actions[0].RemoveFurniture? || actions[0].MoveFurniture? ||
           actions[0].RotateFurniture? || actions[0].ApplyAIRecommendation? {
          assert t.history[..s.historyIndex + 1] == s.history[..s.historyIndex + 1];
          assert t.history[0] == t.history[..s.historyIndex + 1][0];
        }
      }
      assert FreshIdsNonEmpty(actions[1..]) by {
        forall i | 0 <= i < |actions[1..]| && actions[1..][i].AddFurniture?
          ensures actions[1..][i].freshId != ""
        {
          assert actions[1..][i] == actions[i + 1];
        }
      }
      SessionInvariant(t, actions[1..]);
    }
  }

  /** The initial-state instance of `SessionInvariant`. */
  lemma SessionFromInitialState(actions: seq<Action>)
    requires FreshIdsNonEmpty(actions)
    ensures var r := Run(InitialState(), actions);
      Consistent(r) && r.history[0] == HistoryState([]) && |r.history| <= 1 + |actions|
  {
    SessionInvariant(InitialState(), actions);
  }

  // ---------------------------------------------------------------------
  // The store itself

  /** The `useRoomDesign` hook's state cells and callbacks. */
  class RoomDesignStore {
    var placedFurniture: seq<FurnitureItem>
    var selectedFurniture: Option<FurnitureItem>
    var history: seq<HistoryState>
    var historyIndex: int

    /** The fields as one value. */
    function State(): DesignState
      reads this
    {
      DesignState(placedFurniture, selectedFurniture, history, historyIndex)
    }

    ghost predicate Valid()
      reads this
    {
      Consistent(State())
    }

    constructor ()
      ensures Valid() && State() == InitialState()
    {
      placedFurniture := [];
      selectedFurniture := None;
      history := [HistoryState([])];
      historyIndex := 0;
    }

    /** `canUndo` */
    function CanUndo(): bool
      reads this
    {
      HasPast(State())
    }

    /** `canRedo` */
    function CanRedo(): bool
      reads this
    {
      HasFuture(State())
    }

    method AddToHistory(newFurniture: seq<FurnitureItem>)
      requires 0 <= historyIndex < |history|
      modifies this
      ensures State() == AddToHistoryStep(old(State()), newFurniture)
    {
      var newHistory := history[..historyIndex + 1];
      newHistory := newHistory + [HistoryState(newFurniture)];
      history := newHistory;
      historyIndex := |newHistory| - 1;
    }

    method AddFurniture(furniture: FurnitureItem, freshId: string)
      requires Valid() && freshId != ""
      modifies this
      ensures Valid() && State() == AddStep(old(State()), furniture, freshId)
    {
      var newFurniture := furniture.(id := if furniture.id != "" then furniture.id else freshId);
      var updatedFurniture := placedFurniture + [newFurniture];
      placedFurniture := updatedFurniture;
      selectedFurniture := Some(newFurniture);
      AddToHistory(updatedFurniture);
    }

    method RemoveFurniture(id: string)
      requires Valid()
      modifies this
      ensures Valid() && State() == RemoveStep(old(State()), id)
    {
      var updatedFurniture := RemoveById(placedFurniture, id);
      placedFurniture := updatedFurniture;
      selectedFurniture := None;
      AddToHistory(updatedFurniture);
    }

    method MoveFurniture(id: string, position: Position)
      requires Valid()
      modifies this
      ensures Valid() && State() == MoveStep(old(State()), id, position)
    {
      var updatedFurniture := MoveById(placedFurniture, id, position);
      placedFurniture := updatedFurniture;
      selectedFurniture := FindById(updatedFurniture, id);
      AddToHistory(updatedFurniture);
    }

    method RotateFurniture(id: string, rotation: real)
      requires Valid()
      modifies this
      ensures Valid() && State() == RotateStep(old(State()), id, rotation)
    {
      var updatedFurniture := RotateById(placedFurniture, id, rotation);
      placedFurniture := updatedFurniture;
      selectedFurniture := FindById(updatedFurniture, id);
      AddToHistory(updatedFurniture);
    }

    method ApplyAIRecommendation(recommendation: Recommendation)
      requires Valid()
      modifies this
      ensures Valid() && State() == ApplyStep(old(State()), recommendation)
    {
      placedFurniture := recommendation.furniture;
      selectedFurniture := None;
      AddToHistory(recommendation.furniture);
    }

    method UndoAction()
      requires Valid()
      modifies this
      ensures Valid() && State() == UndoStep(old(State()))
    {
      if historyIndex > 0 {
        var newIndex := historyIndex - 1;
        historyIndex := newIndex;
        placedFurniture := history[newIndex].placedFurniture;
        selectedFurniture := None;
      }
    }

    method RedoAction()
      requires Valid()
      modifies this
      ensures Valid() && State() == RedoStep(old(State()))
    {
      if historyIndex < |history| - 1 {
        var newIndex := historyIndex + 1;
        historyIndex := newIndex;
        placedFurniture := history[newIndex].placedFurniture;
        selectedFurniture := None;
      }
    }

    /** The exported `setSelectedFurniture` setter. */
    method SetSelectedFurniture(item: Option<FurnitureItem>)
      requires Valid()
      modifies this`selectedFurniture
      ensures Valid() && State() == old(State()).(selectedFurniture := item)
    {
      selectedFurniture := item;
    }
  }
}
