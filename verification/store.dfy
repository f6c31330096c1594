/** The client's document store (src/store/drawingStore.ts): every action is
    a pure transition from one store record to the next.

    Undo and redo are read through the store's Timeline: the history, then
    the current elements, then the redo stack (whose head is the next state
    to redo). Undo and redo keep the Timeline and move the current position
    |history| by one; an edit cuts the Timeline after the current position
    and appends the edited list. */
module DrawingStore {
  import opened Wrappers
  import opened Types

  type Snapshot = seq<DrawingElement>

  /** Viewport, selected tool and selected colour are presentation state and
      are not part of this record. */
  datatype Store = Store(
    elements: Snapshot,
    users: seq<User>,
    history: seq<Snapshot>,
    redoStack: seq<Snapshot>)

  const Initial := Store([], [], [], [])

  /** Every state undo and redo can reach, oldest first. */
  function Timeline(s: Store): seq<Snapshot> {
    s.history + [s.elements] + s.redoStack
  }

  /** Two stores with the same Timeline, position and users are equal. */
  lemma TimelineDetermines(s: Store, t: Store)
    requires Timeline(s) == Timeline(t) && |s.history| == |t.history| && s.users == t.users
    ensures s == t
  {
    var n := |s.history|;
    assert s.history == Timeline(s)[..n] == Timeline(t)[..n] == t.history;
    assert s.elements == Timeline(s)[n] == Timeline(t)[n] == t.elements;
    assert s.redoStack == Timeline(s)[n + 1..] == Timeline(t)[n + 1..] == t.redoStack;
  }

  /** `addElement`: append, recording the previous list as an undo step. */
  function AddElement(s: Store, e: DrawingElement): (r: Store)
    ensures r.elements == s.elements + [e]
    ensures Timeline(r) == Timeline(s)[..|s.history| + 1] + [r.elements]
    ensures |r.history| == |s.history| + 1 && r.redoStack == [] && r.users == s.users
  {
    assert Timeline(s)[..|s.history| + 1] == s.history + [s.elements];
    Store(s.elements + [e], s.users, s.history + [s.elements], [])
  }

  /** `updateElement`: merge the patch into every element with that id; not
      an undo step. */
  function UpdateElement(s: Store, id: string, patch: ElementPatch): (r: Store)
    ensures |r.elements| == |s.elements|
    ensures forall i :: 0 <= i < |s.elements| ==>
      r.elements[i] == if s.elements[i].id == id then Merge(s.elements[i], patch) else s.elements[i]
    ensures r.history == s.history && r.redoStack == s.redoStack && r.users == s.users
  {
    s.(elements := MergeWhere(s.elements, id, patch))
  }

  /** `elements.map(el => el.id === id ? { ...el, ...patch } : el)` */
  function MergeWhere(els: Snapshot, id: string, patch: ElementPatch): (r: Snapshot)
    ensures |r| == |els|
    ensures forall i :: 0 <= i < |els| ==>
      r[i] == if els[i].id == id then Merge(els[i], patch) else els[i]
  {
    if els == [] then []
    else [if els[0].id == id then Merge(els[0], patch) else els[0]] + MergeWhere(els[1..], id, patch)
  }

  /** `removeElement(id)`: drop every element with that id, recording an
      undo step even when none matches. `key` is `None` when the argument is
      not a string at run time (a `null` or object payload), which equals no
      element id. */
  function RemoveElement(s: Store, key: Option<string>): (r: Store)
    ensures forall e :: e in r.elements <==> e in s.elements && Some(e.id) != key
    ensures (forall e :: e in s.elements ==> Some(e.id) != key) ==> r.elements == s.elements
    ensures Timeline(r) == Timeline(s)[..|s.history| + 1] + [r.elements]
    ensures |r.history| == |s.history| + 1 && r.redoStack == [] && r.users == s.users
  {
    assert Timeline(s)[..|s.history| + 1] == s.history + [s.elements];
    Store(KeepOthers(s.elements, key), s.users, s.history + [s.elements], [])
  }

  /** `setUsers`: replace the user list wholesale. */
  function SetUsers(s: Store, users: seq<User>): (r: Store)
    ensures r.users == users
    ensures r.elements == s.elements && r.history == s.history && r.redoStack == s.redoStack
  {
    s.(users := users)
  }

  /** `updateUser`: merge the patch into every user with that id. */
  function UpdateUser(s: Store, userId: string, patch: UserPatch): (r: Store)
    ensures |r.users| == |s.users|
    ensures forall i :: 0 <= i < |s.users| ==>
      r.users[i] == if s.users[i].id == userId then MergeUser(s.users[i], patch) else s.users[i]
    ensures r.elements == s.elements && r.history == s.history && r.redoStack == s.redoStack
  {
    s.(users := MergeUserWhere(s.users, userId, patch))
  }

  /** `users.map(user => user.id === userId ? { ...user, ...patch } : user)` */
  function MergeUserWhere(us: seq<User>, userId: string, patch: UserPatch): (r: seq<User>)
    ensures |r| == |us|
    ensures forall i :: 0 <= i < |us| ==>
      r[i] == if us[i].id == userId then MergeUser(us[i], patch) else us[i]
  {
    if us == [] then []
    else [if us[0].id == userId then MergeUser(us[0], patch) else us[0]] + MergeUserWhere(us[1..], userId, patch)
  }

  /** `clearCanvas`: empty the list, recording an undo step. */
  function ClearCanvas(s: Store): (r: Store)
    ensures r.elements == []
    ensures Timeline(r) == Timeline(s)[..|s.history| + 1] + [[]]
    ensures |r.history| == |s.history| + 1 && r.redoStack == [] && r.users == s.users
  {
    assert Timeline(s)[..|s.history| + 1] == s.history + [s.elements];
    Store([], s.users, s.history + [s.elements], [])
  }

  /** `undo`: step back to the latest history entry; the current list becomes
      the head of the redo stack. */
  function Undo(s: Store): (r: Store)
    ensures s.history == [] ==> r == s
    ensures s.history != [] ==>
      Timeline(r) == Timeline(s) && |r.history| == |s.history| - 1 && r.users == s.users
  {
    if |s.history| == 0 then s
    else
      var n := |s.history|;
      assert s.history == s.history[..n - 1] + [s.history[n - 1]];
      Store(s.history[n - 1], s.users, s.history[..n - 1], [s.elements] + s.redoStack)
  }

  /** `redo`: step forward to the head of the redo stack; the current list is
      appended to the history. */
  function Redo(s: Store): (r: Store)
    ensures s.redoStack == [] ==> r == s
    ensures s.redoStack != [] ==>
      Timeline(r) == Timeline(s) && |r.history| == |s.history| + 1 && r.users == s.users
  {
    if |s.redoStack| == 0 then s
    else
      assert s.redoStack == [s.redoStack[0]] + s.redoStack[1..];
      Store(s.redoStack[0], s.users, s.history + [s.elements], s.redoStack[1..])
  }

  /** `canUndo`: undo is offered exactly when it would change the store. */
  function CanUndo(s: Store): (r: bool)
    ensures r <==> Undo(s) != s
    ensures r <==> s.history != []
  {
    |s.history| > 0
  }

  /** `canRedo`: redo is offered exactly when it would change the store. */
  function CanRedo(s: Store): (r: bool)
    ensures r <==> Redo(s) != s
    ensures r <==> s.redoStack != []
  {
    |s.redoStack| > 0
  }

  /** Undo then redo restores the store exactly. */
  lemma UndoThenRedo(s: Store)
    requires s.history != []
    ensures Redo(Undo(s)) == s
  {
    TimelineDetermines(Redo(Undo(s)), s);
  }

  /** Redo then undo restores the store exactly. */
  lemma RedoThenUndo(s: Store)
    requires s.redoStack != []
    ensures Undo(Redo(s)) == s
  {
    TimelineDetermines(Undo(Redo(s)), s);
  }

  /** An edit is undone by one undo, which leaves the edited list ready to
      redo. */
  lemma UndoRevertsAdd(s: Store, e: DrawingElement)
    ensures Undo(AddElement(s, e)) == s.(redoStack := [s.elements + [e]])
  {
  }

  /** `undo` applied k times. */
  function UndoTimes(s: Store, k: nat): Store {
    if k == 0 then s else Undo(UndoTimes(s, k - 1))
  }

  /** Repeated undo walks back along the Timeline without changing it. */
  lemma {:induction false} UndoTimesWalksBack(s: Store, k: nat)
    requires k <= |s.history|
    ensures Timeline(UndoTimes(s, k)) == Timeline(s)
    ensures |UndoTimes(s, k).history| == |s.history| - k
    ensures UndoTimes(s, k).elements == Timeline(s)[|s.history| - k]
  {
    if k > 0 {
      UndoTimesWalksBack(s, k - 1);
    }
  }

  /** `addElement` once per element, in order. */
  function AddAll(s: Store, es: seq<DrawingElement>): Store
    decreases |es|
  {
    if es == [] then s else AddElement(AddAll(s, es[..|es| - 1]), es[|es| - 1])
  }

  /** Adding n elements one by one appends them and pushes n undo steps: the
      k-th new history entry is the list before the k-th add. */
  lemma {:induction false} AddAllSteps(s: Store, es: seq<DrawingElement>)
    ensures AddAll(s, es).elements == s.elements + es
    ensures AddAll(s, es).users == s.users
    ensures |AddAll(s, es).history| == |s.history| + |es|
    ensures AddAll(s, es).history[..|s.history|] == s.history
    ensures forall k :: 0 <= k < |es| ==> AddAll(s, es).history[|s.history| + k] == s.elements + es[..k]
    ensures es != [] ==> AddAll(s, es).redoStack == []
    ensures es == [] ==> AddAll(s, es) == s
    decreases |es|
  {
    if es != [] {
      var init := es[..|es| - 1];
      AddAllSteps(s, init);
      var t := AddAll(s, init);
      assert AddAll(s, es) == AddElement(t, es[|es| - 1]);
      assert t.elements == s.elements + init;
      assert init + [es[|es| - 1]] == es;
      forall k | 0 <= k < |init|
        ensures AddAll(s, es).history[|s.history| + k] == s.elements + es[..k]
      {
        assert es[..k] == init[..k];
      }
      assert es[..|init|] == init;
    }
  }

  /** Adding n elements and undoing n times returns to the original list: each
      element of an `initial_state` snapshot is its own undo step. */
  lemma UndoAllAdds(s: Store, es: seq<DrawingElement>)
    ensures UndoTimes(AddAll(s, es), |es|).elements == s.elements
  {
    var t := AddAll(s, es);
    AddAllSteps(s, es);
    UndoTimesWalksBack(t, |es|);
    if es != [] {
      assert Timeline(t)[|s.history|] == t.history[|s.history| + 0];
      assert es[..0] == [];
    } else {
      assert Timeline(t)[|s.history|] == t.elements;
    }
  }
}
