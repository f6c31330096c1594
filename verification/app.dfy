/** The client's synchronisation glue (src/App.tsx): how messages from the
    server reach the document store, how local edits reach the store and
    the server, and how the hook's roster is copied into the store.

    `Dispatch` is the store update of `handleWebSocketMessage`; class `App`
    owns the store and the connection hook and runs the handlers in place.
    The lemmas at the end follow a message from one client through the
    relay server to another. */
module App {
  import opened Wrappers
  import opened Types
  import opened DrawingStore
  import S = Socket
  import Relay

  /* ---------- remote messages ---------- */

  /** The store after `handleWebSocketMessage(m)`, or `None` when the
      handler throws (a `null` payload dereferenced on `initial_state`, and
      on a `cursor_moved` from another user); a throw happens before any
      store update. Messages the local user sent itself come back only as
      relays of other users' messages, but those of the three edit types
      that carry the local id are ignored. */
  function Dispatch(s: Store, me: string, m: Message): (r: Option<Store>)
    ensures r.None? <==>
      m.data.NullData? && (m.kind == InitialState || (m.kind == CursorMoved && m.userId != me))
    ensures m.userId == me && m.kind in {ElementAdded, ElementDeleted, CursorMoved} ==> r == Some(s)
    ensures m.kind in {UserJoined, UserLeft, ElementUpdated, ClearCanvas} || m.kind.OtherType? ==>
      r == Some(s)
    ensures r.Some? && m.kind != InitialState ==> |r.value.users| == |s.users|
    ensures r.Some? && m.kind == CursorMoved ==> r.value.elements == s.elements
  {
    match m.kind
    case InitialState =>
      (match m.data
       case NullData => None
       case SnapshotData(elements, users) =>
         var added := if elements.Some? then AddAll(s, elements.value) else s;
         Some(if users.Some? then SetUsers(added, users.value) else added)
       case _ => Some(s))
    case ElementAdded =>
      if m.userId == me || !m.data.ElementData? then Some(s)
      else Some(AddElement(s, m.data.element))
    case ElementDeleted =>
      if m.userId == me then Some(s)
      else Some(RemoveElement(s, if m.data.TextData? then Some(m.data.text) else None))
    case CursorMoved =>
      if m.userId == me then Some(s)
      else if m.data.NullData? then None
      else Some(UpdateUser(s, m.userId, CursorPatch(FieldPosition(m.data))))
    case _ =>
      Some(s)
  }

  /** An `initial_state` snapshot adds its elements one by one, in order,
      each as its own undo step, so undoing as many times as it had elements
      returns to the list before it; users it carries replace the store's. */
  lemma SnapshotIsUndoable(s: Store, me: string, m: Message, elements: seq<DrawingElement>)
    requires m.kind == InitialState && m.data.SnapshotData? && m.data.elements == Some(elements)
    ensures var r := Dispatch(s, me, m).value;
      r.elements == s.elements + elements &&
      |r.history| == |s.history| + |elements| &&
      r.users == m.data.users.GetOr(s.users) &&
      UndoTimes(r, |elements|).elements == s.elements
  {
    AddAllSteps(s, elements);
    UndoAllAdds(s, elements);
    var added := AddAll(s, elements);
    if m.data.users.Some? {
      assert UndoTimes(SetUsers(added, m.data.users.value), |elements|).elements ==
             UndoTimes(added, |elements|).elements by {
        UndoIgnoresUsers(added, m.data.users.value, |elements|);
      }
    }
  }

  /** Undo does not look at the users, so replacing them first changes
      only the users of the result. */
  lemma {:induction false} UndoIgnoresUsers(s: Store, users: seq<User>, k: nat)
    ensures UndoTimes(SetUsers(s, users), k) == UndoTimes(s, k).(users := users)
  {
    if k > 0 {
      UndoIgnoresUsers(s, users, k - 1);
    }
  }

  /** Another user's addition enters the local undo history: one undo takes
      it back out. */
  lemma RemoteAddIsUndoable(s: Store, me: string, m: Message)
    requires m.kind == ElementAdded && m.userId != me && m.data.ElementData?
    ensures Dispatch(s, me, m) == Some(AddElement(s, m.data.element))
    ensures Undo(Dispatch(s, me, m).value).elements == s.elements
  {
    UndoRevertsAdd(s, m.data.element);
  }

  /** Another user's deletion is also an undo step, even when it removes
      nothing. */
  lemma RemoteDeleteIsUndoable(s: Store, me: string, m: Message)
    requires m.kind == ElementDeleted && m.userId != me
    ensures var r := Dispatch(s, me, m).value;
      |r.history| == |s.history| + 1 && Undo(r).elements == s.elements
  {
  }

  /** Another user's cursor moves that user's cursor to the reported
      position, leaves every other user as it was, and is not an undo step. */
  lemma RemoteCursorMovesThatUser(s: Store, me: string, m: Message)
    requires m.kind == CursorMoved && m.userId != me && !m.data.NullData?
    ensures Dispatch(s, me, m) == Some(UpdateUser(s, m.userId, CursorPatch(FieldPosition(m.data))))
    ensures var r := Dispatch(s, me, m).value;
      r.elements == s.elements && r.history == s.history && r.redoStack == s.redoStack &&
      |r.users| == |s.users| &&
      forall i :: 0 <= i < |s.users| ==>
        r.users[i] == if s.users[i].id == m.userId then s.users[i].(cursor := FieldPosition(m.data)) else s.users[i]
  {
  }

  /* ---------- the client as a whole ---------- */

  /** The client's synchronised state: the store and the hook's roster. */
  datatype Client = Client(store: Store, roster: seq<User>)

  /** One frame arriving at the hook: `handleWebSocketMessage` runs first;
      unless it throws, the roster reducer runs, and when it built a new
      list the store's users are replaced by the roster (the effect that
      copies the hook's users into the store). A frame that is not valid
      JSON changes nothing. */
  function Deliver(c: Client, me: string, frame: Inbound, color: string): (r: Client)
    ensures S.UniqueIds(c.roster) ==> S.UniqueIds(r.roster)
    ensures frame.Malformed? ==> r == c
    ensures frame.Parsed? && frame.msg.kind in {UserJoined, UserLeft} ==>
      r.store.elements == c.store.elements && r.store.history == c.store.history &&
      r.store.redoStack == c.store.redoStack && (r.roster != c.roster ==> r.store.users == r.roster)
  {
    match frame
    case Malformed => c
    case Parsed(m) =>
      match Dispatch(c.store, me, m)
      case None => c
      case Some(store) =>
        var change := S.RosterAfter(c.roster, m, color);
        Client(if change.newList then SetUsers(store, change.users) else store, change.users)
  }

  /** The message `handleElementAdded` hands to `sendMessage`. */
  function AddedMessage(e: DrawingElement, me: string, now: int): Message {
    Message(ElementAdded, ElementData(e), me, now)
  }

  /** The message `handleElementRemoved` hands to `sendMessage`: the id as
      a bare string. */
  function RemovedMessage(id: string, me: string, now: int): Message {
    Message(ElementDeleted, TextData(id), me, now)
  }

  /** The message `handleCursorMove` hands to `sendMessage`. */
  function CursorMessage(position: Point, me: string, now: int): Message {
    Message(CursorMoved, CursorData(position), me, now)
  }

  /* ---------- from one client through the server to another ---------- */

  /** A local addition reaches the server's list and every other open,
      registered connection, and each other client adds the element to its
      store. */
  lemma AdditionPropagates(e: DrawingElement, me: string, now: int, st: Relay.Server, ws: Relay.ConnId,
                           open: set<Relay.ConnId>, env: Relay.Env, other: string, s: Store)
    requires other != me
    ensures var r := Relay.Step(st, ws, AddedMessage(e, me, now), open, env);
      r.state.elements == st.elements + [e] &&
      r.out == Relay.Fanout(st.clients, ws, open, AddedMessage(e, me, now)) &&
      Dispatch(s, other, AddedMessage(e, me, now)) == Some(AddElement(s, e))
  {
  }

  /** A local removal never reaches the server's list: the client sends the
      id as a bare string and the server looks for `data.id`. Other clients
      still remove the element locally, and the server keeps it for later
      joiners. */
  lemma RemovalStopsAtServer(id: string, me: string, now: int, st: Relay.Server, ws: Relay.ConnId,
                             open: set<Relay.ConnId>, env: Relay.Env, other: string, s: Store)
    requires other != me
    ensures Relay.Step(st, ws, RemovedMessage(id, me, now), open, env).state == st
    ensures Dispatch(s, other, RemovedMessage(id, me, now)) == Some(RemoveElement(s, Some(id)))
  {
    Relay.BareIdDeleteRemovesNothing(st, ws, id, me, now, open, env);
  }

  /** The server's notice that a user left removes that user from every
      other client's roster and, through the copying effect, from its
      store's users. */
  lemma LeaveNoticeReachesRoster(c: Client, me: string, key: string, now: int, color: string)
    ensures var r := Deliver(c, me, Parsed(Relay.LeftMessage(key, now)), color);
      r.roster == S.DropUser(c.roster, key) && r.store.users == r.roster &&
      r.store.elements == c.store.elements
  {
    var m := Relay.LeftMessage(key, now);
    assert Dispatch(c.store, me, m) == Some(c.store);
    assert S.RosterAfter(c.roster, m, color) == S.RosterChange(S.DropUser(c.roster, key), true);
  }

  /* ---------- the component ---------- */

  class App {
    /** The random local user id, fixed at start-up. */
    const userId: string
    var store: Store
    const socket: S.Socket

    ghost predicate Valid()
      reads this, socket
    {
      socket.Valid() && socket.userId == userId
    }

    constructor (userId: string)
      ensures Valid() && fresh(socket)
      ensures this.userId == userId && store == Initial
      ensures socket.roster == [] && socket.sent == [] && !socket.hasSocket
    {
      this.userId := userId;
      store := Initial;
      socket := new S.Socket(userId);
    }

    /** `handleWebSocketMessage`; returns whether it threw. */
    method HandleWebSocketMessage(m: Message) returns (threw: bool)
      modifies this`store
      ensures threw <==> Dispatch(old(store), userId, m).None?
      ensures threw ==> store == old(store)
      ensures !threw ==> store == Dispatch(old(store), userId, m).value
    {
      threw := false;
      match m.kind {
        case InitialState =>
          if m.data.NullData? {
            return true;
          }
          if m.data.SnapshotData? {
            if m.data.elements.Some? {
              var elements := m.data.elements.value;
              for i := 0 to |elements|
                invariant store == AddAll(old(store), elements[..i])
              {
                assert elements[..i + 1][..i] == elements[..i];
                store := AddElement(store, elements[i]);
              }
              assert elements[..|elements|] == elements;
            }
            if m.data.users.Some? {
              store := SetUsers(store, m.data.users.value);
            }
          }
        case ElementAdded =>
          if m.userId != userId && m.data.ElementData? {
            store := AddElement(store, m.data.element);
          }
        case ElementDeleted =>
          if m.userId != userId {
            store := RemoveElement(store, if m.data.TextData? then Some(m.data.text) else None);
          }
        case CursorMoved =>
          if m.userId != userId {
            if m.data.NullData? {
              return true;
            }
            store := UpdateUser(store, m.userId, CursorPatch(FieldPosition(m.data)));
          }
        case _ =>
      }
    }

    /** The hook's `onmessage` followed by the effect that copies the
        roster into the store. */
    method OnFrame(frame: Inbound, color: string)
      requires Valid()
      modifies this`store, socket`roster
      ensures Valid()
      ensures Client(store, socket.roster) ==
        Deliver(Client(old(store), old(socket.roster)), userId, frame, color)
    {
      if frame.Parsed? {
        var threw := HandleWebSocketMessage(frame.msg);
        if !threw {
          var newList := socket.UpdateRoster(frame.msg, color);
          if newList {
            store := SetUsers(store, socket.roster);
          }
        }
      }
    }

    /** `handleElementAdded`: add locally, then announce. */
    method HandleElementAdded(e: DrawingElement, now: int)
      requires Valid()
      modifies this`store, socket`sent
      ensures Valid()
      ensures store == AddElement(old(store), e)
      ensures socket.sent == old(socket.sent) + if socket.hasSocket then [AddedMessage(e, userId, now)] else []
    {
      store := AddElement(store, e);
      var _ := socket.SendMessage(ElementAdded, ElementData(e), now);
    }

    /** `handleElementRemoved`: remove locally, then announce the bare id. */
    method HandleElementRemoved(id: string, now: int)
      requires Valid()
      modifies this`store, socket`sent
      ensures Valid()
      ensures store == RemoveElement(old(store), Some(id))
      ensures socket.sent == old(socket.sent) + if socket.hasSocket then [RemovedMessage(id, userId, now)] else []
    {
      store := RemoveElement(store, Some(id));
      var _ := socket.SendMessage(ElementDeleted, TextData(id), now);
    }

    /** `handleCursorMove`: move the local user's cursor, then announce. */
    method HandleCursorMove(position: Point, now: int)
      requires Valid()
      modifies this`store, socket`sent
      ensures Valid()
      ensures store == UpdateUser(old(store), userId, CursorPatch(Some(position)))
      ensures socket.sent == old(socket.sent) + if socket.hasSocket then [CursorMessage(position, userId, now)] else []
    {
      store := UpdateUser(store, userId, CursorPatch(Some(position)));
      var _ := socket.SendMessage(CursorMoved, CursorData(position), now);
    }

    /** `handleClearCanvas`: clear the local store only; nothing is sent. */
    method HandleClearCanvas()
      modifies this`store
      ensures store == DrawingStore.ClearCanvas(old(store))
      ensures unchanged(socket)
    {
      store := DrawingStore.ClearCanvas(store);
    }
  }
}
