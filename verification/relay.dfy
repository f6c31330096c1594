/** The relay server (src/server/websocketServer.js): it keeps the canonical
    element list, the registered connections (`clients`) and the roster
    (`users`), applies each decoded message from a connection to them and
    fans the message out to the other open connections.

    Connections are abstract ids; whether a connection is open
    (`readyState === OPEN`) is an input. Every `send` is recorded as a
    Delivery in an outbox, in order. `Date.now()` readings and the random
    colour of a joining user are inputs (`Env`). `Step`, `Receive` and
    `Close` say what one event does; class `RelayServer` performs the same
    updates in place and is proved to agree with them. */
module Relay {
  import opened Wrappers
  import opened Types
  import opened OrderedMap

  type ConnId = nat

  /** The `userId` the server stamps on the messages it originates. */
  const ServerId := "server"

  /** A registered connection; `lastSeen` is set on join and never read. */
  datatype Client = Client(conn: ConnId, lastSeen: int)

  /** One `send` on a connection. */
  datatype Delivery = Delivery(to: ConnId, msg: Message)

  datatype Server = Server(
    elements: seq<DrawingElement>,
    clients: Entries<Client>,
    users: Entries<User>)

  const Empty := Server([], [], [])

  /** The readings of `Date.now()` and `Math.random()` one message may
      take: the join's `lastSeen`, the user's `joinedAt`, the snapshot's
      timestamp and the user's colour. */
  datatype Env = Env(lastSeen: int, joinedAt: int, sentAt: int, color: string)

  /** What one event leaves behind: the new state and the sends, in order. */
  datatype Outcome = Outcome(state: Server, out: seq<Delivery>)

  /** Both maps are maps, and every listed user has a registered connection. */
  ghost predicate Consistent(st: Server) {
    UniqueKeys(st.clients) && UniqueKeys(st.users) &&
    forall k :: Has(st.users, k) ==> Has(st.clients, k)
  }

  /* ---------- broadcast ---------- */

  /** The sends of `broadcast(msg, exclude)`: one per registered client, in
      registration order, whose connection is open and is not `exclude`. */
  function Fanout(cs: Entries<Client>, exclude: ConnId, open: set<ConnId>, msg: Message): (r: seq<Delivery>)
    ensures |r| <= |cs|
    ensures forall d :: d in r ==> d.msg == msg && d.to != exclude && d.to in open
    decreases |cs|
  {
    if cs == [] then []
    else
      var init := cs[..|cs| - 1];
      var c := cs[|cs| - 1].1;
      Fanout(init, exclude, open, msg) +
        (if c.conn != exclude && c.conn in open then [Delivery(c.conn, msg)] else [])
  }

  /** Every send goes to a registered connection, and every registered
      connection that is open and not excluded gets exactly the message. */
  lemma {:induction false} FanoutReachesEligible(cs: Entries<Client>, exclude: ConnId, open: set<ConnId>, msg: Message)
    ensures forall d :: d in Fanout(cs, exclude, open, msg) ==>
      exists j :: 0 <= j < |cs| && cs[j].1.conn == d.to
    ensures forall j :: 0 <= j < |cs| && cs[j].1.conn != exclude && cs[j].1.conn in open ==>
      Delivery(cs[j].1.conn, msg) in Fanout(cs, exclude, open, msg)
    decreases |cs|
  {
    if cs != [] {
      var init := cs[..|cs| - 1];
      FanoutReachesEligible(init, exclude, open, msg);
      assert forall j :: 0 <= j < |init| ==> init[j] == cs[j];
    }
  }

  /** Fanout over one more client entry. */
  lemma FanoutStep(cs: Entries<Client>, i: nat, exclude: ConnId, open: set<ConnId>, msg: Message)
    requires i < |cs|
    ensures Fanout(cs[..i + 1], exclude, open, msg) ==
      Fanout(cs[..i], exclude, open, msg) +
        (if cs[i].1.conn != exclude && cs[i].1.conn in open then [Delivery(cs[i].1.conn, msg)] else [])
  {
    assert cs[..i + 1][..i] == cs[..i];
  }

  /* ---------- element list helpers ---------- */

  /** `elements.findIndex(el => el.id === key)`, with `None` for -1. */
  function FirstWithId(els: seq<DrawingElement>, key: Option<string>): (r: Option<nat>)
    ensures r.Some? ==> r.value < |els| && Some(els[r.value].id) == key
    ensures r.Some? ==> forall j :: 0 <= j < r.value ==> Some(els[j].id) != key
    ensures r.None? <==> forall j :: 0 <= j < |els| ==> Some(els[j].id) != key
  {
    if els == [] then None
    else if Some(els[0].id) == key then Some(0)
    else match FirstWithId(els[1..], key)
      case None => None
      case Some(k) => Some(k + 1)
  }

  /** The `element_updated` update: merge the payload into the first element
      with the payload's id, if any. */
  function UpdateFirst(els: seq<DrawingElement>, d: Data): (r: seq<DrawingElement>)
    ensures |r| == |els|
    ensures FirstWithId(els, FieldId(d)).None? ==> r == els
    ensures FirstWithId(els, FieldId(d)).Some? ==>
      var i := FirstWithId(els, FieldId(d)).value;
      r[i] == Merge(els[i], PatchOf(d)) && forall j :: 0 <= j < |els| && j != i ==> r[j] == els[j]
  {
    match FirstWithId(els, FieldId(d))
    case None => els
    case Some(i) => els[i := Merge(els[i], PatchOf(d))]
  }

  /* ---------- one message ---------- */

  /** The user `user_joined` registers: the payload's `name` (possibly
      absent), a random colour, no cursor, the join time. */
  function Joiner(m: Message, env: Env): User {
    User(m.userId, FieldName(m.data), env.color, None, Some(env.joinedAt))
  }

  /** The `initial_state` reply: the elements and the whole roster. */
  function Snapshot(elements: seq<DrawingElement>, users: Entries<User>, env: Env): Message {
    Message(InitialState, SnapshotData(Some(elements), Some(Values(users))), ServerId, env.sentAt)
  }

  /** The state update and sends of `handleMessage(ws, m)`. A payload that is
      `null` makes the handler throw where it is first dereferenced: after
      registering the connection on `user_joined`, at the first element on
      `element_updated` and `element_deleted`, and on `cursor_moved` from a
      known user; the throw is caught by the message listener, so the event
      then ends where it threw. */
  function Step(st: Server, ws: ConnId, m: Message, open: set<ConnId>, env: Env): (r: Outcome)
    ensures Consistent(st) ==> Consistent(r.state)
    ensures forall d :: d in r.out ==> d.to != ws || d == Delivery(ws, Snapshot(st.elements, r.state.users, env))
    ensures forall d :: d in r.out && d.to != ws ==> d.msg == m && d.to in open
    ensures m.kind != UserJoined ==> r.state.clients == st.clients
    ensures m.kind !in {UserJoined, CursorMoved} ==> r.state.users == st.users
    ensures m.kind !in {ElementAdded, ElementUpdated, ElementDeleted, ClearCanvas} ==>
      r.state.elements == st.elements
    ensures m.kind.OtherType? || m.kind in {InitialState, UserLeft} ==> r == Outcome(st, [])
  {
    var relay := Fanout(st.clients, ws, open, m);
    match m.kind
    case UserJoined =>
      Joined(st, ws, m, open, env)
    case ElementAdded =>
      var elements := if m.data.ElementData? then st.elements + [m.data.element] else st.elements;
      Outcome(st.(elements := elements), relay)
    case ElementUpdated =>
      if m.data.NullData? && st.elements != [] then Outcome(st, [])
      else Outcome(st.(elements := UpdateFirst(st.elements, m.data)), relay)
    case ElementDeleted =>
      if m.data.NullData? && st.elements != [] then Outcome(st, [])
      else Outcome(st.(elements := KeepOthers(st.elements, FieldId(m.data))), relay)
    case CursorMoved =>
      (match Get(st.users, m.userId)
       case None => Outcome(st, relay)
       case Some(u) =>
         if m.data.NullData? then Outcome(st, [])
         else Outcome(st.(users := Set(st.users, m.userId, u.(cursor := FieldPosition(m.data)))), relay))
    case ClearCanvas =>
      Outcome(st.(elements := []), relay)
    case _ =>
      Outcome(st, [])
  }

  /** The `user_joined` case of `Step`. */
  function Joined(st: Server, ws: ConnId, m: Message, open: set<ConnId>, env: Env): (r: Outcome)
    ensures Consistent(st) ==> Consistent(r.state)
    ensures r.state.elements == st.elements
  {
    var clients := Set(st.clients, m.userId, Client(ws, env.lastSeen));
    if m.data.NullData? then Outcome(st.(clients := clients), [])
    else
      var users := Set(st.users, m.userId, Joiner(m, env));
      Outcome(Server(st.elements, clients, users),
              [Delivery(ws, Snapshot(st.elements, users, env))] + Fanout(clients, ws, open, m))
  }

  /** The message listener: a frame that is not valid JSON is dropped. */
  function Receive(st: Server, ws: ConnId, frame: Inbound, open: set<ConnId>, env: Env): (r: Outcome)
    ensures frame.Malformed? ==> r == Outcome(st, [])
    ensures Consistent(st) ==> Consistent(r.state)
    ensures forall d :: d in r.out && d.to == ws ==> d.msg.kind == InitialState
  {
    match frame
    case Malformed => Outcome(st, [])
    case Parsed(m) => Step(st, ws, m, open, env)
  }

  /* ---------- disconnects ---------- */

  /** The index of the first client entry bound to the connection. */
  function FirstClientOn(cs: Entries<Client>, ws: ConnId): (r: Option<nat>)
    ensures r.Some? ==> r.value < |cs| && cs[r.value].1.conn == ws
    ensures r.Some? ==> forall j :: 0 <= j < r.value ==> cs[j].1.conn != ws
    ensures r.None? <==> forall j :: 0 <= j < |cs| ==> cs[j].1.conn != ws
  {
    if cs == [] then None
    else if cs[0].1.conn == ws then Some(0)
    else match FirstClientOn(cs[1..], ws)
      case None => None
      case Some(k) => Some(k + 1)
  }

  /** The notice that a user has gone. */
  function LeftMessage(userId: string, now: int): Message {
    Message(UserLeft, UserData(Some(userId), None), ServerId, now)
  }

  /** The close handler: drop the first client entry bound to the
      connection and the user under the same key, then tell the others. */
  function Close(st: Server, ws: ConnId, open: set<ConnId>, now: int): (r: Outcome)
    ensures Consistent(st) ==> Consistent(r.state)
    ensures r.state.elements == st.elements
    ensures FirstClientOn(st.clients, ws).None? ==> r == Outcome(st, [])
    ensures FirstClientOn(st.clients, ws).Some? ==>
      var key := st.clients[FirstClientOn(st.clients, ws).value].0;
      !Has(r.state.clients, key) && !Has(r.state.users, key) &&
      (forall k :: k != key ==> Get(r.state.clients, k) == Get(st.clients, k) &&
                                Get(r.state.users, k) == Get(st.users, k)) &&
      r.out == Fanout(r.state.clients, ws, open, LeftMessage(key, now))
    ensures forall d :: d in r.out ==> d.to != ws && d.to in open
  {
    match FirstClientOn(st.clients, ws)
    case None => Outcome(st, [])
    case Some(i) =>
      var key := st.clients[i].0;
      var clients := Delete(st.clients, key);
      Outcome(Server(st.elements, clients, Delete(st.users, key)),
              Fanout(clients, ws, open, LeftMessage(key, now)))
  }

  /** Closing a registered connection removes exactly its first client
      entry, keeping the others in registration order. */
  lemma CloseRemovesFirstEntry(st: Server, ws: ConnId, open: set<ConnId>, now: int)
    requires Consistent(st) && FirstClientOn(st.clients, ws).Some?
    ensures var i := FirstClientOn(st.clients, ws).value;
      Close(st, ws, open, now).state.clients == st.clients[..i] + st.clients[i + 1..]
  {
    var i := FirstClientOn(st.clients, ws).value;
    DeleteKeepsOrder(st.clients, st.clients[i].0, i);
  }

  /* ---------- properties over several events ---------- */

  /** A delete applied twice leaves the list a single delete leaves. */
  lemma DeleteIsIdempotent(st: Server, ws: ConnId, m: Message, open: set<ConnId>, env: Env)
    requires m.kind == ElementDeleted
    ensures var once := Step(st, ws, m, open, env).state;
      Step(once, ws, m, open, env).state.elements == once.elements
  {
    var once := Step(st, ws, m, open, env).state;
    if !m.data.NullData? || st.elements == [] {
      KeepOthersIdempotent(st.elements, FieldId(m.data));
    }
  }

  /** A delete whose payload is a bare id string, as the client sends it,
      removes nothing: the server reads `data.id`, which a string lacks. */
  lemma BareIdDeleteRemovesNothing(st: Server, ws: ConnId, id: string, userId: string, t: int,
                                   open: set<ConnId>, env: Env)
    ensures var r := Step(st, ws, Message(ElementDeleted, TextData(id), userId, t), open, env);
      r.state == st && r.out == Fanout(st.clients, ws, open, Message(ElementDeleted, TextData(id), userId, t))
  {
    assert forall e :: e in st.elements ==> Some(e.id) != FieldId(TextData(id));
  }

  /** A join registers the connection and the user under the message's
      `userId` (replacing earlier entries), answers the joiner alone with the
      current elements and a roster that includes it, and relays the join
      to everybody else. */
  lemma JoinRegistersAndSnapshots(st: Server, ws: ConnId, m: Message, open: set<ConnId>, env: Env)
    requires m.kind == UserJoined && !m.data.NullData?
    ensures var r := Step(st, ws, m, open, env);
      Get(r.state.clients, m.userId) == Some(Client(ws, env.lastSeen)) &&
      Get(r.state.users, m.userId) == Some(Joiner(m, env)) &&
      Joiner(m, env) in Values(r.state.users) &&
      r.state.elements == st.elements &&
      r.out == [Delivery(ws, Snapshot(st.elements, r.state.users, env))] +
               Fanout(r.state.clients, ws, open, m)
  {
  }

  /** A cursor from a user the server does not know changes nothing but is
      still relayed. */
  lemma CursorFromUnknownUser(st: Server, ws: ConnId, m: Message, open: set<ConnId>, env: Env)
    requires m.kind == CursorMoved && !Has(st.users, m.userId)
    ensures Step(st, ws, m, open, env) == Outcome(st, Fanout(st.clients, ws, open, m))
  {
  }

  /** `m.set` on an absent key appends the entry. */
  lemma {:induction false} SetAbsentAppends<V>(m: Entries<V>, k: string, v: V)
    requires !Has(m, k)
    ensures Set(m, k, v) == m + [(k, v)]
  {
    if m != [] {
      SetAbsentAppends(m[1..], k, v);
      assert [m[0]] + (m[1..] + [(k, v)]) == m + [(k, v)];
    }
  }

  /** Deleting the key just appended removes exactly that entry. */
  lemma {:induction false} DeleteAppended<V>(m: Entries<V>, k: string, v: V)
    requires !Has(m, k)
    ensures Delete(m + [(k, v)], k) == m
  {
    if m == [] {
      assert Delete([(k, v)], k) == Delete([], k);
    } else {
      assert (m + [(k, v)])[1..] == m[1..] + [(k, v)];
      DeleteAppended(m[1..], k, v);
    }
  }

  /** A join under a new user id appends the connection and the user. */
  lemma JoinAppends(st: Server, ws: ConnId, m: Message, open: set<ConnId>, env: Env)
    requires Consistent(st)
    requires m.kind == UserJoined && !m.data.NullData?
    requires !Has(st.clients, m.userId)
    ensures Step(st, ws, m, open, env).state ==
      Server(st.elements, st.clients + [(m.userId, Client(ws, env.lastSeen))], st.users + [(m.userId, Joiner(m, env))])
  {
    SetAbsentAppends(st.clients, m.userId, Client(ws, env.lastSeen));
    SetAbsentAppends(st.users, m.userId, Joiner(m, env));
  }

  /** Closing the connection of the last entry, when no earlier entry uses
      it, removes that entry and its user. */
  lemma CloseLastEntry(st: Server, key: string, client: Client, user: User, open: set<ConnId>, now: int)
    requires !Has(st.clients, key) && !Has(st.users, key)
    requires FirstClientOn(st.clients, client.conn).None?
    ensures Close(Server(st.elements, st.clients + [(key, client)], st.users + [(key, user)]), client.conn, open, now).state == st
  {
    var clients := st.clients + [(key, client)];
    assert forall j :: 0 <= j < |st.clients| ==> clients[j] == st.clients[j];
    assert clients[|st.clients|].1.conn == client.conn;
    assert FirstClientOn(clients, client.conn) == Some(|st.clients|);
    DeleteAppended(st.clients, key, client);
    DeleteAppended(st.users, key, user);
  }

  /** A connection that joins under a new user id and then closes leaves
      the server's connections and roster as they were. */
  lemma JoinThenCloseRestores(st: Server, ws: ConnId, m: Message, open: set<ConnId>, env: Env, now: int)
    requires Consistent(st)
    requires m.kind == UserJoined && !m.data.NullData?
    requires !Has(st.clients, m.userId)
    requires FirstClientOn(st.clients, ws).None?
    ensures Close(Step(st, ws, m, open, env).state, ws, open, now).state == st
  {
    JoinAppends(st, ws, m, open, env);
    CloseLastEntry(st, m.userId, Client(ws, env.lastSeen), Joiner(m, env), open, now);
  }

  /** One decoded or malformed frame from a connection, with the inputs it
      reads. */
  datatype Event = Event(from: ConnId, frame: Inbound, env: Env)

  /** The events applied in arrival order; returns the final state. */
  function Run(st: Server, events: seq<Event>, open: set<ConnId>): Server
    decreases |events|
  {
    if events == [] then st
    else
      var e := events[|events| - 1];
      Receive(Run(st, events[..|events| - 1], open), e.from, e.frame, open, e.env).state
  }

  /** The elements a run of additions carries, in arrival order. */
  function AddedElements(events: seq<Event>): seq<DrawingElement>
    requires forall i :: 0 <= i < |events| ==>
      events[i].frame.Parsed? && events[i].frame.msg.data.ElementData?
    decreases |events|
  {
    if events == [] then []
    else AddedElements(events[..|events| - 1]) + [events[|events| - 1].frame.msg.data.element]
  }

  /** The canonical list is the arrival order of additions: a run of
      `element_added` messages, from any connections, appends their elements
      in the order the server received them. */
  lemma {:induction false} AdditionsKeepArrivalOrder(st: Server, events: seq<Event>, open: set<ConnId>)
    requires forall i :: 0 <= i < |events| ==>
      events[i].frame.Parsed? && events[i].frame.msg.kind == ElementAdded &&
      events[i].frame.msg.data.ElementData?
    ensures Run(st, events, open).elements == st.elements + AddedElements(events)
    decreases |events|
  {
    if events != [] {
      var init := events[..|events| - 1];
      AdditionsKeepArrivalOrder(st, init, open);
      assert st.elements + AddedElements(init) + [events[|events| - 1].frame.msg.data.element] ==
        st.elements + AddedElements(events);
    }
  }

  /** A run of events keeps the server consistent. */
  lemma {:induction false} RunKeepsConsistent(st: Server, events: seq<Event>, open: set<ConnId>)
    requires Consistent(st)
    ensures Consistent(Run(st, events, open))
    decreases |events|
  {
    if events != [] {
      RunKeepsConsistent(st, events[..|events| - 1], open);
    }
  }

  /* ---------- the server object ---------- */

  class RelayServer {
    var elements: seq<DrawingElement>
    var clients: Entries<Client>
    var users: Entries<User>
    /** Every send so far, in order. */
    var outbox: seq<Delivery>

    function State(): Server
      reads this
    {
      Server(elements, clients, users)
    }

    ghost predicate Valid()
      reads this
    {
      Consistent(State())
    }

    constructor ()
      ensures Valid() && State() == Empty && outbox == []
    {
      elements := [];
      clients := [];
      users := [];
      outbox := [];
    }

    /** `broadcast(msg, exclude)` */
    method Broadcast(msg: Message, exclude: ConnId, open: set<ConnId>)
      modifies this`outbox
      ensures outbox == old(outbox) + Fanout(clients, exclude, open, msg)
    {
      var cs := clients;
      for i := 0 to |cs|
        invariant outbox == old(outbox) + Fanout(cs[..i], exclude, open, msg)
      {
        FanoutStep(cs, i, exclude, open, msg);
        var client := cs[i].1;
        if client.conn != exclude && client.conn in open {
          outbox := outbox + [Delivery(client.conn, msg)];
        }
      }
      assert cs[..|cs|] == cs;
    }

    /** `handleMessage(ws, m)`: one case per message type. */
    method HandleMessage(ws: ConnId, m: Message, open: set<ConnId>, env: Env)
      requires Valid()
      modifies this
      ensures Valid()
      ensures State() == Step(old(State()), ws, m, open, env).state
      ensures outbox == old(outbox) + Step(old(State()), ws, m, open, env).out
    {
      match m.kind {
        case UserJoined => Join(ws, m, open, env);
        case ElementAdded => Add(ws, m, open, env);
        case ElementUpdated => Update(ws, m, open, env);
        case ElementDeleted => Remove(ws, m, open, env);
        case CursorMoved => MoveCursor(ws, m, open, env);
        case ClearCanvas =>
          elements := [];
          Broadcast(m, ws, open);
        case _ =>
      }
    }

    /** `user_joined`: register the connection and the user, send the
        snapshot to the joiner, tell the others. */
    method Join(ws: ConnId, m: Message, open: set<ConnId>, env: Env)
      requires Valid()
      modifies this
      ensures Valid()
      ensures State() == Joined(old(State()), ws, m, open, env).state
      ensures outbox == old(outbox) + Joined(old(State()), ws, m, open, env).out
    {
      var c := Set(clients, m.userId, Client(ws, env.lastSeen));
      clients := c;
      if m.data.NullData? {
        return;
      }
      var u := Set(users, m.userId, Joiner(m, env));
      users := u;
      outbox := outbox + [Delivery(ws, Snapshot(elements, u, env))];
      Broadcast(m, ws, open);
    }

    /** `element_added`: `elements.push(data)`, then relay. */
    method Add(ws: ConnId, m: Message, open: set<ConnId>, env: Env)
      requires Valid() && m.kind == ElementAdded
      modifies this
      ensures Valid()
      ensures State() == Step(old(State()), ws, m, open, env).state
      ensures outbox == old(outbox) + Step(old(State()), ws, m, open, env).out
    {
      if m.data.ElementData? {
        elements := elements + [m.data.element];
      }
      Broadcast(m, ws, open);
    }

    /** `element_updated`: merge into the first match, then relay. */
    method Update(ws: ConnId, m: Message, open: set<ConnId>, env: Env)
      requires Valid() && m.kind == ElementUpdated
      modifies this
      ensures Valid()
      ensures State() == Step(old(State()), ws, m, open, env).state
      ensures outbox == old(outbox) + Step(old(State()), ws, m, open, env).out
    {
      if m.data.NullData? && elements != [] {
        return;
      }
      var index := FirstWithId(elements, FieldId(m.data));
      if index.Some? {
        elements := elements[index.value := Merge(elements[index.value], PatchOf(m.data))];
      }
      Broadcast(m, ws, open);
    }

    /** `element_deleted`: keep the elements with another id, then relay. */
    method Remove(ws: ConnId, m: Message, open: set<ConnId>, env: Env)
      requires Valid() && m.kind == ElementDeleted
      modifies this
      ensures Valid()
      ensures State() == Step(old(State()), ws, m, open, env).state
      ensures outbox == old(outbox) + Step(old(State()), ws, m, open, env).out
    {
      if m.data.NullData? && elements != [] {
        return;
      }
      elements := KeepOthers(elements, FieldId(m.data));
      Broadcast(m, ws, open);
    }

    /** `cursor_moved`: update a known user's cursor, then relay. */
    method MoveCursor(ws: ConnId, m: Message, open: set<ConnId>, env: Env)
      requires Valid() && m.kind == CursorMoved
      modifies this
      ensures Valid()
      ensures State() == Step(old(State()), ws, m, open, env).state
      ensures outbox == old(outbox) + Step(old(State()), ws, m, open, env).out
    {
      var user := Get(users, m.userId);
      if user.Some? {
        if m.data.NullData? {
          return;
        }
        users := Set(users, m.userId, user.value.(cursor := FieldPosition(m.data)));
      }
      Broadcast(m, ws, open);
    }

    /** The message listener. */
    method OnMessage(ws: ConnId, frame: Inbound, open: set<ConnId>, env: Env)
      requires Valid()
      modifies this
      ensures Valid()
      ensures State() == Receive(old(State()), ws, frame, open, env).state
      ensures outbox == old(outbox) + Receive(old(State()), ws, frame, open, env).out
    {
      if frame.Parsed? {
        HandleMessage(ws, frame.msg, open, env);
      }
    }

    /** The scan of the close handler: the first client entry bound to the
        connection, found by a loop that stops there. */
    method FindClientOn(ws: ConnId) returns (index: Option<nat>)
      ensures index == FirstClientOn(clients, ws)
    {
      for i := 0 to |clients|
        invariant forall j :: 0 <= j < i ==> clients[j].1.conn != ws
      {
        if clients[i].1.conn == ws {
          return Some(i);
        }
      }
      return None;
    }

    /** The close handler: drop the entry the scan finds and its user, then
        tell the others. */
    method OnClose(ws: ConnId, open: set<ConnId>, now: int)
      requires Valid()
      modifies this
      ensures Valid()
      ensures State() == Close(old(State()), ws, open, now).state
      ensures outbox == old(outbox) + Close(old(State()), ws, open, now).out
    {
      var index := FindClientOn(ws);
      if index.Some? {
        var userId := clients[index.value].0;
        clients := Delete(clients, userId);
        users := Delete(users, userId);
        Broadcast(LeftMessage(userId, now), ws, open);
      }
    }
  }
}
