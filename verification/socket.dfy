/** The client's connection hook (src/hooks/useWebSocket.ts): the join
    message sent when the socket opens, the roster of users kept from
    `user_joined`/`user_left` messages, and `sendMessage`, which stamps the
    local user id and the time on every outgoing message.

    Opening, reconnecting and closing the WebSocket are not modelled; the
    hook's `wsRef.current` is reduced to whether a socket exists, and every
    frame handed to the socket is recorded, in order, in `sent`. The random
    colour of a roster entry and the clock are parameters. */
module Socket {
  import opened Wrappers
  import opened Types

  /* ---------- the join message ---------- */

  /** `User ${userId.slice(0, 6)}` */
  function JoinName(userId: string): (name: string)
    ensures |name| == 5 + (if |userId| < 6 then |userId| else 6)
    ensures name[..5] == "User "
    ensures name[5..] <= userId
  {
    "User " + userId[..if |userId| < 6 then |userId| else 6]
  }

  /** The message `onopen` sends: it announces the local user under its own
      id, with a name made from the id. */
  function JoinMessage(userId: string, now: int): (m: Message)
    ensures m.kind == UserJoined && m.userId == userId && m.timestamp == now
    ensures FieldUserId(m.data) == Some(userId) && FieldName(m.data) == Some(JoinName(userId))
  {
    Message(UserJoined, UserData(Some(userId), Some(JoinName(userId))), userId, now)
  }

  /* ---------- the roster ---------- */

  /** No two roster entries share an id. */
  predicate UniqueIds(us: seq<User>) {
    forall i, j :: 0 <= i < j < |us| ==> us[i].id != us[j].id
  }

  /** `users.find(u => u.id === id)` found something. */
  function Listed(us: seq<User>, id: string): (r: bool)
    ensures r <==> exists i :: 0 <= i < |us| && us[i].id == id
  {
    if us == [] then false else us[0].id == id || Listed(us[1..], id)
  }

  /** `users.filter(u => u.id !== id)` */
  function DropUser(us: seq<User>, id: string): (r: seq<User>)
    ensures forall u :: u in r <==> u in us && u.id != id
    ensures (forall i :: 0 <= i < |us| ==> us[i].id != id) ==> r == us
    ensures UniqueIds(us) ==> UniqueIds(r)
  {
    if us == [] then []
    else if us[0].id != id then [us[0]] + DropUser(us[1..], id)
    else DropUser(us[1..], id)
  }

  /** Filtering distributes over concatenation, so the kept users stay in
      their order. */
  lemma {:induction false} DropUserAppend(a: seq<User>, b: seq<User>, id: string)
    ensures DropUser(a + b, id) == DropUser(a, id) + DropUser(b, id)
  {
    if a == [] {
      assert a + b == b;
    } else {
      assert (a + b)[1..] == a[1..] + b;
      DropUserAppend(a[1..], b, id);
    }
  }

  /** The roster after a message, and whether the reducer built a new list
      (React re-renders, and the store copies the roster, only then). */
  datatype RosterChange = RosterChange(users: seq<User>, newList: bool)

  /** The reducer passed to `setUsers` in `onmessage`. A join whose data has
      both `userId` and `name` adds an entry for an id not yet listed; a
      leave whose data has `userId` filters that id out; anything else,
      including a payload that is not an object, leaves the roster as it
      is. */
  function RosterAfter(prev: seq<User>, m: Message, color: string): (r: RosterChange)
    ensures UniqueIds(prev) ==> UniqueIds(r.users)
    ensures !r.newList ==> r.users == prev
    ensures m.kind !in {UserJoined, UserLeft} ==> r == RosterChange(prev, false)
    ensures m.kind == UserJoined ==> |prev| <= |r.users| <= |prev| + 1 && r.users[..|prev|] == prev
    ensures m.kind == UserLeft ==> forall u :: u in r.users ==> u in prev
  {
    match m.kind
    case UserJoined =>
      if FieldUserId(m.data).Some? && FieldName(m.data).Some? then
        var id := FieldUserId(m.data).value;
        if Listed(prev, id) then RosterChange(prev, false)
        else RosterChange(prev + [User(id, FieldName(m.data), color, None, None)], true)
      else RosterChange(prev, false)
    case UserLeft =>
      if FieldUserId(m.data).Some? then RosterChange(DropUser(prev, FieldUserId(m.data).value), true)
      else RosterChange(prev, false)
    case _ =>
      RosterChange(prev, false)
  }

  /** A join for an unlisted id appends exactly one entry, with the sent
      name, the local colour and no cursor; a join for a listed id changes
      nothing. */
  lemma JoinAddsUnlistedUser(prev: seq<User>, id: string, name: string, sender: string, t: int, color: string)
    ensures var r := RosterAfter(prev, Message(UserJoined, UserData(Some(id), Some(name)), sender, t), color);
      if Listed(prev, id) then r == RosterChange(prev, false)
      else r == RosterChange(prev + [User(id, Some(name), color, None, None)], true)
  {
  }

  /** A leave removes every entry with that id and keeps the others in
      order. */
  lemma LeaveDropsUser(prev: seq<User>, m: Message, color: string)
    requires m.kind == UserLeft && FieldUserId(m.data).Some?
    ensures var r := RosterAfter(prev, m, color).users;
      r == DropUser(prev, FieldUserId(m.data).value) &&
      forall u :: u in r <==> u in prev && u.id != FieldUserId(m.data).value
  {
  }

  /** A join whose payload lacks `userId` or `name`, and a leave whose
      payload lacks `userId`, leave the roster unchanged. */
  lemma IncompletePayloadKeepsRoster(prev: seq<User>, m: Message, color: string)
    requires (m.kind == UserJoined && (FieldUserId(m.data).None? || FieldName(m.data).None?)) ||
             (m.kind == UserLeft && FieldUserId(m.data).None?)
    ensures RosterAfter(prev, m, color) == RosterChange(prev, false)
  {
  }

  /** What one client announces on connecting is what another client's
      roster learns from the relayed join: the announcing user, under its
      name, appended once. */
  lemma JoinMessageIsUnderstood(prev: seq<User>, userId: string, now: int, color: string)
    requires !Listed(prev, userId)
    ensures RosterAfter(prev, JoinMessage(userId, now), color).users ==
      prev + [User(userId, Some(JoinName(userId)), color, None, None)]
  {
  }

  /** A join and then a leave of a new id give back the roster. */
  lemma {:induction false} JoinThenLeave(prev: seq<User>, userId: string, now: int, color: string, leave: Message)
    requires !Listed(prev, userId)
    requires leave.kind == UserLeft && FieldUserId(leave.data) == Some(userId)
    ensures RosterAfter(RosterAfter(prev, JoinMessage(userId, now), color).users, leave, color).users == prev
  {
    var joiner := User(userId, Some(JoinName(userId)), color, None, None);
    DropUserAppend(prev, [joiner], userId);
    assert DropUser([joiner], userId) == [];
    assert prev + [] == prev;
  }

  /* ---------- the hook's state ---------- */

  class Socket {
    /** The local user's id, fixed for the hook's life. */
    const userId: string
    /** `wsRef.current` is set. */
    var hasSocket: bool
    var isConnected: bool
    var roster: seq<User>
    /** Every frame handed to the socket, in order. */
    var sent: seq<Message>

    /** `isConnected` starts true and nothing ever sets it false, so the
        guard of `sendMessage` only asks whether a socket exists. */
    ghost predicate Valid()
      reads this
    {
      isConnected && UniqueIds(roster)
    }

    constructor (userId: string)
      ensures Valid()
      ensures this.userId == userId && !hasSocket && roster == [] && sent == []
    {
      this.userId := userId;
      hasSocket := false;
      isConnected := true;
      roster := [];
      sent := [];
    }

    /** `connect`: a new WebSocket is stored in `wsRef`. */
    method Connect()
      requires Valid()
      modifies this`hasSocket
      ensures Valid() && hasSocket
    {
      hasSocket := true;
    }

    /** `onopen`: mark connected and announce the local user. The join is
        handed to the socket directly, not through `sendMessage`. */
    method OnOpen(now: int)
      requires Valid()
      modifies this`isConnected, this`sent
      ensures Valid()
      ensures sent == old(sent) + [JoinMessage(userId, now)]
    {
      isConnected := true;
      sent := sent + [JoinMessage(userId, now)];
    }

    /** `sendMessage`: when a socket exists and the hook is connected, send
        the message stamped with the local user id and the time; otherwise
        drop it. */
    method SendMessage(kind: MsgType, data: Data, now: int) returns (delivered: bool)
      requires Valid()
      modifies this`sent
      ensures delivered == hasSocket
      ensures delivered ==> sent == old(sent) + [Message(kind, data, userId, now)]
      ensures !delivered ==> sent == old(sent)
    {
      delivered := hasSocket && isConnected;
      if delivered {
        sent := sent + [Message(kind, data, userId, now)];
      }
    }

    /** The roster update of `onmessage`; returns whether the reducer built
        a new list. */
    method UpdateRoster(m: Message, color: string) returns (newList: bool)
      requires Valid()
      modifies this`roster
      ensures Valid()
      ensures roster == RosterAfter(old(roster), m, color).users
      ensures newList == RosterAfter(old(roster), m, color).newList
    {
      var r := RosterAfter(roster, m, color);
      roster := r.users;
      newList := r.newList;
    }
  }
}
