/**
 * The real-time relay of the chat server: the presence registry and the
 * identity rooms, the message, typing and seen handlers, the stateless
 * call-signalling relay and the initial synchronisation of a connection.
 *
 * Rooms follow the socket.io adapter: a room is named after an identity,
 * holds the ids of the connections that joined it, and disappears once its
 * last member leaves. Emits are appended to an output log; the message store
 * is an in-memory sequence of records.
 */
module Relay {
  import opened Wrappers
  import opened Protocol

  /** A connection as the handlers see it: its id and the identity the auth layer bound to it, if any. */
  datatype Socket = Socket(id: ConnId, user: Option<Profile>)

  /** A stored user record; only its profile is ever sent to a client. */
  datatype UserRecord = UserRecord(profile: Profile, password: string)

  /** Who an emit is addressed to. */
  datatype Audience =
    | Everyone                                          // io.emit
    | Rooms(names: set<UserId>, except: Option<ConnId>)  // io.to(..) or socket.to(..).to(..)
    | Own(conn: ConnId)                                 // socket.emit

  /** Outbound events with their fixed payloads. */
  datatype ServerEvent =
    | UserStatus(id: UserId, presence: Presence)
    | Relayed(message: Message)
    | Typing(sender: UserId)
    | IncomingCall(from: UserId, callerName: string)
    | Offer(sdp: Sdp, caller: UserId)
    | Answer(sdp: Sdp, callee: UserId)
    | IceCandidate(candidate: Option<Candidate>, from: UserId)
    | HangUp
    | Data(profile: Profile, contacts: seq<Profile>, messages: seq<Message>, users: map<UserId, Presence>)

  datatype Emission = Emission(to: Audience, event: ServerEvent)

  /** The five inbound call-control events; each names its addressee. */
  datatype CallSignal =
    | CallUser(recipientId: UserId, callerName: string)
    | OfferSignal(target: UserId, sdp: Sdp)
    | AnswerSignal(target: UserId, sdp: Sdp)
    | IceSignal(target: UserId, candidate: Option<Candidate>)
    | HangUpSignal(target: UserId)

  function Addressee(s: CallSignal): UserId {
    match s
    case CallUser(r, _) => r
    case OfferSignal(t, _) => t
    case AnswerSignal(t, _) => t
    case IceSignal(t, _) => t
    case HangUpSignal(t) => t
  }

  /** The identity the server stamped on a relayed call event, if it stamped one. */
  function Stamp(e: ServerEvent): Option<UserId> {
    match e
    case IncomingCall(from, _) => Some(from)
    case Offer(_, caller) => Some(caller)
    case Answer(_, callee) => Some(callee)
    case IceCandidate(_, from) => Some(from)
    case _ => None
  }

  /** What the callee can reconstruct of the inbound signal from the event it got and its own id. */
  function Unforward(target: UserId, e: ServerEvent): Option<CallSignal> {
    match e
    case IncomingCall(_, name) => Some(CallUser(target, name))
    case Offer(sdp, _) => Some(OfferSignal(target, sdp))
    case Answer(sdp, _) => Some(AnswerSignal(target, sdp))
    case IceCandidate(c, _) => Some(IceSignal(target, c))
    case HangUp => Some(HangUpSignal(target))
    case _ => None
  }

  /**
   * The relay table. The emit goes to the addressee's room only, carries the
   * inbound payload unchanged, and every event but hang-up is stamped with the
   * sender's identity.
   */
  function Forward(s: CallSignal, from: UserId): (e: Emission)
    ensures e.to == Rooms({Addressee(s)}, None)
    ensures Unforward(Addressee(s), e.event) == Some(s)
    ensures Stamp(e.event) == if s.HangUpSignal? then None else Some(from)
  {
    var event := match s
      case CallUser(_, name) => IncomingCall(from, name)
      case OfferSignal(_, sdp) => Offer(sdp, from)
      case AnswerSignal(_, sdp) => Answer(sdp, from)
      case IceSignal(_, c) => IceCandidate(c, from)
      case HangUpSignal(_) => HangUp;
    Emission(Rooms({Addressee(s)}, None), event)
  }

  function Members(rooms: map<UserId, set<ConnId>>, u: UserId): set<ConnId> {
    if u in rooms then rooms[u] else {}
  }

  /** The connections an emit to identity rooms reaches; socket.io delivers once per connection. */
  function Reached(a: Audience, rooms: map<UserId, set<ConnId>>): (r: set<ConnId>)
    requires a.Rooms?
    ensures forall c :: c in r ==> exists u :: u in a.names && c in Members(rooms, u)
    ensures forall u, c :: u in a.names && c in Members(rooms, u) && a.except != Some(c) ==> c in r
    ensures a.except.Some? ==> a.except.value !in r
  {
    (set u, c | u in a.names && c in Members(rooms, u) :: c) - (if a.except.Some? then {a.except.value} else {})
  }

  /**
   * A relayed message reaches every connection of the receiver and every
   * other connection of the sender, and never the connection it came from.
   */
  lemma MessageReach(rooms: map<UserId, set<ConnId>>, c: ConnId, sender: UserId, receiver: UserId)
    ensures Reached(Rooms({receiver, sender}, Some(c)), rooms) == (Members(rooms, receiver) + Members(rooms, sender)) - {c}
  {
  }

  /** The adapter's leave-all on disconnect: `c` leaves every room, and rooms left empty disappear. */
  function LeaveAll(rooms: map<UserId, set<ConnId>>, c: ConnId): (r: map<UserId, set<ConnId>>)
    ensures forall u :: u in r <==> u in rooms && rooms[u] - {c} != {}
    ensures forall u :: u in r ==> r[u] == rooms[u] - {c}
  {
    map u | u in rooms && rooms[u] - {c} != {} :: rooms[u] - {c}
  }

  /** `io.sockets.adapter.rooms[id]`: the room named after `u`, if it exists. */
  function RoomLookup(rooms: map<UserId, set<ConnId>>, u: UserId): Option<set<ConnId>> {
    if u in rooms then Some(rooms[u]) else None
  }

  /** The connect-time test: no room, or a room of exactly one connection. */
  predicate FirstConnection(room: Option<set<ConnId>>) {
    room.None? || |room.value| == 1
  }

  /** The disconnect-time test: no room, or a room of fewer than one connection. */
  predicate LastConnectionGone(room: Option<set<ConnId>>) {
    room.None? || |room.value| < 1
  }

  predicate Pending(m: Message, sender: UserId, receiver: UserId) {
    m.sender == sender && m.receiver == receiver && !m.seen
  }

  /** The bulk update `{sender, receiver, seen: false}` to `{seen: true}` over the store. */
  function MarkSeen(store: seq<Message>, sender: UserId, receiver: UserId): (r: seq<Message>)
    ensures |r| == |store|
    ensures forall i :: 0 <= i < |store| ==>
      r[i] == if Pending(store[i], sender, receiver) then store[i].(seen := true) else store[i]
  {
    if store == [] then []
    else
      var m := store[0];
      [if Pending(m, sender, receiver) then m.(seen := true) else m] + MarkSeen(store[1..], sender, receiver)
  }

  /** The profiles of a user collection, in order. */
  function Profiles(db: seq<UserRecord>): (r: seq<Profile>)
    ensures |r| == |db|
    ensures forall i :: 0 <= i < |db| ==> r[i] == db[i].profile
  {
    if db == [] then [] else [db[0].profile] + Profiles(db[1..])
  }

  /** The `getUsers` query: the profile of every user but `u`, without passwords. */
  function GetUsers(db: seq<UserRecord>, u: UserId): (r: seq<Profile>)
    ensures forall p :: p in r ==> p.id != u
    ensures forall p :: p in r ==> exists i :: 0 <= i < |db| && db[i].profile == p
    ensures forall i :: 0 <= i < |db| && db[i].profile.id != u ==> db[i].profile in r
    ensures |r| <= |db|
  {
    if db == [] then []
    else
      var rest := GetUsers(db[1..], u);
      assert forall p :: p in rest ==> exists i :: 0 <= i < |db| && db[i].profile == p by {
        forall p | p in rest ensures exists i :: 0 <= i < |db| && db[i].profile == p {
          var j :| 0 <= j < |db[1..]| && db[1..][j].profile == p;
          assert db[j + 1].profile == p;
        }
      }
      if db[0].profile.id != u then [db[0].profile] + rest else rest
  }

  /** `getUsers` returns each other user exactly as often as the collection holds it, and the caller never. */
  lemma {:induction false} GetUsersCounts(db: seq<UserRecord>, u: UserId)
    ensures forall p :: multiset(GetUsers(db, u))[p] == if p.id != u then multiset(Profiles(db))[p] else 0
  {
    if db != [] {
      GetUsersCounts(db[1..], u);
      assert multiset(Profiles(db)) == multiset{db[0].profile} + multiset(Profiles(db[1..]));
    }
  }

  /** The relay process: the module-level `users` map, the adapter's rooms, the store and the output. */
  class Server {
    /** Presence registry: `true` or the last-seen time, per identity. */
    var users: map<UserId, Presence>
    /** Identity rooms of the socket.io adapter. */
    var rooms: map<UserId, set<ConnId>>
    /** The persisted messages. */
    var store: seq<Message>
    /** Every emit, in order. */
    var out: seq<Emission>
    /** Connections the server forced closed. */
    var closed: set<ConnId>

    /**
     * Rooms are never empty, and an identity is online in the registry
     * exactly when it has a room.
     */
    ghost predicate Valid()
      reads this`users, this`rooms
    {
      && (forall u :: u in rooms ==> rooms[u] != {})
      && (forall u :: u in rooms <==> u in users && users[u] == Online)
    }

    constructor ()
      ensures Valid()
      ensures users == map[] && rooms == map[] && store == [] && out == [] && closed == {}
    {
      users, rooms, store, out, closed := map[], map[], [], [], {};
    }

    /** The connection has joined no room but its own identity's. */
    predicate JoinedOnlyOwnRoom(socket: Socket)
      reads this`rooms
    {
      forall u :: u in rooms && socket.id in rooms[u] ==> socket.user.Some? && socket.user.value.id == u
    }

    /** `onSocketConnected`: join the identity room, mark online, announce a first connection. */
    method OnSocketConnected(socket: Socket)
      requires Valid()
      modifies this`users, this`rooms, this`out
      ensures Valid()
      ensures socket.user.None? ==> users == old(users) && rooms == old(rooms) && out == old(out)
      ensures socket.user.Some? ==>
        var u := socket.user.value.id;
        && rooms == old(rooms)[u := Members(old(rooms), u) + {socket.id}]
        && users == old(users)[u := Online]
        && out == old(out) + (if FirstConnection(RoomLookup(rooms, u)) then [Emission(Everyone, UserStatus(u, Online))] else [])
      ensures socket.user.Some? && socket.id !in Members(old(rooms), socket.user.value.id) ==>
        (out != old(out) <==> socket.user.value.id !in old(rooms))
    {
      if socket.user.None? {
        return;
      }
      var u := socket.user.value.id;
      rooms := rooms[u := Members(rooms, u) + {socket.id}];
      users := users[u := Online];
      var room := RoomLookup(rooms, u);
      if FirstConnection(room) {
        out := out + [Emission(Everyone, UserStatus(u, Online))];
      }
      if socket.id !in Members(old(rooms), u) && u in old(rooms) {
        assert old(rooms)[u] != {};
        assert |rooms[u]| == |old(rooms)[u]| + 1;
      }
    }

    /**
     * A transport close: the adapter removes the connection from its rooms,
     * then `onSocketDisconnected` records the last-seen time and announces it
     * when no connection of the identity remains.
     */
    method OnSocketDisconnected(socket: Socket, now: int)
      requires Valid() && JoinedOnlyOwnRoom(socket)
      modifies this`users, this`rooms, this`out
      ensures Valid()
      ensures rooms == LeaveAll(old(rooms), socket.id)
      ensures socket.user.None? ==> rooms == old(rooms) && users == old(users) && out == old(out)
      ensures socket.user.Some? ==>
        var u := socket.user.value.id;
        if LastConnectionGone(RoomLookup(rooms, u)) then
          users == old(users)[u := LastSeen(now)] && out == old(out) + [Emission(Everyone, UserStatus(u, LastSeen(now)))]
        else
          users == old(users) && out == old(out)
      ensures socket.user.Some? ==> (out != old(out) <==> Members(old(rooms), socket.user.value.id) <= {socket.id})
    {
      rooms := LeaveAll(rooms, socket.id);
      if socket.user.None? {
        assert forall u :: u in old(rooms) ==> socket.id !in old(rooms)[u] && old(rooms)[u] - {socket.id} == old(rooms)[u];
        assert rooms == old(rooms);
        return;
      }
      var u := socket.user.value.id;
      var room := RoomLookup(rooms, u);
      if LastConnectionGone(room) {
        users := users[u := LastSeen(now)];
        out := out + [Emission(Everyone, UserStatus(u, LastSeen(now)))];
      }
    }

    /** `onMessage`: build the record, issue the store write, relay to both rooms but the sending connection. */
    method OnMessage(socket: Socket, receiver: UserId, content: string, now: int, writeOk: bool)
      modifies this`store, this`out
      ensures socket.user.None? ==> store == old(store) && out == old(out)
      ensures socket.user.Some? ==>
        var m := Message(socket.user.value.id, receiver, content, now, false);
        && store == old(store) + (if writeOk then [m] else [])
        && out == old(out) + [Emission(Rooms({receiver, socket.user.value.id}, Some(socket.id)), Relayed(m))]
    {
      if socket.user.None? {
        return;
      }
      var sender := socket.user.value.id;
      var m := Message(sender, receiver, content, now, false);
      if writeOk {
        store := store + [m];
      }
      out := out + [Emission(Rooms({receiver, sender}, Some(socket.id)), Relayed(m))];
    }

    /** `onTyping`: only the sender's id, only to the receiver's room. */
    method OnTyping(socket: Socket, receiver: UserId)
      modifies this`out
      ensures socket.user.None? ==> out == old(out)
      ensures socket.user.Some? ==>
        out == old(out) + [Emission(Rooms({receiver}, Some(socket.id)), Typing(socket.user.value.id))]
    {
      if socket.user.None? {
        return;
      }
      out := out + [Emission(Rooms({receiver}, Some(socket.id)), Typing(socket.user.value.id))];
    }

    /** `onSeen`: the caller has read every unseen message `sender` sent it. */
    method OnSeen(socket: Socket, sender: UserId, writeOk: bool)
      modifies this`store
      ensures socket.user.None? || !writeOk ==> store == old(store)
      ensures socket.user.Some? && writeOk ==> store == MarkSeen(old(store), sender, socket.user.value.id)
    {
      if socket.user.None? {
        return;
      }
      if writeOk {
        store := MarkSeen(store, sender, socket.user.value.id);
      }
    }

    /** The `callUser`, `offer`, `answer`, `iceCandidate` and `hangUp` handlers. */
    method OnCallSignal(socket: Socket, s: CallSignal)
      modifies this`out
      ensures socket.user.None? ==> out == old(out)
      ensures socket.user.Some? ==> out == old(out) + [Forward(s, socket.user.value.id)]
    {
      if socket.user.None? {
        return;
      }
      out := out + [Forward(s, socket.user.value.id)];
    }

    /**
     * `initialData`: one `data` emit to the connection, or, when a read fails,
     * a forced close. The close runs the adapter's leave-all and then the
     * `disconnect` handler at once, exactly as a transport close does.
     */
    method InitialData(socket: Socket, db: seq<UserRecord>, readOk: bool, now: int)
      requires Valid() && JoinedOnlyOwnRoom(socket)
      modifies this`users, this`rooms, this`out, this`closed
      ensures Valid()
      ensures socket.user.None? ==> users == old(users) && rooms == old(rooms) && out == old(out) && closed == old(closed)
      ensures socket.user.Some? && readOk ==>
        var user := socket.user.value;
        && users == old(users) && rooms == old(rooms) && closed == old(closed)
        && out == old(out) + [Emission(Own(socket.id), Data(user, GetUsers(db, user.id), Conversation(store, user.id), users))]
      ensures socket.user.Some? && !readOk ==>
        var u := socket.user.value.id;
        && closed == old(closed) + {socket.id}
        && rooms == LeaveAll(old(rooms), socket.id)
        && if LastConnectionGone(RoomLookup(rooms, u)) then
             users == old(users)[u := LastSeen(now)] && out == old(out) + [Emission(Everyone, UserStatus(u, LastSeen(now)))]
           else
             users == old(users) && out == old(out)
    {
      if socket.user.None? {
        return;
      }
      var user := socket.user.value;
      if readOk {
        var messages := Conversation(store, user.id);
        var contacts := GetUsers(db, user.id);
        out := out + [Emission(Own(socket.id), Data(user, contacts, messages, users))];
      } else {
        closed := closed + {socket.id};
        OnSocketDisconnected(socket, now);
      }
    }

    /**
     * The `connection` handler: register the connection, then send the
     * initial data, whose presence snapshot already shows the identity online.
     * When the reads fail the connection is closed again: it ends in no room,
     * and an identity that had no other connection is announced online and
     * then last seen.
     */
    method OnConnection(socket: Socket, db: seq<UserRecord>, readOk: bool, now: int)
      requires Valid() && JoinedOnlyOwnRoom(socket)
      modifies this`users, this`rooms, this`out, this`closed
      ensures Valid()
      ensures socket.user.None? ==> users == old(users) && rooms == old(rooms) && out == old(out) && closed == old(closed)
      ensures socket.user.Some? && readOk ==>
        var user := socket.user.value;
        var joined := old(rooms)[user.id := Members(old(rooms), user.id) + {socket.id}];
        && rooms == joined
        && users == old(users)[user.id := Online]
        && closed == old(closed)
        && out == old(out)
                  + (if FirstConnection(RoomLookup(joined, user.id)) then [Emission(Everyone, UserStatus(user.id, Online))] else [])
                  + [Emission(Own(socket.id), Data(user, GetUsers(db, user.id), Conversation(store, user.id), users))]
      ensures socket.user.Some? && !readOk ==>
        var u := socket.user.value.id;
        && rooms == LeaveAll(old(rooms)[u := Members(old(rooms), u) + {socket.id}], socket.id)
        && closed == old(closed) + {socket.id}
        && (forall v :: v in rooms ==> socket.id !in rooms[v])
      ensures socket.user.Some? && !readOk && Members(old(rooms), socket.user.value.id) <= {socket.id} ==>
        var u := socket.user.value.id;
        && users == old(users)[u := LastSeen(now)]
        && out == old(out) + [Emission(Everyone, UserStatus(u, Online)), Emission(Everyone, UserStatus(u, LastSeen(now)))]
      ensures socket.user.Some? && !readOk && !(Members(old(rooms), socket.user.value.id) <= {socket.id}) ==>
        users == old(users) && out == old(out)
    {
      OnSocketConnected(socket);
      if socket.user.None? {
        InitialData(socket, db, readOk, now);
        return;
      }
      var u := socket.user.value.id;
      assert rooms[u] == Members(old(rooms), u) + {socket.id};
      ghost var r0, users0 := rooms, users;
      InitialData(socket, db, readOk, now);
      if !readOk {
        if Members(old(rooms), u) <= {socket.id} {
          assert r0[u] == {socket.id};
          assert u !in rooms;
        } else {
          var c :| c in Members(old(rooms), u) && c != socket.id;
          assert c in r0[u] - {socket.id};
          assert u in rooms;
          assert users0 == old(users);
        }
      }
    }
  }

  /**
   * Two connections of one identity open and close: exactly one online
   * announcement (first connect) and one last-seen announcement (last
   * disconnect), whatever happens in between.
   */
  method PresenceScenario(u: Profile, c1: ConnId, c2: ConnId, t1: int, t2: int) returns (log: seq<Emission>)
    requires c1 != c2
    ensures log == [Emission(Everyone, UserStatus(u.id, Online)), Emission(Everyone, UserStatus(u.id, LastSeen(t2)))]
  {
    var s := new Server();
    s.OnSocketConnected(Socket(c1, Some(u)));
    s.OnSocketConnected(Socket(c2, Some(u)));
    s.OnSocketDisconnected(Socket(c1, Some(u)), t1);
    s.OnSocketDisconnected(Socket(c2, Some(u)), t2);
    log := s.out;
  }

  /**
   * `a` has connections `a1`, `a2`, `b` has `b1`; a message sent on `a1`
   * reaches `a2` and `b1` once each, is stored unseen, and never returns to `a1`.
   */
  method MessageScenario(a: Profile, b: Profile, a1: ConnId, a2: ConnId, b1: ConnId, now: int)
    returns (reached: set<ConnId>, stored: seq<Message>)
    requires a.id != b.id && a1 != a2 && a1 != b1 && a2 != b1
    ensures reached == {a2, b1}
    ensures stored == [Message(a.id, b.id, "hi", now, false)]
  {
    var s := new Server();
    s.OnSocketConnected(Socket(a1, Some(a)));
    s.OnSocketConnected(Socket(a2, Some(a)));
    s.OnSocketConnected(Socket(b1, Some(b)));
    s.OnMessage(Socket(a1, Some(a)), b.id, "hi", now, true);
    var e := s.out[|s.out| - 1];
    MessageReach(s.rooms, a1, a.id, b.id);
    reached := Reached(e.to, s.rooms);
    stored := s.store;
  }
}
