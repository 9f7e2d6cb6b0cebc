/** The real-time hub: the handshake that admits a connection, the rooms
    each admitted connection joins, the connections an emission reaches,
    and the event handlers. Delivery is sequential: emitting computes the
    set of recipient connections. */
module SocketHub {
  import opened Types
  import opened UserModel
  import opened Events
  import LocationController

  type ConnId = nat

  const NoTokenMessage := "Authentication error: No token provided"
  const InvalidTokenMessage := "Authentication error: Invalid token"
  const InvalidUserMessage := "Authentication error: Invalid user"
  const CourierOnlyMessage := "Seuls les coursiers peuvent envoyer leur position"
  const UnauthorisedMessage := "Non autorisé"

  // ---------------------------------------------------------------
  // Handshake

  /** What a client presents: `auth.token` and the `Authorization` header. */
  datatype Handshake = Handshake(authToken: Option<string>, authorization: Option<string>)

  /** `i` is the first space of `h` and `j` ends the word after it. */
  predicate SecondWordAt(h: string, i: int, j: int)
  {
    && 0 <= i < j <= |h| && h[i] == ' ' && (j == |h| || h[j] == ' ')
    && (forall k :: 0 <= k < i ==> h[k] != ' ')
    && (forall k :: i < k < j ==> h[k] != ' ')
  }

  /** `h.split(' ')[1]`: the text between the first and the second space
      (or the end), or nothing when `h` has no space. */
  function SecondWord(h: string): (r: Option<string>)
    ensures r.None? <==> forall k :: 0 <= k < |h| ==> h[k] != ' '
    ensures r.Some? ==> exists i, j :: SecondWordAt(h, i, j) && r.value == h[i + 1..j]
  {
    match FindFrom(h, ' ', 0)
    case None => None
    case Some(i) =>
      var j := match FindFrom(h, ' ', i + 1) case None => |h| case Some(j) => j;
      assert SecondWordAt(h, i, j);
      Some(h[i + 1..j])
  }

  /** The token the handshake carries, or "" when it carries none: a
      non-empty `auth.token` wins, otherwise the header's second word. */
  function HandshakeToken(hs: Handshake): (r: string)
    ensures hs.authToken.Some? && hs.authToken.value != "" ==> r == hs.authToken.value
    ensures (hs.authToken == None || hs.authToken == Some("")) && hs.authorization.None? ==> r == ""
    ensures (hs.authToken == None || hs.authToken == Some("")) && hs.authorization.Some? ==>
              r == (match SecondWord(hs.authorization.value) case None => "" case Some(w) => w)
  {
    if hs.authToken.Some? && hs.authToken.value != "" then hs.authToken.value
    else match hs.authorization
      case None => ""
      case Some(h) => match SecondWord(h) case None => "" case Some(w) => w
  }

  datatype Admission = Admitted(user: PublicUser) | Refused(reason: string)

  /** socketAuth. `decode` stands for verifying the token's signature and
      expiry and reading the user id it carries; `None` is a token that
      does not verify. The admitted identity is the stored record at
      connection time, password stripped. */
  function Authenticate(users: map<Id, User>, hs: Handshake, decode: string -> Option<Id>): (r: Admission)
    ensures r == Refused(NoTokenMessage) <==> HandshakeToken(hs) == ""
    ensures r == Refused(InvalidTokenMessage) <==>
              HandshakeToken(hs) != "" && decode(HandshakeToken(hs)).None?
    ensures r == Refused(InvalidUserMessage) <==>
              && HandshakeToken(hs) != "" && decode(HandshakeToken(hs)).Some?
              && var id := decode(HandshakeToken(hs)).value;
              && (id !in users || !users[id].isActive)
    ensures r.Admitted? <==>
              && HandshakeToken(hs) != "" && decode(HandshakeToken(hs)).Some?
              && var id := decode(HandshakeToken(hs)).value;
              && id in users && users[id].isActive
    ensures r.Admitted? ==> r.user == ToJSON(users[decode(HandshakeToken(hs)).value])
  {
    var token := HandshakeToken(hs);
    if token == "" then Refused(NoTokenMessage)
    else match decode(token)
      case None => Refused(InvalidTokenMessage)
      case Some(id) =>
        if id !in users || !users[id].isActive then Refused(InvalidUserMessage)
        else Admitted(ToJSON(users[id]))
  }

  // ---------------------------------------------------------------
  // Rooms and delivery

  /** The rooms a connection of `u` joins: its own and its role's. */
  function RoomsOf(u: PublicUser): (r: set<Room>)
    ensures |r| == 2
    ensures forall room :: room in r <==> room == UserRoom(u.id) || room == RoleRoom(u.role)
  {
    var r := {UserRoom(u.id), RoleRoom(u.role)};
    assert r == {UserRoom(u.id)} + {RoleRoom(u.role)};
    r
  }

  function Members(rooms: map<Room, set<ConnId>>, room: Room): set<ConnId>
  {
    if room in rooms then rooms[room] else {}
  }

  /** The registry is consistent: a connection is in a room exactly when
      it is live and the room is one of its two. */
  ghost predicate Wired(sockets: map<ConnId, PublicUser>, rooms: map<Room, set<ConnId>>)
  {
    forall c, room :: c in Members(rooms, room) <==> c in sockets && room in RoomsOf(sockets[c])
  }

  /** The connections an audience reaches. */
  function Deliver(sockets: map<ConnId, PublicUser>, rooms: map<Room, set<ConnId>>,
                   a: Audience, sender: ConnId): (r: set<ConnId>)
    ensures r <= sockets.Keys
    ensures a.ToEveryone? ==> r == sockets.Keys
    ensures a.ToOthers? ==> sender !in r
  {
    match a
    case ToRooms(rs) => set c | c in sockets && exists room :: room in rs && c in Members(rooms, room)
    case ToEveryone => sockets.Keys
    case ToSender => if sender in sockets then {sender} else {}
    case ToOthers => sockets.Keys - {sender}
  }

  /** What each audience reaches in a consistent registry: a set of
      rooms reaches exactly the live connections that belong to one of
      them, `broadcast` every live connection but the sender, and a reply
      the sender alone while it is live. */
  lemma {:induction false} DeliverReaches(sockets: map<ConnId, PublicUser>, rooms: map<Room, set<ConnId>>,
                                          a: Audience, sender: ConnId)
    requires Wired(sockets, rooms)
    ensures a.ToOthers? ==> Deliver(sockets, rooms, a, sender) == sockets.Keys - {sender}
    ensures a.ToSender? ==> Deliver(sockets, rooms, a, sender) == (if sender in sockets then {sender} else {})
    ensures a.ToRooms? ==> forall c :: c in Deliver(sockets, rooms, a, sender) <==>
                                       c in sockets && RoomsOf(sockets[c]) * a.rooms != {}
  {
    if a.ToRooms? {
      forall c | c in sockets && RoomsOf(sockets[c]) * a.rooms != {}
        ensures c in Deliver(sockets, rooms, a, sender)
      {
        var room :| room in RoomsOf(sockets[c]) * a.rooms;
        assert c in Members(rooms, room);
      }
      forall c | c in Deliver(sockets, rooms, a, sender)
        ensures RoomsOf(sockets[c]) * a.rooms != {}
      {
        var room :| room in a.rooms && c in Members(rooms, room);
        assert room in RoomsOf(sockets[c]) * a.rooms;
      }
    }
  }

  /** Each live connection is in exactly two rooms, `user_<id>` and
      `role_<role>`, and these are distinct. */
  lemma {:induction false} ExactlyTwoRooms(sockets: map<ConnId, PublicUser>, rooms: map<Room, set<ConnId>>, c: ConnId)
    requires Wired(sockets, rooms) && c in sockets
    ensures forall room :: c in Members(rooms, room) <==>
                           room == UserRoom(sockets[c].id) || room == RoleRoom(sockets[c].role)
    ensures UserRoom(sockets[c].id) != RoleRoom(sockets[c].role)
  {
    forall room
      ensures c in Members(rooms, room) <==> room == UserRoom(sockets[c].id) || room == RoleRoom(sockets[c].role)
    {
      assert c in Members(rooms, room) <==> room in RoomsOf(sockets[c]);
    }
  }

  /** The supervisor channels reach exactly the live admin and
      dispatcher connections. */
  lemma {:induction false} SupervisorsAreAdminsAndDispatchers(sockets: map<ConnId, PublicUser>,
                                                              rooms: map<Room, set<ConnId>>, sender: ConnId)
    requires Wired(sockets, rooms)
    ensures forall c :: c in Deliver(sockets, rooms, ToRooms(Supervisors), sender) <==>
                        c in sockets && (sockets[c].role == Admin || sockets[c].role == Dispatcher)
  {
    forall c | c in sockets && (sockets[c].role == Admin || sockets[c].role == Dispatcher)
      ensures c in Deliver(sockets, rooms, ToRooms(Supervisors), sender)
    {
      var room := RoleRoom(sockets[c].role);
      assert room in RoomsOf(sockets[c]);
      assert room in Supervisors && c in Members(rooms, room);
    }
    forall c | c in Deliver(sockets, rooms, ToRooms(Supervisors), sender)
      ensures sockets[c].role == Admin || sockets[c].role == Dispatcher
    {
      var room :| room in Supervisors && c in Members(rooms, room);
      assert room in RoomsOf(sockets[c]);
    }
  }

  /** A user's own channel reaches exactly the live connections of that
      identity, on every device it is connected from. */
  lemma {:induction false} UserRoomIsThatUser(sockets: map<ConnId, PublicUser>,
                                              rooms: map<Room, set<ConnId>>, u: Id, sender: ConnId)
    requires Wired(sockets, rooms)
    ensures forall c :: c in Deliver(sockets, rooms, ToRooms({UserRoom(u)}), sender) <==>
                        c in sockets && sockets[c].id == u
  {
    forall c | c in sockets && sockets[c].id == u
      ensures c in Deliver(sockets, rooms, ToRooms({UserRoom(u)}), sender)
    {
      assert UserRoom(u) in RoomsOf(sockets[c]);
    }
    forall c | c in Deliver(sockets, rooms, ToRooms({UserRoom(u)}), sender)
      ensures sockets[c].id == u
    {
      assert c in Members(rooms, UserRoom(u));
      assert UserRoom(u) in RoomsOf(sockets[c]);
    }
  }

  /** `socket.join` of both of `u`'s rooms by connection `c`. */
  function JoinBoth(rooms: map<Room, set<ConnId>>, c: ConnId, u: PublicUser): (r: map<Room, set<ConnId>>)
    ensures forall room :: Members(r, room) == Members(rooms, room) + (if room in RoomsOf(u) then {c} else {})
  {
    var own := UserRoom(u.id);
    var role := RoleRoom(u.role);
    var once := rooms[own := Members(rooms, own) + {c}];
    once[role := Members(once, role) + {c}]
  }

  /** Connection `c` leaves every room. */
  function LeaveAll(rooms: map<Room, set<ConnId>>, c: ConnId): (r: map<Room, set<ConnId>>)
    ensures forall room :: Members(r, room) == Members(rooms, room) - {c}
  {
    map room | room in rooms :: rooms[room] - {c}
  }

  /** Admitting a new connection into its two rooms keeps the registry
      consistent. */
  lemma {:induction false} ConnectKeepsWired(sockets: map<ConnId, PublicUser>, rooms: map<Room, set<ConnId>>,
                                             c: ConnId, u: PublicUser)
    requires Wired(sockets, rooms) && c !in sockets
    ensures Wired(sockets[c := u], JoinBoth(rooms, c, u))
  {
    var s := sockets[c := u];
    var m := JoinBoth(rooms, c, u);
    forall x, room
      ensures x in Members(m, room) <==> x in s && room in RoomsOf(s[x])
    {
      ConnectWiredAt(sockets, rooms, c, u, x, room);
    }
  }

  /** One connection and one room of `ConnectKeepsWired`. */
  lemma {:induction false} ConnectWiredAt(sockets: map<ConnId, PublicUser>, rooms: map<Room, set<ConnId>>,
                                          c: ConnId, u: PublicUser, x: ConnId, room: Room)
    requires Wired(sockets, rooms) && c !in sockets
    ensures x in Members(JoinBoth(rooms, c, u), room) <==>
            x in sockets[c := u] && room in RoomsOf(sockets[c := u][x])
  {
    assert Members(JoinBoth(rooms, c, u), room) == Members(rooms, room) + (if room in RoomsOf(u) then {c} else {});
    assert x in Members(rooms, room) <==> x in sockets && room in RoomsOf(sockets[x]);
    assert c !in Members(rooms, room);
  }

  /** Closing a connection keeps the registry consistent. */
  lemma {:induction false} DisconnectKeepsWired(sockets: map<ConnId, PublicUser>, rooms: map<Room, set<ConnId>>,
                                                c: ConnId)
    requires Wired(sockets, rooms)
    ensures Wired(sockets - {c}, LeaveAll(rooms, c))
  {
    var s := sockets - {c};
    var m := LeaveAll(rooms, c);
    forall x, room
      ensures x in Members(m, room) <==> x in s && room in RoomsOf(s[x])
    {
      assert Members(m, room) == Members(rooms, room) - {c};
      if x != c {
        assert x in Members(rooms, room) <==> x in sockets && room in RoomsOf(sockets[x]);
      }
    }
  }

  // ---------------------------------------------------------------
  // Server-side pushes

  /** io.sendNotification: to the recipient's own channel. */
  function SendNotification(userId: Id, n: NotificationModel.Notification): (r: Emission)
    ensures r.event == NotificationPushed(n) && EventName(r.event) == "notification"
  {
    Emission(ToRooms({UserRoom(userId)}), NotificationPushed(n))
  }

  /** io.broadcastTaskUpdate: to every connection, under `task:updated`
      unless another event name is given. */
  function BroadcastTaskUpdate(taskId: Id, event: Option<string>): (r: Emission)
    ensures r.audience == ToEveryone
    ensures EventName(r.event) == (if event.None? then "task:updated" else event.value)
  {
    Emission(ToEveryone, TaskBroadcast(match event case None => "task:updated" case Some(e) => e, taskId))
  }

  /** A notification push reaches the recipient's connections and no
      one else's; a task broadcast reaches every live connection. */
  lemma {:induction false} PushAudiences(sockets: map<ConnId, PublicUser>, rooms: map<Room, set<ConnId>>,
                                         userId: Id, n: NotificationModel.Notification,
                                         taskId: Id, event: Option<string>, sender: ConnId)
    requires Wired(sockets, rooms)
    ensures forall c :: c in Deliver(sockets, rooms, SendNotification(userId, n).audience, sender) <==>
                        c in sockets && sockets[c].id == userId
    ensures Deliver(sockets, rooms, BroadcastTaskUpdate(taskId, event).audience, sender) == sockets.Keys
  {
    UserRoomIsThatUser(sockets, rooms, userId, sender);
  }

  // ---------------------------------------------------------------
  // The connection registry

  class Hub {
    /** Each live connection with the identity cached at handshake. */
    var sockets: map<ConnId, PublicUser>
    var rooms: map<Room, set<ConnId>>

    ghost predicate Valid()
      reads this
    {
      Wired(sockets, rooms)
    }

    constructor()
      ensures Valid() && sockets == map[] && rooms == map[]
    {
      sockets := map[];
      rooms := map[];
    }

    /** The handshake, then, on success, the joins of the identity's two
        rooms. A refused connection joins nothing. */
    method Connect(c: ConnId, hs: Handshake, users: map<Id, User>, decode: string -> Option<Id>)
        returns (r: Admission)
      requires Valid() && c !in sockets
      modifies this
      ensures Valid()
      ensures r == Authenticate(users, hs, decode)
      ensures r.Refused? ==> sockets == old(sockets) && rooms == old(rooms)
      ensures r.Admitted? ==>
                && sockets == old(sockets)[c := r.user]
                && forall room :: Members(rooms, room) ==
                                  Members(old(rooms), room) + (if room in RoomsOf(r.user) then {c} else {})
    {
      r := Authenticate(users, hs, decode);
      if r.Refused? {
        return;
      }
      ConnectKeepsWired(sockets, rooms, c, r.user);
      sockets := sockets[c := r.user];
      rooms := JoinBoth(rooms, c, r.user);
    }

    /** A closed connection leaves every room. */
    method Disconnect(c: ConnId)
      requires Valid()
      modifies this
      ensures Valid()
      ensures sockets == old(sockets) - {c}
      ensures forall room :: Members(rooms, room) == Members(old(rooms), room) - {c}
    {
      DisconnectKeepsWired(sockets, rooms, c);
      sockets := sockets - {c};
      rooms := LeaveAll(rooms, c);
    }

    /** The recipients of one emission; a room union is gathered room by
        room. */
    method Emit(a: Audience, sender: ConnId) returns (to: set<ConnId>)
      requires Valid()
      ensures to == Deliver(sockets, rooms, a, sender)
    {
      match a {
        case ToRooms(rs) =>
          var left := rs;
          to := {};
          while left != {}
            invariant left <= rs
            invariant forall c :: c in to <==>
                        exists room :: room in rs && room !in left && c in Members(rooms, room)
            decreases |left|
          {
            var room :| room in left;
            to := to + Members(rooms, room);
            left := left - {room};
          }
          forall c | c in to
            ensures c in sockets
          {
            var room :| room in rs && c in Members(rooms, room);
          }
        case ToEveryone =>
          to := sockets.Keys;
        case ToSender =>
          to := if sender in sockets then {sender} else {};
        case ToOthers =>
          to := sockets.Keys - {sender};
      }
    }

    /** `location:update`. The guard reads the role cached at handshake.
        A courier's point is written as [longitude, latitude] when its
        record exists (a vanished record is silently skipped) and relayed
        with the cached name to the supervisor channels only. */
    method OnLocationUpdate(dir: UserDirectory, c: ConnId, latitude: JsNumber, longitude: JsNumber, now: int)
        returns (out: seq<Emission>)
      requires Valid() && c in sockets && dir.Valid()
      modifies dir
      ensures dir.Valid()
      ensures sockets[c].role != Courier ==>
                dir.users == old(dir.users) && out == [Emission(ToSender, SocketError(CourierOnlyMessage))]
      ensures sockets[c].role == Courier ==>
                && var id := sockets[c].id;
                && dir.users == (if id in old(dir.users)
                                 then old(dir.users)[id := LocationController.WithLocation(old(dir.users)[id], latitude, longitude, now)]
                                 else old(dir.users))
                && out == [Emission(ToRooms(Supervisors),
                                    LocationUpdated(id, sockets[c].name, latitude, longitude, now))]
    {
      var me := sockets[c];
      if me.role != Courier {
        return [Emission(ToSender, SocketError(CourierOnlyMessage))];
      }
      if me.id in dir.users {
        var u := LocationController.WithLocation(dir.users[me.id], latitude, longitude, now);
        StorePreservesDirectory(dir.users, u);
        dir.users := dir.users[me.id := u];
      }
      out := [Emission(ToRooms(Supervisors), LocationUpdated(me.id, me.name, latitude, longitude, now))];
    }

    /** `location:request:all`: admins and dispatchers get the on-duty
        couriers, as a reply to themselves alone. */
    method OnRequestAll(dir: UserDirectory, c: ConnId) returns (out: seq<Emission>)
      requires Valid() && c in sockets
      ensures (sockets[c].role == Admin || sockets[c].role == Dispatcher) ==>
                out == [Emission(ToSender, LocationAll(LocationController.ActiveCourierLocations(dir.users)))]
      ensures sockets[c].role == Courier ==> out == [Emission(ToSender, SocketError(UnauthorisedMessage))]
      ensures |out| == 1 && Deliver(sockets, rooms, out[0].audience, c) == {c}
    {
      var me := sockets[c];
      if me.role != Admin && me.role != Dispatcher {
        return [Emission(ToSender, SocketError(UnauthorisedMessage))];
      }
      out := [Emission(ToSender, LocationAll(LocationController.ActiveCourierLocations(dir.users)))];
    }

    /** `task:status:change`: no role check and no write; whatever the
        client sends is relayed to the supervisor channels with the
        sender's cached name. */
    method OnTaskStatusChange(c: ConnId, taskId: string, status: string, now: int) returns (out: seq<Emission>)
      requires Valid() && c in sockets
      ensures |out| == 1 && out[0].audience == ToRooms(Supervisors)
      ensures out[0].event == TaskStatusRelayed(taskId, status, sockets[c].name, now)
      ensures forall x :: x in Deliver(sockets, rooms, out[0].audience, c) <==>
                          x in sockets && (sockets[x].role == Admin || sockets[x].role == Dispatcher)
    {
      out := [Emission(ToRooms(Supervisors), TaskStatusRelayed(taskId, status, sockets[c].name, now))];
      SupervisorsAreAdminsAndDispatchers(sockets, rooms, c);
    }

    /** `typing`: every other connection learns who is typing. */
    method OnTyping(c: ConnId) returns (out: seq<Emission>)
      requires Valid() && c in sockets
      ensures |out| == 1 && out[0].audience == ToOthers
      ensures out[0].event == UserTyping(sockets[c].id, sockets[c].name)
      ensures Deliver(sockets, rooms, out[0].audience, c) == sockets.Keys - {c}
    {
      out := [Emission(ToOthers, UserTyping(sockets[c].id, sockets[c].name))];
      DeliverReaches(sockets, rooms, ToOthers, c);
    }
  }

  /** A non-courier's position report reaches only the sender, as an
      error; a courier's reaches exactly the live admin and dispatcher
      connections and never another courier. */
  method LocationReportAudience(hub: Hub, dir: UserDirectory, c: ConnId,
                                latitude: JsNumber, longitude: JsNumber, now: int)
      returns (to: set<ConnId>)
    requires hub.Valid() && c in hub.sockets && dir.Valid() && hub != dir as object
    modifies dir
    ensures hub.sockets[c].role != Courier ==> to == {c} && dir.users == old(dir.users)
    ensures hub.sockets[c].role == Courier ==>
              forall x :: x in to <==> x in hub.sockets && (hub.sockets[x].role == Admin || hub.sockets[x].role == Dispatcher)
  {
    var out := hub.OnLocationUpdate(dir, c, latitude, longitude, now);
    to := hub.Emit(out[0].audience, c);
    SupervisorsAreAdminsAndDispatchers(hub.sockets, hub.rooms, c);
  }
}
