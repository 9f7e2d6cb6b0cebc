/** The real-time vocabulary: the rooms a connection can join, the events
    the server emits and the audience each emission is addressed to. */
module Events {
  import opened Types
  import opened UserModel
  import opened NotificationModel

  /** `user_<id>` (one per identity) or `role_<role>` (one per role). */
  datatype Room = UserRoom(user: Id) | RoleRoom(role: Role)

  function RoomName(r: Room): string
  {
    match r
    case UserRoom(u) => "user_" + u
    case RoleRoom(x) => "role_" + RoleName(x)
  }

  /** Distinct rooms have distinct names: an identity channel can never be
      confused with a role channel or with another identity's channel. */
  lemma {:induction false} RoomNameInjective(a: Room, b: Room)
    ensures RoomName(a) == RoomName(b) ==> a == b
  {
    if RoomName(a) == RoomName(b) {
      assert RoomName(a)[0] == RoomName(b)[0];
      match a
      case UserRoom(u) =>
        assert b.UserRoom?;
        assert u == RoomName(a)[5..] == RoomName(b)[5..] == b.user;
      case RoleRoom(x) =>
        assert b.RoleRoom?;
        assert RoleName(x) == RoomName(a)[5..] == RoomName(b)[5..] == RoleName(b.role);
    }
  }

  /** Where an emission goes: the union of some rooms (`io.to(..).to(..)`),
      every connection (`io.emit`), the emitting socket (`socket.emit`),
      or every connection but the emitting one (`socket.broadcast.emit`). */
  datatype Audience = ToRooms(rooms: set<Room>) | ToEveryone | ToSender | ToOthers

  datatype Event =
    | LocationUpdated(courierId: Id, courierName: string, latitude: JsNumber,
                      longitude: JsNumber, timestamp: int)
    | LocationAll(couriers: set<LocationView>)
    | TaskAssigned(taskId: Id, title: string, message: string)
    | TaskUpdated(taskId: Id)
    | TaskStatusChanged(taskId: Id, oldStatus: Status, newStatus: Status)
    | TaskStatusRelayed(taskId: string, status: string, changedBy: string, timestamp: int)
    | NotificationPushed(notification: Notification)
    | TaskBroadcast(name: string, taskId: Id)
    | SocketError(message: string)
    | UserTyping(userId: Id, userName: string)

  /** The event name on the wire. */
  function EventName(e: Event): string
  {
    match e
    case LocationUpdated(_, _, _, _, _) => "location:updated"
    case LocationAll(_) => "location:all"
    case TaskAssigned(_, _, _) => "task:assigned"
    case TaskUpdated(_) => "task:updated"
    case TaskStatusChanged(_, _, _) => "task:status:changed"
    case TaskStatusRelayed(_, _, _, _) => "task:status:changed"
    case NotificationPushed(_) => "notification"
    case TaskBroadcast(n, _) => n
    case SocketError(_) => "error"
    case UserTyping(_, _) => "user:typing"
  }

  datatype Emission = Emission(audience: Audience, event: Event)

  /** The admin and dispatcher role channels, the audience of live
      location and status relays from sockets. */
  const Supervisors: set<Room> := {RoleRoom(Admin), RoleRoom(Dispatcher)}
}
