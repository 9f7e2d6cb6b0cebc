/** The Notification schema: the durable record of a user-facing
    notification, created as a side effect of task changes. */
module NotificationModel {
  import opened Types

  datatype NotificationType =
    | TaskAssignedNote | TaskUpdatedNote | TaskCancelledNote | StatusChangedNote | LocationUpdateNote

  function NotificationTypeName(t: NotificationType): string
  {
    match t
    case TaskAssignedNote => "task_assigned"
    case TaskUpdatedNote => "task_updated"
    case TaskCancelledNote => "task_cancelled"
    case StatusChangedNote => "status_changed"
    case LocationUpdateNote => "location_update"
  }

  function ParseNotificationType(s: string): (r: Option<NotificationType>)
    ensures forall x :: r == Some(x) <==> NotificationTypeName(x) == s
  {
    if s == "task_assigned" then Some(TaskAssignedNote)
    else if s == "task_updated" then Some(TaskUpdatedNote)
    else if s == "task_cancelled" then Some(TaskCancelledNote)
    else if s == "status_changed" then Some(StatusChangedNote)
    else if s == "location_update" then Some(LocationUpdateNote)
    else None
  }

  /** A stored notification. The free-form `data` payload is not modelled. */
  datatype Notification = Notification(
    recipient: Id,
    kind: NotificationType,
    title: string,
    message: string,
    relatedTask: Option<Id>,
    isRead: bool,
    readAt: Option<int>)

  /** `Notification.create`: `None` when a required field (recipient,
      type, title, message) is missing or the type is not in the
      enumeration; otherwise an unread notification. */
  function NewNotification(recipient: Option<Id>, kind: string, title: string,
                           message: string, relatedTask: Option<Id>): (r: Option<Notification>)
    ensures r.Some? <==>
              recipient.Some? && ParseNotificationType(kind).Some? && title != [] && message != []
    ensures r.Some? ==>
              && r.value.recipient == recipient.value
              && NotificationTypeName(r.value.kind) == kind
              && r.value.title == title && r.value.message == message
              && r.value.relatedTask == relatedTask
              && !r.value.isRead && r.value.readAt == None
  {
    if recipient.None? || title == [] || message == [] then None
    else match ParseNotificationType(kind)
      case None => None
      case Some(t) => Some(Notification(recipient.value, t, title, message, relatedTask, false, None))
  }
}
