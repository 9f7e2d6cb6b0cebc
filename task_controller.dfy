/** The task handlers: creation, role-scoped listing and reading, field
    update, the status state machine with its milestone stamps, and
    deletion, over a store of tasks and the notification ledger. Each
    handler returns its HTTP result and the socket emissions it makes. */
module TaskController {
  import opened Types
  import opened TaskModel
  import opened NotificationModel
  import opened Events

  // ---------------------------------------------------------------
  // Response messages

  const NotFound := HttpError(404, "Tâche non trouvée")
  const Forbidden := HttpError(403, "Non autorisé")
  const CreateFailed := HttpError(500, "Erreur lors de la création de la tâche")
  const ReadFailed := HttpError(500, "Erreur lors de la récupération de la tâche")
  const UpdateFailed := HttpError(500, "Erreur lors de la mise à jour")
  const StatusFailed := HttpError(500, "Erreur lors de la mise à jour du statut")

  function InvalidTransition(from: Status, target: string): HttpError
  {
    HttpError(400, "Transition invalide de " + StatusName(from) + " vers " + target)
  }

  // ---------------------------------------------------------------
  // The status workflow

  /** `validTransitions`: the targets each status may move to. */
  function AllowedTargets(from: Status): set<Status>
  {
    match from
    case Created => {InProgress, Cancelled}
    case InProgress => {Completed, Cancelled}
    case Completed => {}
    case Cancelled => {}
  }

  /** `validTransitions[task.status].includes(status)` for a raw body value. */
  predicate Accepts(from: Status, target: string)
  {
    ParseStatus(target).Some? && ParseStatus(target).value in AllowedTargets(from)
  }

  /** The table read as a relation on the four statuses: the source
      compares the raw string, so only the exact names are accepted. */
  lemma AcceptsIsTable(from: Status, target: string)
    ensures Accepts(from, target) <==>
              (from == Created && (target == "IN_PROGRESS" || target == "CANCELLED"))
              || (from == InProgress && (target == "COMPLETED" || target == "CANCELLED"))
  {
  }

  /** COMPLETED and CANCELLED accept nothing, and no status accepts itself. */
  lemma TerminalAndIrreflexive(from: Status, target: string)
    ensures (from == Completed || from == Cancelled) ==> !Accepts(from, target)
    ensures !Accepts(from, StatusName(from))
  {
  }

  /** How far along the workflow a status is. */
  function Stage(s: Status): nat
  {
    match s
    case Created => 0
    case InProgress => 1
    case Completed => 2
    case Cancelled => 2
  }

  /** A sequence of statuses each of which the table lets follow the last. */
  ghost predicate Chain(s: seq<Status>)
  {
    forall k :: 0 < k < |s| ==> s[k] in AllowedTargets(s[k - 1])
  }

  /** Every accepted transition advances the stage, so a task passes
      through at most three statuses and makes at most two successful
      status changes: a terminal transition never succeeds twice. */
  lemma {:induction false} ChainsAreShort(s: seq<Status>)
    requires Chain(s)
    ensures |s| <= 3
    ensures forall k :: 0 <= k < |s| ==> Stage(s[k]) >= Stage(s[0]) + k
  {
    if |s| > 1 {
      var tail := s[1..];
      assert Chain(tail) by {
        forall k | 0 < k < |tail| ensures tail[k] in AllowedTargets(tail[k - 1]) {
          assert tail[k] == s[k + 1] && tail[k - 1] == s[k];
        }
      }
      ChainsAreShort(tail);
      assert s[1] in AllowedTargets(s[0]);
      forall k | 0 < k < |s| ensures Stage(s[k]) >= Stage(s[0]) + k {
        assert s[k] == tail[k - 1];
      }
      assert Stage(s[|s| - 1]) >= |s| - 1;
    }
  }

  // ---------------------------------------------------------------
  // Access rules inside the handlers

  /** `populate` turns a reference to a user that no longer exists into
      null; `users` is the set of existing user ids. */
  predicate Resolves(ref: Option<Id>, users: set<Id>)
  {
    ref.Some? && ref.value in users
  }

  /** getTask's courier rule, after populate. */
  predicate CourierMayRead(actor: Actor, t: Task, users: set<Id>)
  {
    Resolves(t.assignedTo, users) && t.assignedTo.value == actor.id
  }

  /** updateTask and deleteTask check only the dispatcher case. */
  predicate MayEdit(actor: Actor, t: Task)
  {
    !(actor.role == Dispatcher && t.createdBy != actor.id)
  }

  /** updateTaskStatus checks only the courier case. */
  predicate MayChangeStatus(actor: Actor, t: Task)
  {
    !(actor.role == Courier && t.assignedTo != Some(actor.id))
  }

  // ---------------------------------------------------------------
  // Listing: the filter built from the role

  /** The Mongo filter getTasks builds; an absent field matches anything. */
  datatype TaskQuery = TaskQuery(assignedTo: Option<Id>, createdBy: Option<Id>, status: Option<string>)

  predicate Matches(q: TaskQuery, t: Task)
  {
    && (q.assignedTo.Some? ==> t.assignedTo == q.assignedTo)
    && (q.createdBy.Some? ==> t.createdBy == q.createdBy.value)
    && (q.status.Some? ==> StatusName(t.status) == q.status.value)
  }

  /** Which tasks a role lists: a courier its assigned tasks, a dispatcher
      the tasks it created, an admin every task. */
  predicate Visible(actor: Actor, t: Task)
  {
    match actor.role
    case Courier => t.assignedTo == Some(actor.id)
    case Dispatcher => t.createdBy == actor.id
    case Admin => true
  }

  /** Tasks ordered by `createdAt` descending. */
  ghost predicate NewestFirst(s: seq<Task>)
  {
    forall i, j :: 0 <= i < j < |s| ==> s[i].createdAt >= s[j].createdAt
  }

  /** The first position whose task is not newer than `c`. */
  function InsertionPoint(s: seq<Task>, c: int): (i: nat)
    ensures i <= |s|
    ensures forall k :: 0 <= k < i ==> s[k].createdAt > c
    ensures i < |s| ==> s[i].createdAt <= c
  {
    if s == [] || s[0].createdAt <= c then 0 else 1 + InsertionPoint(s[1..], c)
  }

  function InsertNewestFirst(s: seq<Task>, t: Task): (r: seq<Task>)
    requires NewestFirst(s)
    ensures NewestFirst(r)
    ensures multiset(r) == multiset(s) + multiset{t}
  {
    var i := InsertionPoint(s, t.createdAt);
    InsertedAtPoint(s, t, i);
    s[..i] + [t] + s[i..]
  }

  lemma InsertedAtPoint(s: seq<Task>, t: Task, i: nat)
    requires NewestFirst(s) && i <= |s|
    requires forall k :: 0 <= k < i ==> s[k].createdAt > t.createdAt
    requires i < |s| ==> s[i].createdAt <= t.createdAt
    ensures NewestFirst(s[..i] + [t] + s[i..])
    ensures multiset(s[..i] + [t] + s[i..]) == multiset(s) + multiset{t}
  {
    InsertedInOrder(s, t, i);
    assert s == s[..i] + s[i..];
  }

  lemma {:induction false} InsertedInOrder(s: seq<Task>, t: Task, i: nat)
    requires NewestFirst(s) && i <= |s|
    requires forall k :: 0 <= k < i ==> s[k].createdAt > t.createdAt
    requires i < |s| ==> s[i].createdAt <= t.createdAt
    ensures NewestFirst(s[..i] + [t] + s[i..])
  {
    var r := s[..i] + [t] + s[i..];
    assert forall k :: 0 <= k < i ==> r[k] == s[k];
    assert forall k :: i < k < |r| ==> r[k] == s[k - 1];
    forall a, b | 0 <= a < b < |r| ensures r[a].createdAt >= r[b].createdAt {
      if b > i && a <= i {
        assert s[b - 1].createdAt <= s[i].createdAt;
      }
    }
  }

  /** Inserting a task not yet listed keeps the list newest first and
      free of repeats, and adds exactly that task. */
  lemma InsertListsOnce(s: seq<Task>, t: Task)
    requires NewestFirst(s) && NoRepeats(s) && t !in s
    ensures NewestFirst(InsertNewestFirst(s, t)) && NoRepeats(InsertNewestFirst(s, t))
    ensures forall x :: x in InsertNewestFirst(s, t) <==> x in s || x == t
  {
    var r := InsertNewestFirst(s, t);
    forall x ensures x in r <==> x in multiset(s) || x == t {
      assert x in r <==> x in multiset(r);
    }
    NoRepeatsAfterInsert(s, t, InsertionPoint(s, t.createdAt));
  }

  // ---------------------------------------------------------------
  // The store

  /** The tasks collection and the notifications collection. */
  class TaskStore {
    var tasks: map<Id, Task>
    var notifications: seq<Notification>

    ghost predicate Valid()
      reads this
    {
      forall k :: k in tasks ==> tasks[k].id == k
    }

    constructor()
      ensures Valid() && tasks == map[] && notifications == []
    {
      tasks := map[];
      notifications := [];
    }

    /** createTask. `id` is the fresh id the store assigns. The caller
        becomes the creator whatever the body says; an assignee that
        resolves to a user gets one `task_assigned` notification and a
        `task:assigned` event on its own channel, and nobody else hears. */
    method CreateTask(actor: Actor, body: TaskInput, id: Id, now: int, users: set<Id>)
      returns (r: Result<Task>, out: seq<Emission>)
      requires Valid() && id !in tasks
      modifies this
      ensures Valid()
      ensures var created := NewTask(id, body.(createdBy := Some(actor.id)), now);
              && (created.None? ==> r == Err(CreateFailed) && tasks == old(tasks) && out == [])
              && (created.Some? ==> r == Ok(created.value) && tasks == old(tasks)[id := created.value])
      ensures r.Ok? ==> r.value.createdBy == actor.id && r.value.id == id
      ensures r.Ok? && Resolves(r.value.assignedTo, users) ==>
                && notifications == old(notifications) + [AssignedNote(r.value)]
                && out == [Emission(ToRooms({UserRoom(r.value.assignedTo.value)}),
                                    TaskAssigned(id, AssignedTitle, AssignedMessage(r.value)))]
      ensures !(r.Ok? && Resolves(r.value.assignedTo, users)) ==>
                notifications == old(notifications) && out == []
    {
      var data := body.(createdBy := Some(actor.id));
      var created := NewTask(id, data, now);
      if created.None? {
        return Err(CreateFailed), [];
      }
      var task := created.value;
      tasks := tasks[id := task];
      out := [];
      if task.assignedTo.Some? && task.assignedTo.value in users {
        notifications := notifications + [AssignedNote(task)];
        out := [Emission(ToRooms({UserRoom(task.assignedTo.value)}),
                         TaskAssigned(id, AssignedTitle, AssignedMessage(task)))];
      }
      r := Ok(task);
    }

    /** getTasks: the role-derived filter, then the store's query sorted
        newest first. */
    method GetTasks(actor: Actor, statusFilter: string) returns (r: seq<Task>)
      requires Valid()
      ensures forall t :: t in r <==>
                t in tasks.Values && Visible(actor, t)
                && (statusFilter != "" ==> StatusName(t.status) == statusFilter)
      ensures NewestFirst(r)
      ensures forall i, j :: 0 <= i < j < |r| ==> r[i] != r[j]
    {
      var q := BuildQuery(actor, statusFilter);
      r := Find(q);
    }

    /** `Task.find(query).sort({createdAt: -1})`: every matching task
        exactly once, newest first. */
    method Find(q: TaskQuery) returns (r: seq<Task>)
      requires Valid()
      ensures forall t :: t in r <==> t in tasks.Values && Matches(q, t)
      ensures NewestFirst(r)
      ensures forall i, j :: 0 <= i < j < |r| ==> r[i] != r[j]
    {
      r := [];
      var todo := tasks.Keys;
      while todo != {}
        invariant todo <= tasks.Keys
        invariant NewestFirst(r)
        invariant NoRepeats(r)
        invariant forall t :: t in r ==> t.id in tasks && tasks[t.id] == t && t.id !in todo && Matches(q, t)
        invariant forall k :: k in tasks && k !in todo && Matches(q, tasks[k]) ==> tasks[k] in r
        decreases |todo|
      {
        var k :| k in todo;
        var t := tasks[k];
        if Matches(q, t) {
          assert t !in r;
          InsertListsOnce(r, t);
          r := InsertNewestFirst(r, t);
        }
        todo := todo - {k};
      }
    }

    /** getTask: 404 for an unknown id before any ownership check; a
        courier must be the (existing) assignee and a dispatcher the
        creator; a dispatcher reading a task whose creator was deleted
        gets 500, since the populated creator is null. */
    method GetTask(actor: Actor, id: Id, users: set<Id>) returns (r: Result<Task>)
      ensures id !in tasks ==> r == Err(NotFound)
      ensures r.Ok? ==> id in tasks && r.value == tasks[id]
      ensures id in tasks ==>
                var t := tasks[id];
                match actor.role
                case Admin => r == Ok(t)
                case Courier => r == if CourierMayRead(actor, t, users) then Ok(t) else Err(Forbidden)
                case Dispatcher =>
                  r == if t.createdBy !in users then Err(ReadFailed)
                       else if t.createdBy != actor.id then Err(Forbidden)
                       else Ok(t)
    {
      if id !in tasks {
        return Err(NotFound);
      }
      var task := tasks[id];
      if actor.role == Courier && !(task.assignedTo.Some? && task.assignedTo.value in users
                                    && task.assignedTo.value == actor.id) {
        return Err(Forbidden);
      }
      if actor.role == Dispatcher {
        if task.createdBy !in users {
          return Err(ReadFailed);
        }
        if task.createdBy != actor.id {
          return Err(Forbidden);
        }
      }
      r := Ok(task);
    }

    /** updateTask: 404, then 403 for a dispatcher who is not the creator,
        then the update validators. The patch is applied without the save
        hook, so the status may change to anything and no history entry
        is appended; a history in the body replaces the stored one. Only a new assignee that resolves to a user, and differs
        from the previous one, is notified and hears `task:updated`. */
    method UpdateTask(actor: Actor, id: Id, patch: TaskPatch, users: set<Id>)
      returns (r: Result<Task>, out: seq<Emission>)
      requires Valid()
      modifies this
      ensures Valid()
      ensures id !in old(tasks) ==> r == Err(NotFound)
      ensures id in old(tasks) && !MayEdit(actor, old(tasks)[id]) ==> r == Err(Forbidden)
      ensures (id in old(tasks) && MayEdit(actor, old(tasks)[id]) && ApplyPatch(old(tasks)[id], patch).None?)
                ==> r == Err(UpdateFailed)
      ensures r.Err? ==> tasks == old(tasks) && notifications == old(notifications) && out == []
      ensures r.Ok? ==>
                && id in old(tasks) && MayEdit(actor, old(tasks)[id])
                && Some(r.value) == ApplyPatch(old(tasks)[id], patch)
                && tasks == old(tasks)[id := r.value]
                && r.value.history == (if patch.history.None? then old(tasks)[id].history
                                       else patch.history.value)
      ensures r.Ok? && Resolves(r.value.assignedTo, users) && r.value.assignedTo != old(tasks)[id].assignedTo ==>
                && notifications == old(notifications) + [UpdatedNote(r.value)]
                && out == [Emission(ToRooms({UserRoom(r.value.assignedTo.value)}), TaskUpdated(id))]
      ensures r.Ok? && !(Resolves(r.value.assignedTo, users) && r.value.assignedTo != old(tasks)[id].assignedTo) ==>
                notifications == old(notifications) && out == []
    {
      if id !in tasks {
        return Err(NotFound), [];
      }
      var task := tasks[id];
      if actor.role == Dispatcher && task.createdBy != actor.id {
        return Err(Forbidden), [];
      }
      var oldAssignedTo := task.assignedTo;
      var updated := ApplyPatch(task, patch);
      if updated.None? {
        return Err(UpdateFailed), [];
      }
      PatchSkipsHook(task, patch);
      task := updated.value;
      tasks := tasks[id := task];
      out := [];
      if task.assignedTo.Some? && task.assignedTo.value in users && task.assignedTo != oldAssignedTo {
        notifications := notifications + [UpdatedNote(task)];
        out := [Emission(ToRooms({UserRoom(task.assignedTo.value)}), TaskUpdated(id))];
      }
      r := Ok(task);
    }

    /** updateTaskStatus. 404; 403 for a courier who is not the assignee
        (admins and dispatchers pass); 400 for a target outside the table,
        leaving everything unchanged. Otherwise the status is set, the
        pickup time is stamped when entering IN_PROGRESS and the delivery
        time when entering COMPLETED, each only if still unset, and the
        hook appends one entry naming the caller. After the save, the
        creator gets one `status_changed` notification and
        `task:status:changed` on its channel only; the payload's old status
        is read after the assignment and equals the new one. A deleted
        creator makes the populated reference null: the save has happened
        but the handler answers 500 and notifies nobody. The `note` of the
        body is read and never stored. */
    method UpdateTaskStatus(actor: Actor, id: Id, target: string, note: string, now: int, users: set<Id>)
      returns (r: Result<Task>, out: seq<Emission>)
      requires Valid()
      modifies this
      ensures Valid()
      ensures id !in old(tasks) ==> r == Err(NotFound)
      ensures id in old(tasks) && !MayChangeStatus(actor, old(tasks)[id]) ==> r == Err(Forbidden)
      ensures (id in old(tasks) && MayChangeStatus(actor, old(tasks)[id]) && !Accepts(old(tasks)[id].status, target))
                ==> r == Err(InvalidTransition(old(tasks)[id].status, target))
      ensures (!(id in old(tasks) && MayChangeStatus(actor, old(tasks)[id]) && Accepts(old(tasks)[id].status, target)))
                ==> tasks == old(tasks) && notifications == old(notifications) && out == [] && r.Err?
      ensures id in old(tasks) && MayChangeStatus(actor, old(tasks)[id]) && Accepts(old(tasks)[id].status, target) ==>
                var before := old(tasks)[id];
                var s := ParseStatus(target).value;
                var after := Transitioned(before, s, actor.id, now);
                && tasks == old(tasks)[id := after]
                && (before.createdBy in users ==>
                      && r == Ok(after)
                      && notifications == old(notifications) + [StatusNote(after, target)]
                      && out == [Emission(ToRooms({UserRoom(before.createdBy)}), TaskStatusChanged(id, s, s))])
                && (before.createdBy !in users ==>
                      r == Err(StatusFailed) && notifications == old(notifications) && out == [])
    {
      if id !in tasks {
        return Err(NotFound), [];
      }
      var task := tasks[id];
      if actor.role == Courier && task.assignedTo != Some(actor.id) {
        return Err(Forbidden), [];
      }
      if !Accepts(task.status, target) {
        return Err(InvalidTransition(task.status, target)), [];
      }
      var status := ParseStatus(target).value;
      task := Transitioned(task, status, actor.id, now);
      tasks := tasks[id := task];
      if task.createdBy !in users {
        return Err(StatusFailed), [];
      }
      notifications := notifications + [StatusNote(task, target)];
      out := [Emission(ToRooms({UserRoom(task.createdBy)}), TaskStatusChanged(id, task.status, status))];
      r := Ok(task);
    }

    /** deleteTask: 404, then 403 for a dispatcher who is not the creator. */
    method DeleteTask(actor: Actor, id: Id) returns (r: Result<()>)
      requires Valid()
      modifies this
      ensures Valid()
      ensures id !in old(tasks) ==> r == Err(NotFound)
      ensures id in old(tasks) && !MayEdit(actor, old(tasks)[id]) ==> r == Err(Forbidden)
      ensures r.Ok? <==> id in old(tasks) && MayEdit(actor, old(tasks)[id])
      ensures tasks == if r.Ok? then old(tasks) - {id} else old(tasks)
      ensures notifications == old(notifications)
    {
      if id !in tasks {
        return Err(NotFound);
      }
      var task := tasks[id];
      if actor.role == Dispatcher && task.createdBy != actor.id {
        return Err(Forbidden);
      }
      tasks := tasks - {id};
      r := Ok(());
    }
  }

  // ---------------------------------------------------------------
  // The pieces the handlers are specified with

  /** getTasks' filter, built by setting fields of an empty query. */
  method BuildQuery(actor: Actor, statusFilter: string) returns (q: TaskQuery)
    ensures forall t :: Matches(q, t) <==>
              Visible(actor, t) && (statusFilter != "" ==> StatusName(t.status) == statusFilter)
    ensures actor.role == Admin ==> q.assignedTo.None? && q.createdBy.None?
  {
    q := TaskQuery(None, None, None);
    if actor.role == Courier {
      q := q.(assignedTo := Some(actor.id));
    } else if actor.role == Dispatcher {
      q := q.(createdBy := Some(actor.id));
    }
    if statusFilter != "" {
      q := q.(status := Some(statusFilter));
    }
  }

  /** No task appears twice. */
  ghost predicate NoRepeats(s: seq<Task>)
  {
    forall i, j :: 0 <= i < j < |s| ==> s[i] != s[j]
  }

  /** Putting a task not yet listed at any position repeats nothing. */
  lemma {:induction false} NoRepeatsAfterInsert(s: seq<Task>, t: Task, i: nat)
    requires NoRepeats(s) && t !in s && i <= |s|
    ensures NoRepeats(s[..i] + [t] + s[i..])
  {
    var r := s[..i] + [t] + s[i..];
    assert forall k :: 0 <= k < i ==> r[k] == s[k];
    assert forall k :: i < k < |r| ==> r[k] == s[k - 1];
    forall a, b | 0 <= a < b < |r| ensures r[a] != r[b] {
      if a == i {
        assert r[b] in s;
      } else if b == i {
        assert r[a] in s;
      }
    }
  }

  /** The document updateTaskStatus saves: status set, the milestone
      stamps applied, and one history entry naming the caller (the hook
      always sees the status as modified, since no status accepts
      itself). */
  function Transitioned(t: Task, s: Status, actor: Id, now: int): (r: Task)
    requires s in AllowedTargets(t.status)
    ensures r.status == s
    ensures r.history == t.history + [HistoryEntry(s, now, Some(actor), None)]
    ensures r.actualPickupTime == if s == InProgress && t.actualPickupTime.None? then Some(now) else t.actualPickupTime
    ensures r.actualDeliveryTime == if s == Completed && t.actualDeliveryTime.None? then Some(now) else t.actualDeliveryTime
    ensures r.(status := t.status, history := t.history,
               actualPickupTime := t.actualPickupTime, actualDeliveryTime := t.actualDeliveryTime) == t
  {
    var u := t.(status := s);
    var u := if s == InProgress && u.actualPickupTime.None? then u.(actualPickupTime := Some(now))
             else if s == Completed && u.actualDeliveryTime.None? then u.(actualDeliveryTime := Some(now))
             else u;
    SaveWithHistory(u, true, Some(actor), now)
  }

  const AssignedTitle := "Nouvelle tâche assignée"

  function AssignedMessage(t: Task): string
  {
    "Vous avez été assigné à la tâche: " + t.title
  }

  /** The notification createTask records for the assignee. */
  function AssignedNote(t: Task): (n: Notification)
    requires t.assignedTo.Some?
    ensures n.recipient == t.assignedTo.value && n.kind == TaskAssignedNote
    ensures n.relatedTask == Some(t.id) && !n.isRead
  {
    NewNotification(t.assignedTo, "task_assigned", AssignedTitle, AssignedMessage(t), Some(t.id)).value
  }

  /** The notification updateTask records for a new assignee. */
  function UpdatedNote(t: Task): (n: Notification)
    requires t.assignedTo.Some?
    ensures n.recipient == t.assignedTo.value && n.kind == TaskUpdatedNote
    ensures n.relatedTask == Some(t.id) && !n.isRead
  {
    NewNotification(t.assignedTo, "task_updated", "Tâche mise à jour",
                    "La tâche \"" + t.title + "\" a été modifiée", Some(t.id)).value
  }

  /** The notification updateTaskStatus records for the creator. */
  function StatusNote(t: Task, target: string): (n: Notification)
    ensures n.recipient == t.createdBy && n.kind == StatusChangedNote
    ensures n.relatedTask == Some(t.id) && !n.isRead
  {
    NewNotification(Some(t.createdBy), "status_changed", "Changement de statut",
                    "La tâche \"" + t.title + "\" est maintenant " + target, Some(t.id)).value
  }
}
