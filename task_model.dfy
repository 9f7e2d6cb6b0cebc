/** The Task schema: enumerations and defaults, required fields, the
    address points, and the pre-save hook that appends to the status
    history. */
module TaskModel {
  import opened Types

  /** A structured address with its GeoJSON point; `coordinates` is
      ordered [longitude, latitude]. The point's `type` is always "Point". */
  datatype Address = Address(
    street: string,
    city: string,
    postalCode: string,
    country: string,
    fullAddress: string,
    coordinates: seq<real>)

  /** An address as a request body carries it: `country` may be absent,
      and an absent `coordinates` array is the empty one. */
  datatype AddressInput = AddressInput(
    street: string,
    city: string,
    postalCode: string,
    country: Option<string>,
    fullAddress: string,
    coordinates: seq<real>)

  datatype Recipient = Recipient(name: string, phone: string, email: string)

  /** One entry of `statusHistory`. */
  datatype HistoryEntry = HistoryEntry(
    status: Status,
    timestamp: int,
    updatedBy: Option<Id>,
    note: Option<string>)

  datatype Task = Task(
    id: Id,
    title: string,
    description: string,
    priority: Priority,
    status: Status,
    pickup: Address,
    delivery: Address,
    recipient: Recipient,
    createdBy: Id,
    assignedTo: Option<Id>,
    history: seq<HistoryEntry>,
    actualPickupTime: Option<int>,
    actualDeliveryTime: Option<int>,
    createdAt: int)

  /** The body of a create request, after `createdBy` has been set. A
      `None` enumeration field is one the body leaves out. The body may
      also carry a status history and the two stamps; an absent history
      is the empty one. */
  datatype TaskInput = TaskInput(
    title: string,
    description: string,
    priority: Option<string>,
    status: Option<string>,
    pickup: AddressInput,
    delivery: AddressInput,
    recipient: Recipient,
    assignedTo: Option<Id>,
    createdBy: Option<Id>,
    history: seq<HistoryEntry>,
    actualPickupTime: Option<int>,
    actualDeliveryTime: Option<int>)

  const DefaultCountry := "France"

  /** `required: true` on a coordinates array: it must hold something. */
  predicate HasCoordinates(a: AddressInput)
  {
    a.coordinates != []
  }

  function ToAddress(a: AddressInput): (r: Address)
    ensures r.coordinates == a.coordinates
    ensures r.country == (if a.country.Some? then a.country.value else DefaultCountry)
  {
    Address(a.street, a.city, a.postalCode,
            match a.country case Some(c) => c case None => DefaultCountry,
            a.fullAddress, a.coordinates)
  }

  /** The history hook (`pre('save')`): when `status` was modified, one entry
      {status, now, updatedBy} is appended, with no note; otherwise the
      history is left as it is. Nothing else in the document changes. */
  function SaveWithHistory(t: Task, statusModified: bool, updatedBy: Option<Id>, now: int): (r: Task)
    ensures r.(history := t.history) == t
    ensures statusModified ==> r.history == t.history + [HistoryEntry(t.status, now, updatedBy, None)]
    ensures !statusModified ==> r.history == t.history
  {
    if statusModified then t.(history := t.history + [HistoryEntry(t.status, now, updatedBy, None)])
    else t
  }

  /** The hook grows the history by one exactly when the status was
      modified, and the new entry records the current status and carries
      no note, although the schema has a `note` field. */
  lemma HookAppendsExactlyOnce(t: Task, statusModified: bool, updatedBy: Option<Id>, now: int)
    ensures var r := SaveWithHistory(t, statusModified, updatedBy, now);
            && (|r.history| == |t.history| + 1 <==> statusModified)
            && (|r.history| == |t.history| <==> !statusModified)
            && r.history[..|t.history|] == t.history
            && (statusModified ==> r.history[|t.history|].status == t.status
                                   && r.history[|t.history|].note == None)
  {
  }

  /** `Task.create`: validation of the body, defaults, then the save hook.
      `None` when a validator fails: a title that is empty after trimming,
      a priority or status outside its enumeration, a missing pickup or
      delivery coordinates array, or a missing creator. A status given in
      the body is a modified path, so the hook appends it (without an
      actor) to the history the body gave; a defaulted status is not.
      Stamps given in the body are stored as given. */
  function NewTask(id: Id, input: TaskInput, now: int): (r: Option<Task>)
    ensures r.Some? <==>
              && Trim(input.title) != []
              && (input.priority.Some? ==> ParsePriority(input.priority.value).Some?)
              && (input.status.Some? ==> ParseStatus(input.status.value).Some?)
              && HasCoordinates(input.pickup) && HasCoordinates(input.delivery)
              && input.createdBy.Some?
    ensures r.Some? ==>
              var t := r.value;
              && t.id == id && t.title == Trim(input.title) && t.description == Trim(input.description)
              && t.createdBy == input.createdBy.value
              && t.assignedTo == input.assignedTo
              && t.status == (if input.status.None? then Created else ParseStatus(input.status.value).value)
              && t.priority == (if input.priority.None? then Medium else ParsePriority(input.priority.value).value)
              && t.pickup == ToAddress(input.pickup) && t.delivery == ToAddress(input.delivery)
              && t.recipient == input.recipient
              && t.history == input.history
                              + (if input.status.None? then [] else [HistoryEntry(t.status, now, None, None)])
              && t.actualPickupTime == input.actualPickupTime
              && t.actualDeliveryTime == input.actualDeliveryTime
              && t.createdAt == now
  {
    var title := Trim(input.title);
    var priority := match input.priority case None => Some(Medium) case Some(p) => ParsePriority(p);
    var status := match input.status case None => Some(Created) case Some(s) => ParseStatus(s);
    if title == [] || priority.None? || status.None? || !HasCoordinates(input.pickup)
       || !HasCoordinates(input.delivery) || input.createdBy.None?
    then None
    else
      var doc := Task(id, title, Trim(input.description), priority.value, status.value,
                      ToAddress(input.pickup), ToAddress(input.delivery), input.recipient,
                      input.createdBy.value, input.assignedTo, input.history,
                      input.actualPickupTime, input.actualDeliveryTime, now);
      Some(SaveWithHistory(doc, input.status.Some?, None, now))
  }

  /** The body of a `PUT`: each field is absent (`None`) or set; for
      `assignedTo` and the stamps, `Some(None)` sets it to null. A given
      address or history replaces the stored one whole. */
  datatype TaskPatch = TaskPatch(
    title: Option<string>,
    description: Option<string>,
    priority: Option<string>,
    status: Option<string>,
    pickup: Option<AddressInput>,
    delivery: Option<AddressInput>,
    recipient: Option<Recipient>,
    assignedTo: Option<Option<Id>>,
    createdBy: Option<Id>,
    history: Option<seq<HistoryEntry>>,
    actualPickupTime: Option<Option<int>>,
    actualDeliveryTime: Option<Option<int>>)

  /** The update validators on the fields a patch sets: a title that is
      not empty after trimming, a priority and a status inside their
      enumerations, and a coordinates array in each replaced address. */
  predicate PatchAccepted(p: TaskPatch)
  {
    && (p.title.Some? ==> Trim(p.title.value) != [])
    && (p.priority.Some? ==> ParsePriority(p.priority.value).Some?)
    && (p.status.Some? ==> ParseStatus(p.status.value).Some?)
    && (p.pickup.Some? ==> HasCoordinates(p.pickup.value))
    && (p.delivery.Some? ==> HasCoordinates(p.delivery.value))
  }

  /** `findByIdAndUpdate(id, body, {runValidators: true})`: update
      validators on the set fields, then a plain `$set`. No save hook runs,
      so no history entry is appended, even when the status changes; the
      history only changes when the body itself replaces it. */
  function ApplyPatch(t: Task, p: TaskPatch): (r: Option<Task>)
    ensures r.Some? <==> PatchAccepted(p)
  {
    if !PatchAccepted(p) then None
    else
      var priority := if p.priority.Some? then ParsePriority(p.priority.value).value else t.priority;
      var status := if p.status.Some? then ParseStatus(p.status.value).value else t.status;
      var title := if p.title.Some? then Trim(p.title.value) else t.title;
      var description := if p.description.Some? then Trim(p.description.value) else t.description;
      var pickup := if p.pickup.Some? then ToAddress(p.pickup.value) else t.pickup;
      var delivery := if p.delivery.Some? then ToAddress(p.delivery.value) else t.delivery;
      var recipient := if p.recipient.Some? then p.recipient.value else t.recipient;
      var createdBy := if p.createdBy.Some? then p.createdBy.value else t.createdBy;
      var assignedTo := if p.assignedTo.Some? then p.assignedTo.value else t.assignedTo;
      var history := if p.history.Some? then p.history.value else t.history;
      var actualPickupTime := if p.actualPickupTime.Some? then p.actualPickupTime.value else t.actualPickupTime;
      var actualDeliveryTime := if p.actualDeliveryTime.Some? then p.actualDeliveryTime.value else t.actualDeliveryTime;
      Some(Task(t.id, title, description, priority, status, pickup, delivery, recipient,
                createdBy, assignedTo, history, actualPickupTime, actualDeliveryTime, t.createdAt))
  }
  /** An accepted patch keeps the id and the creation time, sets a given
      status directly, and appends no history entry: the history changes
      only when the body replaces it. */
  lemma PatchSkipsHook(t: Task, p: TaskPatch)
    requires PatchAccepted(p)
    ensures var u := ApplyPatch(t, p).value;
            && u.id == t.id && u.createdAt == t.createdAt
            && u.status == (if p.status.None? then t.status else ParseStatus(p.status.value).value)
            && u.history == (if p.history.None? then t.history else p.history.value)
  {
  }

  /** The descriptive fields of an accepted patch: a given title or
      description is stored trimmed, a given priority parsed, a given
      recipient or address replaces the stored one whole; the others are
      kept. */
  lemma PatchSetsDetails(t: Task, p: TaskPatch)
    requires PatchAccepted(p)
    ensures var u := ApplyPatch(t, p).value;
            && u.title == (if p.title.None? then t.title else Trim(p.title.value))
            && u.description == (if p.description.None? then t.description else Trim(p.description.value))
            && u.priority == (if p.priority.None? then t.priority else ParsePriority(p.priority.value).value)
            && u.recipient == (if p.recipient.None? then t.recipient else p.recipient.value)
            && u.pickup == (if p.pickup.None? then t.pickup else ToAddress(p.pickup.value))
            && u.delivery == (if p.delivery.None? then t.delivery else ToAddress(p.delivery.value))
  {
  }

  /** The references and stamps of an accepted patch: each given value,
      null included, replaces the stored one, so a body can reassign the
      creator or clear a stamp; the others are kept. */
  lemma PatchSetsReferences(t: Task, p: TaskPatch)
    requires PatchAccepted(p)
    ensures var u := ApplyPatch(t, p).value;
            && u.assignedTo == (if p.assignedTo.None? then t.assignedTo else p.assignedTo.value)
            && u.createdBy == (if p.createdBy.None? then t.createdBy else p.createdBy.value)
            && u.actualPickupTime == (if p.actualPickupTime.None? then t.actualPickupTime
                                      else p.actualPickupTime.value)
            && u.actualDeliveryTime == (if p.actualDeliveryTime.None? then t.actualDeliveryTime
                                        else p.actualDeliveryTime.value)
  {
  }

}
