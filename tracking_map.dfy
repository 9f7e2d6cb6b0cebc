/** The live map's state on the client: the list of courier entries kept
    up to date from `location:updated` and `location:all`, which entries
    get a marker, and the "time since" label of a popup. */
module TrackingMap {
  import opened Types

  /** One courier in the map's list. A field the server did not send is
      `None`; an entry created from a live update only has id, name,
      point and time. */
  datatype CourierEntry = CourierEntry(
    id: Id,
    name: string,
    email: Option<string>,
    availability: Option<string>,
    coordinates: Option<seq<JsNumber>>,
    lastLocationUpdate: Option<int>)

  /** The payload of `location:updated` as the client reads it. */
  datatype LocationMessage = LocationMessage(
    courierId: Id,
    courierName: string,
    latitude: JsNumber,
    longitude: JsNumber,
    timestamp: int)

  /** `findIndex`: the first entry with the given id. */
  function FindIndex(list: seq<CourierEntry>, id: Id): (r: Option<nat>)
    ensures r.Some? ==> r.value < |list| && list[r.value].id == id
                        && forall k :: 0 <= k < r.value ==> list[k].id != id
    ensures r.None? ==> forall k :: 0 <= k < |list| ==> list[k].id != id
  {
    if list == [] then None
    else if list[0].id == id then Some(0)
    else match FindIndex(list[1..], id)
      case None => None
      case Some(i) => Some(i + 1)
  }

  /** handleLocationUpdate's reducer: a known courier's first entry gets
      the new point, stored [longitude, latitude], and time, keeping its
      other fields and its place; an unknown courier is appended. */
  function Upsert(list: seq<CourierEntry>, m: LocationMessage): (r: seq<CourierEntry>)
  {
    var point := Some([m.longitude, m.latitude]);
    match FindIndex(list, m.courierId)
    case Some(i) => list[i := list[i].(coordinates := point, lastLocationUpdate := Some(m.timestamp))]
    case None => list + [CourierEntry(m.courierId, m.courierName, None, None, point, Some(m.timestamp))]
  }

  /** No two entries share an id. */
  predicate DistinctIds(list: seq<CourierEntry>)
  {
    forall a, b :: 0 <= a < b < |list| ==> list[a].id != list[b].id
  }

  /** The list grows by one exactly when the courier was unknown; every
      other entry is untouched; the courier's entry is the one changed,
      with only its point and time replaced. */
  lemma {:induction false} UpsertShape(list: seq<CourierEntry>, m: LocationMessage)
    ensures var r := Upsert(list, m);
            && (|r| == |list| <==> FindIndex(list, m.courierId).Some?)
            && (|r| == |list| + 1 <==> FindIndex(list, m.courierId).None?)
            && FindIndex(r, m.courierId).Some?
            && var i := FindIndex(r, m.courierId).value;
            && (forall k :: 0 <= k < |list| && k != i ==> r[k] == list[k])
            && r[i].coordinates == Some([m.longitude, m.latitude])
            && r[i].lastLocationUpdate == Some(m.timestamp)
            && (i < |list| ==> r[i].(coordinates := list[i].coordinates,
                                     lastLocationUpdate := list[i].lastLocationUpdate) == list[i])
            && (i == |list| ==> r[i].name == m.courierName && r[i].email.None? && r[i].availability.None?)
  {
    var r := Upsert(list, m);
    match FindIndex(list, m.courierId)
    case Some(i) =>
      assert r[i].id == m.courierId;
      assert forall k :: 0 <= k < i ==> r[k] == list[k];
      assert FindIndex(r, m.courierId) == Some(i) by {
        FirstIndexIsFindIndex(r, m.courierId, i);
      }
    case None =>
      assert r[|list|].id == m.courierId;
      assert forall k :: 0 <= k < |list| ==> r[k] == list[k];
      FirstIndexIsFindIndex(r, m.courierId, |list|);
  }

  /** An index whose entry has the id and is preceded by none is what
      `FindIndex` returns. */
  lemma {:induction false} FirstIndexIsFindIndex(list: seq<CourierEntry>, id: Id, i: nat)
    requires i < |list| && list[i].id == id
    requires forall k :: 0 <= k < i ==> list[k].id != id
    ensures FindIndex(list, id) == Some(i)
    decreases i
  {
    if i > 0 {
      FirstIndexIsFindIndex(list[1..], id, i - 1);
    }
  }

  /** Upserting keeps ids distinct. */
  lemma {:induction false} UpsertKeepsDistinct(list: seq<CourierEntry>, m: LocationMessage)
    requires DistinctIds(list)
    ensures DistinctIds(Upsert(list, m))
  {
    var r := Upsert(list, m);
    assert forall k :: 0 <= k < |list| ==> r[k].id == list[k].id;
    if FindIndex(list, m.courierId).None? {
      assert r[|list|].id == m.courierId;
    }
  }

  /** Replaying the same update changes nothing more. */
  lemma {:induction false} UpsertIdempotent(list: seq<CourierEntry>, m: LocationMessage)
    ensures Upsert(Upsert(list, m), m) == Upsert(list, m)
  {
    var r := Upsert(list, m);
    UpsertShape(list, m);
    var i := FindIndex(r, m.courierId).value;
    assert r[i := r[i].(coordinates := Some([m.longitude, m.latitude]),
                        lastLocationUpdate := Some(m.timestamp))] == r;
  }

  /** handleAllLocations: the list the server sent replaces the old one. */
  function ReplaceAll(list: seq<CourierEntry>, couriers: seq<CourierEntry>): seq<CourierEntry>
  {
    couriers
  }

  /** The element a destructuring `[lng, lat] = cs` reads at index `i`. */
  function At(cs: seq<JsNumber>, i: nat): JsNumber
  {
    if i < |cs| then cs[i] else Missing
  }

  /** Where an entry's marker goes, as (latitude, longitude), or `None`
      when it gets no marker: no coordinates, or a latitude or longitude
      that is absent or zero. */
  function MarkerPosition(e: CourierEntry): (r: Option<(JsNumber, JsNumber)>)
    ensures r.Some? <==> e.coordinates.Some? && At(e.coordinates.value, 0).Truthy()
                         && At(e.coordinates.value, 1).Truthy()
    ensures r.Some? ==> |e.coordinates.value| >= 2
                        && r.value == (e.coordinates.value[1], e.coordinates.value[0])
  {
    match e.coordinates
    case None => None
    case Some(cs) =>
      var lng := At(cs, 0);
      var lat := At(cs, 1);
      if !lat.Truthy() || !lng.Truthy() then None else Some((lat, lng))
  }

  /** The two swaps cancel out: after an update the courier's marker sits
      at the reported latitude and longitude, and it has one exactly when
      both are non-zero numbers. */
  lemma {:induction false} MarkerAtReportedPoint(list: seq<CourierEntry>, m: LocationMessage)
    ensures var r := Upsert(list, m);
            && FindIndex(r, m.courierId).Some?
            && var e := r[FindIndex(r, m.courierId).value];
            && (MarkerPosition(e).Some? <==> m.latitude.Truthy() && m.longitude.Truthy())
            && (MarkerPosition(e).Some? ==> MarkerPosition(e).value == (m.latitude, m.longitude))
  {
    UpsertShape(list, m);
  }

  // ---------------------------------------------------------------
  // Time since the last update

  datatype Elapsed = Never | SecondsAgo(n: int) | MinutesAgo(n: int) | HoursAgo(n: int)

  /** getTimeSince: `Never` without a timestamp; otherwise whole seconds
      (floored, so a clock ahead of the client gives a negative count)
      below one minute, whole minutes below one hour, whole hours above. */
  function TimeSince(timestamp: Option<int>, now: int): (r: Elapsed)
    ensures r == Never <==> timestamp.None?
    ensures r.SecondsAgo? ==> r.n < 60 && r.n * 1000 <= now - timestamp.value < (r.n + 1) * 1000
    ensures r.MinutesAgo? ==> 1 <= r.n < 60 && r.n * 60000 <= now - timestamp.value < (r.n + 1) * 60000
    ensures r.HoursAgo? ==> 1 <= r.n && r.n * 3600000 <= now - timestamp.value < (r.n + 1) * 3600000
  {
    match timestamp
    case None => Never
    case Some(t) =>
      var seconds := (now - t) / 1000;
      if seconds < 60 then SecondsAgo(seconds)
      else
        var minutes := seconds / 60;
        MinutesBound(now - t);
        if minutes < 60 then MinutesAgo(minutes)
        else
          HoursBound(now - t);
          HoursAgo(minutes / 60)
  }

  /** Whole minutes, floored from whole seconds, bound the elapsed
      milliseconds. */
  lemma {:induction false} MinutesBound(x: int)
    ensures var m := x / 1000 / 60; m * 60000 <= x < (m + 1) * 60000
  {
    var s := x / 1000;
    var m := s / 60;
    assert s * 1000 <= x < s * 1000 + 1000;
    assert m * 60 <= s < m * 60 + 60;
  }

  /** Whole hours, floored from whole minutes, bound the elapsed
      milliseconds. */
  lemma {:induction false} HoursBound(x: int)
    ensures var h := x / 1000 / 60 / 60; h * 3600000 <= x < (h + 1) * 3600000
  {
    MinutesBound(x);
    var m := x / 1000 / 60;
    var h := m / 60;
    assert h * 60 <= m < h * 60 + 60;
  }

  /** The decimal digits of a count. */
  function NatToString(n: nat): (r: string)
    ensures |r| >= 1 && forall k :: 0 <= k < |r| ==> '0' <= r[k] <= '9'
  {
    var d := ['0', '1', '2', '3', '4', '5', '6', '7', '8', '9'][n % 10];
    if n < 10 then [d] else NatToString(n / 10) + [d]
  }

  function IntToString(n: int): (r: string)
    ensures n >= 0 ==> r == NatToString(n)
    ensures n < 0 ==> r == "-" + NatToString(-n)
  {
    if n >= 0 then NatToString(n) else "-" + NatToString(-n)
  }

  /** The French label of an elapsed time. */
  function Label(e: Elapsed): string
  {
    match e
    case Never => "Jamais"
    case SecondsAgo(n) => "Il y a " + IntToString(n) + "s"
    case MinutesAgo(n) => "Il y a " + IntToString(n) + "min"
    case HoursAgo(n) => "Il y a " + IntToString(n) + "h"
  }

  /** getTimeSince: "Jamais" exactly when there is no timestamp; otherwise
      a count in the largest unit below which the elapsed time falls,
      seconds under a minute, minutes under an hour, hours beyond, the
      elapsed time lying within one unit above the displayed count. */
  function TimeSinceLabel(timestamp: Option<int>, now: int): (r: string)
    ensures r == "Jamais" <==> timestamp.None?
    ensures timestamp.Some? && now - timestamp.value < 60000 ==>
              exists n :: n * 1000 <= now - timestamp.value < (n + 1) * 1000
                          && r == "Il y a " + IntToString(n) + "s"
    ensures timestamp.Some? && 60000 <= now - timestamp.value < 3600000 ==>
              exists n :: 1 <= n < 60 && n * 60000 <= now - timestamp.value < (n + 1) * 60000
                          && r == "Il y a " + IntToString(n) + "min"
    ensures timestamp.Some? && 3600000 <= now - timestamp.value ==>
              exists n :: 1 <= n && n * 3600000 <= now - timestamp.value < (n + 1) * 3600000
                          && r == "Il y a " + IntToString(n) + "h"
  {
    var e := TimeSince(timestamp, now);
    var r := Label(e);
    assert e != Never ==> r[0] == 'I' && "Jamais"[0] == 'J';
    r
  }
}
