/** The courier location registry over HTTP: the position write with its
    validation and courier-only guard, the list of active couriers, and
    the nearby search reduced to its validation and availability filter. */
module LocationController {
  import opened Types
  import opened UserModel
  import opened Events

  const CoordinatesRequired := HttpError(400, "Latitude et longitude requises")
  const CourierOnly := HttpError(403, "Seuls les coursiers peuvent mettre à jour leur position")
  const LocationFailed := HttpError(500, "Erreur lors de la mise à jour de la position")

  /** The `maxDistance` query parameter when it is absent, in metres. */
  const DefaultMaxDistance := 5000

  /** A courier's stored position after a write: the point is
      [longitude, latitude], swapped from the request's field order, and
      the update time is refreshed. No other field changes. */
  function WithLocation(u: User, latitude: JsNumber, longitude: JsNumber, now: int): (r: User)
    ensures r.coordinates == [longitude, latitude] && r.lastLocationUpdate == Some(now)
    ensures r.(coordinates := u.coordinates, lastLocationUpdate := u.lastLocationUpdate) == u
  {
    u.(coordinates := [longitude, latitude], lastLocationUpdate := Some(now))
  }

  /** The response body of a successful write. */
  datatype LocationReceipt = LocationReceipt(coordinates: seq<JsNumber>, lastUpdate: Option<int>)

  /** updateLocation. The coordinate check comes first and rejects any
      falsy value, 0 included; then the courier-only guard. A courier
      writes its own record only (there is no courier id in the request),
      and `location:updated` goes to every connection. If the caller's
      record has vanished the handler fails with 500 and emits nothing. */
  method UpdateLocation(dir: UserDirectory, actor: Actor, latitude: JsNumber, longitude: JsNumber, now: int)
    returns (r: Result<LocationReceipt>, out: seq<Emission>)
    requires dir.Valid()
    modifies dir
    ensures dir.Valid()
    ensures !latitude.Truthy() || !longitude.Truthy() ==> r == Err(CoordinatesRequired)
    ensures latitude.Truthy() && longitude.Truthy() && actor.role != Courier ==> r == Err(CourierOnly)
    ensures (latitude.Truthy() && longitude.Truthy() && actor.role == Courier && actor.id !in old(dir.users))
              ==> r == Err(LocationFailed)
    ensures r.Err? ==> dir.users == old(dir.users) && out == []
    ensures r.Ok? ==>
              && latitude.Truthy() && longitude.Truthy() && actor.role == Courier
              && actor.id in old(dir.users)
              && var u := WithLocation(old(dir.users)[actor.id], latitude, longitude, now);
              && dir.users == old(dir.users)[actor.id := u]
              && r.value == LocationReceipt([longitude, latitude], Some(now))
              && out == [Emission(ToEveryone, LocationUpdated(actor.id, u.name, latitude, longitude, now))]
  {
    if !latitude.Truthy() || !longitude.Truthy() {
      return Err(CoordinatesRequired), [];
    }
    if actor.role != Courier {
      return Err(CourierOnly), [];
    }
    if actor.id !in dir.users {
      return Err(LocationFailed), [];
    }
    var user := WithLocation(dir.users[actor.id], latitude, longitude, now);
    StorePreservesDirectory(dir.users, user);
    dir.users := dir.users[actor.id := user];
    out := [Emission(ToEveryone, LocationUpdated(user.id, user.name, latitude, longitude, now))];
    r := Ok(LocationReceipt(user.coordinates, user.lastLocationUpdate));
  }

  /** The couriers whose position is shown live: availability available
      or busy. */
  predicate OnDuty(u: User)
  {
    u.role == Courier && (u.availability == Available || u.availability == Busy)
  }

  /** getCouriersLocations, and the same query behind `location:request:all`. */
  function ActiveCourierLocations(users: map<Id, User>): (r: set<LocationView>)
    ensures forall v :: v in r ==> exists k :: k in users && OnDuty(users[k]) && v == ToLocationView(users[k])
    ensures forall k :: k in users && OnDuty(users[k]) ==> ToLocationView(users[k]) in r
  {
    set k | k in users && OnDuty(users[k]) :: ToLocationView(users[k])
  }

  /** In a valid directory a courier appears in the live list exactly when
      it is available or busy; offline couriers and other roles never do. */
  lemma {:induction false} ActiveCouriersExactly(users: map<Id, User>, k: Id)
    requires Directory(users) && k in users
    ensures ToLocationView(users[k]) in ActiveCourierLocations(users) <==> OnDuty(users[k])
  {
    if ToLocationView(users[k]) in ActiveCourierLocations(users) {
      var j :| j in users && OnDuty(users[j]) && ToLocationView(users[j]) == ToLocationView(users[k]);
      assert users[j].id == users[k].id;
    }
  }

  /** The projection `name email phone currentLocation lastLocationUpdate`
      of the nearby search. */
  datatype NearbyView = NearbyView(id: Id, name: string, email: string, phone: Option<string>,
                                   coordinates: seq<JsNumber>, lastLocationUpdate: Option<int>)

  /** `select(...)` of one user: its id and the five selected fields. */
  function ToNearbyView(u: User): NearbyView
  {
    NearbyView(u.id, u.name, u.email, u.phone, u.coordinates, u.lastLocationUpdate)
  }

  /** The non-geometric part of the nearby filter. */
  predicate NearbyCandidate(u: User)
  {
    u.role == Courier && u.availability == Available
  }

  /** The geospatial query findNearbyCouriers sends: the centre as
      [longitude, latitude] (the raw query strings), the radius, and the
      couriers it ranges over before distance is applied. */
  datatype NearbySearch = NearbySearch(center: seq<string>, maxDistance: int, candidates: set<NearbyView>)

  /** findNearbyCouriers, up to the `$near` filter: 400 when either
      coordinate is absent or empty, a radius of 5000 metres unless one
      is given, and as candidates the projections of exactly the
      couriers whose availability is `available`. */
  function FindNearbyCouriers(users: map<Id, User>, latitude: string, longitude: string,
                              maxDistance: Option<int>): (r: Result<NearbySearch>)
    ensures r.Err? <==> latitude == "" || longitude == ""
    ensures r.Err? ==> r.error == CoordinatesRequired
    ensures r.Ok? ==>
              && r.value.center == [longitude, latitude]
              && r.value.maxDistance == (if maxDistance.None? then DefaultMaxDistance else maxDistance.value)
              && (forall v :: v in r.value.candidates ==>
                    exists k :: k in users && NearbyCandidate(users[k]) && v == ToNearbyView(users[k]))
              && (forall k :: k in users && NearbyCandidate(users[k]) ==> ToNearbyView(users[k]) in r.value.candidates)
  {
    if latitude == "" || longitude == "" then Err(CoordinatesRequired)
    else
      var radius := match maxDistance case None => DefaultMaxDistance case Some(d) => d;
      Ok(NearbySearch([longitude, latitude], radius,
                      set k | k in users && NearbyCandidate(users[k]) :: ToNearbyView(users[k])))
  }

  /** In a valid directory a user's projection is a candidate if and only
      if that user is an available courier. */
  lemma {:induction false} NearbyCandidatesExactly(users: map<Id, User>, latitude: string, longitude: string,
                                                   maxDistance: Option<int>, k: Id)
    requires Directory(users) && k in users && latitude != "" && longitude != ""
    ensures ToNearbyView(users[k]) in FindNearbyCouriers(users, latitude, longitude, maxDistance).value.candidates
            <==> NearbyCandidate(users[k])
  {
    var cs := FindNearbyCouriers(users, latitude, longitude, maxDistance).value.candidates;
    if ToNearbyView(users[k]) in cs {
      var j :| j in users && NearbyCandidate(users[j]) && ToNearbyView(users[j]) == ToNearbyView(users[k]);
      assert users[j].id == users[k].id;
    }
  }
}
