/** User administration: listing, reading, updating, toggling, deleting
    accounts, and a courier's own availability. Every response omits the
    password hash. */
module UserController {
  import opened Types
  import opened UserModel

  const UserNotFound := HttpError(404, "Utilisateur non trouvé")
  const UserUpdateFailed := HttpError(500, "Erreur lors de la mise à jour")
  const InvalidAvailability := HttpError(400, "Statut de disponibilité invalide")

  /** getUsers: every account, password stripped. */
  function GetUsers(users: map<Id, User>): (r: set<PublicUser>)
    ensures forall k :: k in users ==> ToJSON(users[k]) in r
    ensures forall p :: p in r ==> exists k :: k in users && p == ToJSON(users[k])
  {
    set k | k in users :: ToJSON(users[k])
  }

  /** getCouriers: every courier, whatever its availability or activity. */
  function GetCouriers(users: map<Id, User>): (r: set<PublicUser>)
    ensures forall k :: k in users && users[k].role == Courier ==> ToJSON(users[k]) in r
    ensures forall p :: p in r ==> p.role == Courier && exists k :: k in users && p == ToJSON(users[k])
  {
    set k | k in users && users[k].role == Courier :: ToJSON(users[k])
  }

  /** The courier list is the part of the full list whose role is courier,
      so no other role ever shows up in it and an offline or inactive
      courier is still listed. */
  lemma {:induction false} CouriersAreCourierUsers(users: map<Id, User>)
    ensures GetCouriers(users) == set p | p in GetUsers(users) && p.role == Courier
  {
    forall p | p in GetUsers(users) && p.role == Courier
      ensures p in GetCouriers(users)
    {
      var k :| k in users && p == ToJSON(users[k]);
      assert users[k].role == Courier;
    }
  }

  /** getUser: 404 when the id is unknown. */
  function GetUser(users: map<Id, User>, id: Id): (r: Result<PublicUser>)
    ensures r.Err? <==> id !in users
    ensures r.Err? ==> r.error == UserNotFound
    ensures r.Ok? ==> r.value == ToJSON(users[id])
  {
    if id in users then Ok(ToJSON(users[id])) else Err(UserNotFound)
  }

  /** An administrator's update body, after the `password` key has been
      taken out of it: each field is absent (`None`) or set. */
  datatype UserPatch = UserPatch(
    name: Option<string>,
    email: Option<string>,
    role: Option<string>,
    phone: Option<string>,
    isActive: Option<bool>,
    availability: Option<string>)

  /** The update validators on the fields the patch sets: a name that is
      not empty after trimming, an e-mail that still matches the pattern
      after normalisation, and roles and availabilities in their
      enumerations. They do not depend on the stored document. */
  predicate PatchValid(p: UserPatch)
  {
    && (p.name.Some? ==> Trim(p.name.value) != [])
    && (p.email.Some? ==> MatchesEmail(NormalizeEmail(p.email.value)))
    && PatchParses(p)
  }

  /** The enumeration validators alone: what the `$set` needs to store
      a role and an availability. */
  predicate PatchParses(p: UserPatch)
  {
    && (p.role.Some? ==> ParseRole(p.role.value).Some?)
    && (p.availability.Some? ==> ParseAvailability(p.availability.value).Some?)
  }

  /** The `$set` of a patch whose enumerations parse, setters applied.
      The password, the id, the location and its timestamp are never
      touched, and an empty patch changes nothing. */
  function ApplyUserPatch(u: User, p: UserPatch): (r: User)
    requires PatchParses(p)
    ensures r.id == u.id && r.password == u.password
    ensures r.coordinates == u.coordinates && r.lastLocationUpdate == u.lastLocationUpdate
    ensures p == UserPatch(None, None, None, None, None, None) ==> r == u
  {
    var name := if p.name.None? then u.name else Trim(p.name.value);
    var email := if p.email.None? then u.email else NormalizeEmail(p.email.value);
    var role := if p.role.None? then u.role else ParseRole(p.role.value).value;
    var phone := if p.phone.None? then u.phone else Some(Trim(p.phone.value));
    var isActive := if p.isActive.None? then u.isActive else p.isActive.value;
    var availability := if p.availability.None? then u.availability
                        else ParseAvailability(p.availability.value).value;
    User(u.id, name, email, u.password, role, phone, isActive, u.coordinates, u.lastLocationUpdate, availability)
  }

  /** Each field the patch sets takes the given value, after the trim and
      lowercase setters; a role or availability is stored as the member
      its name parses to; a field the patch leaves out keeps its value. */
  lemma PatchSetsFields(u: User, p: UserPatch)
    requires PatchParses(p)
    ensures var r := ApplyUserPatch(u, p);
            && r.name == (if p.name.None? then u.name else Trim(p.name.value))
            && r.email == (if p.email.None? then u.email else NormalizeEmail(p.email.value))
            && r.phone == (if p.phone.None? then u.phone else Some(Trim(p.phone.value)))
            && r.isActive == (if p.isActive.None? then u.isActive else p.isActive.value)
  {
  }

  /** A role or availability the patch sets is stored as the member its
      name parses to, so reading it back gives the name that was sent. */
  lemma PatchSetsEnumerations(u: User, p: UserPatch)
    requires PatchParses(p)
    ensures var r := ApplyUserPatch(u, p);
            && (p.role.Some? ==> RoleName(r.role) == p.role.value)
            && (p.role.None? ==> r.role == u.role)
            && (p.availability.Some? ==> AvailabilityName(r.availability) == p.availability.value)
            && (p.availability.None? ==> r.availability == u.availability)
  {
  }

  /** Whether a user other than `id` already holds e-mail `e`. */
  predicate EmailHeldByOther(users: map<Id, User>, id: Id, e: string)
  {
    exists k :: k in users && k != id && users[k].email == e
  }

  /** The reply of toggleUserActive: the message names the new state. */
  datatype ToggleReply = ToggleReply(message: string, user: PublicUser)

  /** updateUser: the `password` key is discarded, so an administrator
      cannot change a password here. The validators run before the
      lookup (500), then the lookup (404), then the unique e-mail index
      (500, same message). */
  method UpdateUser(dir: UserDirectory, id: Id, body: UserPatch) returns (r: Result<PublicUser>)
    requires dir.Valid()
    modifies dir
    ensures dir.Valid()
    ensures !PatchValid(body) ==> r == Err(UserUpdateFailed)
    ensures PatchValid(body) && id !in old(dir.users) ==> r == Err(UserNotFound)
    ensures (PatchValid(body) && id in old(dir.users)
             && EmailHeldByOther(old(dir.users), id, ApplyUserPatch(old(dir.users)[id], body).email))
            ==> r == Err(UserUpdateFailed)
    ensures r.Err? ==> dir.users == old(dir.users)
    ensures r.Ok? ==>
              && PatchValid(body) && id in old(dir.users)
              && var u := ApplyUserPatch(old(dir.users)[id], body);
              && !EmailHeldByOther(old(dir.users), id, u.email)
              && dir.users == old(dir.users)[id := u]
              && r.value == ToJSON(u)
              && u.password == old(dir.users)[id].password
  {
    if !PatchValid(body) {
      return Err(UserUpdateFailed);
    }
    if id !in dir.users {
      return Err(UserNotFound);
    }
    var u := ApplyUserPatch(dir.users[id], body);
    if EmailHeldByOther(dir.users, id, u.email) {
      return Err(UserUpdateFailed);
    }
    StorePreservesDirectory(dir.users, u);
    dir.users := dir.users[id := u];
    r := Ok(ToJSON(u));
  }

  /** toggleUserActive: flip `isActive` and save. The password is not a
      modified path, so the save hook leaves the stored hash alone. */
  method ToggleUserActive(dir: UserDirectory, id: Id, hash: string -> string) returns (r: Result<ToggleReply>)
    requires dir.Valid()
    modifies dir
    ensures dir.Valid()
    ensures r.Err? <==> id !in old(dir.users)
    ensures r.Err? ==> r.error == UserNotFound && dir.users == old(dir.users)
    ensures r.Ok? ==>
              && var u := old(dir.users)[id].(isActive := !old(dir.users)[id].isActive);
              && dir.users == old(dir.users)[id := u]
              && r.value.user == ToJSON(u)
              && r.value.message == (if u.isActive then "Utilisateur activé" else "Utilisateur désactivé")
  {
    if id !in dir.users {
      return Err(UserNotFound);
    }
    var doc := dir.users[id];
    var u := SaveHook(doc.(isActive := !doc.isActive), false, hash);
    StorePreservesDirectory(dir.users, u);
    dir.users := dir.users[id := u];
    var message := if u.isActive then "Utilisateur activé" else "Utilisateur désactivé";
    r := Ok(ToggleReply(message, ToJSON(u)));
  }

  /** deleteUser: 404 when unknown, otherwise the account is removed and
      nothing else. Tasks that reference it are left as they are. */
  method DeleteUser(dir: UserDirectory, id: Id) returns (r: Result<()>)
    requires dir.Valid()
    modifies dir
    ensures dir.Valid()
    ensures r.Err? <==> id !in old(dir.users)
    ensures r.Err? ==> r.error == UserNotFound && dir.users == old(dir.users)
    ensures r.Ok? ==> dir.users == old(dir.users) - {id} && id !in dir.users
  {
    if id !in dir.users {
      return Err(UserNotFound);
    }
    dir.users := dir.users - {id};
    r := Ok(());
  }

  /** updateAvailability: the value must be one of the three names;
      the caller's own record is the only one written. A caller whose
      record has vanished gets a success with null data. */
  method UpdateAvailability(dir: UserDirectory, actor: Actor, availability: string) returns (r: Result<Option<PublicUser>>)
    requires dir.Valid()
    modifies dir
    ensures dir.Valid()
    ensures r.Err? <==> ParseAvailability(availability).None?
    ensures r.Err? ==> r.error == InvalidAvailability
    ensures r.Err? || actor.id !in old(dir.users) ==> dir.users == old(dir.users)
    ensures r.Ok? && actor.id !in old(dir.users) ==> r.value == None
    ensures (r.Ok? && actor.id in old(dir.users)) ==>
              && var u := old(dir.users)[actor.id].(availability := ParseAvailability(availability).value);
              && dir.users == old(dir.users)[actor.id := u]
              && r.value == Some(ToJSON(u))
              && AvailabilityName(u.availability) == availability
  {
    var a := ParseAvailability(availability);
    if a.None? {
      return Err(InvalidAvailability);
    }
    if actor.id !in dir.users {
      return Ok(None);
    }
    var u := dir.users[actor.id].(availability := a.value);
    StorePreservesDirectory(dir.users, u);
    dir.users := dir.users[actor.id := u];
    r := Ok(Some(ToJSON(u)));
  }

  /** Toggling an account twice gives back the directory it started from:
      the flag is restored and, because the password is never a modified
      path, so is the hash. */
  method ToggleTwiceRestores(dir: UserDirectory, id: Id, hash: string -> string)
    requires dir.Valid() && id in dir.users
    modifies dir
    ensures dir.Valid() && dir.users == old(dir.users)
  {
    ghost var u := dir.users[id];
    var first := ToggleUserActive(dir, id, hash);
    assert dir.users == old(dir.users)[id := u.(isActive := !u.isActive)];
    var second := ToggleUserActive(dir, id, hash);
    assert dir.users == old(dir.users)[id := u];
  }
}
