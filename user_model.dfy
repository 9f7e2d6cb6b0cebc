/** The User schema: fields, enumerations and defaults, the e-mail
    normalisation and pattern, the password-hashing save hook, the
    password-free JSON view, and the user collection with its unique index. */
module UserModel {
  import opened Types

  /** A stored user document. `password` holds the hash once saved;
      the location fields are meaningful for couriers only. */
  datatype User = User(
    id: Id,
    name: string,
    email: string,
    password: string,
    role: Role,
    phone: Option<string>,
    isActive: bool,
    coordinates: seq<JsNumber>,        // [longitude, latitude]
    lastLocationUpdate: Option<int>,
    availability: Availability)

  /** `currentLocation.coordinates` default: [0, 0], read as "unknown". */
  const DefaultCoordinates: seq<JsNumber> := [Number(0.0), Number(0.0)]

  const MinPasswordLength := 6

  /** What `toJSON` lets out of a user document: every field but `password`. */
  datatype PublicUser = PublicUser(
    id: Id,
    name: string,
    email: string,
    role: Role,
    phone: Option<string>,
    isActive: bool,
    coordinates: seq<JsNumber>,
    lastLocationUpdate: Option<int>,
    availability: Availability)

  function ToJSON(u: User): (p: PublicUser)
    ensures p.id == u.id && p.name == u.name && p.email == u.email && p.role == u.role
    ensures p.phone == u.phone && p.isActive == u.isActive && p.availability == u.availability
    ensures p.coordinates == u.coordinates && p.lastLocationUpdate == u.lastLocationUpdate
  {
    PublicUser(u.id, u.name, u.email, u.role, u.phone, u.isActive,
               u.coordinates, u.lastLocationUpdate, u.availability)
  }

  /** Two documents have the same JSON exactly when they differ at most
      in their password: the view drops the password and nothing else. */
  lemma ToJSONForgetsOnlyPassword(u: User, v: User)
    ensures ToJSON(u) == ToJSON(v) <==> u.(password := v.password) == v
  {
  }

  /** The projection `name email currentLocation lastLocationUpdate
      availability` used for live courier positions. */
  datatype LocationView = LocationView(
    id: Id,
    name: string,
    email: string,
    coordinates: seq<JsNumber>,
    lastLocationUpdate: Option<int>,
    availability: Availability)

  function ToLocationView(u: User): LocationView
  {
    LocationView(u.id, u.name, u.email, u.coordinates, u.lastLocationUpdate, u.availability)
  }

  // ---------------------------------------------------------------
  // E-mail: `lowercase`, `trim`, then `match: /^\S+@\S+\.\S+$/`

  function NormalizeEmail(s: string): (r: string)
    ensures forall k :: 0 <= k < |r| ==> !('A' <= r[k] <= 'Z')
    ensures r == [] || (!IsSpace(r[0]) && !IsSpace(r[|r| - 1]))
    ensures StrippedAt(Lower(s), r, SkipSpace(Lower(s), 0))
  {
    var l := Lower(s);
    var t := Trim(l);
    t
  }

  /** Normalising is idempotent: a stored e-mail, used again as a query
      filter, finds itself. */
  lemma {:induction false} NormalizeEmailIdempotent(s: string)
    ensures NormalizeEmail(NormalizeEmail(s)) == NormalizeEmail(s)
  {
    var r := NormalizeEmail(s);
    LowerKeepsLowerCase(r);
    TrimKeepsTrimmed(r);
  }

  /** The language of `^\S+@\S+\.\S+$`: no white space at all, an `@`
      after at least one character, then at least one character, a `.`,
      and at least one character after it. */
  ghost predicate EmailShape(s: string)
  {
    (forall k :: 0 <= k < |s| ==> !IsSpace(s[k]))
    && exists i, j :: 1 <= i && i + 2 <= j && j + 2 <= |s| && s[i] == '@' && s[j] == '.'
  }

  /** Smallest index at or after `from` holding `c`. */
  function FindFrom(s: string, c: char, from: nat): (r: Option<nat>)
    decreases |s| - from
    ensures r.Some? ==> from <= r.value < |s| && s[r.value] == c
                        && forall k :: from <= k < r.value ==> s[k] != c
    ensures r.None? ==> forall k :: from <= k < |s| ==> s[k] != c
  {
    if from >= |s| then None
    else if s[from] == c then Some(from)
    else FindFrom(s, c, from + 1)
  }

  /** Largest index below `before` holding `c`. */
  function FindLastBefore(s: string, c: char, before: nat): (r: Option<nat>)
    requires before <= |s|
    ensures r.Some? ==> r.value < before && s[r.value] == c
                        && forall k :: r.value < k < before ==> s[k] != c
    ensures r.None? ==> forall k :: 0 <= k < before ==> s[k] != c
  {
    if before == 0 then None
    else if s[before - 1] == c then Some(before - 1)
    else FindLastBefore(s, c, before - 1)
  }

  function HasNoSpace(s: string): (b: bool)
    ensures b <==> forall k :: 0 <= k < |s| ==> !IsSpace(s[k])
  {
    if s == [] then true else !IsSpace(s[0]) && HasNoSpace(s[1..])
  }

  /** The validator: take the first `@` after position 0 and the last `.`
      before the final character, and compare their places. */
  function MatchesEmail(s: string): bool
  {
    HasNoSpace(s) && |s| >= 1 &&
    match (FindFrom(s, '@', 1), FindLastBefore(s, '.', |s| - 1))
    case (Some(i), Some(j)) => i + 2 <= j
    case _ => false
  }

  lemma {:induction false} MatchesEmailIsPattern(s: string)
    ensures MatchesEmail(s) <==> EmailShape(s)
  {
    if EmailShape(s) {
      var i, j :| 1 <= i && i + 2 <= j && j + 2 <= |s| && s[i] == '@' && s[j] == '.';
      var a := FindFrom(s, '@', 1);
      var d := FindLastBefore(s, '.', |s| - 1);
      assert a.Some? && a.value <= i;
      assert d.Some? && d.value >= j;
    }
    if MatchesEmail(s) {
      var a := FindFrom(s, '@', 1);
      var d := FindLastBefore(s, '.', |s| - 1);
      assert s[a.value] == '@' && s[d.value] == '.';
    }
  }

  // ---------------------------------------------------------------
  // Creating and saving a user

  /** The document `User.create` validates, before the save hook: the
      setters (trim, lowercase) applied, the defaults filled in, and
      `None` when a validator fails (required name, e-mail pattern,
      password of at least six characters, role enumeration). */
  function NewUser(id: Id, name: string, email: string, password: string,
                   role: string, phone: Option<string>): (r: Option<User>)
    ensures r.Some? <==>
              Trim(name) != [] && MatchesEmail(NormalizeEmail(email))
              && Utf16Length(password) >= MinPasswordLength && ParseRole(role).Some?
    ensures r.Some? ==>
              var u := r.value;
              && u.id == id && u.name == Trim(name) && u.email == NormalizeEmail(email)
              && u.password == password && RoleName(u.role) == role
              && u.isActive && u.coordinates == DefaultCoordinates
              && u.lastLocationUpdate == None && u.availability == Offline
              && u.phone == (if phone.None? then None else Some(Trim(phone.value)))
  {
    var n := Trim(name);
    var e := NormalizeEmail(email);
    if n == [] || !MatchesEmail(e) || Utf16Length(password) < MinPasswordLength then None
    else match ParseRole(role)
      case None => None
      case Some(ro) =>
        var ph := match phone case None => None case Some(p) => Some(Trim(p));
        Some(User(id, n, e, password, ro, ph, true, DefaultCoordinates, None, Offline))
  }

  /** The pre-save hook: the password is replaced by its hash only when
      it was modified; `hash` stands for bcrypt with a fresh salt. */
  function SaveHook(u: User, passwordModified: bool, hash: string -> string): (r: User)
    ensures r.(password := u.password) == u
    ensures passwordModified ==> r.password == hash(u.password)
    ensures !passwordModified ==> r == u
  {
    if passwordModified then u.(password := hash(u.password)) else u
  }

  // ---------------------------------------------------------------
  // The user collection

  /** Whether some stored user has e-mail `e` (the unique index). */
  predicate EmailTaken(users: map<Id, User>, e: string)
  {
    exists k :: k in users && users[k].email == e
  }

  /** Ids are the map keys and e-mails are unique. */
  ghost predicate Directory(users: map<Id, User>)
  {
    && (forall k :: k in users ==> users[k].id == k)
    && (forall a, b :: a in users && b in users && users[a].email == users[b].email ==> a == b)
  }

  /** The users collection, shared by the auth, user, location and socket
      handlers. */
  class UserDirectory {
    var users: map<Id, User>

    ghost predicate Valid()
      reads this
    {
      Directory(users)
    }

    constructor()
      ensures Valid() && users == map[]
    {
      users := map[];
    }
  }

  /** Writing back a document under its own id keeps the directory valid
      when its e-mail is unchanged or not used by anyone else. */
  lemma {:induction false} StorePreservesDirectory(users: map<Id, User>, u: User)
    requires Directory(users)
    requires (u.id in users && users[u.id].email == u.email) || !EmailTaken(users, u.email)
    ensures Directory(users[u.id := u])
  {
    var m := users[u.id := u];
    forall a, b | a in m && b in m && m[a].email == m[b].email
      ensures a == b
    {
      if a != u.id && b != u.id {
        assert users[a].email == users[b].email;
      }
    }
  }
}
