/** Registration, login and the caller's own profile. Password hashing,
    hash comparison and token signing are parameters: `hash` stands for
    bcrypt with a fresh salt, `verify(candidate, stored)` for bcrypt's
    compare, `sign(id)` for the signed token carrying the user id. */
module AuthController {
  import opened Types
  import opened UserModel

  const EmailInUse := HttpError(400, "Cet email est déjà utilisé")
  const AdminOnly := HttpError(403, "Seul un administrateur peut créer ce type de compte")
  const RegisterFailed := HttpError(500, "Erreur lors de l'inscription")
  const CredentialsRequired := HttpError(400, "Email et mot de passe requis")
  const BadCredentials := HttpError(401, "Identifiants invalides")
  const AccountDisabled := HttpError(401, "Votre compte a été désactivé")
  const ProfileFailed := HttpError(500, "Erreur lors de la mise à jour")

  /** The account summary in an auth response: registration reports id,
      name, e-mail and role; login adds the phone. */
  datatype SessionUser =
    | Registered(id: Id, name: string, email: string, role: Role)
    | LoggedIn(id: Id, name: string, email: string, role: Role, phone: Option<string>)

  datatype Session = Session(user: SessionUser, token: string)

  /** A registration body; an absent string field is the empty string. */
  datatype RegisterBody = RegisterBody(name: string, email: string, password: string,
                                       role: string, phone: Option<string>)

  /** The role names only an administrator may hand out at registration. */
  predicate PrivilegedRoleName(role: string)
  {
    role == "admin" || role == "dispatcher"
  }

  predicate IsAdmin(caller: Option<Actor>)
  {
    caller.Some? && caller.value.role == Admin
  }

  /** The role a new account asks for: `courier` when the body has none. */
  function RequestedRole(role: string): (r: string)
    ensures role != "" ==> r == role
    ensures role == "" ==> ParseRole(r) == Some(Courier)
  {
    if role == "" then "courier" else role
  }

  /** `findOne({email})`, with the e-mail setters applied to the filter. */
  method FindByEmail(dir: UserDirectory, email: string) returns (r: Option<Id>)
    ensures r.None? <==> !EmailTaken(dir.users, NormalizeEmail(email))
    ensures r.Some? ==> r.value in dir.users && dir.users[r.value].email == NormalizeEmail(email)
  {
    var e := NormalizeEmail(email);
    if !EmailTaken(dir.users, e) {
      return None;
    }
    var k :| k in dir.users && dir.users[k].email == e;
    r := Some(k);
  }

  /** register. The duplicate check comes first, on the normalised
      e-mail; then an `admin` or `dispatcher` role needs an administrator
      caller; then the schema validators (500). The stored password is
      the hash of the given one. `id` is the fresh document id. */
  method Register(dir: UserDirectory, caller: Option<Actor>, body: RegisterBody, id: Id,
                  hash: string -> string, sign: Id -> string) returns (r: Result<Session>)
    requires dir.Valid() && id !in dir.users
    modifies dir
    ensures dir.Valid()
    ensures EmailTaken(old(dir.users), NormalizeEmail(body.email)) ==> r == Err(EmailInUse)
    ensures (!EmailTaken(old(dir.users), NormalizeEmail(body.email))
             && PrivilegedRoleName(body.role) && !IsAdmin(caller)) ==> r == Err(AdminOnly)
    ensures (!EmailTaken(old(dir.users), NormalizeEmail(body.email))
             && (PrivilegedRoleName(body.role) ==> IsAdmin(caller))
             && NewUser(id, body.name, body.email, body.password, RequestedRole(body.role), body.phone).None?)
            ==> r == Err(RegisterFailed)
    ensures r.Err? ==> dir.users == old(dir.users)
    ensures r.Ok? ==>
              && !EmailTaken(old(dir.users), NormalizeEmail(body.email))
              && (PrivilegedRoleName(body.role) ==> IsAdmin(caller))
              && var doc := NewUser(id, body.name, body.email, body.password, RequestedRole(body.role), body.phone);
              && doc.Some?
              && var u := doc.value.(password := hash(body.password));
              && dir.users == old(dir.users)[id := u]
              && r.value == Session(Registered(id, u.name, u.email, u.role), sign(id))
  {
    var existing := FindByEmail(dir, body.email);
    if existing.Some? {
      return Err(EmailInUse);
    }
    if PrivilegedRoleName(body.role) && !IsAdmin(caller) {
      return Err(AdminOnly);
    }
    var doc := NewUser(id, body.name, body.email, body.password, RequestedRole(body.role), body.phone);
    if doc.None? {
      return Err(RegisterFailed);
    }
    var u := SaveHook(doc.value, true, hash);
    StorePreservesDirectory(dir.users, u);
    dir.users := dir.users[id := u];
    r := Ok(Session(Registered(u.id, u.name, u.email, u.role), sign(u.id)));
  }

  /** login. Both fields must be non-empty; an unknown e-mail and a wrong
      password give the same 401, and the deactivated-account 401 is only
      returned to a caller who gave the right password. */
  method Login(dir: UserDirectory, email: string, password: string,
               verify: (string, string) -> bool, sign: Id -> string) returns (r: Result<Session>)
    requires dir.Valid()
    ensures email == "" || password == "" ==> r == Err(CredentialsRequired)
    ensures (email != "" && password != "" && !EmailTaken(dir.users, NormalizeEmail(email)))
            ==> r == Err(BadCredentials)
    ensures forall k :: (email != "" && password != "" && k in dir.users
                         && dir.users[k].email == NormalizeEmail(email))
                        ==> r == (if !verify(password, dir.users[k].password) then Err(BadCredentials)
                                  else if !dir.users[k].isActive then Err(AccountDisabled)
                                  else Ok(Session(LoggedIn(k, dir.users[k].name, dir.users[k].email,
                                                           dir.users[k].role, dir.users[k].phone), sign(k))))
  {
    if email == "" || password == "" {
      return Err(CredentialsRequired);
    }
    var found := FindByEmail(dir, email);
    if found.None? {
      return Err(BadCredentials);
    }
    var u := dir.users[found.value];
    if !verify(password, u.password) {
      return Err(BadCredentials);
    }
    if !u.isActive {
      return Err(AccountDisabled);
    }
    r := Ok(Session(LoggedIn(u.id, u.name, u.email, u.role, u.phone), sign(u.id)));
  }

  /** A successful login is always for an active account whose stored
      hash accepts the password, and the session is that account's. */
  method LoginSucceedsOnlyForActiveMatch(dir: UserDirectory, email: string, password: string,
                                         verify: (string, string) -> bool, sign: Id -> string)
      returns (r: Result<Session>)
    requires dir.Valid()
    ensures r.Ok? ==> exists k :: k in dir.users && dir.users[k].email == NormalizeEmail(email)
                                  && dir.users[k].isActive && verify(password, dir.users[k].password)
                                  && r.value.token == sign(k)
  {
    r := Login(dir, email, password, verify, sign);
    if r.Ok? {
      var k :| k in dir.users && dir.users[k].email == NormalizeEmail(email);
    }
  }

  /** getMe: the caller's own record, or null when it has vanished. */
  function GetMe(users: map<Id, User>, actor: Actor): (r: Option<PublicUser>)
    ensures r.Some? <==> actor.id in users
    ensures r.Some? ==> r.value == ToJSON(users[actor.id])
  {
    if actor.id in users then Some(ToJSON(users[actor.id])) else None
  }

  /** updateProfile: only the name and the phone can change, whatever
      else the body carries; a name that is empty after trimming fails
      the required validator. A vanished caller gets a success with null
      data. */
  method UpdateProfile(dir: UserDirectory, actor: Actor, name: Option<string>, phone: Option<string>)
      returns (r: Result<Option<PublicUser>>)
    requires dir.Valid()
    modifies dir
    ensures dir.Valid()
    ensures r.Err? <==> name.Some? && Trim(name.value) == []
    ensures r.Err? ==> r.error == ProfileFailed
    ensures r.Err? || actor.id !in old(dir.users) ==> dir.users == old(dir.users)
    ensures r.Ok? && actor.id !in old(dir.users) ==> r.value == None
    ensures (r.Ok? && actor.id in old(dir.users)) ==>
              && var old_u := old(dir.users)[actor.id];
              && var u := old_u.(name := if name.None? then old_u.name else Trim(name.value),
                                 phone := if phone.None? then old_u.phone else Some(Trim(phone.value)));
              && dir.users == old(dir.users)[actor.id := u]
              && r.value == Some(ToJSON(u))
  {
    if name.Some? && Trim(name.value) == [] {
      return Err(ProfileFailed);
    }
    if actor.id !in dir.users {
      return Ok(None);
    }
    var doc := dir.users[actor.id];
    var u := doc.(name := if name.None? then doc.name else Trim(name.value),
                  phone := if phone.None? then doc.phone else Some(Trim(phone.value)));
    StorePreservesDirectory(dir.users, u);
    dir.users := dir.users[actor.id := u];
    r := Ok(Some(ToJSON(u)));
  }
}
