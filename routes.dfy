/** The four routers: which handler a request reaches and which gate it
    passes on the way. `protect` (token to user) is a parameter: the
    caller is `Some(actor)` when it succeeded and `None` when it did not
    run or failed. `authorize(roles)` admits a caller whose role is in the
    list. Routes are tried in declaration order. */
module Routes {
  import opened Types
  import opened TaskModel
  import TaskController
  import UserModel
  import AuthController

  datatype Verb = Get | Post | Put | Patch | Delete

  /** A path segment: a literal, or a `:param` matching any non-empty one.
      Every router is a default `express.Router()`, which matches
      literals case-insensitively; all literals here are lower case, so a
      segment matches one when its lowering equals it. */
  datatype Segment = Lit(text: string) | Param

  /** What a single route demands beyond its router's own middleware. */
  datatype Guard = Anyone | SignedIn | OnlyRoles(roles: set<Role>)

  datatype Action =
    | GetTasks | CreateTask | GetTask | UpdateTask | DeleteTask | UpdateTaskStatus
    | GetCouriers | GetUsers | GetUser | UpdateUser | DeleteUser | ToggleUserActive | UpdateAvailability
    | UpdateLocation | GetCouriersLocations | FindNearbyCouriers
    | Register | Login | GetMe | UpdateProfile

  datatype Route = Route(verb: Verb, path: seq<Segment>, guard: Guard, action: Action)

  /** `protectAll` is `router.use(protect)` ahead of every route. */
  datatype Router = Router(protectAll: bool, routes: seq<Route>)

  const SupervisorRoles: set<Role> := {Admin, Dispatcher}

  const TaskRouter := Router(true, [
    Route(Get, [], Anyone, GetTasks),
    Route(Post, [], OnlyRoles(SupervisorRoles), CreateTask),
    Route(Get, [Param], Anyone, GetTask),
    Route(Put, [Param], OnlyRoles(SupervisorRoles), UpdateTask),
    Route(Delete, [Param], OnlyRoles(SupervisorRoles), DeleteTask),
    Route(Patch, [Param, Lit("status")], Anyone, UpdateTaskStatus)])

  const UserRouter := Router(true, [
    Route(Get, [Lit("couriers")], OnlyRoles(SupervisorRoles), GetCouriers),
    Route(Get, [], OnlyRoles({Admin}), GetUsers),
    Route(Get, [Param], OnlyRoles({Admin}), GetUser),
    Route(Put, [Param], OnlyRoles({Admin}), UpdateUser),
    Route(Delete, [Param], OnlyRoles({Admin}), DeleteUser),
    Route(Patch, [Param, Lit("toggle-active")], OnlyRoles({Admin}), ToggleUserActive),
    Route(Patch, [Lit("availability")], OnlyRoles({Courier}), UpdateAvailability)])

  const LocationRouter := Router(true, [
    Route(Post, [Lit("update")], OnlyRoles({Courier}), UpdateLocation),
    Route(Get, [Lit("couriers")], OnlyRoles(SupervisorRoles), GetCouriersLocations),
    Route(Get, [Lit("nearby")], OnlyRoles(SupervisorRoles), FindNearbyCouriers)])

  const AuthRouter := Router(false, [
    Route(Post, [Lit("register")], Anyone, Register),
    Route(Post, [Lit("login")], Anyone, Login),
    Route(Get, [Lit("me")], SignedIn, GetMe),
    Route(Put, [Lit("profile")], SignedIn, UpdateProfile)])

  predicate SegmentMatches(s: Segment, x: string)
  {
    match s
    case Lit(t) => Lower(x) == t
    case Param => x != ""
  }

  predicate RouteMatches(r: Route, v: Verb, path: seq<string>)
  {
    r.verb == v && |r.path| == |path| && forall i :: 0 <= i < |path| ==> SegmentMatches(r.path[i], path[i])
  }

  /** The first route, at or after `from`, matching the request. */
  function Resolve(routes: seq<Route>, v: Verb, path: seq<string>, from: nat): (r: Option<nat>)
    decreases |routes| - from
    ensures r.Some? ==> from <= r.value < |routes| && RouteMatches(routes[r.value], v, path)
                        && forall k :: from <= k < r.value ==> !RouteMatches(routes[k], v, path)
    ensures r.None? ==> forall k :: from <= k < |routes| ==> !RouteMatches(routes[k], v, path)
  {
    if from >= |routes| then None
    else if RouteMatches(routes[from], v, path) then Some(from)
    else Resolve(routes, v, path, from + 1)
  }

  /** A one-segment request matches a one-segment route when the verb
      and that segment do. */
  lemma SingleSegment(r: Route, v: Verb, x: string)
    requires |r.path| == 1
    ensures RouteMatches(r, v, [x]) <==> r.verb == v && SegmentMatches(r.path[0], x)
  {
    assert [x][0] == x;
  }

  /** How a request ends before or at its handler: 401 from `protect`,
      403 from `authorize`, Express's 404 when no route matches, or the
      routed handler runs. */
  datatype Outcome = Unauthenticated | WrongRole | NoRoute | Run(action: Action)

  function Dispatch(router: Router, v: Verb, path: seq<string>, caller: Option<Actor>): (r: Outcome)
    ensures router.protectAll && caller.None? ==> r == Unauthenticated
    ensures r.Run? ==>
              exists i :: 0 <= i < |router.routes| && RouteMatches(router.routes[i], v, path)
                          && router.routes[i].action == r.action
                          && (router.routes[i].guard.OnlyRoles? ==>
                                caller.Some? && caller.value.role in router.routes[i].guard.roles)
                          && (router.routes[i].guard.SignedIn? ==> caller.Some?)
  {
    if router.protectAll && caller.None? then Unauthenticated
    else match Resolve(router.routes, v, path, 0)
      case None => NoRoute
      case Some(i) =>
        match router.routes[i].guard
        case Anyone => Run(router.routes[i].action)
        case SignedIn => if caller.None? then Unauthenticated else Run(router.routes[i].action)
        case OnlyRoles(rs) =>
          if caller.None? then Unauthenticated
          else if caller.value.role !in rs then WrongRole
          else Run(router.routes[i].action)
  }

  /** `GET /couriers` is declared before `GET /:id`, so the word
      `couriers`, in any letter case, is never read as a user id, and any
      other segment is. */
  lemma {:induction false} CouriersBeforeUserId(x: string, caller: Actor)
    requires x != ""
    ensures Resolve(UserRouter.routes, Get, [x], 0) == (if Lower(x) == "couriers" then Some(0) else Some(2))
    ensures Lower(x) == "couriers" ==>
              Dispatch(UserRouter, Get, [x], Some(caller)) ==
                (if caller.role == Courier then WrongRole else Run(GetCouriers))
    ensures Lower(x) != "couriers" ==>
              Dispatch(UserRouter, Get, [x], Some(caller)) ==
                (if caller.role == Admin then Run(GetUser) else WrongRole)
  {
    var rs := UserRouter.routes;
    SingleSegment(rs[0], Get, x);
    SingleSegment(rs[2], Get, x);
    assert !RouteMatches(rs[1], Get, [x]);
    assert RouteMatches(rs[2], Get, [x]);
  }

  /** Letter case does not matter: `GET /Couriers` is the courier list,
      not a lookup of the user id `Couriers`. */
  lemma {:induction false} CouriersInAnyCase(caller: Actor)
    ensures Dispatch(UserRouter, Get, ["Couriers"], Some(caller)) ==
              (if caller.role == Courier then WrongRole else Run(GetCouriers))
  {
    assert Lower("Couriers") == "couriers" by {
      assert forall k :: 0 <= k < 8 ==> Lower("Couriers")[k] == "couriers"[k];
    }
    CouriersBeforeUserId("Couriers", caller);
  }

  /** The task routes that change a task reach their handlers only for
      admins and dispatchers. */
  lemma {:induction false} TaskWritesNeedSupervisor(v: Verb, path: seq<string>, caller: Actor)
    ensures Dispatch(TaskRouter, v, path, Some(caller)) in {Run(CreateTask), Run(UpdateTask), Run(DeleteTask)}
            ==> caller.role in SupervisorRoles
  {
    var rs := TaskRouter.routes;
    var o := Dispatch(TaskRouter, v, path, Some(caller));
    if o in {Run(CreateTask), Run(UpdateTask), Run(DeleteTask)} {
      var i := Resolve(rs, v, path, 0).value;
      assert rs[i].action == o.action;
      assert i == 1 || i == 3 || i == 4;
    }
  }

  /** Editing or deleting a task: the route excludes couriers and the
      handler excludes other dispatchers' tasks, so together an admin may
      edit any task and a dispatcher only its own. */
  lemma {:induction false} TaskEditAccess(id: string, caller: Actor, t: Task)
    requires id != ""
    ensures Dispatch(TaskRouter, Put, [id], Some(caller)) == Run(UpdateTask) && TaskController.MayEdit(caller, t)
            <==> caller.role == Admin || (caller.role == Dispatcher && t.createdBy == caller.id)
    ensures Dispatch(TaskRouter, Delete, [id], Some(caller)) == Run(DeleteTask) && TaskController.MayEdit(caller, t)
            <==> caller.role == Admin || (caller.role == Dispatcher && t.createdBy == caller.id)
  {
    var rs := TaskRouter.routes;
    assert !RouteMatches(rs[0], Put, [id]) && !RouteMatches(rs[1], Put, [id]) && !RouteMatches(rs[2], Put, [id]);
    assert RouteMatches(rs[3], Put, [id]);
    assert Resolve(rs, Put, [id], 0) == Some(3);
    assert forall k :: 0 <= k < 4 ==> !RouteMatches(rs[k], Delete, [id]);
    assert RouteMatches(rs[4], Delete, [id]);
    assert Resolve(rs, Delete, [id], 0) == Some(4);
  }

  /** Changing a task's status: any signed-in role reaches the handler,
      which refuses only couriers the task is not assigned to. */
  lemma {:induction false} TaskStatusAccess(id: string, status: string, caller: Actor, t: Task)
    requires id != "" && Lower(status) == "status"
    ensures Dispatch(TaskRouter, Patch, [id, status], Some(caller)) == Run(UpdateTaskStatus)
    ensures TaskController.MayChangeStatus(caller, t) <==> caller.role != Courier || t.assignedTo == Some(caller.id)
  {
    var rs := TaskRouter.routes;
    assert forall k :: 0 <= k < 5 ==> !RouteMatches(rs[k], Patch, [id, status]);
    assert RouteMatches(rs[5], Patch, [id, status]);
  }

  /** Listing and reading tasks have no route-level role gate: every
      signed-in role reaches the handler, which scopes what it returns. */
  lemma {:induction false} TaskReadsOpen(id: string, caller: Actor)
    requires id != ""
    ensures Dispatch(TaskRouter, Get, [], Some(caller)) == Run(GetTasks)
    ensures Dispatch(TaskRouter, Get, [id], Some(caller)) == Run(GetTask)
  {
    var rs := TaskRouter.routes;
    assert RouteMatches(rs[0], Get, []);
    assert Resolve(rs, Get, [], 0) == Some(0);
    assert !RouteMatches(rs[0], Get, [id]) && !RouteMatches(rs[1], Get, [id]);
    assert RouteMatches(rs[2], Get, [id]);
    assert Resolve(rs, Get, [id], 0) == Some(2);
  }

  /** Listing every account is for admins only. */
  lemma {:induction false} UserListGate(caller: Actor)
    ensures Dispatch(UserRouter, Get, [], Some(caller)) == (if caller.role == Admin then Run(GetUsers) else WrongRole)
  {
    var rs := UserRouter.routes;
    assert !RouteMatches(rs[0], Get, []) && RouteMatches(rs[1], Get, []);
    assert Resolve(rs, Get, [], 0) == Some(1);
  }

  /** Updating, deleting and toggling an account are for admins only;
      any other role is stopped at the route. */
  lemma {:induction false} UserWriteGates(id: string, toggle: string, caller: Actor)
    requires id != "" && Lower(toggle) == "toggle-active"
    ensures Dispatch(UserRouter, Put, [id], Some(caller)) == (if caller.role == Admin then Run(UpdateUser) else WrongRole)
    ensures Dispatch(UserRouter, Delete, [id], Some(caller)) == (if caller.role == Admin then Run(DeleteUser) else WrongRole)
    ensures Dispatch(UserRouter, Patch, [id, toggle], Some(caller)) ==
              (if caller.role == Admin then Run(ToggleUserActive) else WrongRole)
  {
    var rs := UserRouter.routes;
    assert forall k :: 0 <= k < 3 ==> !RouteMatches(rs[k], Put, [id]);
    assert RouteMatches(rs[3], Put, [id]);
    assert Resolve(rs, Put, [id], 0) == Some(3);
    assert forall k :: 0 <= k < 4 ==> !RouteMatches(rs[k], Delete, [id]);
    assert RouteMatches(rs[4], Delete, [id]);
    assert Resolve(rs, Delete, [id], 0) == Some(4);
    assert forall k :: 0 <= k < 5 ==> !RouteMatches(rs[k], Patch, [id, toggle]);
    assert RouteMatches(rs[5], Patch, [id, toggle]);
    assert Resolve(rs, Patch, [id, toggle], 0) == Some(5);
  }

  /** A courier's own availability is set through a courier-only route. */
  lemma {:induction false} AvailabilityGate(x: string, caller: Actor)
    requires Lower(x) == "availability"
    ensures Dispatch(UserRouter, Patch, [x], Some(caller)) ==
              (if caller.role == Courier then Run(UpdateAvailability) else WrongRole)
  {
    var rs := UserRouter.routes;
    assert forall k :: 0 <= k < 6 ==> !RouteMatches(rs[k], Patch, [x]);
    assert RouteMatches(rs[6], Patch, [x]);
    assert Resolve(rs, Patch, [x], 0) == Some(6);
  }

  /** Position writes over HTTP are for couriers only. */
  lemma {:induction false} LocationUpdateGate(x: string, caller: Actor)
    requires Lower(x) == "update"
    ensures Dispatch(LocationRouter, Post, [x], Some(caller)).Run? <==> caller.role == Courier
  {
    assert RouteMatches(LocationRouter.routes[0], Post, [x]);
    assert Resolve(LocationRouter.routes, Post, [x], 0) == Some(0);
  }

  /** The live courier list is for admins and dispatchers. */
  lemma {:induction false} LocationListGate(x: string, caller: Actor)
    requires Lower(x) == "couriers"
    ensures Dispatch(LocationRouter, Get, [x], Some(caller)).Run? <==> caller.role in SupervisorRoles
  {
    var rs := LocationRouter.routes;
    assert !RouteMatches(rs[0], Get, [x]) && RouteMatches(rs[1], Get, [x]);
    assert Resolve(rs, Get, [x], 0) == Some(1);
  }

  /** The nearby search is for admins and dispatchers. */
  lemma {:induction false} NearbyGate(x: string, caller: Actor)
    requires Lower(x) == "nearby"
    ensures Dispatch(LocationRouter, Get, [x], Some(caller)).Run? <==> caller.role in SupervisorRoles
  {
    var rs := LocationRouter.routes;
    assert !RouteMatches(rs[0], Get, [x]);
    SingleSegment(rs[1], Get, x);
    assert RouteMatches(rs[2], Get, [x]);
    assert Resolve(rs, Get, [x], 0) == Some(2);
  }

  /** `/register` and `/login` run for anyone, signed in or not. */
  lemma {:induction false} AuthOpenGates(register: string, login: string, caller: Option<Actor>)
    requires Lower(register) == "register" && Lower(login) == "login"
    ensures Dispatch(AuthRouter, Post, [register], caller) == Run(Register)
    ensures Dispatch(AuthRouter, Post, [login], caller) == Run(Login)
  {
    var rs := AuthRouter.routes;
    assert RouteMatches(rs[0], Post, [register]);
    SingleSegment(rs[0], Post, login);
    assert RouteMatches(rs[1], Post, [login]);
  }

  /** `/me` and `/profile` need a signed-in caller. */
  lemma {:induction false} AuthSessionGates(me: string, profile: string, caller: Option<Actor>)
    requires Lower(me) == "me" && Lower(profile) == "profile"
    ensures Dispatch(AuthRouter, Get, [me], caller) == (if caller.None? then Unauthenticated else Run(GetMe))
    ensures Dispatch(AuthRouter, Put, [profile], caller) == (if caller.None? then Unauthenticated else Run(UpdateProfile))
  {
    var rs := AuthRouter.routes;
    assert forall k :: 0 <= k < 2 ==> !RouteMatches(rs[k], Get, [me]);
    assert RouteMatches(rs[2], Get, [me]);
    assert forall k :: 0 <= k < 3 ==> !RouteMatches(rs[k], Put, [profile]);
    assert RouteMatches(rs[3], Put, [profile]);
  }

  /** `/register` is not behind `protect`, so the handler never sees a
      caller, and a request for an `admin` or `dispatcher` account is
      always refused, whatever token it carries. */
  method RegisterThroughRouter(dir: UserModel.UserDirectory, token: Option<Actor>, segment: string,
                               body: AuthController.RegisterBody, id: Id,
                               hash: string -> string, sign: Id -> string)
      returns (r: Result<AuthController.Session>)
    requires dir.Valid() && id !in dir.users && Lower(segment) == "register"
    modifies dir
    ensures dir.Valid()
    ensures Dispatch(AuthRouter, Post, [segment], token) == Run(Register)
    ensures AuthController.PrivilegedRoleName(body.role) ==> r.Err? && dir.users == old(dir.users)
  {
    AuthOpenGates(segment, "login", token);
    r := AuthController.Register(dir, None, body, id, hash, sign);
  }
}
