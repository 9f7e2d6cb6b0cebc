# Delivery dispatch core, modelled in Dafny

This project models the dispatch logic of a courier-delivery backend and
of the client's live map. It covers five pieces:

- **Task lifecycle.** Creation, role-scoped listing and reading, field
  updates, and the four-state status workflow (CREATED, IN_PROGRESS,
  COMPLETED, CANCELLED) with its pickup and delivery stamps. It also
  covers the pre-save hook that appends to the status history, and the
  notifications and socket events each handler produces.
- **Courier location registry.** The HTTP position write, with its
  validation and courier-only guard, the list of on-duty couriers, and
  the nearby search reduced to its validation and availability filter.
- **Real-time hub.** The handshake decision, the two rooms every
  admitted connection joins, the set of connections each emission
  reaches, and the socket event handlers.
- **User administration and authentication.** Listing, reading,
  updating, toggling and deleting accounts, and a courier's own
  availability. Registration, login, the caller's profile, and the four
  routers with their per-route role gates and declaration order.
- **Client live map.** The upsert of a courier's position into the
  marker list, the replacement by a full list, the marker filter and
  the "time since" label.

The stores are classes whose methods change their fields:
- a task store (`TaskController.TaskStore`) holds a map of tasks and
  a notification ledger;
- a user directory (`UserModel.UserDirectory`) holds a map of users;
- a connection hub (`SocketHub.Hub`) holds live connections and room
  membership.

Each HTTP handler is a method. It returns the HTTP result (a value, or a
status code and message) together with the sequence of socket emissions
it makes, each an audience paired with an event. Its contract states
the new store state in full. The route tables, the schema rules and the
client reducer are functions, and lemmas state their properties.

External services are parameters:
- the caller, resolved from the token;
- the current time, in milliseconds;
- fresh document ids;
- password hashing and comparison;
- token signing and verification.

Some behaviours of the code are easy to misread; the model follows the
code in each of them:
- `task:status:changed` from the status handler goes only to the
  creator's own channel, not also to the admin and dispatcher rooms.
- A `PUT` on a task may overwrite `createdBy`: the update body is
  applied as given.
- The two position write paths do not converge. The HTTP write emits
  `location:updated` to every connection; the socket write sends it to
  the admin and dispatcher rooms only.
- No handler sends a `notification` event when it creates a
  notification record. The task handlers emit `task:assigned`,
  `task:updated` and `task:status:changed` instead.

## Model

| member | source | states |
|---|---|---|
| Types.ParseRole | backend/src/models/User.js:24-29 | a string parses to a role exactly when it is that role's name (admin, dispatcher, courier) |
| Types.ParseAvailability | backend/src/models/User.js:54-58 | a string parses to an availability exactly when it is its name (available, busy, offline) |
| Types.ParseStatus | backend/src/models/Task.js:18-22 | a string parses to a status exactly when it is one of the four status names |
| Types.ParsePriority | backend/src/models/Task.js:13-17 | a string parses to a priority exactly when it is one of low, medium, high, urgent |
| Types.Trim | backend/src/models/User.js:5-9 | the result is the input with white space removed from both ends only: its characters are an infix, everything dropped is white space, and it neither starts nor ends with white space |
| Types.Lower | backend/src/models/User.js:14 | the result has the input's length, each ASCII upper-case letter becomes the matching lower-case letter, every other character is kept, and no upper-case ASCII letter is left |
| Types.LowerChar | backend/src/models/User.js:14 | an upper-case ASCII letter maps to the lower-case letter at the same alphabet position; every other character is unchanged |
| Types.TrimKeepsTrimmed | backend/src/models/User.js:5-9 | trimming a string that neither starts nor ends with white space leaves it unchanged |
| Types.LowerKeepsLowerCase | backend/src/models/User.js:14 | lowering a string without upper-case ASCII letters leaves it unchanged |
| Types.Utf16Length | backend/src/models/User.js:21 | the length in UTF-16 code units lies between the character count and twice it, and equals the character count exactly when no character lies beyond the Basic Multilingual Plane |
| UserModel.NormalizeEmail | backend/src/models/User.js:10-16 | the stored e-mail is the lowered input with white space removed from both ends only: an infix of it starting at its first non-space character, with no upper-case letter and no white space at either end |
| UserModel.NormalizeEmailIdempotent | backend/src/models/User.js:10-16 | normalising an already normalised e-mail changes nothing, so the setters agree on a stored value |
| UserModel.MatchesEmailIsPattern | backend/src/models/User.js:16 | the validator accepts exactly the strings of `^\S+@\S+\.\S+$` |
| UserModel.NewUser | backend/src/models/User.js:4-61 | creation succeeds exactly when the trimmed name is non-empty, the normalised e-mail matches, the password has at least 6 UTF-16 code units and the role parses; the new account is active, offline, located at [0, 0], with no location time, and stores the trimmed phone when one was given |
| UserModel.SaveHook | backend/src/models/User.js:67-75 | the password is replaced by its hash only when it was modified, and nothing else changes |
| UserModel.ToJSON | backend/src/models/User.js:83-87 | the public view keeps every field but the password |
| UserModel.ToJSONForgetsOnlyPassword | backend/src/models/User.js:83-87 | two documents have the same public view exactly when they differ at most in their password |
| UserModel.StorePreservesDirectory | backend/src/models/User.js:13 | writing a document back keeps ids equal to keys and e-mails unique, when its e-mail is unchanged or held by no one |
| NotificationModel.ParseNotificationType | backend/src/models/Notification.js:9-13 | the type parses exactly when it is one of the five type names |
| NotificationModel.NewNotification | backend/src/models/Notification.js:3-30 | creation succeeds exactly when recipient, title and message are present and the type parses; the new notification is unread, has no read time and keeps the optional related task |
| TaskModel.ToAddress | backend/src/models/Task.js:24-41 | the coordinates are kept as given and the country defaults to France |
| TaskModel.SaveWithHistory | backend/src/models/Task.js:121-130 | when the status was modified, one entry (current status, now, updater, no note) is appended; otherwise the history is unchanged; no other field changes |
| TaskModel.HookAppendsExactlyOnce | backend/src/models/Task.js:121-130 | the history grows by one if and only if the status was modified, the old history is a prefix, and the new entry has the current status and no note |
| TaskModel.NewTask | backend/src/models/Task.js:3-110 | creation succeeds exactly when the trimmed title is non-empty, the priority and status parse, both coordinate arrays are present and a creator is set; status defaults to CREATED, priority to medium; the body's history and pickup and delivery times are stored as given, and one entry for the given status is appended only when the body gave a status |
| TaskModel.ApplyPatch | backend/src/controllers/taskController.js:166-170 | the update succeeds exactly when every field the body sets passes its validator: a non-empty trimmed title, a priority and a status that parse, and coordinates on each replaced address |
| TaskModel.PatchSkipsHook | backend/src/controllers/taskController.js:166-170 | an accepted update keeps id and creation time, takes the given status, and appends no history entry: the history is the body's own when given, else the stored one |
| TaskModel.PatchSetsDetails | backend/src/models/Task.js:24-101 | an accepted update stores the trimmed title and description, the parsed priority, the recipient and each replaced address as given, and keeps every absent one |
| TaskModel.PatchSetsReferences | backend/src/models/Task.js:24-101 | an accepted update sets the assignee, the creator and the pickup and delivery times to the given values, cleared ones included, and keeps every absent one |
| TaskController.AcceptsIsTable | backend/src/controllers/taskController.js:226-233 | a target is accepted exactly for CREATED to IN_PROGRESS or CANCELLED and for IN_PROGRESS to COMPLETED or CANCELLED |
| TaskController.TerminalAndIrreflexive | backend/src/controllers/taskController.js:229-233 | COMPLETED and CANCELLED accept nothing, and no status accepts itself |
| TaskController.ChainsAreShort | backend/src/controllers/taskController.js:226-238 | any chain of accepted transitions advances the stage at every step, so it has at most three statuses |
| TaskController.BuildQuery | backend/src/controllers/taskController.js:62-77 | a task matches the filter exactly when the role sees it (a courier its assigned tasks, a dispatcher the ones it created, an admin all) and it has the requested status, if one was given |
| TaskController.InsertNewestFirst | backend/src/controllers/taskController.js:82 | inserting into a newest-first list keeps it newest-first and adds exactly that task to the multiset |
| TaskController.TaskStore.Find | backend/src/controllers/taskController.js:79-82 | the result lists each matching stored task exactly once, newest first |
| TaskController.TaskStore.GetTasks | backend/src/controllers/taskController.js:60-88 | a task is listed exactly when it is stored, visible to the role and of the requested status; the list is newest first, with no repeats |
| TaskController.TaskStore.CreateTask | backend/src/controllers/taskController.js:8-55 | the caller becomes the creator whatever the body says; an invalid body changes nothing; an assignee that exists gets exactly one task_assigned notification and one task:assigned event on its own channel, and otherwise nothing is recorded or emitted |
| TaskController.TaskStore.GetTask | backend/src/controllers/taskController.js:101-140 | an unknown id gives 404 before any ownership check; an admin reads any task, a courier only one assigned to it (403 otherwise), and a dispatcher only one it created (403), with 500 when the creator record is gone |
| TaskController.TaskStore.UpdateTask | backend/src/controllers/taskController.js:145-199 | 404, then 403 for a dispatcher who is not the creator, then 500 on a failed validator, each with nothing changed; on success the patched task is stored, its history is the body's when given and the stored one otherwise (no entry is appended), and only a changed assignee that exists is notified and hears task:updated |
| TaskController.Transitioned | backend/src/controllers/taskController.js:240-250 | the status is set, the pickup time is stamped only on entering IN_PROGRESS and only if unset, the delivery time likewise for COMPLETED, one history entry names the caller, and nothing else changes |
| TaskController.TaskStore.UpdateTaskStatus | backend/src/controllers/taskController.js:204-282 | 404, 403 for a courier who is not the assignee, 400 for a target outside the table, each with nothing changed; otherwise the transitioned task is stored, and the creator gets one status_changed notification and task:status:changed on its own channel, whose old and new status are the same value; a vanished creator gives 500 after the save, with no notification |
| TaskController.TaskStore.DeleteTask | backend/src/controllers/taskController.js:287-319 | 404, then 403 for a dispatcher who is not the creator; otherwise only that task is removed |
| TaskController.AssignedNote | backend/src/controllers/taskController.js:22-29 | the notification goes to the assignee, has type task_assigned, refers to the task and is unread |
| TaskController.UpdatedNote | backend/src/controllers/taskController.js:174-180 | the notification goes to the new assignee, has type task_updated, refers to the task and is unread |
| TaskController.StatusNote | backend/src/controllers/taskController.js:254-260 | the notification goes to the creator, has type status_changed, refers to the task and is unread |
| LocationController.WithLocation | backend/src/controllers/locationController.js:25-35 | the point is stored as [longitude, latitude], the update time is refreshed, and no other field changes |
| LocationController.UpdateLocation | backend/src/controllers/locationController.js:6-65 | a falsy latitude or longitude (0 included) gives 400 before the role check; a non-courier gets 403; a vanished record gives 500; errors change nothing; success writes only the caller's record and emits location:updated to every connection |
| LocationController.ActiveCourierLocations | backend/src/controllers/locationController.js:72-75 | the list holds exactly the projections of couriers that are available or busy |
| LocationController.ActiveCouriersExactly | backend/src/controllers/locationController.js:72-75 | in a valid directory a user's view is listed if and only if it is an available or busy courier |
| LocationController.FindNearbyCouriers | backend/src/controllers/locationController.js:94-117 | 400 exactly when a coordinate is missing; the centre is [longitude, latitude], the radius defaults to 5000, and the candidates are exactly the public views of the available couriers |
| LocationController.NearbyCandidatesExactly | backend/src/controllers/locationController.js:98-111 | in a valid directory a user's view is a candidate if and only if it is an available courier |
| UserController.GetUsers | backend/src/controllers/userController.js:6-22 | every account is listed, password stripped, and nothing else is |
| UserController.GetCouriers | backend/src/controllers/userController.js:27-43 | every courier is listed whatever its availability, and only couriers |
| UserController.CouriersAreCourierUsers | backend/src/controllers/userController.js:29 | the courier list is the full user list restricted to role courier |
| UserController.GetUser | backend/src/controllers/userController.js:48-70 | 404 exactly when the id is unknown; otherwise the public view of that account |
| UserController.ApplyUserPatch | backend/src/controllers/userController.js:75-83 | the update never touches the id or the password hash; the location and its time stay as they were because the admitted patch has no location field; an empty patch changes nothing |
| UserController.PatchSetsFields | backend/src/controllers/userController.js:79-83 | each field the patch sets takes its value after the trim and lowercase setters, and each absent field keeps its value |
| UserController.PatchSetsEnumerations | backend/src/controllers/userController.js:79-83 | a role or availability that the patch sets reads back as the name that was sent |
| UserController.UpdateUser | backend/src/controllers/userController.js:75-104 | a failed validator gives 500 before the lookup, then an unknown id gives 404, then an e-mail held by another account gives 500; errors change nothing; success writes the patched record and keeps its password hash |
| UserController.ToggleUserActive | backend/src/controllers/userController.js:109-135 | 404 exactly when the id is unknown; otherwise only isActive is negated, the hash is kept, and the message names the new state |
| UserController.ToggleTwiceRestores | backend/src/controllers/userController.js:120-121 | toggling an account twice gives back the original directory |
| UserController.DeleteUser | backend/src/controllers/userController.js:140-164 | 404 exactly when the id is unknown; otherwise only that account is removed |
| UserController.UpdateAvailability | backend/src/controllers/userController.js:169-198 | 400 with no write exactly when the value is not available, busy or offline; otherwise only the caller's own record changes, and a vanished caller gets a null success |
| AuthController.RequestedRole | backend/src/controllers/authController.js:35 | an absent role becomes courier |
| AuthController.FindByEmail | backend/src/controllers/authController.js:12 | finds an account exactly when one holds the normalised e-mail |
| AuthController.Register | backend/src/controllers/authController.js:7-62 | an existing e-mail gives 400 before the role gate; admin or dispatcher without an admin caller gives 403; a failed validator gives 500; errors change nothing; success stores the new account with the hashed password, and the session reports id, name, e-mail and role with the signed token |
| AuthController.Login | backend/src/controllers/authController.js:67-131 | a missing field gives 400; an unknown e-mail and a wrong password give the same 401; an inactive account gives its own 401 only after the password matched; success reports id, name, e-mail, role and phone with the signed token |
| AuthController.LoginSucceedsOnlyForActiveMatch | backend/src/controllers/authController.js:80-122 | a successful login is for an active account with the normalised e-mail, whose hash accepts the password, and the token is that account's |
| AuthController.GetMe | backend/src/controllers/authController.js:136-151 | the caller's own public record, or null when it is gone |
| AuthController.UpdateProfile | backend/src/controllers/authController.js:156-178 | only name and phone change, trimmed; an empty name gives 500 with nothing changed; a vanished caller gets a null success |
| Events.RoomNameInjective | backend/src/socket/index.js:35-38 | distinct rooms have distinct names |
| SocketHub.SecondWord | backend/src/socket/index.js:7 | nothing when the header has no space; otherwise exactly the text between the first space and the next space or the end |
| SocketHub.HandshakeToken | backend/src/socket/index.js:7 | a non-empty auth.token wins; without one the token is the second space-separated word of the Authorization header (empty when it has none), and without a header there is no token |
| SocketHub.Authenticate | backend/src/socket/index.js:5-25 | "No token provided" exactly when there is no token; "Invalid token" exactly when it does not verify; "Invalid user" exactly when the account is missing or inactive; otherwise admitted as that account's public view |
| SocketHub.RoomsOf | backend/src/socket/index.js:35-38 | a connection's rooms are exactly its user room and its role room, two distinct rooms |
| SocketHub.ExactlyTwoRooms | backend/src/socket/index.js:35-38 | in a consistent registry a live connection is in exactly its two rooms |
| SocketHub.Deliver | backend/src/socket/index.js:59-64 | every audience reaches only live connections |
| SocketHub.DeliverReaches | backend/src/socket/index.js:59-119 | in a consistent registry a broadcast reaches every live connection but the sender, a reply reaches the sender exactly when it is live, and a room union reaches exactly the live connections in one of its rooms |
| SocketHub.SupervisorsAreAdminsAndDispatchers | backend/src/socket/index.js:59-64 | the admin and dispatcher rooms reach exactly the live admin and dispatcher connections |
| SocketHub.UserRoomIsThatUser | backend/src/socket/index.js:133-135 | a user room reaches exactly the live connections of that identity |
| SocketHub.JoinBoth | backend/src/socket/index.js:35-38 | joining adds the connection to its two rooms and changes no other membership |
| SocketHub.LeaveAll | backend/src/socket/index.js:122-124 | leaving removes the connection from every room and changes nothing else |
| SocketHub.ConnectKeepsWired | backend/src/socket/index.js:29-38 | admitting a connection into its two rooms keeps the registry consistent |
| SocketHub.DisconnectKeepsWired | backend/src/socket/index.js:122-124 | closing a connection keeps the registry consistent |
| SocketHub.SendNotification | backend/src/socket/index.js:133-135 | the event is the notification itself, under the name `notification` |
| SocketHub.BroadcastTaskUpdate | backend/src/socket/index.js:138-140 | the event goes to everyone, named task:updated unless another name is given |
| SocketHub.PushAudiences | backend/src/socket/index.js:133-140 | a notification reaches exactly the recipient's live connections; a task broadcast reaches every live connection |
| SocketHub.Hub.Connect | backend/src/socket/index.js:29-38 | the handshake decides admission; a refused connection changes nothing; an admitted one is registered and joins exactly its two rooms |
| SocketHub.Hub.Disconnect | backend/src/socket/index.js:122-124 | the connection is removed from the registry and from every room |
| SocketHub.Hub.Emit | backend/src/socket/index.js:59 | the recipients computed room by room are exactly the audience's connections |
| SocketHub.Hub.OnLocationUpdate | backend/src/socket/index.js:41-71 | a non-courier gets an error on its own socket with no write; a courier's point is written as [longitude, latitude] when its record exists, and location:updated goes to the admin and dispatcher rooms |
| SocketHub.Hub.OnRequestAll | backend/src/socket/index.js:74-90 | admins and dispatchers get the on-duty couriers in one reply that reaches exactly themselves; couriers get "Non autorisé" |
| SocketHub.Hub.OnTaskStatusChange | backend/src/socket/index.js:93-111 | with no role check and no write, the client's task id and status are relayed with the sender's name to exactly the live admin and dispatcher connections |
| SocketHub.Hub.OnTyping | backend/src/socket/index.js:114-119 | the event reaches exactly every live connection other than the sender, and says who is typing |
| SocketHub.LocationReportAudience | backend/src/socket/index.js:41-64 | a non-courier's report reaches only itself; a courier's reaches exactly the live admins and dispatchers |
| TrackingMap.FindIndex | frontend/src/components/TrackingMap.js:53 | the first entry with the courier's id, or none when no entry has it |
| TrackingMap.UpsertShape | frontend/src/components/TrackingMap.js:51-78 | the list grows by one exactly when the courier was unknown; other entries are unchanged; a known courier keeps its fields and place except point and time; a new one is appended with id, name, point and time |
| TrackingMap.UpsertKeepsDistinct | frontend/src/components/TrackingMap.js:51-78 | distinct ids stay distinct after an upsert |
| TrackingMap.UpsertIdempotent | frontend/src/components/TrackingMap.js:51-78 | replaying the same update changes nothing more |
| TrackingMap.MarkerPosition | frontend/src/components/TrackingMap.js:122-126 | an entry gets a marker exactly when it has coordinates whose longitude and latitude are both truthy, placed at (latitude, longitude) |
| TrackingMap.MarkerAtReportedPoint | frontend/src/components/TrackingMap.js:51-78 | after an update the courier's marker exists exactly when both reported values are non-zero numbers, and sits at the reported latitude and longitude |
| TrackingMap.TimeSince | frontend/src/components/TrackingMap.js:97-105 | no timestamp gives Never; otherwise the floored count in seconds below a minute, minutes below an hour, hours beyond, with the elapsed time inside that unit |
| TrackingMap.TimeSinceLabel | frontend/src/components/TrackingMap.js:97-105 | "Jamais" exactly when there is no timestamp; otherwise a count and unit (s, min, h) chosen by the elapsed time, which lies within one unit above the count |
| Routes.Resolve | backend/src/routes/users.js:17-32 | the first route in declaration order that matches the request |
| Routes.Dispatch | backend/src/routes/tasks.js:14 | a router behind protect refuses a caller without a token; a handler runs only if its route matches and its role gate admits the caller |
| Routes.CouriersBeforeUserId | backend/src/routes/users.js:18-27 | GET /couriers, in any letter case, never reaches getUser; any other single segment is read as an id |
| Routes.CouriersInAnyCase | backend/src/routes/users.js:18 | the default router matches paths without regard to case, so GET /Couriers reaches the courier list |
| Routes.TaskWritesNeedSupervisor | backend/src/routes/tasks.js:16-23 | create, update and delete run only for admins and dispatchers |
| Routes.TaskEditAccess | backend/src/routes/tasks.js:20-23 | route gate and handler check together: an admin edits or deletes any task, a dispatcher only its own, a courier none |
| Routes.TaskStatusAccess | backend/src/routes/tasks.js:25 | every signed-in role reaches the status handler, which refuses only couriers that are not the assignee |
| Routes.TaskReadsOpen | backend/src/routes/tasks.js:16-21 | listing and reading tasks run for every signed-in role |
| Routes.UserListGate | backend/src/routes/users.js:21-22 | listing accounts is admin-only |
| Routes.UserWriteGates | backend/src/routes/users.js:24-29 | updating, deleting and toggling accounts are admin-only |
| Routes.AvailabilityGate | backend/src/routes/users.js:32 | setting one's availability is courier-only |
| Routes.LocationUpdateGate | backend/src/routes/location.js:13 | the HTTP position write is courier-only |
| Routes.LocationListGate | backend/src/routes/location.js:14 | the live location list is for admins and dispatchers |
| Routes.NearbyGate | backend/src/routes/location.js:15 | the nearby search is for admins and dispatchers |
| Routes.AuthOpenGates | backend/src/routes/auth.js:12-13 | register and login run for anyone, signed in or not, whatever the letter case of the path |
| Routes.AuthSessionGates | backend/src/routes/auth.js:16-17 | me and profile are refused without a token and run for any signed-in caller |
| Routes.RegisterThroughRouter | backend/src/routes/auth.js:12 | since register is not behind protect, it runs for a path in any letter case, and a request for an admin or dispatcher account is always refused and changes nothing |

## Left out

- Persistence, Express, Socket.IO transport, bcrypt and JWT are not
  modelled as code. The store is an in-memory map. Hashing, hash
  comparison, signing and token decoding are function parameters. The
  `protect` and `authorize` middleware is not part of this model: a
  resolved caller is given, and a role gate is a set of roles.
- Concurrency, reconnection and delivery are not modelled. An emission
  is a value, and `SocketHub.Hub.Emit` computes its recipient set.
- The `$near` geometry and distance ordering of the nearby search are
  left out. `LocationController.FindNearbyCouriers` returns the query
  (centre, radius and candidate couriers), not a distance-filtered
  result. Its latitude and longitude stay strings: `parseFloat` and
  `parseInt` are not modelled.
- Floating point is not modelled. Coordinates are carried as given,
  either `real` or a JavaScript value with JavaScript truthiness, and
  no arithmetic is done on them.
- Clock time is an integer parameter in milliseconds. A timestamp, when
  present, is never falsy.
- Case folding covers ASCII letters only, and white space covers only
  the ASCII controls, the space, NO-BREAK SPACE and the byte-order
  mark. `String.prototype.toLowerCase` and `\s` cover more of Unicode.
- Errors that the store throws are not modelled. Mongoose cast errors on
  malformed ids, and store failures, reach each handler's `catch`
  (500). The socket handlers' `catch` branches are left out for the
  same reason.
- Populate is a membership test in the set of existing user ids.
  Inputs fail only through the validators named in each contract.
- UserController.ToggleUserActive: does not run the schema validators on
  save, because `save` on an unchanged stored document passes them.
- UserController.UpdateUser: the patch covers name, e-mail, role, phone,
  isActive and availability. The location fields, timestamps and
  arbitrary keys are not in the patch. A `password` key is discarded
  before the update, as the handler does.
- TaskModel.NewTask: the optional schema fields beyond the history and
  the two actual times are omitted (scheduled times, notes, proof of
  delivery and the free-form notification `data`). The handlers pass
  them through unchanged. `createdAt` comes from the clock parameter and
  `updatedAt` is not modelled.
- TaskModel.ApplyPatch: a replaced address is taken as a whole. It gets
  the country default and must carry coordinates, as on creation. The
  body's history entries are typed, so an entry with an unknown status
  or a malformed id cannot be written down.
- TaskModel.ApplyPatch and AuthController.UpdateProfile: an absent key
  keeps the stored value. That is how Mongoose 6 and later treat a key
  whose value is `undefined` (the `omitUndefined` behaviour); older
  versions would clear the field instead.
- Routes.Dispatch: the path arrives as a list of segments. Trailing
  slashes, empty segments and the mount prefix are not modelled. Case
  insensitive matching is for ASCII letters, which covers every literal
  route segment.
- TaskController.TaskStore.UpdateTaskStatus: the body's `note` is
  accepted but never used, as in the handler. The history entry
  therefore has no note.
- TaskCancelledNote and LocationUpdateNote are in the type enumeration,
  but no handler creates them.
- Notification read state (`isRead`, `readAt` updates) has no operation
  in this core.
- SocketHub.Hub.OnRequestAll: the reply is a set of projections. The
  store's result order is not modelled.
- TrackingMap.ReplaceAll: carries no contract. It returns the
  server's list as is, so there is nothing to state beyond its body.
  The component also resets its list whenever
  its `couriers` prop changes (TrackingMap.js:93-95). That is the same
  replacement, and it is not modelled separately.
- The React rendering, the marker popup and the pages around the map
  are not modelled.
