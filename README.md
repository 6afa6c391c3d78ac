# Resource reservation system: a Dafny model

This project models the core of a small booking system for computing resources (VMs and GPUs). It covers both sides of the application.

The Express/Mongoose server lets users:

- register;
- book a resource for a time window, which is refused if it overlaps an active booking of the same resource;
- list their own bookings;
- cancel a booking they own.

Administrators can also list every booking, overwrite a booking's status, and manage the resource catalog.

The React client models the session reducer and its local-storage persistence, the three route guards, the user's "My Reservations" page and the administrator's reservation table.

Design of the model:

- **Server collections.** Each collection (users, resources, reservations) is a class whose field is a `map` from ObjectId to record. Each handler is a method whose postconditions state two things: the HTTP reply (status code and exact message) and the whole new collection, for every branch the handler takes.
- **Schema validation.** Validation is a pure function returning `Option`. The properties the system relies on are lemmas:
  - the conflict query keeps the active bookings of a resource pairwise disjoint;
  - the truthy-merge update is idempotent;
  - a trimmed name is a fixed point of trimming;
  - route tables dispatch each request to the intended handler and middleware chain;
  - the session survives a save and a reload.
- **Ids.** An ObjectId is text. A route parameter or body field is castable exactly when it is 24 hex digits of either case (`Common.IsObjectId`); any other text makes Mongoose throw, and the handler's catch answers 500. Stored keys, and the user and resource references a reservation holds, are in the lower-case form `toString()` prints (`Common.Canonical`); the reservation store's invariant keeps both.
- **Time.** Instants are integers (milliseconds). The server clock is the `now` parameter.
- **Fresh ids.** Each new document's id is a parameter that must be canonical and unused.
- **Hashing and signing.** bcrypt's salt and hash, and jwt's signer, are function parameters.

## Model

| member | source | states |
|---|---|---|
| Common.Canonical | Server/controllers/reservationController.js:108 | the cast id has the same length, lower-cases each hex digit, and is canonical whenever the text is a castable ObjectId |
| Common.CanonicalOfCanonical | Server/controllers/reservationController.js:115 | a canonical id is castable and casts to itself, so a stored id is found again under its own text |
| UserModel.ParseRole | Server/models/User.js:17-21 | the role enum check accepts exactly the names `user` and `admin`; accepted text is the role's name |
| UserModel.CastRole | Server/models/User.js:17-21 | an absent role defaults to `user`; a present one must pass the enum check |
| UserModel.NewUser | Server/models/User.js:3-21 | a user document validates iff name, email and password are non-empty and the role casts; the role then defaults to `user` |
| UserController.UserRegistry.FindByEmail | Server/controllers/userController.js:13 | finds a user holding the email iff one exists |
| UserController.UserRegistry.RegisterUser | Server/controllers/userController.js:8-53 | with the email taken: 400 "User already exists", nothing stored; if validation fails: 500 "Server error"; otherwise it stores name, email, hash(password, salt) with role `user` under the fresh id and answers 201 with the signed payload {id, role}. The body's role is never read; the registry's invariants are kept |
| UserController.RegisterKeepsEmailsUnique | Server/models/User.js:11 | adding a user whose email nobody holds keeps emails unique across the collection |
| ReservationModel.ParseStatus | Server/models/Reservation.js:26 | the status enum accepts exactly the four names; accepted text is the status's name |
| ReservationModel.CastStatus | Server/models/Reservation.js:23-28 | an absent status defaults to `pending`; a present one must pass the enum |
| ReservationModel.NewReservation | Server/models/Reservation.js:4-28 | a reservation validates iff both references cast, both times are present and the status casts; the references are stored canonical |
| ReservationModel.SchemaAcceptsInvertedWindow | Server/models/Reservation.js:14-21 | the schema accepts a window whose end is not after its start: ordering is the controller's check alone |
| ReservationController.ReservationStore.FindConflict | Server/controllers/reservationController.js:21-29 | returns a stored reservation of that resource that is pending or confirmed and overlaps the window; returns none iff no such reservation exists |
| ReservationController.Overlaps | Server/controllers/reservationController.js:26 | two booking windows clash exactly when each starts strictly before the other ends, so windows that only touch do not clash |
| ReservationController.HasConflict | Server/controllers/reservationController.js:21-29 | a request has a conflict exactly when some stored reservation on the same (canonical) resource is pending or confirmed and its window overlaps the request |
| ReservationController.ReservationStore.CreateReservation | Server/controllers/reservationController.js:7-49 | checked in source order: a start before now gives 400; an end not after the start gives 400; an uncastable resource id gives 500; a conflict gives 400 "Resource is already booked for this time period"; an uncastable caller id gives 500. Otherwise 201, and the store gains a pending reservation under the fresh id, with nothing else changed. No-double-booking is preserved, and the returned id is castable and finds the new record |
| ReservationController.ReservationStore.GetMyReservations | Server/controllers/reservationController.js:55-63 | 500 for an uncastable caller id; otherwise exactly the caller's reservations, each joined with its resource, and null when that resource is gone |
| ReservationController.ReservationStore.GetAllReservations | Server/controllers/reservationController.js:69-79 | 200 with every reservation, each joined with its user and its resource, where a missing one gives null |
| ReservationController.ReservationStore.UpdateReservationStatus | Server/controllers/reservationController.js:85-100 | 500 on an uncastable id; 404 "Reservation not found"; a falsy status leaves the record as it is; a status outside the enum fails validation with 500 and no change; otherwise only that record's status is overwritten. No transition rule applies and no conflict query runs |
| ReservationController.ReservationStore.DeleteReservation | Server/controllers/reservationController.js:106-126 | 500 on an uncastable id; 404 when absent; 401 "User not authorized" unless the stored owner is the caller; otherwise the record is removed whatever its status, and no-double-booking is preserved |
| ReservationController.PopulateMine | Server/controllers/reservationController.js:57 | the resource reference is resolved exactly when the resource is still stored, and then carries that resource's id, name, type and hourly rate; times and status are copied unchanged |
| ReservationController.PopulateAdmin | Server/controllers/reservationController.js:72-73 | the user reference is resolved exactly when the user is still stored, with that user's id, name and email; the resource reference likewise, with the resource's id and name; times and status are copied unchanged |
| ReservationController.OverlapsSymmetric | Server/controllers/reservationController.js:26 | the overlap test gives the same answer whichever of the two windows is the stored one |
| ReservationController.OverlapsIffSharedInstant | Server/controllers/reservationController.js:26 | for ordered windows, the overlap test holds iff some instant lies in both half-open intervals |
| ReservationController.TouchingWindowsDoNotConflict | Server/controllers/reservationController.js:26 | windows that only touch at an endpoint do not conflict |
| ReservationController.InactiveNeverBlocks | Server/controllers/reservationController.js:28 | rejected and completed reservations never block a booking |
| ReservationController.InsertKeepsNoDoubleBooking | Server/controllers/reservationController.js:21-44 | inserting a reservation the conflict query lets through keeps the active reservations of every resource pairwise non-overlapping |
| ReservationController.DeactivationKeepsNoDoubleBooking | Server/controllers/reservationController.js:90 | setting a status to rejected or completed keeps no-double-booking |
| ReservationController.ReactivationCanDoubleBook | Server/controllers/reservationController.js:90 | setting an inactive reservation back to pending or confirmed breaks no-double-booking whenever it overlaps an active one of the same resource |
| ResourceModel.ParseType | Server/models/Resource.js:10-14 | the type enum accepts exactly `VM` and `GPU` |
| ResourceModel.ParseResourceStatus | Server/models/Resource.js:21-26 | the status enum accepts exactly `available`, `in-use` and `maintenance` |
| ResourceModel.CastResourceStatus | Server/models/Resource.js:21-26 | an absent status defaults to `available` |
| ResourceModel.CastDetails | Server/models/Resource.js:15-20 | details validate iff vCPU, RAM and storage are present; the stored details read back as the input |
| ResourceModel.TrimStart | Server/models/Resource.js:8 | the result is a suffix of the input and does not start with white space |
| ResourceModel.TrimEnd | Server/models/Resource.js:8 | the result is a prefix of the input and does not end with white space |
| ResourceModel.Trim | Server/models/Resource.js:8 | the trimmed name is no longer than the input and has no whitespace at either end |
| ResourceModel.TrimSpec | Server/models/Resource.js:8 | the trimmed name is a contiguous slice of the input, with no white space at either end, and only white space was removed |
| ResourceModel.TrimmedIsFixed | Server/models/Resource.js:8 | a name with no white space at either end is its own trim |
| ResourceModel.TrimIdempotent | Server/models/Resource.js:8 | trimming twice equals trimming once |
| ResourceModel.TrimEmptyIff | Server/models/Resource.js:5-9 | a name trims to "" iff it is all white space, so `required` rejects exactly those names |
| ResourceModel.NewResource | Server/models/Resource.js:4-30 | a resource validates iff the name trims to non-empty, the type and details cast, the status casts and the rate is present. The stored name is trimmed, the other fields are as supplied, and the status defaults to `available` |
| ResourceModel.NewResourceValid | Server/models/Resource.js:5-9 | every stored resource has a non-empty trimmed name |
| ResourceController.CreateIgnoresOtherFields | Server/controllers/resourceController.js:9-17 | fields outside name, type, details, status and hourlyRate never reach the created record |
| ResourceController.ResourceFromBody | Server/controllers/resourceController.js:9-17 | a resource is built from the body exactly when the schema accepts its five fields; it then holds the trimmed name, the given type, details and rate, and the given status or `available` by default, and it satisfies the schema's constraints |
| ResourceController.MergeUpdate | Server/controllers/resourceController.js:69-76 | the merged record is valid whenever it passes validation |
| ResourceController.MergeUpdateFailsIff | Server/controllers/resourceController.js:69-76 | the update fails validation iff a truthy field carries a value the schema refuses; stored values always pass again |
| ResourceController.MergeUpdateFields | Server/controllers/resourceController.js:70-74 | each field takes the supplied value iff that value is truthy (a supplied details object always counts as truthy), and otherwise keeps the stored one |
| ResourceController.UpdateIdempotent | Server/controllers/resourceController.js:70-76 | applying the same update twice equals applying it once |
| ResourceController.FalsyUpdateKeeps | Server/controllers/resourceController.js:70-74 | a body whose five fields are all falsy leaves the record unchanged |
| ResourceController.UpdateNeverWritesFalsy | Server/controllers/resourceController.js:70-74 | an update never sets the rate to zero unless it already was zero, and never empties the name |
| ResourceController.ResourceCatalog.CreateResource | Server/controllers/resourceController.js:6-25 | a failed validation gives 500 with nothing stored; otherwise 201, and the fresh id maps to the validated record; the returned id is castable and finds it |
| ResourceController.ResourceCatalog.GetResources | Server/controllers/resourceController.js:30-39 | 200 with every stored resource whatever its status |
| ResourceController.ResourceCatalog.GetResourceById | Server/controllers/resourceController.js:45-57 | 500 on an uncastable id; 404 "Resource not found" when absent; otherwise 200 with the record |
| ResourceController.ResourceCatalog.UpdateResource | Server/controllers/resourceController.js:63-85 | 500 on an uncastable id; 404 when absent; 500 with no change when the merge fails validation; otherwise 200, with only that record replaced by the merge |
| ResourceController.ResourceCatalog.DeleteResource | Server/controllers/resourceController.js:91-105 | 500 on an uncastable id; 404 when absent; otherwise 200 "Resource removed", and only that record is removed (no cascade to reservations) |
| Router.Bind | Server/routes/resourceRoutes.js:16-17 | every `:param` of the pattern is bound, and only those. Each is bound to its matched segment; a name that occurs twice keeps the later segment |
| Router.BindOneParam | Server/routes/resourceRoutes.js:16-17 | the pattern `/:id` binds exactly `id` to the requested segment |
| Router.BindKeepsLastOfRepeatedName | Server/routes/resourceRoutes.js:16-17 | of two parameters with one name, the later segment is the one bound |
| Router.Dispatch | Server/routes/reservationRoutes.js:12-26 | the request reaches the first registered layer whose verb and path match, with that layer's middleware and bound parameters; it reaches no handler iff no layer matches |
| Router.RunChain | Server/routes/reservationRoutes.js:17 | the handler runs iff every middleware of the chain passes; otherwise the first middleware that fails answers |
| Router.Executed | Server/routes/reservationRoutes.js:17 | the number of middleware that run: the whole chain when the handler is reached, and otherwise those up to and including the first refusal, every earlier one having passed |
| Router.DispatchNeverRunsIsAdminUnauthenticated | Server/routes/reservationRoutes.js:12-26 | in a table whose chains all put protect before isAdmin, whatever layer a request reaches, isAdmin does not run for an unauthenticated caller |
| Router.IsAdminNeverRunsUnauthenticated | Server/routes/reservationRoutes.js:26 | in a chain where protect precedes isAdmin, isAdmin never runs for an unauthenticated caller |
| ReservationRoutes.MyReservationsNeedsProtect | Server/routes/reservationRoutes.js:12 | `GET /myreservations` reaches getMyReservations behind protect alone |
| ReservationRoutes.RootRoutes | Server/routes/reservationRoutes.js:15-18 | `GET /` reaches getAllReservations behind protect and isAdmin; `POST /` reaches createReservation behind protect |
| ReservationRoutes.DeleteNeedsProtect | Server/routes/reservationRoutes.js:21 | `DELETE /:id` reaches deleteReservation behind protect, with the segment bound as the id |
| ReservationRoutes.StatusUpdateNeedsAdmin | Server/routes/reservationRoutes.js:24-26 | `PUT /:id/status` reaches updateReservationStatus behind protect and isAdmin |
| ReservationRoutes.NoRescheduleRoute | Server/routes/reservationRoutes.js:12-26 | `PUT /:id`, which the client's edit dialog sends, reaches no handler |
| ReservationRoutes.AdminRoutesBehindProtect | Server/routes/reservationRoutes.js:15-26 | every isAdmin in the table comes after a protect |
| ReservationRoutes.UnauthenticatedNeverRunsIsAdmin | Server/routes/reservationRoutes.js:17 | for every verb and path, an unauthenticated caller is turned away before any isAdmin of the reservation router runs |
| ReservationRoutes.Table | Server/routes/reservationRoutes.js:12-26 | the router's layers in registration order, each with its verb, path pattern, middleware chain and handler (its properties are the lemmas above) |
| ResourceRoutes.ReadsArePublic | Server/routes/resourceRoutes.js:13-18 | `GET /` and `GET /:id` run no middleware |
| ResourceRoutes.WritesNeedAdmin | Server/routes/resourceRoutes.js:13-20 | create, update and delete each run protect and then isAdmin |
| ResourceRoutes.AdminRoutesBehindProtect | Server/routes/resourceRoutes.js:13-20 | every isAdmin in the table comes after a protect |
| ResourceRoutes.UnauthenticatedNeverRunsIsAdmin | Server/routes/resourceRoutes.js:13-20 | for every verb and path, an unauthenticated caller is turned away before any isAdmin of the resource router runs |
| ResourceRoutes.Table | Server/routes/resourceRoutes.js:13-20 | the router's layers in registration order, each with its verb, path pattern, middleware chain and handler (its properties are the lemmas above) |
| ResourceRoutes.AllForAdminReachesGetById | Client/src/pages/AdminEquipmentPage.tsx:34 | `GET /all-for-admin` binds as an id of the public fetch. That id is not castable, so getResourceById answers 500 |
| AuthContext.LoginIgnoresPriorState | Client/src/context/AuthContext.tsx:34-38 | LOGIN installs the payload's user and token whatever the prior state |
| AuthContext.LogoutIdempotent | Client/src/context/AuthContext.tsx:39-43 | LOGOUT clears both fields, and clearing twice equals clearing once |
| AuthContext.OtherActionsKeepState | Client/src/context/AuthContext.tsx:44-45 | any other action type leaves the state unchanged |
| AuthContext.InitialState | Client/src/context/AuthContext.tsx:21-24 | the initial user is the stored one, and a token is present exactly when the stored token is a non-empty string, in which case it is that token |
| AuthContext.AuthReducer | Client/src/context/AuthContext.tsx:32-47 | the reducer fails only on a LOGIN action that carries no payload; every other action yields a state |
| AuthContext.Persisted | Client/src/context/AuthContext.tsx:57-65 | the stored user and the stored token are both present exactly when the state holds a user and a non-empty token, and both are removed otherwise |
| AuthContext.PersistedKeys | Client/src/context/AuthContext.tsx:57-65 | after the effect, both keys are present iff the state has a user and a non-empty token; otherwise both are gone |
| AuthContext.RestoreAfterPersist | Client/src/context/AuthContext.tsx:21-24 | reading back what the effect stored restores a persistable session; anything else restores as logged out |
| AuthContext.LocalStorage.PersistSession | Client/src/context/AuthContext.tsx:57-65 | the storage afterwards holds exactly what the persisting effect defines for the state |
| RouteGuards.GuardRedirects | Client/src/components/ProtectedRoute.tsx:12-15 | a turned-away visitor goes to `/login` from ProtectedRoute and to `/` from the other two guards, always replacing the history entry |
| RouteGuards.GuardDecisions | Client/src/components/AdminRoute.tsx:13-14 | ProtectedRoute renders iff logged in; PublicRoute renders iff logged out; AdminRoute renders iff logged in as admin |
| RouteGuards.GuardsIgnoreToken | Client/src/components/PublicRoute.tsx:10 | the guards look at the user only, never at the token |
| RouteGuards.PublicAndProtectedPartition | Client/src/components/PublicRoute.tsx:12-18 | for every session, exactly one of PublicRoute and ProtectedRoute renders its children |
| RouteGuards.AdminImpliesProtected | Client/src/components/AdminRoute.tsx:13-17 | whatever AdminRoute lets through, ProtectedRoute lets through too |
| RouteGuards.ProtectedRoute | Client/src/components/ProtectedRoute.tsx:9-19 | the guard either renders its children or redirects, replacing history, to /login |
| RouteGuards.PublicRoute | Client/src/components/PublicRoute.tsx:9-19 | the guard either renders its children or redirects, replacing history, to / |
| RouteGuards.AdminRoute | Client/src/components/AdminRoute.tsx:9-18 | the guard either renders its children or redirects, replacing history, to / |
| MyReservationsPage.RemoveById | Client/src/pages/MyReservationsPage.tsx:56 | the filtered list is no longer than the original and holds no entry with that id |
| MyReservationsPage.RemoveByIdMembers | Client/src/pages/MyReservationsPage.tsx:56 | an entry survives iff it was in the list and has another id |
| MyReservationsPage.RemoveByIdAppend | Client/src/pages/MyReservationsPage.tsx:56 | filtering distributes over concatenation, so survivors keep their order |
| MyReservationsPage.RemoveByIdAbsent | Client/src/pages/MyReservationsPage.tsx:56 | a list that has no entry with that id is left as it is |
| MyReservationsPage.CancelOffered | Client/src/pages/MyReservationsPage.tsx:86 | the cancel button is offered exactly for the statuses the server parses to pending or confirmed, the statuses that block other bookings |
| MyReservationsPage.DeletedResourceArrivesNull | Server/controllers/reservationController.js:57 | a reservation whose resource is no longer in the catalog reaches the page with a null resource |
| MyReservationsPage.HeadingAsWritten | Client/src/pages/MyReservationsPage.tsx:77 | the heading as written fails iff the entry's resource is null, and otherwise it is the resource's name |
| MyReservationsPage.Heading | Client/src/pages/AdminReservationsPage.tsx:85 | the corrected heading is never empty: it is the resource's name when present and non-empty, and "[Deleted Resource]" when the resource is null or its name is empty |
| MyReservationsPage.RenderAsWritten | Client/src/pages/MyReservationsPage.tsx:66-98 | the page as written throws iff it is not loading and some entry's resource is null |
| MyReservationsPage.DeletedResourceBreaksListing | Client/src/pages/MyReservationsPage.tsx:77 | a listing holding a reservation of a deleted resource throws |
| MyReservationsPage.Render | Client/src/pages/MyReservationsPage.tsx:66-98 | loading shows the loading view; an empty list shows "You have no reservations."; a loaded non-empty list is always listed, every entry with its heading, and Cancel is offered iff the status is pending or confirmed |
| MyReservationsPage.RenderAgreesWhereWrittenSucceeds | Client/src/pages/MyReservationsPage.tsx:66-98 | where the page as written does not throw, and every name is non-empty, the corrected render shows the same view |
| MyReservationsPage.Page.FetchReservations | Client/src/pages/MyReservationsPage.tsx:21-36 | a successful response replaces the list; a failed one keeps it; either way loading ends |
| MyReservationsPage.Page.HandleCancel | Client/src/pages/MyReservationsPage.tsx:46-63 | a DELETE of `/api/reservations/<id>` is sent iff the user confirmed; the entry leaves the list iff the request also succeeded |
| AdminReservationsPage.StatusOptionsMatchSchema | Client/src/pages/AdminReservationsPage.tsx:93-96 | the selector offers exactly the schema's four status names, in the schema's order, and the server accepts each |
| AdminReservationsPage.UserLabel | Client/src/pages/AdminReservationsPage.tsx:84 | the user cell is never empty: a missing user, or one whose name is empty, shows "[Deleted User]", and a user with a name shows that name |
| AdminReservationsPage.ResourceLabel | Client/src/pages/AdminReservationsPage.tsx:85 | the resource cell is never empty: a missing resource, or one whose name is empty, shows "[Deleted Resource]", and a resource with a name shows that name |
| AdminReservationsPage.StatusOptions | Client/src/pages/AdminReservationsPage.tsx:93-96 | the four values the status selector offers, in its order (proved equal to the schema's enum by StatusOptionsMatchSchema) |
| AdminReservationsPage.ResourceLabelAfterDelete | Client/src/pages/AdminReservationsPage.tsx:85 | a reservation whose resource is gone from the catalog shows "[Deleted Resource]"; otherwise the resource's name shows |
| AdminReservationsPage.UserLabelAfterDelete | Client/src/pages/AdminReservationsPage.tsx:84 | a reservation whose user is gone shows "[Deleted User]"; otherwise the user's name shows |
| AdminReservationsPage.Render | Client/src/pages/AdminReservationsPage.tsx:63-103 | loading shows the loading view; a null or empty list shows "There are currently no reservations in the system."; a loaded non-empty list always shows the table, each row with its user and resource labels |
| AdminReservationsPage.Page.FetchReservations | Client/src/pages/AdminReservationsPage.tsx:25-40 | a successful response replaces the table; a failed one keeps it; loading ends |
| AdminReservationsPage.Page.HandleStatusChange | Client/src/pages/AdminReservationsPage.tsx:48-61 | sends `PUT /api/reservations/<id>/status` with the chosen status; the table is fetched again iff the request succeeded |

## Left out

- Persistence and concurrency: Mongoose queries are modelled as operations on maps. Two bookings that both pass the conflict query before either is saved are not modelled, because handlers run one at a time here.
- Error paths: only the errors the handlers' own inputs cause are modelled, meaning cast errors, validation errors and 404s. Database and network failures that also reach the 500 catch are not.
- Date parsing: instants are integers. Unparsable dates (`Invalid Date`, whose comparisons are all false) are not modelled. The clock is the `now` parameter.
- ReservationController.ReservationStore.CreateReservation: does not model a missing or unparsable `resourceId`, `startTime` or `endTime`. The request carries a text id and two integers.
- bcrypt and jwt: modelled as function parameters. A failure inside the `jwt.sign` callback, and the token's five-hour expiry, are not modelled.
- UserController.UserRegistry.RegisterUser: the body's name, email and password are always strings. An absent field (`undefined`, which makes bcrypt throw) is not modelled.
- The authentication middleware: its file is not part of this model. `protect` is taken to admit exactly the callers with a valid token, and `isAdmin` exactly those whose role is admin. The codes they answer with are left unstated.
- Server wiring: `server.js` never mounts the two routers. The route tables are modelled as if mounted at `/api/reservations` and `/api/resources`.
- Express matching: trailing slashes, percent-decoding, and case-insensitive matching beyond ASCII are not modelled.
- Listing order: `find()` results are maps from id to row, so the order in which rows come back is not modelled.
- Numbers: the hourly rate is an exact `real` and the details figures are integers. NaN, floating-point rounding, and JSON values of other types (e.g. a number sent as `name`) are not modelled.
- Ids: a 12-byte binary string, which Mongoose also accepts as an ObjectId, is not modelled.
- Storage details: timestamps (`createdAt`, `updatedAt`) and the `__v` version key are not modelled.
- Populate: `populate` is modelled as a lookup in the other collection at the time of the listing.
- Client rendering: JSX layout, date formatting (`toLocaleString`), alerts, the confirmation dialog's text, and console logging are not modelled. The user's confirmation and each request's outcome are parameters.
- The rest of the client: the resource, equipment, login and registration pages are not part of this model. Of them, only their calls to `PUT /api/reservations/:id` and `GET /api/resources/all-for-admin` are stated, as route lemmas.

## Findings

| source | as written | input that shows it | evidently intended | confidence | as-written member | corrected member |
|---|---|---|---|---|---|---|
| Client/src/pages/MyReservationsPage.tsx:77 | the list heading reads `res.resource.name` without a null check | an administrator deletes a resource (no cascade, resourceController.js:96); the server's populate then hands that resource's bookers `resource: null`, and their list throws while rendering | fall back to a label, as the administrator's table does at AdminReservationsPage.tsx:85 | medium, not executed | MyReservationsPage.DeletedResourceBreaksListing | MyReservationsPage.Render |
