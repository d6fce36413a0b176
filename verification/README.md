# lasCerezas backend, modelled in Dafny

This project models the request handling of the lasCerezas backend. The
backend is an Express + Mongoose service that manages *turnos* (orders),
their *pagos* (payments) and the administrator *usuarios*.

Every handler is a pure function over an abstract document store:

- a read-only handler maps the store and the request to an `Envelope`
  `(status, ok, data, message)`;
- a writing handler returns an `Outcome`, which is the store after its
  writes plus the envelope.

The store holds four maps: turnos, pagos and usuarios keyed by abstract
`Id`s, and the counter collection keyed by its `clave`.

What the model covers:

- **Schemas.** The Mongoose schemas (required fields, enumerations,
  defaults, unique indexes) are validity predicates. `save`/`create` check
  them; `updateOne` does not.
- **Counter.** `numeroAutoincrement` is an increment-and-fetch with upsert
  on the key "ultimoTurno".
- **Routing.** The three route tables are first-match dispatch over
  sequences of (method, pattern) routes. `App.Serve` adds the three mounts.
- **Auth gate.** `authClient` is a decision function around an abstract
  token verifier.

Modules, one per source file or concern:

| module | file | models |
|---|---|---|
| `Models` | models.dfy | the turno, pago, usuario and config schemas, `findOne` |
| `Counter` | counter.dfy | `numeroAutoincrement` |
| `Envelope` | envelope.dfy | the response envelope, the shared id checks, the foreign helpers |
| `TurnoController` | turno_controller.dfy | the eight turno handlers |
| `UsuarioController` | usuario_controller.dfy | the six usuario handlers |
| `PagoController` | pago_controller.dfy | the four pago handlers |
| `Router` | router.dfy | Express path matching and first-match dispatch |
| `Routes` | routes.dfy | the /turno, /pago and /usuario route tables |
| `App` | app.dfy | the three mounts, and requests followed end to end |
| `AuthMiddleware` | auth.dfy | `authClient` |
| `Scenarios` | scenarios.dfy | requests in sequence: what a read answers after a write |

Foreign code is a parameter:

- `mongoose.Types.ObjectId.isValid`, bcrypt hashing and comparison, JWT
  signing, the `password < 6` coercion and the `Number` cast of
  `:turno` are the total-function fields of `Envelope.Foreign`;
- the token verifier of the auth gate is an `AuthMiddleware.Verifier`;
- the fresh ObjectIds of `save`/`create` and the current time are
  arguments of the handlers that write.

Behaviour of the code that a reader may not expect, all of it followed by
the model:

- `getAllPagos` tests `pagos.lenght` (backend/src/controllers/pago.controller.js:14),
  so it answers 200 on an empty collection; the other unfiltered list
  endpoints answer 404, and the two filters by estado and by method answer
  400 to every request.
- The auth gate reads the header key "authorizatio" and denies the roles
  it is given (src/middleware/auth.middleware.js:10-28).
- No route table mounts the gate: backend/src/routes/turno.routes.js:1-2,
  backend/src/routes/pago.routes.js:1-2 and
  backend/src/routes/usuario.routes.js:1-2 import only Express's `Router`
  and their controller.
- The usuario schema declares email with no unique index
  (backend/src/models/usuario.model.js:7). Email uniqueness rests on the
  controller checks alone.
- A pago's `fechaPago` defaults to null (backend/src/models/pago.model.js:22).
  Only `postTurno` sets it, to the creation time
  (backend/src/controllers/turno.controller.js:185).
- `POST /turno` with a valid body does not answer 201 as written (see
  Findings).

## Model

| member | source | states |
|---|---|---|
| Models.NewTurno | backend/src/models/turno.model.js:5-47 | a turno built without an estado is "pendiente"; fechaCreacion is the creation time; numero and pago are as given |
| Models.NewPago | backend/src/models/pago.model.js:5-27 | a pago built without an estado is "pagado" and without a date has fechaPago null; it is valid exactly when metodoPago is efectivo, tarjeta or transferencia |
| Models.NewUsuario | backend/src/models/usuario.model.js:5-23 | a new user is active with no token; it is valid exactly when email and password are non-empty and rol is "administrador" |
| Models.FindOne | backend/src/controllers/turno.controller.js:70 | `findOne` returns a document satisfying the filter, or nothing exactly when no document does |
| Counter.NumeroAutoincrement | backend/src/helpers/numeroAutoincrement.js:3-10 | one call raises the "ultimoTurno" counter by exactly 1 and returns the new value. An absent counter is upserted holding 1 and the call returns 1; an existing one keeps its key and holds the returned value. Every other counter document is untouched; valid counter maps stay valid |
| Counter.AllocateMany | backend/src/helpers/numeroAutoincrement.js:3-10 | n successive calls return n consecutive, strictly increasing values starting right after the counter, so none repeats; the counter ends n higher |
| Envelope.Fail | backend/src/controllers/turno.controller.js:16-18 | a rejection envelope has ok false, no data and the given status |
| Envelope.CheckId | backend/src/controllers/turno.controller.js:31-50 | a malformed id is a 400 with the "no es valido" message; a well-formed absent id is a 404 whose message ends with the id; a well-formed present id passes. Every rejection has ok false |
| TurnoController.ClienteOf | backend/src/controllers/turno.controller.js:130-138 | the customer snapshot taken from a body that passed the check has non-empty nombre, email and celular |
| TurnoController.GetAllTurnos | backend/src/controllers/turno.controller.js:12-23 | 404 exactly when there are no turnos; otherwise 200 with every turno |
| TurnoController.GetTurnoById | backend/src/controllers/turno.controller.js:27-62 | malformed id gives 400; well-formed absent id gives 404; 200 exactly when the id is well formed and present, with that document |
| TurnoController.GetTurnoByIdMalformedIgnoresStore | backend/src/controllers/turno.controller.js:31-39 | a malformed id gets the same answer whatever the store holds |
| TurnoController.GetTurnoByTurno | backend/src/controllers/turno.controller.js:66-83 | no response at all when the number cast fails; 404 exactly when no turno has that number; a 200 returns a stored turno with that number |
| TurnoController.GetTurnoByTurnoUnique | backend/src/controllers/turno.controller.js:70-81 | under the unique index on numeroTurno, the turno found by number is the one holding it |
| TurnoController.WithEstado | backend/src/controllers/turno.controller.js:89 | the filter keeps exactly the turnos with that estado, unchanged |
| TurnoController.GetTurnoByPendiente | backend/src/controllers/turno.controller.js:87-112 | 404 exactly when no turno is pending; a 200 lists exactly the pending turnos |
| TurnoController.GetTurnosByEstado | backend/src/controllers/turno.controller.js:314-347 | every request is a 400 with the estado message, whatever the estado and the store |
| TurnoController.GetTurnosByEstadoFixed | backend/src/controllers/turno.controller.js:314-347 | 400 exactly for an estado outside the schema's enumeration; 404 exactly when a valid estado has no turnos |
| TurnoController.CheckTurnoBody | backend/src/controllers/turno.controller.js:120-168 | the body passes exactly when every check holds; a missing top-level field is the first 400; a missing producto field is a 404, not a 400; every other rejection is a 400 |
| TurnoController.PostTurnoAsWritten | backend/src/controllers/turno.controller.js:116-201 | no request ever gets a 201 and no turno or pago is ever stored; a body that passes the checks raises the counter by one and gets a 500 |
| TurnoController.CreateTurno | backend/src/controllers/turno.controller.js:170-196 | the counter moves by exactly one whatever happens next. For fresh ids the turno is stored exactly when it passes the validators and the unique index, and the pago exactly when the turno was stored and the payment method is in the enumeration. 201 exactly when both are stored, otherwise a 500; every other turno and pago, and every user, is untouched |
| TurnoController.ProductoOf | backend/src/controllers/turno.controller.js:140 | the producto built from a body that passed the check is never nameless, so it meets the schema's required `producto.nombreProduco`; it carries the request's `nombreProducto` under that schema name, and its especificaciones |
| TurnoController.PostTurno | backend/src/controllers/turno.controller.js:116-201 | a rejected body leaves the store unchanged with the first failing check's reply; a 201 adds exactly one turno and one pago, linked both ways. The turno carries the counter value after one increment and estado "pendiente"; the pago copies monto and metodo and has estado "pagado". Users never change |
| TurnoController.PostTurnoSucceeds | backend/src/controllers/turno.controller.js:170-196 | in a consistent store, an acceptable body with a schema-valid payment method is always created (201) |
| TurnoController.PostTurnoLeavesOrphanTurno | backend/src/controllers/turno.controller.js:178-185 | an acceptable body with a payment method outside the enumeration gets a 500. It still leaves a stored turno with no pago and a consumed number |
| TurnoController.PostTurnoPreservesValidity | backend/src/controllers/turno.controller.js:170-189 | creation keeps every schema constraint, the unique numbers, and every number at or below the counter |
| TurnoController.CreateTurnoPreservesValidity | backend/src/controllers/turno.controller.js:170-189 | the writes of creation keep the store valid and every number at or below the counter, whatever producto they store |
| TurnoController.CreateTurnoKeepsTurnos | backend/src/controllers/turno.controller.js:170-189 | after the writes of creation the turnos satisfy the schema, hold unique numbers, and stay at or below the counter |
| TurnoController.SaveKeepsTurnosValid | backend/src/models/turno.model.js:5-47 | a save that passes the validators and the unique index keeps the collection valid |
| TurnoController.CheckTurnoUpdate | backend/src/controllers/turno.controller.js:231-269 | the update body passes exactly when every check holds; every rejection is a 400 |
| TurnoController.PutTurno | backend/src/controllers/turno.controller.js:205-276 | id checks as for getTurnoById, then the body checks: for a well-formed present id, a failing body gets the first failing check's 400. A number held by another turno is refused by the unique index with a 500; otherwise 200 exactly when the id is present and the body passes. Only that turno changes: it takes the body's tipo and customer and stays "pendiente", and every other schema field the body carries (number, producto, pago, creation date) replaces the stored one. A rejection changes nothing |
| TurnoController.PutTurnoPreservesValidity | backend/src/controllers/turno.controller.js:271 | for a body carrying only tipo, estado and usuario, the update keeps every schema constraint and every number at or below the counter, although `updateOne` runs no validator |
| TurnoController.PutTurnoKeepsUniqueNumeros | backend/src/models/turno.model.js:7 | whatever the body carries, the unique index keeps turno numbers distinct after an update |
| TurnoController.PutTurnoStoresNamelessProducto | backend/src/controllers/turno.controller.js:271 | an accepted body that also carries a producto without a name gets a 200 and leaves a turno the schema rejects |
| TurnoController.PutTurnoStoresNumberAhead | backend/src/controllers/turno.controller.js:271 | an accepted body that also carries the counter's next number gets a 200, leaves a number ahead of the counter, and makes the next acceptable POST /turno a 500 |
| TurnoController.PutTurnoFixed | backend/src/controllers/turno.controller.js:205-276 | the same id and body checks, a failing body on a present id getting the first failing check's 400; 200 exactly when the id is present and the body passes. Only that turno changes, taking the body's tipo and customer and staying "pendiente"; its number, producto, pago and creation date are kept |
| TurnoController.PutTurnoFixedAgrees | backend/src/controllers/turno.controller.js:271 | on a body carrying only the checked fields, the update as written and the corrected one give the same store and reply |
| TurnoController.PutTurnoFixedPreservesValidity | backend/src/controllers/turno.controller.js:271 | whatever the body carries, the corrected update keeps every schema constraint and every number at or below the counter |
| TurnoController.DeleteTurno | backend/src/controllers/turno.controller.js:280-310 | id checks as for getTurnoById; a 200 removes exactly that turno and nothing else changes, its pago included |
| TurnoController.DeleteTurnoOrphansPago | backend/src/controllers/turno.controller.js:305-306 | deleting a linked turno leaves its pago in the store pointing at a turno that no longer exists |
| TurnoController.DeleteTurnoPreservesValidity | backend/src/controllers/turno.controller.js:305-306 | deletion keeps every schema constraint |
| UsuarioController.GetUsuarios | backend/src/controllers/usuario.controller.js:13-23 | 404 exactly when there are no users; otherwise 200 with every user, active or not |
| UsuarioController.FindUserById | backend/src/controllers/usuario.controller.js:27-55 | malformed id gives 400; absent id gives 404; 200 exactly when present, with that user |
| UsuarioController.UpdateUserStoring | backend/src/controllers/usuario.controller.js:57-115 | id checks (400 malformed, 404 absent), then on a present user, in order: a missing field is a 400 "Los campos son requeridos"; a changed email held by another user is a 400 "ya se encuentra registrado"; a role other than administrador is a 400 with the role message. 200 exactly when all pass; only that user changes (email, rol, password); a rejection changes nothing |
| UsuarioController.UpdateUserAsWritten | backend/src/controllers/usuario.controller.js:110 | a successful update stores the body's password as it came |
| UsuarioController.UpdateUserAsWrittenStoresPlaintext | backend/src/controllers/usuario.controller.js:110 | every acceptable update succeeds and leaves the plaintext password in the store |
| UsuarioController.UpdateUser | backend/src/controllers/usuario.controller.js:57-115 | the same decisions, statuses and messages as written; a successful update stores the hash of the new password |
| UsuarioController.UpdateUserKeepsEmailsUnique | backend/src/controllers/usuario.controller.js:88-97 | an update never gives two users the same email |
| UsuarioController.UpdateUserPreservesValidity | backend/src/controllers/usuario.controller.js:99-110 | an update keeps every user schema-valid when hashes are non-empty |
| UsuarioController.DeleteUser | backend/src/controllers/usuario.controller.js:119-155 | id checks as for findUserById; a 200 keeps the user with activo false and every other field and user unchanged |
| UsuarioController.DeletedUserStillFound | backend/src/controllers/usuario.controller.js:144-151 | a deactivated user is still returned by findUserById |
| UsuarioController.DeleteUserPreservesValidity | backend/src/controllers/usuario.controller.js:144 | a soft delete keeps every user schema-valid |
| UsuarioController.DeleteUserPreservesEmails | backend/src/controllers/usuario.controller.js:144 | a soft delete keeps emails unique |
| UsuarioController.RegisterUser | backend/src/controllers/usuario.controller.js:159-212 | in order: a missing field, a taken email, a password the `< 6` test rejects, and a non-administrator role are each a 400 with its message. 201 exactly when every check passes and the hash is non-empty; it adds one user holding the hash, never the plaintext, and returns a token for the new id. Anything else leaves the store unchanged |
| UsuarioController.RegisterUserKeepsEmailsUnique | backend/src/controllers/usuario.controller.js:167-176 | registration never creates a second user with an email in use |
| UsuarioController.RegisterUserPreservesValidity | backend/src/controllers/usuario.controller.js:198-203 | registration keeps every user schema-valid |
| UsuarioController.RegisterTwice | backend/src/controllers/usuario.controller.js:167-176 | registering an email a second time is a 400 that changes nothing, and exactly one user holds the email |
| UsuarioController.LoginUser | backend/src/controllers/usuario.controller.js:216-259 | 400 exactly when email or password is missing; 404 for an unknown email; only a 200 carries a token. That token is for the user holding the email whose hash accepts the password, with a view that has no password |
| UsuarioController.LoginUserDecides | backend/src/controllers/usuario.controller.js:231-255 | with unique emails: the right password gives that user's token and view, a wrong one gives "Password incorrecto" 404 |
| UsuarioController.DeactivatedUserCanLogIn | backend/src/controllers/usuario.controller.js:231-255 | a soft-deleted user still logs in: `activo` is never consulted |
| PagoController.GetAllPagos | backend/src/controllers/pago.controller.js:11-22 | every request, even on an empty collection, is a 200 with every pago |
| PagoController.GetAllPagosFixed | backend/src/controllers/pago.controller.js:11-22 | 404 exactly when there are no pagos; otherwise 200 with every pago |
| PagoController.GetPagoById | backend/src/controllers/pago.controller.js:26-55 | malformed id gives 400; absent id gives 404; 200 exactly when present, with that pago |
| PagoController.GetPagoByIdMalformedIgnoresStore | backend/src/controllers/pago.controller.js:30-38 | a malformed id gets the same answer whatever the store holds |
| PagoController.WithMetodo | backend/src/controllers/pago.controller.js:77 | the filter keeps exactly the pagos with that method, unchanged |
| PagoController.GetPagosByMetodo | backend/src/controllers/pago.controller.js:59-98 | every request is a 400 with the method message, whatever the method and the store |
| PagoController.GetPagosByMetodoFixed | backend/src/controllers/pago.controller.js:59-98 | 400 exactly for a method outside the enumeration; 404 exactly when a valid method has no pagos; a 200 lists exactly the pagos with that method, each as stored |
| PagoController.GetPagoByTurno | backend/src/controllers/pago.controller.js:102-148 | 400 exactly when the id is missing or malformed; one 404 for an absent turno and another for a turno no pago references; a well-formed id of a stored turno that some pago references gets a 200, and a 200 returns a stored pago whose turno is the requested id |
| Router.Bind | backend/src/routes/turno.routes.js:7 | a match binds exactly the names of the pattern's parameters, each to the path segment in its position (for a name used twice, the later segment) |
| Router.FirstMatch | backend/src/routes/turno.routes.js:6-13 | the index found is the first route that matches; none is found exactly when no route matches |
| Router.Dispatch | backend/src/routes/turno.routes.js:6-13 | no handler exactly when no route matches; otherwise the handler of the first match, with that route's parameters |
| Router.DispatchPicksFirst | backend/src/routes/turno.routes.js:6-13 | a matching route preceded by no matching route is the one dispatched |
| Router.NoneMatch | backend/src/routes/turno.routes.js:6-13 | a request no route matches is dispatched nowhere |
| Routes.TurnoRouteConditions | backend/src/routes/turno.routes.js:6-13 | when each /turno route matches, in terms of method and path alone; `/pendientes` matches only where `/:id` already does |
| Routes.TurnoRoutesBehave | backend/src/routes/turno.routes.js:6-13 | the /turno table dispatches every request as `TurnoRouting` says: GET / to getAllTurnos, one-segment GET to getTurnoById, /numero/x and /estado/x to their handlers, POST, PUT and DELETE as registered |
| Routes.TurnoGetBehaves | backend/src/routes/turno.routes.js:6-10 | every GET on /turno is dispatched as `TurnoRouting` says |
| Routes.TurnoPick | backend/src/routes/turno.routes.js:6-13 | the first matching /turno route is the one dispatched |
| Routes.PendientesTakenById | backend/src/routes/turno.routes.js:7-9 | GET /pendientes reaches getTurnoById with id "pendientes" |
| Routes.GetTurnoByPendienteUnreachable | backend/src/routes/turno.routes.js:7-9 | no request reaches getTurnoByPendiente |
| Routes.TurnoRoutesFixedReachPendientes | backend/src/routes/turno.routes.js:7-9 | with `/pendientes` registered before `/:id`, GET /pendientes reaches getTurnoByPendiente |
| Routes.TurnoRoutesFixedKeepById | backend/src/routes/turno.routes.js:7-9 | the reordered table still sends every other one-segment GET to getTurnoById |
| Routes.PagoRoutesBehave | backend/src/routes/pago.routes.js:6-9 | the /pago table dispatches every request as `PagoRouting` says |
| Routes.PagoRoutesOnlyGet | backend/src/routes/pago.routes.js:6-9 | no POST, PUT, DELETE or PATCH request matches a /pago route |
| Routes.GetPagoByTurnoUnreachable | backend/src/routes/pago.routes.js:7-8 | GET /pagoByTurno reaches getPagoById; no request reaches getPagoByTurno |
| Routes.PagoByTurnoRouteBindsNoId | backend/src/routes/pago.routes.js:8 | the pagoByTurno route binds no `id` parameter, which its handler reads |
| Routes.PagoRoutesFixedReachPagoByTurno | backend/src/routes/pago.routes.js:8 | with the route declared as `/pagoByTurno/:id`, a request for a turno id reaches getPagoByTurno with that id |
| Routes.UsuarioRoutesBehave | backend/src/routes/usuario.routes.js:6-11 | the /usuario table dispatches every request as `UsuarioRouting` says; /register and /login are POST-only and not shadowed |
| Routes.SrcUsuarioRoutesOnlyRead | src/routes/usuario.routes.js:6-7 | the /usuario table next to the entry point answers only GET / (the user list) and one-segment GETs (a user by id); every other request, registration and login included, reaches no handler |
| App.ServeTurno | src/index.js:23 | a path under /turno goes to the /turno table with the mount segment removed |
| App.ServePago | src/index.js:22 | a path under /pago goes to the /pago table with the mount segment removed |
| App.PendientesRequestIsRejected | src/index.js:23 | GET /turno/pendientes is answered by getTurnoById with a 400 for the malformed id "pendientes", whatever the store |
| App.PagoByTurnoRequestIsRejected | src/index.js:22 | GET /pago/pagoByTurno is answered by getPagoById with a 400 for the malformed id "pagoByTurno" |
| AuthMiddleware.AuthClient | src/middleware/auth.middleware.js:7-36 | every reply of the gate has ok false and status 401 or 403. No "authorizatio" header, no "Bearer " prefix, a verifier failure or a verified id naming no user is a 401; a verified user with an empty rol or a rol among the roles is the 403. It calls next exactly when the verifier, given the whole header in a one-element array, names a stored user whose rol is non-empty and NOT among the roles; the user id is then the verified one |
| AuthMiddleware.AuthClientIgnoresAuthorizationHeader | src/middleware/auth.middleware.js:10-14 | a request carrying its token under "authorization" is a 401 whatever the token |
| AuthMiddleware.AuthClientRejectsWithStringVerifier | src/middleware/auth.middleware.js:16-17 | a verifier that accepts only strings never lets a request through: every reply is 401 |
| AuthMiddleware.AuthClientDeniesAdministrators | src/middleware/auth.middleware.js:20-28 | a gate for the administrator role never calls next for any schema-valid user |
| AuthMiddleware.AuthClientFixed | src/middleware/auth.middleware.js:7-36 | reading "authorization" and verifying the text after "Bearer ": no header, no prefix, a verifier failure or an unknown user is a 401; a user with an empty rol or a rol outside the roles is the 403; the gate calls next exactly when the verified user exists and has a non-empty rol among the roles |
| AuthMiddleware.AuthClientFixedAdmitsAdministrator | src/middleware/auth.middleware.js:20-31 | with the fixed gate, a valid administrator presenting a good token is let through as themself |
| App.Serve | src/index.js:22-24 | a path whose first segment is "pago", "turno" or "usuario" (in any letter case) is answered by that router on the rest of the path, and reaches no handler exactly when that router matches nothing; any other first segment reaches no handler |
| Scenarios.PostTurnoThenPagoByTurno | backend/src/controllers/pago.controller.js:102-148 | after a 201 creating a turno that no earlier pago named, looking up the pago by that turno gives a 200 with exactly the pago created with it |
| Scenarios.PostTurnoThenPendientes | backend/src/controllers/turno.controller.js:87-112 | after a 201 creating a turno, the pending list is a 200 and holds the new turno as stored |
| Scenarios.RegisterThenGetUsuarios | backend/src/controllers/usuario.controller.js:13-23 | after a 201 registering a user, the user list is a 200 and holds the new account with its email |
| Scenarios.DeleteLastTurnoThenGetAll | backend/src/controllers/turno.controller.js:12-23 | deleting the only turno makes the turno list a 404 |
| Scenarios.PutTurnoFixedThenGetById | backend/src/controllers/turno.controller.js:27-62 | after a 200 from the corrected update, reading the turno by id shows the body's tipo and customer and the number it had |

## Left out

- The frontend and its styling: they are a UI over these endpoints.
- The copies of the controllers and the counter under `src/`: older copies of the backend files.
- The route tables the entry point imports from `src/routes/` (src/index.js:8-10): of these only the usuario table is part of this model, as `Routes.SrcUsuarioRoutes`. It registers only the two reads (src/routes/usuario.routes.js:6-7), so there registration and login reach no handler.
- App.Serve: mounts the backend route tables at the prefixes of src/index.js:22-24. It assumes an entry point that mounts those tables; the entry point as written mounts the `src/routes/` tables instead.
- Envelope.CheckId: request ids are assumed to be the canonical lower-case spelling of an ObjectId. `findById` casts the id, so an upper-case hex spelling of a stored id would find the document; the model compares ids verbatim and answers 404.
- Server bootstrap, the database connection and all I/O.
- bcrypt, JWT signing and verification, `ObjectId.isValid`, the `password < 6` coercion and the `Number` cast: these are uninterpreted parameters.
- The response and error helpers are not part of this model. The envelope is a 4-field record and `handleError` is a 500.
- Concurrency: the atomic `findOneAndUpdate` is modelled as one sequential step. Interleaved requests are not modelled.
- Date values: `Date.now` and `new Date()` are an opaque `Timestamp` argument.
- `createdAt`/`updatedAt` timestamps and any body field a handler does not read.
- `monto`: a JS number, modelled as an integer; floating point is not modelled.
- Express HEAD handling, URI decoding, trailing slashes and non-ASCII case folding in path matching.
- TurnoController.PutTurno: a body field the turno schema does not declare is dropped by Mongoose's casting and not modelled; nor is a cast failure of a field (a non-numeric `numeroTurno`, say), which would be a 500.
- UsuarioController.UpdateUserStoring: applies only email, password and rol from the body; any other field the body carries (`activo`, `token`) is not modelled.
- UsuarioController.UpdateUser: applies only email, password and rol from the body; any other field the body carries (`activo`, `token`) is not modelled.
- `authClient` is not mounted on any backend route, so it is modelled on its own, not in front of the handlers.
- UsuarioController.UpdateUserPreservesValidity: assumes the hash of a password is never empty, which bcrypt guarantees.
- TurnoController.PostTurno: assumes the ObjectIds the store generates are fresh.
- UsuarioController.RegisterUser: assumes the ObjectId the store generates is fresh.
- TurnoController.GetTurnoByTurno, UsuarioController.LoginUser, PagoController.GetPagoByTurno: `findOne` picks some matching document. Which one, when several match, is not modelled.
- AuthMiddleware.AuthClient: the 403 message is modelled as the text the template produces, with the function source `roles.join` prints.

## Findings

| source | as written | input that shows it | evidently intended | confidence | as-written member | corrected member |
|---|---|---|---|---|---|---|
| backend/src/controllers/turno.controller.js:170-177 | the new turno is built without `producto`, but the schema requires `producto.nombreProduco`, so the first `save` fails | any body that passes the checks: the counter is bumped and the reply is 500 | copy the request's producto into the turno and answer 201 | high; not executed | TurnoController.PostTurnoAsWritten (its contract: never 201, a 500 for every acceptable body) | TurnoController.PostTurno with TurnoController.PostTurnoSucceeds |
| backend/src/controllers/usuario.controller.js:110 | `updateOne(req.body)` writes the new password in plain text | any accepted update: the stored password equals the body's password | hash the password as registration does | high; not executed | UsuarioController.UpdateUserAsWritten with UsuarioController.UpdateUserAsWrittenStoresPlaintext | UsuarioController.UpdateUser (stores the hash) |
| backend/src/controllers/turno.controller.js:318-322 | a disjunction of three `!=` tests, true for every string | estado "pendiente" gets a 400 | reject only an estado outside the enumeration | high; not executed | TurnoController.GetTurnosByEstado (its contract: always 400) | TurnoController.GetTurnosByEstadoFixed |
| backend/src/controllers/pago.controller.js:63-67 | a disjunction of three `!=` tests, one against "trajeta"; true for every string | method "efectivo" gets a 400 | reject only a method outside the enumeration | high; not executed | PagoController.GetPagosByMetodo (its contract: always 400) | PagoController.GetPagosByMetodoFixed |
| backend/src/controllers/pago.controller.js:14 | tests `pagos.lenght`, which is undefined | an empty collection gets a 200 with an empty list | a 404 on an empty collection, as every other list endpoint | high; not executed | PagoController.GetAllPagos (its contract: always 200) | PagoController.GetAllPagosFixed |
| src/middleware/auth.middleware.js:10-20 | reads the header "authorizatio", passes `split(undefined)` (the whole header in an array) to the verifier, and denies users whose role IS among `roles` | an administrator with a good token under `Authorization`: 401; a gate for ["administrador"] denies every valid user | read "authorization", verify the text after "Bearer ", deny users whose role is NOT among `roles` | high; not executed | AuthMiddleware.AuthClient with AuthMiddleware.AuthClientIgnoresAuthorizationHeader and AuthMiddleware.AuthClientDeniesAdministrators | AuthMiddleware.AuthClientFixed with AuthMiddleware.AuthClientFixedAdmitsAdministrator |
| backend/src/routes/turno.routes.js:7-9 | `/:id` is registered before `/pendientes` | GET /turno/pendientes reaches getTurnoById and gets a 400 | register `/pendientes` first | high; not executed | Routes.PendientesTakenById with Routes.GetTurnoByPendienteUnreachable and App.PendientesRequestIsRejected | Routes.TurnoRoutesFixedReachPendientes with Routes.TurnoRoutesFixedKeepById |
| backend/src/routes/pago.routes.js:7-8 | `/:id` is registered before `/pagoByTurno`, which declares no `:id` although its handler reads one | GET /pago/pagoByTurno reaches getPagoById and gets a 400 | a route `/pagoByTurno/:id` | high; not executed | Routes.GetPagoByTurnoUnreachable with Routes.PagoByTurnoRouteBindsNoId and App.PagoByTurnoRequestIsRejected | Routes.PagoRoutesFixedReachPagoByTurno |
| backend/src/controllers/turno.controller.js:271 | `updateOne(req.body)` writes every schema field the body carries, with no validator, after checking only tipo, estado and usuario | an accepted update whose body also has `producto: {}`: 200, and the stored turno lacks the required `producto.nombreProduco`; with `numeroTurno` set to the counter's next value, the next POST /turno is a 500 | write only the checked fields | medium; not executed | TurnoController.PutTurno with TurnoController.PutTurnoStoresNamelessProducto and TurnoController.PutTurnoStoresNumberAhead | TurnoController.PutTurnoFixed with TurnoController.PutTurnoFixedPreservesValidity |
