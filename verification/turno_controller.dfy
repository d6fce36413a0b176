/**
 The turno handlers. Each is a pure function of the store and the request:
 read-only handlers return an `Envelope`, writing handlers an `Outcome`
 carrying the store after their writes. `save`/`create` run the schema
 validators (a rejected save is a 500); `updateOne` does not.
 */
module TurnoController {
  import opened Wrappers
  import opened Models
  import opened Counter
  import opened Envelope

  // ---------------------------------------------------------------------
  // request bodies
  // ---------------------------------------------------------------------

  datatype ClienteBody = ClienteBody(nombre: Option<string>, email: Option<string>, celular: Option<string>)
  datatype ProductoBody = ProductoBody(nombreProducto: Option<string>, especificaciones: Option<string>)

  /** The body of `POST /turno`; amounts are modelled as integers. */
  datatype TurnoBody = TurnoBody(
    tipo: Option<string>,
    estado: Option<string>,
    usuario: Option<ClienteBody>,
    monto: Option<int>,
    metodoPago: Option<string>,
    producto: Option<ProductoBody>)

  /**
   The body of `PUT /turno/:id` after Mongoose casts it to the turno schema
   (fields the schema does not declare are dropped): the three fields the
   handler checks, and the four others that `updateOne` writes when the body
   carries them. `producto` is the nested object under the schema's names.
   */
  datatype TurnoUpdate = TurnoUpdate(
    tipo: Option<string>,
    estado: Option<string>,
    usuario: Option<ClienteBody>,
    numeroTurno: Option<int>,
    producto: Option<Producto>,
    pago: Option<Option<Id>>,
    fechaCreacion: Option<Timestamp>)

  /** A number field is truthy: present and not 0. */
  predicate GivenNumber(n: Option<int>) {
    n.Some? && n.value != 0
  }

  predicate ClienteGiven(c: ClienteBody) {
    Given(c.nombre) && Given(c.email) && Given(c.celular)
  }

  predicate ProductoGiven(p: ProductoBody) {
    Given(p.nombreProducto) && Given(p.especificaciones)
  }

  function ClienteOf(c: ClienteBody): (r: Cliente)
    requires ClienteGiven(c)
    ensures r.nombre != "" && r.email != "" && r.celular != ""
  {
    Cliente(c.nombre.value, c.email.value, c.celular.value)
  }

  const MsgFaltanDatos := "Faltan datos obligatorios para el turno y pago"
  const MsgDatosUsuario := "Los datos del usuario son obligatorios"
  const MsgDatosProducto := "Los datos del producto son obligatorios"
  const MsgTipo := "El tipo del turno solo puede ser pedido o domicilio"
  const MsgEstadoInicial := "Al momento de crear el turno el estado debe ser pendiente"
  const MsgEstadoFiltro := "El estado del turno solo puede ser pendiente, atendido o cancelado"
  const NotFoundTurno := "No se encontro el turno con el id "

  // ---------------------------------------------------------------------
  // reads
  // ---------------------------------------------------------------------

  /** `GET /turno`: an empty collection is a 404, otherwise every turno. */
  function GetAllTurnos(st: Store): (r: Envelope)
    ensures Coherent(r)
    ensures r.status == 404 <==> st.turnos == map[]
    ensures r.status != 404 ==> r.status == 200 && r.data == TurnoList(st.turnos)
  {
    if |st.turnos| == 0 then Fail(404, "No se encontraron turnos")
    else Envelope(200, true, TurnoList(st.turnos), "Lista de turnos")
  }

  /** `GET /turno/:id`. */
  function GetTurnoById(foreign: Foreign, st: Store, id: string): (r: Envelope)
    ensures Coherent(r)
    ensures !foreign.isValidId(id) ==> r.status == 400
    ensures foreign.isValidId(id) && id !in st.turnos ==> r.status == 404
    ensures r.status == 200 <==> foreign.isValidId(id) && id in st.turnos
    ensures r.status == 200 ==> r.data == TurnoDoc(id, st.turnos[id])
  {
    match CheckId(foreign, st.turnos, id, NotFoundTurno)
    case Some(e) => e
    case None => Envelope(200, true, TurnoDoc(id, st.turnos[id]), "Turno encontrado con el id " + id)
  }

  /** A malformed id is answered without consulting the store. */
  lemma GetTurnoByIdMalformedIgnoresStore(foreign: Foreign, a: Store, b: Store, id: string)
    requires !foreign.isValidId(id)
    ensures GetTurnoById(foreign, a, id) == GetTurnoById(foreign, b, id)
  {
  }

  /**
   `GET /turno/numero/:turno`. A parameter that does not cast to a number makes
   the query throw, and the handler's empty `catch` sends no response at all
   (None).
   */
  ghost function GetTurnoByTurno(foreign: Foreign, st: Store, turno: string): (r: Option<Envelope>)
    ensures r.None? <==> foreign.toNumber(turno).None?
    ensures r.Some? ==> Coherent(r.value) && r.value.status in {200, 404}
    ensures r.Some? ==> (r.value.status == 404 <==>
      forall id :: id in st.turnos ==> st.turnos[id].numeroTurno != foreign.toNumber(turno).value)
    ensures r.Some? && r.value.status == 200 ==>
      && r.value.data.TurnoDoc?
      && r.value.data.turnoId in st.turnos
      && r.value.data.turno == st.turnos[r.value.data.turnoId]
      && r.value.data.turno.numeroTurno == foreign.toNumber(turno).value
  {
    match foreign.toNumber(turno)
    case None => None
    case Some(n) =>
      match FindOne(st.turnos, (t: Turno) => t.numeroTurno == n)
      case None => Some(Fail(404, "No se encontro el numero de turno " + turno))
      case Some(id) => Some(Envelope(200, true, TurnoDoc(id, st.turnos[id]), "Numero de turno " + turno))
  }

  /** With the unique index on numeroTurno, the turno found by number is the only one with it. */
  lemma GetTurnoByTurnoUnique(foreign: Foreign, st: Store, turno: string, id: Id)
    requires UniqueNumeros(st.turnos)
    requires foreign.toNumber(turno).Some?
    requires id in st.turnos && st.turnos[id].numeroTurno == foreign.toNumber(turno).value
    ensures GetTurnoByTurno(foreign, st, turno).Some?
    ensures GetTurnoByTurno(foreign, st, turno).value.data == TurnoDoc(id, st.turnos[id])
  {
  }

  /** The turnos whose estado is `estado`. */
  function WithEstado(turnos: map<Id, Turno>, estado: string): (r: map<Id, Turno>)
    ensures forall id :: id in r <==> id in turnos && turnos[id].estado == estado
    ensures forall id :: id in r ==> r[id] == turnos[id]
  {
    map id | id in turnos && turnos[id].estado == estado :: turnos[id]
  }

  /** `GET /turno/pendientes`: exactly the pending turnos, or 404 when there are none. */
  function GetTurnoByPendiente(st: Store): (r: Envelope)
    ensures Coherent(r) && r.status in {200, 404}
    ensures r.status == 404 <==> forall id :: id in st.turnos ==> st.turnos[id].estado != EstadoPendiente
    ensures r.status == 200 ==> r.data.TurnoList?
    ensures r.data.TurnoList? ==>
      && (forall id :: id in r.data.turnos <==> id in st.turnos && st.turnos[id].estado == EstadoPendiente)
      && (forall id :: id in r.data.turnos ==> r.data.turnos[id] == st.turnos[id])
  {
    var pendientes := WithEstado(st.turnos, EstadoPendiente);
    if |pendientes| == 0 then Fail(404, "No se encontraron turnos con estado pendiente")
    else Envelope(200, true, TurnoList(pendientes), "Lista de turnos pendientes por entregar")
  }

  /** The guard of `GET /turno/estado/:estado` as written: a disjunction of three `!=` tests. */
  predicate EstadoRejectedAsWritten(estado: string) {
    estado != "pendiente" || estado != "atendido" || estado != "cancelado"
  }

  /**
   `GET /turno/estado/:estado` as written. The guard holds for every string,
   so every request is a 400 and the store is never queried.
   */
  function GetTurnosByEstado(st: Store, estado: string): (r: Envelope)
    ensures r == Fail(400, MsgEstadoFiltro)
  {
    if EstadoRejectedAsWritten(estado) then Fail(400, MsgEstadoFiltro)
    else if |WithEstado(st.turnos, estado)| == 0 then Fail(404, "No se encontraron turnos con el estado " + estado)
    else Envelope(200, true, Nothing, "Turnos con el estado " + estado)
  }

  /**
   `GET /turno/estado/:estado` with the guard the message describes: reject
   only an estado outside the schema's enumeration.
   */
  function GetTurnosByEstadoFixed(st: Store, estado: string): (r: Envelope)
    ensures Coherent(r) && r.status in {200, 400, 404}
    ensures r.status == 400 <==> estado !in EstadosTurno
    ensures r.status == 404 <==> estado in EstadosTurno && forall id :: id in st.turnos ==> st.turnos[id].estado != estado
  {
    if estado !in EstadosTurno then Fail(400, MsgEstadoFiltro)
    else if |WithEstado(st.turnos, estado)| == 0 then Fail(404, "No se encontraron turnos con el estado " + estado)
    else Envelope(200, true, Nothing, "Turnos con el estado " + estado)
  }

  // ---------------------------------------------------------------------
  // creation
  // ---------------------------------------------------------------------

  /** Every check of `POST /turno` passes; the conjunction, independent of their order. */
  predicate TurnoBodyAcceptable(b: TurnoBody) {
    && Given(b.tipo) && Given(b.estado) && b.usuario.Some? && GivenNumber(b.monto)
    && Given(b.metodoPago) && b.producto.Some?
    && ClienteGiven(b.usuario.value)
    && ProductoGiven(b.producto.value)
    && b.tipo.value in TiposTurno
    && b.estado.value == EstadoPendiente
  }

  /** The checks of `POST /turno`, in order: the first one that fails decides the response. */
  function CheckTurnoBody(b: TurnoBody): (r: Option<Envelope>)
    ensures r.None? <==> TurnoBodyAcceptable(b)
    ensures r.Some? ==> Coherent(r.value) && r.value.data.Nothing?
    ensures (!(Given(b.tipo) && Given(b.estado) && b.usuario.Some? && GivenNumber(b.monto)
               && Given(b.metodoPago) && b.producto.Some?)) ==> r == Some(Fail(400, MsgFaltanDatos))
    ensures r.Some? ==> (r.value.status == 404 <==>
      && Given(b.tipo) && Given(b.estado) && b.usuario.Some? && GivenNumber(b.monto)
      && Given(b.metodoPago) && b.producto.Some?
      && ClienteGiven(b.usuario.value) && !ProductoGiven(b.producto.value))
    ensures r.Some? ==> r.value.status in {400, 404}
  {
    if !Given(b.tipo) || !Given(b.estado) || b.usuario.None? || !GivenNumber(b.monto)
       || !Given(b.metodoPago) || b.producto.None? then
      Some(Fail(400, MsgFaltanDatos))
    else if !ClienteGiven(b.usuario.value) then
      Some(Fail(400, MsgDatosUsuario))
    else if !ProductoGiven(b.producto.value) then
      Some(Fail(404, MsgDatosProducto))
    else if b.tipo.value != "domicilio" && b.tipo.value != "pedido" then
      Some(Fail(400, MsgTipo))
    else if b.estado.value != EstadoPendiente then
      Some(Fail(400, MsgEstadoInicial))
    else
      None
  }

  /** A turno other than `id` already holds number `n`, so the unique index refuses a write of `n` to `id`. */
  predicate NumeroTaken(turnos: map<Id, Turno>, id: Id, n: int) {
    exists other :: other in turnos && other != id && turnos[other].numeroTurno == n
  }

  /** `save` on a turno: the schema validators and the unique index on numeroTurno. */
  predicate Saveable(turnos: map<Id, Turno>, id: Id, t: Turno) {
    ValidTurno(t) && !NumeroTaken(turnos, id, t.numeroTurno)
  }

  /** The turno `POST /turno` first saves: the counter's next number, the request's fields, no pago yet. */
  function Draft(st: Store, b: TurnoBody, now: Timestamp, producto: Producto): Turno
    requires TurnoBodyAcceptable(b)
  {
    NewTurno(CounterValue(st.configs) + 1, b.tipo.value, b.estado, now, ClienteOf(b.usuario.value), producto, None)
  }

  /**
   The writes of `POST /turno` once the checks pass: allocate a number, save
   the turno with no pago, create the pago, then save the turno again with
   the pago's id. The writes are not one transaction: a failure leaves the
   earlier ones in place. `producto` is what ends up in the turno's nested
   producto object.
   */
  function CreateTurno(st: Store, b: TurnoBody, now: Timestamp, turnoId: Id, pagoId: Id, producto: Producto): (r: Outcome)
    requires TurnoBodyAcceptable(b)
    ensures CounterValue(r.store.configs) == CounterValue(st.configs) + 1
    ensures r.store.usuarios == st.usuarios
    ensures turnoId !in st.turnos ==>
      (turnoId in r.store.turnos <==> Saveable(st.turnos, turnoId, Draft(st, b, now, producto)))
    ensures pagoId !in st.pagos ==>
      (pagoId in r.store.pagos <==>
        Saveable(st.turnos, turnoId, Draft(st, b, now, producto)) && b.metodoPago.value in MetodosPago)
    ensures r.reply.status == 201 <==>
      Saveable(st.turnos, turnoId, Draft(st, b, now, producto)) && b.metodoPago.value in MetodosPago
    ensures r.reply.status != 201 ==> r.reply == ServerError
    ensures forall other :: other in st.turnos && other != turnoId ==>
      other in r.store.turnos && r.store.turnos[other] == st.turnos[other]
    ensures forall other :: other in st.pagos && other != pagoId ==>
      other in r.store.pagos && r.store.pagos[other] == st.pagos[other]
  {
    var (configs, numero) := NumeroAutoincrement(st.configs);
    var st1 := st.(configs := configs);
    var turno := Draft(st, b, now, producto);
    if !Saveable(st1.turnos, turnoId, turno) then Outcome(st1, ServerError)
    else
      var st2 := st1.(turnos := st1.turnos[turnoId := turno]);
      var pago := NewPago(turnoId, b.monto.value, b.metodoPago.value, Some(EstadoPagado), Some(now));
      if !ValidPago(pago) then Outcome(st2, ServerError)
      else
        // The second save runs the same validators on the same fields, which passed above.
        var linked := turno.(pago := Some(pagoId));
        var st3 := st2.(pagos := st2.pagos[pagoId := pago], turnos := st2.turnos[turnoId := linked]);
        Outcome(st3, Envelope(201, true, TurnoDoc(turnoId, linked), "Turno creado con pago asociado"))
  }

  /**
   `POST /turno` as written: the nested producto object is never filled in,
   so the schema's required `producto.nombreProduco` rejects the first save.
   Every request that passes the checks bumps the counter and gets a 500;
   no turno and no pago is ever stored.
   */
  function PostTurnoAsWritten(st: Store, b: TurnoBody, now: Timestamp, turnoId: Id, pagoId: Id): (r: Outcome)
    ensures r.store.turnos == st.turnos && r.store.pagos == st.pagos && r.store.usuarios == st.usuarios
    ensures r.reply.status != 201
    ensures !TurnoBodyAcceptable(b) ==> r.store == st && r.reply == CheckTurnoBody(b).value
    ensures TurnoBodyAcceptable(b) ==>
      r.reply == ServerError && CounterValue(r.store.configs) == CounterValue(st.configs) + 1
  {
    match CheckTurnoBody(b)
    case Some(e) => Outcome(st, e)
    case None => CreateTurno(st, b, now, turnoId, pagoId, ProductoAusente)
  }

  /** The producto snapshot copied from the request, under the schema's field name. */
  function ProductoOf(p: ProductoBody): (r: Producto)
    requires ProductoGiven(p)
    ensures r.nombreProduco == p.nombreProducto.value && r.especificaciones == p.especificaciones
    ensures r.nombreProduco != ""
  {
    Producto(p.nombreProducto.value, p.especificaciones)
  }

  /** What a successful `POST /turno` leaves behind: one new turno and its pago, linked both ways. */
  predicate Created(st: Store, b: TurnoBody, now: Timestamp, turnoId: Id, pagoId: Id, r: Outcome)
    requires TurnoBodyAcceptable(b)
  {
    && r.store.turnos.Keys == st.turnos.Keys + {turnoId}
    && r.store.pagos.Keys == st.pagos.Keys + {pagoId}
    && (forall id :: id in st.turnos && id != turnoId ==> r.store.turnos[id] == st.turnos[id])
    && (forall id :: id in st.pagos && id != pagoId ==> r.store.pagos[id] == st.pagos[id])
    && r.store.usuarios == st.usuarios
    && r.store.configs == NumeroAutoincrement(st.configs).0
    && var t := r.store.turnos[turnoId];
    && var p := r.store.pagos[pagoId];
    && t.numeroTurno == CounterValue(st.configs) + 1 == CounterValue(r.store.configs)
    && t.estado == EstadoPendiente
    && t.tipo == b.tipo.value
    && t.usuario == ClienteOf(b.usuario.value)
    && t.producto == ProductoOf(b.producto.value)
    && t.fechaCreacion == now
    && t.pago == Some(pagoId)
    && p.turno == turnoId
    && p.estado == EstadoPagado
    && p.monto == b.monto.value
    && p.metodoPago == b.metodoPago.value
    && p.fechaPago == Some(now)
    && r.reply == Envelope(201, true, TurnoDoc(turnoId, t), "Turno creado con pago asociado")
  }

  /**
   `POST /turno` with the request's producto copied into the turno. A
   rejected request leaves the store unchanged; a 201 is exactly `Created`.
   `turnoId` and `pagoId` are the fresh ObjectIds the store generates.
   */
  function PostTurno(st: Store, b: TurnoBody, now: Timestamp, turnoId: Id, pagoId: Id): (r: Outcome)
    requires turnoId !in st.turnos && pagoId !in st.pagos
    ensures Coherent(r.reply) && r.reply.status in {201, 400, 404, 500}
    ensures !TurnoBodyAcceptable(b) ==> r.store == st && r.reply == CheckTurnoBody(b).value
    ensures r.reply.status == 201 ==> TurnoBodyAcceptable(b) && Created(st, b, now, turnoId, pagoId, r)
    ensures r.store.usuarios == st.usuarios
  {
    match CheckTurnoBody(b)
    case Some(e) => Outcome(st, e)
    case None => CreateTurno(st, b, now, turnoId, pagoId, ProductoOf(b.producto.value))
  }

  /** In a consistent store, every acceptable request with a schema-valid payment method gets a 201. */
  lemma PostTurnoSucceeds(st: Store, b: TurnoBody, now: Timestamp, turnoId: Id, pagoId: Id)
    requires ValidStore(st) && NumerosBelowCounter(st)
    requires turnoId !in st.turnos && pagoId !in st.pagos
    requires TurnoBodyAcceptable(b) && b.metodoPago.value in MetodosPago
    ensures PostTurno(st, b, now, turnoId, pagoId).reply.status == 201
  {
  }

  /**
   A payment method outside the schema's enumeration is not checked by the
   handler: the turno is already saved when the pago is rejected, so the
   store keeps a turno with no pago and a consumed number.
   */
  lemma PostTurnoLeavesOrphanTurno(st: Store, b: TurnoBody, now: Timestamp, turnoId: Id, pagoId: Id)
    requires ValidStore(st) && NumerosBelowCounter(st)
    requires turnoId !in st.turnos && pagoId !in st.pagos
    requires TurnoBodyAcceptable(b) && b.metodoPago.value !in MetodosPago
    ensures var r := PostTurno(st, b, now, turnoId, pagoId);
      && r.reply == ServerError
      && r.store.turnos.Keys == st.turnos.Keys + {turnoId}
      && r.store.turnos[turnoId].pago.None?
      && r.store.pagos == st.pagos
      && CounterValue(r.store.configs) == CounterValue(st.configs) + 1
  {
  }

  /** `POST /turno` keeps every schema constraint and keeps turno numbers below the counter. */
  lemma PostTurnoPreservesValidity(st: Store, b: TurnoBody, now: Timestamp, turnoId: Id, pagoId: Id)
    requires ValidStore(st) && NumerosBelowCounter(st)
    requires turnoId !in st.turnos && pagoId !in st.pagos
    ensures ValidStore(PostTurno(st, b, now, turnoId, pagoId).store)
    ensures NumerosBelowCounter(PostTurno(st, b, now, turnoId, pagoId).store)
  {
    if TurnoBodyAcceptable(b) {
      CreateTurnoPreservesValidity(st, b, now, turnoId, pagoId, ProductoOf(b.producto.value));
    }
  }

  /** The writes of `POST /turno` keep the store valid, whatever producto they store. */
  lemma CreateTurnoPreservesValidity(st: Store, b: TurnoBody, now: Timestamp, turnoId: Id, pagoId: Id, producto: Producto)
    requires ValidStore(st) && NumerosBelowCounter(st)
    requires turnoId !in st.turnos && pagoId !in st.pagos
    requires TurnoBodyAcceptable(b)
    ensures ValidStore(CreateTurno(st, b, now, turnoId, pagoId, producto).store)
    ensures NumerosBelowCounter(CreateTurno(st, b, now, turnoId, pagoId, producto).store)
  {
    var r := CreateTurno(st, b, now, turnoId, pagoId, producto);
    CreateTurnoKeepsTurnos(st, b, now, turnoId, pagoId, producto);
    CreateTurnoKeepsRest(st, b, now, turnoId, pagoId, producto);
    assert ValidStore(r.store);
  }

  /** The turno collection after the writes of `POST /turno` is valid and below the counter. */
  lemma CreateTurnoKeepsTurnos(st: Store, b: TurnoBody, now: Timestamp, turnoId: Id, pagoId: Id, producto: Producto)
    requires ValidTurnos(st.turnos) && NumerosBelowCounter(st)
    requires TurnoBodyAcceptable(b)
    ensures ValidTurnos(CreateTurno(st, b, now, turnoId, pagoId, producto).store.turnos)
    ensures NumerosBelowCounter(CreateTurno(st, b, now, turnoId, pagoId, producto).store)
  {
    var turno := Draft(st, b, now, producto);
    var linked := turno.(pago := Some(pagoId));
    var turnos := CreateTurno(st, b, now, turnoId, pagoId, producto).store.turnos;
    if Saveable(st.turnos, turnoId, turno) {
      assert turnos == st.turnos[turnoId := turno] || turnos == st.turnos[turnoId := linked];
      SaveKeepsTurnosValid(st.turnos, turnoId, turno);
      SaveKeepsTurnosValid(st.turnos, turnoId, linked);
    } else {
      assert turnos == st.turnos;
    }
  }

  /** The pagos, usuarios and counters after the writes of `POST /turno` are valid. */
  lemma CreateTurnoKeepsRest(st: Store, b: TurnoBody, now: Timestamp, turnoId: Id, pagoId: Id, producto: Producto)
    requires ValidPagos(st.pagos) && ValidUsuarios(st.usuarios) && ValidConfigs(st.configs)
    requires TurnoBodyAcceptable(b)
    ensures var s := CreateTurno(st, b, now, turnoId, pagoId, producto).store;
      ValidPagos(s.pagos) && ValidUsuarios(s.usuarios) && ValidConfigs(s.configs)
  {
  }

  /** A save that passes the validators keeps the collection valid. */
  lemma SaveKeepsTurnosValid(turnos: map<Id, Turno>, id: Id, t: Turno)
    requires ValidTurnos(turnos) && Saveable(turnos, id, t)
    ensures ValidTurnos(turnos[id := t])
  {
  }

  // ---------------------------------------------------------------------
  // update and delete
  // ---------------------------------------------------------------------

  predicate TurnoUpdateAcceptable(u: TurnoUpdate) {
    && Given(u.tipo) && Given(u.estado) && u.usuario.Some?
    && ClienteGiven(u.usuario.value)
    && u.tipo.value in TiposTurno
    && u.estado.value == EstadoPendiente
  }

  /** The body checks of `PUT /turno/:id`, in order; every failure is a 400. */
  function CheckTurnoUpdate(u: TurnoUpdate): (r: Option<Envelope>)
    ensures r.None? <==> TurnoUpdateAcceptable(u)
    ensures r.Some? ==> r.value.status == 400 && Coherent(r.value)
  {
    if !Given(u.tipo) || !Given(u.estado) || u.usuario.None? then Some(Fail(400, MsgFaltanDatos))
    else if !ClienteGiven(u.usuario.value) then Some(Fail(400, MsgDatosUsuario))
    else if u.tipo.value != "domicilio" && u.tipo.value != "pedido" then Some(Fail(400, MsgTipo))
    else if u.estado.value != EstadoPendiente then Some(Fail(400, MsgEstadoInicial))
    else None
  }

  /** The body carries none of the fields the handler does not check. */
  predicate OnlyCheckedFields(u: TurnoUpdate) {
    u.numeroTurno.None? && u.producto.None? && u.pago.None? && u.fechaCreacion.None?
  }

  /** The document `updateOne(req.body)` leaves: every field the body carries replaces the stored one. */
  function Updated(t: Turno, u: TurnoUpdate): Turno
    requires TurnoUpdateAcceptable(u)
  {
    Turno(u.numeroTurno.GetOr(t.numeroTurno), u.tipo.value, u.estado.value, u.fechaCreacion.GetOr(t.fechaCreacion),
          ClienteOf(u.usuario.value), u.producto.GetOr(t.producto), u.pago.GetOr(t.pago))
  }

  /**
   `PUT /turno/:id` as written: the id checks, the body checks, then
   `updateOne` with the whole body on that one document. No validator runs,
   so every schema field the body carries is written unchecked; only the
   unique index on numeroTurno can still refuse the write (a 500). Because
   the body must say "pendiente", no successful update moves a turno to
   atendido or cancelado.
   */
  function PutTurno(foreign: Foreign, st: Store, id: string, u: TurnoUpdate): (r: Outcome)
    ensures Coherent(r.reply) && r.reply.status in {200, 400, 404, 500}
    ensures !foreign.isValidId(id) ==> r.reply.status == 400
    ensures foreign.isValidId(id) && id !in st.turnos ==> r.reply.status == 404
    ensures foreign.isValidId(id) && id in st.turnos && !TurnoUpdateAcceptable(u) ==>
      r.reply == CheckTurnoUpdate(u).value && r.store == st
    ensures r.reply.status == 500 <==>
      && foreign.isValidId(id) && id in st.turnos && TurnoUpdateAcceptable(u)
      && u.numeroTurno.Some? && NumeroTaken(st.turnos, id, u.numeroTurno.value)
    ensures r.reply.status == 200 <==>
      && foreign.isValidId(id) && id in st.turnos && TurnoUpdateAcceptable(u)
      && !(u.numeroTurno.Some? && NumeroTaken(st.turnos, id, u.numeroTurno.value))
    ensures r.reply.status != 200 ==> r.store == st
    ensures r.reply.status == 200 ==>
      && r.store.pagos == st.pagos && r.store.usuarios == st.usuarios && r.store.configs == st.configs
      && r.store.turnos.Keys == st.turnos.Keys
      && (forall other :: other in st.turnos && other != id ==> r.store.turnos[other] == st.turnos[other])
      && var old_ := st.turnos[id];
      && var new_ := r.store.turnos[id];
      && new_.estado == EstadoPendiente
      && new_.tipo == u.tipo.value
      && new_.usuario == ClienteOf(u.usuario.value)
      && (u.numeroTurno.Some? ==> new_.numeroTurno == u.numeroTurno.value)
      && (u.numeroTurno.None? ==> new_.numeroTurno == old_.numeroTurno)
      && (u.producto.Some? ==> new_.producto == u.producto.value)
      && (u.producto.None? ==> new_.producto == old_.producto)
      && (u.pago.Some? ==> new_.pago == u.pago.value)
      && (u.pago.None? ==> new_.pago == old_.pago)
      && (u.fechaCreacion.Some? ==> new_.fechaCreacion == u.fechaCreacion.value)
      && (u.fechaCreacion.None? ==> new_.fechaCreacion == old_.fechaCreacion)
  {
    match CheckId(foreign, st.turnos, id, NotFoundTurno)
    case Some(e) => Outcome(st, e)
    case None =>
      match CheckTurnoUpdate(u)
      case Some(e) => Outcome(st, e)
      case None =>
        if u.numeroTurno.Some? && NumeroTaken(st.turnos, id, u.numeroTurno.value) then Outcome(st, ServerError)
        else
          var t := Updated(st.turnos[id], u);
          Outcome(st.(turnos := st.turnos[id := t]), Envelope(200, true, Nothing, "Turno actualziado con el id " + id))
  }

  /** Whatever the body carries, the unique index keeps turno numbers distinct. */
  lemma PutTurnoKeepsUniqueNumeros(foreign: Foreign, st: Store, id: string, u: TurnoUpdate)
    requires UniqueNumeros(st.turnos)
    ensures UniqueNumeros(PutTurno(foreign, st, id, u).store.turnos)
  {
  }

  /** For a body with only the checked fields, `PUT /turno/:id` keeps every schema constraint, although `updateOne` runs no validator. */
  lemma PutTurnoPreservesValidity(foreign: Foreign, st: Store, id: string, u: TurnoUpdate)
    requires ValidStore(st) && NumerosBelowCounter(st)
    requires OnlyCheckedFields(u)
    ensures ValidStore(PutTurno(foreign, st, id, u).store)
    ensures NumerosBelowCounter(PutTurno(foreign, st, id, u).store)
  {
    PutTurnoFixedAgrees(foreign, st, id, u);
    PutTurnoFixedPreservesValidity(foreign, st, id, u);
  }

  /**
   A body that passes the checks and also carries a producto without a name
   gets a 200 and leaves a turno the schema's required `producto.nombreProduco`
   rejects.
   */
  lemma PutTurnoStoresNamelessProducto(foreign: Foreign, st: Store, id: string, u: TurnoUpdate)
    requires foreign.isValidId(id) && id in st.turnos && TurnoUpdateAcceptable(u)
    requires u.numeroTurno.None? && u.producto == Some(ProductoAusente)
    ensures var r := PutTurno(foreign, st, id, u);
      r.reply.status == 200 && !ValidTurnos(r.store.turnos)
  {
    var r := PutTurno(foreign, st, id, u);
    assert !ValidTurno(r.store.turnos[id]);
  }

  /**
   A body that passes the checks and also carries the number the counter
   hands out next gets a 200; from then on a stored number is ahead of the
   counter, and the next acceptable `POST /turno` is refused by the unique
   index with a 500.
   */
  lemma PutTurnoStoresNumberAhead(foreign: Foreign, st: Store, id: string, u: TurnoUpdate,
                                  b: TurnoBody, now: Timestamp, turnoId: Id, pagoId: Id)
    requires NumerosBelowCounter(st)
    requires foreign.isValidId(id) && id in st.turnos && TurnoUpdateAcceptable(u)
    requires u.numeroTurno == Some(CounterValue(st.configs) + 1)
    requires TurnoBodyAcceptable(b) && turnoId !in st.turnos && pagoId !in st.pagos
    ensures var r := PutTurno(foreign, st, id, u);
      && r.reply.status == 200
      && !NumerosBelowCounter(r.store)
      && PostTurno(r.store, b, now, turnoId, pagoId).reply == ServerError
  {
    var r := PutTurno(foreign, st, id, u);
    assert !NumeroTaken(st.turnos, id, u.numeroTurno.value);
    assert r.store.turnos[id].numeroTurno == CounterValue(r.store.configs) + 1;
    assert NumeroTaken(r.store.turnos, turnoId, Draft(r.store, b, now, ProductoOf(b.producto.value)).numeroTurno);
  }

  /**
   `PUT /turno/:id` writing only the fields the handler checks: tipo, estado
   and usuario. The number, producto, pago and creation date are kept.
   */
  function PutTurnoFixed(foreign: Foreign, st: Store, id: string, u: TurnoUpdate): (r: Outcome)
    ensures Coherent(r.reply) && r.reply.status in {200, 400, 404}
    ensures !foreign.isValidId(id) ==> r.reply.status == 400
    ensures foreign.isValidId(id) && id !in st.turnos ==> r.reply.status == 404
    ensures foreign.isValidId(id) && id in st.turnos && !TurnoUpdateAcceptable(u) ==>
      r.reply == CheckTurnoUpdate(u).value && r.store == st
    ensures r.reply.status == 200 <==> foreign.isValidId(id) && id in st.turnos && TurnoUpdateAcceptable(u)
    ensures r.reply.status != 200 ==> r.store == st
    ensures r.reply.status == 200 ==>
      && r.store.pagos == st.pagos && r.store.usuarios == st.usuarios && r.store.configs == st.configs
      && r.store.turnos.Keys == st.turnos.Keys
      && (forall other :: other in st.turnos && other != id ==> r.store.turnos[other] == st.turnos[other])
      && var old_ := st.turnos[id];
      && var new_ := r.store.turnos[id];
      && new_.estado == EstadoPendiente
      && new_.tipo == u.tipo.value
      && new_.usuario == ClienteOf(u.usuario.value)
      && new_.numeroTurno == old_.numeroTurno && new_.producto == old_.producto
      && new_.pago == old_.pago && new_.fechaCreacion == old_.fechaCreacion
  {
    match CheckId(foreign, st.turnos, id, NotFoundTurno)
    case Some(e) => Outcome(st, e)
    case None =>
      match CheckTurnoUpdate(u)
      case Some(e) => Outcome(st, e)
      case None =>
        var t := st.turnos[id].(tipo := u.tipo.value, estado := u.estado.value, usuario := ClienteOf(u.usuario.value));
        Outcome(st.(turnos := st.turnos[id := t]), Envelope(200, true, Nothing, "Turno actualziado con el id " + id))
  }

  /** On a body with only the checked fields, the handler as written and the corrected one coincide. */
  lemma PutTurnoFixedAgrees(foreign: Foreign, st: Store, id: string, u: TurnoUpdate)
    requires OnlyCheckedFields(u)
    ensures PutTurno(foreign, st, id, u) == PutTurnoFixed(foreign, st, id, u)
  {
  }

  /** The corrected update keeps every schema constraint, whatever the body carries. */
  lemma PutTurnoFixedPreservesValidity(foreign: Foreign, st: Store, id: string, u: TurnoUpdate)
    requires ValidStore(st) && NumerosBelowCounter(st)
    ensures ValidStore(PutTurnoFixed(foreign, st, id, u).store)
    ensures NumerosBelowCounter(PutTurnoFixed(foreign, st, id, u).store)
  {
  }

  /** `DELETE /turno/:id`: removes exactly that turno; its pago and everything else stay. */
  function DeleteTurno(foreign: Foreign, st: Store, id: string): (r: Outcome)
    ensures Coherent(r.reply) && r.reply.status in {200, 400, 404}
    ensures !foreign.isValidId(id) ==> r.reply.status == 400
    ensures foreign.isValidId(id) && id !in st.turnos ==> r.reply.status == 404
    ensures r.reply.status == 200 <==> foreign.isValidId(id) && id in st.turnos
    ensures r.reply.status != 200 ==> r.store == st
    ensures r.reply.status == 200 ==>
      && r.store.turnos.Keys == st.turnos.Keys - {id}
      && (forall other :: other in r.store.turnos ==> r.store.turnos[other] == st.turnos[other])
      && r.store.pagos == st.pagos && r.store.usuarios == st.usuarios && r.store.configs == st.configs
  {
    match CheckId(foreign, st.turnos, id, NotFoundTurno)
    case Some(e) => Outcome(st, e)
    case None => Outcome(st.(turnos := st.turnos - {id}), Envelope(200, true, Nothing, "Turno eliminado con el id " + id))
  }

  /** Deleting a turno that has a pago leaves that pago pointing at a turno that no longer exists. */
  lemma DeleteTurnoOrphansPago(foreign: Foreign, st: Store, id: string)
    requires foreign.isValidId(id) && id in st.turnos
    requires st.turnos[id].pago.Some? && st.turnos[id].pago.value in st.pagos
    requires st.pagos[st.turnos[id].pago.value].turno == id
    ensures var s := DeleteTurno(foreign, st, id).store;
      && st.turnos[id].pago.value in s.pagos
      && s.pagos[st.turnos[id].pago.value].turno !in s.turnos
  {
  }

  /** `DELETE /turno/:id` keeps every schema constraint. */
  lemma DeleteTurnoPreservesValidity(foreign: Foreign, st: Store, id: string)
    requires ValidStore(st) && NumerosBelowCounter(st)
    ensures ValidStore(DeleteTurno(foreign, st, id).store)
    ensures NumerosBelowCounter(DeleteTurno(foreign, st, id).store)
  {
  }
}
