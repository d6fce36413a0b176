/** The pago handlers. All of them only read: their results carry no store. */
module PagoController {
  import opened Wrappers
  import opened Models
  import opened Envelope

  const NotFoundPago := "No se encontro el pago con el id "
  const MsgMetodo := "El metodo de pago solo puede ser efectivo, tarjeta o transferencia"

  /**
   `GET /pago` as written. The emptiness test reads the misspelled property
   `lenght`, which is undefined, so it never equals 0 and an empty
   collection is a 200 with an empty list.
   */
  function GetAllPagos(st: Store): (r: Envelope)
    ensures r == Envelope(200, true, PagoList(st.pagos), "Pagos encontrados")
  {
    var lenght: Option<int> := None;
    if lenght == Some(0) then Fail(404, "No se encontraron pagos")
    else Envelope(200, true, PagoList(st.pagos), "Pagos encontrados")
  }

  /** `GET /pago` with the emptiness test on the collection's length, as every other list handler does. */
  function GetAllPagosFixed(st: Store): (r: Envelope)
    ensures Coherent(r)
    ensures r.status == 404 <==> st.pagos == map[]
    ensures r.status != 404 ==> r.status == 200 && r.data == PagoList(st.pagos)
  {
    if |st.pagos| == 0 then Fail(404, "No se encontraron pagos")
    else Envelope(200, true, PagoList(st.pagos), "Pagos encontrados")
  }

  /** `GET /pago/:id`. */
  function GetPagoById(foreign: Foreign, st: Store, id: string): (r: Envelope)
    ensures Coherent(r)
    ensures !foreign.isValidId(id) ==> r.status == 400
    ensures foreign.isValidId(id) && id !in st.pagos ==> r.status == 404
    ensures r.status == 200 <==> foreign.isValidId(id) && id in st.pagos
    ensures r.status == 200 ==> r.data == PagoDoc(id, st.pagos[id])
  {
    match CheckId(foreign, st.pagos, id, NotFoundPago)
    case Some(e) => e
    case None => Envelope(200, true, PagoDoc(id, st.pagos[id]), "Pago encontrado")
  }

  /** A malformed id is answered without consulting the store. */
  lemma GetPagoByIdMalformedIgnoresStore(foreign: Foreign, a: Store, b: Store, id: string)
    requires !foreign.isValidId(id)
    ensures GetPagoById(foreign, a, id) == GetPagoById(foreign, b, id)
  {
  }

  /** The pagos paid with `metodo`. */
  function WithMetodo(pagos: map<Id, Pago>, metodo: string): (r: map<Id, Pago>)
    ensures forall id :: id in r <==> id in pagos && pagos[id].metodoPago == metodo
    ensures forall id :: id in r ==> r[id] == pagos[id]
  {
    map id | id in pagos && pagos[id].metodoPago == metodo :: pagos[id]
  }

  /**
   The guard of `GET /pago/pagosByMetodo/:metodo` as written: a disjunction of
   three `!=` tests (one of them against the misspelling "trajeta").
   */
  predicate MetodoRejectedAsWritten(metodo: string) {
    metodo != "efectivo" || metodo != "trajeta" || metodo != "transferencia"
  }

  /**
   `GET /pago/pagosByMetodo/:metodo` as written. The guard holds for every
   string, so every request is a 400 and the store is never queried.
   */
  function GetPagosByMetodo(st: Store, metodo: string): (r: Envelope)
    ensures r == Fail(400, MsgMetodo)
  {
    if MetodoRejectedAsWritten(metodo) then Fail(400, MsgMetodo)
    else
      var pagos := WithMetodo(st.pagos, metodo);
      if |pagos| == 0 then Fail(404, "No se encontraron pagos con el metodo de pago " + metodo)
      else Envelope(200, true, PagoList(pagos), "Pagos con el metodo de pago " + metodo)
  }

  /** `GET /pago/pagosByMetodo/:metodo` rejecting only a method outside the schema's enumeration. */
  function GetPagosByMetodoFixed(st: Store, metodo: string): (r: Envelope)
    ensures Coherent(r) && r.status in {200, 400, 404}
    ensures r.status == 400 <==> metodo !in MetodosPago
    ensures r.status == 404 <==> metodo in MetodosPago && forall id :: id in st.pagos ==> st.pagos[id].metodoPago != metodo
    ensures r.status == 200 ==>
      && r.data.PagoList?
      && (forall id :: id in r.data.pagos <==> id in st.pagos && st.pagos[id].metodoPago == metodo)
      && (forall id :: id in r.data.pagos ==> r.data.pagos[id] == st.pagos[id])
  {
    if metodo !in MetodosPago then Fail(400, MsgMetodo)
    else
      var pagos := WithMetodo(st.pagos, metodo);
      if |pagos| == 0 then Fail(404, "No se encontraron pagos con el metodo de pago " + metodo)
      else Envelope(200, true, PagoList(pagos), "Pagos con el metodo de pago " + metodo)
  }

  /** How an interpolated parameter prints: an absent one prints as "undefined". */
  function Shown(p: Option<string>): string {
    match p
    case Some(s) => s
    case None => "undefined"
  }

  /**
   `GET /pago/pagoByTurno`: the turno id must be well formed (an absent
   parameter is not), the turno must exist, and some pago must reference it;
   the two not-found cases are distinct 404s.
   */
  ghost function GetPagoByTurno(foreign: Foreign, st: Store, id: Option<string>): (r: Envelope)
    ensures Coherent(r) && r.status in {200, 400, 404}
    ensures r.status == 400 <==> id.None? || !foreign.isValidId(id.value)
    ensures id.Some? && foreign.isValidId(id.value) && id.value !in st.turnos ==>
      r == Fail(404, "No se encontro el turno con el id " + id.value)
    ensures id.Some? && foreign.isValidId(id.value) && id.value in st.turnos
            && (forall p :: p in st.pagos ==> st.pagos[p].turno != id.value) ==>
      r == Fail(404, "No se encontro el pago del turno con el id " + id.value)
    ensures id.Some? && foreign.isValidId(id.value) && id.value in st.turnos
            && (exists p :: p in st.pagos && st.pagos[p].turno == id.value) ==>
      r.status == 200
    ensures r.status == 200 ==>
      && id.Some? && id.value in st.turnos
      && r.data.PagoDoc? && r.data.pagoId in st.pagos
      && r.data.pago == st.pagos[r.data.pagoId]
      && r.data.pago.turno == id.value
  {
    if id.None? || !foreign.isValidId(id.value) then
      Fail(400, MsgIdInvalido(Shown(id)))
    else if id.value !in st.turnos then
      Fail(404, "No se encontro el turno con el id " + id.value)
    else
      match FindOne(st.pagos, (p: Pago) => p.turno == id.value)
      case None => Fail(404, "No se encontro el pago del turno con el id " + id.value)
      case Some(pid) => Envelope(200, true, PagoDoc(pid, st.pagos[pid]), "Pago asociado al turno " + id.value)
  }
}
