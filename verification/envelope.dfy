/**
 The uniform response of every handler, and the foreign helpers the handlers
 call. `response(res, status, ok, data, message)` becomes an `Envelope`; a
 `data` or `message` argument the caller leaves out (or passes as "") is
 `Nothing` or the empty message. `handleError` is a 500 envelope.
 */
module Envelope {
  import opened Wrappers
  import opened Models

  /** What a login returns about the user: no password. */
  datatype UserView = UserView(id: Id, email: string, rol: string)

  datatype Data =
    | Nothing
    | Text(text: string)
    | TurnoDoc(turnoId: Id, turno: Turno)
    | TurnoList(turnos: map<Id, Turno>)
    | PagoDoc(pagoId: Id, pago: Pago)
    | PagoList(pagos: map<Id, Pago>)
    | UsuarioDoc(usuarioId: Id, usuario: Usuario)
    | UsuarioList(usuarios: map<Id, Usuario>)
    | Session(token: string, user: UserView)
    | Registered(newId: Id, created: Usuario, newToken: string)

  datatype Envelope = Envelope(status: int, ok: bool, data: Data, message: string)

  /** The generic handler for an unexpected failure (a rejected save, for one). */
  const ServerError := Envelope(500, false, Nothing, "")

  /** A client-error envelope with no data. */
  function Fail(status: int, message: string): (e: Envelope)
    ensures !e.ok && e.status == status && e.data.Nothing?
  {
    Envelope(status, false, Nothing, message)
  }

  /** `ok` agrees with the status class: true exactly for a 2xx status. */
  predicate Coherent(e: Envelope) {
    e.ok <==> 200 <= e.status < 300
  }

  /** A handler's result: the store after its writes, and its response. */
  datatype Outcome = Outcome(store: Store, reply: Envelope)

  /**
   The helpers the handlers call but this model does not contain: ObjectId
   well-formedness, bcrypt hashing and comparison, token signing, the
   `password < 6` comparison with its string-to-number coercion, and the
   Number cast Mongoose applies to a numeroTurno query.
   */
  datatype Foreign = Foreign(
    isValidId: string -> bool,
    hash: string -> string,
    compare: (string, string) -> bool,
    sign: Id -> string,
    belowSix: string -> bool,
    toNumber: string -> Option<int>)

  /** A request field is truthy: present and not the empty string. */
  predicate Given(f: Option<string>) {
    f.Some? && f.value != ""
  }

  /** The 400 message for an id `ObjectId.isValid` rejects. */
  function MsgIdInvalido(id: string): string {
    "El id " + id + " no es valido para la base de datos"
  }

  /** The shared id checks of every by-id handler: 400 for a malformed id, 404 for an absent one. */
  function CheckId<D>(foreign: Foreign, docs: map<Id, D>, id: string, notFound: string): (r: Option<Envelope>)
    ensures !foreign.isValidId(id) ==> r == Some(Fail(400, MsgIdInvalido(id)))
    ensures foreign.isValidId(id) && id !in docs ==> r == Some(Fail(404, notFound + id))
    ensures foreign.isValidId(id) && id in docs ==> r.None?
    ensures r.Some? ==> !r.value.ok && r.value.status in {400, 404} && Coherent(r.value)
  {
    if !foreign.isValidId(id) then
      Some(Fail(400, MsgIdInvalido(id)))
    else if id !in docs then
      Some(Fail(404, notFound + id))
    else
      None
  }
}
