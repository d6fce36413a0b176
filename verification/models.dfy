/**
 The persisted documents of the backend and the schema constraints Mongoose
 enforces when a document is saved or created: required fields, enumerations,
 defaults and unique indexes. A required `String` is modelled as a `string`
 that must be non-empty, because Mongoose rejects the empty string for a
 required string path.
 */
module Models {
  import opened Wrappers

  /** A document id: the hexadecimal text of a store ObjectId. */
  type Id = string

  /** An opaque point in time (`Date.now`, `new Date()`). */
  datatype Timestamp = Timestamp(ticks: int)

  // ---------------------------------------------------------------------
  // turno
  // ---------------------------------------------------------------------

  const TiposTurno: set<string> := {"pedido", "domicilio"}
  const EstadosTurno: set<string> := {"pendiente", "atendido", "cancelado"}
  const EstadoPendiente := "pendiente"

  /** The customer snapshot embedded in a turno. */
  datatype Cliente = Cliente(nombre: string, email: string, celular: string)

  /** The product snapshot; the schema spells its name field `nombreProduco`. */
  datatype Producto = Producto(nombreProduco: string, especificaciones: Option<string>)

  /** The nested `producto` object of a document built without one. */
  const ProductoAusente := Producto("", None)

  datatype Turno = Turno(
    numeroTurno: int,
    tipo: string,
    estado: string,
    fechaCreacion: Timestamp,
    usuario: Cliente,
    producto: Producto,
    pago: Option<Id>)

  /** The per-document validators of the turno schema. */
  predicate ValidTurno(t: Turno) {
    && t.tipo in TiposTurno
    && t.estado in EstadosTurno
    && t.usuario.nombre != ""
    && t.usuario.email != ""
    && t.usuario.celular != ""
    && t.producto.nombreProduco != ""
  }

  /** The unique index on numeroTurno. */
  predicate UniqueNumeros(turnos: map<Id, Turno>) {
    forall a, b :: a in turnos && b in turnos && turnos[a].numeroTurno == turnos[b].numeroTurno ==> a == b
  }

  /** Schema defaults applied when a turno is constructed: estado and fechaCreacion. */
  function NewTurno(numero: int, tipo: string, estado: Option<string>, now: Timestamp,
                    usuario: Cliente, producto: Producto, pago: Option<Id>): (t: Turno)
    ensures estado.None? ==> t.estado == EstadoPendiente
    ensures estado.Some? ==> t.estado == estado.value
    ensures t.fechaCreacion == now && t.numeroTurno == numero && t.pago == pago
  {
    Turno(numero, tipo, estado.GetOr(EstadoPendiente), now, usuario, producto, pago)
  }

  // ---------------------------------------------------------------------
  // pago
  // ---------------------------------------------------------------------

  const MetodosPago: set<string> := {"efectivo", "tarjeta", "transferencia"}
  const EstadoPagado := "pagado"

  /** `turno` is a required reference, so it is always an Id; estado has no enumeration. */
  datatype Pago = Pago(turno: Id, monto: int, metodoPago: string, estado: string, fechaPago: Option<Timestamp>)

  predicate ValidPago(p: Pago) {
    p.metodoPago in MetodosPago
  }

  /** Schema defaults applied when a pago is created: estado "pagado", fechaPago null. */
  function NewPago(turno: Id, monto: int, metodo: string, estado: Option<string>, fecha: Option<Timestamp>): (p: Pago)
    ensures estado.None? ==> p.estado == EstadoPagado
    ensures fecha.None? ==> p.fechaPago.None?
    ensures ValidPago(p) <==> metodo in MetodosPago
  {
    Pago(turno, monto, metodo, estado.GetOr(EstadoPagado), fecha)
  }

  // ---------------------------------------------------------------------
  // usuario
  // ---------------------------------------------------------------------

  const RolAdministrador := "administrador"
  const Roles: set<string> := {RolAdministrador}

  datatype Usuario = Usuario(email: string, password: string, rol: string, activo: bool, token: Option<string>)

  /** The per-document validators of the usuario schema; email has no unique index. */
  predicate ValidUsuario(u: Usuario) {
    && u.email != ""
    && u.password != ""
    && u.rol in Roles
  }

  /** Schema defaults applied when a usuario is created: active, no token. */
  function NewUsuario(email: string, password: string, rol: string): (u: Usuario)
    ensures u.activo && u.token.None?
    ensures ValidUsuario(u) <==> email != "" && password != "" && rol == RolAdministrador
  {
    Usuario(email, password, rol, true, None)
  }

  /** No two users share an email. Only the controllers keep this; the schema does not. */
  predicate UniqueEmails(usuarios: map<Id, Usuario>) {
    forall a, b :: a in usuarios && b in usuarios && usuarios[a].email == usuarios[b].email ==> a == b
  }

  // ---------------------------------------------------------------------
  // config (the counter collection)
  // ---------------------------------------------------------------------

  /** A counter document holds exactly a key and a number. */
  datatype Config = Config(clave: string, valor: int)

  /** A counter document created without a value. */
  function NewConfig(clave: string): (c: Config)
    ensures c.clave == clave && c.valor == 0
  {
    Config(clave, 0)
  }

  /**
   The counter collection is indexed by `clave`, which the unique index makes
   a key; every document is stored under its own non-empty key.
   */
  predicate ValidConfigs(configs: map<string, Config>) {
    forall k :: k in configs ==> configs[k].clave == k && k != ""
  }

  // ---------------------------------------------------------------------
  // the whole store
  // ---------------------------------------------------------------------

  datatype Store = Store(
    turnos: map<Id, Turno>,
    pagos: map<Id, Pago>,
    usuarios: map<Id, Usuario>,
    configs: map<string, Config>)

  /** Every turno satisfies its schema and numeroTurno is unique. */
  predicate ValidTurnos(turnos: map<Id, Turno>) {
    && (forall id :: id in turnos ==> ValidTurno(turnos[id]))
    && UniqueNumeros(turnos)
  }

  predicate ValidPagos(pagos: map<Id, Pago>) {
    forall id :: id in pagos ==> ValidPago(pagos[id])
  }

  predicate ValidUsuarios(usuarios: map<Id, Usuario>) {
    forall id :: id in usuarios ==> ValidUsuario(usuarios[id])
  }

  /** Every document satisfies its schema and every unique index holds. */
  predicate ValidStore(st: Store) {
    && ValidTurnos(st.turnos)
    && ValidPagos(st.pagos)
    && ValidUsuarios(st.usuarios)
    && ValidConfigs(st.configs)
  }

  /** `findOne`: some document of `m` satisfying `p`, or None when there is none. */
  ghost function FindOne<D>(m: map<Id, D>, p: D -> bool): (r: Option<Id>)
    ensures r.None? <==> forall id :: id in m ==> !p(m[id])
    ensures r.Some? ==> r.value in m && p(m[r.value])
  {
    if exists id :: id in m && p(m[id]) then
      var id :| id in m && p(m[id]); Some(id)
    else
      None
  }
}
