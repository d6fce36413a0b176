/**
 The Express application: three routers mounted under "/pago", "/turno"
 and "/usuario", in that order. A request whose first segment names no
 mount, or which its router does not match, gets Express's default 404,
 written here as None.
 */
module App {
  import opened Wrappers
  import opened Models
  import opened Envelope
  import opened Router
  import R = Routes
  import TC = TurnoController
  import PC = PagoController

  /** Which router took the request, and what that router matched. */
  datatype Served =
    | AtPago(pago: Match<R.PagoHandler>)
    | AtTurno(turno: Match<R.TurnoHandler>)
    | AtUsuario(usuario: Match<R.UsuarioHandler>)

  /**
   A mount prefix matches the first segment as a route literal does; the
   router mounted there sees the rest of the path, and its answer is the
   application's. A first segment that names no mount reaches no router.
   */
  function Serve(m: Method, path: seq<string>): (r: Option<Served>)
    ensures |path| == 0 ==> r.None?
    ensures |path| > 0 && !SameText("pago", path[0]) && !SameText("turno", path[0]) && !SameText("usuario", path[0])
      ==> r.None?
    ensures |path| > 0 && SameText("pago", path[0]) ==> (r.None? <==> Dispatch(R.PagoRoutes, m, path[1..]).None?)
    ensures |path| > 0 && SameText("turno", path[0]) ==> (r.None? <==> Dispatch(R.TurnoRoutes, m, path[1..]).None?)
    ensures |path| > 0 && SameText("usuario", path[0]) ==> (r.None? <==> Dispatch(R.UsuarioRoutes, m, path[1..]).None?)
    ensures r.Some? && r.value.AtPago? ==>
      SameText("pago", path[0]) && Dispatch(R.PagoRoutes, m, path[1..]) == Some(r.value.pago)
    ensures r.Some? && r.value.AtTurno? ==>
      SameText("turno", path[0]) && Dispatch(R.TurnoRoutes, m, path[1..]) == Some(r.value.turno)
    ensures r.Some? && r.value.AtUsuario? ==>
      SameText("usuario", path[0]) && Dispatch(R.UsuarioRoutes, m, path[1..]) == Some(r.value.usuario)
  {
    if |path| == 0 then None
    else if SameText("pago", path[0]) then
      match Dispatch(R.PagoRoutes, m, path[1..])
      case None => None
      case Some(x) => Some(AtPago(x))
    else if SameText("turno", path[0]) then
      match Dispatch(R.TurnoRoutes, m, path[1..])
      case None => None
      case Some(x) => Some(AtTurno(x))
    else if SameText("usuario", path[0]) then
      match Dispatch(R.UsuarioRoutes, m, path[1..])
      case None => None
      case Some(x) => Some(AtUsuario(x))
    else None
  }

  /** A path under "/turno" goes to the /turno router with the mount segment removed. */
  lemma ServeTurno(m: Method, path: seq<string>)
    requires |path| >= 1 && path[0] == "turno"
    ensures Serve(m, path) == (match Dispatch(R.TurnoRoutes, m, path[1..])
                               case None => None
                               case Some(x) => Some(AtTurno(x)))
  {
    assert !SameText("pago", path[0]);
    assert SameText("turno", path[0]);
  }

  /** A path under "/pago" goes to the /pago router with the mount segment removed. */
  lemma ServePago(m: Method, path: seq<string>)
    requires |path| >= 1 && path[0] == "pago"
    ensures Serve(m, path) == (match Dispatch(R.PagoRoutes, m, path[1..])
                               case None => None
                               case Some(x) => Some(AtPago(x)))
  {
    assert SameText("pago", path[0]);
  }

  /**
   `mongoose.Types.ObjectId.isValid` accepts only 12-character strings and
   24-digit hex strings; the lemmas below need no more of it than that.
   */
  ghost predicate ObjectIdLength(foreign: Foreign) {
    forall s :: foreign.isValidId(s) ==> |s| == 12 || |s| == 24
  }

  /**
   `GET /turno/pendientes` is answered by getTurnoById, which rejects
   "pendientes" as a malformed id: the client gets a 400, never the
   pending list, whatever the store holds.
   */
  lemma PendientesRequestIsRejected(foreign: Foreign, st: Store)
    requires ObjectIdLength(foreign)
    ensures Serve(Get, ["turno", "pendientes"]) == Some(AtTurno(Match(R.GetTurnoById, map["id" := "pendientes"])))
    ensures TC.GetTurnoById(foreign, st, "pendientes") == Fail(400, MsgIdInvalido("pendientes"))
  {
    var path := ["turno", "pendientes"];
    assert Serve(Get, path) == Some(AtTurno(Match(R.GetTurnoById, map["id" := "pendientes"]))) by {
      ServeTurno(Get, path);
      assert path[1..] == ["pendientes"];
      R.PendientesTakenById();
    }
    assert !foreign.isValidId("pendientes") by {
      assert |"pendientes"| == 10;
    }
  }

  /**
   `GET /pago/pagoByTurno` is answered by getPagoById, which rejects
   "pagoByTurno" as a malformed id.
   */
  lemma PagoByTurnoRequestIsRejected(foreign: Foreign, st: Store)
    requires ObjectIdLength(foreign)
    ensures Serve(Get, ["pago", "pagoByTurno"]) == Some(AtPago(Match(R.GetPagoById, map["id" := "pagoByTurno"])))
    ensures PC.GetPagoById(foreign, st, "pagoByTurno") == Fail(400, MsgIdInvalido("pagoByTurno"))
  {
    var path := ["pago", "pagoByTurno"];
    assert Serve(Get, path) == Some(AtPago(Match(R.GetPagoById, map["id" := "pagoByTurno"]))) by {
      ServePago(Get, path);
      assert path[1..] == ["pagoByTurno"];
      R.GetPagoByTurnoUnreachable(Get, ["pagoByTurno"]);
    }
    assert !foreign.isValidId("pagoByTurno") by {
      assert |"pagoByTurno"| == 11;
    }
  }
}
