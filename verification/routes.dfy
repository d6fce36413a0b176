/**
 The three route tables of the backend, in registration order, and what
 each one does with every request. None of them mounts the auth gate.
 */
module Routes {
  import opened Wrappers
  import opened Router

  // ---------------------------------------------------------------------
  // /turno
  // ---------------------------------------------------------------------

  datatype TurnoHandler =
    | GetAllTurnos | GetTurnoById | GetTurnoByTurno | GetTurnoByPendiente
    | GetTurnosByEstado | PostTurno | PutTurno | DeleteTurno

  const TurnoRoutes: seq<Route<TurnoHandler>> := [
    Route(Get, [], GetAllTurnos),
    Route(Get, [Param("id")], GetTurnoById),
    Route(Get, [Lit("numero"), Param("turno")], GetTurnoByTurno),
    Route(Get, [Lit("pendientes")], GetTurnoByPendiente),
    Route(Get, [Lit("estado"), Param("estado")], GetTurnosByEstado),
    Route(Post, [], PostTurno),
    Route(Put, [Param("id")], PutTurno),
    Route(Delete, [Param("id")], DeleteTurno)
  ]

  /**
   What the /turno router does with each request, written out by cases.
   Every one-segment GET, "pendientes" included, is taken by `/:id`.
   */
  function TurnoRouting(m: Method, path: seq<string>): Option<Match<TurnoHandler>> {
    if m == Get && |path| == 0 then Some(Match(GetAllTurnos, map[]))
    else if m == Get && |path| == 1 && path[0] != "" then Some(Match(GetTurnoById, map["id" := path[0]]))
    else if m == Get && |path| == 2 && SameText("numero", path[0]) && path[1] != "" then
      Some(Match(GetTurnoByTurno, map["turno" := path[1]]))
    else if m == Get && |path| == 2 && SameText("estado", path[0]) && path[1] != "" then
      Some(Match(GetTurnosByEstado, map["estado" := path[1]]))
    else if m == Post && |path| == 0 then Some(Match(PostTurno, map[]))
    else if m == Put && |path| == 1 && path[0] != "" then Some(Match(PutTurno, map["id" := path[0]]))
    else if m == Delete && |path| == 1 && path[0] != "" then Some(Match(DeleteTurno, map["id" := path[0]]))
    else None
  }

  /** When each /turno route matches, in terms of the request alone. */
  lemma TurnoRouteConditions(m: Method, path: seq<string>)
    ensures RouteMatches(TurnoRoutes[0], m, path) <==> m == Get && |path| == 0
    ensures RouteMatches(TurnoRoutes[1], m, path) <==> m == Get && |path| == 1 && path[0] != ""
    ensures RouteMatches(TurnoRoutes[2], m, path) <==> m == Get && |path| == 2 && SameText("numero", path[0]) && path[1] != ""
    ensures RouteMatches(TurnoRoutes[3], m, path) ==> RouteMatches(TurnoRoutes[1], m, path)
    ensures RouteMatches(TurnoRoutes[4], m, path) <==> m == Get && |path| == 2 && SameText("estado", path[0]) && path[1] != ""
    ensures RouteMatches(TurnoRoutes[4], m, path) ==> !RouteMatches(TurnoRoutes[2], m, path)
    ensures RouteMatches(TurnoRoutes[5], m, path) <==> m == Post && |path| == 0
    ensures RouteMatches(TurnoRoutes[6], m, path) <==> m == Put && |path| == 1 && path[0] != ""
    ensures RouteMatches(TurnoRoutes[7], m, path) <==> m == Delete && |path| == 1 && path[0] != ""
  {
    MatchRoot(path);
    MatchParam("id", path);
    MatchLitParam("numero", "turno", path);
    MatchLit("pendientes", path);
    MatchLitParam("estado", "estado", path);
    if |path| > 0 {
      SameTextExcludes("numero", "estado", path[0], 0);
      if SameText("pendientes", path[0]) {
        SameTextNonEmpty("pendientes", path[0]);
      }
    }
  }

  /** The registration-order table behaves exactly as `TurnoRouting` says. */
  lemma TurnoRoutesBehave(m: Method, path: seq<string>)
    ensures Dispatch(TurnoRoutes, m, path) == TurnoRouting(m, path)
  {
    if m == Get {
      TurnoGetBehaves(path);
    } else {
      TurnoRouteConditions(m, path);
      if m == Post && |path| == 0 {
        MatchRoot(path);
        TurnoPick(m, path, 5);
      } else if m == Put && |path| == 1 && path[0] != "" {
        MatchParam("id", path);
        TurnoPick(m, path, 6);
      } else if m == Delete && |path| == 1 && path[0] != "" {
        MatchParam("id", path);
        TurnoPick(m, path, 7);
      } else {
        NoneMatch(TurnoRoutes, m, path);
      }
    }
  }

  lemma TurnoGetBehaves(path: seq<string>)
    ensures Dispatch(TurnoRoutes, Get, path) == TurnoRouting(Get, path)
  {
    if |path| == 0 {
      MatchRoot(path);
      TurnoRouteConditions(Get, path);
      TurnoPick(Get, path, 0);
    } else if |path| == 1 && path[0] != "" {
      TurnoGetOne(path);
    } else if |path| == 2 && SameText("numero", path[0]) && path[1] != "" {
      TurnoGetNumero(path);
    } else if |path| == 2 && SameText("estado", path[0]) && path[1] != "" {
      TurnoGetEstado(path);
    } else {
      TurnoGetNone(path);
    }
  }

  lemma TurnoGetOne(path: seq<string>)
    requires |path| == 1 && path[0] != ""
    ensures Dispatch(TurnoRoutes, Get, path) == TurnoRouting(Get, path)
  {
    TurnoRouteConditions(Get, path);
    MatchParam("id", path);
    TurnoPick(Get, path, 1);
  }

  lemma TurnoGetNumero(path: seq<string>)
    requires |path| == 2 && SameText("numero", path[0]) && path[1] != ""
    ensures Dispatch(TurnoRoutes, Get, path) == TurnoRouting(Get, path)
  {
    TurnoRouteConditions(Get, path);
    MatchLitParam("numero", "turno", path);
    TurnoPick(Get, path, 2);
  }

  lemma TurnoGetEstado(path: seq<string>)
    requires |path| == 2 && SameText("estado", path[0]) && path[1] != ""
    ensures Dispatch(TurnoRoutes, Get, path) == TurnoRouting(Get, path)
  {
    TurnoRouteConditions(Get, path);
    MatchLitParam("estado", "estado", path);
    TurnoPick(Get, path, 4);
  }

  lemma TurnoGetNone(path: seq<string>)
    requires |path| != 0 && !(|path| == 1 && path[0] != "")
    requires !(|path| == 2 && SameText("numero", path[0]) && path[1] != "")
    requires !(|path| == 2 && SameText("estado", path[0]) && path[1] != "")
    ensures Dispatch(TurnoRoutes, Get, path) == TurnoRouting(Get, path)
  {
    TurnoRouteConditions(Get, path);
    NoneMatch(TurnoRoutes, Get, path);
  }

  /** Route `i` of the /turno table is the first to match. */
  lemma TurnoPick(m: Method, path: seq<string>, i: nat)
    requires i < 8 && RouteMatches(TurnoRoutes[i], m, path)
    requires forall j :: 0 <= j < i ==> !RouteMatches(TurnoRoutes[j], m, path)
    ensures Dispatch(TurnoRoutes, m, path) == Some(Match(TurnoRoutes[i].handler, Bind(TurnoRoutes[i].pattern, path)))
  {
    DispatchPicksFirst(TurnoRoutes, m, path, i);
  }

  /** `GET /turno/pendientes` reaches getTurnoById with id "pendientes". */
  lemma PendientesTakenById()
    ensures Dispatch(TurnoRoutes, Get, ["pendientes"]) == Some(Match(GetTurnoById, map["id" := "pendientes"]))
  {
    TurnoRoutesBehave(Get, ["pendientes"]);
  }

  /** getTurnoByPendiente is reached by no request at all. */
  lemma GetTurnoByPendienteUnreachable(m: Method, path: seq<string>)
    ensures Dispatch(TurnoRoutes, m, path) != None ==> Dispatch(TurnoRoutes, m, path).value.handler != GetTurnoByPendiente
  {
    TurnoRoutesBehave(m, path);
  }

  /** The /turno table with the literal `/pendientes` registered before `/:id`. */
  const TurnoRoutesFixed: seq<Route<TurnoHandler>> := [
    Route(Get, [], GetAllTurnos),
    Route(Get, [Lit("pendientes")], GetTurnoByPendiente),
    Route(Get, [Param("id")], GetTurnoById),
    Route(Get, [Lit("numero"), Param("turno")], GetTurnoByTurno),
    Route(Get, [Lit("estado"), Param("estado")], GetTurnosByEstado),
    Route(Post, [], PostTurno),
    Route(Put, [Param("id")], PutTurno),
    Route(Delete, [Param("id")], DeleteTurno)
  ]

  /** When each route of the reordered /turno table matches, in terms of the request alone. */
  lemma TurnoFixedConditions(m: Method, path: seq<string>)
    ensures RouteMatches(TurnoRoutesFixed[0], m, path) <==> m == Get && |path| == 0
    ensures RouteMatches(TurnoRoutesFixed[1], m, path) <==> m == Get && |path| == 1 && SameText("pendientes", path[0])
    ensures RouteMatches(TurnoRoutesFixed[2], m, path) <==> m == Get && |path| == 1 && path[0] != ""
    ensures RouteMatches(TurnoRoutesFixed[3], m, path) <==> m == Get && |path| == 2 && SameText("numero", path[0]) && path[1] != ""
    ensures RouteMatches(TurnoRoutesFixed[4], m, path) <==> m == Get && |path| == 2 && SameText("estado", path[0]) && path[1] != ""
    ensures RouteMatches(TurnoRoutesFixed[4], m, path) ==> !RouteMatches(TurnoRoutesFixed[3], m, path)
    ensures RouteMatches(TurnoRoutesFixed[5], m, path) <==> m == Post && |path| == 0
    ensures RouteMatches(TurnoRoutesFixed[6], m, path) <==> m == Put && |path| == 1 && path[0] != ""
    ensures RouteMatches(TurnoRoutesFixed[7], m, path) <==> m == Delete && |path| == 1 && path[0] != ""
  {
    MatchRoot(path);
    MatchParam("id", path);
    MatchLitParam("numero", "turno", path);
    MatchLit("pendientes", path);
    MatchLitParam("estado", "estado", path);
    if |path| > 0 {
      SameTextExcludes("numero", "estado", path[0], 0);
    }
  }

  /** In the reordered table `GET /pendientes` reaches getTurnoByPendiente. */
  lemma TurnoRoutesFixedReachPendientes()
    ensures Dispatch(TurnoRoutesFixed, Get, ["pendientes"]) == Some(Match(GetTurnoByPendiente, map[]))
  {
    TurnoFixedConditions(Get, ["pendientes"]);
    MatchLit("pendientes", ["pendientes"]);
    DispatchPicksFirst(TurnoRoutesFixed, Get, ["pendientes"], 1);
  }

  /** In the reordered table every other one-segment GET still reaches getTurnoById. */
  lemma TurnoRoutesFixedKeepById(x: string)
    requires x != "" && !SameText("pendientes", x)
    ensures Dispatch(TurnoRoutesFixed, Get, [x]) == Some(Match(GetTurnoById, map["id" := x]))
  {
    TurnoFixedConditions(Get, [x]);
    MatchParam("id", [x]);
    DispatchPicksFirst(TurnoRoutesFixed, Get, [x], 2);
  }

  // ---------------------------------------------------------------------
  // /pago
  // ---------------------------------------------------------------------

  datatype PagoHandler = GetAllPagos | GetPagoById | GetPagoByTurno | GetPagosByMetodo

  const PagoRoutes: seq<Route<PagoHandler>> := [
    Route(Get, [], GetAllPagos),
    Route(Get, [Param("id")], GetPagoById),
    Route(Get, [Lit("pagoByTurno")], GetPagoByTurno),
    Route(Get, [Lit("pagosByMetodo"), Param("metodo")], GetPagosByMetodo)
  ]

  /** What the /pago router does with each request: only GETs are routed, `/pagoByTurno` by `/:id`. */
  function PagoRouting(m: Method, path: seq<string>): Option<Match<PagoHandler>> {
    if m == Get && |path| == 0 then Some(Match(GetAllPagos, map[]))
    else if m == Get && |path| == 1 && path[0] != "" then Some(Match(GetPagoById, map["id" := path[0]]))
    else if m == Get && |path| == 2 && SameText("pagosByMetodo", path[0]) && path[1] != "" then
      Some(Match(GetPagosByMetodo, map["metodo" := path[1]]))
    else None
  }

  /** The registration-order table behaves exactly as `PagoRouting` says. */
  lemma PagoRoutesBehave(m: Method, path: seq<string>)
    ensures Dispatch(PagoRoutes, m, path) == PagoRouting(m, path)
  {
    var rs := PagoRoutes;
    MatchRoot(path);
    MatchParam("id", path);
    MatchLit("pagoByTurno", path);
    MatchLitParam("pagosByMetodo", "metodo", path);
    if |path| > 0 && SameText("pagoByTurno", path[0]) {
      SameTextNonEmpty("pagoByTurno", path[0]);
    }
    if m == Get && |path| == 0 {
      DispatchPicksFirst(rs, m, path, 0);
    } else if m == Get && |path| == 1 && path[0] != "" {
      DispatchPicksFirst(rs, m, path, 1);
    } else if m == Get && |path| == 2 && SameText("pagosByMetodo", path[0]) && path[1] != "" {
      DispatchPicksFirst(rs, m, path, 3);
    } else {
      assert forall j :: 0 <= j < |rs| ==> !RouteMatches(rs[j], m, path);
    }
  }

  /** No POST, PUT, DELETE or PATCH request matches a /pago route. */
  lemma PagoRoutesOnlyGet(m: Method, path: seq<string>)
    requires m != Get
    ensures Dispatch(PagoRoutes, m, path) == None
  {
    PagoRoutesBehave(m, path);
  }

  /** getPagoByTurno is reached by no request; `GET /pagoByTurno` goes to getPagoById. */
  lemma GetPagoByTurnoUnreachable(m: Method, path: seq<string>)
    ensures Dispatch(PagoRoutes, Get, ["pagoByTurno"]) == Some(Match(GetPagoById, map["id" := "pagoByTurno"]))
    ensures Dispatch(PagoRoutes, m, path) != None ==> Dispatch(PagoRoutes, m, path).value.handler != GetPagoByTurno
  {
    PagoRoutesBehave(m, path);
    PagoRoutesBehave(Get, ["pagoByTurno"]);
  }

  /** The pagoByTurno route declares no parameter, so a request matching it carries no `id`. */
  lemma PagoByTurnoRouteBindsNoId(path: seq<string>)
    requires RouteMatches(PagoRoutes[2], Get, path)
    ensures "id" !in Bind(PagoRoutes[2].pattern, path)
  {
    MatchLit("pagoByTurno", path);
  }

  /** The /pago table with the turno id declared on the pagoByTurno route. */
  const PagoRoutesFixed: seq<Route<PagoHandler>> := [
    Route(Get, [], GetAllPagos),
    Route(Get, [Param("id")], GetPagoById),
    Route(Get, [Lit("pagoByTurno"), Param("id")], GetPagoByTurno),
    Route(Get, [Lit("pagosByMetodo"), Param("metodo")], GetPagosByMetodo)
  ]

  /** With `/pagoByTurno/:id`, getPagoByTurno is reached and receives the turno id. */
  lemma PagoRoutesFixedReachPagoByTurno(turnoId: string)
    requires turnoId != ""
    ensures Dispatch(PagoRoutesFixed, Get, ["pagoByTurno", turnoId]) == Some(Match(GetPagoByTurno, map["id" := turnoId]))
  {
    var path := ["pagoByTurno", turnoId];
    MatchRoot(path);
    MatchParam("id", path);
    MatchLitParam("pagoByTurno", "id", path);
    DispatchPicksFirst(PagoRoutesFixed, Get, path, 2);
  }

  // ---------------------------------------------------------------------
  // /usuario
  // ---------------------------------------------------------------------

  datatype UsuarioHandler = GetUsuarios | FindUserById | UpdateUser | DeleteUser | RegisterUser | LoginUser

  const UsuarioRoutes: seq<Route<UsuarioHandler>> := [
    Route(Get, [], GetUsuarios),
    Route(Get, [Param("id")], FindUserById),
    Route(Put, [Param("id")], UpdateUser),
    Route(Delete, [Param("id")], DeleteUser),
    Route(Post, [Lit("register")], RegisterUser),
    Route(Post, [Lit("login")], LoginUser)
  ]

  /** What the /usuario router does with each request; no route shadows another. */
  function UsuarioRouting(m: Method, path: seq<string>): Option<Match<UsuarioHandler>> {
    if m == Get && |path| == 0 then Some(Match(GetUsuarios, map[]))
    else if |path| == 1 && path[0] != "" && m in {Get, Put, Delete} then
      Some(Match(if m == Get then FindUserById else if m == Put then UpdateUser else DeleteUser, map["id" := path[0]]))
    else if m == Post && |path| == 1 && SameText("register", path[0]) then Some(Match(RegisterUser, map[]))
    else if m == Post && |path| == 1 && SameText("login", path[0]) then Some(Match(LoginUser, map[]))
    else None
  }

  /** The registration-order table behaves exactly as `UsuarioRouting` says. */
  lemma UsuarioRoutesBehave(m: Method, path: seq<string>)
    ensures Dispatch(UsuarioRoutes, m, path) == UsuarioRouting(m, path)
  {
    var rs := UsuarioRoutes;
    MatchRoot(path);
    MatchParam("id", path);
    MatchLit("register", path);
    MatchLit("login", path);
    if |path| > 0 {
      SameTextExcludes("register", "login", path[0], 0);
    }
    if m == Get && |path| == 0 {
      DispatchPicksFirst(rs, m, path, 0);
    } else if |path| == 1 && path[0] != "" && m == Get {
      DispatchPicksFirst(rs, m, path, 1);
    } else if |path| == 1 && path[0] != "" && m == Put {
      DispatchPicksFirst(rs, m, path, 2);
    } else if |path| == 1 && path[0] != "" && m == Delete {
      DispatchPicksFirst(rs, m, path, 3);
    } else if m == Post && |path| == 1 && SameText("register", path[0]) {
      DispatchPicksFirst(rs, m, path, 4);
    } else if m == Post && |path| == 1 && SameText("login", path[0]) {
      DispatchPicksFirst(rs, m, path, 5);
    } else {
      assert forall j :: 0 <= j < |rs| ==> !RouteMatches(rs[j], m, path);
    }
  }

  /**
   The /usuario table in the routes directory next to the entry point that
   mounts the routers: only the two reads are registered.
   */
  const SrcUsuarioRoutes: seq<Route<UsuarioHandler>> := [
    Route(Get, [], GetUsuarios),
    Route(Get, [Param("id")], FindUserById)
  ]

  /**
   That table answers only GET / and one-segment GETs: registration, login,
   update and deletion are reached by no request, and GET /register is
   taken as a user id.
   */
  lemma SrcUsuarioRoutesOnlyRead(m: Method, path: seq<string>)
    ensures Dispatch(SrcUsuarioRoutes, m, path) ==
      if m == Get && |path| == 0 then Some(Match(GetUsuarios, map[]))
      else if m == Get && |path| == 1 && path[0] != "" then Some(Match(FindUserById, map["id" := path[0]]))
      else None
  {
    var rs := SrcUsuarioRoutes;
    MatchRoot(path);
    MatchParam("id", path);
    if m == Get && |path| == 0 {
      DispatchPicksFirst(rs, m, path, 0);
    } else if m == Get && |path| == 1 && path[0] != "" {
      DispatchPicksFirst(rs, m, path, 1);
    } else {
      assert forall j :: 0 <= j < |rs| ==> !RouteMatches(rs[j], m, path);
    }
  }
}
