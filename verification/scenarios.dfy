/**
 Requests in sequence: what a read handler answers after a write handler's
 store. Each lemma ties two handlers of different routes together through
 the store they share.
 */
module Scenarios {
  import opened Wrappers
  import opened Models
  import opened Envelope
  import opened TurnoController
  import opened UsuarioController
  import opened PagoController

  /**
   After a 201 from `POST /turno`, `GET /pago/pagoByTurno` for the new turno
   finds exactly the pago created with it, provided no earlier pago named
   that turno.
   */
  lemma PostTurnoThenPagoByTurno(foreign: Foreign, st: Store, b: TurnoBody, now: Timestamp, turnoId: Id, pagoId: Id)
    requires turnoId !in st.turnos && pagoId !in st.pagos
    requires foreign.isValidId(turnoId)
    requires forall p :: p in st.pagos ==> st.pagos[p].turno != turnoId
    requires PostTurno(st, b, now, turnoId, pagoId).reply.status == 201
    ensures var s := PostTurno(st, b, now, turnoId, pagoId).store;
      && pagoId in s.pagos
      && GetPagoByTurno(foreign, s, Some(turnoId)) ==
           Envelope(200, true, PagoDoc(pagoId, s.pagos[pagoId]), "Pago asociado al turno " + turnoId)
  {
    var s := PostTurno(st, b, now, turnoId, pagoId).store;
    assert forall p :: p in s.pagos && s.pagos[p].turno == turnoId ==> p == pagoId;
  }

  /** After a 201 from `POST /turno`, `GET /turno/pendientes` answers 200 and lists the new turno. */
  lemma PostTurnoThenPendientes(st: Store, b: TurnoBody, now: Timestamp, turnoId: Id, pagoId: Id)
    requires turnoId !in st.turnos && pagoId !in st.pagos
    requires PostTurno(st, b, now, turnoId, pagoId).reply.status == 201
    ensures var s := PostTurno(st, b, now, turnoId, pagoId).store;
      var r := GetTurnoByPendiente(s);
      && r.status == 200
      && turnoId in r.data.turnos
      && r.data.turnos[turnoId] == s.turnos[turnoId]
  {
    var s := PostTurno(st, b, now, turnoId, pagoId).store;
    assert turnoId in s.turnos && s.turnos[turnoId].estado == EstadoPendiente;
  }

  /** After a 201 from `POST /usuario/register`, `GET /usuario` answers 200 and holds the new account. */
  lemma RegisterThenGetUsuarios(foreign: Foreign, st: Store, b: UsuarioBody, newId: Id)
    requires newId !in st.usuarios
    requires RegisterUser(foreign, st, b, newId).reply.status == 201
    ensures var s := RegisterUser(foreign, st, b, newId).store;
      var r := GetUsuarios(s);
      && r.status == 200
      && newId in r.data.usuarios
      && r.data.usuarios[newId].email == b.email.value
  {
  }

  /** Deleting the only turno leaves `GET /turno` with nothing to list: a 404. */
  lemma DeleteLastTurnoThenGetAll(foreign: Foreign, st: Store, id: Id)
    requires foreign.isValidId(id) && st.turnos.Keys == {id}
    ensures GetAllTurnos(DeleteTurno(foreign, st, id).store).status == 404
  {
    var s := DeleteTurno(foreign, st, id).store;
    assert s.turnos.Keys == {};
  }

  /** After a 200 from the corrected `PUT /turno/:id`, `GET /turno/:id` shows the body's tipo and customer. */
  lemma PutTurnoFixedThenGetById(foreign: Foreign, st: Store, id: Id, u: TurnoUpdate)
    requires PutTurnoFixed(foreign, st, id, u).reply.status == 200
    ensures var r := GetTurnoById(foreign, PutTurnoFixed(foreign, st, id, u).store, id);
      && r.status == 200
      && r.data.turno.tipo == u.tipo.value
      && r.data.turno.usuario == ClienteOf(u.usuario.value)
      && r.data.turno.numeroTurno == st.turnos[id].numeroTurno
  {
  }
}
