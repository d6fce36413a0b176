/**
 The usuario handlers: listing, lookup, update, soft delete, registration
 and login. Password hashing, hash comparison, token signing and the
 `password < 6` test are the `Foreign` helpers.
 */
module UsuarioController {
  import opened Wrappers
  import opened Models
  import opened Envelope

  /** The fields of a register, login or update body that the handlers read. */
  datatype UsuarioBody = UsuarioBody(email: Option<string>, password: Option<string>, rol: Option<string>)

  const MsgCampos := "Los campos son requeridos"
  const MsgRol := "Si desea registrar un rol diferenete comuniquese con un TI"
  const MsgPasswordCorto := "El password no puede ser menor a 6 caracteres"
  const NotFoundUsuario := "No se encontro al usuario con el id "

  function MsgEmailRegistrado(email: string): string {
    "El email " + email + " ya se encuentra registrado"
  }

  predicate AllGiven(b: UsuarioBody) {
    Given(b.email) && Given(b.password) && Given(b.rol)
  }

  /** `findOne({email})` finds something. */
  predicate EmailTaken(usuarios: map<Id, Usuario>, email: string) {
    exists id :: id in usuarios && usuarios[id].email == email
  }

  // ---------------------------------------------------------------------
  // reads
  // ---------------------------------------------------------------------

  /** `GET /usuario`: an empty collection is a 404, otherwise every user, active or not. */
  function GetUsuarios(st: Store): (r: Envelope)
    ensures Coherent(r)
    ensures r.status == 404 <==> st.usuarios == map[]
    ensures r.status != 404 ==> r.status == 200 && r.data == UsuarioList(st.usuarios)
  {
    if |st.usuarios| == 0 then Fail(404, "No se encontraron usuarios")
    else Envelope(200, true, UsuarioList(st.usuarios), "Lista de usuarios")
  }

  /** `GET /usuario/:id`. */
  function FindUserById(foreign: Foreign, st: Store, id: string): (r: Envelope)
    ensures Coherent(r)
    ensures !foreign.isValidId(id) ==> r.status == 400
    ensures foreign.isValidId(id) && id !in st.usuarios ==> r.status == 404
    ensures r.status == 200 <==> foreign.isValidId(id) && id in st.usuarios
    ensures r.status == 200 ==> r.data == UsuarioDoc(id, st.usuarios[id])
  {
    match CheckId(foreign, st.usuarios, id, NotFoundUsuario)
    case Some(e) => e
    case None => Envelope(200, true, UsuarioDoc(id, st.usuarios[id]), "Usuario encontrado")
  }

  // ---------------------------------------------------------------------
  // update
  // ---------------------------------------------------------------------

  /** Every check of `PUT /usuario/:id` on the body passes against user `id`. */
  predicate UpdateAcceptable(usuarios: map<Id, Usuario>, id: Id, b: UsuarioBody)
    requires id in usuarios
  {
    && AllGiven(b)
    && (usuarios[id].email != b.email.value ==> !EmailTaken(usuarios, b.email.value))
    && b.rol.value == RolAdministrador
  }

  /**
   The shared steps of `PUT /usuario/:id`: the id checks, the required fields,
   email uniqueness (only when the email changes), the role, then `updateOne`
   with the body. `stored` is the password text that is written.
   */
  function UpdateUserStoring(foreign: Foreign, st: Store, id: string, b: UsuarioBody, hashIt: bool): (r: Outcome)
    ensures Coherent(r.reply) && r.reply.status in {200, 400, 404}
    ensures !foreign.isValidId(id) ==> r.reply.status == 400
    ensures foreign.isValidId(id) && id !in st.usuarios ==> r.reply.status == 404
    ensures foreign.isValidId(id) && id in st.usuarios && !AllGiven(b) ==> r.reply == Fail(400, MsgCampos)
    ensures foreign.isValidId(id) && id in st.usuarios && AllGiven(b)
            && st.usuarios[id].email != b.email.value && EmailTaken(st.usuarios, b.email.value) ==>
      r.reply == Fail(400, MsgEmailRegistrado(b.email.value))
    ensures foreign.isValidId(id) && id in st.usuarios && AllGiven(b)
            && !(st.usuarios[id].email != b.email.value && EmailTaken(st.usuarios, b.email.value))
            && b.rol.value != RolAdministrador ==>
      r.reply == Fail(400, MsgRol)
    ensures r.reply.status == 200 <==> foreign.isValidId(id) && id in st.usuarios && UpdateAcceptable(st.usuarios, id, b)
    ensures r.reply.status != 200 ==> r.store == st
    ensures r.reply.status == 200 ==>
      && r.store.turnos == st.turnos && r.store.pagos == st.pagos && r.store.configs == st.configs
      && r.store.usuarios.Keys == st.usuarios.Keys
      && (forall other :: other in st.usuarios && other != id ==> r.store.usuarios[other] == st.usuarios[other])
      && r.store.usuarios[id].email == b.email.value
      && r.store.usuarios[id].rol == b.rol.value
      && r.store.usuarios[id].password == (if hashIt then foreign.hash(b.password.value) else b.password.value)
      && r.store.usuarios[id].activo == st.usuarios[id].activo
      && r.store.usuarios[id].token == st.usuarios[id].token
  {
    match CheckId(foreign, st.usuarios, id, NotFoundUsuario)
    case Some(e) => Outcome(st, e)
    case None =>
      if !AllGiven(b) then Outcome(st, Fail(400, MsgCampos))
      else if st.usuarios[id].email != b.email.value && EmailTaken(st.usuarios, b.email.value) then
        Outcome(st, Fail(400, MsgEmailRegistrado(b.email.value)))
      else if b.rol.value != RolAdministrador then Outcome(st, Fail(400, MsgRol))
      else
        var password := if hashIt then foreign.hash(b.password.value) else b.password.value;
        var u := st.usuarios[id].(email := b.email.value, password := password, rol := b.rol.value);
        Outcome(st.(usuarios := st.usuarios[id := u]), Envelope(200, true, Nothing, "Usuario actualizado con el id " + id))
  }

  /** `PUT /usuario/:id` as written: the body's password is written as it came. */
  function UpdateUserAsWritten(foreign: Foreign, st: Store, id: string, b: UsuarioBody): (r: Outcome)
    ensures r.reply.status == 200 ==>
      id in r.store.usuarios && Given(b.password) && r.store.usuarios[id].password == b.password.value
  {
    UpdateUserStoring(foreign, st, id, b, false)
  }

  /** Every successful update as written leaves the new password in the store in plain text. */
  lemma UpdateUserAsWrittenStoresPlaintext(foreign: Foreign, st: Store, id: string, b: UsuarioBody)
    requires foreign.isValidId(id) && id in st.usuarios && UpdateAcceptable(st.usuarios, id, b)
    ensures UpdateUserAsWritten(foreign, st, id, b).reply.status == 200
    ensures UpdateUserAsWritten(foreign, st, id, b).store.usuarios[id].password == b.password.value
  {
  }

  /** `PUT /usuario/:id` storing the hash of the new password, as registration does. */
  function UpdateUser(foreign: Foreign, st: Store, id: string, b: UsuarioBody): (r: Outcome)
    ensures Coherent(r.reply) && r.reply.status in {200, 400, 404}
    ensures !foreign.isValidId(id) ==> r.reply.status == 400
    ensures foreign.isValidId(id) && id !in st.usuarios ==> r.reply.status == 404
    ensures foreign.isValidId(id) && id in st.usuarios && !AllGiven(b) ==> r.reply == Fail(400, MsgCampos)
    ensures foreign.isValidId(id) && id in st.usuarios && AllGiven(b)
            && st.usuarios[id].email != b.email.value && EmailTaken(st.usuarios, b.email.value) ==>
      r.reply == Fail(400, MsgEmailRegistrado(b.email.value))
    ensures foreign.isValidId(id) && id in st.usuarios && AllGiven(b)
            && !(st.usuarios[id].email != b.email.value && EmailTaken(st.usuarios, b.email.value))
            && b.rol.value != RolAdministrador ==>
      r.reply == Fail(400, MsgRol)
    ensures r.reply.status == 200 <==> foreign.isValidId(id) && id in st.usuarios && UpdateAcceptable(st.usuarios, id, b)
    ensures r.reply.status != 200 ==> r.store == st
    ensures r.reply.status == 200 ==>
      id in r.store.usuarios && Given(b.password) && r.store.usuarios[id].password == foreign.hash(b.password.value)
  {
    UpdateUserStoring(foreign, st, id, b, true)
  }

  /** An update never gives two users the same email. */
  lemma UpdateUserKeepsEmailsUnique(foreign: Foreign, st: Store, id: string, b: UsuarioBody)
    requires UniqueEmails(st.usuarios)
    ensures UniqueEmails(UpdateUser(foreign, st, id, b).store.usuarios)
  {
  }

  /** An update keeps every user schema-valid, given that a hash is never empty. */
  lemma UpdateUserPreservesValidity(foreign: Foreign, st: Store, id: string, b: UsuarioBody)
    requires ValidStore(st)
    requires forall p :: foreign.hash(p) != ""
    ensures ValidStore(UpdateUser(foreign, st, id, b).store)
  {
  }

  // ---------------------------------------------------------------------
  // soft delete
  // ---------------------------------------------------------------------

  /** `DELETE /usuario/:id`: the user stays, with `activo` false and every other field as it was. */
  function DeleteUser(foreign: Foreign, st: Store, id: string): (r: Outcome)
    ensures Coherent(r.reply) && r.reply.status in {200, 400, 404}
    ensures !foreign.isValidId(id) ==> r.reply.status == 400
    ensures foreign.isValidId(id) && id !in st.usuarios ==> r.reply.status == 404
    ensures r.reply.status == 200 <==> foreign.isValidId(id) && id in st.usuarios
    ensures r.reply.status != 200 ==> r.store == st
    ensures r.reply.status == 200 ==>
      && r.store.turnos == st.turnos && r.store.pagos == st.pagos && r.store.configs == st.configs
      && r.store.usuarios.Keys == st.usuarios.Keys
      && (forall other :: other in st.usuarios && other != id ==> r.store.usuarios[other] == st.usuarios[other])
      && !r.store.usuarios[id].activo
      && r.store.usuarios[id].email == st.usuarios[id].email
      && r.store.usuarios[id].password == st.usuarios[id].password
      && r.store.usuarios[id].rol == st.usuarios[id].rol
      && r.store.usuarios[id].token == st.usuarios[id].token
  {
    match CheckId(foreign, st.usuarios, id, NotFoundUsuario)
    case Some(e) => Outcome(st, e)
    case None =>
      var u := st.usuarios[id].(activo := false);
      Outcome(st.(usuarios := st.usuarios[id := u]), Envelope(200, true, Nothing, "Usuario desactivado con el id " + id))
  }

  /** A deactivated user is still found by id. */
  lemma DeletedUserStillFound(foreign: Foreign, st: Store, id: string)
    requires foreign.isValidId(id) && id in st.usuarios
    ensures var s := DeleteUser(foreign, st, id).store;
      FindUserById(foreign, s, id) == Envelope(200, true, UsuarioDoc(id, st.usuarios[id].(activo := false)), "Usuario encontrado")
  {
  }

  /** A soft delete keeps every user schema-valid. */
  lemma DeleteUserPreservesValidity(foreign: Foreign, st: Store, id: string)
    requires ValidStore(st)
    ensures ValidStore(DeleteUser(foreign, st, id).store)
  {
  }

  /** A soft delete keeps emails unique. */
  lemma DeleteUserPreservesEmails(foreign: Foreign, st: Store, id: string)
    requires UniqueEmails(st.usuarios)
    ensures UniqueEmails(DeleteUser(foreign, st, id).store.usuarios)
  {
    var r := DeleteUser(foreign, st, id);
    if r.reply.status == 200 {
      assert forall x :: x in r.store.usuarios ==> r.store.usuarios[x].email == st.usuarios[x].email;
    }
  }

  // ---------------------------------------------------------------------
  // registration
  // ---------------------------------------------------------------------

  /** Every check of `POST /usuario/register` passes. */
  predicate RegisterAcceptable(foreign: Foreign, usuarios: map<Id, Usuario>, b: UsuarioBody) {
    && AllGiven(b)
    && !EmailTaken(usuarios, b.email.value)
    && !foreign.belowSix(b.password.value)
    && b.rol.value == RolAdministrador
  }

  /**
   `POST /usuario/register`: the required fields, email uniqueness, the
   password test and the role, in that order; then `create` with the hashed
   password, which the schema validators may still reject. `newId` is the
   fresh ObjectId the store generates.
   */
  function RegisterUser(foreign: Foreign, st: Store, b: UsuarioBody, newId: Id): (r: Outcome)
    requires newId !in st.usuarios
    ensures Coherent(r.reply) && r.reply.status in {201, 400, 500}
    ensures r.reply.status != 201 ==> r.store == st
    ensures !AllGiven(b) ==> r.reply == Fail(400, MsgCampos)
    ensures AllGiven(b) && EmailTaken(st.usuarios, b.email.value) ==> r.reply == Fail(400, MsgEmailRegistrado(b.email.value))
    ensures AllGiven(b) && b.rol.value != RolAdministrador ==> r.reply.status == 400
    ensures AllGiven(b) && !EmailTaken(st.usuarios, b.email.value) && foreign.belowSix(b.password.value) ==>
      r.reply == Fail(400, MsgPasswordCorto)
    ensures AllGiven(b) && !EmailTaken(st.usuarios, b.email.value) && !foreign.belowSix(b.password.value)
            && b.rol.value != RolAdministrador ==>
      r.reply == Fail(400, MsgRol)
    ensures r.reply.status == 201 <==> RegisterAcceptable(foreign, st.usuarios, b) && foreign.hash(b.password.value) != ""
    ensures r.reply.status == 201 ==>
      && newId in r.store.usuarios
      && r.store == st.(usuarios := st.usuarios[newId := r.store.usuarios[newId]])
      && r.store.usuarios[newId].email == b.email.value
      && r.store.usuarios[newId].password == foreign.hash(b.password.value)
      && r.store.usuarios[newId].rol == b.rol.value
      && r.store.usuarios[newId].activo
      && r.reply.data == Registered(newId, r.store.usuarios[newId], foreign.sign(newId))
  {
    if !AllGiven(b) then Outcome(st, Fail(400, MsgCampos))
    else if EmailTaken(st.usuarios, b.email.value) then Outcome(st, Fail(400, MsgEmailRegistrado(b.email.value)))
    else if foreign.belowSix(b.password.value) then Outcome(st, Fail(400, MsgPasswordCorto))
    else if b.rol.value != RolAdministrador then Outcome(st, Fail(400, MsgRol))
    else
      var u := NewUsuario(b.email.value, foreign.hash(b.password.value), b.rol.value);
      if !ValidUsuario(u) then Outcome(st, ServerError)
      else Outcome(st.(usuarios := st.usuarios[newId := u]), Envelope(201, true, Registered(newId, u, foreign.sign(newId)), ""))
  }

  /** Registration never creates a second user with an email already in use. */
  lemma RegisterUserKeepsEmailsUnique(foreign: Foreign, st: Store, b: UsuarioBody, newId: Id)
    requires newId !in st.usuarios
    requires UniqueEmails(st.usuarios)
    ensures UniqueEmails(RegisterUser(foreign, st, b, newId).store.usuarios)
  {
    var r := RegisterUser(foreign, st, b, newId);
    if r.reply.status == 201 {
      assert forall other :: other in st.usuarios ==> st.usuarios[other].email != b.email.value;
    }
  }

  /** Registration keeps every user schema-valid. */
  lemma RegisterUserPreservesValidity(foreign: Foreign, st: Store, b: UsuarioBody, newId: Id)
    requires newId !in st.usuarios
    requires ValidStore(st)
    ensures ValidStore(RegisterUser(foreign, st, b, newId).store)
  {
  }

  /** Registering the same email twice: the second call is a 400 and exactly one user holds the email. */
  lemma RegisterTwice(foreign: Foreign, st: Store, b: UsuarioBody, b2: UsuarioBody, id1: Id, id2: Id)
    requires id1 !in st.usuarios && id2 !in st.usuarios && id1 != id2
    requires UniqueEmails(st.usuarios)
    requires RegisterUser(foreign, st, b, id1).reply.status == 201
    requires AllGiven(b2) && b2.email == b.email
    ensures var s1 := RegisterUser(foreign, st, b, id1).store;
      var r2 := RegisterUser(foreign, s1, b2, id2);
      && r2.reply.status == 400
      && r2.store == s1
      && (forall id :: id in r2.store.usuarios && r2.store.usuarios[id].email == b.email.value ==> id == id1)
  {
    var s1 := RegisterUser(foreign, st, b, id1).store;
    assert s1.usuarios[id1].email == b.email.value;
    assert EmailTaken(s1.usuarios, b.email.value);
    RegisterUserKeepsEmailsUnique(foreign, st, b, id1);
  }

  // ---------------------------------------------------------------------
  // login
  // ---------------------------------------------------------------------

  /**
   `POST /usuario/login`: both fields, a user with that email, a password
   the stored hash accepts; then a token for that user's id and a view of the
   user without its password. The user's `activo` flag is not consulted.
   */
  ghost function LoginUser(foreign: Foreign, st: Store, b: UsuarioBody): (r: Envelope)
    ensures Coherent(r) && r.status in {200, 400, 404}
    ensures r.status == 400 <==> !Given(b.password) || !Given(b.email)
    ensures Given(b.password) && Given(b.email) && !EmailTaken(st.usuarios, b.email.value) ==>
      r == Fail(404, "Email no encontrado")
    ensures r.status != 200 ==> !r.data.Session?
    ensures r.status == 200 ==>
      && r.data.Session?
      && var uid := r.data.user.id;
      && uid in st.usuarios
      && st.usuarios[uid].email == b.email.value
      && foreign.compare(b.password.value, st.usuarios[uid].password)
      && r.data.token == foreign.sign(uid)
      && r.data.user == UserView(uid, st.usuarios[uid].email, st.usuarios[uid].rol)
  {
    if !Given(b.password) || !Given(b.email) then Fail(400, "El password y el email son requeridos")
    else
      match FindOne(st.usuarios, (u: Usuario) => u.email == b.email.value)
      case None => Fail(404, "Email no encontrado")
      case Some(uid) =>
        var user := st.usuarios[uid];
        if !foreign.compare(b.password.value, user.password) then Fail(404, "Password incorrecto")
        else Envelope(200, true, Session(foreign.sign(uid), UserView(uid, user.email, user.rol)), "Login exitoso")
  }

  /**
   With unique emails, login decides on the one user holding the email: a
   password its hash accepts gives that user's token, any other gives 404.
   */
  lemma LoginUserDecides(foreign: Foreign, st: Store, b: UsuarioBody, uid: Id)
    requires UniqueEmails(st.usuarios)
    requires Given(b.password) && Given(b.email)
    requires uid in st.usuarios && st.usuarios[uid].email == b.email.value
    ensures foreign.compare(b.password.value, st.usuarios[uid].password) ==>
      LoginUser(foreign, st, b) ==
        Envelope(200, true, Session(foreign.sign(uid), UserView(uid, b.email.value, st.usuarios[uid].rol)), "Login exitoso")
    ensures !foreign.compare(b.password.value, st.usuarios[uid].password) ==>
      LoginUser(foreign, st, b) == Fail(404, "Password incorrecto")
  {
    assert EmailTaken(st.usuarios, b.email.value);
    var r := LoginUser(foreign, st, b);
    if r.status == 200 {
      assert r.data.user.id == uid;
    } else {
      var found := FindOne(st.usuarios, (u: Usuario) => u.email == b.email.value);
      assert found.Some?;
      assert found.value == uid;
    }
  }

  /** A soft-deleted user can still log in: deactivation does not revoke access. */
  lemma DeactivatedUserCanLogIn(foreign: Foreign, st: Store, id: string, b: UsuarioBody)
    requires UniqueEmails(st.usuarios)
    requires foreign.isValidId(id) && id in st.usuarios
    requires Given(b.password) && b.email == Some(st.usuarios[id].email) && st.usuarios[id].email != ""
    requires foreign.compare(b.password.value, st.usuarios[id].password)
    ensures var s := DeleteUser(foreign, st, id).store;
      && !s.usuarios[id].activo
      && LoginUser(foreign, s, b).status == 200
  {
    var s := DeleteUser(foreign, st, id).store;
    DeleteUserPreservesEmails(foreign, st, id);
    LoginUserDecides(foreign, s, b, id);
  }
}
