/**
 The `authClient(roles)` middleware: read the bearer header, verify the
 token, look up the user it names, check the role, then either answer on
 its own or hand the request on (call `next`) with the user's id. Token
 verification is a parameter; the user lookup is the usuario collection.
 */
module AuthMiddleware {
  import opened Wrappers
  import opened Models
  import opened Envelope

  /** The value handed to the verifier: a token string, or an array of strings. */
  datatype Credential = Token(raw: string) | Pieces(parts: seq<string>)

  /** `jwt.verify` followed by reading `payload.user`; None when it throws. */
  type Verifier = Credential -> Option<Id>

  /** The gate either answers itself or calls `next` once, having set `req.userId`. */
  datatype Gate = Deny(reply: Envelope) | Next(userId: Id)

  /** The header key the gate reads, one letter short of "authorization". */
  const HeaderAsWritten := "authorizatio"
  const HeaderKey := "authorization"
  const Bearer := "Bearer "

  /** `response(res, 401, false, "No esata autorizado")`: the text lands in `data`. */
  const NoAuth := Envelope(401, false, Text("No esata autorizado"), "")

  /** `${roles.join}` interpolates the function itself, not the joined roles. */
  const Forbidden := Envelope(403, false, Nothing, "Acceso denegado, se requiere ser: [function join() { [native code] }]")

  predicate StartsWith(s: string, prefix: string) {
    |prefix| <= |s| && s[..|prefix|] == prefix
  }

  /**
   The gate as written. `token.split(" "[1])` splits on undefined, which
   yields the whole header in a one-element array; a missing user makes
   `user.rol` throw, which the catch turns into 401; and the role test
   denies a user whose role IS among `roles`.
   */
  function AuthClient(roles: seq<string>, headers: map<string, string>, verify: Verifier,
                      usuarios: map<Id, Usuario>): (r: Gate)
    ensures r.Deny? ==> !r.reply.ok && r.reply.status in {401, 403}
    ensures HeaderAsWritten !in headers ==> r == Deny(NoAuth)
    ensures HeaderAsWritten in headers && !StartsWith(headers[HeaderAsWritten], Bearer) ==> r == Deny(NoAuth)
    ensures HeaderAsWritten in headers ==>
      var v := verify(Pieces([headers[HeaderAsWritten]]));
      StartsWith(headers[HeaderAsWritten], Bearer) && (v.None? || v.value !in usuarios) ==> r == Deny(NoAuth)
    ensures HeaderAsWritten in headers ==>
      var v := verify(Pieces([headers[HeaderAsWritten]]));
      && StartsWith(headers[HeaderAsWritten], Bearer) && v.Some? && v.value in usuarios
      && (usuarios[v.value].rol == "" || usuarios[v.value].rol in roles)
      ==> r == Deny(Forbidden)
    ensures r.Next? <==>
      && HeaderAsWritten in headers
      && StartsWith(headers[HeaderAsWritten], Bearer)
      && verify(Pieces([headers[HeaderAsWritten]])).Some?
      && verify(Pieces([headers[HeaderAsWritten]])).value in usuarios
      && usuarios[verify(Pieces([headers[HeaderAsWritten]])).value].rol != ""
      && usuarios[verify(Pieces([headers[HeaderAsWritten]])).value].rol !in roles
    ensures r.Next? ==> r.userId == verify(Pieces([headers[HeaderAsWritten]])).value
  {
    if HeaderAsWritten !in headers then Deny(NoAuth)
    else
      var token := headers[HeaderAsWritten];
      if token == "" || !StartsWith(token, Bearer) then Deny(NoAuth)
      else
        match verify(Pieces([token]))
        case None => Deny(NoAuth)
        case Some(uid) =>
          if uid !in usuarios then Deny(NoAuth)
          else if usuarios[uid].rol == "" || usuarios[uid].rol in roles then Deny(Forbidden)
          else Next(uid)
  }

  /**
   Express stores the request header `Authorization` under the lower-case
   key "authorization", which the gate does not read: a well-formed bearer
   request is turned away with 401 whatever its token.
   */
  lemma AuthClientIgnoresAuthorizationHeader(roles: seq<string>, token: string, verify: Verifier,
                                            usuarios: map<Id, Usuario>)
    ensures AuthClient(roles, map[HeaderKey := Bearer + token], verify, usuarios) == Deny(NoAuth)
  {
    assert HeaderAsWritten != HeaderKey by {
      assert |HeaderAsWritten| != |HeaderKey|;
    }
  }

  /**
   A verifier that, like `jsonwebtoken`, rejects anything but a string never
   lets a request through the gate as written.
   */
  lemma AuthClientRejectsWithStringVerifier(roles: seq<string>, headers: map<string, string>, verify: Verifier,
                                           usuarios: map<Id, Usuario>)
    requires forall c: Credential :: c.Pieces? ==> verify(c).None?
    ensures AuthClient(roles, headers, verify, usuarios).Deny?
    ensures AuthClient(roles, headers, verify, usuarios).reply.status == 401
  {
  }

  /**
   Guarding a route for administrators denies every schema-valid user: the
   only valid role is "administrador", and the inverted test forbids it.
   */
  lemma AuthClientDeniesAdministrators(headers: map<string, string>, verify: Verifier, usuarios: map<Id, Usuario>)
    requires ValidUsuarios(usuarios)
    ensures AuthClient([RolAdministrador], headers, verify, usuarios).Deny?
  {
  }

  /**
   The gate with the header Express actually produces, the text after
   "Bearer " as the token, and a 403 for a user whose role is NOT among `roles`.
   */
  function AuthClientFixed(roles: seq<string>, headers: map<string, string>, verify: Verifier,
                           usuarios: map<Id, Usuario>): (r: Gate)
    ensures r.Deny? ==> !r.reply.ok && r.reply.status in {401, 403}
    ensures HeaderKey !in headers ==> r == Deny(NoAuth)
    ensures HeaderKey in headers && !StartsWith(headers[HeaderKey], Bearer) ==> r == Deny(NoAuth)
    ensures HeaderKey in headers && StartsWith(headers[HeaderKey], Bearer) ==>
      var v := verify(Token(headers[HeaderKey][|Bearer|..]));
      v.None? || v.value !in usuarios ==> r == Deny(NoAuth)
    ensures HeaderKey in headers && StartsWith(headers[HeaderKey], Bearer) ==>
      var v := verify(Token(headers[HeaderKey][|Bearer|..]));
      v.Some? && v.value in usuarios && (usuarios[v.value].rol == "" || usuarios[v.value].rol !in roles)
      ==> r == Deny(Forbidden)
    ensures r.Next? <==>
      && HeaderKey in headers
      && StartsWith(headers[HeaderKey], Bearer)
      && verify(Token(headers[HeaderKey][|Bearer|..])).Some?
      && verify(Token(headers[HeaderKey][|Bearer|..])).value in usuarios
      && usuarios[verify(Token(headers[HeaderKey][|Bearer|..])).value].rol in roles
      && usuarios[verify(Token(headers[HeaderKey][|Bearer|..])).value].rol != ""
    ensures r.Next? ==> r.userId == verify(Token(headers[HeaderKey][|Bearer|..])).value
  {
    if HeaderKey !in headers then Deny(NoAuth)
    else
      var header := headers[HeaderKey];
      if header == "" || !StartsWith(header, Bearer) then Deny(NoAuth)
      else
        match verify(Token(header[|Bearer|..]))
        case None => Deny(NoAuth)
        case Some(uid) =>
          if uid !in usuarios then Deny(NoAuth)
          else if usuarios[uid].rol == "" || usuarios[uid].rol !in roles then Deny(Forbidden)
          else Next(uid)
  }

  /** With the fixed gate, a valid administrator presenting a good token is let through as themself. */
  lemma AuthClientFixedAdmitsAdministrator(token: string, verify: Verifier, usuarios: map<Id, Usuario>, uid: Id)
    requires ValidUsuarios(usuarios) && uid in usuarios
    requires verify(Token(token)) == Some(uid)
    ensures AuthClientFixed([RolAdministrador], map[HeaderKey := Bearer + token], verify, usuarios) == Next(uid)
  {
    var header := Bearer + token;
    assert StartsWith(header, Bearer);
    assert header[|Bearer|..] == token;
  }
}
