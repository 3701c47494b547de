/**
 * The authentication layer in front of the routes: finding the token in a
 * request, the claims a log-in puts in a token and the identity read back
 * from them, the log-in itself, and the two role guards.
 */
module AuthMiddleware {
  import opened Common
  import opened Dtos
  import opened Claims
  import AuthService
  import OwnershipMiddleware
  import PetshopMiddleware

  // ---- the token extractor ----

  /** The value under `key`, or the empty text when there is none (as cookies, headers and queries are read). */
  function Lookup(m: map<string, string>, key: string): (v: string)
    ensures key in m ==> v == m[key]
    ensures key !in m ==> v == ""
  {
    if key in m then m[key] else ""
  }

  const BearerPrefix: string := "Bearer "

  predicate HasPrefix(s: string, prefix: string)
  {
    |prefix| <= |s| && s[..|prefix|] == prefix
  }

  /** The token an `Authorization` header carries: its text after `Bearer `, or nothing without that prefix. */
  function BearerToken(auth: string): (t: string)
    ensures HasPrefix(auth, BearerPrefix) ==> BearerPrefix + t == auth
    ensures !HasPrefix(auth, BearerPrefix) ==> t == ""
  {
    if auth != "" && HasPrefix(auth, BearerPrefix) then auth[|BearerPrefix|..] else ""
  }

  /** Reading back a header the extractor wrote gives the token it wrote. */
  lemma BearerRoundTrip(t: string)
    ensures BearerToken(BearerPrefix + t) == t
  {
    assert (BearerPrefix + t)[..|BearerPrefix|] == BearerPrefix;
    assert (BearerPrefix + t)[|BearerPrefix|..] == t;
  }

  /**
   * The token a request carries: the first non-empty one of the `jwt`
   * cookie, the `token` cookie, the bearer `Authorization` header and the
   * `token` query parameter.
   */
  function ExtractToken(cookies: map<string, string>, headers: map<string, string>, query: map<string, string>): (t: string)
    ensures Lookup(cookies, "jwt") != "" ==> t == Lookup(cookies, "jwt")
    ensures Lookup(cookies, "jwt") == "" && Lookup(cookies, "token") != "" ==> t == Lookup(cookies, "token")
    ensures (Lookup(cookies, "jwt") == "" && Lookup(cookies, "token") == "" &&
             BearerToken(Lookup(headers, "Authorization")) != "") ==>
              t == BearerToken(Lookup(headers, "Authorization"))
    ensures (Lookup(cookies, "jwt") == "" && Lookup(cookies, "token") == "" &&
             BearerToken(Lookup(headers, "Authorization")) == "") ==> t == Lookup(query, "token")
  {
    if Lookup(cookies, "jwt") != "" then Lookup(cookies, "jwt")
    else if Lookup(cookies, "token") != "" then Lookup(cookies, "token")
    else if BearerToken(Lookup(headers, "Authorization")) != "" then BearerToken(Lookup(headers, "Authorization"))
    else Lookup(query, "token")
  }

  /** The headers after extraction: a found token is written back as the bearer header; otherwise nothing changes. */
  function WithBearer(headers: map<string, string>, token: string): (h: map<string, string>)
    ensures token == "" ==> h == headers
    ensures token != "" ==> h == headers["Authorization" := BearerPrefix + token]
  {
    if token != "" then headers["Authorization" := BearerPrefix + token] else headers
  }

  /**
   * Running the extractor on a request it has already handled finds the
   * same token and leaves the headers as they are.
   */
  lemma ExtractTokenStable(cookies: map<string, string>, headers: map<string, string>, query: map<string, string>)
    ensures var t := ExtractToken(cookies, headers, query);
      ExtractToken(cookies, WithBearer(headers, t), query) == t &&
      WithBearer(WithBearer(headers, t), t) == WithBearer(headers, t)
  {
    var t := ExtractToken(cookies, headers, query);
    if t != "" {
      BearerRoundTrip(t);
      assert Lookup(WithBearer(headers, t), "Authorization") == BearerPrefix + t;
    }
  }

  /** The parts of an HTTP request the extractor reads and writes. */
  class Request {
    var cookies: map<string, string>
    var headers: map<string, string>
    var query: map<string, string>

    constructor (cookies: map<string, string>, headers: map<string, string>, query: map<string, string>)
      ensures this.cookies == cookies && this.headers == headers && this.query == query
    {
      this.cookies := cookies;
      this.headers := headers;
      this.query := query;
    }
  }

  /** The extractor: finds the token by priority and rewrites the `Authorization` header with it. */
  method TokenExtractor(req: Request)
    modifies req
    ensures req.cookies == old(req.cookies) && req.query == old(req.query)
    ensures req.headers == WithBearer(old(req.headers), ExtractToken(old(req.cookies), old(req.headers), old(req.query)))
  {
    var token := Lookup(req.cookies, "jwt");
    if token == "" {
      token := Lookup(req.cookies, "token");
    }
    if token == "" {
      var auth := Lookup(req.headers, "Authorization");
      if auth != "" && HasPrefix(auth, BearerPrefix) {
        token := auth[|BearerPrefix|..];
      }
    }
    if token == "" {
      token := Lookup(req.query, "token");
    }
    if token != "" {
      req.headers := req.headers["Authorization" := BearerPrefix + token];
    }
  }

  // ---- role guards ----

  /** The shared shape of both role guards: the `tipo` claim must be `role`, else 403. */
  function RoleRequired(claims: ClaimSet, role: string): (d: Decision)
    ensures d == Next <==> TipoIs(claims, role)
    ensures d != Next ==> d == Abort(Forbidden)
  {
    if !TipoIs(claims, role) then Abort(Forbidden) else Next
  }

  function PetshopRequired(claims: ClaimSet): (d: Decision)
    ensures d == Next <==> TipoIs(claims, "petshop")
    ensures d != Next ==> d == Abort(Forbidden)
  {
    RoleRequired(claims, "petshop")
  }

  function DonoRequired(claims: ClaimSet): (d: Decision)
    ensures d == Next <==> TipoIs(claims, "dono")
    ensures d != Next ==> d == Abort(Forbidden)
  {
    RoleRequired(claims, "dono")
  }

  /** No caller passes both role guards. */
  lemma RolesExclusive(claims: ClaimSet)
    ensures !(PetshopRequired(claims) == Next && DonoRequired(claims) == Next)
  {
    if PetshopRequired(claims) == Next && DonoRequired(claims) == Next {
      TipoUnique(claims, "petshop", "dono");
    }
  }

  // ---- claims of a token ----

  /** The claims a log-in puts in the token it issues. */
  function PayloadFunc(i: Identity): (c: ClaimSet)
    ensures c.Keys >= {"id", "email", "nome", "tipo", "telefone"}
    ensures c["id"] == Str(i.id) && c["tipo"] == Str(i.Tipo())
    ensures i.PetshopIdentity? ==> c.Keys == {"id", "email", "nome", "tipo", "telefone", "descricao", "nota"}
    ensures i.DonoIdentity? ==> c.Keys == {"id", "email", "nome", "tipo", "telefone"}
  {
    match i
    case DonoIdentity(id, email, nome, telefone) =>
      map["id" := Str(id), "email" := Str(email), "nome" := Str(nome), "tipo" := Str("dono"),
          "telefone" := Str(telefone)]
    case PetshopIdentity(id, email, nome, telefone, descricao, nota) =>
      map["id" := Str(id), "email" := Str(email), "nome" := Str(nome), "tipo" := Str("petshop"),
          "telefone" := Str(telefone), "descricao" := Str(descricao), "nota" := Num(nota)]
  }

  /**
   * The handler's type assertions succeed: once the id is text that parses
   * and the e-mail, name and kind are all present, those three are text.
   * Claims that fail earlier (no id, a key missing, an id that does not
   * parse) are rejected before any assertion and are not constrained.
   */
  predicate TextualClaims(claims: ClaimSet)
  {
    StrClaim(claims, "id").Some? && ParseId(StrClaim(claims, "id").value).Some? &&
    "email" in claims && "nome" in claims && "tipo" in claims ==>
      claims["email"].Str? && claims["nome"].Str? && claims["tipo"].Str?
  }

  /** A text claim that may be missing, defaulting to the empty text. */
  function TextOr(claims: ClaimSet, key: string): (s: string)
    ensures StrClaim(claims, key).Some? ==> s == StrClaim(claims, key).value
    ensures StrClaim(claims, key).None? ==> s == ""
  {
    if key in claims && claims[key].Str? then claims[key].text else ""
  }

  /** A numeric claim that may be missing, defaulting to zero. */
  function NumberOr(claims: ClaimSet, key: string): (n: real)
    ensures key in claims && claims[key].Num? ==> n == claims[key].number
    ensures !(key in claims && claims[key].Num?) ==> n == 0.0
  {
    if key in claims && claims[key].Num? then claims[key].number else 0.0
  }

  /**
   * The identity a validated token stands for: none unless the id (as
   * text), e-mail, name and kind are present and the id parses; optional
   * contact claims fall back to empty values; an unknown kind is no one.
   */
  function IdentityHandler(claims: ClaimSet): (r: Option<Identity>)
    requires TextualClaims(claims)
    ensures r.Some? ==> StrClaim(claims, "id") == Some(r.value.id) && TipoIs(claims, r.value.Tipo())
    ensures r.Some? ==> StrClaim(claims, "email") == Some(r.value.email) && StrClaim(claims, "nome") == Some(r.value.nome)
    ensures r.Some? <==>
      StrClaim(claims, "id").Some? && ParseId(StrClaim(claims, "id").value).Some? &&
      "email" in claims && "nome" in claims && (TipoIs(claims, "dono") || TipoIs(claims, "petshop"))
  {
    match StrClaim(claims, "id")
    case None => None
    case Some(idText) =>
      if "email" !in claims || "nome" !in claims || "tipo" !in claims then None
      else match ParseId(idText)
        case None => None
        case Some(id) =>
          var tipo := claims["tipo"].text;
          var email := claims["email"].text;
          var nome := claims["nome"].text;
          if tipo == "dono" then
            Some(DonoIdentity(id, email, nome, TextOr(claims, "telefone")))
          else if tipo == "petshop" then
            Some(PetshopIdentity(id, email, nome, TextOr(claims, "telefone"), TextOr(claims, "descricao"),
                                 NumberOr(claims, "nota")))
          else None
  }

  /** The identity read back from a token is the identity that logged in. */
  lemma IdentityRoundTrip(i: Identity)
    ensures TextualClaims(PayloadFunc(i))
    ensures IdentityHandler(PayloadFunc(i)) == Some(i)
  {
    var c := PayloadFunc(i);
    assert StrClaim(c, "id") == Some(i.id);
  }

  /** Any identity at all is authorised; a token that names no one is not. */
  function Authorizator(data: Option<Identity>): (ok: bool)
    ensures ok <==> data != None
  {
    data.Some?
  }

  // ---- log-in ----

  /** The body of a log-in request; `None` when it does not bind (a required field missing). */
  datatype LoginBody = LoginBody(email: string, password: string, userType: string)

  /** The log-in: the body's user type chooses which kind of account is checked. */
  function Authenticator(auth: AuthService.AuthService, body: Option<LoginBody>): (r: Result<Identity>)
    reads auth.donos, auth.petshops
    ensures body.None? ==> r == Err(MissingLoginValues)
    ensures body.Some? && r.Err? ==> r.error == FailedAuthentication
    ensures body.Some? && body.value.userType != "dono" && body.value.userType != "petshop" ==>
      r == Err(FailedAuthentication)
    ensures body.Some? && body.value.userType == "dono" ==>
      (r.Ok? <==> auth.AuthenticateDono(body.value.email, body.value.password).Ok?)
    ensures body.Some? && body.value.userType == "petshop" ==>
      (r.Ok? <==> auth.AuthenticatePetshop(body.value.email, body.value.password).Ok?)
    ensures r.Ok? ==> r.value.Tipo() == body.value.userType && r.value.email == body.value.email
    ensures body.Some? && body.value.userType == "dono" && r.Ok? ==>
      r == auth.AuthenticateDono(body.value.email, body.value.password)
    ensures body.Some? && body.value.userType == "petshop" && r.Ok? ==>
      r == auth.AuthenticatePetshop(body.value.email, body.value.password)
  {
    match body
    case None => Err(MissingLoginValues)
    case Some(login) =>
      if login.userType == "dono" then
        match auth.AuthenticateDono(login.email, login.password)
        case Err(_) => Err(FailedAuthentication)
        case Ok(dono) => Ok(dono)
      else if login.userType == "petshop" then
        match auth.AuthenticatePetshop(login.email, login.password)
        case Err(_) => Err(FailedAuthentication)
        case Ok(petshop) => Ok(petshop)
      else Err(FailedAuthentication)
  }

  // ---- what a token issued at log-in grants ----

  /**
   * A token issued at log-in is authorised, passes exactly the role guard
   * of its kind, and reaches that account's own record and no other.
   */
  lemma LoginTokenGrants(auth: AuthService.AuthService, body: Option<LoginBody>, param: string)
    requires Authenticator(auth, body).Ok?
    ensures var i := Authenticator(auth, body).value;
      var c := PayloadFunc(i);
      TextualClaims(c) && Authorizator(IdentityHandler(c)) &&
      (DonoRequired(c) == Next <==> body.value.userType == "dono") &&
      (PetshopRequired(c) == Next <==> body.value.userType == "petshop") &&
      (i.DonoIdentity? ==> (OwnershipMiddleware.DonoOwnershipRequired(c, param) == Next <==> param == i.id)) &&
      (i.PetshopIdentity? ==> (PetshopMiddleware.PetshopOwnershipRequired(c, param) == Next <==> param == i.id))
  {
    var i := Authenticator(auth, body).value;
    IdentityRoundTrip(i);
    var c := PayloadFunc(i);
    assert !IsAdmin(c);
    assert StrClaim(c, "id") == Some(i.id);
  }
}
