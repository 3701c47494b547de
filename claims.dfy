/**
 * What the request middlewares see and decide: the claims of a validated
 * token, and whether the request goes on to its handler or is answered
 * with an error status.
 */
module Claims {
  import opened Common

  /** A claim's value as decoded from the token's JSON: text, number or boolean. */
  datatype Claim = Str(text: string) | Num(number: real) | Flag(flag: bool)

  type ClaimSet = map<string, Claim>

  /** The middleware either passes the request on or aborts it with a status. */
  datatype Decision = Next | Abort(status: nat)

  const BadRequest: nat := 400
  const Forbidden: nat := 403
  const NotFoundStatus: nat := 404
  const InternalError: nat := 500

  /** The status a failed record lookup answers with: 404 for "not found", 500 for anything else. */
  function LookupStatus(e: Error): (status: nat)
    ensures status == NotFoundStatus <==> e == NotFound
    ensures status == NotFoundStatus || status == InternalError
  {
    if e == NotFound then NotFoundStatus else InternalError
  }

  /** `claims[key].(string)`: the claim when it is present and is text. */
  function StrClaim(claims: ClaimSet, key: string): (r: Option<string>)
    ensures r.Some? <==> key in claims && claims[key].Str?
    ensures r.Some? ==> claims[key] == Str(r.value)
  {
    if key in claims && claims[key].Str? then Some(claims[key].text) else None
  }

  /** The `is_admin` claim is present and is the boolean true. */
  predicate IsAdmin(claims: ClaimSet)
  {
    "is_admin" in claims && claims["is_admin"] == Flag(true)
  }

  /** The `tipo` claim is present and is the text `tipo`. */
  predicate TipoIs(claims: ClaimSet, tipo: string)
  {
    "tipo" in claims && claims["tipo"] == Str(tipo)
  }

  /** A caller cannot be of two kinds at once. */
  lemma TipoUnique(claims: ClaimSet, a: string, b: string)
    requires TipoIs(claims, a) && TipoIs(claims, b)
    ensures a == b
  {
    assert Str(a) == claims["tipo"] == Str(b);
  }
}
