/**
 * The owner-ownership guard of the routes under `/donos/:id`: an owner
 * reaches only its own record, an administrator reaches any.
 */
module OwnershipMiddleware {
  import opened Common
  import opened Claims

  /** The decision for a request whose path `id` is `param`. */
  function DonoOwnershipRequired(claims: ClaimSet, param: string): (d: Decision)
    ensures d == Next || d == Abort(Forbidden)
    ensures IsAdmin(claims) ==> d == Next
    ensures !IsAdmin(claims) ==>
      (d == Next <==> TipoIs(claims, "dono") && StrClaim(claims, "id") == Some(param) && ParseId(param).Some?)
  {
    if IsAdmin(claims) then Next
    else if !TipoIs(claims, "dono") then Abort(Forbidden)
    else match StrClaim(claims, "id")
      case None => Abort(Forbidden)
      case Some(donoId) =>
        var tokenId := ParseId(donoId);
        var resourceId := ParseId(param);
        if tokenId.None? || resourceId.None? || tokenId.value != resourceId.value then Abort(Forbidden)
        else Next
  }

  /** Without the administrator flag, a caller passes for at most one path id: its own. */
  lemma OneOwnerPerToken(claims: ClaimSet, p: string, q: string)
    requires !IsAdmin(claims)
    requires DonoOwnershipRequired(claims, p) == Next && DonoOwnershipRequired(claims, q) == Next
    ensures p == q
  {
  }
}
