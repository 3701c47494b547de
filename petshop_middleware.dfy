/**
 * The petshop-ownership guard of the routes under `/petshops/:id`: a
 * petshop reaches only its own record, an administrator reaches any.
 */
module PetshopMiddleware {
  import opened Common
  import opened Claims

  /** The decision for a request whose path `id` is `param`. */
  function PetshopOwnershipRequired(claims: ClaimSet, param: string): (d: Decision)
    ensures d == Next || d == Abort(Forbidden)
    ensures IsAdmin(claims) ==> d == Next
    ensures !IsAdmin(claims) ==>
      (d == Next <==> TipoIs(claims, "petshop") && StrClaim(claims, "id") == Some(param) && ParseId(param).Some?)
  {
    if IsAdmin(claims) then Next
    else if !TipoIs(claims, "petshop") then Abort(Forbidden)
    else match StrClaim(claims, "id")
      case None => Abort(Forbidden)
      case Some(petshopId) =>
        var tokenId := ParseId(petshopId);
        var resourceId := ParseId(param);
        if tokenId.None? || resourceId.None? || tokenId.value != resourceId.value then Abort(Forbidden)
        else Next
  }
}
