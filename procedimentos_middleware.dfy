/**
 * The guard of the procedure-history routes under `/pets/:petId`: only
 * the owner of the pet may read or add to its history.
 */
module ProcedimentosMiddleware {
  import opened Common
  import opened Claims
  import opened Tables
  import PetService

  /** The decision for a request whose path `petId` is `param`. */
  function PetOwnershipRequired(svc: PetService.PetService, claims: ClaimSet, param: string): (d: Decision)
    reads svc.pets
    ensures !TipoIs(claims, "dono") || StrClaim(claims, "id").None? ==> d == Abort(Forbidden)
    ensures TipoIs(claims, "dono") && StrClaim(claims, "id").Some? && ParseId(param).None? ==> d == Abort(BadRequest)
    ensures d == Abort(NotFoundStatus) <==>
      TipoIs(claims, "dono") && StrClaim(claims, "id").Some? && ParseId(param).Some? && svc.GetByID(param).Err?
    ensures d == Abort(InternalError) ==> ParseId(StrClaim(claims, "id").value).None?
    ensures d == Abort(InternalError) <==>
      TipoIs(claims, "dono") && StrClaim(claims, "id").Some? && ParseId(param).Some? &&
      svc.GetByID(param).Ok? && ParseId(StrClaim(claims, "id").value).None?
    ensures d == Next <==>
      TipoIs(claims, "dono") && ParseId(param).Some? && svc.GetByID(param).Ok? &&
      StrClaim(claims, "id") == Some(svc.GetByID(param).value.donoId)
  {
    if !TipoIs(claims, "dono") then Abort(Forbidden)
    else match StrClaim(claims, "id")
      case None => Abort(Forbidden)
      case Some(donoIdText) =>
        match ParseId(param)
        case None => Abort(BadRequest)
        case Some(petId) =>
          var pet := svc.GetByID(petId);
          if pet.Err? then
            Abort(LookupStatus(pet.error))
          else
            match ParseId(donoIdText)
            case None => Abort(InternalError)
            case Some(donoId) =>
              if donoId != pet.value.donoId then Abort(Forbidden) else Next
  }

  /**
   * The pet lookup reports every failure as "not found", so a storage
   * failure gives 404 and never 500; 500 comes only from a malformed id
   * in the token.
   */
  lemma StorageFailureIsNotFound(svc: PetService.PetService, claims: ClaimSet, param: string)
    requires TipoIs(claims, "dono") && StrClaim(claims, "id").Some? && ParseId(param).Some?
    requires FindById in svc.pets.failing
    ensures PetOwnershipRequired(svc, claims, param) == Abort(NotFoundStatus)
  {
  }
}
