/**
 * The guards of the service-catalogue routes: only the petshop that
 * offers a service may change it, and only a petshop may manage the
 * services listed under its own id.
 */
module ServicoMiddleware {
  import opened Common
  import opened Claims
  import opened ServicoRepo
  import ServicoService

  /** The decision for a request on the service whose path `id` is `param`. */
  function ServicoOwnershipRequired(svc: ServicoService.ServicoService, claims: ClaimSet, param: string): (d: Decision)
    reads svc.servicos
    ensures !TipoIs(claims, "petshop") ==> d == Abort(Forbidden)
    ensures TipoIs(claims, "petshop") && StrClaim(claims, "id").None? ==> d == Abort(Forbidden)
    ensures TipoIs(claims, "petshop") && StrClaim(claims, "id").Some? && ParseId(param).None? ==> d == Abort(BadRequest)
    ensures d == Abort(NotFoundStatus) <==>
      TipoIs(claims, "petshop") && StrClaim(claims, "id").Some? && ParseId(param).Some? && svc.servicos.GetByID(param).Err?
    ensures d == Abort(InternalError) ==> ParseId(StrClaim(claims, "id").value).None?
    ensures d == Abort(InternalError) <==>
      TipoIs(claims, "petshop") && StrClaim(claims, "id").Some? && ParseId(param).Some? &&
      svc.servicos.GetByID(param).Ok? && ParseId(StrClaim(claims, "id").value).None?
    ensures d == Next <==>
      TipoIs(claims, "petshop") && ParseId(param).Some? && svc.servicos.GetByID(param).Ok? &&
      StrClaim(claims, "id") == Some(svc.servicos.GetByID(param).value.petshopId)
  {
    if !TipoIs(claims, "petshop") then Abort(Forbidden)
    else match StrClaim(claims, "id")
      case None => Abort(Forbidden)
      case Some(petshopIdText) =>
        match ParseId(param)
        case None => Abort(BadRequest)
        case Some(servicoId) =>
          match svc.GetByID(servicoId)
          case Err(_) => Abort(NotFoundStatus)
          case Ok(servico) =>
            match ParseId(petshopIdText)
            case None => Abort(InternalError)
            case Some(petshopId) =>
              if petshopId != servico.petshopId then Abort(Forbidden) else Next
  }

  /** The decision for a request whose path parameter naming a petshop is `param`. */
  function PetshopOwnershipFromParamRequired(claims: ClaimSet, param: string): (d: Decision)
    ensures d == Next || d == Abort(Forbidden)
    ensures d == Next <==> TipoIs(claims, "petshop") && StrClaim(claims, "id") == Some(param) && ParseId(param).Some?
  {
    if !TipoIs(claims, "petshop") then Abort(Forbidden)
    else match StrClaim(claims, "id")
      case None => Abort(Forbidden)
      case Some(petshopIdText) =>
        var petshopId := ParseId(petshopIdText);
        var urlPetshopId := ParseId(param);
        if petshopId.None? || urlPetshopId.None? || petshopId.value != urlPetshopId.value then Abort(Forbidden)
        else Next
  }
}
