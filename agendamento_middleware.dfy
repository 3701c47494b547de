/**
 * The guard of the appointment routes under `/agendamentos/:id`: only the
 * appointment's owner and its petshop may reach it.
 */
module AgendamentoMiddleware {
  import opened Common
  import opened Entities
  import opened Claims
  import AgendamentoService

  /**
   * The decision for a request whose path `id` is `param`; `svc` is the
   * appointment service the routes configure, null when they have not.
   */
  function AgendamentoOwnershipRequired(svc: AgendamentoService.AgendamentoService?, claims: ClaimSet, param: string): (d: Decision)
    reads if svc == null then {} else {svc.agendamentos, svc.pets, svc.donos, svc.petshops}
    ensures svc == null ==> d == Abort(InternalError)
    ensures svc != null && "tipo" !in claims ==> d == Abort(Forbidden)
    ensures svc != null && "tipo" in claims && ParseId(param).None? ==> d == Abort(BadRequest)
    ensures d == Abort(NotFoundStatus) <==>
      svc != null && "tipo" in claims && ParseId(param).Some? && svc.GetByID(param) == Err(NotFound)
    ensures (svc != null && "tipo" in claims && ParseId(param).Some? &&
             svc.GetByID(param).Err? && svc.GetByID(param).error != NotFound) ==> d == Abort(InternalError)
    ensures d == Next <==>
      svc != null && ParseId(param).Some? && svc.GetByID(param).Ok? && StrClaim(claims, "id").Some? &&
      ((TipoIs(claims, "dono") && StrClaim(claims, "id").value == svc.GetByID(param).value.donoId) ||
       (TipoIs(claims, "petshop") && StrClaim(claims, "id").value == svc.GetByID(param).value.petshopId))
    ensures d == Next ==>
      var a := svc.agendamentos.GetByID(param);
      a.Ok? && (StrClaim(claims, "id") == Some(a.value.donoId) || StrClaim(claims, "id") == Some(a.value.petshopId))
  {
    if svc == null then Abort(InternalError)
    else if "tipo" !in claims then Abort(Forbidden)
    else match ParseId(param)
      case None => Abort(BadRequest)
      case Some(agendamentoId) =>
        match svc.GetByID(agendamentoId)
        case Err(e) => Abort(LookupStatus(e))
        case Ok(agendamento) =>
          match StrClaim(claims, "id")
          case None => Abort(Forbidden)
          case Some(userId) =>
            if claims["tipo"] == Str("dono") then
              if userId != agendamento.donoId then Abort(Forbidden) else Next
            else if claims["tipo"] == Str("petshop") then
              if userId != agendamento.petshopId then Abort(Forbidden) else Next
            else Abort(Forbidden)
  }
}
