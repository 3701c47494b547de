/**
 * The appointment service: booking an appointment for an owner's pet at a
 * petshop, rescheduling it, moving it through its status lifecycle, and
 * listing it with the names of the parties it involves.
 */
module AgendamentoService {
  import opened Common
  import opened Entities
  import opened Tables
  import opened Dtos
  import opened DonoRepo
  import opened PetRepo
  import opened PetshopRepo
  import opened ServicoRepo
  import opened AgendamentoRepo

  /** The three records an appointment request refers to. */
  datatype Parties = Parties(dono: Dono, pet: Pet, petshop: Petshop)

  /** A validated booking, ready for insertion, with the parties it names. */
  datatype Draft = Draft(parties: Parties, agendamento: Agendamento)

  /** A failed lookup of a referenced record: "not found", or the lookup itself failed. */
  /** The errors an item check can end with. */
  predicate ItemError(e: Error)
  {
    e == InvalidServicoId || e == ServicoNotFound || e == CheckServicoFailed || e == ServicoNotFromPetshop || e == ServicoInactive
  }

  function LookupError(e: Error, notFound: Error, failed: Error): Error
  {
    if e == NotFound then notFound else failed
  }

  /** An appointment's date as requested: well formed, and not before `now`. */
  function ScheduleDate(d: Option<Time>, now: Time): (r: Result<Time>)
    ensures r.Ok? <==> d.Some? && d.value >= now
    ensures r.Ok? ==> r.value == d.value
    ensures d.None? ==> r == Err(InvalidDate)
    ensures d.Some? && d.value < now ==> r == Err(PastDate)
  {
    match d
    case None => Err(InvalidDate)
    case Some(t) => if t < now then Err(PastDate) else Ok(t)
  }

  /**
   * The error a status change from `cur` to `novo` is refused with, if
   * any: a cancelled or a concluded appointment keeps its status for good.
   */
  function TransitionError(cur: Status, novo: Status): (r: Option<Error>)
    ensures r.None? <==> !cur.IsTerminal() || novo == cur
    ensures r.Some? ==> r.value == (if cur == Cancelado then CancelledIsFinal else ConcludedIsFinal)
  {
    if cur == Cancelado && novo != Cancelado then Some(CancelledIsFinal)
    else if cur == Concluido && novo != Concluido then Some(ConcludedIsFinal)
    else None
  }

  /** The status after a series of requested changes, each refused one leaving it as it was. */
  function ApplyStatusChanges(cur: Status, changes: seq<Status>): Status
  {
    if changes == [] then cur
    else
      var last := changes[|changes| - 1];
      var before := ApplyStatusChanges(cur, changes[..|changes| - 1]);
      if TransitionError(before, last).None? then last else before
  }

  /** Once cancelled or concluded, no series of status changes moves an appointment. */
  lemma {:induction false} TerminalIsAbsorbing(cur: Status, changes: seq<Status>)
    requires cur.IsTerminal()
    ensures ApplyStatusChanges(cur, changes) == cur
  {
    if changes != [] {
      TerminalIsAbsorbing(cur, changes[..|changes| - 1]);
    }
  }

  function ItemView(it: ItemAgendamento): ItemAgendamentoView
  {
    ItemAgendamentoView(it.id, it.servicoId, it.nomeServico, it.precoPrevisto)
  }

  /** The response for an appointment, given the names of its pet, owner and petshop. */
  function ToView(a: Agendamento, nomePet: string, nomeDono: string, nomePetshop: string): (v: AgendamentoView)
    ensures v.id == a.id && v.dataAgendada == a.dataAgendada && v.donoId == a.donoId
    ensures v.petshopId == a.petshopId && v.nomePet == nomePet
  {
    AgendamentoView(
      a.id, a.donoId, nomeDono, a.petId, nomePet, a.petshopId, nomePetshop,
      a.dataAgendada, a.status.Text(), a.observacoes, a.totalPrevisto,
      seq(|a.itens|, k requires 0 <= k < |a.itens| => ItemView(a.itens[k])))
  }

  /** Responses ordered from the latest to the earliest scheduled date. */
  predicate LatestFirst(views: seq<AgendamentoView>)
  {
    forall i, j | 0 <= i < j < |views| :: views[i].dataAgendada >= views[j].dataAgendada
  }

  lemma LatestFirstSnoc(views: seq<AgendamentoView>, v: AgendamentoView)
    requires LatestFirst(views)
    requires forall w | w in views :: w.dataAgendada >= v.dataAgendada
    ensures LatestFirst(views + [v])
  {
    var r := views + [v];
    forall i, j | 0 <= i < j < |r| ensures r[i].dataAgendada >= r[j].dataAgendada {
      assert r[i] == views[i] && r[i] in views;
    }
  }

  /** The appointment a response describes, when its status text is a named status. */
  function FromView(v: AgendamentoView): Option<Agendamento>
  {
    match ParseStatus(v.status)
    case None => None
    case Some(status) =>
      Some(Agendamento(
        v.id, v.donoId, v.petId, v.petshopId, v.dataAgendada, status, v.observacoes,
        v.totalPrevisto,
        seq(|v.itens|, k requires 0 <= k < |v.itens| =>
          ItemAgendamento(v.itens[k].id, v.id, v.itens[k].servicoId, v.itens[k].nomeServico,
                          v.itens[k].precoPrevisto))))
  }

  /**
   * The response loses nothing of a stored appointment (its timestamps
   * aside): the record can be read back from it.
   */
  lemma ViewRoundTrip(a: Agendamento, nomePet: string, nomeDono: string, nomePetshop: string)
    requires ItemsLinked(a) && a.status != Unset
    ensures FromView(ToView(a, nomePet, nomeDono, nomePetshop)) == Some(a)
  {
    var v := ToView(a, nomePet, nomeDono, nomePetshop);
    StatusTextRoundTrip(a.status);
    var back := FromView(v);
    assert back.Some?;
    assert back.value.itens == a.itens;
  }

  class AgendamentoService {
    const agendamentos: AgendamentoRepository
    const donos: DonoRepository
    const pets: PetRepository
    const petshops: PetshopRepository
    const servicos: ServicoRepository

    constructor (agendamentos: AgendamentoRepository, donos: DonoRepository, pets: PetRepository,
                 petshops: PetshopRepository, servicos: ServicoRepository)
      ensures this.agendamentos == agendamentos && this.donos == donos && this.pets == pets
      ensures this.petshops == petshops && this.servicos == servicos
    {
      this.agendamentos := agendamentos;
      this.donos := donos;
      this.pets := pets;
      this.petshops := petshops;
      this.servicos := servicos;
    }

    /** The three identifiers of a booking request all parse. */
    predicate IdsWellFormed(dto: AgendamentoCreate)
    {
      IsKsuidText(dto.donoId) && IsKsuidText(dto.petId) && IsKsuidText(dto.petshopId)
    }

    /**
     * The owner, pet and petshop of a booking request, in the order they are
     * checked: the three identifiers parse, the owner exists, the pet exists
     * and belongs to that owner, and the petshop exists.
     */
    function ResolveParties(dto: AgendamentoCreate): (r: Result<Parties>)
      reads donos, pets, petshops
      ensures !IsKsuidText(dto.donoId) ==> r == Err(InvalidDonoId)
      ensures IsKsuidText(dto.donoId) && !IsKsuidText(dto.petId) ==> r == Err(InvalidPetId)
      ensures IsKsuidText(dto.donoId) && IsKsuidText(dto.petId) && !IsKsuidText(dto.petshopId) ==>
        r == Err(InvalidPetshopId)
      ensures IdsWellFormed(dto) && donos.GetByID(dto.donoId).Err? ==>
        r == Err(LookupError(donos.GetByID(dto.donoId).error, DonoNotFound, CheckDonoFailed))
      ensures IdsWellFormed(dto) && donos.GetByID(dto.donoId).Ok? && pets.GetByID(dto.petId).Err? ==>
        r == Err(LookupError(pets.GetByID(dto.petId).error, PetNotFound, CheckPetFailed))
      ensures IdsWellFormed(dto) && donos.GetByID(dto.donoId).Ok? && pets.GetByID(dto.petId).Ok? &&
              pets.GetByID(dto.petId).value.donoId != dto.donoId ==>
        r == Err(PetNotOwned)
      ensures IdsWellFormed(dto) && donos.GetByID(dto.donoId).Ok? && pets.GetByID(dto.petId).Ok? &&
              pets.GetByID(dto.petId).value.donoId == dto.donoId && petshops.GetByID(dto.petshopId).Err? ==>
        r == Err(LookupError(petshops.GetByID(dto.petshopId).error, PetshopNotFound, CheckPetshopFailed))
      ensures r.Ok? <==>
        IdsWellFormed(dto) && donos.GetByID(dto.donoId).Ok? && pets.GetByID(dto.petId).Ok? &&
        pets.GetByID(dto.petId).value.donoId == dto.donoId && petshops.GetByID(dto.petshopId).Ok?
      ensures r.Ok? ==> r.value.dono in donos.rows && r.value.dono.id == dto.donoId
      ensures r.Ok? ==> r.value.pet in pets.rows && r.value.pet.id == dto.petId
      ensures r.Ok? ==> r.value.petshop in petshops.rows && r.value.petshop.id == dto.petshopId
      ensures r.Ok? ==> r.value.pet.donoId == r.value.dono.id
    {
      match (ParseId(dto.donoId), ParseId(dto.petId), ParseId(dto.petshopId))
      case (None, _, _) => Err(InvalidDonoId)
      case (Some(_), None, _) => Err(InvalidPetId)
      case (Some(_), Some(_), None) => Err(InvalidPetshopId)
      case (Some(donoId), Some(petId), Some(petshopId)) =>
        match donos.GetByID(donoId)
        case Err(e) => Err(LookupError(e, DonoNotFound, CheckDonoFailed))
        case Ok(dono) =>
          match pets.GetByID(petId)
          case Err(e) => Err(LookupError(e, PetNotFound, CheckPetFailed))
          case Ok(pet) =>
            if pet.donoId != donoId then Err(PetNotOwned)
            else match petshops.GetByID(petshopId)
              case Err(e) => Err(LookupError(e, PetshopNotFound, CheckPetshopFailed))
              case Ok(petshop) => Ok(Parties(dono, pet, petshop))
    }

    /**
     * One requested item, checked against the services table: the service
     * id parses, the service exists, it is offered by `petshopId` and it is
     * active. The item carries the service's name and the requested price.
     */
    function CheckItem(req: ItemAgendamentoRequest, petshopId: Id, parent: Id): (r: Result<ItemAgendamento>)
      reads servicos
      ensures !IsKsuidText(req.servicoId) ==> r == Err(InvalidServicoId)
      ensures r.Ok? <==> IsKsuidText(req.servicoId) && servicos.GetByID(req.servicoId).Ok? &&
                         servicos.GetByID(req.servicoId).value.petshopId == petshopId &&
                         servicos.GetByID(req.servicoId).value.ativo
      ensures r.Ok? ==> servicos.GetByID(r.value.servicoId).Ok?
      ensures r.Ok? ==> var s := servicos.GetByID(r.value.servicoId).value;
        s.petshopId == petshopId && s.ativo && s.nome == r.value.nomeServico
      ensures r.Ok? ==> r.value == ItemAgendamento(NilId, parent, req.servicoId, r.value.nomeServico, req.precoPrevisto)
      ensures r.Err? ==> ItemError(r.error)
    {
      match ParseId(req.servicoId)
      case None => Err(InvalidServicoId)
      case Some(servicoId) =>
        match servicos.GetByID(servicoId)
        case Err(e) => Err(LookupError(e, ServicoNotFound, CheckServicoFailed))
        case Ok(s) =>
          if s.petshopId != petshopId then Err(ServicoNotFromPetshop)
          else if !s.ativo then Err(ServicoInactive)
          else Ok(ItemAgendamento(NilId, parent, servicoId, s.nome, req.precoPrevisto))
    }

    /**
     * The requested items, checked one after the other in request order:
     * the first item that fails decides the error, otherwise every item is
     * kept, in order, at its requested price.
     */
    function PlanItems(reqs: seq<ItemAgendamentoRequest>, petshopId: Id, parent: Id): (r: Result<seq<ItemAgendamento>>)
      reads servicos
      ensures r.Ok? ==> |r.value| == |reqs|
      ensures r.Err? ==> ItemError(r.error)
    {
      if reqs == [] then Ok([])
      else
        var n := |reqs| - 1;
        match PlanItems(reqs[..n], petshopId, parent)
        case Err(e) => Err(e)
        case Ok(items) =>
          match CheckItem(reqs[n], petshopId, parent)
          case Err(e) => Err(e)
          case Ok(it) => Ok(items + [it])
    }

    /** An accepted plan holds, at each position of the request, the item the single check accepts. */
    lemma PlanItemsChecked(reqs: seq<ItemAgendamentoRequest>, k: nat, petshopId: Id, parent: Id)
      requires k < |reqs| && PlanItems(reqs, petshopId, parent).Ok?
      ensures CheckItem(reqs[k], petshopId, parent) == Ok(PlanItems(reqs, petshopId, parent).value[k])
    {
      assert reqs[..|reqs|] == reqs;
      PlanItemsCheckedUpTo(reqs, |reqs|, k, petshopId, parent);
    }

    lemma {:induction false} PlanItemsCheckedUpTo(reqs: seq<ItemAgendamentoRequest>, m: nat, k: nat, petshopId: Id, parent: Id)
      requires k < m <= |reqs| && PlanItems(reqs[..m], petshopId, parent).Ok?
      ensures CheckItem(reqs[k], petshopId, parent) == Ok(PlanItems(reqs[..m], petshopId, parent).value[k])
    {
      PlanItemsSnoc(reqs, m - 1, petshopId, parent);
      if k < m - 1 {
        PlanItemsCheckedUpTo(reqs, m - 1, k, petshopId, parent);
      }
    }

    /** A request is accepted exactly when every one of its items passes the single check. */
    lemma PlanItemsOkIff(reqs: seq<ItemAgendamentoRequest>, petshopId: Id, parent: Id)
      ensures PlanItems(reqs, petshopId, parent).Ok? <==>
        forall k :: 0 <= k < |reqs| ==> CheckItem(reqs[k], petshopId, parent).Ok?
    {
      if PlanItems(reqs, petshopId, parent).Ok? {
        forall k | 0 <= k < |reqs|
          ensures CheckItem(reqs[k], petshopId, parent).Ok?
        {
          PlanItemsChecked(reqs, k, petshopId, parent);
        }
      }
      if forall k :: 0 <= k < |reqs| ==> CheckItem(reqs[k], petshopId, parent).Ok? {
        PlanItemsOkUpTo(reqs, |reqs|, petshopId, parent);
        assert reqs[..|reqs|] == reqs;
      }
    }

    lemma {:induction false} PlanItemsOkUpTo(reqs: seq<ItemAgendamentoRequest>, m: nat, petshopId: Id, parent: Id)
      requires m <= |reqs|
      requires forall k :: 0 <= k < m ==> CheckItem(reqs[k], petshopId, parent).Ok?
      ensures PlanItems(reqs[..m], petshopId, parent).Ok?
    {
      if m == 0 {
        assert reqs[..m] == [];
      } else {
        PlanItemsOkUpTo(reqs, m - 1, petshopId, parent);
        PlanItemsSnoc(reqs, m - 1, petshopId, parent);
      }
    }

    /** Once a prefix of the request fails, the whole request fails the same way. */
    lemma PlanItemsStopsAtError(reqs: seq<ItemAgendamentoRequest>, k: nat, petshopId: Id, parent: Id)
      requires k <= |reqs| && PlanItems(reqs[..k], petshopId, parent).Err?
      ensures PlanItems(reqs, petshopId, parent) == PlanItems(reqs[..k], petshopId, parent)
    {
      assert reqs[..|reqs|] == reqs;
      PlanItemsStopsUpTo(reqs, |reqs|, k, petshopId, parent);
    }

    lemma {:induction false} PlanItemsStopsUpTo(reqs: seq<ItemAgendamentoRequest>, m: nat, k: nat, petshopId: Id, parent: Id)
      requires k <= m <= |reqs| && PlanItems(reqs[..k], petshopId, parent).Err?
      ensures PlanItems(reqs[..m], petshopId, parent) == PlanItems(reqs[..k], petshopId, parent)
    {
      if m > k {
        PlanItemsStopsUpTo(reqs, m - 1, k, petshopId, parent);
        PlanItemsSnoc(reqs, m - 1, petshopId, parent);
      }
    }

    /** One more checked item extends the plan of the prefix. */
    lemma PlanItemsSnoc(reqs: seq<ItemAgendamentoRequest>, k: nat, petshopId: Id, parent: Id)
      requires k < |reqs|
      ensures PlanItems(reqs[..k + 1], petshopId, parent) ==
        match PlanItems(reqs[..k], petshopId, parent)
        case Err(e) => Err(e)
        case Ok(items) =>
          match CheckItem(reqs[k], petshopId, parent)
          case Err(e) => Err(e)
          case Ok(it) => Ok(items + [it])
    {
      assert reqs[..k + 1][..k] == reqs[..k];
    }

    /**
     * The loop creating and rescheduling share: each requested item is
     * checked in turn, the first failure ends it, and the prices are
     * summed as the items are accepted.
     */
    method BuildItems(reqs: seq<ItemAgendamentoRequest>, petshopId: Id, parent: Id)
      returns (r: Result<seq<ItemAgendamento>>, total: Money)
      ensures r == PlanItems(reqs, petshopId, parent)
      ensures r.Ok? ==> total == Sum(PricesPrevistos(r.value))
    {
      var items: seq<ItemAgendamento> := [];
      total := 0.0;
      var k := 0;
      while k < |reqs|
        invariant k <= |reqs|
        invariant PlanItems(reqs[..k], petshopId, parent) == Ok(items)
        invariant total == Sum(PricesPrevistos(items))
      {
        var item := CheckItem(reqs[k], petshopId, parent);
        PlanItemsSnoc(reqs, k, petshopId, parent);
        if item.Err? {
          PlanItemsStopsAtError(reqs, k + 1, petshopId, parent);
          return Err(item.error), total;
        }
        SumSnoc(PricesPrevistos(items), reqs[k].precoPrevisto);
        assert PricesPrevistos(items + [item.value]) == PricesPrevistos(items) + [reqs[k].precoPrevisto];
        items := items + [item.value];
        total := total + reqs[k].precoPrevisto;
        k := k + 1;
      }
      assert reqs[..k] == reqs;
      r := Ok(items);
    }

    /**
     * A booking request checked in full: parties, date, items and the
     * declared total, which must equal the running sum of the item prices.
     */
    function PlanCreate(dto: AgendamentoCreate, now: Time): (r: Result<Draft>)
      reads donos, pets, petshops, servicos
      ensures r.Ok? ==> ResolveParties(dto) == Ok(r.value.parties)
      ensures r.Ok? ==> var a := r.value.agendamento;
        a.status == Pendente && a.id == NilId && a.dataAgendada >= now &&
        a.donoId == dto.donoId && a.petId == dto.petId && a.petshopId == dto.petshopId &&
        a.observacoes == dto.observacoes && a.totalPrevisto == dto.totalPrevisto &&
        Sum(PricesPrevistos(a.itens)) == a.totalPrevisto &&
        PlanItems(dto.itens, a.petshopId, NilId) == Ok(a.itens)
      ensures ResolveParties(dto).Err? ==> r == Err(ResolveParties(dto).error)
      ensures ResolveParties(dto).Ok? && ScheduleDate(dto.dataAgendada, now).Err? ==>
        r == Err(ScheduleDate(dto.dataAgendada, now).error)
    {
      match ResolveParties(dto)
      case Err(e) => Err(e)
      case Ok(p) =>
        match ScheduleDate(dto.dataAgendada, now)
        case Err(e) => Err(e)
        case Ok(t) =>
          match PlanItems(dto.itens, p.petshop.id, NilId)
          case Err(e) => Err(e)
          case Ok(items) =>
            if Sum(PricesPrevistos(items)) != dto.totalPrevisto then Err(TotalMismatch)
            else Ok(Draft(p, Agendamento(NilId, p.dono.id, p.pet.id, p.petshop.id, t, Pendente,
                                         dto.observacoes, dto.totalPrevisto, items)))
    }

    /**
     * The response for a stored appointment, with the names of its pet,
     * owner and petshop looked up in that order.
     */
    function Present(a: Agendamento): (r: Result<AgendamentoView>)
      reads pets, donos, petshops
      ensures pets.GetByID(a.petId).Err? ==> r == Err(FetchPetInfoFailed)
      ensures pets.GetByID(a.petId).Ok? && donos.GetByID(a.donoId).Err? ==> r == Err(FetchDonoInfoFailed)
      ensures pets.GetByID(a.petId).Ok? && donos.GetByID(a.donoId).Ok? && petshops.GetByID(a.petshopId).Err? ==>
        r == Err(FetchPetshopInfoFailed)
      ensures r.Ok? ==> pets.GetByID(a.petId).Ok? && donos.GetByID(a.donoId).Ok? && petshops.GetByID(a.petshopId).Ok?
      ensures r.Ok? ==> r.value == ToView(a, pets.GetByID(a.petId).value.nome, donos.GetByID(a.donoId).value.nome,
                                         petshops.GetByID(a.petshopId).value.nome)
    {
      match pets.GetByID(a.petId)
      case Err(_) => Err(FetchPetInfoFailed)
      case Ok(pet) =>
        match donos.GetByID(a.donoId)
        case Err(_) => Err(FetchDonoInfoFailed)
        case Ok(dono) =>
          match petshops.GetByID(a.petshopId)
          case Err(_) => Err(FetchPetshopInfoFailed)
          case Ok(petshop) => Ok(ToView(a, pet.nome, dono.nome, petshop.nome))
    }

    /** An appointment by id; the repository's own error is passed on unchanged. */
    function GetByID(id: Id): (r: Result<AgendamentoView>)
      reads agendamentos, pets, donos, petshops
      ensures agendamentos.GetByID(id).Err? ==> r == Err(agendamentos.GetByID(id).error)
      ensures r.Ok? ==> agendamentos.GetByID(id).Ok? && r.value.id == id
      ensures agendamentos.GetByID(id).Ok? ==> r == Present(agendamentos.GetByID(id).value)
    {
      match agendamentos.GetByID(id)
      case Err(e) => Err(e)
      case Ok(a) => Present(a)
    }

    /**
     * The responses for a list of appointments, in list order, silently
     * skipping every appointment whose pet, owner or petshop cannot be read.
     */
    function PresentAll(list: seq<Agendamento>): (r: seq<AgendamentoView>)
      reads pets, donos, petshops
      ensures |r| <= |list|
    {
      if list == [] then []
      else
        var n := |list| - 1;
        var init := PresentAll(list[..n]);
        match Present(list[n])
        case Err(_) => init
        case Ok(v) => init + [v]
    }

    /** Every response describes an appointment of the list. */
    lemma {:induction false} PresentAllSound(list: seq<Agendamento>)
      ensures forall v | v in PresentAll(list) :: exists a | a in list :: Present(a) == Ok(v)
    {
      if list != [] {
        var n := |list| - 1;
        PresentAllSound(list[..n]);
        forall v | v in PresentAll(list) ensures exists a | a in list :: Present(a) == Ok(v) {
          if v in PresentAll(list[..n]) {
            var a :| a in list[..n] && Present(a) == Ok(v);
            assert a in list;
          } else {
            assert Present(list[n]) == Ok(v);
          }
        }
      }
    }

    /** Only the appointments whose parties cannot be read are missing from the responses. */
    lemma {:induction false} PresentAllComplete(list: seq<Agendamento>)
      ensures forall a | a in list && Present(a).Ok? :: Present(a).value in PresentAll(list)
    {
      if list != [] {
        var n := |list| - 1;
        PresentAllComplete(list[..n]);
        forall a | a in list && Present(a).Ok? ensures Present(a).value in PresentAll(list) {
          if a != list[n] {
            var i :| 0 <= i < |list| && list[i] == a;
            assert list[..n][i] == a;
          }
        }
      }
    }

    /** Presenting a list ordered latest first keeps the responses latest first. */
    lemma {:induction false} PresentAllSorted(list: seq<Agendamento>)
      requires SortedDesc(list, Agendada)
      ensures LatestFirst(PresentAll(list))
    {
      if list != [] {
        var n := |list| - 1;
        var init := list[..n];
        SortedDescSplit(list, Agendada);
        PresentAllSorted(init);
        PresentAllAtLeast(init, list[n].dataAgendada);
        PresentAllSnoc(list, n);
        assert list[..n + 1] == list;
        var last := Present(list[n]);
        if last.Ok? {
          LatestFirstSnoc(PresentAll(init), last.value);
        }
      }
    }

    /** Responses are no earlier than the earliest appointment listed. */
    lemma {:induction false} PresentAllAtLeast(list: seq<Agendamento>, t: Time)
      requires forall a | a in list :: a.dataAgendada >= t
      ensures forall v | v in PresentAll(list) :: v.dataAgendada >= t
    {
      if list != [] {
        PresentAllAtLeast(list[..|list| - 1], t);
      }
    }

    /** The responses for appointments of one owner are all of that owner. */
    lemma {:induction false} PresentAllOfDono(list: seq<Agendamento>, donoId: Id)
      requires forall i | 0 <= i < |list| :: list[i].donoId == donoId
      ensures forall v | v in PresentAll(list) :: v.donoId == donoId
    {
      if list != [] {
        PresentAllOfDono(list[..|list| - 1], donoId);
      }
    }

    /** The responses for appointments at one petshop are all of that petshop. */
    lemma {:induction false} PresentAllOfPetshop(list: seq<Agendamento>, petshopId: Id)
      requires forall i | 0 <= i < |list| :: list[i].petshopId == petshopId
      ensures forall v | v in PresentAll(list) :: v.petshopId == petshopId
    {
      if list != [] {
        PresentAllOfPetshop(list[..|list| - 1], petshopId);
      }
    }

    /** One more appointment extends the responses of the prefix. */
    lemma PresentAllSnoc(list: seq<Agendamento>, k: nat)
      requires k < |list|
      ensures PresentAll(list[..k + 1]) ==
        PresentAll(list[..k]) + (if Present(list[k]).Ok? then [Present(list[k]).value] else [])
    {
      assert list[..k + 1][..k] == list[..k];
    }

    /** Once the parties and the date are settled, the items and the total decide the plan. */
    lemma PlanCreateAfterParties(dto: AgendamentoCreate, now: Time, p: Parties, t: Time)
      requires ResolveParties(dto) == Ok(p) && ScheduleDate(dto.dataAgendada, now) == Ok(t)
      ensures PlanItems(dto.itens, p.petshop.id, NilId).Err? ==>
        PlanCreate(dto, now) == Err(PlanItems(dto.itens, p.petshop.id, NilId).error)
      ensures PlanItems(dto.itens, p.petshop.id, NilId).Ok? ==>
        var items := PlanItems(dto.itens, p.petshop.id, NilId).value;
        PlanCreate(dto, now) ==
          if Sum(PricesPrevistos(items)) != dto.totalPrevisto then Err(TotalMismatch)
          else Ok(Draft(p, Agendamento(NilId, p.dono.id, p.pet.id, p.petshop.id, t, Pendente,
                                       dto.observacoes, dto.totalPrevisto, items)))
    {
    }

    /**
     * Books an appointment. Every check runs before anything is written;
     * the appointment is inserted as pending with its items, and the
     * response carries the names found while checking.
     */
    method Create(dto: AgendamentoCreate, now: Time, newId: Id, itemIds: nat -> Id) returns (r: Result<AgendamentoView>)
      requires agendamentos.Valid()
      modifies agendamentos
      ensures agendamentos.Valid() && agendamentos.failing == old(agendamentos.failing)
      ensures old(PlanCreate(dto, now)).Err? ==>
        r == Err(old(PlanCreate(dto, now)).error) && agendamentos.rows == old(agendamentos.rows)
      ensures old(PlanCreate(dto, now)).Ok? ==>
        var d := old(PlanCreate(dto, now)).value;
        var row := Inserted(d.agendamento, newId, itemIds);
        if Insert !in agendamentos.failing && !old(agendamentos.HasId(newId)) then
          agendamentos.rows == old(agendamentos.rows) + [row] &&
          r == Ok(ToView(row, d.parties.pet.nome, d.parties.dono.nome, d.parties.petshop.nome))
        else
          agendamentos.rows == old(agendamentos.rows) && r == Err(CreateAgendamentoFailed)
    {
      var parties := ResolveParties(dto);
      if parties.Err? {
        return Err(parties.error);
      }
      var p := parties.value;
      var when := ScheduleDate(dto.dataAgendada, now);
      if when.Err? {
        return Err(when.error);
      }
      var items, total := BuildItems(dto.itens, p.petshop.id, NilId);
      PlanCreateAfterParties(dto, now, p, when.value);
      if items.Err? {
        return Err(items.error);
      }
      if total != dto.totalPrevisto {
        return Err(TotalMismatch);
      }
      var a := Agendamento(NilId, p.dono.id, p.pet.id, p.petshop.id, when.value, Pendente,
                           dto.observacoes, dto.totalPrevisto, items.value);
      var created := agendamentos.Create(a, newId, itemIds);
      if created.Err? {
        return Err(CreateAgendamentoFailed);
      }
      r := Ok(ToView(created.value, p.pet.nome, p.dono.nome, p.petshop.nome));
    }

    /**
     * A reschedule request checked in full against the stored appointment:
     * it must exist and still be open, the new date must not be past, and
     * the items are checked against the appointment's own petshop.
     */
    function PlanUpdate(id: Id, dto: AgendamentoUpdate, now: Time): (r: Result<Agendamento>)
      reads agendamentos, servicos
      ensures agendamentos.GetByID(id).Err? ==>
        r == Err(LookupError(agendamentos.GetByID(id).error, NotFound, CheckAgendamentoFailed))
      ensures agendamentos.GetByID(id).Ok? && agendamentos.GetByID(id).value.status == Cancelado ==>
        r == Err(CancelledNotEditable)
      ensures agendamentos.GetByID(id).Ok? && agendamentos.GetByID(id).value.status == Concluido ==>
        r == Err(ConcludedNotEditable)
      ensures r.Ok? ==> agendamentos.GetByID(id).Ok?
      ensures r.Ok? ==> var stored := agendamentos.GetByID(id).value;
        r.value.(dataAgendada := stored.dataAgendada, observacoes := stored.observacoes,
                 totalPrevisto := stored.totalPrevisto, itens := stored.itens) == stored &&
        r.value.dataAgendada >= now && r.value.observacoes == dto.observacoes &&
        r.value.totalPrevisto == dto.totalPrevisto &&
        Sum(PricesPrevistos(r.value.itens)) == dto.totalPrevisto &&
        PlanItems(dto.itens, stored.petshopId, stored.id) == Ok(r.value.itens)
    {
      match agendamentos.GetByID(id)
      case Err(e) => Err(LookupError(e, NotFound, CheckAgendamentoFailed))
      case Ok(a) =>
        if a.status == Cancelado then Err(CancelledNotEditable)
        else if a.status == Concluido then Err(ConcludedNotEditable)
        else match ScheduleDate(dto.dataAgendada, now)
          case Err(e) => Err(e)
          case Ok(t) =>
            match PlanItems(dto.itens, a.petshopId, a.id)
            case Err(e) => Err(e)
            case Ok(items) =>
              if Sum(PricesPrevistos(items)) != dto.totalPrevisto then Err(TotalMismatch)
              else Ok(a.(dataAgendada := t, observacoes := dto.observacoes,
                         totalPrevisto := dto.totalPrevisto, itens := items))
    }

    /** A cancelled or concluded appointment cannot be rescheduled. */
    lemma ClosedNotEditable(id: Id, dto: AgendamentoUpdate, now: Time)
      requires agendamentos.GetByID(id).Ok? && agendamentos.GetByID(id).value.status.IsTerminal()
      ensures PlanUpdate(id, dto, now).Err?
    {
    }

    /**
     * Reschedules an open appointment: date, notes, total and items are
     * replaced in one transaction; the response is built from the saved
     * record and fresh lookups of its parties.
     */
    method Update(id: Id, dto: AgendamentoUpdate, now: Time, itemIds: nat -> Id) returns (r: Result<AgendamentoView>)
      requires agendamentos.Valid()
      modifies agendamentos
      ensures agendamentos.Valid() && agendamentos.failing == old(agendamentos.failing)
      ensures old(PlanUpdate(id, dto, now)).Err? ==>
        r == Err(old(PlanUpdate(id, dto, now)).error) && agendamentos.rows == old(agendamentos.rows)
      ensures old(PlanUpdate(id, dto, now)).Ok? ==>
        var planned := old(PlanUpdate(id, dto, now)).value;
        var row := Saved(planned, itemIds);
        if Save !in agendamentos.failing then
          agendamentos.rows == old(agendamentos.rows)[IndexOfKey(old(agendamentos.rows), AgendamentoKey, id) := row] &&
          r == Present(row)
        else
          agendamentos.rows == old(agendamentos.rows) && r == Err(UpdateAgendamentoFailed)
    {
      var found := agendamentos.GetByID(id);
      if found.Err? {
        return Err(LookupError(found.error, NotFound, CheckAgendamentoFailed));
      }
      var a := found.value;
      if a.status == Cancelado {
        return Err(CancelledNotEditable);
      }
      if a.status == Concluido {
        return Err(ConcludedNotEditable);
      }
      var when := ScheduleDate(dto.dataAgendada, now);
      if when.Err? {
        return Err(when.error);
      }
      a := a.(dataAgendada := when.value, observacoes := dto.observacoes, totalPrevisto := dto.totalPrevisto);
      var items, total := BuildItems(dto.itens, a.petshopId, a.id);
      if items.Err? {
        return Err(items.error);
      }
      if total != dto.totalPrevisto {
        return Err(TotalMismatch);
      }
      a := a.(itens := items.value);
      var saved := agendamentos.Update(a, itemIds);
      if saved.Err? {
        return Err(UpdateAgendamentoFailed);
      }
      r := Present(Saved(a, itemIds));
    }

    /**
     * Changes an appointment's status, refusing to reopen a cancelled or a
     * concluded one. The response is built from the record read back after
     * the write.
     */
    method UpdateStatus(id: Id, novo: Status) returns (r: Result<AgendamentoView>)
      requires agendamentos.Valid() && novo != Unset
      modifies agendamentos
      ensures agendamentos.Valid() && agendamentos.failing == old(agendamentos.failing)
      ensures old(agendamentos.GetByID(id)).Err? ==>
        r == Err(LookupError(old(agendamentos.GetByID(id)).error, NotFound, CheckAgendamentoFailed)) &&
        agendamentos.rows == old(agendamentos.rows)
      ensures old(agendamentos.GetByID(id)).Ok? ==>
        var cur := old(agendamentos.GetByID(id)).value;
        var k := IndexOfKey(old(agendamentos.rows), AgendamentoKey, id);
        if TransitionError(cur.status, novo).Some? then
          r == Err(TransitionError(cur.status, novo).value) && agendamentos.rows == old(agendamentos.rows)
        else if SaveStatus in agendamentos.failing then
          r == Err(UpdateStatusFailed) && agendamentos.rows == old(agendamentos.rows)
        else
          k < |old(agendamentos.rows)| &&
          agendamentos.rows == old(agendamentos.rows)[k := cur.(status := novo)] &&
          r == Present(cur.(status := novo))
    {
      var found := agendamentos.GetByID(id);
      if found.Err? {
        return Err(LookupError(found.error, NotFound, CheckAgendamentoFailed));
      }
      var cur := found.value;
      ghost var k := IndexOfKey(agendamentos.rows, AgendamentoKey, id);
      assert k < |agendamentos.rows| && agendamentos.rows[k] == cur;
      if cur.status == Cancelado && novo != Cancelado {
        return Err(CancelledIsFinal);
      }
      if cur.status == Concluido && novo != Concluido {
        return Err(ConcludedIsFinal);
      }
      var written := agendamentos.UpdateStatus(id, novo);
      if written.Err? {
        return Err(UpdateStatusFailed);
      }
      DistinctFind(agendamentos.rows, AgendamentoKey, k);
      var updated := agendamentos.GetByID(id);
      if updated.Err? {
        // The row was read under the same id a moment ago and nothing removed it.
        assert false;
      }
      r := Present(updated.value);
    }

    /** An owner's appointments, latest first, each with the names of its parties. */
    method GetByDonoID(donoId: Id) returns (r: Result<seq<AgendamentoView>>)
      ensures donos.GetByID(donoId).Err? ==>
        r == Err(LookupError(donos.GetByID(donoId).error, DonoNotFound, CheckDonoFailed))
      ensures donos.GetByID(donoId).Ok? && agendamentos.GetByDonoID(donoId).Err? ==>
        r == Err(ListAgendamentosFailed)
      ensures donos.GetByID(donoId).Ok? && agendamentos.GetByDonoID(donoId).Ok? ==>
        r == Ok(PresentAll(agendamentos.GetByDonoID(donoId).value))
      ensures r.Ok? ==> forall v | v in r.value :: v.donoId == donoId
      ensures r.Ok? ==> LatestFirst(r.value)
    {
      var dono := donos.GetByID(donoId);
      if dono.Err? {
        return Err(LookupError(dono.error, DonoNotFound, CheckDonoFailed));
      }
      var list := agendamentos.GetByDonoID(donoId);
      if list.Err? {
        return Err(ListAgendamentosFailed);
      }
      var views := PresentList(list.value);
      PresentAllSorted(list.value);
      forall i | 0 <= i < |list.value| ensures list.value[i].donoId == donoId {
        assert list.value[i] in list.value;
      }
      PresentAllOfDono(list.value, donoId);
      r := Ok(views);
    }

    /** A petshop's appointments, latest first, each with the names of its parties. */
    method GetByPetshopID(petshopId: Id) returns (r: Result<seq<AgendamentoView>>)
      ensures petshops.GetByID(petshopId).Err? ==>
        r == Err(LookupError(petshops.GetByID(petshopId).error, PetshopNotFound, CheckPetshopFailed))
      ensures petshops.GetByID(petshopId).Ok? && agendamentos.GetByPetshopID(petshopId).Err? ==>
        r == Err(ListAgendamentosFailed)
      ensures petshops.GetByID(petshopId).Ok? && agendamentos.GetByPetshopID(petshopId).Ok? ==>
        r == Ok(PresentAll(agendamentos.GetByPetshopID(petshopId).value))
      ensures r.Ok? ==> forall v | v in r.value :: v.petshopId == petshopId
      ensures r.Ok? ==> LatestFirst(r.value)
    {
      var petshop := petshops.GetByID(petshopId);
      if petshop.Err? {
        return Err(LookupError(petshop.error, PetshopNotFound, CheckPetshopFailed));
      }
      var list := agendamentos.GetByPetshopID(petshopId);
      if list.Err? {
        return Err(ListAgendamentosFailed);
      }
      var views := PresentList(list.value);
      PresentAllSorted(list.value);
      forall i | 0 <= i < |list.value| ensures list.value[i].petshopId == petshopId {
        assert list.value[i] in list.value;
      }
      PresentAllOfPetshop(list.value, petshopId);
      r := Ok(views);
    }

    /** The loop both listings share: present each appointment, skipping the unreadable ones. */
    method PresentList(list: seq<Agendamento>) returns (views: seq<AgendamentoView>)
      ensures views == PresentAll(list)
    {
      views := [];
      var k := 0;
      while k < |list|
        invariant k <= |list|
        invariant views == PresentAll(list[..k])
      {
        PresentAllSnoc(list, k);
        var v := Present(list[k]);
        if v.Ok? {
          views := views + [v.value];
        }
        k := k + 1;
      }
      assert list[..k] == list;
    }
  }
}
