/**
 * The procedure service: recording a procedure a petshop performed on a
 * pet, with the services it consisted of and their final prices, and
 * listing a pet's procedures.
 */
module ProcedimentoService {
  import opened Common
  import opened Entities
  import opened Tables
  import opened Dtos
  import opened PetRepo
  import opened PetshopRepo
  import opened ServicoRepo
  import opened ProcedimentoRepo

  /** A validated procedure, ready for insertion, with the name of its pet. */
  datatype Draft = Draft(nomePet: string, procedimento: Procedimento)

  /** The errors an item check can end with. */
  predicate ItemError(e: Error)
  {
    e == InvalidServicoId || e == ServicoNotFound || e == CheckServicoFailed || e == ServicoNotFromPetshop
  }

  function LookupError(e: Error, notFound: Error, failed: Error): Error
  {
    if e == NotFound then notFound else failed
  }

  /** A procedure's date as given: well formed, and not after `now`. */
  function PerformedDate(d: Option<Time>, now: Time): (r: Result<Time>)
    ensures r.Ok? <==> d.Some? && d.value <= now
    ensures r.Ok? ==> r.value == d.value
    ensures d.None? ==> r == Err(InvalidDate)
    ensures d.Some? && d.value > now ==> r == Err(FutureDate)
  {
    match d
    case None => Err(InvalidDate)
    case Some(t) => if t > now then Err(FutureDate) else Ok(t)
  }

  function ItemView(it: ItemProcedimento): ItemProcedimentoView
  {
    ItemProcedimentoView(it.id, it.servicoId, it.nomeServico, it.precoFinal)
  }

  /** The response for a procedure, given the name of its pet. */
  function ToView(p: Procedimento, nomePet: string): (v: ProcedimentoView)
    ensures v.id == p.id && v.petId == p.petId && v.nomePet == nomePet
    ensures v.dataRealizacao == p.dataRealizacao
  {
    ProcedimentoView(
      p.id, p.petId, nomePet, p.petshopId, p.nomePetshop, p.dataRealizacao, p.observacoes, p.total,
      seq(|p.itens|, k requires 0 <= k < |p.itens| => ItemView(p.itens[k])))
  }

  /** The procedure a response describes. */
  function FromView(v: ProcedimentoView): Procedimento
  {
    Procedimento(
      v.id, v.petId, v.petshopId, v.nomePetshop, v.dataRealizacao, v.observacoes, v.total,
      seq(|v.itens|, k requires 0 <= k < |v.itens| =>
        ItemProcedimento(v.itens[k].id, v.id, v.itens[k].servicoId, v.itens[k].nomeServico, v.itens[k].precoFinal)))
  }

  /** The response loses nothing of a stored procedure (its timestamps aside). */
  lemma ViewRoundTrip(p: Procedimento, nomePet: string)
    requires ItemsOf(p)
    ensures FromView(ToView(p, nomePet)) == p
  {
    assert FromView(ToView(p, nomePet)).itens == p.itens;
  }

  /** The responses for a pet's procedures, in list order. */
  function ViewsOf(list: seq<Procedimento>, nomePet: string): (r: seq<ProcedimentoView>)
    ensures |r| == |list|
    ensures forall k | 0 <= k < |r| :: r[k] == ToView(list[k], nomePet)
  {
    seq(|list|, k requires 0 <= k < |list| => ToView(list[k], nomePet))
  }

  /** The response loop: one response per procedure, in list order. */
  method PresentList(list: seq<Procedimento>, nomePet: string) returns (views: seq<ProcedimentoView>)
    ensures views == ViewsOf(list, nomePet)
  {
    views := [];
    var k := 0;
    while k < |list|
      invariant k <= |list|
      invariant views == ViewsOf(list[..k], nomePet)
    {
      views := views + [ToView(list[k], nomePet)];
      k := k + 1;
    }
    assert list[..k] == list;
  }

  /** The responses for a pet's procedures ordered latest first are of that pet, latest first. */
  lemma ViewsOfPetLatestFirst(list: seq<Procedimento>, petId: Id, nomePet: string)
    requires SortedDesc(list, Realizacao)
    requires forall p | p in list :: p.petId == petId
    ensures forall v | v in ViewsOf(list, nomePet) :: v.petId == petId
    ensures var r := ViewsOf(list, nomePet);
      forall i, j | 0 <= i < j < |r| :: r[i].dataRealizacao >= r[j].dataRealizacao
  {
    var r := ViewsOf(list, nomePet);
    forall v | v in r ensures v.petId == petId {
      var i :| 0 <= i < |r| && r[i] == v;
      assert list[i] in list;
    }
    forall i, j | 0 <= i < j < |r| ensures r[i].dataRealizacao >= r[j].dataRealizacao {
      assert Realizacao(list[i]) >= Realizacao(list[j]);
    }
  }

  class ProcedimentoService {
    const procedimentos: ProcedimentoRepository
    const pets: PetRepository
    const petshops: PetshopRepository
    const servicos: ServicoRepository

    constructor (procedimentos: ProcedimentoRepository, pets: PetRepository,
                 petshops: PetshopRepository, servicos: ServicoRepository)
      ensures this.procedimentos == procedimentos && this.pets == pets
      ensures this.petshops == petshops && this.servicos == servicos
    {
      this.procedimentos := procedimentos;
      this.pets := pets;
      this.petshops := petshops;
      this.servicos := servicos;
    }

    /**
     * The pet and petshop of a procedure record, in the order they are
     * checked: both identifiers parse, the pet exists, the petshop exists.
     * Nothing relates the pet to the petshop.
     */
    function ResolvePetAndPetshop(dto: ProcedimentoCreate): (r: Result<(Pet, Petshop)>)
      reads pets, petshops
      ensures !IsKsuidText(dto.petId) ==> r == Err(InvalidPetId)
      ensures IsKsuidText(dto.petId) && !IsKsuidText(dto.petshopId) ==> r == Err(InvalidPetshopId)
      ensures IsKsuidText(dto.petId) && IsKsuidText(dto.petshopId) && pets.GetByID(dto.petId).Err? ==>
        r == Err(LookupError(pets.GetByID(dto.petId).error, PetNotFound, CheckPetFailed))
      ensures IsKsuidText(dto.petId) && IsKsuidText(dto.petshopId) && pets.GetByID(dto.petId).Ok? &&
              petshops.GetByID(dto.petshopId).Err? ==>
        r == Err(LookupError(petshops.GetByID(dto.petshopId).error, PetshopNotFound, CheckPetshopFailed))
      ensures r.Ok? <==>
        IsKsuidText(dto.petId) && IsKsuidText(dto.petshopId) &&
        pets.GetByID(dto.petId).Ok? && petshops.GetByID(dto.petshopId).Ok?
      ensures r.Ok? ==> r.value.0 in pets.rows && r.value.0.id == dto.petId
      ensures r.Ok? ==> r.value.1 in petshops.rows && r.value.1.id == dto.petshopId
    {
      match (ParseId(dto.petId), ParseId(dto.petshopId))
      case (None, _) => Err(InvalidPetId)
      case (Some(_), None) => Err(InvalidPetshopId)
      case (Some(petId), Some(petshopId)) =>
        match pets.GetByID(petId)
        case Err(e) => Err(LookupError(e, PetNotFound, CheckPetFailed))
        case Ok(pet) =>
          match petshops.GetByID(petshopId)
          case Err(e) => Err(LookupError(e, PetshopNotFound, CheckPetshopFailed))
          case Ok(petshop) => Ok((pet, petshop))
    }

    /**
     * One performed item, checked against the services table: the service
     * id parses, the service exists and belongs to `petshopId`. Unlike a
     * booking, an inactive service is accepted.
     */
    function CheckItem(req: ItemProcedimentoRequest, petshopId: Id): (r: Result<ItemProcedimento>)
      reads servicos
      ensures !IsKsuidText(req.servicoId) ==> r == Err(InvalidServicoId)
      ensures r.Ok? <==> IsKsuidText(req.servicoId) && servicos.GetByID(req.servicoId).Ok? &&
                         servicos.GetByID(req.servicoId).value.petshopId == petshopId
      ensures r.Ok? ==> r.value == ItemProcedimento(NilId, NilId, req.servicoId,
                                                    servicos.GetByID(req.servicoId).value.nome, req.precoFinal)
      ensures r.Err? ==> ItemError(r.error)
    {
      match ParseId(req.servicoId)
      case None => Err(InvalidServicoId)
      case Some(servicoId) =>
        match servicos.GetByID(servicoId)
        case Err(e) => Err(LookupError(e, ServicoNotFound, CheckServicoFailed))
        case Ok(s) =>
          if s.petshopId != petshopId then Err(ServicoNotFromPetshop)
          else Ok(ItemProcedimento(NilId, NilId, servicoId, s.nome, req.precoFinal))
    }

    /** The performed items checked in order; the first failure decides the error. */
    function PlanItems(reqs: seq<ItemProcedimentoRequest>, petshopId: Id): (r: Result<seq<ItemProcedimento>>)
      reads servicos
      ensures r.Ok? ==> |r.value| == |reqs|
      ensures r.Err? ==> ItemError(r.error)
    {
      if reqs == [] then Ok([])
      else
        var n := |reqs| - 1;
        match PlanItems(reqs[..n], petshopId)
        case Err(e) => Err(e)
        case Ok(items) =>
          match CheckItem(reqs[n], petshopId)
          case Err(e) => Err(e)
          case Ok(it) => Ok(items + [it])
    }

    /** An accepted list holds, at each position, the item the single check accepts. */
    lemma PlanItemsChecked(reqs: seq<ItemProcedimentoRequest>, k: nat, petshopId: Id)
      requires k < |reqs| && PlanItems(reqs, petshopId).Ok?
      ensures CheckItem(reqs[k], petshopId) == Ok(PlanItems(reqs, petshopId).value[k])
    {
      assert reqs[..|reqs|] == reqs;
      PlanItemsCheckedUpTo(reqs, |reqs|, k, petshopId);
    }

    lemma {:induction false} PlanItemsCheckedUpTo(reqs: seq<ItemProcedimentoRequest>, m: nat, k: nat, petshopId: Id)
      requires k < m <= |reqs| && PlanItems(reqs[..m], petshopId).Ok?
      ensures CheckItem(reqs[k], petshopId) == Ok(PlanItems(reqs[..m], petshopId).value[k])
    {
      PlanItemsSnoc(reqs, m - 1, petshopId);
      if k < m - 1 {
        PlanItemsCheckedUpTo(reqs, m - 1, k, petshopId);
      }
    }

    /** A list is accepted exactly when every one of its items passes the single check. */
    lemma PlanItemsOkIff(reqs: seq<ItemProcedimentoRequest>, petshopId: Id)
      ensures PlanItems(reqs, petshopId).Ok? <==>
        forall k :: 0 <= k < |reqs| ==> CheckItem(reqs[k], petshopId).Ok?
    {
      if PlanItems(reqs, petshopId).Ok? {
        forall k | 0 <= k < |reqs|
          ensures CheckItem(reqs[k], petshopId).Ok?
        {
          PlanItemsChecked(reqs, k, petshopId);
        }
      }
      if forall k :: 0 <= k < |reqs| ==> CheckItem(reqs[k], petshopId).Ok? {
        PlanItemsOkUpTo(reqs, |reqs|, petshopId);
        assert reqs[..|reqs|] == reqs;
      }
    }

    lemma {:induction false} PlanItemsOkUpTo(reqs: seq<ItemProcedimentoRequest>, m: nat, petshopId: Id)
      requires m <= |reqs|
      requires forall k :: 0 <= k < m ==> CheckItem(reqs[k], petshopId).Ok?
      ensures PlanItems(reqs[..m], petshopId).Ok?
    {
      if m == 0 {
        assert reqs[..m] == [];
      } else {
        PlanItemsOkUpTo(reqs, m - 1, petshopId);
        PlanItemsSnoc(reqs, m - 1, petshopId);
      }
    }

    /** Once a prefix of the items fails, the whole list fails the same way. */
    lemma PlanItemsStopsAtError(reqs: seq<ItemProcedimentoRequest>, k: nat, petshopId: Id)
      requires k <= |reqs| && PlanItems(reqs[..k], petshopId).Err?
      ensures PlanItems(reqs, petshopId) == PlanItems(reqs[..k], petshopId)
    {
      assert reqs[..|reqs|] == reqs;
      PlanItemsStopsUpTo(reqs, |reqs|, k, petshopId);
    }

    lemma {:induction false} PlanItemsStopsUpTo(reqs: seq<ItemProcedimentoRequest>, m: nat, k: nat, petshopId: Id)
      requires k <= m <= |reqs| && PlanItems(reqs[..k], petshopId).Err?
      ensures PlanItems(reqs[..m], petshopId) == PlanItems(reqs[..k], petshopId)
    {
      if m > k {
        PlanItemsStopsUpTo(reqs, m - 1, k, petshopId);
        PlanItemsSnoc(reqs, m - 1, petshopId);
      }
    }

    /** One more checked item extends the list of the prefix. */
    lemma PlanItemsSnoc(reqs: seq<ItemProcedimentoRequest>, k: nat, petshopId: Id)
      requires k < |reqs|
      ensures PlanItems(reqs[..k + 1], petshopId) ==
        match PlanItems(reqs[..k], petshopId)
        case Err(e) => Err(e)
        case Ok(items) =>
          match CheckItem(reqs[k], petshopId)
          case Err(e) => Err(e)
          case Ok(it) => Ok(items + [it])
    {
      assert reqs[..k + 1][..k] == reqs[..k];
    }

    /** The item loop: each item checked in turn, the final prices summed as they are accepted. */
    method BuildItems(reqs: seq<ItemProcedimentoRequest>, petshopId: Id)
      returns (r: Result<seq<ItemProcedimento>>, total: Money)
      ensures r == PlanItems(reqs, petshopId)
      ensures r.Ok? ==> total == Sum(PricesFinais(r.value))
    {
      var items: seq<ItemProcedimento> := [];
      total := 0.0;
      var k := 0;
      while k < |reqs|
        invariant k <= |reqs|
        invariant PlanItems(reqs[..k], petshopId) == Ok(items)
        invariant total == Sum(PricesFinais(items))
      {
        var item := CheckItem(reqs[k], petshopId);
        PlanItemsSnoc(reqs, k, petshopId);
        if item.Err? {
          PlanItemsStopsAtError(reqs, k + 1, petshopId);
          return Err(item.error), total;
        }
        SumSnoc(PricesFinais(items), reqs[k].precoFinal);
        assert PricesFinais(items + [item.value]) == PricesFinais(items) + [reqs[k].precoFinal];
        items := items + [item.value];
        total := total + reqs[k].precoFinal;
        k := k + 1;
      }
      assert reqs[..k] == reqs;
      r := Ok(items);
    }

    /**
     * A procedure record checked in full: pet, petshop, date, items, and a
     * declared total within one cent of the sum of the final prices.
     */
    function PlanCreate(dto: ProcedimentoCreate, now: Time): (r: Result<Draft>)
      reads pets, petshops, servicos
      ensures ResolvePetAndPetshop(dto).Err? ==> r == Err(ResolvePetAndPetshop(dto).error)
      ensures r.Ok? ==> ResolvePetAndPetshop(dto).Ok?
      ensures ResolvePetAndPetshop(dto).Ok? && PerformedDate(dto.dataRealizacao, now).Err? ==>
        r == Err(PerformedDate(dto.dataRealizacao, now).error)
      ensures r.Ok? ==> PerformedDate(dto.dataRealizacao, now) == Ok(r.value.procedimento.dataRealizacao)
      ensures r.Ok? ==> var p := r.value.procedimento;
        r.value.nomePet == ResolvePetAndPetshop(dto).value.0.nome &&
        p.nomePetshop == ResolvePetAndPetshop(dto).value.1.nome &&
        p.petId == dto.petId && p.petshopId == dto.petshopId && p.dataRealizacao <= now &&
        p.observacoes == dto.observacoes && p.total == dto.total &&
        PlanItems(dto.itens, dto.petshopId) == Ok(p.itens) &&
        WithinEpsilon(p.total, Sum(PricesFinais(p.itens)))
    {
      match ResolvePetAndPetshop(dto)
      case Err(e) => Err(e)
      case Ok((pet, petshop)) =>
        match PerformedDate(dto.dataRealizacao, now)
        case Err(e) => Err(e)
        case Ok(t) =>
          match PlanItems(dto.itens, petshop.id)
          case Err(e) => Err(e)
          case Ok(items) =>
            if !WithinEpsilon(dto.total, Sum(PricesFinais(items))) then Err(TotalMismatch)
            else Ok(Draft(pet.nome, Procedimento(NilId, pet.id, petshop.id, petshop.nome, t,
                                                 dto.observacoes, dto.total, items)))
    }

    /** Once the pet, the petshop and the date are settled, the items and the total decide the plan. */
    lemma PlanCreateAfterRefs(dto: ProcedimentoCreate, now: Time, pet: Pet, petshop: Petshop, t: Time)
      requires ResolvePetAndPetshop(dto) == Ok((pet, petshop)) && PerformedDate(dto.dataRealizacao, now) == Ok(t)
      ensures PlanItems(dto.itens, petshop.id).Err? ==>
        PlanCreate(dto, now) == Err(PlanItems(dto.itens, petshop.id).error)
      ensures PlanItems(dto.itens, petshop.id).Ok? ==>
        var items := PlanItems(dto.itens, petshop.id).value;
        PlanCreate(dto, now) ==
          if !WithinEpsilon(dto.total, Sum(PricesFinais(items))) then Err(TotalMismatch)
          else Ok(Draft(pet.nome, Procedimento(NilId, pet.id, petshop.id, petshop.nome, t,
                                               dto.observacoes, dto.total, items)))
    {
    }

    /** Records a performed procedure; every check runs before anything is written. */
    method Create(dto: ProcedimentoCreate, now: Time, newId: Id, itemIds: nat -> Id) returns (r: Result<ProcedimentoView>)
      requires procedimentos.Valid()
      modifies procedimentos
      ensures procedimentos.Valid() && procedimentos.failing == old(procedimentos.failing)
      ensures old(PlanCreate(dto, now)).Err? ==>
        r == Err(old(PlanCreate(dto, now)).error) && procedimentos.rows == old(procedimentos.rows)
      ensures old(PlanCreate(dto, now)).Ok? ==>
        var d := old(PlanCreate(dto, now)).value;
        var row := Inserted(d.procedimento, newId, itemIds);
        if Insert !in procedimentos.failing && !old(procedimentos.HasId(newId)) then
          procedimentos.rows == old(procedimentos.rows) + [row] && r == Ok(ToView(row, d.nomePet))
        else
          procedimentos.rows == old(procedimentos.rows) && r == Err(CreateProcedimentoFailed)
    {
      var refs := ResolvePetAndPetshop(dto);
      if refs.Err? {
        return Err(refs.error);
      }
      var (pet, petshop) := refs.value;
      var when := PerformedDate(dto.dataRealizacao, now);
      if when.Err? {
        return Err(when.error);
      }
      var items, total := BuildItems(dto.itens, petshop.id);
      PlanCreateAfterRefs(dto, now, pet, petshop, when.value);
      if items.Err? {
        return Err(items.error);
      }
      if dto.total < total - Epsilon || dto.total > total + Epsilon {
        return Err(TotalMismatch);
      }
      var p := Procedimento(NilId, pet.id, petshop.id, petshop.nome, when.value,
                            dto.observacoes, dto.total, items.value);
      var created := procedimentos.Create(p, newId, itemIds);
      if created.Err? {
        return Err(CreateProcedimentoFailed);
      }
      r := Ok(ToView(created.value, pet.nome));
    }

    /** A pet's procedures, latest first, each named after the pet. */
    method GetByPetID(petId: Id) returns (r: Result<seq<ProcedimentoView>>)
      ensures pets.GetByID(petId).Err? ==>
        r == Err(LookupError(pets.GetByID(petId).error, PetNotFound, CheckPetFailed))
      ensures pets.GetByID(petId).Ok? && procedimentos.GetByPetID(petId).Err? ==>
        r == Err(ListProcedimentosFailed)
      ensures pets.GetByID(petId).Ok? && procedimentos.GetByPetID(petId).Ok? ==>
        r == Ok(ViewsOf(procedimentos.GetByPetID(petId).value, pets.GetByID(petId).value.nome))
      ensures r.Ok? ==> forall v | v in r.value :: v.petId == petId
      ensures r.Ok? ==> forall i, j | 0 <= i < j < |r.value| :: r.value[i].dataRealizacao >= r.value[j].dataRealizacao
    {
      var pet := pets.GetByID(petId);
      if pet.Err? {
        return Err(LookupError(pet.error, PetNotFound, CheckPetFailed));
      }
      var list := procedimentos.GetByPetID(petId);
      if list.Err? {
        return Err(ListProcedimentosFailed);
      }
      var views := PresentList(list.value, pet.value.nome);
      ViewsOfPetLatestFirst(list.value, petId, pet.value.nome);
      r := Ok(views);
    }
  }
}
