/**
 * The service-catalogue service: a petshop creates, renames, reprices
 * and removes the services it offers. Within one petshop no two services
 * share a name.
 */
module ServicoService {
  import opened Common
  import opened Entities
  import opened Tables
  import opened Dtos
  import opened PetshopRepo
  import opened ServicoRepo

  function ToView(s: Servico): (v: ServicoView)
    ensures v.id == s.id && v.petshopId == s.petshopId && v.ativo == s.ativo
  {
    ServicoView(s.id, s.petshopId, s.nome, s.descricao, s.precoBase, s.ativo)
  }

  function FromView(v: ServicoView): Servico
  {
    Servico(v.id, v.petshopId, v.nome, v.descricao, v.precoBase, v.ativo)
  }

  /** The response carries every column of the service (its timestamps aside). */
  lemma ViewRoundTrip(s: Servico)
    ensures FromView(ToView(s)) == s
  {
  }

  /** A new service as the petshop submits it: active from the start. */
  function NewServico(petshopId: Id, dto: ServicoInput): (s: Servico)
    ensures s.ativo && s.id == NilId && s.petshopId == petshopId
    ensures s.nome == dto.nome && s.descricao == dto.descricao && s.precoBase == dto.precoBase
  {
    Servico(NilId, petshopId, dto.nome, dto.descricao, dto.precoBase, true)
  }

  /**
   * A service after an update: name, description and base price come from
   * the request; its id, petshop and active flag are kept.
   */
  function Edited(s: Servico, dto: ServicoInput): (r: Servico)
    ensures r.id == s.id && r.petshopId == s.petshopId && r.ativo == s.ativo
    ensures FromView(ToView(r)).(nome := s.nome, descricao := s.descricao, precoBase := s.precoBase) == s
    ensures r.nome == dto.nome && r.descricao == dto.descricao && r.precoBase == dto.precoBase
  {
    s.(nome := dto.nome, descricao := dto.descricao, precoBase := dto.precoBase)
  }

  /** The responses for a list of services, in list order. */
  function ViewsOf(list: seq<Servico>): (r: seq<ServicoView>)
    ensures |r| == |list| && forall k | 0 <= k < |r| :: r[k] == ToView(list[k])
  {
    seq(|list|, k requires 0 <= k < |list| => ToView(list[k]))
  }

  /** The responses are exactly the listed services. */
  lemma ViewsOfMembers(list: seq<Servico>)
    ensures forall v | v in ViewsOf(list) :: FromView(v) in list
    ensures forall s | s in list :: ToView(s) in ViewsOf(list)
  {
    var r := ViewsOf(list);
    forall v | v in r ensures FromView(v) in list {
      var i :| 0 <= i < |r| && r[i] == v;
      ViewRoundTrip(list[i]);
    }
    forall s | s in list ensures ToView(s) in r {
      var i :| 0 <= i < |list| && list[i] == s;
      assert r[i] == ToView(s);
    }
  }

  /** Builds the responses one service at a time. */
  method PresentList(list: seq<Servico>) returns (views: seq<ServicoView>)
    ensures views == ViewsOf(list)
  {
    views := [];
    var k := 0;
    while k < |list|
      invariant k <= |list|
      invariant views == ViewsOf(list[..k])
    {
      views := views + [ToView(list[k])];
      k := k + 1;
    }
    assert list[..k] == list;
  }

  class ServicoService {
    const servicos: ServicoRepository
    const petshops: PetshopRepository

    constructor (servicos: ServicoRepository, petshops: PetshopRepository)
      ensures this.servicos == servicos && this.petshops == petshops
    {
      this.servicos := servicos;
      this.petshops := petshops;
    }

    /** The table invariant the service keeps: ids and, per petshop, names are unique. */
    ghost predicate Valid()
      reads servicos
    {
      servicos.Valid() && NamesDistinct(servicos.rows)
    }

    /** Adds an active service to an existing petshop, unless the petshop already has one by that name. */
    method Create(petshopId: Id, dto: ServicoInput, newId: Id) returns (r: Result<ServicoView>)
      requires Valid()
      modifies servicos
      ensures Valid() && servicos.failing == old(servicos.failing)
      ensures petshops.GetByID(petshopId).Err? ==>
        r == Err(if petshops.GetByID(petshopId).error == NotFound then NotFound else CheckPetshopFailed) &&
        servicos.rows == old(servicos.rows)
      ensures petshops.GetByID(petshopId).Ok? ==>
        var existing := old(servicos.GetByName(petshopId, dto.nome));
        var row := NewServico(petshopId, dto).(id := newId);
        if existing.Err? then r == Err(CheckExistingServicoFailed) && servicos.rows == old(servicos.rows)
        else if existing.value.Some? then r == Err(AlreadyExists) && servicos.rows == old(servicos.rows)
        else if Insert in servicos.failing || old(servicos.HasId(newId)) then
          r == Err(CreateServicoFailed) && servicos.rows == old(servicos.rows)
        else r == Ok(ToView(row)) && servicos.rows == old(servicos.rows) + [row]
    {
      var petshop := petshops.GetByID(petshopId);
      if petshop.Err? {
        return Err(if petshop.error == NotFound then NotFound else CheckPetshopFailed);
      }
      var existing := servicos.GetByName(petshopId, dto.nome);
      if existing.Err? {
        return Err(CheckExistingServicoFailed);
      }
      if existing.value.Some? {
        return Err(AlreadyExists);
      }
      var s := NewServico(petshopId, dto);
      NamesDistinctSnoc(servicos.rows, s.(id := newId));
      var created := servicos.Create(s, newId);
      if created.Err? {
        return Err(CreateServicoFailed);
      }
      r := Ok(ToView(created.value));
    }

    /** A service by id; the repository's error is passed on unchanged. */
    function GetByID(id: Id): (r: Result<ServicoView>)
      reads servicos
      ensures r.Ok? <==> servicos.GetByID(id).Ok?
      ensures r.Err? ==> r.error == servicos.GetByID(id).error
      ensures r.Ok? ==> FromView(r.value) in servicos.rows && r.value.id == id
    {
      match servicos.GetByID(id)
      case Err(e) => Err(e)
      case Ok(s) => Ok(ToView(s))
    }

    /**
     * Renames or reprices a service. A new name is refused when another
     * service of the same petshop already holds it; keeping the name needs
     * no check.
     */
    method Update(id: Id, dto: ServicoInput) returns (r: Result<ServicoView>)
      requires Valid()
      modifies servicos
      ensures Valid() && servicos.failing == old(servicos.failing)
      ensures old(servicos.GetByID(id)).Err? ==>
        r == Err(old(servicos.GetByID(id)).error) && servicos.rows == old(servicos.rows)
      ensures old(servicos.GetByID(id)).Ok? ==>
        var s := old(servicos.GetByID(id)).value;
        var clash := old(servicos.GetByName(s.petshopId, dto.nome));
        var k := IndexOfKey(old(servicos.rows), ServicoKey, id);
        if s.nome != dto.nome && clash.Err? then
          r == Err(CheckExistingServicoFailed) && servicos.rows == old(servicos.rows)
        else if s.nome != dto.nome && clash.value.Some? && clash.value.value.id != s.id then
          r == Err(AlreadyExists) && servicos.rows == old(servicos.rows)
        else if Save in servicos.failing then
          r == Err(UpdateServicoFailed) && servicos.rows == old(servicos.rows)
        else
          k < |old(servicos.rows)| && servicos.rows == old(servicos.rows)[k := Edited(s, dto)] &&
          r == Ok(ToView(Edited(s, dto)))
    {
      var found := servicos.GetByID(id);
      if found.Err? {
        return Err(found.error);
      }
      var s := found.value;
      ghost var k := IndexOfKey(servicos.rows, ServicoKey, id);
      assert k < |servicos.rows| && servicos.rows[k] == s;
      if s.nome != dto.nome {
        var existing := servicos.GetByName(s.petshopId, dto.nome);
        if existing.Err? {
          return Err(CheckExistingServicoFailed);
        }
        if existing.value.Some? && existing.value.value.id != s.id {
          return Err(AlreadyExists);
        }
      }
      var updated := Edited(s, dto);
      forall j | 0 <= j < |servicos.rows| && j != k
        ensures !(servicos.rows[j].petshopId == updated.petshopId && servicos.rows[j].nome == updated.nome)
      {
        if s.nome == dto.nome {
          assert !(servicos.rows[j].petshopId == servicos.rows[k].petshopId && servicos.rows[j].nome == servicos.rows[k].nome);
        }
      }
      NamesDistinctUpdate(servicos.rows, k, updated);
      var saved := servicos.Update(updated);
      if saved.Err? {
        return Err(UpdateServicoFailed);
      }
      r := Ok(ToView(updated));
    }

    /** Removes a service (a soft delete); the repository's error is passed on unchanged. */
    method Delete(id: Id) returns (r: Result<()>)
      requires Valid()
      modifies servicos
      ensures Valid() && servicos.failing == old(servicos.failing)
      ensures Remove in servicos.failing ==> r == Err(InvalidData)
      ensures Remove !in servicos.failing && !old(servicos.HasId(id)) ==> r == Err(NotFound)
      ensures r.Ok? <==> Remove !in servicos.failing && old(servicos.HasId(id))
      ensures r.Ok? ==> servicos.rows == RemoveAt(old(servicos.rows), IndexOfKey(old(servicos.rows), ServicoKey, id))
      ensures r.Ok? ==> !servicos.HasId(id) && forall s | s in old(servicos.rows) && s.id != id :: s in servicos.rows
      ensures r.Err? ==> servicos.rows == old(servicos.rows)
    {
      if Remove !in servicos.failing && servicos.HasId(id) {
        NamesDistinctRemove(servicos.rows, IndexOfKey(servicos.rows, ServicoKey, id));
      }
      r := servicos.Delete(id);
    }

    /** Every service of an existing petshop, active or not, in storage order. */
    method GetByPetshopID(petshopId: Id) returns (r: Result<seq<ServicoView>>)
      ensures petshops.GetByID(petshopId).Err? ==>
        r == Err(if petshops.GetByID(petshopId).error == NotFound then NotFound else CheckPetshopFailed)
      ensures petshops.GetByID(petshopId).Ok? && servicos.GetByPetshopID(petshopId).Err? ==>
        r == Err(ListServicosFailed)
      ensures petshops.GetByID(petshopId).Ok? && servicos.GetByPetshopID(petshopId).Ok? ==>
        r == Ok(ViewsOf(servicos.GetByPetshopID(petshopId).value))
      ensures r.Ok? ==> forall v | v in r.value :: v.petshopId == petshopId && FromView(v) in servicos.rows
      ensures r.Ok? ==> forall s | s in servicos.rows && s.petshopId == petshopId :: ToView(s) in r.value
    {
      var petshop := petshops.GetByID(petshopId);
      if petshop.Err? {
        return Err(if petshop.error == NotFound then NotFound else CheckPetshopFailed);
      }
      var list := servicos.GetByPetshopID(petshopId);
      if list.Err? {
        return Err(ListServicosFailed);
      }
      var views := PresentList(list.value);
      ViewsOfMembers(list.value);
      r := Ok(views);
    }
  }
}
