/**
 * The pet service: registration of a pet under an existing owner, lookup
 * by id and the pets of one owner.
 */
module PetService {
  import opened Common
  import opened Entities
  import opened Tables
  import opened Dtos
  import opened DonoRepo
  import opened PetRepo

  function ToView(p: Pet): (v: PetView)
    ensures v.id == p.id && v.donoId == p.donoId
  {
    PetView(p.id, p.nome, p.especie, p.raca, p.nascimento, p.donoId)
  }

  function FromView(v: PetView): Pet
  {
    Pet(v.id, v.nome, v.especie, v.raca, v.nascimento, v.donoId)
  }

  /** The response carries every column of the pet (its timestamps aside). */
  lemma ViewRoundTrip(p: Pet)
    ensures FromView(ToView(p)) == p
  {
  }

  /** A pet as registered: the request's data under the parsed owner id. */
  function NewPet(dto: PetCreate, donoId: Id): (p: Pet)
    ensures p.donoId == donoId && p.nome == dto.nome && p.especie == dto.especie
    ensures p.raca == dto.raca && p.nascimento == dto.nascimento
  {
    Pet(NilId, dto.nome, dto.especie, dto.raca, dto.nascimento, donoId)
  }

  /** The responses for a list of pets, in list order. */
  function ViewsOf(list: seq<Pet>): (r: seq<PetView>)
    ensures |r| == |list| && forall k | 0 <= k < |r| :: r[k] == ToView(list[k])
  {
    seq(|list|, k requires 0 <= k < |list| => ToView(list[k]))
  }

  /** The responses are exactly the listed pets. */
  lemma ViewsOfMembers(list: seq<Pet>)
    ensures forall v | v in ViewsOf(list) :: FromView(v) in list
    ensures forall p | p in list :: ToView(p) in ViewsOf(list)
  {
    var r := ViewsOf(list);
    forall v | v in r ensures FromView(v) in list {
      var i :| 0 <= i < |r| && r[i] == v;
      ViewRoundTrip(list[i]);
    }
    forall p | p in list ensures ToView(p) in r {
      var i :| 0 <= i < |list| && list[i] == p;
      assert r[i] == ToView(p);
    }
  }

  /** Builds the responses one pet at a time. */
  method PresentList(list: seq<Pet>) returns (views: seq<PetView>)
    ensures views == ViewsOf(list)
  {
    views := [];
    var k := 0;
    while k < |list|
      invariant k <= |list|
      invariant views == ViewsOf(list[..k])
    {
      views := views + [ToView(list[k])];
      k := k + 1;
    }
    assert list[..k] == list;
  }

  /** The error an owner lookup turns into. */
  function OwnerError(e: Error): (r: Error)
    ensures e == NotFound <==> r == DonoNotFound
    ensures r == DonoNotFound || r == CheckDonoFailed
  {
    if e == NotFound then DonoNotFound else CheckDonoFailed
  }

  class PetService {
    const pets: PetRepository
    const donos: DonoRepository

    constructor (pets: PetRepository, donos: DonoRepository)
      ensures this.pets == pets && this.donos == donos
    {
      this.pets := pets;
      this.donos := donos;
    }

    /** Registers a pet under an owner that exists; a malformed owner id fails before any lookup. */
    method Create(dto: PetCreate, newId: Id) returns (r: Result<PetView>)
      requires pets.Valid()
      modifies pets
      ensures pets.Valid() && pets.failing == old(pets.failing)
      ensures ParseId(dto.donoId).None? ==> r == Err(InvalidDonoId) && pets.rows == old(pets.rows)
      ensures ParseId(dto.donoId).Some? && donos.GetByID(dto.donoId).Err? ==>
        r == Err(OwnerError(donos.GetByID(dto.donoId).error)) && pets.rows == old(pets.rows)
      ensures ParseId(dto.donoId).Some? && donos.GetByID(dto.donoId).Ok? ==>
        var row := NewPet(dto, ParseId(dto.donoId).value).(id := newId);
        if Insert in pets.failing || old(pets.HasId(newId)) then
          r == Err(CreatePetFailed) && pets.rows == old(pets.rows)
        else r == Ok(ToView(row)) && pets.rows == old(pets.rows) + [row]
      ensures r.Ok? ==> r.value.donoId == dto.donoId && donos.HasId(r.value.donoId)
    {
      var donoId := ParseId(dto.donoId);
      if donoId.None? {
        return Err(InvalidDonoId);
      }
      var dono := donos.GetByID(donoId.value);
      if dono.Err? {
        return Err(OwnerError(dono.error));
      }
      var created := pets.Create(NewPet(dto, donoId.value), newId);
      if created.Err? {
        return Err(CreatePetFailed);
      }
      r := Ok(ToView(created.value));
    }

    /** A pet by id; every failure of the lookup is reported as "not found". */
    function GetByID(id: Id): (r: Result<PetView>)
      reads pets
      ensures r.Err? ==> r.error == NotFound
      ensures r.Ok? <==> FindById !in pets.failing && pets.HasId(id)
      ensures r.Ok? ==> r.value.id == id && FromView(r.value) in pets.rows
    {
      match pets.GetByID(id)
      case Err(_) => Err(NotFound)
      case Ok(p) => Ok(ToView(p))
    }

    /** All pets of an owner that exists, in storage order. */
    method GetByDonoID(donoId: Id) returns (r: Result<seq<PetView>>)
      ensures donos.GetByID(donoId).Err? ==> r == Err(OwnerError(donos.GetByID(donoId).error))
      ensures donos.GetByID(donoId).Ok? && pets.GetByDonoID(donoId).Err? ==> r == Err(ListPetsFailed)
      ensures donos.GetByID(donoId).Ok? && pets.GetByDonoID(donoId).Ok? ==>
        r == Ok(ViewsOf(pets.GetByDonoID(donoId).value))
      ensures r.Ok? ==> forall v | v in r.value :: v.donoId == donoId && FromView(v) in pets.rows
      ensures r.Ok? ==> forall p | p in pets.rows && p.donoId == donoId :: ToView(p) in r.value
    {
      var dono := donos.GetByID(donoId);
      if dono.Err? {
        return Err(OwnerError(dono.error));
      }
      var list := pets.GetByDonoID(donoId);
      if list.Err? {
        return Err(ListPetsFailed);
      }
      var views := PresentList(list.value);
      ViewsOfMembers(list.value);
      r := Ok(views);
    }
  }
}
