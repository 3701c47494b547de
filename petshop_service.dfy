/**
 * The petshop service: registration of a petshop by the administration,
 * edits of its contact data and of its address, the detail view, and the
 * paginated listings (all petshops, or those of one city).
 */
module PetshopService {
  import opened Common
  import opened Entities
  import opened Tables
  import opened Text
  import opened Dtos
  import opened PetshopRepo

  /**
   * The city a search uses: the text trimmed and lower-cased, so that the
   * search ignores surrounding white space and letter case.
   */
  function NormalizeCity(city: string): (r: string)
    ensures |r| <= |city|
    ensures r == [] || (!IsSpace(r[0]) && !IsSpace(r[|r| - 1]))
    ensures forall i | 0 <= i < |r| :: !('A' <= r[i] <= 'Z')
  {
    ToLower(TrimSpace(city))
  }

  /** A normalised city is its own normal form. */
  lemma NormalizeCityIdempotent(city: string)
    ensures NormalizeCity(NormalizeCity(city)) == NormalizeCity(city)
  {
    var t := TrimSpace(city);
    TrimSpaceToLower(t);
    TrimSpaceIdempotent(city);
    ToLowerIdempotent(t);
  }

  /** Two searches that differ only in letter case or surrounding white space are the same search. */
  lemma NormalizeCityIgnoresCaseAndPadding(city: string)
    ensures NormalizeCity(ToLower(city)) == NormalizeCity(city)
    ensures NormalizeCity(TrimSpace(city)) == NormalizeCity(city)
  {
    TrimSpaceToLower(city);
    ToLowerIdempotent(TrimSpace(city));
    TrimSpaceIdempotent(city);
  }

  /** The detail view: every column except the password hash. */
  function Detail(p: Petshop): (d: PetshopDetail)
    ensures d.id == p.id && d.email == p.email && d.address == p.address
    ensures d.nota == p.nota && d.ativo == p.ativo
  {
    PetshopDetail(p.id, p.nome, p.email, p.telefone, p.address, p.descricao, p.nota, p.ativo)
  }

  /** The detail view never depends on, so never reveals, the password hash. */
  lemma DetailHidesPassword(p: Petshop, other: Digest)
    ensures Detail(p.(password := other)) == Detail(p)
  {
  }

  /** Apart from the password, the detail view is the whole record. */
  lemma DetailDeterminesRecord(p: Petshop, q: Petshop)
    requires Detail(p) == Detail(q)
    ensures p == q.(password := p.password)
  {
  }

  /** The summary a listing shows for one petshop. */
  function ListItem(p: Petshop): (i: PetshopListItem)
    ensures i.id == p.id && i.cidade == p.address.cidade && i.estado == p.address.estado
    ensures i.nome == p.nome && i.nota == p.nota && i.descricao == p.descricao
  {
    PetshopListItem(p.id, p.nome, p.address.cidade, p.address.estado, p.nota, p.descricao)
  }

  /** The summaries of a page of petshops, in page order. */
  function ItemsOf(list: seq<Petshop>): (r: seq<PetshopListItem>)
    ensures |r| == |list| && forall k | 0 <= k < |r| :: r[k] == ListItem(list[k])
  {
    seq(|list|, k requires 0 <= k < |list| => ListItem(list[k]))
  }

  /** Builds the summaries one petshop at a time. */
  method PresentList(list: seq<Petshop>) returns (items: seq<PetshopListItem>)
    ensures items == ItemsOf(list)
  {
    items := [];
    var k := 0;
    while k < |list|
      invariant k <= |list|
      invariant items == ItemsOf(list[..k])
    {
      items := items + [ListItem(list[k])];
      k := k + 1;
    }
    assert list[..k] == list;
  }

  /** A petshop as the administration registers it: active, with no rating yet. */
  function NewPetshop(dto: PetshopCreate): (p: Petshop)
    ensures p.ativo && p.nota == 0.0
    ensures p.nome == dto.nome && p.email == dto.email && p.telefone == dto.telefone
    ensures p.address == dto.address && p.descricao == dto.descricao
    ensures CheckPassword(p.password, dto.password)
  {
    Petshop(NilId, dto.nome, dto.email, dto.telefone, dto.address, dto.descricao, 0.0, true, Hash(dto.password))
  }

  /** A petshop after a contact edit: name, e-mail, phone and description from the request. */
  function WithContact(p: Petshop, dto: PetshopUpdate): (q: Petshop)
    ensures q.id == p.id && q.address == p.address && q.nota == p.nota
    ensures q.ativo == p.ativo && q.password == p.password
    ensures q.nome == dto.nome && q.email == dto.email && q.telefone == dto.telefone
    ensures q.descricao == dto.descricao
  {
    p.(nome := dto.nome, email := dto.email, telefone := dto.telefone, descricao := dto.descricao)
  }

  /** A petshop after an address edit: the seven address columns from the request. */
  function WithAddress(p: Petshop, a: Address): (q: Petshop)
    ensures q.address == a
    ensures q.(address := p.address) == p
  {
    p.(address := a)
  }

  /** The two edits touch disjoint columns, so their order does not matter. */
  lemma EditsCommute(p: Petshop, dto: PetshopUpdate, a: Address)
    ensures WithAddress(WithContact(p, dto), a) == WithContact(WithAddress(p, a), dto)
  {
  }

  class PetshopService {
    const petshops: PetshopRepository

    constructor (petshops: PetshopRepository)
      ensures this.petshops == petshops
    {
      this.petshops := petshops;
    }

    /** Registers a petshop unless its e-mail is already taken. */
    method Create(dto: PetshopCreate, newId: Id) returns (r: Result<PetshopDetail>)
      requires petshops.Valid()
      modifies petshops
      ensures petshops.Valid() && petshops.failing == old(petshops.failing)
      ensures FindByEmail in petshops.failing ==>
        r == Err(CheckExistingPetshop) && petshops.rows == old(petshops.rows)
      ensures FindByEmail !in petshops.failing && old(petshops.HasEmail(dto.email)) ==>
        r == Err(AlreadyExists) && petshops.rows == old(petshops.rows)
      ensures FindByEmail !in petshops.failing && !old(petshops.HasEmail(dto.email)) ==>
        if Insert in petshops.failing || old(petshops.HasId(newId)) then
          r == Err(CreatePetshopFailed) && petshops.rows == old(petshops.rows)
        else
          r == Ok(Detail(NewPetshop(dto).(id := newId))) &&
          petshops.rows == old(petshops.rows) + [NewPetshop(dto).(id := newId)]
    {
      var existing := petshops.GetByEmail(dto.email);
      if existing.Err? {
        return Err(CheckExistingPetshop);
      }
      if existing.value.Some? {
        return Err(AlreadyExists);
      }
      var created := petshops.Create(NewPetshop(dto), newId);
      if created.Err? {
        return Err(CreatePetshopFailed);
      }
      r := Ok(Detail(created.value));
    }

    /** A petshop's detail view; the repository's error is passed on unchanged. */
    function GetByID(id: Id): (r: Result<PetshopDetail>)
      reads petshops
      ensures r.Ok? <==> petshops.GetByID(id).Ok?
      ensures r.Err? ==> r.error == petshops.GetByID(id).error
      ensures r.Ok? ==> r.value.id == id && exists p | p in petshops.rows :: Detail(p) == r.value
    {
      match petshops.GetByID(id)
      case Err(e) => Err(e)
      case Ok(p) => Ok(Detail(p))
    }

    /**
     * Edits the contact data. A new e-mail is refused when another petshop
     * holds it; keeping the e-mail needs no check.
     */
    method Update(id: Id, dto: PetshopUpdate) returns (r: Result<PetshopDetail>)
      requires petshops.Valid()
      modifies petshops
      ensures petshops.Valid() && petshops.failing == old(petshops.failing)
      ensures old(petshops.GetByID(id)).Err? ==>
        r == Err(old(petshops.GetByID(id)).error) && petshops.rows == old(petshops.rows)
      ensures old(petshops.GetByID(id)).Ok? ==>
        var p := old(petshops.GetByID(id)).value;
        var k := IndexOfKey(old(petshops.rows), PetshopKey, id);
        if p.email != dto.email && FindByEmail in petshops.failing then
          r == Err(CheckExistingPetshop) && petshops.rows == old(petshops.rows)
        else if p.email != dto.email && old(petshops.HasEmail(dto.email)) then
          r == Err(AlreadyExists) && petshops.rows == old(petshops.rows)
        else if Save in petshops.failing then
          r == Err(UpdatePetshopFailed) && petshops.rows == old(petshops.rows)
        else
          k < |old(petshops.rows)| && petshops.rows == old(petshops.rows)[k := WithContact(p, dto)] &&
          r == Ok(Detail(WithContact(p, dto)))
    {
      var found := petshops.GetByID(id);
      if found.Err? {
        return Err(found.error);
      }
      var p := found.value;
      ghost var k := IndexOfKey(petshops.rows, PetshopKey, id);
      DistinctFind(petshops.rows, PetshopKey, k);
      if p.email != dto.email {
        var existing := petshops.GetByEmail(dto.email);
        if existing.Err? {
          return Err(CheckExistingPetshop);
        }
        if existing.value.Some? && existing.value.value.id != p.id {
          return Err(AlreadyExists);
        }
        if existing.value.Some? {
          assert false;
        }
      }
      var updated := WithContact(p, dto);
      forall j | 0 <= j < |petshops.rows| ensures !(petshops.rows[j].email == dto.email && petshops.rows[j].id != id) {
        if p.email == dto.email && petshops.rows[j].email == dto.email {
          assert PetshopEmail(petshops.rows[j]) == PetshopEmail(petshops.rows[k]);
        }
      }
      var saved := petshops.Update(updated);
      if saved.Err? {
        return Err(UpdatePetshopFailed);
      }
      r := Ok(Detail(updated));
    }

    /** Replaces the address; nothing else of the petshop changes. */
    method UpdateEndereco(id: Id, address: Address) returns (r: Result<PetshopDetail>)
      requires petshops.Valid()
      modifies petshops
      ensures petshops.Valid() && petshops.failing == old(petshops.failing)
      ensures old(petshops.GetByID(id)).Err? ==>
        r == Err(old(petshops.GetByID(id)).error) && petshops.rows == old(petshops.rows)
      ensures old(petshops.GetByID(id)).Ok? ==>
        var p := old(petshops.GetByID(id)).value;
        var k := IndexOfKey(old(petshops.rows), PetshopKey, id);
        if Save in petshops.failing then
          r == Err(UpdateAddressFailed) && petshops.rows == old(petshops.rows)
        else
          k < |old(petshops.rows)| && petshops.rows == old(petshops.rows)[k := WithAddress(p, address)] &&
          r == Ok(Detail(WithAddress(p, address)))
    {
      var found := petshops.GetByID(id);
      if found.Err? {
        return Err(found.error);
      }
      var p := found.value;
      ghost var k := IndexOfKey(petshops.rows, PetshopKey, id);
      DistinctFind(petshops.rows, PetshopKey, k);
      var updated := WithAddress(p, address);
      forall j | 0 <= j < |petshops.rows| ensures !(petshops.rows[j].email == p.email && petshops.rows[j].id != id) {
        if petshops.rows[j].email == p.email {
          assert PetshopEmail(petshops.rows[j]) == PetshopEmail(petshops.rows[k]);
        }
      }
      var saved := petshops.Update(updated);
      if saved.Err? {
        return Err(UpdateAddressFailed);
      }
      r := Ok(Detail(updated));
    }

    /** One page of the petshops of a city, searched by its normalised name. */
    method FindByCity(city: string, page: int, limit: int) returns (r: Result<seq<PetshopListItem>>)
      ensures FindCity in petshops.failing <==> r.Err?
      ensures r.Err? ==> r.error == FindByCityFailed
      ensures r.Ok? ==> r.value == ItemsOf(Window(Filter(petshops.rows, InCity(NormalizeCity(city))),
                                               PageOffset(NormalizePage(page), NormalizeLimit(limit)), NormalizeLimit(limit)))
      ensures r.Ok? ==> |r.value| <= NormalizeLimit(limit)
      ensures r.Ok? ==> forall i | i in r.value :: NormalizeCity(i.cidade) == NormalizeCity(city)
    {
      var found := petshops.FindByCity(NormalizeCity(city), page, limit);
      if found.Err? {
        return Err(FindByCityFailed);
      }
      var items := PresentList(found.value);
      r := Ok(items);
    }

    /** One page of all petshops, in storage order. */
    method List(page: int, limit: int) returns (r: Result<seq<PetshopListItem>>)
      ensures ListPage in petshops.failing <==> r.Err?
      ensures r.Err? ==> r.error == ListPetshopsFailed
      ensures r.Ok? ==> r.value == ItemsOf(Window(petshops.rows, PageOffset(NormalizePage(page), NormalizeLimit(limit)), NormalizeLimit(limit)))
      ensures r.Ok? ==> |r.value| <= NormalizeLimit(limit)
    {
      var found := petshops.List(page, limit);
      if found.Err? {
        return Err(ListPetshopsFailed);
      }
      var items := PresentList(found.value);
      r := Ok(items);
    }
  }
}
