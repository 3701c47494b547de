/**
 * The owner service: registration of an owner, edits of the contact data
 * and of the address, and the detail view.
 */
module DonoService {
  import opened Common
  import opened Entities
  import opened Tables
  import opened Dtos
  import opened DonoRepo

  /** The detail view: every column except the password hash. */
  function Detail(d: Dono): (v: DonoDetail)
    ensures v.id == d.id && v.nome == d.nome && v.email == d.email
    ensures v.telefone == d.telefone && v.address == d.address
  {
    DonoDetail(d.id, d.nome, d.email, d.telefone, d.address)
  }

  /** The detail view never depends on, so never reveals, the password hash. */
  lemma DetailHidesPassword(d: Dono, other: Digest)
    ensures Detail(d.(password := other)) == Detail(d)
  {
  }

  /** Apart from the password, the detail view is the whole record. */
  lemma DetailDeterminesRecord(d: Dono, e: Dono)
    requires Detail(d) == Detail(e)
    ensures d == e.(password := d.password)
  {
  }

  /** An owner as registered: the request's data and the hash of its password. */
  function NewDono(dto: DonoCreate): (d: Dono)
    ensures d.nome == dto.nome && d.email == dto.email && d.telefone == dto.telefone
    ensures d.address == dto.address
    ensures CheckPassword(d.password, dto.password)
  {
    Dono(NilId, dto.nome, dto.email, dto.telefone, Hash(dto.password), dto.address)
  }

  /** An owner after a contact edit: name, e-mail and phone from the request. */
  function WithContact(d: Dono, dto: DonoUpdate): (e: Dono)
    ensures e.id == d.id && e.address == d.address && e.password == d.password
    ensures e.nome == dto.nome && e.email == dto.email && e.telefone == dto.telefone
  {
    d.(nome := dto.nome, email := dto.email, telefone := dto.telefone)
  }

  /** An owner after an address edit: the seven address columns from the request. */
  function WithAddress(d: Dono, a: Address): (e: Dono)
    ensures e.address == a
    ensures e.(address := d.address) == d
  {
    d.(address := a)
  }

  /** The two edits touch disjoint columns, so their order does not matter. */
  lemma EditsCommute(d: Dono, dto: DonoUpdate, a: Address)
    ensures WithAddress(WithContact(d, dto), a) == WithContact(WithAddress(d, a), dto)
  {
  }

  class DonoService {
    const donos: DonoRepository

    constructor (donos: DonoRepository)
      ensures this.donos == donos
    {
      this.donos := donos;
    }

    /**
     * Registration as the service writes it: the e-mail lookup's error is
     * compared with "not found", which the repository never returns (an
     * absent e-mail is a successful lookup of nothing), so every call stops
     * at that comparison and no owner is ever created.
     */
    method CreateAsWritten(dto: DonoCreate, newId: Id) returns (r: Result<DonoDetail>)
      ensures r == Err(CheckExistingOwner)
    {
      var existing := donos.GetByEmail(dto.email);
      if existing != Err(NotFound) {
        return Err(CheckExistingOwner);
      }
      // The duplicate check, hashing and insertion that follow are never reached.
      assert false;
    }

    /**
     * Registration as intended: a failed lookup is a check failure, a taken
     * e-mail is refused, and otherwise the owner is inserted.
     */
    method Create(dto: DonoCreate, newId: Id) returns (r: Result<DonoDetail>)
      requires donos.Valid()
      modifies donos
      ensures donos.Valid() && donos.failing == old(donos.failing)
      ensures FindByEmail in donos.failing ==>
        r == Err(CheckExistingOwner) && donos.rows == old(donos.rows)
      ensures FindByEmail !in donos.failing && old(donos.HasEmail(dto.email)) ==>
        r == Err(AlreadyExists) && donos.rows == old(donos.rows)
      ensures FindByEmail !in donos.failing && !old(donos.HasEmail(dto.email)) ==>
        if Insert in donos.failing || old(donos.HasId(newId)) then
          r == Err(CreateOwner) && donos.rows == old(donos.rows)
        else
          r == Ok(Detail(NewDono(dto).(id := newId))) &&
          donos.rows == old(donos.rows) + [NewDono(dto).(id := newId)]
    {
      var existing := donos.GetByEmail(dto.email);
      if existing.Err? {
        return Err(CheckExistingOwner);
      }
      if existing.value.Some? {
        return Err(AlreadyExists);
      }
      var created := donos.Create(NewDono(dto), newId);
      if created.Err? {
        return Err(CreateOwner);
      }
      r := Ok(Detail(created.value));
    }

    /** An owner's detail view; the repository's error is passed on unchanged. */
    function GetByID(id: Id): (r: Result<DonoDetail>)
      reads donos
      ensures r.Ok? <==> donos.GetByID(id).Ok?
      ensures r.Err? ==> r.error == donos.GetByID(id).error
      ensures r.Ok? ==> r.value.id == id && exists d | d in donos.rows :: Detail(d) == r.value
    {
      match donos.GetByID(id)
      case Err(e) => Err(e)
      case Ok(d) => Ok(Detail(d))
    }

    /**
     * Edits the contact data. A new e-mail is refused when another owner
     * holds it; keeping the e-mail needs no check.
     */
    method Update(id: Id, dto: DonoUpdate) returns (r: Result<DonoDetail>)
      requires donos.Valid()
      modifies donos
      ensures donos.Valid() && donos.failing == old(donos.failing)
      ensures old(donos.GetByID(id)).Err? ==>
        r == Err(old(donos.GetByID(id)).error) && donos.rows == old(donos.rows)
      ensures old(donos.GetByID(id)).Ok? ==>
        var d := old(donos.GetByID(id)).value;
        var k := IndexOfKey(old(donos.rows), DonoKey, id);
        if d.email != dto.email && FindByEmail in donos.failing then
          r == Err(CheckExistingOwner) && donos.rows == old(donos.rows)
        else if d.email != dto.email && old(donos.HasEmail(dto.email)) then
          r == Err(AlreadyExists) && donos.rows == old(donos.rows)
        else if Save in donos.failing then
          r == Err(UpdateOwner) && donos.rows == old(donos.rows)
        else
          k < |old(donos.rows)| && donos.rows == old(donos.rows)[k := WithContact(d, dto)] &&
          r == Ok(Detail(WithContact(d, dto)))
    {
      var found := donos.GetByID(id);
      if found.Err? {
        return Err(found.error);
      }
      var d := found.value;
      ghost var k := IndexOfKey(donos.rows, DonoKey, id);
      DistinctFind(donos.rows, DonoKey, k);
      if d.email != dto.email {
        var existing := donos.GetByEmail(dto.email);
        if existing.Err? {
          return Err(CheckExistingOwner);
        }
        if existing.value.Some? && existing.value.value.id != d.id {
          return Err(AlreadyExists);
        }
        if existing.value.Some? {
          assert false;
        }
      }
      var updated := WithContact(d, dto);
      forall j | 0 <= j < |donos.rows| ensures !(donos.rows[j].email == dto.email && donos.rows[j].id != id) {
        if d.email == dto.email && donos.rows[j].email == dto.email {
          assert DonoEmail(donos.rows[j]) == DonoEmail(donos.rows[k]);
        }
      }
      var saved := donos.Update(updated);
      if saved.Err? {
        return Err(UpdateOwner);
      }
      r := Ok(Detail(updated));
    }

    /** Replaces the address; nothing else of the owner changes. */
    method UpdateLocalizacao(id: Id, address: Address) returns (r: Result<DonoDetail>)
      requires donos.Valid()
      modifies donos
      ensures donos.Valid() && donos.failing == old(donos.failing)
      ensures old(donos.GetByID(id)).Err? ==>
        r == Err(old(donos.GetByID(id)).error) && donos.rows == old(donos.rows)
      ensures old(donos.GetByID(id)).Ok? ==>
        var d := old(donos.GetByID(id)).value;
        var k := IndexOfKey(old(donos.rows), DonoKey, id);
        if Save in donos.failing then
          r == Err(UpdateOwnerLocation) && donos.rows == old(donos.rows)
        else
          k < |old(donos.rows)| && donos.rows == old(donos.rows)[k := WithAddress(d, address)] &&
          r == Ok(Detail(WithAddress(d, address)))
    {
      var found := donos.GetByID(id);
      if found.Err? {
        return Err(found.error);
      }
      var d := found.value;
      ghost var k := IndexOfKey(donos.rows, DonoKey, id);
      DistinctFind(donos.rows, DonoKey, k);
      var updated := WithAddress(d, address);
      forall j | 0 <= j < |donos.rows| ensures !(donos.rows[j].email == d.email && donos.rows[j].id != id) {
        if donos.rows[j].email == d.email {
          assert DonoEmail(donos.rows[j]) == DonoEmail(donos.rows[k]);
        }
      }
      var saved := donos.Update(updated);
      if saved.Err? {
        return Err(UpdateOwnerLocation);
      }
      r := Ok(Detail(updated));
    }
  }
}
