/**
 * The authentication service: log-in of owners and petshops by e-mail and
 * password, and self-registration of either kind of account.
 */
module AuthService {
  import opened Common
  import opened Entities
  import opened Tables
  import opened Dtos
  import opened DonoRepo
  import opened PetshopRepo
  import DonoService
  import PetshopService

  function DonoIdentityOf(d: Dono): (i: Identity)
    ensures i.DonoIdentity? && i.Tipo() == "dono"
    ensures i.id == d.id && i.email == d.email && i.nome == d.nome && i.telefone == d.telefone
  {
    DonoIdentity(d.id, d.email, d.nome, d.telefone)
  }

  function PetshopIdentityOf(p: Petshop): (i: Identity)
    ensures i.PetshopIdentity? && i.Tipo() == "petshop"
    ensures i.id == p.id && i.email == p.email && i.nome == p.nome && i.telefone == p.telefone
    ensures i.descricao == p.descricao && i.nota == p.nota
  {
    PetshopIdentity(p.id, p.email, p.nome, p.telefone, p.descricao, p.nota)
  }

  /**
   * A petshop as it registers itself: unlike the administration's
   * registration, the active flag and the rating are left at their zero
   * values.
   */
  function RegisteredPetshop(dto: PetshopCreate): (p: Petshop)
    ensures !p.ativo && p.nota == 0.0
    ensures p == PetshopService.NewPetshop(dto).(ativo := false)
  {
    Petshop(NilId, dto.nome, dto.email, dto.telefone, dto.address, dto.descricao, 0.0, false, Hash(dto.password))
  }

  class AuthService {
    const donos: DonoRepository
    const petshops: PetshopRepository

    constructor (donos: DonoRepository, petshops: PetshopRepository)
      ensures this.donos == donos && this.petshops == petshops
    {
      this.donos := donos;
      this.petshops := petshops;
    }

    /** An owner's log-in: an unknown e-mail and a wrong password are the same refusal. */
    function AuthenticateDono(email: string, password: string): (r: Result<Identity>)
      reads donos
      ensures FindByEmail in donos.failing <==> r == Err(FetchDonoFailed)
      ensures r.Err? ==> r.error == FetchDonoFailed || r.error == Unauthorized
      ensures FindByEmail !in donos.failing && !donos.HasEmail(email) ==> r == Err(Unauthorized)
      ensures r.Ok? ==> exists d | d in donos.rows ::
        d.email == email && CheckPassword(d.password, password) && r.value == DonoIdentityOf(d)
    {
      match donos.GetByEmail(email)
      case Err(_) => Err(FetchDonoFailed)
      case Ok(None) => Err(Unauthorized)
      case Ok(Some(d)) =>
        if !CheckPassword(d.password, password) then Err(Unauthorized)
        else Ok(DonoIdentityOf(d))
    }

    /** A petshop's log-in, with the same refusals as an owner's. */
    function AuthenticatePetshop(email: string, password: string): (r: Result<Identity>)
      reads petshops
      ensures FindByEmail in petshops.failing <==> r == Err(FetchPetshopFailed)
      ensures r.Err? ==> r.error == FetchPetshopFailed || r.error == Unauthorized
      ensures FindByEmail !in petshops.failing && !petshops.HasEmail(email) ==> r == Err(Unauthorized)
      ensures r.Ok? ==> exists p | p in petshops.rows ::
        p.email == email && CheckPassword(p.password, password) && r.value == PetshopIdentityOf(p)
    {
      match petshops.GetByEmail(email)
      case Err(_) => Err(FetchPetshopFailed)
      case Ok(None) => Err(Unauthorized)
      case Ok(Some(p)) =>
        if !CheckPassword(p.password, password) then Err(Unauthorized)
        else Ok(PetshopIdentityOf(p))
    }

    /** With e-mails unique, a stored owner logs in with its password, and with no other. */
    lemma OwnerLogin(d: Dono, password: string)
      requires donos.Valid() && d in donos.rows && FindByEmail !in donos.failing
      ensures CheckPassword(d.password, password) ==> AuthenticateDono(d.email, password) == Ok(DonoIdentityOf(d))
      ensures !CheckPassword(d.password, password) ==> AuthenticateDono(d.email, password) == Err(Unauthorized)
    {
      var j :| 0 <= j < |donos.rows| && donos.rows[j] == d;
      DistinctFind(donos.rows, DonoEmail, j);
    }

    lemma PetshopLogin(p: Petshop, password: string)
      requires petshops.Valid() && p in petshops.rows && FindByEmail !in petshops.failing
      ensures CheckPassword(p.password, password) ==> AuthenticatePetshop(p.email, password) == Ok(PetshopIdentityOf(p))
      ensures !CheckPassword(p.password, password) ==> AuthenticatePetshop(p.email, password) == Err(Unauthorized)
    {
      var j :| 0 <= j < |petshops.rows| && petshops.rows[j] == p;
      DistinctFind(petshops.rows, PetshopEmail, j);
    }

    /** Self-registration of an owner; a registered owner can then log in with its password. */
    method RegisterDono(dto: DonoCreate, newId: Id) returns (r: Result<Identity>)
      requires donos.Valid()
      modifies donos
      ensures donos.Valid() && donos.failing == old(donos.failing)
      ensures FindByEmail in donos.failing ==>
        r == Err(CheckExistingOwner) && donos.rows == old(donos.rows)
      ensures FindByEmail !in donos.failing && old(donos.HasEmail(dto.email)) ==>
        r == Err(AlreadyExists) && donos.rows == old(donos.rows)
      ensures FindByEmail !in donos.failing && !old(donos.HasEmail(dto.email)) ==>
        if Insert in donos.failing || old(donos.HasId(newId)) then
          r == Err(CreateDonoFailed) && donos.rows == old(donos.rows)
        else
          r == Ok(DonoIdentityOf(DonoService.NewDono(dto).(id := newId))) &&
          donos.rows == old(donos.rows) + [DonoService.NewDono(dto).(id := newId)]
      ensures r.Ok? ==> AuthenticateDono(dto.email, dto.password) == r
    {
      var existing := donos.GetByEmail(dto.email);
      if existing.Err? {
        return Err(CheckExistingOwner);
      }
      if existing.value.Some? {
        return Err(AlreadyExists);
      }
      var created := donos.Create(DonoService.NewDono(dto), newId);
      if created.Err? {
        return Err(CreateDonoFailed);
      }
      r := Ok(DonoIdentityOf(created.value));
      OwnerLogin(created.value, dto.password);
    }

    /** Self-registration of a petshop; a registered petshop can then log in with its password. */
    method RegisterPetshop(dto: PetshopCreate, newId: Id) returns (r: Result<Identity>)
      requires petshops.Valid()
      modifies petshops
      ensures petshops.Valid() && petshops.failing == old(petshops.failing)
      ensures FindByEmail in petshops.failing ==>
        r == Err(CheckExistingPetshop) && petshops.rows == old(petshops.rows)
      ensures FindByEmail !in petshops.failing && old(petshops.HasEmail(dto.email)) ==>
        r == Err(AlreadyExists) && petshops.rows == old(petshops.rows)
      ensures FindByEmail !in petshops.failing && !old(petshops.HasEmail(dto.email)) ==>
        if Insert in petshops.failing || old(petshops.HasId(newId)) then
          r == Err(CreatePetshopFailed) && petshops.rows == old(petshops.rows)
        else
          r == Ok(PetshopIdentityOf(RegisteredPetshop(dto).(id := newId))) &&
          petshops.rows == old(petshops.rows) + [RegisteredPetshop(dto).(id := newId)]
      ensures r.Ok? ==> AuthenticatePetshop(dto.email, dto.password) == r
    {
      var existing := petshops.GetByEmail(dto.email);
      if existing.Err? {
        return Err(CheckExistingPetshop);
      }
      if existing.value.Some? {
        return Err(AlreadyExists);
      }
      var created := petshops.Create(RegisteredPetshop(dto), newId);
      if created.Err? {
        return Err(CreatePetshopFailed);
      }
      r := Ok(PetshopIdentityOf(created.value));
      PetshopLogin(created.value, dto.password);
    }
  }
}
