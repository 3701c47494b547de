/**
 * The pets' table and the repository queries the core relies on: lookup
 * by id, insertion and the pets of one owner.
 */
module PetRepo {
  import opened Common
  import opened Entities
  import opened Tables

  function PetKey(p: Pet): string { p.id }

  /** The `dono_id = ?` condition. */
  function OfDono(donoId: Id): Pet -> bool
  {
    (p: Pet) => p.donoId == donoId
  }

  class PetRepository {
    /** The rows that are not soft-deleted, in storage order. */
    var rows: seq<Pet>
    /** Storage operations that currently fail. */
    var failing: set<Op>

    ghost predicate Valid()
      reads this
    {
      Distinct(rows, PetKey)
    }

    constructor (failing: set<Op>)
      ensures rows == [] && this.failing == failing && Valid()
    {
      rows := [];
      this.failing := failing;
    }

    predicate HasId(id: Id)
      reads this
    {
      exists j | 0 <= j < |rows| :: rows[j].id == id
    }

    function GetByID(id: Id): (r: Result<Pet>)
      reads this
      ensures r.Ok? ==> r.value in rows && r.value.id == id
      ensures r.Err? ==> r.error == NotFound || r.error == Storage
      ensures r == Err(Storage) <==> FindById in failing
      ensures r == Err(NotFound) <==> FindById !in failing && !HasId(id)
    {
      if FindById in failing then Err(Storage)
      else match FindKey(rows, PetKey, id)
        case None => Err(NotFound)
        case Some(p) => Ok(p)
    }

    /** Inserts `p` under the generator's fresh id; the primary key rejects a used id. */
    method Create(p: Pet, newId: Id) returns (r: Result<Pet>)
      requires Valid()
      modifies this
      ensures Valid() && failing == old(failing)
      ensures r.Ok? <==> Insert !in failing && !old(HasId(newId))
      ensures r.Ok? ==> r.value == p.(id := newId) && rows == old(rows) + [r.value]
      ensures r.Err? ==> r.error == Storage && rows == old(rows)
    {
      if Insert in failing || HasId(newId) {
        return Err(Storage);
      }
      var row := p.(id := newId);
      DistinctSnoc(rows, PetKey, row);
      rows := rows + [row];
      r := Ok(row);
    }

    /** The owner's pets, in storage order. */
    function GetByDonoID(donoId: Id): (r: Result<seq<Pet>>)
      reads this
      ensures r.Err? <==> FindByDono in failing
      ensures r.Err? ==> r.error == Storage
      ensures r.Ok? ==> forall p | p in r.value :: p in rows && p.donoId == donoId
      ensures r.Ok? ==> forall p | p in rows && p.donoId == donoId :: p in r.value
    {
      if FindByDono in failing then Err(Storage) else Ok(Filter(rows, OfDono(donoId)))
    }
  }
}
