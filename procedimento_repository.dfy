/**
 * The performed procedures' table: insertion of a procedure with its
 * items, and the procedures of one pet, latest first.
 */
module ProcedimentoRepo {
  import opened Common
  import opened Entities
  import opened Tables

  function ProcedimentoKey(p: Procedimento): string { p.id }

  function Realizacao(p: Procedimento): int { p.dataRealizacao }

  /** The `pet_id = ?` condition. */
  function OfPet(petId: Id): Procedimento -> bool
  {
    (p: Procedimento) => p.petId == petId
  }

  /** Every item of the procedure points back at it. */
  predicate ItemsOf(p: Procedimento)
  {
    forall k | 0 <= k < |p.itens| :: p.itens[k].procedimentoId == p.id
  }

  /** The procedure as it is inserted: its own fresh id, and each item's fresh id and foreign key. */
  function Inserted(p: Procedimento, newId: Id, itemIds: nat -> Id): (r: Procedimento)
    ensures r.id == newId && ItemsOf(r) && |r.itens| == |p.itens|
    ensures PricesFinais(r.itens) == PricesFinais(p.itens)
  {
    ProcedimentoBeforeCreate(p, newId).(itens := LinkItemsProcedimento(p.itens, newId, itemIds))
  }

  class ProcedimentoRepository {
    var rows: seq<Procedimento>
    var failing: set<Op>

    ghost predicate Valid()
      reads this
    {
      Distinct(rows, ProcedimentoKey) && forall j | 0 <= j < |rows| :: ItemsOf(rows[j])
    }

    constructor (failing: set<Op>)
      ensures rows == [] && this.failing == failing && Valid()
    {
      rows := [];
      this.failing := failing;
    }

    predicate HasId(id: Id)
      reads this
    {
      exists j | 0 <= j < |rows| :: rows[j].id == id
    }

    /** Inserts the procedure and its items in one statement. */
    method Create(p: Procedimento, newId: Id, itemIds: nat -> Id) returns (r: Result<Procedimento>)
      requires Valid()
      modifies this
      ensures Valid() && failing == old(failing)
      ensures r.Ok? <==> Insert !in failing && !old(HasId(newId))
      ensures r.Ok? ==> r.value == Inserted(p, newId, itemIds) && rows == old(rows) + [r.value]
      ensures r.Err? ==> r.error == InvalidData && rows == old(rows)
    {
      if Insert in failing || HasId(newId) {
        return Err(InvalidData);
      }
      var row := Inserted(p, newId, itemIds);
      DistinctSnoc(rows, ProcedimentoKey, row);
      rows := rows + [row];
      r := Ok(row);
    }

    /** The pet's procedures, latest first. */
    function GetByPetID(petId: Id): (r: Result<seq<Procedimento>>)
      reads this
      ensures r.Err? <==> FindByPet in failing
      ensures r.Err? ==> r.error == InvalidData
      ensures r.Ok? ==> SortedDesc(r.value, Realizacao)
      ensures r.Ok? ==> multiset(r.value) == multiset(Filter(rows, OfPet(petId)))
      ensures r.Ok? ==> forall p | p in r.value :: p in rows && p.petId == petId
      ensures r.Ok? ==> forall p | p in rows && p.petId == petId :: p in r.value
    {
      if FindByPet in failing then Err(InvalidData)
      else Ok(SortDesc(Filter(rows, OfPet(petId)), Realizacao))
    }
  }
}
