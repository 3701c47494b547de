/**
 * The services' table and its repository. Every database failure other
 * than "record not found" is reported as invalid data.
 */
module ServicoRepo {
  import opened Common
  import opened Entities
  import opened Tables

  function ServicoKey(s: Servico): string { s.id }

  /** The `petshop_id = ?` condition. */
  function OfPetshop(petshopId: Id): Servico -> bool
  {
    (s: Servico) => s.petshopId == petshopId
  }

  /** The `petshop_id = ? AND nome = ?` condition. */
  function Named(petshopId: Id, nome: string): Servico -> bool
  {
    (s: Servico) => s.petshopId == petshopId && s.nome == nome
  }

  /** No petshop offers two services under the same name. */
  predicate NamesDistinct(rows: seq<Servico>)
  {
    forall i, j | 0 <= i < |rows| && 0 <= j < |rows| &&
      rows[i].petshopId == rows[j].petshopId && rows[i].nome == rows[j].nome :: i == j
  }

  /** Appending a service whose name its petshop does not use yet keeps names distinct. */
  lemma NamesDistinctSnoc(rows: seq<Servico>, x: Servico)
    requires NamesDistinct(rows)
    requires forall j | 0 <= j < |rows| :: !(rows[j].petshopId == x.petshopId && rows[j].nome == x.nome)
    ensures NamesDistinct(rows + [x])
  {
  }

  /** Replacing a service by one whose name no other service of its petshop uses keeps names distinct. */
  lemma NamesDistinctUpdate(rows: seq<Servico>, k: nat, x: Servico)
    requires NamesDistinct(rows) && k < |rows|
    requires forall j | 0 <= j < |rows| && j != k :: !(rows[j].petshopId == x.petshopId && rows[j].nome == x.nome)
    ensures NamesDistinct(rows[k := x])
  {
  }

  /** Removing a service keeps names distinct. */
  lemma NamesDistinctRemove(rows: seq<Servico>, k: nat)
    requires NamesDistinct(rows) && k < |rows|
    ensures NamesDistinct(RemoveAt(rows, k))
  {
    var r := RemoveAt(rows, k);
    forall i, j | 0 <= i < |r| && 0 <= j < |r| && r[i].petshopId == r[j].petshopId && r[i].nome == r[j].nome
      ensures i == j
    {
      var i' := if i < k then i else i + 1;
      var j' := if j < k then j else j + 1;
      assert r[i] == rows[i'] && r[j] == rows[j'];
    }
  }

  class ServicoRepository {
    /** The rows that are not soft-deleted, in storage order. */
    var rows: seq<Servico>
    /** Storage operations that currently fail. */
    var failing: set<Op>

    ghost predicate Valid()
      reads this
    {
      Distinct(rows, ServicoKey)
    }

    constructor (failing: set<Op>)
      ensures rows == [] && this.failing == failing && Valid()
    {
      rows := [];
      this.failing := failing;
    }

    predicate HasId(id: Id)
      reads this
    {
      exists j | 0 <= j < |rows| :: rows[j].id == id
    }

    function GetByID(id: Id): (r: Result<Servico>)
      reads this
      ensures r.Ok? ==> r.value in rows && r.value.id == id
      ensures r.Err? ==> r.error == NotFound || r.error == InvalidData
      ensures r == Err(InvalidData) <==> FindById in failing
      ensures r == Err(NotFound) <==> FindById !in failing && !HasId(id)
    {
      if FindById in failing then Err(InvalidData)
      else match FindKey(rows, ServicoKey, id)
        case None => Err(NotFound)
        case Some(s) => Ok(s)
    }

    /** The petshop's service with that name; absence is not an error. */
    function GetByName(petshopId: Id, nome: string): (r: Result<Option<Servico>>)
      reads this
      ensures r.Err? <==> FindByName in failing
      ensures r.Err? ==> r.error == InvalidData
      ensures r.Ok? && r.value.Some? ==>
        r.value.value in rows && r.value.value.petshopId == petshopId && r.value.value.nome == nome
      ensures r == Ok(None) <==>
        (FindByName !in failing &&
         forall j | 0 <= j < |rows| :: !(rows[j].petshopId == petshopId && rows[j].nome == nome))
    {
      if FindByName in failing then Err(InvalidData)
      else Ok(FirstWhere(rows, Named(petshopId, nome)))
    }

    /** The petshop's services, in storage order. */
    function GetByPetshopID(petshopId: Id): (r: Result<seq<Servico>>)
      reads this
      ensures r.Err? <==> FindByPetshop in failing
      ensures r.Err? ==> r.error == InvalidData
      ensures r.Ok? ==> forall s | s in r.value :: s in rows && s.petshopId == petshopId
      ensures r.Ok? ==> forall s | s in rows && s.petshopId == petshopId :: s in r.value
    {
      if FindByPetshop in failing then Err(InvalidData) else Ok(Filter(rows, OfPetshop(petshopId)))
    }

    /** Inserts `s` under the generator's fresh id; the primary key rejects a used id. */
    method Create(s: Servico, newId: Id) returns (r: Result<Servico>)
      requires Valid()
      modifies this
      ensures Valid() && failing == old(failing)
      ensures r.Ok? <==> Insert !in failing && !old(HasId(newId))
      ensures r.Ok? ==> r.value == s.(id := newId) && rows == old(rows) + [r.value]
      ensures r.Err? ==> r.error == InvalidData && rows == old(rows)
    {
      if Insert in failing || HasId(newId) {
        return Err(InvalidData);
      }
      var row := s.(id := newId);
      DistinctSnoc(rows, ServicoKey, row);
      rows := rows + [row];
      r := Ok(row);
    }

    /** Saves every column of `s` over the row with the same id. */
    method Update(s: Servico) returns (r: Result<()>)
      requires Valid()
      modifies this
      ensures Valid() && failing == old(failing)
      ensures Save in failing ==> r == Err(InvalidData)
      ensures Save !in failing && !old(HasId(s.id)) ==> r == Err(NotFound)
      ensures r.Ok? <==> Save !in failing && old(HasId(s.id))
      ensures r.Ok? ==> rows == old(rows)[IndexOfKey(old(rows), ServicoKey, s.id) := s]
      ensures r.Err? ==> rows == old(rows) && (r.error == NotFound || r.error == InvalidData)
    {
      if Save in failing {
        return Err(InvalidData);
      }
      var k := IndexOfKey(rows, ServicoKey, s.id);
      if k == |rows| {
        return Err(NotFound);
      }
      forall j | 0 <= j < |rows| && j != k ensures ServicoKey(rows[j]) != ServicoKey(s) {
        assert ServicoKey(rows[j]) != ServicoKey(rows[k]);
      }
      DistinctUpdate(rows, ServicoKey, k, s);
      rows := rows[k := s];
      r := Ok(());
    }

    /** Soft delete: the row disappears from every later query. */
    method Delete(id: Id) returns (r: Result<()>)
      requires Valid()
      modifies this
      ensures Valid() && failing == old(failing)
      ensures Remove in failing ==> r == Err(InvalidData)
      ensures Remove !in failing && !old(HasId(id)) ==> r == Err(NotFound)
      ensures r.Ok? <==> Remove !in failing && old(HasId(id))
      ensures r.Ok? ==> rows == RemoveAt(old(rows), IndexOfKey(old(rows), ServicoKey, id))
      ensures r.Ok? ==> !HasId(id) && forall s | s in old(rows) && s.id != id :: s in rows
      ensures r.Err? ==> rows == old(rows) && (r.error == NotFound || r.error == InvalidData)
    {
      if Remove in failing {
        return Err(InvalidData);
      }
      var k := IndexOfKey(rows, ServicoKey, id);
      if k == |rows| {
        return Err(NotFound);
      }
      DistinctRemove(rows, ServicoKey, k);
      rows := RemoveAt(rows, k);
      r := Ok(());
    }
  }
}
