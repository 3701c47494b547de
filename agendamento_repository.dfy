/**
 * The appointments' table, each row carrying its items. Updates replace
 * the item collection inside one transaction; the list queries filter by
 * a foreign key and order by the scheduled date.
 */
module AgendamentoRepo {
  import opened Common
  import opened Entities
  import opened Tables

  function AgendamentoKey(a: Agendamento): string { a.id }

  function Agendada(a: Agendamento): int { a.dataAgendada }

  function ByDono(donoId: Id): Agendamento -> bool
  {
    (a: Agendamento) => a.donoId == donoId
  }

  function ByPetshop(petshopId: Id): Agendamento -> bool
  {
    (a: Agendamento) => a.petshopId == petshopId
  }

  function ByPet(petId: Id): Agendamento -> bool
  {
    (a: Agendamento) => a.petId == petId
  }

  /** `petshop_id = ? AND data_agendada > ? AND status != 'cancelado'`. */
  function Upcoming(petshopId: Id, now: Time): Agendamento -> bool
  {
    (a: Agendamento) => a.petshopId == petshopId && a.dataAgendada > now && a.status != Cancelado
  }

  /** The appointment as inserted: the insert hook runs on it and on each of its items. */
  function Inserted(a: Agendamento, newId: Id, itemIds: nat -> Id): (r: Agendamento)
    ensures r.id == newId && ItemsLinked(r)
    ensures r.status == (if a.status == Unset then Pendente else a.status)
    ensures r.(id := a.id, status := a.status, itens := a.itens) == a
    ensures PricesPrevistos(r.itens) == PricesPrevistos(a.itens)
    ensures |r.itens| == |a.itens| &&
      forall k | 0 <= k < |r.itens| :: r.itens[k].id == itemIds(k) && r.itens[k].servicoId == a.itens[k].servicoId
  {
    LinkItemsKeepsPrices(a.itens, newId, itemIds);
    AgendamentoBeforeCreate(a, newId).(itens := LinkItems(a.itens, newId, itemIds))
  }

  /** The appointment as saved by an update: its items are inserted anew, each with a fresh id. */
  function Saved(a: Agendamento, itemIds: nat -> Id): (r: Agendamento)
    ensures r.(itens := a.itens) == a && ItemsLinked(r)
    ensures PricesPrevistos(r.itens) == PricesPrevistos(a.itens)
  {
    LinkItemsKeepsPrices(a.itens, a.id, itemIds);
    a.(itens := LinkItems(a.itens, a.id, itemIds))
  }

  class AgendamentoRepository {
    /** The rows that are not soft-deleted, in storage order, with their items preloaded. */
    var rows: seq<Agendamento>
    /** Storage operations that currently fail. */
    var failing: set<Op>

    /** The primary key, and every item linked to the appointment holding it. */
    ghost predicate Valid()
      reads this
    {
      Distinct(rows, AgendamentoKey) && forall j | 0 <= j < |rows| :: ItemsLinked(rows[j])
    }

    constructor (failing: set<Op>)
      ensures rows == [] && this.failing == failing && Valid()
    {
      rows := [];
      this.failing := failing;
    }

    predicate HasId(id: Id)
      reads this
    {
      exists j | 0 <= j < |rows| :: rows[j].id == id
    }

    function GetByID(id: Id): (r: Result<Agendamento>)
      reads this
      ensures r.Ok? ==> r.value in rows && r.value.id == id
      ensures r.Err? ==> r.error == NotFound || r.error == Storage
      ensures r == Err(Storage) <==> FindById in failing
      ensures r == Err(NotFound) <==> FindById !in failing && !HasId(id)
    {
      if FindById in failing then Err(Storage)
      else match FindKey(rows, AgendamentoKey, id)
        case None => Err(NotFound)
        case Some(a) => Ok(a)
    }

    /** Inserts the appointment with its items in one statement. */
    method Create(a: Agendamento, newId: Id, itemIds: nat -> Id) returns (r: Result<Agendamento>)
      requires Valid()
      modifies this
      ensures Valid() && failing == old(failing)
      ensures r.Ok? <==> Insert !in failing && !old(HasId(newId))
      ensures r.Ok? ==> r.value == Inserted(a, newId, itemIds) && rows == old(rows) + [r.value]
      ensures r.Err? ==> r.error == Storage && rows == old(rows)
    {
      if Insert in failing || HasId(newId) {
        return Err(Storage);
      }
      var row := Inserted(a, newId, itemIds);
      DistinctSnoc(rows, AgendamentoKey, row);
      rows := rows + [row];
      r := Ok(row);
    }

    /**
     * Replaces the stored appointment with `a`: the old items are deleted and
     * `a` is saved with its items, all in one transaction, so a failure at
     * any step leaves the table as it was.
     */
    method Update(a: Agendamento, itemIds: nat -> Id) returns (r: Result<()>)
      requires Valid()
      modifies this
      ensures Valid() && failing == old(failing)
      ensures FindById in failing ==> r == Err(Storage)
      ensures FindById !in failing && !old(HasId(a.id)) ==> r == Err(NotFound)
      ensures r.Ok? <==> FindById !in failing && Save !in failing && old(HasId(a.id))
      ensures r.Ok? ==> rows == old(rows)[IndexOfKey(old(rows), AgendamentoKey, a.id) := Saved(a, itemIds)]
      ensures r.Err? ==> rows == old(rows) && (r.error == NotFound || r.error == Storage)
    {
      if FindById in failing {
        return Err(Storage);
      }
      var k := IndexOfKey(rows, AgendamentoKey, a.id);
      if k == |rows| {
        return Err(NotFound);
      }
      if Save in failing {
        return Err(Storage);
      }
      var row := Saved(a, itemIds);
      forall j | 0 <= j < |rows| && j != k ensures AgendamentoKey(rows[j]) != AgendamentoKey(row) {
        assert AgendamentoKey(rows[j]) != AgendamentoKey(rows[k]);
      }
      DistinctUpdate(rows, AgendamentoKey, k, row);
      rows := rows[k := row];
      r := Ok(());
    }

    /** Writes the status column of the row with that id, and nothing else. */
    method UpdateStatus(id: Id, status: Status) returns (r: Result<()>)
      requires Valid()
      modifies this
      ensures Valid() && failing == old(failing)
      ensures SaveStatus in failing ==> r == Err(Storage)
      ensures SaveStatus !in failing && !old(HasId(id)) ==> r == Err(NotFound)
      ensures r.Ok? <==> SaveStatus !in failing && old(HasId(id))
      ensures r.Ok? ==> var k := IndexOfKey(old(rows), AgendamentoKey, id);
        k < |old(rows)| && rows == old(rows)[k := old(rows)[k].(status := status)]
      ensures r.Err? ==> rows == old(rows) && (r.error == NotFound || r.error == Storage)
    {
      if SaveStatus in failing {
        return Err(Storage);
      }
      var k := IndexOfKey(rows, AgendamentoKey, id);
      if k == |rows| {
        return Err(NotFound);
      }
      var row := rows[k].(status := status);
      forall j | 0 <= j < |rows| && j != k ensures AgendamentoKey(rows[j]) != AgendamentoKey(row) {
        assert AgendamentoKey(rows[j]) != AgendamentoKey(rows[k]);
      }
      DistinctUpdate(rows, AgendamentoKey, k, row);
      rows := rows[k := row];
      r := Ok(());
    }

    /** The owner's appointments, latest first. */
    function GetByDonoID(donoId: Id): (r: Result<seq<Agendamento>>)
      reads this
      ensures r.Err? <==> FindByDono in failing
      ensures r.Err? ==> r.error == Storage
      ensures r.Ok? ==> SortedDesc(r.value, Agendada)
      ensures r.Ok? ==> multiset(r.value) == multiset(Filter(rows, ByDono(donoId)))
      ensures r.Ok? ==> forall a | a in r.value :: a in rows && a.donoId == donoId
      ensures r.Ok? ==> forall a | a in rows && a.donoId == donoId :: a in r.value
    {
      if FindByDono in failing then Err(Storage)
      else Ok(SortDesc(Filter(rows, ByDono(donoId)), Agendada))
    }

    /** The petshop's appointments, latest first. */
    function GetByPetshopID(petshopId: Id): (r: Result<seq<Agendamento>>)
      reads this
      ensures r.Err? <==> FindByPetshop in failing
      ensures r.Err? ==> r.error == Storage
      ensures r.Ok? ==> SortedDesc(r.value, Agendada)
      ensures r.Ok? ==> multiset(r.value) == multiset(Filter(rows, ByPetshop(petshopId)))
      ensures r.Ok? ==> forall a | a in r.value :: a in rows && a.petshopId == petshopId
      ensures r.Ok? ==> forall a | a in rows && a.petshopId == petshopId :: a in r.value
    {
      if FindByPetshop in failing then Err(Storage)
      else Ok(SortDesc(Filter(rows, ByPetshop(petshopId)), Agendada))
    }

    /** The pet's appointments, latest first. */
    function GetByPetID(petId: Id): (r: Result<seq<Agendamento>>)
      reads this
      ensures r.Err? <==> FindByPet in failing
      ensures r.Err? ==> r.error == Storage
      ensures r.Ok? ==> SortedDesc(r.value, Agendada)
      ensures r.Ok? ==> multiset(r.value) == multiset(Filter(rows, ByPet(petId)))
      ensures r.Ok? ==> forall a | a in r.value :: a in rows && a.petId == petId
      ensures r.Ok? ==> forall a | a in rows && a.petId == petId :: a in r.value
    {
      if FindByPet in failing then Err(Storage)
      else Ok(SortDesc(Filter(rows, ByPet(petId)), Agendada))
    }

    /** The petshop's appointments after `now` that are not cancelled, earliest first. */
    function GetAgendamentosFuturos(petshopId: Id, now: Time): (r: Result<seq<Agendamento>>)
      reads this
      ensures r.Err? <==> FindFuture in failing
      ensures r.Err? ==> r.error == Storage
      ensures r.Ok? ==> SortedAsc(r.value, Agendada)
      ensures r.Ok? ==> forall a | a in r.value ::
        a in rows && a.petshopId == petshopId && a.dataAgendada > now && a.status != Cancelado
      ensures r.Ok? ==> forall a | a in rows && a.petshopId == petshopId && a.dataAgendada > now && a.status != Cancelado ::
        a in r.value
    {
      if FindFuture in failing then Err(Storage)
      else
        var matching := Filter(rows, Upcoming(petshopId, now));
        var sorted := SortAsc(matching, Agendada);
        Ok(sorted)
    }
  }
}
