/**
 * The petshops' table and its repository: lookups by id and e-mail,
 * insertion, saving, soft deletion and the paginated listing.
 */
module PetshopRepo {
  import opened Common
  import opened Entities
  import opened Tables
  import opened Text

  function PetshopKey(d: Petshop): string { d.id }
  function PetshopEmail(d: Petshop): string { d.email }

  /**
   * The petshops whose stored city, trimmed and lower-cased, is `city`:
   * the search is meant to ignore letter case and surrounding white space.
   */
  function InCity(city: string): Petshop -> bool
  {
    (p: Petshop) => ToLower(TrimSpace(p.address.cidade)) == city
  }

  class PetshopRepository {
    /** The rows that are not soft-deleted, in storage order. */
    var rows: seq<Petshop>
    /** Storage operations that currently fail. */
    var failing: set<Op>

    /** The primary key and the unique e-mail index. */
    ghost predicate Valid()
      reads this
    {
      Distinct(rows, PetshopKey) && Distinct(rows, PetshopEmail)
    }

    constructor (failing: set<Op>)
      ensures rows == [] && this.failing == failing && Valid()
    {
      rows := [];
      this.failing := failing;
    }

    predicate HasId(id: Id)
      reads this
    {
      exists j | 0 <= j < |rows| :: rows[j].id == id
    }

    predicate HasEmail(email: string)
      reads this
    {
      exists j | 0 <= j < |rows| :: rows[j].email == email
    }

    /** Some row other than the one with key `id` holds `email`. */
    predicate EmailTakenByOther(id: Id, email: string)
      reads this
    {
      exists j | 0 <= j < |rows| :: rows[j].email == email && rows[j].id != id
    }

    function GetByID(id: Id): (r: Result<Petshop>)
      reads this
      ensures r.Ok? ==> r.value in rows && r.value.id == id
      ensures r.Err? ==> r.error == NotFound || r.error == Storage
      ensures r == Err(Storage) <==> FindById in failing
      ensures r == Err(NotFound) <==> FindById !in failing && !HasId(id)
    {
      if FindById in failing then Err(Storage)
      else match FindKey(rows, PetshopKey, id)
        case None => Err(NotFound)
        case Some(d) => Ok(d)
    }

    /** Absence is a successful lookup of nothing, not an error. */
    function GetByEmail(email: string): (r: Result<Option<Petshop>>)
      reads this
      ensures r.Err? ==> r.error == Storage
      ensures r.Err? <==> FindByEmail in failing
      ensures r.Ok? && r.value.Some? ==> r.value.value in rows && r.value.value.email == email
      ensures r == Ok(None) <==> FindByEmail !in failing && !HasEmail(email)
    {
      if FindByEmail in failing then Err(Storage)
      else Ok(FindKey(rows, PetshopEmail, email))
    }

    /** Inserts `d` under the generator's fresh id; the constraints reject a used id or e-mail. */
    method Create(d: Petshop, newId: Id) returns (r: Result<Petshop>)
      requires Valid()
      modifies this
      ensures Valid() && failing == old(failing)
      ensures r.Ok? <==> Insert !in failing && !old(HasId(newId)) && !old(HasEmail(d.email))
      ensures r.Ok? ==> r.value == d.(id := newId) && rows == old(rows) + [r.value]
      ensures r.Err? ==> r.error == Storage && rows == old(rows)
    {
      if Insert in failing || HasId(newId) || HasEmail(d.email) {
        return Err(Storage);
      }
      var row := d.(id := newId);
      DistinctSnoc(rows, PetshopKey, row);
      DistinctSnoc(rows, PetshopEmail, row);
      rows := rows + [row];
      r := Ok(row);
    }

    /** Saves every column of `d` over the row with the same id. */
    method Update(d: Petshop) returns (r: Result<()>)
      requires Valid()
      modifies this
      ensures Valid() && failing == old(failing)
      ensures Save in failing ==> r == Err(Storage)
      ensures Save !in failing && !old(HasId(d.id)) ==> r == Err(NotFound)
      ensures r.Ok? <==> Save !in failing && old(HasId(d.id)) && !old(EmailTakenByOther(d.id, d.email))
      ensures r.Ok? ==> rows == old(rows)[IndexOfKey(old(rows), PetshopKey, d.id) := d]
      ensures r.Err? ==> rows == old(rows)
    {
      if Save in failing {
        return Err(Storage);
      }
      var k := IndexOfKey(rows, PetshopKey, d.id);
      if k == |rows| {
        return Err(NotFound);
      }
      if EmailTakenByOther(d.id, d.email) {
        return Err(Storage);
      }
      forall j | 0 <= j < |rows| && j != k
        ensures PetshopKey(rows[j]) != PetshopKey(d) && PetshopEmail(rows[j]) != PetshopEmail(d)
      {
        assert PetshopKey(rows[j]) != PetshopKey(rows[k]);
      }
      DistinctUpdate(rows, PetshopKey, k, d);
      DistinctUpdate(rows, PetshopEmail, k, d);
      rows := rows[k := d];
      r := Ok(());
    }

    /** Soft delete: the row disappears from every later query. */
    method Delete(id: Id) returns (r: Result<()>)
      requires Valid()
      modifies this
      ensures Valid() && failing == old(failing)
      ensures Remove in failing ==> r == Err(Storage)
      ensures Remove !in failing && !old(HasId(id)) ==> r == Err(NotFound)
      ensures r.Ok? <==> Remove !in failing && old(HasId(id))
      ensures r.Ok? ==> rows == RemoveAt(old(rows), IndexOfKey(old(rows), PetshopKey, id))
      ensures r.Ok? ==> !HasId(id) && forall d | d in old(rows) && d.id != id :: d in rows
      ensures r.Err? ==> rows == old(rows)
    {
      if Remove in failing {
        return Err(Storage);
      }
      var k := IndexOfKey(rows, PetshopKey, id);
      if k == |rows| {
        return Err(NotFound);
      }
      DistinctRemove(rows, PetshopKey, k);
      DistinctRemove(rows, PetshopEmail, k);
      rows := RemoveAt(rows, k);
      r := Ok(());
    }

    /**
     * One page of petshops in storage order. The page number and size are
     * normalised first: a page below one is the first page, and a size
     * outside 1..100 is ten.
     */
    method List(page: int, limit: int) returns (r: Result<seq<Petshop>>)
      ensures ListPage in failing <==> r.Err?
      ensures r.Err? ==> r.error == Storage
      ensures r.Ok? ==> |r.value| <= NormalizeLimit(limit) <= 100
      ensures r.Ok? ==> r.value == Window(rows, PageOffset(NormalizePage(page), NormalizeLimit(limit)), NormalizeLimit(limit))
    {
      var p := page;
      var l := limit;
      if p <= 0 {
        p := 1;
      }
      if l <= 0 || l > 100 {
        l := 10;
      }
      var offset := PageOffset(p, l);
      if ListPage in failing {
        return Err(Storage);
      }
      r := Ok(Window(rows, offset, l));
    }

    /**
     * One page of the petshops located in `city`, paged like `List`. The
     * store's query behind this is not part of the repository's code; the
     * model compares the stored city trimmed and lower-cased with `city`.
     */
    method FindByCity(city: string, page: int, limit: int) returns (r: Result<seq<Petshop>>)
      ensures FindCity in failing <==> r.Err?
      ensures r.Err? ==> r.error == Storage
      ensures r.Ok? ==> forall p | p in r.value :: p in rows && ToLower(TrimSpace(p.address.cidade)) == city
      ensures r.Ok? ==> |r.value| <= NormalizeLimit(limit)
      ensures r.Ok? ==>
        r.value == Window(Filter(rows, InCity(city)), PageOffset(NormalizePage(page), NormalizeLimit(limit)), NormalizeLimit(limit))
    {
      var p := page;
      var l := limit;
      if p <= 0 {
        p := 1;
      }
      if l <= 0 || l > 100 {
        l := 10;
      }
      if FindCity in failing {
        return Err(Storage);
      }
      assert p == NormalizePage(page) && l == NormalizeLimit(limit);
      r := Ok(Window(Filter(rows, InCity(city)), PageOffset(p, l), l));
    }
  }
}
