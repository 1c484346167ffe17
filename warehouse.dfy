/** The warehouse router: one list of warehouse records (`fake_db_warehouses`). */
module Warehouses {
  import opened Common
  import opened Tables

  /** A stored warehouse (Warehouse). */
  datatype Warehouse = Warehouse(WarehouseID: int, waName: string, waLocation: Option<string>)

  /** The request body of create and update (WarehouseCreate). */
  datatype WarehouseCreate = WarehouseCreate(waName: string, waLocation: Option<string>)

  /** The id given to the first warehouse of an empty store. */
  const FirstWarehouseID: int := 101

  const WarehouseNotFound: string := "Warehouse not found"

  function WarehouseKey(w: Warehouse): int { w.WarehouseID }

  // ---------------------------------------------------------------------------
  // Listing
  // ---------------------------------------------------------------------------

  /** `q_lower in w["waName"].lower() or (w["waLocation"] and q_lower in w["waLocation"].lower())` */
  function MatchesText(qLower: string): Warehouse -> bool
  {
    (w: Warehouse) =>
      || Contains(Lower(w.waName), qLower)
      || (w.waLocation.Some? && w.waLocation.value != "" && Contains(Lower(w.waLocation.value), qLower))
  }

  /** The warehouses that `get_warehouses` keeps before slicing. */
  function SearchWarehouses(ws: seq<Warehouse>, q: Option<string>): seq<Warehouse>
  {
    if q.Some? && q.value != "" then Filter(ws, MatchesText(Lower(q.value))) else ws
  }

  /** Whether a warehouse passes the search, stated field by field: the
      lower-cased query is in the lower-cased name or in the lower-cased
      location, when there is one. */
  predicate Selected(w: Warehouse, q: Option<string>)
  {
    q.Some? && q.value != "" ==>
      || Contains(Lower(w.waName), Lower(q.value))
      || (w.waLocation.Some? && Contains(Lower(w.waLocation.value), Lower(q.value)))
  }

  /** The search keeps exactly the selected warehouses. */
  lemma SearchWarehousesSelects(ws: seq<Warehouse>, q: Option<string>, w: Warehouse)
    ensures w in SearchWarehouses(ws, q) <==> w in ws && Selected(w, q)
  {
    if q.Some? && q.value != "" {
      FilterMembership(ws, MatchesText(Lower(q.value)), w);
      if w.waLocation == Some("") {
        // an empty location holds no non-empty query
        assert |Lower(q.value)| == |q.value| > 0;
        assert !Contains(Lower(""), Lower(q.value));
      }
    }
  }

  /** The search keeps stored order: a warehouse appended to the store comes
      last in the search results, when it matches. */
  lemma SearchWarehousesAppend(ws: seq<Warehouse>, q: Option<string>, w: Warehouse)
    ensures SearchWarehouses(ws + [w], q) == SearchWarehouses(ws, q) + (if Selected(w, q) then [w] else [])
  {
    if q.Some? && q.value != "" {
      FilterAppendOne(ws, MatchesText(Lower(q.value)), w);
      SearchWarehousesSelects([w], q, w);
    }
  }


  /** The text search ignores ASCII case. */
  lemma SearchIgnoresCase(ws: seq<Warehouse>, q1: string, q2: string)
    requires Lower(q1) == Lower(q2)
    ensures SearchWarehouses(ws, Some(q1)) == SearchWarehouses(ws, Some(q2))
  {
    assert |Lower(q1)| == |q1| && |Lower(q2)| == |q2|;
  }

  // ---------------------------------------------------------------------------
  // The seed
  // ---------------------------------------------------------------------------

  /** The initial store: warehouses 101, 102 and 103. */
  function SeedWarehouses(): seq<Warehouse>
  {
    [
      Warehouse(101, "一號倉", Some("台北總部 B1")),
      Warehouse(102, "二號倉", Some("台中物流中心")),
      Warehouse(103, "冷凍倉", Some("桃園觀音"))
    ]
  }

  /** The seed holds ids 101, 102 and 103 in that order, so its ids are unique. */
  lemma SeedWarehousesKeys()
    ensures Keys(SeedWarehouses(), WarehouseKey) == [101, 102, 103]
    ensures UniqueKeys(SeedWarehouses(), WarehouseKey)
  {
    var s := SeedWarehouses();
    assert WarehouseKey(s[0]) == 101 && WarehouseKey(s[1]) == 102 && WarehouseKey(s[2]) == 103;
  }

  /** Creating a warehouse on the seeded store gives it id 104. */
  lemma SeedNextId()
    ensures NewKey(SeedWarehouses(), WarehouseKey, FirstWarehouseID) == 104
  {
    var s := SeedWarehouses();
    var r := NewKey(s, WarehouseKey, FirstWarehouseID);
    assert WarehouseKey(s[2]) == 103;
    assert HasKey(s, WarehouseKey, r - 1);
  }

  // ---------------------------------------------------------------------------
  // The store
  // ---------------------------------------------------------------------------

  class WarehouseStore {
    /** `fake_db_warehouses` */
    var warehouses: seq<Warehouse>

    /** Warehouse ids are unique. */
    ghost predicate Valid()
      reads this
    {
      UniqueKeys(warehouses, WarehouseKey)
    }

    /** The seeded store. */
    constructor ()
      ensures Valid()
      ensures warehouses == SeedWarehouses()
    {
      warehouses := SeedWarehouses();
      new;
      SeedWarehousesKeys();
    }

    /** GET /warehouse/: search, then the slice `[skip : skip + limit]`. Query
        validation guarantees `skip >= 0` and `limit <= 100`. */
    function GetWarehouses(q: Option<string>, skip: int, limit: int): (r: seq<Warehouse>)
      reads this
      requires 0 <= skip && limit <= 100
      ensures forall w | w in r :: w in warehouses && Selected(w, q)
      ensures IsWindow(r, SearchWarehouses(warehouses, q), skip, limit)
      ensures 0 <= limit ==> |r| <= limit
    {
      var results := SearchWarehouses(warehouses, q);
      var page := Slice(results, skip, skip + limit);
      assert forall w | w in page :: w in warehouses && Selected(w, q) by {
        forall w | w in page ensures w in warehouses && Selected(w, q) {
          SearchWarehousesSelects(warehouses, q, w);
        }
      }
      page
    }

    /** GET /warehouse/{id}: the first warehouse with the id, or 404. */
    function GetWarehouse(id: int): (r: Result<Warehouse>)
      reads this
      ensures r.Err? <==> !HasKey(warehouses, WarehouseKey, id)
      ensures r.Err? ==> r.error == NotFound(WarehouseNotFound)
      ensures r.Ok? ==> r.value in warehouses && r.value.WarehouseID == id
    {
      match IndexOfKey(warehouses, WarehouseKey, id)
      case None => Err(NotFound(WarehouseNotFound))
      case Some(i) => Ok(warehouses[i])
    }

    /** POST /warehouse/: append a warehouse with id `max + 1`, or 101 when the store is empty. */
    method CreateWarehouse(w: WarehouseCreate) returns (r: Warehouse)
      requires Valid()
      modifies this
      ensures Valid()
      ensures r == Warehouse(NewKey(old(warehouses), WarehouseKey, FirstWarehouseID), w.waName, w.waLocation)
      ensures !HasKey(old(warehouses), WarehouseKey, r.WarehouseID)
      ensures warehouses == old(warehouses) + [r]
      ensures GetWarehouse(r.WarehouseID) == Ok(r)
    {
      var newId := NewKey(warehouses, WarehouseKey, FirstWarehouseID);
      r := Warehouse(newId, w.waName, w.waLocation);
      warehouses := warehouses + [r];
      AppendFresh(old(warehouses), WarehouseKey, r);
      IndexOfUniqueKey(warehouses, WarehouseKey, |old(warehouses)|);
    }

    /** PUT /warehouse/{id}: overwrite name and location of the first warehouse
        with the id and pin its id to the path id; 404 when absent. */
    method UpdateWarehouse(id: int, w: WarehouseCreate) returns (r: Result<Warehouse>)
      requires Valid()
      modifies this
      ensures Valid()
      ensures !HasKey(old(warehouses), WarehouseKey, id) ==>
        r == Err(NotFound(WarehouseNotFound)) && warehouses == old(warehouses)
      ensures HasKey(old(warehouses), WarehouseKey, id) ==>
        && r == Ok(Warehouse(id, w.waName, w.waLocation))
        && warehouses == old(warehouses)[IndexOfKey(old(warehouses), WarehouseKey, id).value := r.value]
        && GetWarehouse(id) == r
      ensures forall other | other != id :: GetWarehouse(other) == old(GetWarehouse(other))
    {
      var found := IndexOfKey(warehouses, WarehouseKey, id);
      if found.None? {
        return Err(NotFound(WarehouseNotFound));
      }
      var index := found.value;
      var updated := Warehouse(warehouses[index].WarehouseID, w.waName, w.waLocation);
      updated := updated.(WarehouseID := id);
      warehouses := warehouses[index := updated];
      r := Ok(updated);
      OverwriteKeepsKeys(old(warehouses), WarehouseKey, index, updated);
      IndexOfUniqueKey(warehouses, WarehouseKey, index);
      forall other | other != id
        ensures GetWarehouse(other) == old(GetWarehouse(other))
      {
        OverwriteLookup(old(warehouses), WarehouseKey, index, updated, other);
      }
    }

    /** DELETE /warehouse/{id}: drop every warehouse with the id, and answer 404
        when the list did not get shorter. */
    method DeleteWarehouse(id: int) returns (r: Result<()>)
      requires Valid()
      modifies this
      ensures Valid()
      ensures warehouses == Filter(old(warehouses), KeyIsNot(WarehouseKey, id))
      ensures r.Err? <==> !HasKey(old(warehouses), WarehouseKey, id)
      ensures r.Err? ==> r.error == NotFound(WarehouseNotFound) && warehouses == old(warehouses)
      ensures GetWarehouse(id) == Err(NotFound(WarehouseNotFound))
      ensures forall other | other != id ::
        HasKey(warehouses, WarehouseKey, other) <==> HasKey(old(warehouses), WarehouseKey, other)
    {
      var initialLen := |warehouses|;
      warehouses := Filter(warehouses, KeyIsNot(WarehouseKey, id));
      RemoveKey(old(warehouses), WarehouseKey, id);
      RemoveShrinks(old(warehouses), WarehouseKey, id);
      if |warehouses| == initialLen {
        RemoveAbsentKey(old(warehouses), WarehouseKey, id);
        return Err(NotFound(WarehouseNotFound));
      }
      r := Ok(());
    }
  }
}
