/** The supplier router: one list of supplier records (`fake_db_suppliers`). */
module Suppliers {
  import opened Common
  import opened Tables

  /** A stored supplier (Supplier). */
  datatype Supplier = Supplier(SupplierID: int, suName: string, suPhone: string, suAddress: string)

  /** The request body of create and update (SupplierCreate). */
  datatype SupplierCreate = SupplierCreate(suName: string, suPhone: string, suAddress: string)

  /** The id given to the first supplier of an empty store. */
  const FirstSupplierID: int := 1

  const SupplierNotFound: string := "Supplier not found"

  function SupplierKey(s: Supplier): int { s.SupplierID }

  // ---------------------------------------------------------------------------
  // Listing
  // ---------------------------------------------------------------------------

  /** `q.lower() in s["suName"].lower()` */
  function NameMatches(qLower: string): Supplier -> bool
  {
    (s: Supplier) => Contains(Lower(s.suName), qLower)
  }

  /** The suppliers that `get_suppliers` keeps before slicing. */
  function SearchSuppliers(ss: seq<Supplier>, q: Option<string>): seq<Supplier>
  {
    if q.Some? && q.value != "" then Filter(ss, NameMatches(Lower(q.value))) else ss
  }

  /** The search keeps exactly the suppliers whose lower-cased name holds the
      lower-cased query; phone and address are never searched. */
  lemma SearchSuppliersSelects(ss: seq<Supplier>, q: Option<string>, s: Supplier)
    ensures s in SearchSuppliers(ss, q) <==>
      s in ss && (q.Some? && q.value != "" ==> Contains(Lower(s.suName), Lower(q.value)))
  {
    if q.Some? && q.value != "" {
      FilterMembership(ss, NameMatches(Lower(q.value)), s);
    }
  }

  /** Two suppliers with the same name are both kept or both dropped by the
      search, whatever their phone and address. */
  lemma SearchIgnoresContactFields(ss: seq<Supplier>, q: Option<string>, a: Supplier, b: Supplier)
    requires a in ss && b in ss && a.suName == b.suName
    ensures a in SearchSuppliers(ss, q) <==> b in SearchSuppliers(ss, q)
  {
    SearchSuppliersSelects(ss, q, a);
    SearchSuppliersSelects(ss, q, b);
  }

  // ---------------------------------------------------------------------------
  // The seed
  // ---------------------------------------------------------------------------

  /** The initial store: suppliers 1 and 2. */
  function SeedSuppliers(): seq<Supplier>
  {
    [
      Supplier(1, "A公司", "02-2345-6789", "台北市信義區..."),
      Supplier(2, "B公司", "04-8765-4321", "台中市西屯區...")
    ]
  }

  /** The seed holds ids 1 and 2 in that order, so its ids are unique. */
  lemma SeedSuppliersKeys()
    ensures Keys(SeedSuppliers(), SupplierKey) == [1, 2]
    ensures UniqueKeys(SeedSuppliers(), SupplierKey)
  {
    var s := SeedSuppliers();
    assert SupplierKey(s[0]) == 1 && SupplierKey(s[1]) == 2;
  }

  /** Creating a supplier on the seeded store gives it id 3. */
  lemma SeedNextId()
    ensures NewKey(SeedSuppliers(), SupplierKey, FirstSupplierID) == 3
  {
    var s := SeedSuppliers();
    var r := NewKey(s, SupplierKey, FirstSupplierID);
    assert SupplierKey(s[1]) == 2;
    assert HasKey(s, SupplierKey, r - 1);
  }

  // ---------------------------------------------------------------------------
  // The store
  // ---------------------------------------------------------------------------

  class SupplierStore {
    /** `fake_db_suppliers` */
    var suppliers: seq<Supplier>

    /** Supplier ids are unique. */
    ghost predicate Valid()
      reads this
    {
      UniqueKeys(suppliers, SupplierKey)
    }

    /** The seeded store. */
    constructor ()
      ensures Valid()
      ensures suppliers == SeedSuppliers()
    {
      suppliers := SeedSuppliers();
      new;
      SeedSuppliersKeys();
    }

    /** GET /suppliers/: search by name, then the slice `[skip : skip + limit]`.
        Query validation guarantees `skip >= 0` and `limit <= 100`. */
    function GetSuppliers(q: Option<string>, skip: int, limit: int): (r: seq<Supplier>)
      reads this
      requires 0 <= skip && limit <= 100
      ensures forall s | s in r ::
        s in suppliers && (q.Some? && q.value != "" ==> Contains(Lower(s.suName), Lower(q.value)))
      ensures IsWindow(r, SearchSuppliers(suppliers, q), skip, limit)
      ensures 0 <= limit ==> |r| <= limit
    {
      var data := SearchSuppliers(suppliers, q);
      var page := Slice(data, skip, skip + limit);
      assert forall s | s in page ::
        s in suppliers && (q.Some? && q.value != "" ==> Contains(Lower(s.suName), Lower(q.value))) by {
        forall s | s in page
          ensures s in suppliers && (q.Some? && q.value != "" ==> Contains(Lower(s.suName), Lower(q.value)))
        {
          SearchSuppliersSelects(suppliers, q, s);
        }
      }
      page
    }

    /** GET /suppliers/{id}: the first supplier with the id, or 404. */
    function GetSupplier(id: int): (r: Result<Supplier>)
      reads this
      ensures r.Err? <==> !HasKey(suppliers, SupplierKey, id)
      ensures r.Err? ==> r.error == NotFound(SupplierNotFound)
      ensures r.Ok? ==> r.value in suppliers && r.value.SupplierID == id
    {
      match IndexOfKey(suppliers, SupplierKey, id)
      case None => Err(NotFound(SupplierNotFound))
      case Some(i) => Ok(suppliers[i])
    }

    /** POST /suppliers/: append a supplier with id `max + 1`, or 1 when the store is empty. */
    method CreateSupplier(s: SupplierCreate) returns (r: Supplier)
      requires Valid()
      modifies this
      ensures Valid()
      ensures r == Supplier(NewKey(old(suppliers), SupplierKey, FirstSupplierID), s.suName, s.suPhone, s.suAddress)
      ensures !HasKey(old(suppliers), SupplierKey, r.SupplierID)
      ensures suppliers == old(suppliers) + [r]
      ensures GetSupplier(r.SupplierID) == Ok(r)
    {
      var newId := NewKey(suppliers, SupplierKey, FirstSupplierID);
      r := Supplier(newId, s.suName, s.suPhone, s.suAddress);
      suppliers := suppliers + [r];
      AppendFresh(old(suppliers), SupplierKey, r);
      IndexOfUniqueKey(suppliers, SupplierKey, |old(suppliers)|);
    }

    /** PUT /suppliers/{id}: overwrite name, phone and address of the first
        supplier with the id, keeping its id; 404 when absent. */
    method UpdateSupplier(id: int, s: SupplierCreate) returns (r: Result<Supplier>)
      requires Valid()
      modifies this
      ensures Valid()
      ensures !HasKey(old(suppliers), SupplierKey, id) ==>
        r == Err(NotFound(SupplierNotFound)) && suppliers == old(suppliers)
      ensures HasKey(old(suppliers), SupplierKey, id) ==>
        && r == Ok(Supplier(id, s.suName, s.suPhone, s.suAddress))
        && suppliers == old(suppliers)[IndexOfKey(old(suppliers), SupplierKey, id).value := r.value]
        && GetSupplier(id) == r
      ensures forall other | other != id :: GetSupplier(other) == old(GetSupplier(other))
    {
      var found := IndexOfKey(suppliers, SupplierKey, id);
      if found.None? {
        return Err(NotFound(SupplierNotFound));
      }
      var index := found.value;
      var updated := Supplier(suppliers[index].SupplierID, s.suName, s.suPhone, s.suAddress);
      suppliers := suppliers[index := updated];
      r := Ok(updated);
      OverwriteKeepsKeys(old(suppliers), SupplierKey, index, updated);
      IndexOfUniqueKey(suppliers, SupplierKey, index);
      forall other | other != id
        ensures GetSupplier(other) == old(GetSupplier(other))
      {
        OverwriteLookup(old(suppliers), SupplierKey, index, updated, other);
      }
    }

    /** DELETE /suppliers/{id}: drop every supplier with the id. It never fails:
        deleting an absent id changes nothing. */
    method DeleteSupplier(id: int)
      requires Valid()
      modifies this
      ensures Valid()
      ensures suppliers == Filter(old(suppliers), KeyIsNot(SupplierKey, id))
      ensures !HasKey(old(suppliers), SupplierKey, id) ==> suppliers == old(suppliers)
      ensures GetSupplier(id) == Err(NotFound(SupplierNotFound))
      ensures forall other | other != id ::
        HasKey(suppliers, SupplierKey, other) <==> HasKey(old(suppliers), SupplierKey, other)
    {
      suppliers := Filter(suppliers, KeyIsNot(SupplierKey, id));
      RemoveKey(old(suppliers), SupplierKey, id);
      if !HasKey(old(suppliers), SupplierKey, id) {
        RemoveAbsentKey(old(suppliers), SupplierKey, id);
      }
    }
  }
}
