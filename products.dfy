/** The product router: one list of product records (`fake_db_products`). */
module Products {
  import opened Common
  import opened Tables

  /** A stored product. The seeded records also carry a `prPrice`, which the
      request body cannot set; records created later have none. */
  datatype Product = Product(ProductID: int, prName: string, prSpec: Option<string>, prCategory: string, prPrice: Option<real>)

  /** The request body of create and update (ProductCreate). */
  datatype ProductCreate = ProductCreate(prName: string, prSpec: Option<string>, prCategory: string)

  /** The id given to the first product of an empty store. */
  const FirstProductID: int := 1

  const ProductNotFound: string := "Product not found"

  function ProductKey(p: Product): int { p.ProductID }

  /** The initial store: products 1..20, each named "商品 <id>", with spec
      "標準", category "電子產品" and price 100.0. */
  function SeedProducts(): seq<Product>
  {
    seq(20, i requires 0 <= i < 20 =>
      Product(i + 1, "商品 " + IntToString(i + 1), Some("標準"), "電子產品", Some(100.0)))
  }

  /** The seed holds ids 1..20 in ascending order, so its ids are unique, and
      every id in 1..20 is found at position `id - 1`. */
  lemma SeedProductsAscending()
    ensures |SeedProducts()| == 20
    ensures forall i, j | 0 <= i < j < 20 :: ProductKey(SeedProducts()[i]) < ProductKey(SeedProducts()[j])
    ensures UniqueKeys(SeedProducts(), ProductKey)
    ensures forall id | 1 <= id <= 20 :: IndexOfKey(SeedProducts(), ProductKey, id) == Some(id - 1)
    ensures forall id | id < 1 || 20 < id :: !HasKey(SeedProducts(), ProductKey, id)
  {
    var s := SeedProducts();
    assert forall i | 0 <= i < 20 :: ProductKey(s[i]) == i + 1;
    forall id | 1 <= id <= 20
      ensures IndexOfKey(s, ProductKey, id) == Some(id - 1)
    {
      IndexOfUniqueKey(s, ProductKey, id - 1);
    }
  }

  class ProductStore {
    /** `fake_db_products` */
    var products: seq<Product>

    /** Product ids are unique. */
    ghost predicate Valid()
      reads this
    {
      UniqueKeys(products, ProductKey)
    }

    /** The seeded store. */
    constructor ()
      ensures Valid()
      ensures products == SeedProducts()
    {
      products := SeedProducts();
      new;
      SeedProductsAscending();
    }

    /** GET /products/: the slice `[skip : skip + limit]` of the store, without
        any filter. Query validation guarantees `skip >= 0` and `limit <= 100`. */
    function GetProducts(skip: int, limit: int): (r: seq<Product>)
      reads this
      requires 0 <= skip && limit <= 100
      ensures forall p | p in r :: p in products
      ensures IsWindow(r, products, skip, limit)
      ensures 0 <= limit ==> |r| <= limit
    {
      Slice(products, skip, skip + limit)
    }

    /** GET /products/{id}: the first product with the id, or 404. */
    function GetProduct(id: int): (r: Result<Product>)
      reads this
      ensures r.Err? <==> !HasKey(products, ProductKey, id)
      ensures r.Err? ==> r.error == NotFound(ProductNotFound)
      ensures r.Ok? ==> r.value in products && r.value.ProductID == id
    {
      match IndexOfKey(products, ProductKey, id)
      case None => Err(NotFound(ProductNotFound))
      case Some(i) => Ok(products[i])
    }

    /** POST /products/: append a product with id `max + 1`, or 1 when the
        store is empty. The new record has no price. */
    method CreateProduct(p: ProductCreate) returns (r: Product)
      requires Valid()
      modifies this
      ensures Valid()
      ensures r == Product(NewKey(old(products), ProductKey, FirstProductID), p.prName, p.prSpec, p.prCategory, None)
      ensures !HasKey(old(products), ProductKey, r.ProductID)
      ensures products == old(products) + [r]
      ensures GetProduct(r.ProductID) == Ok(r)
    {
      var newId := NewKey(products, ProductKey, FirstProductID);
      r := Product(newId, p.prName, p.prSpec, p.prCategory, None);
      products := products + [r];
      AppendFresh(old(products), ProductKey, r);
      IndexOfUniqueKey(products, ProductKey, |old(products)|);
    }

    /** PUT /products/{id}: overwrite name, spec and category of the first
        product with the id, keeping its id and its price; 404 when absent. */
    method UpdateProduct(id: int, p: ProductCreate) returns (r: Result<Product>)
      requires Valid()
      modifies this
      ensures Valid()
      ensures !HasKey(old(products), ProductKey, id) ==>
        r == Err(NotFound(ProductNotFound)) && products == old(products)
      ensures HasKey(old(products), ProductKey, id) ==>
        var index := IndexOfKey(old(products), ProductKey, id).value;
        && r == Ok(Product(id, p.prName, p.prSpec, p.prCategory, old(products)[index].prPrice))
        && products == old(products)[index := r.value]
        && GetProduct(id) == r
      ensures forall other | other != id :: GetProduct(other) == old(GetProduct(other))
    {
      var found := IndexOfKey(products, ProductKey, id);
      if found.None? {
        return Err(NotFound(ProductNotFound));
      }
      var index := found.value;
      var current := products[index];
      var updated := current.(prName := p.prName, prSpec := p.prSpec, prCategory := p.prCategory);
      products := products[index := updated];
      r := Ok(updated);
      OverwriteKeepsKeys(old(products), ProductKey, index, updated);
      IndexOfUniqueKey(products, ProductKey, index);
      forall other | other != id
        ensures GetProduct(other) == old(GetProduct(other))
      {
        OverwriteLookup(old(products), ProductKey, index, updated, other);
      }
    }

    /** DELETE /products/{id}: drop every product with the id. It never fails:
        deleting an absent id changes nothing. */
    method DeleteProduct(id: int)
      requires Valid()
      modifies this
      ensures Valid()
      ensures products == Filter(old(products), KeyIsNot(ProductKey, id))
      ensures !HasKey(old(products), ProductKey, id) ==> products == old(products)
      ensures GetProduct(id) == Err(NotFound(ProductNotFound))
      ensures forall other | other != id ::
        HasKey(products, ProductKey, other) <==> HasKey(old(products), ProductKey, other)
    {
      products := Filter(products, KeyIsNot(ProductKey, id));
      RemoveKey(old(products), ProductKey, id);
      if !HasKey(old(products), ProductKey, id) {
        RemoveAbsentKey(old(products), ProductKey, id);
      }
    }
  }

  /** Creating a product on the seeded store gives it id 21. */
  lemma SeedNextId()
    ensures NewKey(SeedProducts(), ProductKey, FirstProductID) == 21
  {
    var s := SeedProducts();
    var r := NewKey(s, ProductKey, FirstProductID);
    SeedProductsAscending();
    assert ProductKey(s[19]) == 20;
    assert HasKey(s, ProductKey, r - 1);
  }
}
