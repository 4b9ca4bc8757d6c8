/** The products collection behind product/src/repositories/productsRepository.js:
    a table from `_id` to record, with the lookups, the range search and the
    in-place discount. Each failure is re-thrown under the repository's own
    message. */
module ProductsRepository {
  import opened Wrappers
  import opened ProductModel

  const CreateFailed := "Failed to create product"
  const FindByIdFailed := "Failed to find product by ID"
  const FindAllFailed := "Failed to retrieve products"
  const PriceRangeFailed := "Failed to retrieve products by price range"
  const DiscountFailed := "Failed to apply discount"

  /** An error from below, re-thrown under `message`; a success passes through. */
  function Rewrap<T>(r: Result<T>, message: string): (w: Result<T>)
    ensures w.Ok? <==> r.Ok?
    ensures w.Ok? ==> w.value == r.value
    ensures w.Err? ==> w.message == message
  {
    if r.Ok? then r else Err(message)
  }

  /** Every record is stored under its own `_id` and meets the schema. */
  ghost predicate TableValid(table: map<string, Product>) {
    forall id :: id in table ==> table[id].id == id && Valid(table[id])
  }

  /** The record stored by a discount on `id`, or the error it throws. */
  function DiscountRecord(table: map<string, Product>, id: string, discount: real): (r: Result<Product>)
    ensures r.Ok? <==> id in table && 0.0 <= discount <= 1.0
    ensures r.Err? ==> r.message == DiscountFailed
    ensures r.Ok? ==> r.value == table[id].(price := DiscountedPrice(table[id].price, discount).value)
  {
    if id !in table then Err(DiscountFailed)
    else
      var price := DiscountedPrice(table[id].price, discount);
      if price.Err? then Err(DiscountFailed) else Ok(table[id].(price := price.value))
  }

  /** A discount keeps the table valid and touches only that record's price. */
  lemma DiscountKeepsTableValid(table: map<string, Product>, id: string, discount: real)
    requires TableValid(table) && DiscountRecord(table, id, discount).Ok?
    ensures TableValid(table[id := DiscountRecord(table, id, discount).value])
    ensures DiscountRecord(table, id, discount).value.(price := table[id].price) == table[id]
  {
    DiscountKeepsProductValid(table[id], discount);
  }

  /** The reduction call the consumer makes for one item, with its outcome;
      the repository shown defines no `reduceQuantityById`, so its effect on
      the stored quantity is not modelled. */
  datatype ReduceCall = ReduceCall(productId: string, quantity: real, ok: bool)

  class ProductsRepository {
    var products: map<string, Product>
    var reduceCalls: seq<ReduceCall>

    ghost predicate Valid()
      reads this
    {
      TableValid(products)
    }

    constructor (initial: map<string, Product>)
      requires TableValid(initial)
      ensures Valid() && products == initial && reduceCalls == []
    {
      products := initial;
      reduceCalls := [];
    }

    /** `create(product)`: the record built from `input` under the fresh
        `_id` the database assigns; a schema failure or a duplicate key
        stores nothing. */
    method Create(input: ProductInput, freshId: string) returns (r: Result<Product>)
      requires Valid()
      modifies this
      ensures Valid() && reduceCalls == old(reduceCalls)
      ensures r.Ok? <==> freshId !in old(products) && Build(freshId, input).Ok?
      ensures r.Ok? ==> r == Build(freshId, input) && products == old(products)[freshId := r.value]
      ensures r.Err? ==> r.message == CreateFailed && products == old(products)
    {
      var built := Build(freshId, input);
      if freshId in products || built.Err? {
        return Err(CreateFailed);
      }
      products := products[freshId := built.value];
      return built;
    }

    /** `findById(productId)`: a missing record throws rather than returning
        null. */
    method FindById(productId: string) returns (r: Result<Product>)
      requires Valid()
      ensures r.Ok? <==> productId in products
      ensures r.Ok? ==> r.value == products[productId] && r.value.id == productId && ProductModel.Valid(r.value)
      ensures r.Err? ==> r.message == FindByIdFailed
    {
      if productId !in products {
        return Err(FindByIdFailed);
      }
      return Ok(products[productId]);
    }

    /** `findAll()`: every stored record. */
    method FindAll() returns (r: Result<set<Product>>)
      requires Valid()
      ensures r.Ok? && r.value == products.Values
      ensures forall p :: p in r.value ==> ProductModel.Valid(p)
    {
      return Ok(products.Values);
    }

    /** `findProductsByPriceRange(minPrice, maxPrice)`. */
    method FindProductsByPriceRange(minPrice: Arg, maxPrice: Arg) returns (r: Result<set<Product>>)
      requires Valid()
      ensures r == Rewrap(FindByPriceRange(products, minPrice, maxPrice), PriceRangeFailed)
      ensures r.Ok? ==> forall p :: p in r.value <==> p in products.Values && minPrice.value <= p.price <= maxPrice.value
    {
      r := Rewrap(FindByPriceRange(products, minPrice, maxPrice), PriceRangeFailed);
    }

    /** `applyDiscountToProduct(productId, discount)`: the record is loaded as
        a document, discounted in place and saved back. */
    method ApplyDiscountToProduct(productId: string, discount: real) returns (r: Result<Product>)
      requires Valid()
      modifies this
      ensures Valid() && reduceCalls == old(reduceCalls)
      ensures r == DiscountRecord(old(products), productId, discount)
      ensures r.Ok? ==> products == old(products)[productId := r.value]
      ensures r.Err? ==> products == old(products)
    {
      if productId !in products {
        return Err(DiscountFailed);
      }
      var doc := new ProductDocument(products[productId]);
      var applied := doc.ApplyDiscount(discount);
      if applied.Err? {
        return Err(DiscountFailed);
      }
      DiscountKeepsTableValid(products, productId, discount);
      products := products[productId := doc.Value()];
      return Ok(doc.Value());
    }

    /** The per-item reduction the service calls. It is not defined in the
        repository shown; whether a call succeeds is the input `ok`, and the
        call is recorded. */
    method ReduceQuantityById(productId: string, quantity: real, ok: bool) returns (r: Result<()>)
      requires Valid()
      modifies this
      ensures Valid() && products == old(products)
      ensures reduceCalls == old(reduceCalls) + [ReduceCall(productId, quantity, ok)]
      ensures r.Ok? <==> ok
    {
      reduceCalls := reduceCalls + [ReduceCall(productId, quantity, ok)];
      r := if ok then Ok(()) else Err("reduceQuantityById failed");
    }
  }
}
