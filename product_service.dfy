/** The product service (product/src/services/productsService.js): thin
    methods over the repository that re-throw every failure under their own
    message, the discount range check made before the repository is reached,
    and the sequential inventory-reduction loop. */
module ProductsService {
  import opened Wrappers
  import opened BrokerCommon
  import opened ProductModel
  import opened ProductsRepository

  const CreateProductFailed := "Failed to create product"
  const RetrieveProductFailed := "Failed to retrieve product"
  const RetrieveProductsFailed := "Failed to retrieve products"
  const PriceRangeQueryFailed := "Failed to retrieve products by price range"
  const QuantityRangeQueryFailed := "Failed to retrieve products by quantity range"
  const ApplyDiscountFailed := "Failed to apply discount"
  const ReduceFailed := "Failed to reduce product quantities"

  // ---------------------------------------------------------------------------
  // The reduction loop, as a function of the items and of each call's outcome

  /** The reduction calls made from item `i` on, where `ok(k)` is whether the
      call for item `k` succeeds: the first failure ends the loop. */
  function CallsFrom(items: seq<ItemRef>, ok: nat -> bool, i: nat): (c: seq<ReduceCall>)
    requires i <= |items|
    decreases |items| - i
  {
    if i == |items| then []
    else [ReduceCall(items[i].productId, items[i].quantity, ok(i))] + (if ok(i) then CallsFrom(items, ok, i + 1) else [])
  }

  /** All the calls `reduceProductQuantities(items)` makes. */
  function ReductionCalls(items: seq<ItemRef>, ok: nat -> bool): seq<ReduceCall> {
    CallsFrom(items, ok, 0)
  }

  /** Whether some item's call fails. */
  predicate SomeCallFails(items: seq<ItemRef>, ok: nat -> bool) {
    exists k :: 0 <= k < |items| && !ok(k)
  }

  /** What `reduceProductQuantities(items)` resolves or rejects with. */
  function ReductionResult(items: seq<ItemRef>, ok: nat -> bool): (r: Result<()>)
    ensures r.Err? ==> r.message == ReduceFailed
  {
    if SomeCallFails(items, ok) then Err(ReduceFailed) else Ok(())
  }

  /** The calls from item `i` on follow the items one for one and in order,
      every call but the last succeeded, and the calls stop short of the end
      only right after a failure. */
  lemma {:induction false} CallsFollowItems(items: seq<ItemRef>, ok: nat -> bool, i: nat)
    requires i <= |items|
    ensures var c := CallsFrom(items, ok, i);
      && |c| <= |items| - i
      && (forall k :: 0 <= k < |c| ==> c[k] == ReduceCall(items[i + k].productId, items[i + k].quantity, ok(i + k)))
      && (forall k :: 0 <= k < |c| - 1 ==> c[k].ok)
      && (|c| == |items| - i || (|c| > 0 && !c[|c| - 1].ok))
    decreases |items| - i
  {
    if i < |items| && ok(i) {
      CallsFollowItems(items, ok, i + 1);
      var c := CallsFrom(items, ok, i);
      var rest := CallsFrom(items, ok, i + 1);
      assert c == [ReduceCall(items[i].productId, items[i].quantity, true)] + rest;
      assert |c| == |rest| + 1;
      forall k | 0 <= k < |c|
        ensures c[k] == ReduceCall(items[i + k].productId, items[i + k].quantity, ok(i + k))
        ensures k < |c| - 1 ==> c[k].ok
      {
        if k > 0 {
          assert c[k] == rest[k - 1];
          assert i + 1 + (k - 1) == i + k;
        }
      }
      if |rest| > 0 {
        assert c[|c| - 1] == rest[|rest| - 1];
      }
    }
  }

  /** Every item before the first failing one is reduced, that item's call is
      the last, and no item after it is attempted. */
  lemma {:induction false} ReductionStopsAtFirstFailure(items: seq<ItemRef>, ok: nat -> bool, n: nat)
    requires n < |items| && !ok(n) && forall k :: 0 <= k < n ==> ok(k)
    ensures |ReductionCalls(items, ok)| == n + 1
    ensures forall k :: 0 <= k < n ==> ReductionCalls(items, ok)[k].ok
    ensures ReductionResult(items, ok) == Err(ReduceFailed)
  {
    CallsFollowItems(items, ok, 0);
    var c := ReductionCalls(items, ok);
    assert |c| > n ==> c[n].ok == ok(n);
  }

  /** When every call succeeds, each item is reduced once, in order. */
  lemma {:induction false} ReductionReducesEveryItem(items: seq<ItemRef>, ok: nat -> bool)
    requires !SomeCallFails(items, ok)
    ensures |ReductionCalls(items, ok)| == |items|
    ensures forall k :: 0 <= k < |items| ==> ReductionCalls(items, ok)[k] == ReduceCall(items[k].productId, items[k].quantity, true)
    ensures ReductionResult(items, ok) == Ok(())
  {
    CallsFollowItems(items, ok, 0);
  }

  /** The repository shown has no `reduceQuantityById`, so every call throws:
      a non-empty reduction fails on its first item, and an empty one
      succeeds without a call. */
  lemma MissingReduceMethodFailsFirstItem(items: seq<ItemRef>)
    ensures |items| > 0 ==> ReductionCalls(items, k => false) == [ReduceCall(items[0].productId, items[0].quantity, false)]
    ensures |items| > 0 ==> ReductionResult(items, k => false) == Err(ReduceFailed)
    ensures |items| == 0 ==> ReductionCalls(items, k => false) == [] && ReductionResult(items, k => false) == Ok(())
  {
    if |items| > 0 {
      assert !(k => false)(0);
    }
  }

  /** The loop step for a call that fails: it is the last call, and the
      reduction as a whole fails. */
  lemma FailingCallIsLast(items: seq<ItemRef>, ok: nat -> bool, i: nat, before: seq<ReduceCall>, all: seq<ReduceCall>)
    requires i < |items| && !ok(i) && before + CallsFrom(items, ok, i) == all
    ensures before + [ReduceCall(items[i].productId, items[i].quantity, false)] == all
    ensures SomeCallFails(items, ok)
  {
  }

  /** The loop step for a call that succeeds: the calls still to come are
      those from the next item on. */
  lemma SucceedingCallContinues(items: seq<ItemRef>, ok: nat -> bool, i: nat, before: seq<ReduceCall>, all: seq<ReduceCall>)
    requires i < |items| && ok(i) && before + CallsFrom(items, ok, i) == all
    ensures (before + [ReduceCall(items[i].productId, items[i].quantity, true)]) + CallsFrom(items, ok, i + 1) == all
  {
    var c := ReduceCall(items[i].productId, items[i].quantity, true);
    var rest := CallsFrom(items, ok, i + 1);
    assert CallsFrom(items, ok, i) == [c] + rest;
    assert before + ([c] + rest) == (before + [c]) + rest;
  }

  /** `applyDiscountToProduct`'s own check; 0 and 1 are accepted. */
  predicate DiscountInRange(discount: real) {
    !(discount < 0.0 || discount > 1.0)
  }

  class ProductsService {
    const productsRepository: ProductsRepository

    ghost predicate Valid()
      reads this, productsRepository
    {
      productsRepository.Valid()
    }

    constructor (repository: ProductsRepository)
      requires repository.Valid()
      ensures Valid() && productsRepository == repository
    {
      productsRepository := repository;
    }

    method CreateProduct(input: ProductInput, freshId: string) returns (r: Result<Product>)
      requires Valid()
      modifies productsRepository
      ensures Valid() && productsRepository.reduceCalls == old(productsRepository.reduceCalls)
      ensures r.Ok? <==> freshId !in old(productsRepository.products) && Build(freshId, input).Ok?
      ensures r.Ok? ==> productsRepository.products == old(productsRepository.products)[freshId := r.value]
      ensures r.Err? ==> r.message == CreateProductFailed && productsRepository.products == old(productsRepository.products)
    {
      var created := productsRepository.Create(input, freshId);
      r := Rewrap(created, CreateProductFailed);
    }

    method GetProductById(productId: string) returns (r: Result<Product>)
      requires Valid()
      ensures r.Ok? <==> productId in productsRepository.products
      ensures r.Ok? ==> r.value == productsRepository.products[productId]
      ensures r.Err? ==> r.message == RetrieveProductFailed
    {
      var found := productsRepository.FindById(productId);
      r := Rewrap(found, RetrieveProductFailed);
    }

    method GetProducts() returns (r: Result<set<Product>>)
      requires Valid()
      ensures r == Ok(productsRepository.products.Values)
    {
      var all := productsRepository.FindAll();
      r := Rewrap(all, RetrieveProductsFailed);
    }

    method GetProductsByPriceRange(minPrice: Arg, maxPrice: Arg) returns (r: Result<set<Product>>)
      requires Valid()
      ensures r == Rewrap(FindByPriceRange(productsRepository.products, minPrice, maxPrice), PriceRangeQueryFailed)
      ensures r.Err? <==> minPrice.NotANumber? || maxPrice.NotANumber? || minPrice.value > maxPrice.value
    {
      var found := productsRepository.FindProductsByPriceRange(minPrice, maxPrice);
      r := Rewrap(found, PriceRangeQueryFailed);
    }

    /** The repository shown has no `findProductsByQuantityRange`, so the
        call throws and every quantity-range query fails. */
    method GetProductsByQuantityRange(minQuantity: Arg, maxQuantity: Arg) returns (r: Result<set<Product>>)
      requires Valid()
      ensures r == Err(QuantityRangeQueryFailed)
    {
      r := Err(QuantityRangeQueryFailed);
    }

    method ApplyDiscountToProduct(productId: string, discount: real) returns (r: Result<Product>)
      requires Valid()
      modifies productsRepository
      ensures Valid() && productsRepository.reduceCalls == old(productsRepository.reduceCalls)
      ensures r.Ok? <==> DiscountInRange(discount) && productId in old(productsRepository.products)
      ensures r.Ok? ==> r == DiscountRecord(old(productsRepository.products), productId, discount)
      ensures r.Ok? ==> productsRepository.products == old(productsRepository.products)[productId := r.value]
      ensures r.Err? ==> r.message == ApplyDiscountFailed && productsRepository.products == old(productsRepository.products)
    {
      if discount < 0.0 || discount > 1.0 {
        return Err(ApplyDiscountFailed);
      }
      var applied := productsRepository.ApplyDiscountToProduct(productId, discount);
      r := Rewrap(applied, ApplyDiscountFailed);
    }

    /** `reduceProductQuantities(orderProducts)`: one awaited repository call
        per item, in order, where `ok(k)` is whether the call for item `k`
        succeeds; the first failure ends the loop. */
    method ReduceProductQuantities(orderProducts: seq<ItemRef>, ok: nat -> bool) returns (r: Result<()>)
      requires Valid()
      modifies productsRepository
      ensures Valid() && productsRepository.products == old(productsRepository.products)
      ensures productsRepository.reduceCalls == old(productsRepository.reduceCalls) + ReductionCalls(orderProducts, ok)
      ensures r == ReductionResult(orderProducts, ok)
    {
      ghost var all := old(productsRepository.reduceCalls) + ReductionCalls(orderProducts, ok);
      ghost var table := productsRepository.products;
      var i := 0;
      while i < |orderProducts|
        invariant 0 <= i <= |orderProducts|
        invariant productsRepository.products == table
        invariant forall k :: 0 <= k < i ==> ok(k)
        invariant productsRepository.reduceCalls + CallsFrom(orderProducts, ok, i) == all
        decreases |orderProducts| - i
      {
        var item := orderProducts[i];
        ghost var before := productsRepository.reduceCalls;
        var reduced := productsRepository.ReduceQuantityById(item.productId, item.quantity, ok(i));
        if reduced.Err? {
          FailingCallIsLast(orderProducts, ok, i, before, all);
          return Err(ReduceFailed);
        }
        SucceedingCallContinues(orderProducts, ok, i, before, all);
        i := i + 1;
      }
      assert CallsFrom(orderProducts, ok, i) == [];
      assert !SomeCallFails(orderProducts, ok);
      return Ok(());
    }
  }
}
