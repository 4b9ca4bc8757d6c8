/** The product record of the product service (product/src/models/product.js):
    its field rules and defaults, the inclusive range query shared by the price
    and quantity searches, and the discount applied to a loaded document. */
module ProductModel {
  import opened Wrappers
  import Text

  const DefaultDescription := "No description provided"
  const DefaultQuantity: real := 0.0
  const ValidationFailed := "Product validation failed"
  const NotNumbers := "Both min and max values must be numbers"
  const MinAboveMax := "Min value cannot be greater than max value"
  const DiscountOutOfRange := "Discount must be a number between 0 and 1"

  /** A stored product, keyed by its `_id`. */
  datatype Product = Product(id: string, name: string, price: real, description: string, quantity: real)

  /** The fields a caller passes to `Product.create`; `None` is an absent field. */
  datatype ProductInput = ProductInput(name: Option<string>, price: Option<real>,
                                       description: Option<string>, quantity: Option<real>)

  /** What every stored product satisfies. */
  predicate Valid(p: Product) {
    p.name != "" && p.price >= 0.0 && p.quantity >= 0.0
  }

  /** The schema rules a new document can break. */
  datatype Issue = NameRequired | PriceRequired | PriceMin | QuantityMin

  function Message(i: Issue): string {
    match i
    case NameRequired => "Path `name` is required."
    case PriceRequired => "Path `price` is required."
    case PriceMin => "Price must be a positive number"
    case QuantityMin => "Quantity must be a non-negative number"
  }

  /** `name` is trimmed before the required check, so a blank name is missing. */
  predicate NameMissing(input: ProductInput) {
    input.name.None? || Text.Trim(input.name.value) == ""
  }

  /** The rules a new document breaks, in schema order. */
  function Issues(input: ProductInput): (r: seq<Issue>)
    ensures NameRequired in r <==> NameMissing(input)
    ensures PriceRequired in r <==> input.price.None?
    ensures PriceMin in r <==> input.price.Some? && input.price.value < 0.0
    ensures QuantityMin in r <==> input.quantity.Some? && input.quantity.value < 0.0
  {
    var name: seq<Issue> := if NameMissing(input) then [NameRequired] else [];
    var price: seq<Issue> := if input.price.None? then [PriceRequired] else if input.price.value < 0.0 then [PriceMin] else [];
    var quantity: seq<Issue> := if input.quantity.Some? && input.quantity.value < 0.0 then [QuantityMin] else [];
    assert NameRequired !in price + quantity && PriceRequired !in name + quantity;
    assert PriceMin !in name + quantity && QuantityMin !in name + price;
    name + price + quantity
  }

  /** The document `Product.create(input)` saves under `id`: trimmed strings,
      the description and quantity defaults, and a validation error when any
      rule fails. */
  function Build(id: string, input: ProductInput): (r: Result<Product>)
    ensures r.Ok? <==> Issues(input) == []
    ensures r.Ok? ==> Valid(r.value) && r.value.id == id
    ensures r.Ok? ==> r.value.name == Text.Trim(input.name.value) && r.value.price == input.price.value
    ensures r.Ok? ==> r.value.description == if input.description.None? then DefaultDescription else Text.Trim(input.description.value)
    ensures r.Ok? ==> r.value.quantity == if input.quantity.None? then DefaultQuantity else input.quantity.value
  {
    if Issues(input) != [] then Err(ValidationFailed)
    else
      Ok(Product(id, Text.Trim(input.name.value), input.price.value,
                 if input.description.None? then DefaultDescription else Text.Trim(input.description.value),
                 if input.quantity.None? then DefaultQuantity else input.quantity.value))
  }

  /** A name made only of whitespace, such as a lone no-break space, trims to
      "" and is refused as missing, whatever the other fields hold. */
  lemma BlankNameRefused(id: string, name: string, input: ProductInput)
    requires input.name == Some(name) && Text.AllWhitespace(name)
    ensures Build(id, input) == Err(ValidationFailed)
    ensures NameRequired in Issues(input)
  {
  }

  /** The two numeric fields a range query can name. */
  datatype RangeField = PriceField | QuantityField

  function FieldValue(p: Product, f: RangeField): real {
    match f
    case PriceField => p.price
    case QuantityField => p.quantity
  }

  /** A query argument: a JavaScript number, or any other value. */
  datatype Arg = Num(value: real) | NotANumber

  /** `findInRange(field, min, max)`: the argument checks in order, then the
      `$gte`/`$lte` filter over the whole collection. */
  function FindInRange(table: map<string, Product>, field: RangeField, min: Arg, max: Arg): (r: Result<set<Product>>)
    ensures (min.NotANumber? || max.NotANumber?) <==> r == Err(NotNumbers)
    ensures (min.Num? && max.Num? && min.value > max.value) <==> r == Err(MinAboveMax)
    ensures r.Ok? ==> r.value <= table.Values
  {
    if min.NotANumber? || max.NotANumber? then Err(NotNumbers)
    else if min.value > max.value then Err(MinAboveMax)
    else Ok(set p | p in table.Values && min.value <= FieldValue(p, field) <= max.value)
  }

  function FindByPriceRange(table: map<string, Product>, min: Arg, max: Arg): Result<set<Product>> {
    FindInRange(table, PriceField, min, max)
  }

  function FindByQuantityRange(table: map<string, Product>, min: Arg, max: Arg): Result<set<Product>> {
    FindInRange(table, QuantityField, min, max)
  }

  /** Both ends of a range are inclusive: a record is found exactly when its
      field lies between the bounds, and the bounds may coincide. */
  lemma RangeIsInclusive(table: map<string, Product>, field: RangeField, lo: real, hi: real, p: Product)
    requires lo <= hi && p in table.Values
    ensures FindInRange(table, field, Num(lo), Num(hi)).Ok?
    ensures p in FindInRange(table, field, Num(lo), Num(hi)).value <==> lo <= FieldValue(p, field) <= hi
  {
  }

  /** A range with equal bounds finds exactly the records holding that value. */
  lemma PointRangeFindsEqualValues(table: map<string, Product>, field: RangeField, v: real)
    ensures FindInRange(table, field, Num(v), Num(v)) == Ok(set p | p in table.Values && FieldValue(p, field) == v)
  {
    var found := FindInRange(table, field, Num(v), Num(v)).value;
    assert found == set p | p in table.Values && FieldValue(p, field) == v;
  }

  /** Widening a range never loses a record. */
  lemma WiderRangeFindsMore(table: map<string, Product>, field: RangeField, lo: real, hi: real, lo': real, hi': real)
    requires lo' <= lo <= hi <= hi'
    ensures FindInRange(table, field, Num(lo), Num(hi)).value <= FindInRange(table, field, Num(lo'), Num(hi')).value
  {
  }

  /** The price search is the range query on `price`, the quantity search the
      one on `quantity`. */
  lemma RangeSearchesSelectTheirField(table: map<string, Product>, lo: real, hi: real)
    requires lo <= hi
    ensures FindByPriceRange(table, Num(lo), Num(hi)) == Ok(set p | p in table.Values && lo <= p.price <= hi)
    ensures FindByQuantityRange(table, Num(lo), Num(hi)) == Ok(set p | p in table.Values && lo <= p.quantity <= hi)
  {
    assert FindByPriceRange(table, Num(lo), Num(hi)).value == set p | p in table.Values && lo <= p.price <= hi;
    assert FindByQuantityRange(table, Num(lo), Num(hi)).value == set p | p in table.Values && lo <= p.quantity <= hi;
  }

  /** The price after `applyDiscount(discount)`: the range check comes first,
      then `price * (1 - discount)`. */
  function DiscountedPrice(price: real, discount: real): (r: Result<real>)
    ensures r.Ok? <==> 0.0 <= discount <= 1.0
    ensures r.Err? ==> r.message == DiscountOutOfRange
    ensures r.Ok? && discount == 0.0 ==> r.value == price
    ensures r.Ok? && discount == 1.0 ==> r.value == 0.0
    ensures r.Ok? && price >= 0.0 ==> 0.0 <= r.value <= price
  {
    if discount < 0.0 || discount > 1.0 then Err(DiscountOutOfRange)
    else Ok(price * (1.0 - discount))
  }

  /** A discount keeps a valid product valid, so the `save()` that follows it
      passes the schema's `min` check. */
  lemma DiscountKeepsProductValid(p: Product, discount: real)
    requires Valid(p) && DiscountedPrice(p.price, discount).Ok?
    ensures Valid(p.(price := DiscountedPrice(p.price, discount).value))
  {
  }

  /** A product document loaded from the collection: the record's fields, of
      which `applyDiscount` assigns `price`. */
  class ProductDocument {
    const id: string
    const name: string
    var price: real
    const description: string
    const quantity: real

    function Value(): Product
      reads this
    {
      Product(id, name, price, description, quantity)
    }

    constructor (p: Product)
      ensures Value() == p
    {
      id, name, price, description, quantity := p.id, p.name, p.price, p.description, p.quantity;
    }

    /** `applyDiscount(discount)`: an out-of-range discount throws before the
        price is touched. */
    method ApplyDiscount(discount: real) returns (r: Result<Product>)
      modifies this
      ensures DiscountedPrice(old(price), discount).Err? ==> r == Err(DiscountOutOfRange) && price == old(price)
      ensures DiscountedPrice(old(price), discount).Ok? ==> price == DiscountedPrice(old(price), discount).value && r == Ok(Value())
    {
      if discount < 0.0 || discount > 1.0 {
        return Err(DiscountOutOfRange);
      }
      price := price * (1.0 - discount);
      return Ok(Value());
    }
  }
}
