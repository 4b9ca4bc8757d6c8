/** The storefront's product calls: the filtered product list
    (host-client/src/app/_api/product/getProducts.ts), one product
    (getProductById.ts), the product form's create request (createProduct.ts)
    and the checked update request (updateProductById.ts). */
module StorefrontProducts {
  import opened Wrappers
  import opened Json
  import opened Zod
  import opened Storefront
  import Text

  // ---------------------------------------------------------------------------
  // Schemas

  const NameMinLength := MinLength(2, "Product name must be at least 2 characters long")
  const PricePositive := Positive("Price must be a positive number")
  /** Zod's own message for `.nonnegative()` without one of its own. */
  const QuantityNonNegative := NonNegative("Number must be greater than or equal to 0")
  const UpdateQuantityNonNegative := NonNegative("Quantity must be a non-negative number")

  /** `productSchema`, written out identically in the list call and the
      single-product call. */
  const ProductSchema := ZObject([
    Field("_id", ZString([]), false),
    Field("name", ZString([NameMinLength]), false),
    Field("price", ZNumber([PricePositive]), false),
    Field("description", ZString([]), true),
    Field("quantity", ZNumber([QuantityNonNegative]), true),
    Field("__v", ZNumber([]), true)])

  const ProductsSchema := ZArray(ProductSchema)

  /** The create form's schema: no `_id`, no quantity. */
  const CreateProductSchema := ZObject([
    Field("name", ZString([NameMinLength]), false),
    Field("price", ZNumber([PricePositive]), false),
    Field("description", ZString([]), true)])

  const UpdateProductSchema := ZObject([
    Field("name", ZString([]), true),
    Field("price", ZNumber([PricePositive]), true),
    Field("description", ZString([]), true),
    Field("quantity", ZNumber([UpdateQuantityNonNegative]), true)])

  // ---------------------------------------------------------------------------
  // What the schemas admit

  lemma ProductAccepted(j: Json)
    ensures Accepts(ProductSchema, j) <==>
      j.JObj? && StringAt(j.entries, "_id", 0) && StringAt(j.entries, "name", 2) && PositiveAt(j.entries, "price")
      && OptionalStringAt(j.entries, "description") && OptionalNonNegativeAt(j.entries, "quantity")
      && OptionalNumberAt(j.entries, "__v")
  {
    if j.JObj? {
      var s, es := ProductSchema, j.entries;
      assert FieldsAccept(s, es, 6);
      assert FieldsAccept(s, es, 5) <==> OptionalNumberAt(es, "__v") && FieldsAccept(s, es, 6) by {
        NumberField("__v", es);
      }
      assert FieldsAccept(s, es, 4) <==> OptionalNonNegativeAt(es, "quantity") && FieldsAccept(s, es, 5) by {
        NonNegativeField("quantity", QuantityNonNegative.message, true, es);
      }
      assert FieldsAccept(s, es, 3) <==> OptionalStringAt(es, "description") && FieldsAccept(s, es, 4) by {
        StringField("description", true, es);
      }
      assert FieldsAccept(s, es, 2) <==> PositiveAt(es, "price") && FieldsAccept(s, es, 3) by {
        PositiveField("price", PricePositive.message, false, es);
      }
      assert FieldsAccept(s, es, 1) <==> StringAt(es, "name", 2) && FieldsAccept(s, es, 2) by {
        MinLengthField("name", 2, NameMinLength.message, es);
      }
      assert FieldsAccept(s, es, 0) <==> StringAt(es, "_id", 0) && FieldsAccept(s, es, 1) by {
        StringField("_id", false, es);
      }
    }
  }

  lemma UpdateProductAccepted(j: Json)
    ensures Accepts(UpdateProductSchema, j) <==>
      j.JObj? && OptionalStringAt(j.entries, "name") && OptionalPositiveAt(j.entries, "price")
      && OptionalStringAt(j.entries, "description") && OptionalNonNegativeAt(j.entries, "quantity")
  {
    if j.JObj? {
      var s, es := UpdateProductSchema, j.entries;
      assert FieldsAccept(s, es, 4);
      assert FieldsAccept(s, es, 3) <==> OptionalNonNegativeAt(es, "quantity") && FieldsAccept(s, es, 4) by {
        NonNegativeField("quantity", UpdateQuantityNonNegative.message, true, es);
      }
      assert FieldsAccept(s, es, 2) <==> OptionalStringAt(es, "description") && FieldsAccept(s, es, 3) by {
        StringField("description", true, es);
      }
      assert FieldsAccept(s, es, 1) <==> OptionalPositiveAt(es, "price") && FieldsAccept(s, es, 2) by {
        PositiveField("price", PricePositive.message, true, es);
      }
      assert FieldsAccept(s, es, 0) <==> OptionalStringAt(es, "name") && FieldsAccept(s, es, 1) by {
        StringField("name", true, es);
      }
    }
  }

  lemma CreateProductAccepted(j: Json)
    ensures Accepts(CreateProductSchema, j) <==>
      j.JObj? && StringAt(j.entries, "name", 2) && PositiveAt(j.entries, "price")
      && OptionalStringAt(j.entries, "description")
  {
    if j.JObj? {
      var s, es := CreateProductSchema, j.entries;
      assert FieldsAccept(s, es, 3);
      assert FieldsAccept(s, es, 2) <==> OptionalStringAt(es, "description") && FieldsAccept(s, es, 3) by {
        StringField("description", true, es);
      }
      assert FieldsAccept(s, es, 1) <==> PositiveAt(es, "price") && FieldsAccept(s, es, 2) by {
        PositiveField("price", PricePositive.message, false, es);
      }
      assert FieldsAccept(s, es, 0) <==> StringAt(es, "name", 2) && FieldsAccept(s, es, 1) by {
        MinLengthField("name", 2, NameMinLength.message, es);
      }
    }
  }

  // ---------------------------------------------------------------------------
  // The product list: query string, URL and response check

  /** `ProductFilters`; `None` is an absent filter. */
  datatype ProductFilters = ProductFilters(name: Option<string>, minPrice: Option<real>, maxPrice: Option<real>,
                                           quantity: Option<real>)

  const ProductQueryKeys := ["name", "minPrice", "maxPrice", "quantity"]

  /** Each filter's parameter value, if it is appended: the name when
      truthy, the numbers whenever defined. */
  function ProductQueryValues(f: ProductFilters): seq<Option<ParamValue>> {
    [TextIfTruthy(f.name), NumberIfDefined(f.minPrice), NumberIfDefined(f.maxPrice), NumberIfDefined(f.quantity)]
  }

  /** The parameters `buildQueryParams(filters)` appends, one guarded
      `append` after the other. */
  function ProductQuery(f: ProductFilters): seq<Param> {
    Appended("name", TextIfTruthy(f.name))
    + Appended("minPrice", NumberIfDefined(f.minPrice))
    + Appended("maxPrice", NumberIfDefined(f.maxPrice))
    + Appended("quantity", NumberIfDefined(f.quantity))
  }

  /** The same parameters read as a run over the key list. */
  lemma ProductQueryFollowsKeys(f: ProductFilters)
    ensures ProductQuery(f) == Chosen(ProductQueryKeys, ProductQueryValues(f))
  {
    ChosenOfFour("name", "minPrice", "maxPrice", "quantity",
                 TextIfTruthy(f.name), NumberIfDefined(f.minPrice), NumberIfDefined(f.maxPrice),
                 NumberIfDefined(f.quantity));
  }

  /** `buildQueryParams(filters)`, step by step on a `URLSearchParams`. */
  method BuildQueryParams(f: ProductFilters) returns (ps: seq<Param>)
    ensures ps == ProductQuery(f)
  {
    var params := new SearchParams();
    if f.name.Some? && f.name.value != "" {
      params.Append("name", Text(f.name.value));
    }
    assert params.pairs == Appended("name", TextIfTruthy(f.name));
    if f.minPrice.Some? {
      params.Append("minPrice", Number(f.minPrice.value));
    }
    assert params.pairs == Appended("name", TextIfTruthy(f.name)) + Appended("minPrice", NumberIfDefined(f.minPrice));
    if f.maxPrice.Some? {
      params.Append("maxPrice", Number(f.maxPrice.value));
    }
    assert params.pairs == Appended("name", TextIfTruthy(f.name)) + Appended("minPrice", NumberIfDefined(f.minPrice))
                         + Appended("maxPrice", NumberIfDefined(f.maxPrice));
    if f.quantity.Some? {
      params.Append("quantity", Number(f.quantity.value));
    }
    ps := params.pairs;
  }

  /** Parameters appear in the fixed order name, minPrice, maxPrice,
      quantity; the name only when non-empty, the numbers whenever given, 0
      included. */
  lemma ProductQueryRules(f: ProductFilters)
    ensures SubsequenceOf(KeysOf(ProductQuery(f)), ProductQueryKeys)
    ensures ValueOf(ProductQuery(f), "name") == TextIfTruthy(f.name)
    ensures ValueOf(ProductQuery(f), "minPrice") == NumberIfDefined(f.minPrice)
    ensures ValueOf(ProductQuery(f), "maxPrice") == NumberIfDefined(f.maxPrice)
    ensures ValueOf(ProductQuery(f), "quantity") == NumberIfDefined(f.quantity)
    ensures ProductQuery(f) == [] <==> forall i :: 0 <= i < 4 ==> ProductQueryValues(f)[i].None?
  {
    var ks, vs := ProductQueryKeys, ProductQueryValues(f);
    ProductQueryKeysDistinct();
    ProductQueryFollowsKeys(f);
    ChosenInOrder(ks, vs);
    ChosenValue(ks, vs, 0);
    ChosenValue(ks, vs, 1);
    ChosenValue(ks, vs, 2);
    ChosenValue(ks, vs, 3);
    ChosenEmpty(ks, vs);
  }

  lemma ProductQueryKeysDistinct()
    ensures Distinct(ProductQueryKeys)
  {
    var ks := ProductQueryKeys;
    assert ks[0][0] != ks[1][0] && ks[0][0] != ks[2][0] && ks[0][0] != ks[3][0];
    assert ks[1][1] != ks[2][1] && ks[1][0] != ks[3][0];
    assert ks[2][0] != ks[3][0];
  }

  /** The list request: the bare endpoint exactly when no filter is
      appended. */
  function ProductsRequest(endpoint: string, f: ProductFilters, show: real -> string): (r: Request)
    ensures r.verb == Get && r.body.None?
    ensures r.url == endpoint <==> ProductQuery(f) == []
  {
    Request(Get, UrlWithQuery(endpoint, ProductQuery(f), show), None)
  }

  /** The list call's check of the response. */
  function CheckProducts(response: Json): Result<Json> {
    Validate(ProductsSchema, response, ResponseValidationFailed)
  }

  /** An accepted response is a list of products, each with a name of at
      least two UTF-16 code units, a positive price and, when present, a
      non-negative quantity; a response that is not a list fails with the
      fallback message. */
  lemma AcceptedProductsHaveValidFields(response: Json)
    ensures CheckProducts(response).Ok? ==>
      response.JArr? && forall k :: 0 <= k < |response.items| ==>
        var p := response.items[k];
        p.JObj? && StringAt(p.entries, "name", 2) && PositiveAt(p.entries, "price")
        && OptionalNonNegativeAt(p.entries, "quantity")
    ensures !response.JArr? ==> CheckProducts(response) == Err(ResponseValidationFailed)
  {
    ArrayAccepts(ProductSchema, response);
    if CheckProducts(response).Ok? {
      forall k | 0 <= k < |response.items|
        ensures var p := response.items[k];
          p.JObj? && StringAt(p.entries, "name", 2) && PositiveAt(p.entries, "price")
          && OptionalNonNegativeAt(p.entries, "quantity")
      {
        ProductAccepted(response.items[k]);
      }
    }
    if !response.JArr? {
      WrongShapeGivesFallback(ProductsSchema, response, ResponseValidationFailed);
    }
  }

  // ---------------------------------------------------------------------------
  // One product

  /** The request `useGetProductById(productId)` makes: none at all while
      `productId` is empty (`enabled: !!productId`). */
  function ProductByIdRequest(endpoint: string, productId: string): (r: Option<Request>)
    ensures r.Some? <==> productId != ""
    ensures r.Some? ==> r.value.verb == Get && r.value.body.None? && r.value.url == ItemUrl(endpoint, productId)
  {
    if productId == "" then None else Some(Request(Get, ItemUrl(endpoint, productId), None))
  }

  function CheckProduct(response: Json): Result<Json> {
    Validate(ProductSchema, response, ResponseValidationFailed)
  }

  /** The single-product call applies the same rules as each element of the
      list, and hands back the parsed data on success. */
  lemma CheckProductMatchesList(response: Json)
    ensures CheckProduct(response).Ok? <==> CheckProducts(JArr([response])).Ok?
    ensures CheckProduct(response).Ok? ==> CheckProduct(response).value == Parse(ProductSchema, response, []).data
    ensures !response.JObj? ==> CheckProduct(response) == Err(ResponseValidationFailed)
  {
    ArrayAccepts(ProductSchema, JArr([response]));
    if !response.JObj? {
      WrongShapeGivesFallback(ProductSchema, response, ResponseValidationFailed);
    }
  }

  // ---------------------------------------------------------------------------
  // Creating a product from the form

  /** The form's three fields as `formData.get` returns them: `None` for a
      field the form does not carry (`null`). */
  datatype ProductForm = ProductForm(name: Option<string>, price: Option<string>, description: Option<string>)

  /** The price as `parseFloat` reads the form's text: `parseFloat` is the
      parameter `parse`, `None` standing for NaN; an absent field is read as
      the text "null", which is NaN. NaN reaches the body as `null`. */
  function FormPrice(v: Option<string>, parse: string -> Option<real>): (j: Json)
    ensures j.JNum? <==> v.Some? && parse(v.value).Some?
    ensures j.JNum? ==> j.n == parse(v.value).value
    ensures !j.JNum? ==> j == JNull
  {
    if v.Some? && parse(v.value).Some? then JNum(parse(v.value).value) else JNull
  }

  /** `{ name, price, description }`. */
  function ProductBody(form: ProductForm, parse: string -> Option<real>): (j: Json)
    ensures j.JObj? && Keys(j.entries) == ["name", "price", "description"]
  {
    JObj([Entry("name", FormText(form.name)), Entry("price", FormPrice(form.price, parse)),
          Entry("description", FormText(form.description))])
  }

  /** `createProductHandler(formData)`: the body is checked, then posted. */
  function CreateProduct(endpoint: string, form: ProductForm, parse: string -> Option<real>): Result<Request> {
    SendChecked(CreateProductSchema, ProductBody(form, parse), ValidationFailed, Post, endpoint)
  }

  /** Reading the three body entries back. */
  lemma ProductBodyFields(form: ProductForm, parse: string -> Option<real>)
    ensures Lookup(ProductBody(form, parse).entries, "name") == Some(FormText(form.name))
    ensures Lookup(ProductBody(form, parse).entries, "price") == Some(FormPrice(form.price, parse))
    ensures Lookup(ProductBody(form, parse).entries, "description") == Some(FormText(form.description))
  {
    var es := ProductBody(form, parse).entries;
    assert es[1..][1..] == [es[2]];
    assert Lookup(es, "price") == Lookup(es[1..], "price") by {
      assert "price" != "name";
    }
    assert Lookup(es, "description") == Lookup(es[1..], "description") == Lookup(es[1..][1..], "description") by {
      assert "description" != "name" && "description" != "price";
    }
  }

  /** The request is sent exactly when the name is at least two UTF-16 code
      units long, the price text parses to a positive number and the description field
      is present (an absent one is `null`, which `.optional()` refuses);
      then it is one POST of exactly name, price and description, with no
      quantity. */
  lemma CreateProductRules(endpoint: string, form: ProductForm, parse: string -> Option<real>)
    ensures CreateProduct(endpoint, form, parse).Ok? <==>
      form.name.Some? && Text.Utf16Length(form.name.value) >= 2
      && form.price.Some? && parse(form.price.value).Some? && parse(form.price.value).value > 0.0
      && form.description.Some?
    ensures CreateProduct(endpoint, form, parse).Ok? ==>
      CreateProduct(endpoint, form, parse).value == Request(Post, endpoint, Some(ProductBody(form, parse)))
    ensures "quantity" !in Keys(ProductBody(form, parse).entries)
  {
    FormBodyAccepted(form, parse);
  }

  /** The create schema's reading of the form's body, field by field. */
  lemma FormBodyAccepted(form: ProductForm, parse: string -> Option<real>)
    ensures Accepts(CreateProductSchema, ProductBody(form, parse)) <==>
      form.name.Some? && Text.Utf16Length(form.name.value) >= 2
      && form.price.Some? && parse(form.price.value).Some? && parse(form.price.value).value > 0.0
      && form.description.Some?
  {
    var es := ProductBody(form, parse).entries;
    ProductBodyFields(form, parse);
    CreateProductAccepted(ProductBody(form, parse));
    assert StringAt(es, "name", 2) <==> form.name.Some? && Text.Utf16Length(form.name.value) >= 2;
    assert OptionalStringAt(es, "description") <==> form.description.Some?;
  }

  // ---------------------------------------------------------------------------
  // Updating a product

  /** `updateProductById(productId, updateData)`: checked, then a PATCH to
      the product's URL with the data as given. */
  function UpdateProductById(endpoint: string, productId: string, updateData: Json): Result<Request> {
    SendChecked(UpdateProductSchema, updateData, RequestValidationFailed, Patch, ItemUrl(endpoint, productId))
  }

  /** `{}` is a valid update; an accepted update's price, when present, is
      positive and its quantity, when present, non-negative; an invalid one
      is refused with no request. */
  lemma UpdateProductRules(endpoint: string, productId: string, updateData: Json)
    ensures UpdateProductById(endpoint, productId, JObj([])) == Ok(Request(Patch, ItemUrl(endpoint, productId), Some(JObj([]))))
    ensures UpdateProductById(endpoint, productId, updateData).Ok? <==>
      updateData.JObj? && OptionalStringAt(updateData.entries, "name") && OptionalPositiveAt(updateData.entries, "price")
      && OptionalStringAt(updateData.entries, "description") && OptionalNonNegativeAt(updateData.entries, "quantity")
    ensures UpdateProductById(endpoint, productId, updateData).Ok? ==>
      UpdateProductById(endpoint, productId, updateData).value == Request(Patch, ItemUrl(endpoint, productId), Some(updateData))
  {
    AllOptionalAcceptsEmpty(UpdateProductSchema.fields);
    UpdateProductAccepted(updateData);
  }
}
