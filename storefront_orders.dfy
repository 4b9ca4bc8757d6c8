/** The storefront's order calls: the filtered order list
    (host-client/src/app/_api/order/getOrders.ts), one order
    (getOrderById.ts), and the checked create and update requests
    (createOrder.ts, updateOrderById.ts). */
module StorefrontOrders {
  import opened Wrappers
  import opened Json
  import opened Zod
  import opened Storefront
  import OrderModel

  // ---------------------------------------------------------------------------
  // Schemas

  const QuantityNonNegative := NonNegative("Quantity must be a non-negative number")
  const PricePositive := Positive("Price must be a positive number")
  const TotalPositive := Positive("Total amount must be a positive number")

  /** A populated `productId`: the product's `_id` and `name`. */
  const ProductRefSchema := ZObject([
    Field("_id", ZString([]), false),
    Field("name", ZString([]), false)])

  /** A line item of an order as the order calls return it. */
  const OrderProductSchema := ZObject([
    Field("productId", ProductRefSchema, false),
    Field("quantity", ZNumber([QuantityNonNegative]), false),
    Field("price", ZNumber([PricePositive]), false)])

  const PaymentSchema := ZObject([
    Field("method", ZString([]), false),
    Field("status", ZString([]), false),
    Field("reference", ZString([]), true)])

  const DeliverySchema := ZObject([
    Field("recipientName", ZString([]), false),
    Field("recipientPhone", ZString([]), false),
    Field("destination", ZString([]), false),
    Field("tracking", ZString([]), false),
    Field("status", ZString([]), false)])

  /** `orderSchema`, the same in the list call and the single-order call. */
  const OrderSchema := ZObject([
    Field("_id", ZString([]), false),
    Field("products", ZArray(OrderProductSchema), false),
    Field("totalAmount", ZNumber([TotalPositive]), false),
    Field("paymentDetails", PaymentSchema, false),
    Field("deliveryDetails", DeliverySchema, false),
    Field("status", ZString([]), false),
    Field("createdDate", ZString([]), false),
    Field("updatedDate", ZString([]), false),
    Field("__v", ZNumber([]), true)])

  const OrdersSchema := ZArray(OrderSchema)

  /** A line item in a create or update request body. */
  const OrderLineSchema := ZObject([
    Field("productId", ZString([]), false),
    Field("name", ZString([]), false),
    Field("price", ZNumber([PricePositive]), false),
    Field("quantity", ZNumber([QuantityNonNegative]), false)])

  const CreateOrderSchema := ZObject([
    Field("products", ZArray(OrderLineSchema), false),
    Field("totalAmount", ZNumber([TotalPositive]), false),
    Field("paymentDetails", PaymentSchema, false),
    Field("deliveryDetails", DeliverySchema, false),
    Field("status", ZString([]), false)])

  const UpdatePaymentSchema := ZObject([
    Field("method", ZString([]), true),
    Field("status", ZString([]), true),
    Field("reference", ZString([]), true)])

  const UpdateDeliverySchema := ZObject([
    Field("recipientName", ZString([]), true),
    Field("recipientPhone", ZString([]), true),
    Field("destination", ZString([]), true),
    Field("tracking", ZString([]), true),
    Field("status", ZString([]), true)])

  const UpdateOrderSchema := ZObject([
    Field("products", ZArray(OrderLineSchema), true),
    Field("totalAmount", ZNumber([TotalPositive]), true),
    Field("paymentDetails", UpdatePaymentSchema, true),
    Field("deliveryDetails", UpdateDeliverySchema, true),
    Field("status", ZString([]), true)])

  // ---------------------------------------------------------------------------
  // What the schemas admit

  lemma OrderProductAccepted(j: Json)
    ensures Accepts(OrderProductSchema, j) <==>
      j.JObj? && NestedAt(j.entries, "productId", ProductRefSchema, false)
      && NonNegativeAt(j.entries, "quantity") && PositiveAt(j.entries, "price")
  {
    if j.JObj? {
      var s, es := OrderProductSchema, j.entries;
      assert FieldsAccept(s, es, 3);
      assert FieldsAccept(s, es, 2) <==> PositiveAt(es, "price") && FieldsAccept(s, es, 3) by {
        PositiveField("price", PricePositive.message, false, es);
      }
      assert FieldsAccept(s, es, 1) <==> NonNegativeAt(es, "quantity") && FieldsAccept(s, es, 2) by {
        NonNegativeField("quantity", QuantityNonNegative.message, false, es);
      }
      assert FieldsAccept(s, es, 0) <==> NestedAt(es, "productId", ProductRefSchema, false) && FieldsAccept(s, es, 1) by {
        NestedField("productId", ProductRefSchema, false, es);
      }
    }
  }

  lemma PaymentAccepted(j: Json)
    ensures Accepts(PaymentSchema, j) <==>
      j.JObj? && StringAt(j.entries, "method", 0) && StringAt(j.entries, "status", 0)
      && OptionalStringAt(j.entries, "reference")
  {
    if j.JObj? {
      var s, es := PaymentSchema, j.entries;
      assert FieldsAccept(s, es, 3);
      assert FieldsAccept(s, es, 2) <==> OptionalStringAt(es, "reference") && FieldsAccept(s, es, 3) by {
        StringField("reference", true, es);
      }
      assert FieldsAccept(s, es, 1) <==> StringAt(es, "status", 0) && FieldsAccept(s, es, 2) by {
        StringField("status", false, es);
      }
      assert FieldsAccept(s, es, 0) <==> StringAt(es, "method", 0) && FieldsAccept(s, es, 1) by {
        StringField("method", false, es);
      }
    }
  }

  lemma DeliveryAccepted(j: Json)
    ensures Accepts(DeliverySchema, j) <==>
      j.JObj? && StringAt(j.entries, "recipientName", 0) && StringAt(j.entries, "recipientPhone", 0)
      && StringAt(j.entries, "destination", 0) && StringAt(j.entries, "tracking", 0)
      && StringAt(j.entries, "status", 0)
  {
    if j.JObj? {
      var s, es := DeliverySchema, j.entries;
      assert FieldsAccept(s, es, 5);
      assert FieldsAccept(s, es, 4) <==> StringAt(es, "status", 0) && FieldsAccept(s, es, 5) by {
        StringField("status", false, es);
      }
      assert FieldsAccept(s, es, 3) <==> StringAt(es, "tracking", 0) && FieldsAccept(s, es, 4) by {
        StringField("tracking", false, es);
      }
      assert FieldsAccept(s, es, 2) <==> StringAt(es, "destination", 0) && FieldsAccept(s, es, 3) by {
        StringField("destination", false, es);
      }
      assert FieldsAccept(s, es, 1) <==> StringAt(es, "recipientPhone", 0) && FieldsAccept(s, es, 2) by {
        StringField("recipientPhone", false, es);
      }
      assert FieldsAccept(s, es, 0) <==> StringAt(es, "recipientName", 0) && FieldsAccept(s, es, 1) by {
        StringField("recipientName", false, es);
      }
    }
  }

  /** An order record: its strings, a positive total, and line items, payment
      and delivery details each meeting their own schema. */
  lemma OrderAccepted(j: Json)
    ensures Accepts(OrderSchema, j) <==>
      j.JObj? && StringAt(j.entries, "_id", 0)
      && NestedAt(j.entries, "products", ZArray(OrderProductSchema), false)
      && PositiveAt(j.entries, "totalAmount")
      && NestedAt(j.entries, "paymentDetails", PaymentSchema, false)
      && NestedAt(j.entries, "deliveryDetails", DeliverySchema, false)
      && StringAt(j.entries, "status", 0) && StringAt(j.entries, "createdDate", 0)
      && StringAt(j.entries, "updatedDate", 0) && OptionalNumberAt(j.entries, "__v")
  {
    if j.JObj? {
      var s, es := OrderSchema, j.entries;
      OrderTailAccepted(es);
      OrderMiddleAccepted(es);
      assert FieldsAccept(s, es, 0) <==> StringAt(es, "_id", 0) && FieldsAccept(s, es, 1) by {
        StringField("_id", false, es);
      }
    }
  }

  /** The second to fifth fields of an order record: the line items, the
      total and the two nested details. */
  lemma OrderMiddleAccepted(es: seq<Entry>)
    ensures FieldsAccept(OrderSchema, es, 1) <==>
      NestedAt(es, "products", ZArray(OrderProductSchema), false) && PositiveAt(es, "totalAmount")
      && NestedAt(es, "paymentDetails", PaymentSchema, false)
      && NestedAt(es, "deliveryDetails", DeliverySchema, false) && FieldsAccept(OrderSchema, es, 5)
  {
    var s := OrderSchema;
    assert FieldsAccept(s, es, 4) <==> NestedAt(es, "deliveryDetails", DeliverySchema, false) && FieldsAccept(s, es, 5) by {
      NestedField("deliveryDetails", DeliverySchema, false, es);
    }
    assert FieldsAccept(s, es, 3) <==> NestedAt(es, "paymentDetails", PaymentSchema, false) && FieldsAccept(s, es, 4) by {
      NestedField("paymentDetails", PaymentSchema, false, es);
    }
    assert FieldsAccept(s, es, 2) <==> PositiveAt(es, "totalAmount") && FieldsAccept(s, es, 3) by {
      PositiveField("totalAmount", TotalPositive.message, false, es);
    }
    assert FieldsAccept(s, es, 1) <==> NestedAt(es, "products", ZArray(OrderProductSchema), false) && FieldsAccept(s, es, 2) by {
      NestedField("products", ZArray(OrderProductSchema), false, es);
    }
  }

  /** The last four fields of an order record: three strings and an optional
      version number. */
  lemma OrderTailAccepted(es: seq<Entry>)
    ensures FieldsAccept(OrderSchema, es, 5) <==>
      StringAt(es, "status", 0) && StringAt(es, "createdDate", 0)
      && StringAt(es, "updatedDate", 0) && OptionalNumberAt(es, "__v")
  {
    var s := OrderSchema;
    assert FieldsAccept(s, es, 9);
    assert FieldsAccept(s, es, 8) <==> OptionalNumberAt(es, "__v") && FieldsAccept(s, es, 9) by {
      NumberField("__v", es);
    }
    assert FieldsAccept(s, es, 7) <==> StringAt(es, "updatedDate", 0) && FieldsAccept(s, es, 8) by {
      StringField("updatedDate", false, es);
    }
    assert FieldsAccept(s, es, 6) <==> StringAt(es, "createdDate", 0) && FieldsAccept(s, es, 7) by {
      StringField("createdDate", false, es);
    }
    assert FieldsAccept(s, es, 5) <==> StringAt(es, "status", 0) && FieldsAccept(s, es, 6) by {
      StringField("status", false, es);
    }
  }

  lemma OrderLineAccepted(j: Json)
    ensures Accepts(OrderLineSchema, j) <==>
      j.JObj? && StringAt(j.entries, "productId", 0) && StringAt(j.entries, "name", 0)
      && PositiveAt(j.entries, "price") && NonNegativeAt(j.entries, "quantity")
  {
    if j.JObj? {
      var s, es := OrderLineSchema, j.entries;
      assert FieldsAccept(s, es, 4);
      assert FieldsAccept(s, es, 3) <==> NonNegativeAt(es, "quantity") && FieldsAccept(s, es, 4) by {
        NonNegativeField("quantity", QuantityNonNegative.message, false, es);
      }
      assert FieldsAccept(s, es, 2) <==> PositiveAt(es, "price") && FieldsAccept(s, es, 3) by {
        PositiveField("price", PricePositive.message, false, es);
      }
      assert FieldsAccept(s, es, 1) <==> StringAt(es, "name", 0) && FieldsAccept(s, es, 2) by {
        StringField("name", false, es);
      }
      assert FieldsAccept(s, es, 0) <==> StringAt(es, "productId", 0) && FieldsAccept(s, es, 1) by {
        StringField("productId", false, es);
      }
    }
  }

  lemma CreateOrderAccepted(j: Json)
    ensures Accepts(CreateOrderSchema, j) <==>
      j.JObj? && NestedAt(j.entries, "products", ZArray(OrderLineSchema), false)
      && PositiveAt(j.entries, "totalAmount")
      && NestedAt(j.entries, "paymentDetails", PaymentSchema, false)
      && NestedAt(j.entries, "deliveryDetails", DeliverySchema, false)
      && StringAt(j.entries, "status", 0)
  {
    if j.JObj? {
      var s, es := CreateOrderSchema, j.entries;
      assert FieldsAccept(s, es, 5);
      assert FieldsAccept(s, es, 4) <==> StringAt(es, "status", 0) && FieldsAccept(s, es, 5) by {
        StringField("status", false, es);
      }
      assert FieldsAccept(s, es, 3) <==> NestedAt(es, "deliveryDetails", DeliverySchema, false) && FieldsAccept(s, es, 4) by {
        NestedField("deliveryDetails", DeliverySchema, false, es);
      }
      assert FieldsAccept(s, es, 2) <==> NestedAt(es, "paymentDetails", PaymentSchema, false) && FieldsAccept(s, es, 3) by {
        NestedField("paymentDetails", PaymentSchema, false, es);
      }
      assert FieldsAccept(s, es, 1) <==> PositiveAt(es, "totalAmount") && FieldsAccept(s, es, 2) by {
        PositiveField("totalAmount", TotalPositive.message, false, es);
      }
      assert FieldsAccept(s, es, 0) <==> NestedAt(es, "products", ZArray(OrderLineSchema), false) && FieldsAccept(s, es, 1) by {
        NestedField("products", ZArray(OrderLineSchema), false, es);
      }
    }
  }

  /** Every top-level field of an update is optional; those present must meet
      their rules. */
  lemma UpdateOrderAccepted(j: Json)
    ensures Accepts(UpdateOrderSchema, j) <==>
      j.JObj? && NestedAt(j.entries, "products", ZArray(OrderLineSchema), true)
      && OptionalPositiveAt(j.entries, "totalAmount")
      && NestedAt(j.entries, "paymentDetails", UpdatePaymentSchema, true)
      && NestedAt(j.entries, "deliveryDetails", UpdateDeliverySchema, true)
      && OptionalStringAt(j.entries, "status")
  {
    if j.JObj? {
      var s, es := UpdateOrderSchema, j.entries;
      assert FieldsAccept(s, es, 5);
      assert FieldsAccept(s, es, 4) <==> OptionalStringAt(es, "status") && FieldsAccept(s, es, 5) by {
        StringField("status", true, es);
      }
      assert FieldsAccept(s, es, 3) <==> NestedAt(es, "deliveryDetails", UpdateDeliverySchema, true) && FieldsAccept(s, es, 4) by {
        NestedField("deliveryDetails", UpdateDeliverySchema, true, es);
      }
      assert FieldsAccept(s, es, 2) <==> NestedAt(es, "paymentDetails", UpdatePaymentSchema, true) && FieldsAccept(s, es, 3) by {
        NestedField("paymentDetails", UpdatePaymentSchema, true, es);
      }
      assert FieldsAccept(s, es, 1) <==> OptionalPositiveAt(es, "totalAmount") && FieldsAccept(s, es, 2) by {
        PositiveField("totalAmount", TotalPositive.message, true, es);
      }
      assert FieldsAccept(s, es, 0) <==> NestedAt(es, "products", ZArray(OrderLineSchema), true) && FieldsAccept(s, es, 1) by {
        NestedField("products", ZArray(OrderLineSchema), true, es);
      }
    }
  }

  // ---------------------------------------------------------------------------
  // The order list: query string, URL and response check

  /** `OrderFilters`; `None` is an absent filter. */
  datatype OrderFilters = OrderFilters(status: Option<string>, minTotalAmount: Option<real>, maxTotalAmount: Option<real>,
                                       startDate: Option<string>, endDate: Option<string>)

  const OrderQueryKeys := ["status", "minTotalAmount", "maxTotalAmount", "startDate", "endDate"]

  /** Each filter's parameter value, if it is appended: the strings when
      truthy, the amounts whenever defined. */
  function OrderQueryValues(f: OrderFilters): seq<Option<ParamValue>> {
    [TextIfTruthy(f.status), NumberIfDefined(f.minTotalAmount), NumberIfDefined(f.maxTotalAmount),
     TextIfTruthy(f.startDate), TextIfTruthy(f.endDate)]
  }

  /** The parameters `buildQueryParams(filters)` appends, one guarded
      `append` after the other. */
  function OrderQuery(f: OrderFilters): seq<Param> {
    Appended("status", TextIfTruthy(f.status))
    + Appended("minTotalAmount", NumberIfDefined(f.minTotalAmount))
    + Appended("maxTotalAmount", NumberIfDefined(f.maxTotalAmount))
    + Appended("startDate", TextIfTruthy(f.startDate))
    + Appended("endDate", TextIfTruthy(f.endDate))
  }

  /** The same parameters read as a run over the key list. */
  lemma OrderQueryFollowsKeys(f: OrderFilters)
    ensures OrderQuery(f) == Chosen(OrderQueryKeys, OrderQueryValues(f))
  {
    ChosenOfFive("status", "minTotalAmount", "maxTotalAmount", "startDate", "endDate",
                 TextIfTruthy(f.status), NumberIfDefined(f.minTotalAmount), NumberIfDefined(f.maxTotalAmount),
                 TextIfTruthy(f.startDate), TextIfTruthy(f.endDate));
  }

  /** `buildQueryParams(filters)`, step by step on a `URLSearchParams`. */
  method BuildQueryParams(f: OrderFilters) returns (ps: seq<Param>)
    ensures ps == OrderQuery(f)
  {
    var params := new SearchParams();
    if f.status.Some? && f.status.value != "" {
      params.Append("status", Text(f.status.value));
    }
    assert params.pairs == Appended("status", TextIfTruthy(f.status));
    if f.minTotalAmount.Some? {
      params.Append("minTotalAmount", Number(f.minTotalAmount.value));
    }
    assert params.pairs == Appended("status", TextIfTruthy(f.status)) + Appended("minTotalAmount", NumberIfDefined(f.minTotalAmount));
    if f.maxTotalAmount.Some? {
      params.Append("maxTotalAmount", Number(f.maxTotalAmount.value));
    }
    assert params.pairs == Appended("status", TextIfTruthy(f.status)) + Appended("minTotalAmount", NumberIfDefined(f.minTotalAmount)) + Appended("maxTotalAmount", NumberIfDefined(f.maxTotalAmount));
    if f.startDate.Some? && f.startDate.value != "" {
      params.Append("startDate", Text(f.startDate.value));
    }
    assert params.pairs == Appended("status", TextIfTruthy(f.status)) + Appended("minTotalAmount", NumberIfDefined(f.minTotalAmount)) + Appended("maxTotalAmount", NumberIfDefined(f.maxTotalAmount)) + Appended("startDate", TextIfTruthy(f.startDate));
    if f.endDate.Some? && f.endDate.value != "" {
      params.Append("endDate", Text(f.endDate.value));
    }
    assert params.pairs == Appended("status", TextIfTruthy(f.status)) + Appended("minTotalAmount", NumberIfDefined(f.minTotalAmount)) + Appended("maxTotalAmount", NumberIfDefined(f.maxTotalAmount)) + Appended("startDate", TextIfTruthy(f.startDate)) + Appended("endDate", TextIfTruthy(f.endDate));
    ps := params.pairs;
  }

  /** Parameters appear in the fixed order status, minTotalAmount,
      maxTotalAmount, startDate, endDate; the strings only when non-empty,
      the amounts whenever given, 0 included. */
  lemma OrderQueryRules(f: OrderFilters)
    ensures SubsequenceOf(KeysOf(OrderQuery(f)), OrderQueryKeys)
    ensures ValueOf(OrderQuery(f), "status") == TextIfTruthy(f.status)
    ensures ValueOf(OrderQuery(f), "minTotalAmount") == NumberIfDefined(f.minTotalAmount)
    ensures ValueOf(OrderQuery(f), "maxTotalAmount") == NumberIfDefined(f.maxTotalAmount)
    ensures ValueOf(OrderQuery(f), "startDate") == TextIfTruthy(f.startDate)
    ensures ValueOf(OrderQuery(f), "endDate") == TextIfTruthy(f.endDate)
    ensures OrderQuery(f) == [] <==> forall i :: 0 <= i < 5 ==> OrderQueryValues(f)[i].None?
  {
    var ks, vs := OrderQueryKeys, OrderQueryValues(f);
    OrderQueryKeysDistinct();
    OrderQueryFollowsKeys(f);
    ChosenInOrder(ks, vs);
    ChosenValue(ks, vs, 0);
    ChosenValue(ks, vs, 1);
    ChosenValue(ks, vs, 2);
    ChosenValue(ks, vs, 3);
    ChosenValue(ks, vs, 4);
    ChosenEmpty(ks, vs);
  }

  lemma OrderQueryKeysDistinct()
    ensures Distinct(OrderQueryKeys)
  {
    var ks := OrderQueryKeys;
    assert ks[0][1] != ks[1][1] && ks[0][1] != ks[2][1] && |ks[0]| != |ks[3]| && |ks[0]| != |ks[4]|;
    assert ks[1][1] != ks[2][1] && ks[1][0] != ks[3][0] && ks[1][0] != ks[4][0];
    assert ks[2][0] != ks[3][0] && ks[2][0] != ks[4][0];
    assert ks[3][0] != ks[4][0];
  }

  /** The list request: the bare endpoint exactly when no filter is
      appended. */
  function OrdersRequest(endpoint: string, f: OrderFilters, show: real -> string): (r: Request)
    ensures r.verb == Get && r.body.None?
    ensures r.url == endpoint <==> OrderQuery(f) == []
  {
    Request(Get, UrlWithQuery(endpoint, OrderQuery(f), show), None)
  }

  /** The list call's check of the response. */
  function CheckOrders(response: Json): Result<Json> {
    Validate(OrdersSchema, response, ResponseValidationFailed)
  }

  /** An accepted response is a list of orders, each with a positive total
      and line items of non-negative quantity and positive price; a response
      that is not a list fails with the fallback message. */
  lemma AcceptedOrdersHaveValidAmounts(response: Json)
    ensures CheckOrders(response).Ok? ==>
      response.JArr? && forall k :: 0 <= k < |response.items| ==>
        var o := response.items[k];
        o.JObj? && PositiveAt(o.entries, "totalAmount")
        && var ps := Lookup(o.entries, "products");
           ps.Some? && ps.value.JArr?
           && forall m :: 0 <= m < |ps.value.items| ==>
                ps.value.items[m].JObj? && NonNegativeAt(ps.value.items[m].entries, "quantity")
                && PositiveAt(ps.value.items[m].entries, "price")
    ensures !response.JArr? ==> CheckOrders(response) == Err(ResponseValidationFailed)
  {
    ArrayAccepts(OrderSchema, response);
    if CheckOrders(response).Ok? {
      forall k | 0 <= k < |response.items|
        ensures var o := response.items[k];
          o.JObj? && PositiveAt(o.entries, "totalAmount")
          && var ps := Lookup(o.entries, "products");
             ps.Some? && ps.value.JArr?
             && forall m :: 0 <= m < |ps.value.items| ==>
                  ps.value.items[m].JObj? && NonNegativeAt(ps.value.items[m].entries, "quantity")
                  && PositiveAt(ps.value.items[m].entries, "price")
      {
        var o := response.items[k];
        OrderAccepted(o);
        var ps := Lookup(o.entries, "products").value;
        ArrayAccepts(OrderProductSchema, ps);
        forall m | 0 <= m < |ps.items|
          ensures ps.items[m].JObj? && NonNegativeAt(ps.items[m].entries, "quantity") && PositiveAt(ps.items[m].entries, "price")
        {
          OrderProductAccepted(ps.items[m]);
        }
      }
    }
    if !response.JArr? {
      WrongShapeGivesFallback(OrdersSchema, response, ResponseValidationFailed);
    }
  }

  // ---------------------------------------------------------------------------
  // One order

  function OrderByIdRequest(endpoint: string, orderId: string): (r: Request)
    ensures r.verb == Get && r.body.None? && r.url == ItemUrl(endpoint, orderId)
  {
    Request(Get, ItemUrl(endpoint, orderId), None)
  }

  function CheckOrder(response: Json): Result<Json> {
    Validate(OrderSchema, response, ResponseValidationFailed)
  }

  /** The single-order call applies the same rules as each element of the
      list, and hands back the parsed data on success. */
  lemma CheckOrderMatchesList(response: Json)
    ensures CheckOrder(response).Ok? <==> CheckOrders(JArr([response])).Ok?
    ensures CheckOrder(response).Ok? ==> CheckOrder(response).value == Parse(OrderSchema, response, []).data
  {
    ArrayAccepts(OrderSchema, JArr([response]));
  }

  // ---------------------------------------------------------------------------
  // Creating and updating

  /** `createOrder(orderData)`: checked, then posted as given. */
  function CreateOrder(endpoint: string, orderData: Json): Result<Request> {
    SendChecked(CreateOrderSchema, orderData, RequestValidationFailed, Post, endpoint)
  }

  /** An invalid body is refused before any request; a valid one is posted
      once, unchanged, to the orders endpoint. */
  lemma CreateOrderSendsOnlyValid(endpoint: string, orderData: Json)
    ensures CreateOrder(endpoint, orderData).Ok? <==> Accepts(CreateOrderSchema, orderData)
    ensures CreateOrder(endpoint, orderData).Ok? ==> CreateOrder(endpoint, orderData).value == Request(Post, endpoint, Some(orderData))
    ensures CreateOrder(endpoint, orderData).Ok? ==>
      orderData.JObj? && PositiveAt(orderData.entries, "totalAmount")
  {
    CreateOrderAccepted(orderData);
  }

  /** A line item the client lets through with quantity 0, which the order
      service's schema then refuses (its minimum is 1). */
  lemma ZeroQuantityPassesClientOnly(productId: string, name: string, price: real)
    requires productId != "" && price > 0.0
    ensures Accepts(OrderLineSchema, JObj([Entry("productId", JStr(productId)), Entry("name", JStr(name)),
                                           Entry("price", JNum(price)), Entry("quantity", JNum(0.0))]))
    ensures OrderModel.BuildItem(OrderModel.LineItemInput(Some(productId), Some(0.0), Some(price))).None?
  {
    ZeroQuantityLineAccepted(productId, name, price);
  }

  lemma ZeroQuantityLineAccepted(productId: string, name: string, price: real)
    requires price > 0.0
    ensures Accepts(OrderLineSchema, JObj([Entry("productId", JStr(productId)), Entry("name", JStr(name)),
                                           Entry("price", JNum(price)), Entry("quantity", JNum(0.0))]))
  {
    var e0, e1, e2, e3 := Entry("productId", JStr(productId)), Entry("name", JStr(name)),
                          Entry("price", JNum(price)), Entry("quantity", JNum(0.0));
    var es := [e0, e1, e2, e3];
    assert es[1..] == [e1, e2, e3] && es[1..][1..] == [e2, e3] && es[1..][1..][1..] == [e3];
    assert Lookup(es, "productId") == Some(JStr(productId));
    assert Lookup(es, "name") == Some(JStr(name)) by {
      assert "name" != "productId";
    }
    assert Lookup(es, "price") == Some(JNum(price)) by {
      assert "price" != "productId" && "price" != "name";
    }
    assert Lookup(es, "quantity") == Some(JNum(0.0)) by {
      assert "quantity" != "productId" && "quantity" != "name" && "quantity" != "price";
      assert Lookup(es, "quantity") == Lookup([e1, e2, e3], "quantity") == Lookup([e2, e3], "quantity");
    }
    assert StringAt(es, "productId", 0) && StringAt(es, "name", 0);
    assert PositiveAt(es, "price") && NonNegativeAt(es, "quantity");
    OrderLineAccepted(JObj(es));
  }

  /** `updateOrderById(orderId, updateData)`: checked, then a PATCH to
      the order's URL with the data as given. */
  function UpdateOrderById(endpoint: string, orderId: string, updateData: Json): Result<Request> {
    SendChecked(UpdateOrderSchema, updateData, RequestValidationFailed, Patch, ItemUrl(endpoint, orderId))
  }

  /** `{}` is a valid update; an accepted update's total, when present, is
      positive. */
  lemma UpdateOrderRules(endpoint: string, orderId: string, updateData: Json)
    ensures UpdateOrderById(endpoint, orderId, JObj([])) == Ok(Request(Patch, ItemUrl(endpoint, orderId), Some(JObj([]))))
    ensures UpdateOrderById(endpoint, orderId, updateData).Ok? ==>
      updateData.JObj? && OptionalPositiveAt(updateData.entries, "totalAmount")
    ensures UpdateOrderById(endpoint, orderId, updateData).Ok? ==>
      UpdateOrderById(endpoint, orderId, updateData).value == Request(Patch, ItemUrl(endpoint, orderId), Some(updateData))
  {
    AllOptionalAcceptsEmpty(UpdateOrderSchema.fields);
    UpdateOrderAccepted(updateData);
  }
}
