/** The order record of the order service (order/src/models/order.js): line
    items, payment and delivery details and the order status, with the
    schema's required fields, minimums, enumerations and defaults. */
module OrderModel {
  import opened Wrappers

  const PaymentMethods := ["Cash", "Credit Card", "Bank Transfer"]
  const PaymentStatuses := ["Pending", "Received"]
  const TrackingStages := ["Warehouse", "In Transit", "Customer's Door"]
  const DeliveryStatuses := ["Pending", "Completed"]
  const OrderStatuses := ["Pending", "Completed", "Cancelled", "Rejected by the Seller"]

  const DefaultReference := ""
  const DefaultRecipientName := "James Whitman"
  const DefaultRecipientPhone := "0995655199"
  const DefaultDestination := "45 Pine St, Apt 2A, Brookville, 54321"
  const MinItemQuantity: real := 1.0
  const MinTotalAmount: real := 0.0
  const ValidationFailed := "Order validation failed"

  datatype LineItem = LineItem(productId: string, quantity: real, price: real)
  datatype Payment = Payment(paymentMethod: string, status: string, reference: string)
  datatype DeliveryDetails = DeliveryDetails(recipientName: string, recipientPhone: string, destination: string,
                                             tracking: string, status: string)
  datatype Order = Order(id: string, products: seq<LineItem>, totalAmount: real,
                         paymentDetails: Payment, deliveryDetails: DeliveryDetails, status: string)

  predicate ItemValid(i: LineItem) {
    i.productId != "" && i.quantity >= MinItemQuantity
  }

  /** Every rule of the schema, on a stored order. */
  predicate Valid(o: Order) {
    && (forall k :: 0 <= k < |o.products| ==> ItemValid(o.products[k]))
    && o.totalAmount >= MinTotalAmount
    && o.paymentDetails.paymentMethod in PaymentMethods
    && o.paymentDetails.status in PaymentStatuses
    && o.deliveryDetails.tracking in TrackingStages
    && o.deliveryDetails.status in DeliveryStatuses
    && o.status in OrderStatuses
  }

  /** The fields a caller passes to `Order.create`; `None` is an absent field. */
  datatype LineItemInput = LineItemInput(productId: Option<string>, quantity: Option<real>, price: Option<real>)
  datatype PaymentInput = PaymentInput(paymentMethod: Option<string>, status: Option<string>, reference: Option<string>)
  datatype DeliveryInput = DeliveryInput(recipientName: Option<string>, recipientPhone: Option<string>,
                                         destination: Option<string>, tracking: Option<string>, status: Option<string>)
  datatype OrderInput = OrderInput(products: seq<LineItemInput>, totalAmount: Option<real>,
                                   paymentDetails: PaymentInput, deliveryDetails: DeliveryInput, status: Option<string>)

  /** A required string: present and not empty. */
  predicate Given(s: Option<string>) {
    s.Some? && s.value != ""
  }

  /** A required string restricted to `allowed`. */
  predicate OneOf(s: Option<string>, allowed: seq<string>) {
    Given(s) && s.value in allowed
  }

  function OrDefault(s: Option<string>, fallback: string): string {
    if s.Some? then s.value else fallback
  }

  /** One line item, or `None` when it breaks the item schema. */
  function BuildItem(i: LineItemInput): (r: Option<LineItem>)
    ensures r.Some? <==> Given(i.productId) && i.quantity.Some? && i.quantity.value >= 1.0 && i.price.Some?
    ensures r.Some? ==> ItemValid(r.value) && r.value == LineItem(i.productId.value, i.quantity.value, i.price.value)
  {
    if Given(i.productId) && i.quantity.Some? && i.quantity.value >= MinItemQuantity && i.price.Some?
    then Some(LineItem(i.productId.value, i.quantity.value, i.price.value))
    else None
  }

  /** The line items in input order, or `None` when any of them is invalid. */
  function BuildItems(items: seq<LineItemInput>): (r: Option<seq<LineItem>>)
    ensures r.Some? <==> forall k :: 0 <= k < |items| ==> BuildItem(items[k]).Some?
    ensures r.Some? ==> |r.value| == |items| && forall k :: 0 <= k < |items| ==> r.value[k] == BuildItem(items[k]).value
  {
    if |items| == 0 then Some([])
    else
      var first := BuildItem(items[0]);
      var rest := BuildItems(items[1..]);
      if first.None? then None
      else if rest.None? then
        assert !forall k :: 0 <= k < |items| ==> BuildItem(items[k]).Some? by {
          var j :| 0 <= j < |items| - 1 && BuildItem(items[1..][j]).None?;
          assert items[1..][j] == items[j + 1];
        }
        None
      else
        assert forall k :: 1 <= k < |items| ==> items[k] == items[1..][k - 1];
        Some([first.value] + rest.value)
  }

  /** Whether `Order.create(input)` passes validation. */
  predicate Acceptable(input: OrderInput) {
    && (forall k :: 0 <= k < |input.products| ==> BuildItem(input.products[k]).Some?)
    && input.totalAmount.Some? && input.totalAmount.value >= MinTotalAmount
    && OneOf(input.paymentDetails.paymentMethod, PaymentMethods)
    && OneOf(input.paymentDetails.status, PaymentStatuses)
    && OneOf(input.deliveryDetails.tracking, TrackingStages)
    && OneOf(input.deliveryDetails.status, DeliveryStatuses)
    && OneOf(input.status, OrderStatuses)
  }

  /** The order `Order.create(input)` saves under `id`, with the payment
      reference and the recipient fields defaulted when absent. */
  function Build(id: string, input: OrderInput): (r: Result<Order>)
    ensures r.Ok? <==> Acceptable(input)
    ensures r.Ok? ==> Valid(r.value) && r.value.id == id
    ensures r.Ok? ==> |r.value.products| == |input.products|
    ensures r.Ok? ==> forall k :: 0 <= k < |input.products| ==> r.value.products[k] == BuildItem(input.products[k]).value
    ensures r.Ok? ==> r.value.paymentDetails.reference == OrDefault(input.paymentDetails.reference, DefaultReference)
    ensures r.Ok? ==> r.value.deliveryDetails.recipientName == OrDefault(input.deliveryDetails.recipientName, DefaultRecipientName)
    ensures r.Ok? ==> r.value.deliveryDetails.recipientPhone == OrDefault(input.deliveryDetails.recipientPhone, DefaultRecipientPhone)
    ensures r.Ok? ==> r.value.deliveryDetails.destination == OrDefault(input.deliveryDetails.destination, DefaultDestination)
  {
    var items := BuildItems(input.products);
    if !Acceptable(input) then Err(ValidationFailed)
    else
      var p := input.paymentDetails;
      var d := input.deliveryDetails;
      Ok(Order(id, items.value, input.totalAmount.value,
               Payment(p.paymentMethod.value, p.status.value, OrDefault(p.reference, DefaultReference)),
               DeliveryDetails(OrDefault(d.recipientName, DefaultRecipientName),
                               OrDefault(d.recipientPhone, DefaultRecipientPhone),
                               OrDefault(d.destination, DefaultDestination),
                               d.tracking.value, d.status.value),
               input.status.value))
  }

  /** A line item with quantity 0 is refused. */
  lemma ZeroQuantityItemRefused(input: OrderInput, k: nat)
    requires k < |input.products| && input.products[k].quantity == Some(0.0)
    ensures Build("", input).Err?
  {
  }
}
