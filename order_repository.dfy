/** The orders collection behind order/src/repositories/orderRepository.js: a
    table from `_id` to order, with lookups, the status filter and the two
    in-place status updates, each re-thrown under the repository's own
    message. */
module OrdersRepository {
  import opened Wrappers
  import opened OrderModel

  const CreateFailed := "Failed to create order"
  const FindByIdFailed := "Failed to find order by ID"
  const UpdateStatusFailed := "Failed to update order status"
  const UpdatePaymentFailed := "Failed to update payment status"

  /** Every order is stored under its own `_id` and meets the schema. */
  ghost predicate TableValid(table: map<string, Order>) {
    forall id :: id in table ==> table[id].id == id && Valid(table[id])
  }

  /** `findOrdersByStatus(status)`: the orders whose status is `status`. */
  function WithStatus(table: map<string, Order>, status: string): (r: set<Order>)
    ensures r <= table.Values
  {
    set o | o in table.Values && o.status == status
  }

  /** The order saved by `updateStatus(orderId, newStatus)`, or the error it
      throws: a missing order, or a status the schema's enumeration refuses
      when the document is saved. */
  function StatusUpdate(table: map<string, Order>, orderId: string, newStatus: string): (r: Result<Order>)
    ensures r.Ok? <==> orderId in table && newStatus in OrderStatuses
    ensures r.Err? ==> r.message == UpdateStatusFailed
    ensures r.Ok? ==> r.value == table[orderId].(status := newStatus)
  {
    if orderId !in table then Err(UpdateStatusFailed)
    else if newStatus !in OrderStatuses then Err(UpdateStatusFailed)
    else Ok(table[orderId].(status := newStatus))
  }

  /** The order saved by `updatePaymentStatus(orderId, paymentStatus)`. */
  function PaymentUpdate(table: map<string, Order>, orderId: string, paymentStatus: string): (r: Result<Order>)
    ensures r.Ok? <==> orderId in table && paymentStatus in PaymentStatuses
    ensures r.Err? ==> r.message == UpdatePaymentFailed
    ensures r.Ok? ==> r.value == table[orderId].(paymentDetails := table[orderId].paymentDetails.(status := paymentStatus))
  {
    if orderId !in table then Err(UpdatePaymentFailed)
    else if paymentStatus !in PaymentStatuses then Err(UpdatePaymentFailed)
    else Ok(table[orderId].(paymentDetails := table[orderId].paymentDetails.(status := paymentStatus)))
  }

  /** A successful status update keeps the table valid, and afterwards the
      order is found by its new status. */
  lemma StatusUpdateKeepsTableValid(table: map<string, Order>, orderId: string, newStatus: string)
    requires TableValid(table) && StatusUpdate(table, orderId, newStatus).Ok?
    ensures var t := table[orderId := StatusUpdate(table, orderId, newStatus).value];
      TableValid(t) && StatusUpdate(table, orderId, newStatus).value in WithStatus(t, newStatus)
  {
    var o := StatusUpdate(table, orderId, newStatus).value;
    var t := table[orderId := o];
    assert t[orderId] == o;
  }

  /** Updating to the status an order already has stores the same order. */
  lemma StatusUpdateIsIdempotent(table: map<string, Order>, orderId: string, newStatus: string)
    requires StatusUpdate(table, orderId, newStatus).Ok?
    ensures var o := StatusUpdate(table, orderId, newStatus).value;
      StatusUpdate(table[orderId := o], orderId, newStatus) == Ok(o)
  {
  }

  /** A successful payment update keeps the table valid and leaves the order's
      own status alone. */
  lemma PaymentUpdateKeepsTableValid(table: map<string, Order>, orderId: string, paymentStatus: string)
    requires TableValid(table) && PaymentUpdate(table, orderId, paymentStatus).Ok?
    ensures TableValid(table[orderId := PaymentUpdate(table, orderId, paymentStatus).value])
    ensures PaymentUpdate(table, orderId, paymentStatus).value.status == table[orderId].status
  {
  }

  /** The status filter finds exactly the orders holding that status, and
      never one whose status is outside the enumeration. */
  lemma WithStatusFindsExactly(table: map<string, Order>, status: string, o: Order)
    requires TableValid(table)
    ensures o in WithStatus(table, status) <==> o in table.Values && o.status == status
    ensures status !in OrderStatuses ==> WithStatus(table, status) == {}
  {
  }

  class OrdersRepository {
    var orders: map<string, Order>

    ghost predicate Valid()
      reads this
    {
      TableValid(orders)
    }

    constructor (initial: map<string, Order>)
      requires TableValid(initial)
      ensures Valid() && orders == initial
    {
      orders := initial;
    }

    /** `create(order)` under the fresh `_id` the database assigns. */
    method Create(input: OrderInput, freshId: string) returns (r: Result<Order>)
      requires Valid()
      modifies this
      ensures Valid()
      ensures r.Ok? <==> freshId !in old(orders) && Acceptable(input)
      ensures r.Ok? ==> r == Build(freshId, input) && orders == old(orders)[freshId := r.value]
      ensures r.Err? ==> r.message == CreateFailed && orders == old(orders)
    {
      var built := Build(freshId, input);
      if freshId in orders || built.Err? {
        return Err(CreateFailed);
      }
      orders := orders[freshId := built.value];
      return built;
    }

    /** `findById(orderId)`: a missing order throws rather than returning null. */
    method FindById(orderId: string) returns (r: Result<Order>)
      requires Valid()
      ensures r.Ok? <==> orderId in orders
      ensures r.Ok? ==> r.value == orders[orderId] && r.value.id == orderId && OrderModel.Valid(r.value)
      ensures r.Err? ==> r.message == FindByIdFailed
    {
      if orderId !in orders {
        return Err(FindByIdFailed);
      }
      return Ok(orders[orderId]);
    }

    /** `findAll()` with no filter, as the service calls it. */
    method FindAll() returns (r: Result<set<Order>>)
      requires Valid()
      ensures r == Ok(orders.Values)
    {
      return Ok(orders.Values);
    }

    method FindOrdersByStatus(status: string) returns (r: Result<set<Order>>)
      requires Valid()
      ensures r.Ok? && (forall o :: o in r.value <==> o in orders.Values && o.status == status)
      ensures status !in OrderStatuses ==> r.value == {}
    {
      r := Ok(WithStatus(orders, status));
      forall o: Order
        ensures o in r.value <==> o in orders.Values && o.status == status
      {
        WithStatusFindsExactly(orders, status, o);
      }
      if status !in OrderStatuses {
        WithStatusFindsExactly(orders, status, Order("", [], 0.0, Payment("", "", ""), DeliveryDetails("", "", "", "", ""), ""));
      }
    }

    /** `updateStatus(orderId, newStatus)`: load, assign `status`, save. */
    method UpdateStatus(orderId: string, newStatus: string) returns (r: Result<Order>)
      requires Valid()
      modifies this
      ensures Valid()
      ensures r == StatusUpdate(old(orders), orderId, newStatus)
      ensures r.Ok? ==> orders == old(orders)[orderId := r.value]
      ensures r.Err? ==> orders == old(orders)
    {
      if orderId !in orders {
        return Err(UpdateStatusFailed);
      }
      var order := orders[orderId].(status := newStatus);
      if !OrderModel.Valid(order) {
        return Err(UpdateStatusFailed);
      }
      StatusUpdateKeepsTableValid(orders, orderId, newStatus);
      orders := orders[orderId := order];
      return Ok(order);
    }

    /** `updatePaymentStatus(orderId, paymentStatus)`: load, assign
        `paymentDetails.status`, save. */
    method UpdatePaymentStatus(orderId: string, paymentStatus: string) returns (r: Result<Order>)
      requires Valid()
      modifies this
      ensures Valid()
      ensures r == PaymentUpdate(old(orders), orderId, paymentStatus)
      ensures r.Ok? ==> orders == old(orders)[orderId := r.value]
      ensures r.Err? ==> orders == old(orders)
    {
      if orderId !in orders {
        return Err(UpdatePaymentFailed);
      }
      var order := orders[orderId];
      order := order.(paymentDetails := order.paymentDetails.(status := paymentStatus));
      if !OrderModel.Valid(order) {
        return Err(UpdatePaymentFailed);
      }
      PaymentUpdateKeepsTableValid(orders, orderId, paymentStatus);
      orders := orders[orderId := order];
      return Ok(order);
    }
  }
}
