/** The admin's order handlers: list every order, read one, overwrite its status. */
module AdminOrderController {

  import opened Wrappers
  import opened Store
  import opened Http

  /** `getAllOrdersOfAllUsers`: `find({})` yields an array, never null, so the
      404 branch is dead and an empty table still answers 200. */
  method GetAllOrdersOfAllUsers(orders: OrderTable) returns (r: Reply<map<Id, Order>>)
    ensures r.Success? && r.status == 200
    ensures r.data == orders.orders
  {
    var all := orders.orders;
    r := Success(200, "", all);
  }

  /** `getOrderDetailsForAdmin`: the order with that id, or 404. */
  method GetOrderDetailsForAdmin(orders: OrderTable, id: Id) returns (r: Reply<Order>)
    ensures id in orders.orders <==> r.Success?
    ensures r.Success? ==> r.status == 200 && r.data == orders.orders[id]
    ensures r.Failure? ==> r == Failure(NotFound, "Order not found")
  {
    if id !in orders.orders {
      return Failure(NotFound, "Order not found");
    }
    r := Success(200, "", orders.orders[id]);
  }

  /** The order after `findByIdAndUpdate(id, { orderStatus })`: an absent
      status (`undefined`) is dropped from the update; any present value is
      written, with no check on the transition. */
  function WithStatus(o: Order, orderStatus: Option<string>): (u: Order)
    ensures orderStatus.Some? ==> u.orderStatus == orderStatus.value
    ensures orderStatus.None? ==> u == o
    ensures u.(orderStatus := o.orderStatus) == o
  {
    match orderStatus
    case Some(s) => o.(orderStatus := s)
    case None => o
  }

  /** `updateOrderStatus`. */
  method UpdateOrderStatus(orders: OrderTable, id: Id, orderStatus: Option<string>) returns (r: Reply<Order>)
    modifies orders
    ensures id !in old(orders.orders) ==>
      r == Failure(NotFound, "Order not found") && orders.orders == old(orders.orders)
    ensures id in old(orders.orders) ==>
      && orders.orders == old(orders.orders)[id := WithStatus(old(orders.orders)[id], orderStatus)]
      && r == Success(200, "Order status updated successfully", WithStatus(old(orders.orders)[id], orderStatus))
  {
    if id !in orders.orders {
      return Failure(NotFound, "Order not found");
    }
    var updated := WithStatus(orders.orders[id], orderStatus);
    orders.orders := orders.orders[id := updated];
    r := Success(200, "Order status updated successfully", updated);
  }
}
