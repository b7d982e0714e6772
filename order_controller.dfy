/** The shop's order handlers: `createOrder`, `capturePayment`,
    `getAllOrdersByUser` and `getOrderDetails`. */
module OrderController {

  import opened Wrappers
  import opened Store
  import opened Http
  import opened CartValidation
  import PaymentService
  import MockPayment

  datatype OrderCreated = OrderCreated(orderId: Id, approvalURL: Option<string>, isDemo: bool)

  datatype CaptureRequest = CaptureRequest(orderId: Id, paymentId: string, payerId: string)

  /** The random draws and the clock the mock uses during one request. */
  datatype MockDraws = MockDraws(now: nat, orderDigits: string, debugDigits: string, paymentDigits: string, payerDigits: string)
  {
    predicate Valid() {
      MockPayment.IsBase36(paymentDigits) && MockPayment.IsBase36(payerDigits)
    }
  }

  /** The order `createOrder` persists: every field straight from the request
      body, including its `cartItems` and its `totalAmount`, plus the demo flag. */
  function OrderFromBody(body: CheckoutRequest<Line>, isDemo: bool): (o: Order)
    requires body.cartItems.Items?
  {
    Order(body.userId, body.cartId, body.cartItems.items, body.addressInfo, body.orderStatus,
          body.paymentMethod, body.paymentStatus, body.totalAmount, body.orderDate,
          body.orderUpdateDate, body.paymentId, body.payerId, isDemo)
  }

  /** `createOrder`: asks the facade for a payment and, only if that resolves,
      saves the order under the fresh id `newId`. `cartItems.map` throws when the
      body holds no array. */
  method CreateOrder(body: CheckoutRequest<Line>, orders: OrderTable, svc: PaymentService.PaymentService,
                     draws: MockDraws, provider: PaymentService.ProviderCreate, newId: Id)
    returns (r: Reply<OrderCreated>)
    requires newId !in orders.orders
    modifies orders
    ensures !body.cartItems.Items? ==>
      r == Failure(ServerError, "Error from CREATE ORDER - BACKEND") && orders.orders == old(orders.orders)
    ensures body.cartItems.Items? ==>
      var payment := PaymentService.CreatePayment(svc, draws.now, draws.orderDigits, provider);
      && (payment.Err? ==>
            r == Failure(ServerError, "Error from CREATE PAYMENT - BACKEND") && orders.orders == old(orders.orders))
      && (payment.Ok? ==>
            && orders.orders == old(orders.orders)[newId := OrderFromBody(body, payment.value.IsDemo())]
            && r == Success(200, "Order created successfully",
                            OrderCreated(newId, payment.value.ApprovalURL(), payment.value.IsDemo())))
  {
    if !body.cartItems.Items? {
      return Failure(ServerError, "Error from CREATE ORDER - BACKEND");
    }
    var paymentResult := PaymentService.CreatePayment(svc, draws.now, draws.orderDigits, provider);
    if paymentResult.Err? {
      return Failure(ServerError, "Error from CREATE PAYMENT - BACKEND");
    }
    var isDemo := paymentResult.value.IsDemo();
    var newOrder := OrderFromBody(body, isDemo);
    orders.orders := orders.orders[newId := newOrder];
    r := Success(200, "Order created successfully", OrderCreated(newId, paymentResult.value.ApprovalURL(), isDemo));
  }

  /** The result of running the stock loop over some lines. */
  datatype StockUpdate = StockUpdate(products: map<Id, Product>, complete: bool)

  /** The capture loop: subtracts each line's quantity from its product's stock,
      in line order, with no lower bound, and stops at the first line whose
      product is gone (`complete` is then false). */
  function Decrement(stock: map<Id, Product>, lines: seq<Line>): StockUpdate {
    if lines == [] then StockUpdate(stock, true)
    else if lines[0].productId !in stock then StockUpdate(stock, false)
    else
      var p := stock[lines[0].productId];
      Decrement(stock[lines[0].productId := p.(totalStock := p.totalStock - lines[0].quantity)], lines[1..])
  }

  /** The order as capture leaves it: paid, completed, stamped with the payer's ids. */
  function Paid(o: Order, req: CaptureRequest, now: int): (p: Order)
    ensures p.paymentStatus == "paid" && p.orderStatus == "completed"
    ensures p.paymentId == req.paymentId && p.payerId == req.payerId && p.orderUpdateDate == now
    ensures p.(paymentId := o.paymentId, payerId := o.payerId, paymentStatus := o.paymentStatus,
               orderStatus := o.orderStatus, orderUpdateDate := o.orderUpdateDate) == o
  {
    o.(paymentId := req.paymentId, payerId := req.payerId, paymentStatus := "paid",
       orderStatus := "completed", orderUpdateDate := now)
  }

  /** `capturePayment`. A demo order skips the provider; a provider capture that
      throws leaves everything as it was. Otherwise stock is decremented line by
      line; if a product is missing the handler answers 404 with the earlier
      decrements already saved and neither the cart deleted nor the order saved;
      if all are present the cart `order.cartId` is deleted and the paid order saved. */
  method CapturePayment(req: CaptureRequest, orders: OrderTable, products: ProductTable, carts: CartTable,
                        svc: PaymentService.PaymentService, draws: MockDraws,
                        provider: PaymentService.ProviderCapture, now: int)
    returns (r: Reply<Order>)
    requires draws.Valid()
    requires carts.Valid()
    modifies orders, products, carts
    ensures carts.Valid()
    ensures req.orderId !in old(orders.orders) ==>
      && r == Failure(NotFound, "Order not found")
      && orders.orders == old(orders.orders) && products.products == old(products.products)
      && carts.carts == old(carts.carts)
    ensures req.orderId in old(orders.orders) ==>
      var order := old(orders.orders)[req.orderId];
      var call := PaymentService.CapturePayment(svc, req.paymentId, draws.debugDigits,
                                                draws.paymentDigits, draws.payerDigits, provider);
      if !order.isDemoOrder && call.Threw? then
        && r == Failure(ServerError, "Payment capture failed")
        && orders.orders == old(orders.orders) && products.products == old(products.products)
        && carts.carts == old(carts.carts)
      else
        var update := Decrement(old(products.products), order.cartItems);
        && products.products == update.products
        && (update.complete ==>
              && carts.carts == old(carts.carts) - {order.cartId}
              && orders.orders == old(orders.orders)[req.orderId := Paid(order, req, now)]
              && r == Success(200, "Payment captured successfully", Paid(order, req, now)))
        && (!update.complete ==>
              && r == Failure(NotFound, "Product not found")
              && carts.carts == old(carts.carts) && orders.orders == old(orders.orders))
  {
    if req.orderId !in orders.orders {
      return Failure(NotFound, "Order not found");
    }
    var order := orders.orders[req.orderId];
    if !order.isDemoOrder {
      var call := PaymentService.CapturePayment(svc, req.paymentId, draws.debugDigits,
                                                draws.paymentDigits, draws.payerDigits, provider);
      if call.Threw? {
        return Failure(ServerError, "Payment capture failed");
      }
    }
    var paid := Paid(order, req, now);
    var items := order.cartItems;
    var i := 0;
    while i < |items|
      invariant 0 <= i <= |items|
      invariant Decrement(old(products.products), items) == Decrement(products.products, items[i..])
      invariant orders.orders == old(orders.orders) && carts.carts == old(carts.carts)
    {
      var item := items[i];
      if item.productId !in products.products {
        assert items[i..][0] == item;
        return Failure(NotFound, "Product not found");
      }
      var product := products.products[item.productId];
      products.products := products.products[item.productId := product.(totalStock := product.totalStock - item.quantity)];
      assert items[i..][1..] == items[i + 1..];
      i := i + 1;
    }
    carts.carts := carts.carts - {order.cartId};
    orders.orders := orders.orders[req.orderId := paid];
    r := Success(200, "Payment captured successfully", paid);
  }

  /** `getAllOrdersByUser`: the user's orders, or 404 when there are none. */
  method GetAllOrdersByUser(orders: OrderTable, userId: Id) returns (r: Reply<map<Id, Order>>)
    ensures r.Success? <==> exists id :: id in orders.orders && orders.orders[id].userId == userId
    ensures r.Failure? ==> r == Failure(NotFound, "No orders found")
    ensures r.Success? ==> r.status == 200 && forall id :: id in r.data <==> id in orders.orders && orders.orders[id].userId == userId
    ensures r.Success? ==> forall id :: id in r.data ==> r.data[id] == orders.orders[id]
  {
    var mine := map id | id in orders.orders && orders.orders[id].userId == userId :: orders.orders[id];
    if |mine| == 0 {
      assert forall id :: id in orders.orders && orders.orders[id].userId == userId ==> id in mine;
      return Failure(NotFound, "No orders found");
    }
    assert exists id :: id in mine;
    r := Success(200, "Orders fetched successfully", mine);
  }

  /** `getOrderDetails`: the order with that id, or 404. */
  method GetOrderDetails(orders: OrderTable, id: Id) returns (r: Reply<Order>)
    ensures id in orders.orders <==> r.Success?
    ensures r.Success? ==> r.data == orders.orders[id] && r.status == 200
    ensures r.Failure? ==> r == Failure(NotFound, "Order not found")
  {
    if id !in orders.orders {
      return Failure(NotFound, "Order not found");
    }
    r := Success(200, "Order details fetched successfully", orders.orders[id]);
  }
}

/** What the capture loop does to the catalog, proved on its specification
    function `Decrement`. */
module OrderProperties {

  import opened Store
  import opened OrderController

  /** The product after one line's decrement. */
  function Step(stock: map<Id, Product>, l: Line): map<Id, Product>
    requires l.productId in stock
  {
    stock[l.productId := stock[l.productId].(totalStock := stock[l.productId].totalStock - l.quantity)]
  }

  /** The loop touches no product it is not asked to, adds or removes none, and
      changes no field but `totalStock`. */
  lemma {:induction false} DecrementOnlyTouchesStock(stock: map<Id, Product>, lines: seq<Line>)
    ensures Decrement(stock, lines).products.Keys == stock.Keys
    ensures forall id :: id in stock ==>
      Decrement(stock, lines).products[id] == stock[id].(totalStock := Decrement(stock, lines).products[id].totalStock)
    ensures forall id :: id in stock && (forall i :: 0 <= i < |lines| ==> lines[i].productId != id) ==>
      Decrement(stock, lines).products[id] == stock[id]
  {
    if lines != [] && lines[0].productId in stock {
      var next := Step(stock, lines[0]);
      var rest := lines[1..];
      DecrementOnlyTouchesStock(next, rest);
      var after := Decrement(next, rest).products;
      assert Decrement(stock, lines).products == after;
      assert next.Keys == stock.Keys;
      forall id | id in stock
        ensures after[id] == stock[id].(totalStock := after[id].totalStock)
      {
        assert after[id] == next[id].(totalStock := after[id].totalStock);
      }
      forall id | id in stock && (forall i :: 0 <= i < |lines| ==> lines[i].productId != id)
        ensures after[id] == stock[id]
      {
        assert lines[0].productId != id;
        assert next[id] == stock[id];
        forall i | 0 <= i < |rest| ensures rest[i].productId != id {
          assert rest[i] == lines[i + 1];
        }
      }
    }
  }

  /** The loop runs to the end exactly when every line's product exists. */
  lemma {:induction false} CompleteIffAllPresent(stock: map<Id, Product>, lines: seq<Line>)
    ensures Decrement(stock, lines).complete <==> forall i :: 0 <= i < |lines| ==> lines[i].productId in stock
  {
    if lines != [] && lines[0].productId in stock {
      var next := Step(stock, lines[0]);
      CompleteIffAllPresent(next, lines[1..]);
      assert next.Keys == stock.Keys;
      assert forall i :: 1 <= i < |lines| ==> lines[i] == lines[1..][i - 1];
    }
  }

  /** A completed loop lowers each product's stock by exactly the units ordered
      of it, with no lower bound. */
  lemma {:induction false} DecrementSubtractsUnits(stock: map<Id, Product>, lines: seq<Line>)
    requires Decrement(stock, lines).complete
    ensures forall id :: id in stock ==>
      id in Decrement(stock, lines).products &&
      Decrement(stock, lines).products[id].totalStock == stock[id].totalStock - UnitsOf(lines, id)
  {
    if lines != [] {
      var next := Step(stock, lines[0]);
      DecrementSubtractsUnits(next, lines[1..]);
    }
  }

  /** A missing product at line `k` ends the loop there: the decrements of the
      lines before `k` stay applied and nothing after `k` is touched. */
  lemma {:induction false} DecrementStopsAtFirstMissing(stock: map<Id, Product>, lines: seq<Line>, k: nat)
    requires k < |lines| && lines[k].productId !in stock
    requires forall i :: 0 <= i < k ==> lines[i].productId in stock
    ensures !Decrement(stock, lines).complete
    ensures Decrement(stock, lines[..k]).complete
    ensures Decrement(stock, lines).products == Decrement(stock, lines[..k]).products
  {
    if k > 0 {
      var next := Step(stock, lines[0]);
      assert next.Keys == stock.Keys;
      assert lines[1..][..k - 1] == lines[..k][1..];
      DecrementStopsAtFirstMissing(next, lines[1..], k - 1);
    }
  }

  /** Ordering more than is in stock still captures, and the stock goes negative. */
  lemma StockGoesNegative()
    ensures var stock := map["p" := Product("t", "d", "i", "c", "b", 100, 0, 1, 0)];
            var r := Decrement(stock, [Line("p", 3)]);
            r.complete && r.products["p"].totalStock == -2
  {
    var stock := map["p" := Product("t", "d", "i", "c", "b", 100, 0, 1, 0)];
    assert [Line("p", 3)][1..] == [];
  }
}
