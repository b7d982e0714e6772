/** The checkout route `POST /create`: `sanitizeCartInput`, then
    `validateCartSize`, then `validateCartBeforeCheckout`, then `createOrder`. */
module OrderRoutes {

  import opened Wrappers
  import opened Store
  import opened Http
  import opened CartValidation
  import opened OrderController
  import PaymentService

  /** A middleware's refusal, the gate's 400 listing the unavailable lines
      next to those that passed, or the controller's reply. */
  datatype CheckoutReply =
    | GateRefused(status: int, message: string)
    | ItemsUnavailable(status: int, message: string, errors: seq<LineError>, validatedItems: seq<ValidatedItem>)
    | Controller(reply: Reply<OrderCreated>)

  const UnavailableMessage := "Some items in your cart are not available"

  /** The handler chain. Each middleware either answers or hands the same
      (sanitised) body to the next; the gate's recomputed total is attached to
      the request but `createOrder` reads only the body. */
  method CreateOrderRoute(raw: CheckoutRequest<RawItem>, products: ProductTable, orders: OrderTable,
                          svc: PaymentService.PaymentService, draws: MockDraws,
                          provider: PaymentService.ProviderCreate, newId: Id)
    returns (r: CheckoutReply)
    requires newId !in orders.orders
    modifies orders
    ensures var body := SanitizeCartInput(raw);
      var size := ValidateCartSize(body.cartItems);
      var verdict := Verdict(products.products, body.cartItems);
      && (!size.Next? ==>
            r == GateRefused(BadRequest, size.Message()) && orders.orders == old(orders.orders))
      && (size.Next? && verdict.EmptyCart? ==>
            r == GateRefused(BadRequest, "Cart is empty or invalid") && orders.orders == old(orders.orders))
      && (size.Next? && verdict.Unavailable? ==>
            r == ItemsUnavailable(BadRequest, UnavailableMessage, verdict.errors, verdict.validatedItems) && orders.orders == old(orders.orders))
      && (size.Next? && verdict.Validated? ==>
            var payment := PaymentService.CreatePayment(svc, draws.now, draws.orderDigits, provider);
            && r.Controller?
            && (payment.Err? ==>
                  r.reply == Failure(ServerError, "Error from CREATE PAYMENT - BACKEND") && orders.orders == old(orders.orders))
            && (payment.Ok? ==>
                  && r.reply == Success(200, "Order created successfully",
                                        OrderCreated(newId, payment.value.ApprovalURL(), payment.value.IsDemo()))
                  && orders.orders == old(orders.orders)[newId := OrderFromBody(body, payment.value.IsDemo())]))
  {
    var body := SanitizeCartInput(raw);
    var size := ValidateCartSize(body.cartItems);
    if !size.Next? {
      return GateRefused(BadRequest, size.Message());
    }
    var verdict := ValidateCartBeforeCheckout(body.cartItems, products);
    match verdict
    case EmptyCart =>
      return GateRefused(BadRequest, "Cart is empty or invalid");
    case Unavailable(errors, validatedItems) =>
      return ItemsUnavailable(BadRequest, UnavailableMessage, errors, validatedItems);
    case Validated(_, _) =>
      var reply := CreateOrder(body, orders, svc, draws, provider, newId);
      r := Controller(reply);
  }
}

/** What the chain lets through and what it stores. */
module OrderRoutesProperties {

  import opened Wrappers
  import opened Store
  import opened CartValidation
  import opened OrderController
  import Text

  /** An order that passes the gate is stored with the client's lines after
      sanitising and with the client's `totalAmount`, not the recomputed one. */
  lemma StoredOrderKeepsClientTotal(raw: CheckoutRequest<RawItem>, isDemo: bool)
    requires raw.cartItems.Items?
    ensures var body := SanitizeCartInput(raw);
      && OrderFromBody(body, isDemo).totalAmount == raw.totalAmount
      && OrderFromBody(body, isDemo).cartItems == body.cartItems.items
      && |OrderFromBody(body, isDemo).cartItems| == |raw.cartItems.items|
      && OrderFromBody(body, isDemo).userId == Text.Trim(raw.userId)
  {
  }

  /** The gate's verdict on a one-line cart whose line passes. */
  lemma OneLineVerdict(c: map<Id, Product>, l: Line)
    requires l.productId in c && c[l.productId].totalStock >= l.quantity
    ensures Verdict(c, Items([l])).Validated?
    ensures Verdict(c, Items([l])).totalAmount == UnitPrice(c[l.productId]) * l.quantity
  {
    var ls := [l];
    assert ls[..0] == [] && ls[0] == l;
    assert Errors(c, ls) == Errors(c, []) + ErrorsOf(c, l) == [];
    var v := ValidatedItem(l.productId, c[l.productId].title, c[l.productId].image,
                           UnitPrice(c[l.productId]), l.quantity, c[l.productId].totalStock);
    assert Passed(c, ls) == Passed(c, []) + PassedOf(c, l) == [v];
    assert [v][..0] == [];
    assert Amount([v]) == v.price * v.quantity;
  }

  /** One sale-priced unit: the gate recomputes 80, the client claimed 1, and 1 is stored. */
  lemma ClientTotalWinsExample(p: Product, isDemo: bool)
    requires p.price == 100 && p.salePrice == 80 && p.totalStock >= 1
    ensures var body := CheckoutRequest("u", "c", Items([RawItem("p", Some(1), Some(80), None)]),
                          AddressInfo("", "", "", "", "", ""), "pending", "paypal", "pending", 1, 0, 0, "", "");
      var clean := SanitizeCartInput(body);
      && Verdict(map["p" := p], clean.cartItems).Validated?
      && Verdict(map["p" := p], clean.cartItems).totalAmount == 80
      && OrderFromBody(clean, isDemo).totalAmount == 1
  {
    var body := CheckoutRequest("u", "c", Items([RawItem("p", Some(1), Some(80), None)]),
                  AddressInfo("", "", "", "", "", ""), "pending", "paypal", "pending", 1, 0, 0, "", "");
    Text.NoEdgeWhitespaceIsFixed("p");
    assert SanitizeCartInput(body).cartItems == Items([Line("p", 1)]);
    OneLineVerdict(map["p" := p], Line("p", 1));
  }
}
