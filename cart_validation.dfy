/** The three middlewares that guard `POST /api/shop/order/create`:
    `sanitizeCartInput`, `validateCartSize` and `validateCartBeforeCheckout`. */
module CartValidation {

  import opened Wrappers
  import opened Store
  import Text

  const MaxCartItems := 50
  const MaxTotalQuantity := 100
  const MaxLineQuantity := 999

  /** What `req.body.cartItems` holds: nothing, something that is not an array, or an array. */
  datatype CartField<+T> = Missing | NotArray | Items(items: seq<T>)

  /** A cart line as the client sends it. `parsedQuantity` is what `parseInt`
      makes of the client's `quantity` (None for NaN); `price` and `title` are the
      extra fields a client may add, which the server must not trust. */
  datatype RawItem = RawItem(productId: string, parsedQuantity: Option<int>, price: Option<int>, title: Option<string>)

  /** The body of an order-creation request; the cart lines are `Item`s. */
  datatype CheckoutRequest<+Item> = CheckoutRequest(
    userId: string,
    cartId: Id,
    cartItems: CartField<Item>,
    addressInfo: AddressInfo,
    orderStatus: string,
    paymentMethod: string,
    paymentStatus: string,
    totalAmount: int,
    orderDate: int,
    orderUpdateDate: int,
    paymentId: string,
    payerId: string)

  // ---------------------------------------------------------------- sanitizeCartInput

  /** `Math.max(1, Math.min(999, parseInt(quantity) || 1))`. */
  function SanitizeQuantity(parsed: Option<int>): (q: int)
    ensures 1 <= q <= MaxLineQuantity
    ensures parsed.Some? && 1 <= parsed.value <= MaxLineQuantity ==> q == parsed.value
    ensures parsed.Some? && parsed.value > MaxLineQuantity ==> q == MaxLineQuantity
    ensures parsed.None? || parsed.value <= 1 ==> q == 1
  {
    var n := if parsed.None? || parsed.value == 0 then 1 else parsed.value;
    if n < 1 then 1 else if n > MaxLineQuantity then MaxLineQuantity else n
  }

  /** Keeps only `productId` (trimmed) and the clamped quantity of a line. */
  function SanitizeItem(item: RawItem): Line {
    Line(Text.Trim(item.productId), SanitizeQuantity(item.parsedQuantity))
  }

  /** The body after `sanitizeCartInput`: `userId` trimmed and, when `cartItems`
      is an array, every line reduced to its sanitised `{productId, quantity}`. */
  function SanitizeCartInput(body: CheckoutRequest<RawItem>): (r: CheckoutRequest<Line>)
    ensures r.userId == Text.Trim(body.userId)
    ensures body.cartItems.Missing? <==> r.cartItems.Missing?
    ensures body.cartItems.NotArray? <==> r.cartItems.NotArray?
    ensures body.cartItems.Items? ==> |r.cartItems.items| == |body.cartItems.items|
    ensures body.cartItems.Items? ==>
      forall i :: 0 <= i < |r.cartItems.items| ==>
        var l := r.cartItems.items[i];
        && l.productId == Text.Trim(body.cartItems.items[i].productId)
        && l.quantity == SanitizeQuantity(body.cartItems.items[i].parsedQuantity)
        && 1 <= l.quantity <= MaxLineQuantity
    ensures r.totalAmount == body.totalAmount && r.cartId == body.cartId
    ensures && r.addressInfo == body.addressInfo && r.orderStatus == body.orderStatus
            && r.paymentMethod == body.paymentMethod && r.paymentStatus == body.paymentStatus
            && r.orderDate == body.orderDate && r.orderUpdateDate == body.orderUpdateDate
            && r.paymentId == body.paymentId && r.payerId == body.payerId
  {
    var items: CartField<Line> :=
      match body.cartItems
      case Missing => Missing
      case NotArray => NotArray
      case Items(xs) => Items(seq(|xs|, i requires 0 <= i < |xs| => SanitizeItem(xs[i])));
    CheckoutRequest(
      Text.Trim(body.userId), body.cartId, items, body.addressInfo, body.orderStatus,
      body.paymentMethod, body.paymentStatus, body.totalAmount, body.orderDate,
      body.orderUpdateDate, body.paymentId, body.payerId)
  }

  /** A sanitised line read back as a client line carrying nothing extra. */
  function AsRaw(l: Line): RawItem {
    RawItem(l.productId, Some(l.quantity), None, None)
  }

  function AsRawBody(b: CheckoutRequest<Line>): CheckoutRequest<RawItem> {
    var items: CartField<RawItem> :=
      match b.cartItems
      case Missing => Missing
      case NotArray => NotArray
      case Items(ls) => Items(seq(|ls|, i requires 0 <= i < |ls| => AsRaw(ls[i])));
    CheckoutRequest(
      b.userId, b.cartId, items, b.addressInfo, b.orderStatus, b.paymentMethod,
      b.paymentStatus, b.totalAmount, b.orderDate, b.orderUpdateDate, b.paymentId, b.payerId)
  }

  /** Sanitising an already sanitised line changes nothing. */
  lemma SanitizeItemIdempotent(item: RawItem)
    ensures SanitizeItem(AsRaw(SanitizeItem(item))) == SanitizeItem(item)
  {
    Text.TrimIdempotent(item.productId);
  }

  /** Sanitising an already sanitised body changes nothing. */
  lemma {:induction false} SanitizeIdempotent(body: CheckoutRequest<RawItem>)
    ensures SanitizeCartInput(AsRawBody(SanitizeCartInput(body))) == SanitizeCartInput(body)
  {
    var once := SanitizeCartInput(body);
    var twice := SanitizeCartInput(AsRawBody(once));
    Text.TrimIdempotent(body.userId);
    if body.cartItems.Items? {
      var xs := body.cartItems.items;
      var a, b := once.cartItems.items, twice.cartItems.items;
      forall i | 0 <= i < |xs|
        ensures b[i] == a[i]
      {
        SanitizeItemIdempotent(xs[i]);
      }
      assert a == b;
    }
  }

  /** The client's `price` and `title` on a line never reach the sanitised body. */
  lemma {:induction false} SanitizeDropsClientFields(a: CheckoutRequest<RawItem>, b: CheckoutRequest<RawItem>)
    requires a.(cartItems := Missing) == b.(cartItems := Missing)
    requires a.cartItems.Items? <==> b.cartItems.Items?
    requires a.cartItems.Missing? <==> b.cartItems.Missing?
    requires a.cartItems.Items? ==> |a.cartItems.items| == |b.cartItems.items|
    requires a.cartItems.Items? ==> forall i :: 0 <= i < |a.cartItems.items| ==>
      && a.cartItems.items[i].productId == b.cartItems.items[i].productId
      && a.cartItems.items[i].parsedQuantity == b.cartItems.items[i].parsedQuantity
    ensures SanitizeCartInput(a) == SanitizeCartInput(b)
  {
    if a.cartItems.Items? {
      var sa, sb := SanitizeCartInput(a).cartItems.items, SanitizeCartInput(b).cartItems.items;
      assert forall i :: 0 <= i < |sa| ==> sa[i] == sb[i];
    }
  }

  // ---------------------------------------------------------------- validateCartSize

  datatype SizeVerdict = Next | TooManyProducts | TooManyUnits {
    function Message(): string {
      match this
      case Next => ""
      case TooManyProducts => "Cart cannot contain more than 50 different products"
      case TooManyUnits => "Cart cannot contain more than 100 total items"
    }
  }

  /** A cart that is not an array passes on; otherwise more than 50 lines, or more
      than 100 units in all, is refused (the line count is checked first). */
  function ValidateCartSize(cart: CartField<Line>): (r: SizeVerdict)
    ensures r.Next? <==> !cart.Items? || (|cart.items| <= MaxCartItems && Units(cart.items) <= MaxTotalQuantity)
    ensures r.TooManyProducts? <==> cart.Items? && |cart.items| > MaxCartItems
  {
    match cart
    case Items(ls) =>
      if |ls| > MaxCartItems then TooManyProducts
      else if Units(ls) > MaxTotalQuantity then TooManyUnits
      else Next
    case _ => Next
  }

  // ---------------------------------------------------------------- validateCartBeforeCheckout

  datatype LineError =
    | ProductMissing(productId: Id)
    | InsufficientStock(productId: Id, title: string, requestedQuantity: int, availableStock: int)
  {
    function Message(): string {
      match this
      case ProductMissing(_) => "Product not found or no longer available"
      case InsufficientStock(_, _, _, available) =>
        "Only " + (if available < 0 then "-" + Text.DecimalString(-available) else Text.DecimalString(available))
        + " items available in stock"
    }
  }

  datatype ValidatedItem = ValidatedItem(productId: Id, title: string, image: string, price: int, quantity: int, totalStock: int)

  datatype CheckoutCheck =
    | EmptyCart
    | Unavailable(errors: seq<LineError>, validatedItems: seq<ValidatedItem>)
    | Validated(items: seq<ValidatedItem>, totalAmount: int)

  /** The price the server charges: the sale price when it is above zero, else the list price. */
  function UnitPrice(p: Product): int {
    if p.salePrice > 0 then p.salePrice else p.price
  }

  /** A line that does not pass: its product is gone or has less stock than asked for. */
  predicate Fails(catalog: map<Id, Product>, l: Line) {
    l.productId !in catalog || catalog[l.productId].totalStock < l.quantity
  }

  function ErrorsOf(catalog: map<Id, Product>, l: Line): seq<LineError> {
    if l.productId !in catalog then [ProductMissing(l.productId)]
    else
      var p := catalog[l.productId];
      if p.totalStock < l.quantity then [InsufficientStock(l.productId, p.title, l.quantity, p.totalStock)]
      else []
  }

  function PassedOf(catalog: map<Id, Product>, l: Line): seq<ValidatedItem> {
    if Fails(catalog, l) then []
    else
      var p := catalog[l.productId];
      [ValidatedItem(l.productId, p.title, p.image, UnitPrice(p), l.quantity, p.totalStock)]
  }

  /** The error entries of all lines, in line order. */
  function Errors(catalog: map<Id, Product>, ls: seq<Line>): seq<LineError> {
    if ls == [] then [] else Errors(catalog, ls[..|ls| - 1]) + ErrorsOf(catalog, ls[|ls| - 1])
  }

  /** The validated items of all lines that pass, in line order. */
  function Passed(catalog: map<Id, Product>, ls: seq<Line>): seq<ValidatedItem> {
    if ls == [] then [] else Passed(catalog, ls[..|ls| - 1]) + PassedOf(catalog, ls[|ls| - 1])
  }

  /** Sum of price times quantity. */
  function Amount(items: seq<ValidatedItem>): int {
    if items == [] then 0 else Amount(items[..|items| - 1]) + items[|items| - 1].price * items[|items| - 1].quantity
  }

  /** What the gate decides for a cart against a catalog. */
  function Verdict(catalog: map<Id, Product>, cart: CartField<Line>): CheckoutCheck {
    if !cart.Items? || cart.items == [] then EmptyCart
    else if Errors(catalog, cart.items) != [] then Unavailable(Errors(catalog, cart.items), Passed(catalog, cart.items))
    else Validated(Passed(catalog, cart.items), Amount(Passed(catalog, cart.items)))
  }

  /** `validateCartBeforeCheckout`: looks every line up, collects all errors and the
      lines that passed, and on success recomputes the total from server prices. */
  method ValidateCartBeforeCheckout(cart: CartField<Line>, products: ProductTable) returns (r: CheckoutCheck)
    ensures r == Verdict(products.products, cart)
  {
    if !cart.Items? || |cart.items| == 0 {
      return EmptyCart;
    }
    var lines := cart.items;
    var catalog := products.products;
    var validated: seq<ValidatedItem> := [];
    var errors: seq<LineError> := [];
    for i := 0 to |lines|
      invariant validated == Passed(catalog, lines[..i])
      invariant errors == Errors(catalog, lines[..i])
    {
      assert lines[..i + 1][..i] == lines[..i];
      var item := lines[i];
      if item.productId !in catalog {
        errors := errors + [ProductMissing(item.productId)];
        continue;
      }
      var product := catalog[item.productId];
      if product.totalStock < item.quantity {
        errors := errors + [InsufficientStock(item.productId, product.title, item.quantity, product.totalStock)];
        continue;
      }
      var serverPrice := if product.salePrice > 0 then product.salePrice else product.price;
      validated := validated + [ValidatedItem(item.productId, product.title, product.image, serverPrice, item.quantity, product.totalStock)];
    }
    assert lines[..|lines|] == lines;
    if |errors| > 0 {
      return Unavailable(errors, validated);
    }
    r := Validated(validated, Amount(validated));
  }
}

module CartValidationProperties {

  import opened Wrappers
  import opened Store
  import opened CartValidation
  import Text

  /** Every line ends up either as exactly one error or as exactly one validated
      item: a bad line does not stop the scan of the lines after it, so every
      failing line, wherever it sits, has its own error in the result. */
  lemma {:induction false} EveryLineAccountedFor(c: map<Id, Product>, ls: seq<Line>)
    ensures |Errors(c, ls)| + |Passed(c, ls)| == |ls|
    ensures forall i :: 0 <= i < |ls| ==> (|ErrorsOf(c, ls[i])| == 1 <==> Fails(c, ls[i]))
    ensures forall i :: 0 <= i < |ls| && Fails(c, ls[i]) ==> ErrorsOf(c, ls[i])[0] in Errors(c, ls)
  {
    if ls != [] {
      var init := ls[..|ls| - 1];
      EveryLineAccountedFor(c, init);
      forall i | 0 <= i < |ls| && Fails(c, ls[i])
        ensures ErrorsOf(c, ls[i])[0] in Errors(c, ls)
      {
        if i < |init| {
          assert ls[i] == init[i];
        }
      }
    }
  }

  /** The gate reports no error exactly when every line's product exists and has
      at least the requested stock. */
  lemma {:induction false} NoErrorsIffAllAvailable(c: map<Id, Product>, ls: seq<Line>)
    ensures Errors(c, ls) == [] <==> forall i :: 0 <= i < |ls| ==> !Fails(c, ls[i])
  {
    if ls != [] {
      var init := ls[..|ls| - 1];
      NoErrorsIffAllAvailable(c, init);
      assert forall i :: 0 <= i < |init| ==> init[i] == ls[i];
    }
  }

  /** Every error names a line of the cart; a stock error reports the catalog's
      stock, which is below the requested quantity. */
  lemma {:induction false} ErrorsDescribeFailingLines(c: map<Id, Product>, ls: seq<Line>)
    ensures forall e :: e in Errors(c, ls) ==>
      && (exists i :: 0 <= i < |ls| && ls[i].productId == e.productId && Fails(c, ls[i]))
      && (e.ProductMissing? ==> e.productId !in c)
      && (e.InsufficientStock? ==>
            && e.productId in c
            && e.availableStock == c[e.productId].totalStock
            && e.availableStock < e.requestedQuantity)
  {
    if ls != [] {
      var init := ls[..|ls| - 1];
      ErrorsDescribeFailingLines(c, init);
      forall e | e in Errors(c, ls)
        ensures exists i :: 0 <= i < |ls| && ls[i].productId == e.productId && Fails(c, ls[i])
      {
        if e in Errors(c, init) {
          var i :| 0 <= i < |init| && init[i].productId == e.productId && Fails(c, init[i]);
          assert ls[i] == init[i];
        } else {
          assert Fails(c, ls[|ls| - 1]);
        }
      }
    }
  }

  /** Every validated item is priced from the catalog (sale price if above zero,
      else list price) and asks for no more than the stock. */
  lemma {:induction false} PassedItemsAreServerPriced(c: map<Id, Product>, ls: seq<Line>)
    ensures forall v :: v in Passed(c, ls) ==>
      && v.productId in c
      && v.price == UnitPrice(c[v.productId])
      && v.quantity <= c[v.productId].totalStock == v.totalStock
  {
    if ls != [] {
      PassedItemsAreServerPriced(c, ls[..|ls| - 1]);
    }
  }

  /** With no errors the validated items are the cart's lines, in order, one each. */
  lemma {:induction false} AllPassLineByLine(c: map<Id, Product>, ls: seq<Line>)
    requires Errors(c, ls) == []
    ensures |Passed(c, ls)| == |ls|
    ensures forall i :: 0 <= i < |ls| ==>
      && Passed(c, ls)[i].productId == ls[i].productId
      && Passed(c, ls)[i].quantity == ls[i].quantity
      && ls[i].productId in c
      && Passed(c, ls)[i].price == UnitPrice(c[ls[i].productId])
  {
    if ls != [] {
      var init := ls[..|ls| - 1];
      var last := ls[|ls| - 1];
      NoErrorsIffAllAvailable(c, ls);
      assert !Fails(c, last);
      assert Errors(c, init) == [];
      AllPassLineByLine(c, init);
      var p := Passed(c, ls);
      assert p == Passed(c, init) + PassedOf(c, last);
      forall i | 0 <= i < |ls|
        ensures p[i].productId == ls[i].productId && p[i].quantity == ls[i].quantity
        ensures ls[i].productId in c && p[i].price == UnitPrice(c[ls[i].productId])
      {
        if i < |init| {
          assert p[i] == Passed(c, init)[i] && ls[i] == init[i];
        } else {
          assert p[i] == PassedOf(c, last)[0] && ls[i] == last;
        }
      }
    }
  }

  /** Asking for exactly the stock passes; one more unit fails and cites the stock. */
  lemma QuantityEqualToStockPasses(c: map<Id, Product>, l: Line)
    requires l.productId in c && c[l.productId].totalStock == l.quantity
    ensures Errors(c, [l]) == [] && |Passed(c, [l])| == 1
  {
  }

  /** A line for 5 units of a product with 3 in stock is refused with available
      stock 3, and the total counts only the other lines. */
  lemma ShortStockExample(p: Product)
    requires p.totalStock == 3
    ensures var c := map["p" := p];
      Errors(c, [Line("p", 5)]) == [InsufficientStock("p", p.title, 5, 3)]
      && Passed(c, [Line("p", 5)]) == []
  {
  }

  /** A product listed at 100 and on sale at 80 is charged 80 whatever the client
      claimed, since the client's price never reaches the gate. */
  lemma SalePriceExample(p: Product, clientPrice: int)
    requires p.price == 100 && p.salePrice == 80 && p.totalStock >= 1
    ensures var body := CheckoutRequest("u", "c", Items([RawItem("p", Some(1), Some(clientPrice), None)]),
                          AddressInfo("", "", "", "", "", ""), "pending", "paypal", "pending", 1, 0, 0, "", "");
      var cart := SanitizeCartInput(body).cartItems;
      Verdict(map["p" := p], cart).Validated? && Verdict(map["p" := p], cart).items[0].price == 80
  {
    var body := CheckoutRequest("u", "c", Items([RawItem("p", Some(1), Some(clientPrice), None)]),
                  AddressInfo("", "", "", "", "", ""), "pending", "paypal", "pending", 1, 0, 0, "", "");
    Text.NoEdgeWhitespaceIsFixed("p");
    var ls := [Line("p", 1)];
    assert SanitizeCartInput(body).cartItems.items == ls;
    assert ls[..0] == [];
    assert Errors(map["p" := p], ls) == [];
    assert Passed(map["p" := p], ls)[0].price == 80;
  }

  /** The size check passes exactly 50 lines and exactly 100 units. */
  lemma SizeBoundaryPasses(ls: seq<Line>)
    requires |ls| == MaxCartItems && Units(ls) == MaxTotalQuantity
    ensures ValidateCartSize(Items(ls)).Next?
  {
  }
}
