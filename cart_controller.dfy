/** The shop's server-side cart handlers: `addToCart`, `getCart`,
    `updateQuantity` and `removeFromCart`, over the cart and product tables. */
module CartController {

  import opened Wrappers
  import opened Store
  import opened Http

  /** A saved cart document as `addToCart` returns it. */
  datatype StoredCart = StoredCart(cartId: Id, userId: Id, items: seq<Line>)

  /** One cart line with its product populated. When the product is gone the
      populated reference is null: the id, image and prices are null and the
      title is "Product not found". */
  datatype ItemView = ItemView(
    productId: Option<Id>,
    image: Option<string>,
    title: string,
    price: Option<int>,
    salePrice: Option<int>,
    quantity: int)

  datatype CartView = CartView(cartId: Id, userId: Id, items: seq<ItemView>)

  function View(catalog: map<Id, Product>, l: Line): (v: ItemView)
    ensures v.quantity == l.quantity
    ensures v.productId.Some? <==> l.productId in catalog
    ensures v.productId.Some? ==> v.productId.value == l.productId
    ensures l.productId in catalog ==>
      v.title == catalog[l.productId].title && v.price == Some(catalog[l.productId].price)
      && v.salePrice == Some(catalog[l.productId].salePrice) && v.image == Some(catalog[l.productId].image)
    ensures l.productId !in catalog ==>
      v == ItemView(None, None, "Product not found", None, None, l.quantity)
  {
    if l.productId in catalog then
      var p := catalog[l.productId];
      ItemView(Some(l.productId), Some(p.image), p.title, Some(p.price), Some(p.salePrice), l.quantity)
    else
      ItemView(None, None, "Product not found", None, None, l.quantity)
  }

  function Views(catalog: map<Id, Product>, lines: seq<Line>): (vs: seq<ItemView>)
    ensures |vs| == |lines|
    ensures forall i :: 0 <= i < |lines| ==> vs[i] == View(catalog, lines[i])
  {
    seq(|lines|, i requires 0 <= i < |lines| => View(catalog, lines[i]))
  }

  /** The id of the user's cart, or `fresh` when the user has none yet. */
  function CartIdFor(carts: map<Id, Cart>, userId: Id, freshId: Id): (id: Id)
    requires OneCartPerUser(carts) && freshId !in carts
    ensures id in carts ==> carts[id].userId == userId
    ensures id !in carts ==> id == freshId && forall c :: c in carts ==> carts[c].userId != userId
  {
    match CartOf(carts, userId)
    case Some(id) => id
    case None => freshId
  }

  /** The items `addToCart` leaves: the quantity of the first line for
      `productId` grows by `quantity`, or a new line is appended. */
  function AddLine(lines: seq<Line>, productId: Id, quantity: int): seq<Line> {
    var k := IndexOfProduct(lines, productId);
    if k == -1 then lines + [Line(productId, quantity)]
    else lines[k := lines[k].(quantity := lines[k].quantity + quantity)]
  }

  /** The items `updateQuantity` leaves: line `k` carries `quantity`. */
  function SetLine(lines: seq<Line>, k: nat, quantity: int): seq<Line>
    requires k < |lines|
  {
    lines[k := lines[k].(quantity := quantity)]
  }

  /** `items.filter(i => i.productId !== productId)`. */
  function Without(lines: seq<Line>, productId: Id): seq<Line> {
    if lines == [] then []
    else if lines[0].productId == productId then Without(lines[1..], productId)
    else [lines[0]] + Without(lines[1..], productId)
  }

  /** `items.filter(i => i.productId)` after populate: the lines whose product
      still exists, in their order. */
  function Available(catalog: map<Id, Product>, lines: seq<Line>): seq<Line> {
    if lines == [] then []
    else if lines[0].productId in catalog then [lines[0]] + Available(catalog, lines[1..])
    else Available(catalog, lines[1..])
  }

  /** Adding to the cart keeps one line per product, and that product then has a line. */
  lemma AddLineKeepsOneLinePerProduct(lines: seq<Line>, productId: Id, quantity: int)
    requires DistinctProducts(lines)
    ensures DistinctProducts(AddLine(lines, productId, quantity))
    ensures IndexOfProduct(AddLine(lines, productId, quantity), productId) >= 0
    ensures |AddLine(lines, productId, quantity)| == |lines| + (if IndexOfProduct(lines, productId) == -1 then 1 else 0)
  {
    var k := IndexOfProduct(lines, productId);
    var r := AddLine(lines, productId, quantity);
    if k == -1 {
      assert r[|lines|].productId == productId;
      assert forall i :: 0 <= i < |lines| ==> r[i] == lines[i];
    } else {
      assert r[k].productId == productId;
      assert forall i :: 0 <= i < |lines| ==> r[i].productId == lines[i].productId;
    }
  }

  /** Removing a product keeps one line per product; every kept line was a line before. */
  lemma {:induction false} WithoutKeepsDistinct(lines: seq<Line>, productId: Id)
    requires DistinctProducts(lines)
    ensures DistinctProducts(Without(lines, productId))
    ensures forall l :: l in Without(lines, productId) ==> l in lines
  {
    if lines != [] {
      var rest := lines[1..];
      assert DistinctProducts(rest) by {
        forall i, j | 0 <= i < j < |rest| ensures rest[i].productId != rest[j].productId {
          assert rest[i] == lines[i + 1] && rest[j] == lines[j + 1];
        }
      }
      WithoutKeepsDistinct(rest, productId);
      var w := Without(rest, productId);
      if lines[0].productId != productId {
        forall j | 0 <= j < |w| ensures w[j].productId != lines[0].productId {
          assert w[j] in rest;
          var m :| 0 <= m < |rest| && rest[m] == w[j];
          assert rest[m] == lines[m + 1];
        }
        assert Without(lines, productId) == [lines[0]] + w;
      }
    }
  }

  /** Dropping the lines of vanished products keeps one line per product; every
      kept line was a line before. */
  lemma {:induction false} AvailableKeepsDistinct(catalog: map<Id, Product>, lines: seq<Line>)
    requires DistinctProducts(lines)
    ensures DistinctProducts(Available(catalog, lines))
    ensures forall l :: l in Available(catalog, lines) ==> l in lines
  {
    if lines != [] {
      var rest := lines[1..];
      assert DistinctProducts(rest) by {
        forall i, j | 0 <= i < j < |rest| ensures rest[i].productId != rest[j].productId {
          assert rest[i] == lines[i + 1] && rest[j] == lines[j + 1];
        }
      }
      AvailableKeepsDistinct(catalog, rest);
      var a := Available(catalog, rest);
      if lines[0].productId in catalog {
        forall j | 0 <= j < |a| ensures a[j].productId != lines[0].productId {
          assert a[j] in rest;
          var m :| 0 <= m < |rest| && rest[m] == a[j];
          assert rest[m] == lines[m + 1];
        }
        assert Available(catalog, lines) == [lines[0]] + a;
      }
    }
  }

  /** `addToCart`. `quantity` 0 stands for every falsy quantity. */
  method AddToCart(carts: CartTable, products: ProductTable, userId: Id, productId: Id, quantity: int, freshCartId: Id)
    returns (r: Reply<StoredCart>)
    requires carts.Valid()
    requires freshCartId !in carts.carts
    modifies carts
    ensures carts.Valid()
    ensures userId == "" || productId == "" || quantity == 0 ==>
      r == Failure(BadRequest, "Missing required fields") && carts.carts == old(carts.carts)
    ensures userId != "" && productId != "" && quantity != 0 && productId !in products.products ==>
      r == Failure(BadRequest, "Product not found!") && carts.carts == old(carts.carts)
    ensures userId != "" && productId != "" && quantity != 0 && productId in products.products ==>
      var id := CartIdFor(old(carts.carts), userId, freshCartId);
      var before := if id in old(carts.carts) then old(carts.carts)[id].items else [];
      && carts.carts == old(carts.carts)[id := Cart(userId, AddLine(before, productId, quantity))]
      && r == Success(200, "Item added to cart successfully", StoredCart(id, userId, AddLine(before, productId, quantity)))
  {
    if userId == "" || productId == "" || quantity == 0 {
      return Failure(BadRequest, "Missing required fields");
    }
    if productId !in products.products {
      return Failure(BadRequest, "Product not found!");
    }
    var id := CartIdFor(carts.carts, userId, freshCartId);
    var cart := if id in carts.carts then carts.carts[id] else Cart(userId, []);
    ghost var before := cart.items;
    assert cart.userId == userId;
    var k := IndexOfProduct(cart.items, productId);
    if k == -1 {
      cart := cart.(items := cart.items + [Line(productId, quantity)]);
    } else {
      cart := cart.(items := cart.items[k := cart.items[k].(quantity := cart.items[k].quantity + quantity)]);
    }
    assert cart == Cart(userId, AddLine(before, productId, quantity));
    AddLineKeepsOneLinePerProduct(before, productId, quantity);
    PutKeepsCartsValid(carts.carts, id, cart);
    carts.carts := carts.carts[id := cart];
    r := Success(200, "Item added to cart successfully", StoredCart(id, userId, cart.items));
  }

  /** `getCart`: drops the lines whose product is gone, saving the cart only
      when something was dropped, and returns the rest populated. */
  method GetCart(carts: CartTable, products: ProductTable, userId: Id) returns (r: Reply<CartView>)
    requires carts.Valid()
    modifies carts
    ensures carts.Valid()
    ensures userId == "" ==> r == Failure(BadRequest, "User ID is required") && carts.carts == old(carts.carts)
    ensures userId != "" && CartOf(old(carts.carts), userId).None? ==>
      r == Failure(NotFound, "Cart not found") && carts.carts == old(carts.carts)
    ensures userId != "" && CartOf(old(carts.carts), userId).Some? ==>
      var id := CartOf(old(carts.carts), userId).value;
      var items := old(carts.carts)[id].items;
      var kept := Available(products.products, items);
      && (|kept| < |items| ==> carts.carts == old(carts.carts)[id := Cart(userId, kept)])
      && (|kept| == |items| ==> carts.carts == old(carts.carts))
      && r == Success(200, "Cart fetched successfully", CartView(id, userId, Views(products.products, kept)))
  {
    if userId == "" {
      return Failure(BadRequest, "User ID is required");
    }
    var found := CartOf(carts.carts, userId);
    if found.None? {
      return Failure(NotFound, "Cart not found");
    }
    var id := found.value;
    var cart := carts.carts[id];
    var kept := Available(products.products, cart.items);
    AvailableKeepsDistinct(products.products, cart.items);
    if |kept| < |cart.items| {
      PutKeepsCartsValid(carts.carts, id, cart.(items := kept));
      carts.carts := carts.carts[id := cart.(items := kept)];
    }
    r := Success(200, "Cart fetched successfully", CartView(id, cart.userId, Views(products.products, kept)));
  }

  /** `updateQuantity`: sets the first line for `productId` to `quantity`. */
  method UpdateQuantity(carts: CartTable, products: ProductTable, userId: Id, productId: Id, quantity: int)
    returns (r: Reply<CartView>)
    requires carts.Valid()
    modifies carts
    ensures carts.Valid()
    ensures userId == "" || productId == "" || quantity == 0 ==>
      r == Failure(BadRequest, "Missing required fields") && carts.carts == old(carts.carts)
    ensures userId != "" && productId != "" && quantity != 0 && CartOf(old(carts.carts), userId).None? ==>
      r == Failure(NotFound, "Cart not found") && carts.carts == old(carts.carts)
    ensures userId != "" && productId != "" && quantity != 0 && CartOf(old(carts.carts), userId).Some? ==>
      var id := CartOf(old(carts.carts), userId).value;
      var items := old(carts.carts)[id].items;
      var k := IndexOfProduct(items, productId);
      && (k == -1 ==> r == Failure(NotFound, "Product not found in cart") && carts.carts == old(carts.carts))
      && (k >= 0 ==>
            && carts.carts == old(carts.carts)[id := Cart(userId, SetLine(items, k, quantity))]
            && r == Success(200, "Quantity updated successfully",
                            CartView(id, userId, Views(products.products, SetLine(items, k, quantity)))))
  {
    if userId == "" || productId == "" || quantity == 0 {
      return Failure(BadRequest, "Missing required fields");
    }
    var found := CartOf(carts.carts, userId);
    if found.None? {
      return Failure(NotFound, "Cart not found");
    }
    var id := found.value;
    var cart := carts.carts[id];
    var k := IndexOfProduct(cart.items, productId);
    if k == -1 {
      return Failure(NotFound, "Product not found in cart");
    }
    var before := cart.items;
    cart := cart.(items := cart.items[k := cart.items[k].(quantity := quantity)]);
    assert forall i :: 0 <= i < |before| ==> cart.items[i].productId == before[i].productId;
    PutKeepsCartsValid(carts.carts, id, cart);
    carts.carts := carts.carts[id := cart];
    r := Success(200, "Quantity updated successfully", CartView(id, cart.userId, Views(products.products, cart.items)));
  }

  /** `removeFromCart`: filters out every line for `productId` and saves. */
  method RemoveFromCart(carts: CartTable, products: ProductTable, userId: Id, productId: Id)
    returns (r: Reply<CartView>)
    requires carts.Valid()
    modifies carts
    ensures carts.Valid()
    ensures userId == "" || productId == "" ==>
      r == Failure(BadRequest, "Missing required fields") && carts.carts == old(carts.carts)
    ensures userId != "" && productId != "" && CartOf(old(carts.carts), userId).None? ==>
      r == Failure(NotFound, "Cart not found") && carts.carts == old(carts.carts)
    ensures userId != "" && productId != "" && CartOf(old(carts.carts), userId).Some? ==>
      var id := CartOf(old(carts.carts), userId).value;
      var items := Without(old(carts.carts)[id].items, productId);
      && carts.carts == old(carts.carts)[id := Cart(userId, items)]
      && r == Success(200, "Product removed from cart successfully", CartView(id, userId, Views(products.products, items)))
  {
    if userId == "" || productId == "" {
      return Failure(BadRequest, "Missing required fields");
    }
    var found := CartOf(carts.carts, userId);
    if found.None? {
      return Failure(NotFound, "Cart not found");
    }
    var id := found.value;
    var cart := carts.carts[id];
    WithoutKeepsDistinct(cart.items, productId);
    cart := cart.(items := Without(cart.items, productId));
    PutKeepsCartsValid(carts.carts, id, cart);
    carts.carts := carts.carts[id := cart];
    r := Success(200, "Product removed from cart successfully", CartView(id, cart.userId, Views(products.products, cart.items)));
  }
}

/** What the cart handlers do to a cart's lines. */
module CartProperties {

  import opened Store
  import opened CartController

  /** With one line per product, that line holds all of the product's units. */
  lemma {:induction false} UnitsOfDistinct(lines: seq<Line>, k: nat)
    requires DistinctProducts(lines) && k < |lines|
    ensures UnitsOf(lines, lines[k].productId) == lines[k].quantity
  {
    if k == 0 {
      UnitsOfAbsent(lines[1..], lines[0].productId);
    } else {
      UnitsOfDistinct(lines[1..], k - 1);
    }
  }

  /** Adding grows exactly that product's units by `quantity`; no stock is consulted. */
  lemma AddLineUnits(lines: seq<Line>, productId: Id, quantity: int, id: Id)
    ensures UnitsOf(AddLine(lines, productId, quantity), id) == UnitsOf(lines, id) + (if id == productId then quantity else 0)
  {
    var k := IndexOfProduct(lines, productId);
    if k == -1 {
      UnitsOfAppend(lines, Line(productId, quantity), id);
    } else {
      UnitsOfUpdate(lines, k, lines[k].(quantity := lines[k].quantity + quantity), id);
    }
  }

  /** Updating sets the product's units to `quantity` and leaves every other product's. */
  lemma SetLineUnits(lines: seq<Line>, productId: Id, quantity: int, id: Id)
    requires DistinctProducts(lines)
    requires IndexOfProduct(lines, productId) >= 0
    ensures DistinctProducts(SetLine(lines, IndexOfProduct(lines, productId), quantity))
    ensures UnitsOf(SetLine(lines, IndexOfProduct(lines, productId), quantity), id) ==
            if id == productId then quantity else UnitsOf(lines, id)
  {
    var k := IndexOfProduct(lines, productId);
    UnitsOfDistinct(lines, k);
    UnitsOfUpdate(lines, k, lines[k].(quantity := quantity), id);
  }

  /** Removing drops every line for the product and keeps every other product's units. */
  lemma {:induction false} WithoutUnits(lines: seq<Line>, productId: Id, id: Id)
    ensures forall i :: 0 <= i < |Without(lines, productId)| ==> Without(lines, productId)[i].productId != productId
    ensures UnitsOf(Without(lines, productId), id) == if id == productId then 0 else UnitsOf(lines, id)
  {
    if lines != [] {
      WithoutUnits(lines[1..], productId, id);
      if lines[0].productId != productId {
        assert ([lines[0]] + Without(lines[1..], productId))[1..] == Without(lines[1..], productId);
      }
    }
  }

  /** Removing a product the cart does not hold leaves the lines as they were. */
  lemma {:induction false} WithoutAbsent(lines: seq<Line>, productId: Id)
    requires IndexOfProduct(lines, productId) == -1
    ensures Without(lines, productId) == lines
  {
    if lines != [] {
      WithoutAbsent(lines[1..], productId);
      assert [lines[0]] + lines[1..] == lines;
    }
  }

  /** The lines `getCart` keeps are those whose product exists, with their quantities. */
  lemma {:induction false} AvailableUnits(catalog: map<Id, Product>, lines: seq<Line>, id: Id)
    ensures forall i :: 0 <= i < |Available(catalog, lines)| ==> Available(catalog, lines)[i].productId in catalog
    ensures UnitsOf(Available(catalog, lines), id) == if id in catalog then UnitsOf(lines, id) else 0
  {
    if lines != [] {
      AvailableUnits(catalog, lines[1..], id);
      if lines[0].productId in catalog {
        assert ([lines[0]] + Available(catalog, lines[1..]))[1..] == Available(catalog, lines[1..]);
      }
    }
  }

  /** Filtering keeps order: it distributes over concatenation. */
  lemma {:induction false} AvailableAppend(catalog: map<Id, Product>, a: seq<Line>, b: seq<Line>)
    ensures Available(catalog, a + b) == Available(catalog, a) + Available(catalog, b)
  {
    if a != [] {
      assert (a + b)[1..] == a[1..] + b;
      AvailableAppend(catalog, a[1..], b);
    } else {
      assert a + b == b;
    }
  }

  /** Nothing is dropped, and `getCart` saves nothing, exactly when every product exists. */
  lemma {:induction false} AvailableAllPresent(catalog: map<Id, Product>, lines: seq<Line>)
    ensures |Available(catalog, lines)| <= |lines|
    ensures Available(catalog, lines) == lines <==> forall i :: 0 <= i < |lines| ==> lines[i].productId in catalog
    ensures |Available(catalog, lines)| == |lines| <==> Available(catalog, lines) == lines
  {
    if lines != [] {
      AvailableAllPresent(catalog, lines[1..]);
      assert [lines[0]] + lines[1..] == lines;
      assert forall i :: 1 <= i < |lines| ==> lines[i] == lines[1..][i - 1];
    }
  }
}
