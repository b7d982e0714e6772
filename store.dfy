/** The MongoDB collections the handlers read and write, each held as a map from
    document id to document in an object the handlers update in place. */
module Store {

  import opened Wrappers

  type Id = string

  /** A catalog entry. Prices are whole cents; `totalStock` may go negative,
      because nothing in the capture path stops it. */
  datatype Product = Product(
    title: string,
    description: string,
    image: string,
    category: string,
    brand: string,
    price: int,
    salePrice: int,
    totalStock: int,
    averageReview: int)

  /** One `{productId, quantity}` line: a server cart line, a sanitised checkout
      line and a persisted order line all have this shape. */
  datatype Line = Line(productId: Id, quantity: int)

  datatype Cart = Cart(userId: Id, items: seq<Line>)

  /** The `addressInfo` block the client copies into an order. */
  datatype AddressInfo = AddressInfo(
    addressId: string, address: string, city: string,
    pincode: string, phone: string, notes: string)

  datatype Order = Order(
    userId: Id,
    cartId: Id,
    cartItems: seq<Line>,
    addressInfo: AddressInfo,
    orderStatus: string,
    paymentMethod: string,
    paymentStatus: string,
    totalAmount: int,
    orderDate: int,
    orderUpdateDate: int,
    paymentId: string,
    payerId: string,
    isDemoOrder: bool)

  datatype Address = Address(
    userId: Id, address: string, city: string,
    pincode: string, phone: string, notes: string)

  /** Sum of the quantities of `lines` (`reduce((s, l) => s + l.quantity, 0)`). */
  function Units(lines: seq<Line>): int {
    if lines == [] then 0 else Units(lines[..|lines| - 1]) + lines[|lines| - 1].quantity
  }

  /** Sum of the quantities of the lines for product `id`. */
  function UnitsOf(lines: seq<Line>, id: Id): int {
    if lines == [] then 0
    else (if lines[0].productId == id then lines[0].quantity else 0) + UnitsOf(lines[1..], id)
  }

  /** No two lines name the same product. */
  predicate DistinctProducts(lines: seq<Line>) {
    forall i, j :: 0 <= i < j < |lines| ==> lines[i].productId != lines[j].productId
  }

  /** `lines.findIndex(l => l.productId === id)`: the first matching index, or -1. */
  function IndexOfProduct(lines: seq<Line>, id: Id): (k: int)
    ensures -1 <= k < |lines|
    ensures k == -1 <==> forall i :: 0 <= i < |lines| ==> lines[i].productId != id
    ensures k >= 0 ==> lines[k].productId == id
    ensures k >= 0 ==> forall i :: 0 <= i < k ==> lines[i].productId != id
  {
    if lines == [] then -1
    else if lines[0].productId == id then 0
    else
      var k := IndexOfProduct(lines[1..], id);
      if k == -1 then -1 else k + 1
  }

  lemma {:induction false} UnitsAppend(lines: seq<Line>, l: Line)
    ensures Units(lines + [l]) == Units(lines) + l.quantity
  {
    assert (lines + [l])[..|lines|] == lines;
  }

  /** What one line contributes to `UnitsOf(_, id)`. */
  function UnitsIn(l: Line, id: Id): int {
    if l.productId == id then l.quantity else 0
  }

  lemma {:induction false} UnitsOfAppend(lines: seq<Line>, l: Line, id: Id)
    ensures UnitsOf(lines + [l], id) == UnitsOf(lines, id) + UnitsIn(l, id)
  {
    if lines != [] {
      assert (lines + [l])[1..] == lines[1..] + [l];
      UnitsOfAppend(lines[1..], l, id);
    }
  }

  /** Replacing line `k` changes `UnitsOf` by the difference of the two lines' contributions. */
  lemma {:induction false} UnitsOfUpdate(lines: seq<Line>, k: nat, l: Line, id: Id)
    requires k < |lines|
    ensures UnitsOf(lines[k := l], id) == UnitsOf(lines, id) - UnitsIn(lines[k], id) + UnitsIn(l, id)
  {
    if k > 0 {
      assert lines[k := l][1..] == lines[1..][k - 1 := l];
      UnitsOfUpdate(lines[1..], k - 1, l, id);
    } else {
      assert lines[k := l][1..] == lines[1..];
    }
  }

  /** A product no line names has no units. */
  lemma {:induction false} UnitsOfAbsent(lines: seq<Line>, id: Id)
    requires forall i :: 0 <= i < |lines| ==> lines[i].productId != id
    ensures UnitsOf(lines, id) == 0
  {
    if lines != [] {
      UnitsOfAbsent(lines[1..], id);
    }
  }

  class ProductTable {
    var products: map<Id, Product>

    constructor ()
      ensures products == map[]
    {
      products := map[];
    }
  }

  class CartTable {
    var carts: map<Id, Cart>

    /** `addToCart` only creates a cart for a user who has none, so there is at
        most one cart per user; it increments an existing line rather than adding
        a second one, so each cart holds at most one line per product. */
    ghost predicate Valid()
      reads this
    {
      CartsValid(carts)
    }

    constructor ()
      ensures carts == map[] && Valid()
    {
      carts := map[];
    }
  }

  predicate OneCartPerUser(carts: map<Id, Cart>) {
    forall a, b :: a in carts && b in carts && carts[a].userId == carts[b].userId ==> a == b
  }

  predicate CartsValid(carts: map<Id, Cart>) {
    && OneCartPerUser(carts)
    && forall id :: id in carts ==> DistinctProducts(carts[id].items)
  }

  /** Saving a cart with one line per product, under an id no other user's cart
      has, keeps the table valid. */
  lemma PutKeepsCartsValid(carts: map<Id, Cart>, id: Id, c: Cart)
    requires CartsValid(carts) && DistinctProducts(c.items)
    requires forall other :: other in carts && other != id ==> carts[other].userId != c.userId
    ensures CartsValid(carts[id := c])
  {
  }

  /** `CartModel.findOne({ userId })`. */
  function CartOf(carts: map<Id, Cart>, userId: Id): (r: Option<Id>)
    requires OneCartPerUser(carts)
    ensures r.Some? <==> exists id :: id in carts && carts[id].userId == userId
    ensures r.Some? ==> r.value in carts && carts[r.value].userId == userId
  {
    if exists id :: id in carts && carts[id].userId == userId then
      var id :| id in carts && carts[id].userId == userId;
      Some(id)
    else
      None
  }

  class OrderTable {
    var orders: map<Id, Order>

    constructor ()
      ensures orders == map[]
    {
      orders := map[];
    }
  }

  class AddressTable {
    var addresses: map<Id, Address>

    constructor ()
      ensures addresses == map[]
    {
      addresses := map[];
    }
  }

}
