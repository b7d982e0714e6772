/** The guest cart kept in the browser: one storage slot under the key
    "elora_guest_cart" holding a JSON list of entries, changed by reading the
    whole list, editing it and writing it back. */
module LocalCart {

  const StorageKey := "elora_guest_cart"

  datatype GuestItem = GuestItem(productId: string, quantity: int, addedAt: int)

  /** What the slot holds: nothing (or the empty string), a list written by
      `set`, or text that does not parse as JSON. */
  datatype Slot = Empty | Stored(items: seq<GuestItem>) | Unreadable(text: string)

  /** What `get` makes of the slot: the stored list, or `[]` when the key is
      absent or the text does not parse. */
  function Read(slot: Slot): (items: seq<GuestItem>)
    ensures slot.Stored? ==> items == slot.items
    ensures !slot.Stored? ==> items == []
  {
    if slot.Stored? then slot.items else []
  }

  /** `findIndex(item => item.productId === productId)`. */
  function IndexOf(items: seq<GuestItem>, productId: string): (k: int)
    ensures -1 <= k < |items|
    ensures k == -1 <==> forall i :: 0 <= i < |items| ==> items[i].productId != productId
    ensures k >= 0 ==> items[k].productId == productId
    ensures k >= 0 ==> forall i :: 0 <= i < k ==> items[i].productId != productId
  {
    if items == [] then -1
    else if items[0].productId == productId then 0
    else
      var k := IndexOf(items[1..], productId);
      if k == -1 then -1 else k + 1
  }

  /** The list `add` writes back. */
  function Added(items: seq<GuestItem>, productId: string, quantity: int, now: int): seq<GuestItem> {
    var k := IndexOf(items, productId);
    if k > -1 then items[k := items[k].(quantity := items[k].quantity + quantity)]
    else items + [GuestItem(productId, quantity, now)]
  }

  /** The list `update` writes back when the product has an entry. */
  function Updated(items: seq<GuestItem>, k: nat, quantity: int): seq<GuestItem>
    requires k < |items|
  {
    if quantity <= 0 then items[..k] + items[k + 1..]
    else items[k := items[k].(quantity := quantity)]
  }

  /** `filter(item => item.productId !== productId)`. */
  function Removed(items: seq<GuestItem>, productId: string): seq<GuestItem> {
    if items == [] then []
    else if items[0].productId == productId then Removed(items[1..], productId)
    else [items[0]] + Removed(items[1..], productId)
  }

  /** `reduce((sum, item) => sum + item.quantity, 0)`. */
  function Count(items: seq<GuestItem>): int {
    if items == [] then 0 else items[0].quantity + Count(items[1..])
  }

  /** The units held for one product. */
  function CountOf(items: seq<GuestItem>, productId: string): int {
    if items == [] then 0
    else (if items[0].productId == productId then items[0].quantity else 0) + CountOf(items[1..], productId)
  }

  predicate UniqueProducts(items: seq<GuestItem>) {
    forall i, j :: 0 <= i < j < |items| ==> items[i].productId != items[j].productId
  }

  /** The `localCart` object over its storage slot. Writes never fail here. */
  class GuestCartStorage {
    var slot: Slot

    constructor (initial: Slot)
      ensures slot == initial
    {
      slot := initial;
    }

    method Get() returns (items: seq<GuestItem>)
      ensures slot.Stored? ==> items == slot.items
      ensures !slot.Stored? ==> items == []
    {
      match slot
      case Stored(stored) => items := stored;
      case Empty => items := [];
      case Unreadable(_) => items := [];
    }

    method Set(items: seq<GuestItem>)
      modifies this
      ensures slot == Stored(items)
    {
      slot := Stored(items);
    }

    /** `add`: grows an existing entry, or appends a new one stamped `now`. */
    method Add(productId: string, quantity: int, now: int)
      modifies this
      ensures slot == Stored(Added(Read(old(slot)), productId, quantity, now))
    {
      var cart := Get();
      var existingIndex := IndexOf(cart, productId);
      if existingIndex > -1 {
        cart := cart[existingIndex := cart[existingIndex].(quantity := cart[existingIndex].quantity + quantity)];
      } else {
        cart := cart + [GuestItem(productId, quantity, now)];
      }
      Set(cart);
    }

    /** `update`: writes back only when the product has an entry. */
    method Update(productId: string, quantity: int)
      modifies this
      ensures IndexOf(Read(old(slot)), productId) == -1 ==> slot == old(slot)
      ensures IndexOf(Read(old(slot)), productId) > -1 ==>
        slot == Stored(Updated(Read(old(slot)), IndexOf(Read(old(slot)), productId), quantity))
    {
      var cart := Get();
      var index := IndexOf(cart, productId);
      if index > -1 {
        if quantity <= 0 {
          cart := cart[..index] + cart[index + 1..];
        } else {
          cart := cart[index := cart[index].(quantity := quantity)];
        }
        Set(cart);
      }
    }

    /** `remove`: always writes back, even when nothing was removed. */
    method Remove(productId: string)
      modifies this
      ensures slot == Stored(Removed(Read(old(slot)), productId))
    {
      var cart := Get();
      cart := Removed(cart, productId);
      Set(cart);
    }

    method Clear()
      modifies this
      ensures slot == Empty
    {
      slot := Empty;
    }

    method GetCount() returns (n: int)
      ensures n == Count(Read(slot))
    {
      var cart := Get();
      n := Count(cart);
    }

    method HasItems() returns (b: bool)
      ensures b <==> slot.Stored? && slot.items != []
    {
      var cart := Get();
      b := |cart| > 0;
    }
  }

  /** After `clear`, `get` returns `[]`, whatever the slot held. */
  method ClearThenGet(storage: GuestCartStorage) returns (items: seq<GuestItem>)
    modifies storage
    ensures items == [] && storage.slot == Empty
  {
    storage.Clear();
    items := storage.Get();
  }
}

/** What the guest cart operations do to the list and its count. */
module LocalCartProperties {

  import opened LocalCart

  lemma {:induction false} CountAppend(a: seq<GuestItem>, b: seq<GuestItem>)
    ensures Count(a + b) == Count(a) + Count(b)
  {
    if a == [] {
      assert a + b == b;
    } else {
      assert (a + b)[1..] == a[1..] + b;
      CountAppend(a[1..], b);
    }
  }

  lemma {:induction false} CountOfAppend(a: seq<GuestItem>, b: seq<GuestItem>, productId: string)
    ensures CountOf(a + b, productId) == CountOf(a, productId) + CountOf(b, productId)
  {
    if a == [] {
      assert a + b == b;
    } else {
      assert (a + b)[1..] == a[1..] + b;
      CountOfAppend(a[1..], b, productId);
    }
  }

  /** Splitting a list around entry `k`. */
  lemma Split(items: seq<GuestItem>, k: nat, x: GuestItem)
    requires k < |items|
    ensures items == items[..k] + [items[k]] + items[k + 1..]
    ensures items[k := x] == items[..k] + [x] + items[k + 1..]
  {
  }

  lemma CountUpdate(items: seq<GuestItem>, k: nat, x: GuestItem)
    requires k < |items|
    ensures Count(items[k := x]) == Count(items) - items[k].quantity + x.quantity
    ensures Count(items[..k] + items[k + 1..]) == Count(items) - items[k].quantity
  {
    Split(items, k, x);
    CountAppend(items[..k] + [items[k]], items[k + 1..]);
    CountAppend(items[..k], [items[k]]);
    CountAppend(items[..k] + [x], items[k + 1..]);
    CountAppend(items[..k], [x]);
    CountAppend(items[..k], items[k + 1..]);
    assert Count([items[k]]) == items[k].quantity by { assert [items[k]][1..] == []; }
    assert Count([x]) == x.quantity by { assert [x][1..] == []; }
  }

  /** `add` on a known product grows its entry; on a new product it appends
      one stamped `now`. Either way the count grows by `quantity` and products
      stay unique. */
  lemma AddedEffects(items: seq<GuestItem>, productId: string, quantity: int, now: int)
    requires UniqueProducts(items)
    ensures UniqueProducts(Added(items, productId, quantity, now))
    ensures Count(Added(items, productId, quantity, now)) == Count(items) + quantity
    ensures IndexOf(items, productId) > -1 ==>
      |Added(items, productId, quantity, now)| == |items| &&
      Added(items, productId, quantity, now)[IndexOf(items, productId)].addedAt == items[IndexOf(items, productId)].addedAt
    ensures IndexOf(items, productId) == -1 ==>
      Added(items, productId, quantity, now) == items + [GuestItem(productId, quantity, now)]
  {
    var k := IndexOf(items, productId);
    var r := Added(items, productId, quantity, now);
    if k > -1 {
      CountUpdate(items, k, items[k].(quantity := items[k].quantity + quantity));
      assert forall i :: 0 <= i < |items| ==> r[i].productId == items[i].productId;
    } else {
      CountAppend(items, [GuestItem(productId, quantity, now)]);
      assert Count([GuestItem(productId, quantity, now)]) == quantity by {
        assert [GuestItem(productId, quantity, now)][1..] == [];
      }
      assert forall i :: 0 <= i < |items| ==> r[i] == items[i];
    }
  }

  /** `update` to a quantity of 0 or less removes the product's entry, keeps
      the others in order, and lowers the count by the entry's quantity. */
  lemma UpdateToZeroRemoves(items: seq<GuestItem>, productId: string, quantity: int)
    requires UniqueProducts(items)
    requires IndexOf(items, productId) > -1 && quantity <= 0
    ensures var k := IndexOf(items, productId);
            var r := Updated(items, k, quantity);
            && UniqueProducts(r)
            && IndexOf(r, productId) == -1
            && r == items[..k] + items[k + 1..]
            && Count(r) == Count(items) - items[k].quantity
  {
    var k := IndexOf(items, productId);
    var r := Updated(items, k, quantity);
    CountUpdate(items, k, items[k].(quantity := quantity));
    assert r == items[..k] + items[k + 1..];
    assert |r| == |items| - 1;
    forall i | 0 <= i < |r|
      ensures r[i] == items[if i < k then i else i + 1]
      ensures r[i].productId != productId
    {
      var j := if i < k then i else i + 1;
      assert r[i] == items[j];
      assert j != k;
    }
    forall i, j | 0 <= i < j < |r|
      ensures r[i].productId != r[j].productId
    {
      var i', j' := if i < k then i else i + 1, if j < k then j else j + 1;
      assert r[i] == items[i'] && r[j] == items[j'] && i' < j';
    }
  }

  /** `update` to a positive quantity replaces just that entry's quantity. */
  lemma UpdatePositiveSets(items: seq<GuestItem>, productId: string, quantity: int)
    requires UniqueProducts(items)
    requires IndexOf(items, productId) > -1 && quantity > 0
    ensures var k := IndexOf(items, productId);
            var r := Updated(items, k, quantity);
            && UniqueProducts(r)
            && |r| == |items|
            && r[k] == items[k].(quantity := quantity)
            && (forall i :: 0 <= i < |items| && i != k ==> r[i] == items[i])
            && Count(r) == Count(items) - items[k].quantity + quantity
  {
    var k := IndexOf(items, productId);
    var r := Updated(items, k, quantity);
    CountUpdate(items, k, items[k].(quantity := quantity));
    assert forall i :: 0 <= i < |r| ==> r[i].productId == items[i].productId;
  }

  /** `remove` leaves no entry for the product, keeps every other entry in
      order, and lowers the count by the product's units. */
  lemma {:induction false} RemovedEffects(items: seq<GuestItem>, productId: string)
    ensures IndexOf(Removed(items, productId), productId) == -1
    ensures Count(Removed(items, productId)) == Count(items) - CountOf(items, productId)
    ensures IndexOf(items, productId) == -1 ==> Removed(items, productId) == items
  {
    if items != [] {
      RemovedEffects(items[1..], productId);
      if items[0].productId != productId {
        assert ([items[0]] + Removed(items[1..], productId))[1..] == Removed(items[1..], productId);
        assert [items[0]] + items[1..] == items;
      }
    }
  }

  /** Filtering keeps order: it distributes over concatenation. */
  lemma {:induction false} RemovedAppend(a: seq<GuestItem>, b: seq<GuestItem>, productId: string)
    ensures Removed(a + b, productId) == Removed(a, productId) + Removed(b, productId)
  {
    if a == [] {
      assert a + b == b;
    } else {
      assert (a + b)[1..] == a[1..] + b;
      RemovedAppend(a[1..], b, productId);
    }
  }

  /** With unique products, the count of a product is its entry's quantity. */
  lemma {:induction false} CountOfUnique(items: seq<GuestItem>, productId: string)
    requires UniqueProducts(items)
    ensures CountOf(items, productId) == if IndexOf(items, productId) == -1 then 0 else items[IndexOf(items, productId)].quantity
  {
    if items != [] {
      CountOfUnique(items[1..], productId);
    }
  }
}
