/** The student cafeteria screen's state holder (`CafeteriaViewModel`): the
    menu, a cart of dish counts, and placing the cart as an order.

    The cart is a Kotlin `Map<MenuItem, Int>` built by `toMutableMap()`,
    which keeps its keys in insertion order; it is modelled as a list of
    (dish, count) entries with distinct dishes, in that order. Dishes are
    keyed by the whole `MenuItem` value. */
module Cafeteria {
  import opened Kotlin
  import opened Data

  datatype CartEntry = CartEntry(item: MenuItem, count: int)

  type Cart = seq<CartEntry>

  /** The cart's keys, in insertion order. */
  function Keys(cart: Cart): (keys: seq<MenuItem>)
    ensures |keys| == |cart|
    ensures forall i :: 0 <= i < |cart| ==> keys[i] == cart[i].item
  {
    if cart == [] then [] else [cart[0].item] + Keys(cart[1..])
  }

  /** The invariant every reachable cart keeps: no dish twice, and every
      count at least 1. */
  ghost predicate CartValid(cart: Cart) {
    cart == [] || (cart[0].count >= 1 && cart[0].item !in Keys(cart[1..]) && CartValid(cart[1..]))
  }

  /** `cart[item] ?: 0`: the count of the dish's entry, 0 without one. */
  function Count(cart: Cart, item: MenuItem): (n: int)
    ensures item !in Keys(cart) ==> n == 0
    ensures CartValid(cart) && item in Keys(cart) ==> n >= 1
  {
    if cart == [] then 0
    else if cart[0].item == item then cart[0].count
    else Count(cart[1..], item)
  }

  /** The cart after `addToCart(item)`: `newCart[item] = (newCart[item] ?: 0) + 1`. */
  function Added(cart: Cart, item: MenuItem): (r: Cart)
    ensures |cart| <= |r| <= |cart| + 1
  {
    if cart == [] then [CartEntry(item, 1)]
    else if cart[0].item == item then [CartEntry(item, cart[0].count + 1)] + cart[1..]
    else [cart[0]] + Added(cart[1..], item)
  }

  /** Adding a dish raises its count by one and leaves every other count. */
  lemma {:induction false} AddedCounts(cart: Cart, item: MenuItem)
    ensures Count(Added(cart, item), item) == Count(cart, item) + 1
    ensures forall other :: other != item ==> Count(Added(cart, item), other) == Count(cart, other)
  {
    if cart != [] && cart[0].item != item {
      AddedCounts(cart[1..], item);
      var r := Added(cart, item);
      assert r[1..] == Added(cart[1..], item);
    } else if cart != [] {
      var r := Added(cart, item);
      assert r[1..] == cart[1..];
    }
  }

  /** An existing key keeps its place; a new one goes last. */
  lemma {:induction false} AddedKeys(cart: Cart, item: MenuItem)
    ensures item in Keys(cart) ==> Keys(Added(cart, item)) == Keys(cart)
    ensures item !in Keys(cart) ==> Keys(Added(cart, item)) == Keys(cart) + [item]
  {
    if cart != [] && cart[0].item != item {
      AddedKeys(cart[1..], item);
      var r := Added(cart, item);
      assert r[1..] == Added(cart[1..], item);
      assert Keys(cart) == [cart[0].item] + Keys(cart[1..]);
    } else if cart != [] {
      var r := Added(cart, item);
      assert r[1..] == cart[1..];
    }
  }

  /** `addToCart` keeps the cart invariant. */
  lemma {:induction false} AddedValid(cart: Cart, item: MenuItem)
    requires CartValid(cart)
    ensures CartValid(Added(cart, item))
  {
    var r := Added(cart, item);
    if cart != [] && cart[0].item != item {
      AddedValid(cart[1..], item);
      AddedKeys(cart[1..], item);
      assert r[0] == cart[0] && r[1..] == Added(cart[1..], item);
    } else if cart != [] {
      assert r[1..] == cart[1..];
    }
  }

  /** The cart after `removeFromCart(item)`: a count above 1 goes down by
      one, otherwise the key is removed (nothing happens for an absent key). */
  function Removed(cart: Cart, item: MenuItem): (r: Cart)
    ensures forall other :: other != item ==> Count(r, other) == Count(cart, other)
    ensures forall k :: k in Keys(r) ==> k in Keys(cart)
    ensures item !in Keys(cart) ==> r == cart
  {
    if cart == [] then []
    else if cart[0].item == item then
      if cart[0].count > 1 then [CartEntry(item, cart[0].count - 1)] + cart[1..]
      else cart[1..]
    else [cart[0]] + Removed(cart[1..], item)
  }

  /** On a valid cart, `removeFromCart` lowers the dish's count by one, or
      drops its entry when the count was 1, and keeps the cart invariant. */
  lemma {:induction false} RemovedValid(cart: Cart, item: MenuItem)
    requires CartValid(cart)
    ensures CartValid(Removed(cart, item))
    ensures Count(Removed(cart, item), item) == if Count(cart, item) > 1 then Count(cart, item) - 1 else 0
    ensures item in Keys(cart) && Count(cart, item) == 1 ==> item !in Keys(Removed(cart, item))
  {
    if cart != [] && cart[0].item != item {
      RemovedValid(cart[1..], item);
      var r := Removed(cart, item);
      assert r[1..] == Removed(cart[1..], item);
    }
  }

  /** Adding a dish and removing it again gives back the same cart,
      entry order included. */
  lemma {:induction false} AddThenRemove(cart: Cart, item: MenuItem)
    requires CartValid(cart)
    ensures Removed(Added(cart, item), item) == cart
  {
    if cart != [] && cart[0].item != item {
      AddThenRemove(cart[1..], item);
    }
  }

  /** The `"name xN"` line of one cart entry. */
  function ItemLine(entry: CartEntry): string {
    entry.item.name + " x" + NatToString(if entry.count < 0 then 0 else entry.count)
  }

  /** `cart.keys.map { "${it.name} x${cart[it]}" }`: one line per key, in key order. */
  function OrderLines(cart: Cart): (lines: seq<string>)
    ensures |lines| == |cart|
    ensures forall i :: 0 <= i < |cart| ==> lines[i] == ItemLine(cart[i])
  {
    if cart == [] then [] else [ItemLine(cart[0])] + OrderLines(cart[1..])
  }

  /** An order line starts with the dish name and ends with the count in
      decimal. */
  lemma ItemLineShape(entry: CartEntry)
    requires entry.count >= 1
    ensures var line := ItemLine(entry); var n := entry.item.name;
      |line| > |n| + 2 && line[..|n|] == n && line[|n|..|n| + 2] == " x"
      && DigitsValue(line[|n| + 2..]) == entry.count
  {
    var line := ItemLine(entry);
    var n := entry.item.name;
    assert line[|n| + 2..] == NatToString(entry.count);
    NatToStringValue(entry.count);
  }

  /** `cart.entries.sumOf { price * quantity }`, in integer minor units. */
  function Total(cart: Cart): int {
    if cart == [] then 0 else cart[0].item.price * cart[0].count + Total(cart[1..])
  }

  /** One more of a dish raises the total by its price. */
  lemma {:induction false} TotalAdded(cart: Cart, item: MenuItem)
    ensures Total(Added(cart, item)) == Total(cart) + item.price
  {
    if cart != [] && cart[0].item != item {
      TotalAdded(cart[1..], item);
      var r := Added(cart, item);
      assert r[1..] == Added(cart[1..], item);
    }
  }

  /** The order `placeOrder` writes for a non-empty cart. */
  function NewOrder(cart: Cart, user: User, orderId: string, now: nat): (o: Order)
    requires cart != []
    ensures o.status == "PLACED"
    ensures o.userId == user.uid && o.userName == user.specializedId && o.orderId == orderId
    ensures |o.items| == |cart| && o.items == OrderLines(cart)
    ensures o.timestamp == Some(now)
  {
    Order(orderId := orderId, userId := user.uid, userName := user.specializedId,
          items := OrderLines(cart), totalPrice := Total(cart), status := "PLACED",
          timestamp := Some(now))
  }

  class CafeteriaViewModel {
    var menuItems: seq<MenuItem>
    var cart: Cart
    var isLoading: bool
    var orderPlacedSuccessfully: Option<bool>
    /** The `orders` collection. */
    var orders: map<string, Order>

    ghost predicate Valid()
      reads this
    {
      CartValid(cart)
    }

    /** A fresh `CafeteriaState()`: no menu, empty cart, loading. */
    constructor (orders: map<string, Order>)
      ensures Valid()
      ensures menuItems == [] && cart == [] && isLoading && orderPlacedSuccessfully == None
      ensures this.orders == orders
    {
      menuItems := [];
      cart := [];
      isLoading := true;
      orderPlacedSuccessfully := None;
      this.orders := orders;
    }

    /** The menu read issued by `init`: `loaded` is the menu, or None when
        the read failed. */
    method OnMenuLoaded(loaded: Option<seq<MenuItem>>)
      requires Valid()
      modifies this`menuItems, this`isLoading
      ensures Valid()
      ensures !isLoading
      ensures menuItems == if loaded.Some? then loaded.value else old(menuItems)
    {
      if loaded.Some? {
        menuItems := loaded.value;
      }
      isLoading := false;
    }

    /** `addToCart(item)`: one more of the dish, every other count kept. */
    method AddToCart(item: MenuItem)
      requires Valid()
      modifies this`cart
      ensures Valid()
      ensures cart == Added(old(cart), item)
      ensures Count(cart, item) == Count(old(cart), item) + 1
      ensures forall other :: other != item ==> Count(cart, other) == Count(old(cart), other)
    {
      AddedValid(cart, item);
      AddedCounts(cart, item);
      cart := Added(cart, item);
    }

    /** `removeFromCart(item)`: one fewer of the dish, the entry dropped
        when it was the last one, every other count kept. */
    method RemoveFromCart(item: MenuItem)
      requires Valid()
      modifies this`cart
      ensures Valid()
      ensures cart == Removed(old(cart), item)
      ensures Count(cart, item) == if Count(old(cart), item) > 1 then Count(old(cart), item) - 1 else 0
      ensures Count(old(cart), item) <= 1 ==> item !in Keys(cart)
      ensures forall other :: other != item ==> Count(cart, other) == Count(old(cart), other)
    {
      RemovedValid(cart, item);
      cart := Removed(cart, item);
    }

    /** `placeOrder(currentUser)`. An empty cart does nothing. Otherwise the
        order built from the cart is written under `orderId` (the id the
        store generated); `writeOk` is whether the write succeeded. On
        success the state starts afresh with the same menu; on failure the
        cart is kept. Returns the order that was sent, if any. */
    method PlaceOrder(currentUser: User, orderId: string, now: nat, writeOk: bool) returns (sent: Option<Order>)
      requires Valid()
      modifies this
      ensures Valid()
      ensures old(cart) == [] ==> sent == None && unchanged(this)
      ensures old(cart) != [] ==> sent == Some(NewOrder(old(cart), currentUser, orderId, now))
      ensures old(cart) != [] && writeOk ==>
        && orders == old(orders)[orderId := sent.value]
        && menuItems == old(menuItems) && cart == [] && !isLoading
        && orderPlacedSuccessfully == Some(true)
      ensures old(cart) != [] && !writeOk ==>
        && orders == old(orders) && menuItems == old(menuItems) && cart == old(cart)
        && !isLoading && orderPlacedSuccessfully == Some(false)
    {
      var snapshot := cart;
      if snapshot == [] {
        return None;
      }
      isLoading := true;
      var newOrder := NewOrder(snapshot, currentUser, orderId, now);
      sent := Some(newOrder);
      if writeOk {
        orders := orders[orderId := newOrder];
        cart := [];
        isLoading := false;
        orderPlacedSuccessfully := Some(true);
      } else {
        isLoading := false;
        orderPlacedSuccessfully := Some(false);
      }
    }

    method ResetOrderSuccessStatus()
      requires Valid()
      modifies this`orderPlacedSuccessfully
      ensures Valid()
      ensures orderPlacedSuccessfully == None
    {
      orderPlacedSuccessfully := None;
    }
  }
}
