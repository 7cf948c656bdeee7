/**
 * The shopping-cart store of the storefront client
 * (EcommerceApp/client/src/stores/cartStore.ts): an ordered list of cart
 * lines keyed by product id, four derived prices, and the two checkout
 * fields. Money is counted in whole cents; intermediate values that are not
 * whole cents (the 15% tax) are kept exactly, in hundredths of a cent, until
 * they are rounded the way `toFixed(2)` rounds.
 */
module CartStore {
  import opened Collections

  /** An amount of money in cents. */
  type Cents = int

  /** One cart line (`ICartItem`): a product reference and the selected quantity. */
  datatype CartItem = CartItem(
    id: string,
    name: string,
    image: string,
    price: Cents,
    countInStock: int,
    qty: int)

  datatype ShippingAddress = ShippingAddress(address: string, city: string, postalCode: string, country: string)

  datatype PaymentKind = PayPal | Stripe | CreditCard

  datatype PaymentMethod = PaymentMethod(kind: PaymentKind)

  /** The four derived price fields of the store. */
  datatype Prices = Prices(itemsPrice: Cents, shippingPrice: Cents, taxPrice: Cents, totalPrice: Cents)

  /** Shipping is free only strictly above $100. */
  const FreeShippingAbove: Cents := 10000
  const ShippingFee: Cents := 1000
  const TaxPercent: int := 15
  const ZeroPrices: Prices := Prices(0, 0, 0, 0)

  // ---------------------------------------------------------------------
  // Prices
  // ---------------------------------------------------------------------

  /** What one line contributes to the subtotal. */
  function LineTotal(x: CartItem): Cents
  {
    x.price * x.qty
  }

  /**
   * The `reduce` of `updateCartPrices`: the running sum of price times
   * quantity, from the left. With non-negative prices and quantities the
   * subtotal is non-negative.
   */
  function ItemsPrice(items: seq<CartItem>): (r: Cents)
    ensures items == [] ==> r == 0
    ensures (forall i :: 0 <= i < |items| ==> items[i].price >= 0 && items[i].qty >= 0) ==> r >= 0
  {
    if items == [] then 0 else ItemsPrice(items[..|items| - 1]) + LineTotal(items[|items| - 1])
  }

  /** The subtotal of a concatenation is the sum of the subtotals. */
  lemma {:induction false} ItemsPriceConcat(a: seq<CartItem>, b: seq<CartItem>)
    ensures ItemsPrice(a + b) == ItemsPrice(a) + ItemsPrice(b)
    decreases |b|
  {
    if b == [] {
      assert a + b == a;
    } else {
      var b' := b[..|b| - 1];
      assert (a + b)[..|a + b| - 1] == a + b';
      assert (a + b)[|a + b| - 1] == b[|b| - 1];
      ItemsPriceConcat(a, b');
    }
  }

  /** The subtotal of a single line is that line's price times quantity. */
  lemma ItemsPriceSingleton(x: CartItem)
    ensures ItemsPrice([x]) == LineTotal(x)
  {
    assert [x][..0] == [];
  }

  /**
   * `parseFloat(v.toFixed(2))` for an exact value `v` given in hundredths of
   * a cent: the nearest whole cent, ties away from zero (`toFixed` rounds
   * the magnitude half up and keeps the sign).
   */
  function RoundToCent(hundredths: int): (r: Cents)
    ensures hundredths >= 0 ==> -50 <= hundredths - 100 * r < 50
    ensures hundredths < 0 ==> -50 < hundredths - 100 * r <= 50
  {
    if hundredths >= 0 then (hundredths + 50) / 100 else -((-hundredths + 50) / 100)
  }

  /** Rounding is symmetric about zero. */
  lemma RoundSymmetric(hundredths: int)
    ensures RoundToCent(-hundredths) == -RoundToCent(hundredths)
  {
  }

  /** Rounding a value that already is a whole number of cents changes nothing. */
  lemma RoundWholeCents(c: Cents)
    ensures RoundToCent(100 * c) == c
  {
  }

  /**
   * `updateCartPrices`: the subtotal, a $10 shipping fee unless the
   * unrounded subtotal is strictly above $100, 15% tax, and the total of the
   * three unrounded values, each then rounded to the cent on its own.
   */
  function CartPrices(items: seq<CartItem>): (p: Prices)
    ensures p.itemsPrice == ItemsPrice(items)
    ensures p.shippingPrice == if ItemsPrice(items) > FreeShippingAbove then 0 else ShippingFee
    ensures -50 <= 100 * p.taxPrice - TaxPercent * p.itemsPrice <= 50
    ensures -50 <= 100 * p.totalPrice - (100 * (p.itemsPrice + p.shippingPrice) + TaxPercent * p.itemsPrice) <= 50
  {
    var items := ItemsPrice(items);
    var shipping := if items > FreeShippingAbove then 0 else ShippingFee;
    var taxHundredths := TaxPercent * items;
    var totalHundredths := 100 * items + 100 * shipping + taxHundredths;
    Prices(RoundToCent(100 * items), RoundToCent(100 * shipping), RoundToCent(taxHundredths), RoundToCent(totalHundredths))
  }

  /**
   * Although the four fields are rounded separately, on a non-negative
   * subtotal the rounded total is still the sum of the other three.
   */
  lemma TotalIsSumOfParts(items: seq<CartItem>)
    requires ItemsPrice(items) >= 0
    ensures CartPrices(items).totalPrice == CartPrices(items).itemsPrice + CartPrices(items).shippingPrice + CartPrices(items).taxPrice
  {
    var sub := ItemsPrice(items);
    var shipping := if sub > FreeShippingAbove then 0 else ShippingFee;
    TotalRounding(sub + shipping, TaxPercent * sub);
    assert 100 * sub + 100 * shipping + TaxPercent * sub == 100 * (sub + shipping) + TaxPercent * sub;
  }

  /** Adding whole cents to a non-negative exact value commutes with rounding it. */
  lemma TotalRounding(whole: Cents, hundredths: int)
    requires whole >= 0 && hundredths >= 0
    ensures RoundToCent(100 * whole + hundredths) == whole + RoundToCent(hundredths)
  {
    assert 100 * whole + hundredths + 50 == (hundredths + 50) + whole * 100;
  }

  /** The worked example: $20 x 2 and $15 x 1 cost $55.00 + $10.00 shipping + $8.25 tax = $73.25. */
  lemma WorkedExample()
    ensures CartPrices([CartItem("a", "A", "", 2000, 5, 2), CartItem("b", "B", "", 1500, 5, 1)])
         == Prices(5500, 1000, 825, 7325)
  {
    var a := CartItem("a", "A", "", 2000, 5, 2);
    var b := CartItem("b", "B", "", 1500, 5, 1);
    ItemsPriceSingleton(a);
    ItemsPriceSingleton(b);
    ItemsPriceConcat([a], [b]);
    assert [a] + [b] == [a, b];
  }

  /** A subtotal of exactly $100 still pays shipping; one cent more does not. */
  lemma ShippingBoundary(items: seq<CartItem>)
    ensures ItemsPrice(items) == 10000 ==> CartPrices(items).shippingPrice == 1000
    ensures ItemsPrice(items) == 10001 ==> CartPrices(items).shippingPrice == 0
  {
  }

  /**
   * An empty list, priced by `updateCartPrices`, shows the $10 fee: this is
   * what removing the last line leaves, unlike the all-zero prices that
   * `clearCart` and the initial state hold.
   */
  lemma EmptyCartPrices()
    ensures CartPrices([]) == Prices(0, 1000, 0, 1000)
    ensures CartPrices([]) != ZeroPrices
  {
  }

  // ---------------------------------------------------------------------
  // The list of lines
  // ---------------------------------------------------------------------

  /** No two lines carry the same product id. */
  predicate UniqueIds(items: seq<CartItem>)
  {
    forall i, j :: 0 <= i < j < |items| ==> items[i].id != items[j].id
  }

  /** The product ids present in the cart. */
  function Ids(items: seq<CartItem>): set<string>
  {
    set x | x in items :: x.id
  }

  /** `cartItems.find(x => x._id === id)`: the first line with that id, if any. */
  function FindById(items: seq<CartItem>, id: string): (r: Option<CartItem>)
    ensures r.Some? ==> r.value in items && r.value.id == id
    ensures r.None? <==> forall i :: 0 <= i < |items| ==> items[i].id != id
    ensures r.Some? ==> exists k :: 0 <= k < |items| && items[k] == r.value && forall j :: 0 <= j < k ==> items[j].id != id
  {
    if items == [] then None
    else if items[0].id == id then Some(items[0])
    else
      var r := FindById(items[1..], id);
      assert r.Some? ==> exists k :: 1 <= k < |items| && items[k] == r.value && forall j :: 1 <= j < k ==> items[j].id != id by {
        if r.Some? {
          var k :| 0 <= k < |items[1..]| && items[1..][k] == r.value && forall j :: 0 <= j < k ==> items[1..][j].id != id;
          assert items[k + 1] == r.value;
          assert forall j :: 1 <= j < k + 1 ==> items[j].id != id by {
            forall j | 1 <= j < k + 1 ensures items[j].id != id {
              assert items[j] == items[1..][j - 1];
            }
          }
        }
      }
      r
  }

  /** With unique ids, the line found for an id is the one at that id's position. */
  lemma FindUnique(items: seq<CartItem>, i: nat)
    requires UniqueIds(items) && i < |items|
    ensures FindById(items, items[i].id) == Some(items[i])
  {
    var r := FindById(items, items[i].id);
    var k :| 0 <= k < |items| && items[k] == r.value;
    assert k == i;
  }

  /** The `map` of `addToCart`: every line with the existing line's id becomes that line with quantity `qty`. */
  function ReplaceQty(items: seq<CartItem>, existing: CartItem, qty: int): (r: seq<CartItem>)
    ensures |r| == |items|
    ensures forall i :: 0 <= i < |items| ==>
              r[i] == if items[i].id == existing.id then existing.(qty := qty) else items[i]
  {
    seq(|items|, i requires 0 <= i < |items| =>
      if items[i].id == existing.id then existing.(qty := qty) else items[i])
  }

  /**
   * The list `addToCart(item, qty)` produces. If a line with `item`'s id is
   * already there, its quantity is replaced (not added to), its other
   * fields stay those of the existing line, and the length is unchanged;
   * otherwise `item` with quantity `qty` is appended. Lines with other ids
   * keep their positions and values.
   */
  function AddToCartItems(items: seq<CartItem>, item: CartItem, qty: int): (r: seq<CartItem>)
    ensures FindById(items, item.id).Some? ==> |r| == |items|
    ensures FindById(items, item.id).None? ==>
              |r| == |items| + 1 && r[..|items|] == items && r[|items|] == item.(qty := qty)
    ensures forall i :: 0 <= i < |items| && items[i].id != item.id ==> r[i] == items[i]
    ensures forall i :: 0 <= i < |r| && r[i].id == item.id ==> r[i].qty == qty
  {
    match FindById(items, item.id)
    case Some(existing) => ReplaceQty(items, existing, qty)
    case None => items + [item.(qty := qty)]
  }

  /**
   * Reading back after a write: the line found for the product is the
   * existing line, or else the passed item, carrying the new quantity.
   */
  lemma AddToCartLookup(items: seq<CartItem>, item: CartItem, qty: int)
    ensures FindById(AddToCartItems(items, item, qty), item.id) ==
              Some((match FindById(items, item.id) case Some(e) => e case None => item).(qty := qty))
  {
    var r := AddToCartItems(items, item, qty);
    match FindById(items, item.id)
    case Some(e) =>
      assert r == ReplaceQty(items, e, qty);
      var k :| 0 <= k < |r| && r[k] == FindById(r, item.id).value;
    case None =>
      assert r[|items|] in r;
      var k :| 0 <= k < |r| && r[k] == FindById(r, item.id).value;
  }

  /** Overwriting a line's quantity keeps the set of ids. */
  lemma ReplaceQtyIds(items: seq<CartItem>, e: CartItem, qty: int)
    requires e in items
    ensures Ids(ReplaceQty(items, e, qty)) == Ids(items)
  {
    var r := ReplaceQty(items, e, qty);
    assert forall i :: 0 <= i < |items| ==> r[i].id == items[i].id;
    forall x | x in Ids(r) ensures x in Ids(items) {
      var y :| y in r && y.id == x;
      var i :| 0 <= i < |r| && r[i] == y;
      assert items[i] in items;
    }
    forall x | x in Ids(items) ensures x in Ids(r) {
      var y :| y in items && y.id == x;
      var i :| 0 <= i < |items| && items[i] == y;
      assert r[i] in r;
    }
  }

  /** Appending a line adds exactly its id. */
  lemma AppendIds(items: seq<CartItem>, x: CartItem)
    ensures Ids(items + [x]) == Ids(items) + {x.id}
  {
    var r := items + [x];
    assert r[|items|] == x;
    forall y | y in r ensures y.id in Ids(items) + {x.id} {
      if y != x {
        assert y in items;
      }
    }
  }

  /** Adding puts the product's id in the cart and no other new id. */
  lemma AddToCartIds(items: seq<CartItem>, item: CartItem, qty: int)
    ensures Ids(AddToCartItems(items, item, qty)) == Ids(items) + {item.id}
  {
    match FindById(items, item.id)
    case Some(e) =>
      ReplaceQtyIds(items, e, qty);
    case None =>
      AppendIds(items, item.(qty := qty));
  }

  /** Adding keeps product ids unique. */
  lemma AddToCartKeepsUnique(items: seq<CartItem>, item: CartItem, qty: int)
    requires UniqueIds(items)
    ensures UniqueIds(AddToCartItems(items, item, qty))
  {
    var r := AddToCartItems(items, item, qty);
    if FindById(items, item.id).Some? {
      assert forall i :: 0 <= i < |items| ==> r[i].id == items[i].id;
    }
  }

  /** Re-adding a product already in a unique cart rewrites exactly that line's quantity. */
  lemma AddExistingReplacesQty(items: seq<CartItem>, item: CartItem, qty: int, i: nat)
    requires UniqueIds(items) && i < |items| && items[i].id == item.id
    ensures AddToCartItems(items, item, qty) == items[i := items[i].(qty := qty)]
  {
    FindUnique(items, i);
  }

  /** Rewriting the quantity of lines rewritten before is one rewrite. */
  lemma ReplaceQtyTwice(items: seq<CartItem>, e: CartItem, q1: int, q2: int)
    ensures ReplaceQty(ReplaceQty(items, e, q1), e.(qty := q1), q2) == ReplaceQty(items, e, q2)
  {
    var once := ReplaceQty(items, e, q1);
    forall i | 0 <= i < |items| ensures ReplaceQty(once, e.(qty := q1), q2)[i] == ReplaceQty(items, e, q2)[i] {
    }
  }

  /** Rewriting the quantity of a line just appended, with no earlier line of that id, rewrites the appended line. */
  lemma ReplaceQtyAppended(items: seq<CartItem>, x: CartItem, q: int)
    requires forall i :: 0 <= i < |items| ==> items[i].id != x.id
    ensures ReplaceQty(items + [x], x, q) == items + [x.(qty := q)]
  {
    var r := ReplaceQty(items + [x], x, q);
    forall i | 0 <= i < |r| ensures r[i] == (items + [x.(qty := q)])[i] {
      if i < |items| {
        assert (items + [x])[i] == items[i];
      }
    }
  }

  /** Last write wins: a second add of the same product leaves what the second add alone would. */
  lemma LastWriteWins(items: seq<CartItem>, item: CartItem, again: CartItem, q1: int, q2: int)
    requires again.id == item.id
    ensures AddToCartItems(AddToCartItems(items, item, q1), again, q2) == AddToCartItems(items, item, q2)
  {
    var once := AddToCartItems(items, item, q1);
    match FindById(items, item.id)
    case Some(e) =>
      AddToCartLookup(items, item, q1);
      assert e.id == item.id;
      ReplaceQtyTwice(items, e, q1, q2);
    case None =>
      assert once == items + [item.(qty := q1)];
      AddToCartLookup(items, item, q1);
      ReplaceQtyAppended(items, item.(qty := q1), q2);
  }

  /** How adding moves the subtotal on a cart with unique ids. */
  lemma AddToCartItemsPrice(items: seq<CartItem>, item: CartItem, qty: int)
    requires UniqueIds(items)
    ensures FindById(items, item.id).None? ==>
              ItemsPrice(AddToCartItems(items, item, qty)) == ItemsPrice(items) + item.price * qty
    ensures forall i :: 0 <= i < |items| && items[i].id == item.id ==>
              ItemsPrice(AddToCartItems(items, item, qty)) == ItemsPrice(items) - LineTotal(items[i]) + items[i].price * qty
  {
    var r := AddToCartItems(items, item, qty);
    if FindById(items, item.id).None? {
      assert r == items + [item.(qty := qty)];
      assert r[..|r| - 1] == items;
    } else {
      forall i | 0 <= i < |items| && items[i].id == item.id
        ensures ItemsPrice(r) == ItemsPrice(items) - LineTotal(items[i]) + items[i].price * qty
      {
        AddExistingReplacesQty(items, item, qty, i);
        LinePriceSwap(items, i, items[i].(qty := qty));
      }
    }
  }

  /** Replacing one line changes the subtotal by the difference of the two lines. */
  lemma LinePriceSwap(items: seq<CartItem>, i: nat, x: CartItem)
    requires i < |items|
    ensures ItemsPrice(items[i := x]) == ItemsPrice(items) - LineTotal(items[i]) + LineTotal(x)
  {
    assert items == items[..i] + [items[i]] + items[i + 1..];
    assert items[i := x] == items[..i] + [x] + items[i + 1..];
    ItemsPriceConcat(items[..i] + [items[i]], items[i + 1..]);
    ItemsPriceConcat(items[..i] + [x], items[i + 1..]);
    ItemsPriceConcat(items[..i], [items[i]]);
    ItemsPriceConcat(items[..i], [x]);
    ItemsPriceSingleton(items[i]);
    ItemsPriceSingleton(x);
  }

  /**
   * The list `removeFromCart(id)` produces: every line with that id is
   * dropped, the others stay in order, and an absent id changes nothing.
   */
  function RemoveFromCartItems(items: seq<CartItem>, id: string): (r: seq<CartItem>)
    ensures forall x :: x in r <==> x in items && x.id != id
    ensures id !in Ids(r)
    ensures id !in Ids(items) ==> r == items
    ensures Ids(r) == Ids(items) - {id}
  {
    var r := Filter(items, (x: CartItem) => x.id != id);
    if id !in Ids(items) then
      assert forall i :: 0 <= i < |items| ==> items[i].id != id by {
        forall i | 0 <= i < |items| ensures items[i].id != id {
          assert items[i] in items;
        }
      }
      FilterKeepsAll(items, (x: CartItem) => x.id != id);
      r
    else
      r
  }

  /** Removing twice is removing once. */
  lemma RemoveIdempotent(items: seq<CartItem>, id: string)
    ensures RemoveFromCartItems(RemoveFromCartItems(items, id), id) == RemoveFromCartItems(items, id)
  {
  }

  /** The kept lines keep their relative order: removal acts on each part of a split list separately. */
  lemma RemoveKeepsOrder(a: seq<CartItem>, b: seq<CartItem>, id: string)
    ensures RemoveFromCartItems(a + b, id) == RemoveFromCartItems(a, id) + RemoveFromCartItems(b, id)
  {
    FilterConcat(a, b, (x: CartItem) => x.id != id);
  }

  /** Removing a line's own id from a cart of just that line leaves nothing. */
  lemma RemoveSingle(x: CartItem)
    ensures RemoveFromCartItems([x], x.id) == []
  {
    FilterSingleton(x, (y: CartItem) => y.id != x.id);
  }

  /** In a unique cart, removing a present id cuts out exactly its line. */
  lemma RemovePresent(items: seq<CartItem>, i: nat)
    requires UniqueIds(items) && i < |items|
    ensures RemoveFromCartItems(items, items[i].id) == items[..i] + items[i + 1..]
  {
    var id := items[i].id;
    assert forall j :: 0 <= j < |items| && j != i ==> items[j].id != id by {
      forall j | 0 <= j < |items| && j != i ensures items[j].id != id {
        if j < i { assert items[j].id != items[i].id; } else { assert items[i].id != items[j].id; }
      }
    }
    FilterDropsOne(items, (x: CartItem) => x.id != id, i);
  }

  /** In a unique cart, removing a present id lowers the subtotal by exactly that line. */
  lemma RemovePresentPrice(items: seq<CartItem>, i: nat)
    requires UniqueIds(items) && i < |items|
    ensures ItemsPrice(RemoveFromCartItems(items, items[i].id)) == ItemsPrice(items) - LineTotal(items[i])
  {
    var pre, x, post := items[..i], items[i], items[i + 1..];
    assert items == pre + [x] + post;
    RemovePresent(items, i);
    ItemsPriceAround(pre, x, post);
    calc {
      ItemsPrice(RemoveFromCartItems(items, items[i].id));
      ItemsPrice(pre + post);
      ItemsPrice(pre + [x] + post) - LineTotal(x);
    }
  }

  /** The subtotal of a list split around one line. */
  lemma ItemsPriceAround(pre: seq<CartItem>, x: CartItem, post: seq<CartItem>)
    ensures ItemsPrice(pre + [x] + post) == ItemsPrice(pre + post) + LineTotal(x)
  {
    ItemsPriceConcat(pre + [x], post);
    ItemsPriceConcat(pre, [x]);
    ItemsPriceConcat(pre, post);
    ItemsPriceSingleton(x);
  }

  /** Cutting one line out of a cart with unique ids leaves unique ids. */
  lemma CutKeepsUnique(items: seq<CartItem>, k: nat)
    requires UniqueIds(items) && k < |items|
    ensures UniqueIds(items[..k] + items[k + 1..])
  {
    var r := items[..k] + items[k + 1..];
    assert forall i :: 0 <= i < |r| ==> r[i] == items[if i < k then i else i + 1];
  }

  /** Removal keeps product ids unique. */
  lemma RemoveKeepsUnique(items: seq<CartItem>, id: string)
    requires UniqueIds(items)
    ensures UniqueIds(RemoveFromCartItems(items, id))
  {
    if id in Ids(items) {
      var i :| 0 <= i < |items| && items[i].id == id;
      RemovePresent(items, i);
      CutKeepsUnique(items, i);
    }
  }

  /** Removing a product just added to a cart that did not hold it restores the cart. */
  lemma AddThenRemove(items: seq<CartItem>, item: CartItem, qty: int)
    requires item.id !in Ids(items)
    ensures RemoveFromCartItems(AddToCartItems(items, item, qty), item.id) == items
  {
    var x := item.(qty := qty);
    assert forall i :: 0 <= i < |items| ==> items[i].id != item.id by {
      forall i | 0 <= i < |items| ensures items[i].id != item.id {
        assert items[i] in items;
      }
    }
    assert AddToCartItems(items, item, qty) == items + [x];
    RemoveKeepsOrder(items, [x], item.id);
    RemoveSingle(x);
    assert items + [] == items;
  }

  // ---------------------------------------------------------------------
  // The store
  // ---------------------------------------------------------------------

  /** The state held by `useCartStore` and its actions. */
  class Cart {
    var cartItems: seq<CartItem>
    var itemsPrice: Cents
    var shippingPrice: Cents
    var taxPrice: Cents
    var totalPrice: Cents
    var shippingAddress: Option<ShippingAddress>
    var paymentMethod: Option<PaymentMethod>

    /** The four price fields taken together. */
    function CurrentPrices(): Prices
      reads this
    {
      Prices(itemsPrice, shippingPrice, taxPrice, totalPrice)
    }

    /**
     * The prices match the list: they are `updateCartPrices` of it, or the
     * list is empty and the prices are the zeros of the initial and cleared
     * state.
     */
    ghost function PricesCurrent(): (b: bool)
      reads this
      ensures b ==> itemsPrice == ItemsPrice(cartItems)
      ensures b && cartItems != [] ==> CurrentPrices() == CartPrices(cartItems)
    {
      CurrentPrices() == CartPrices(cartItems) || (cartItems == [] && CurrentPrices() == ZeroPrices)
    }

    ghost predicate Valid()
      reads this
    {
      PricesCurrent() && UniqueIds(cartItems)
    }

    /** In a valid state the items price is the subtotal of the list, even in the zeroed empty state. */
    lemma ValidItemsPrice()
      requires Valid()
      ensures itemsPrice == ItemsPrice(cartItems)
    {
    }

    /** The initial state: no lines, zero prices, no checkout data. */
    constructor ()
      ensures Valid()
      ensures cartItems == [] && CurrentPrices() == ZeroPrices
      ensures shippingAddress == None && paymentMethod == None
    {
      cartItems := [];
      itemsPrice, shippingPrice, taxPrice, totalPrice := 0, 0, 0, 0;
      shippingAddress, paymentMethod := None, None;
    }

    /** `set({ cartItems, ...updateCartPrices(cartItems) })`. */
    method SetItems(items: seq<CartItem>)
      modifies this`cartItems, this`itemsPrice, this`shippingPrice, this`taxPrice, this`totalPrice
      ensures cartItems == items && CurrentPrices() == CartPrices(items)
    {
      var p := CartPrices(items);
      cartItems := items;
      itemsPrice, shippingPrice, taxPrice, totalPrice := p.itemsPrice, p.shippingPrice, p.taxPrice, p.totalPrice;
    }

    /** `addToCart(item, qty)`: insert or overwrite the line, then reprice. */
    method AddToCart(item: CartItem, qty: int)
      modifies this`cartItems, this`itemsPrice, this`shippingPrice, this`taxPrice, this`totalPrice
      ensures cartItems == AddToCartItems(old(cartItems), item, qty)
      ensures CurrentPrices() == CartPrices(cartItems)
      ensures old(Valid()) ==> Valid()
      ensures old(Valid()) && FindById(old(cartItems), item.id).None? ==>
                itemsPrice == old(itemsPrice) + item.price * qty
      ensures old(Valid()) ==>
                forall i :: 0 <= i < |old(cartItems)| && old(cartItems)[i].id == item.id ==>
                  itemsPrice == old(itemsPrice) - LineTotal(old(cartItems)[i]) + old(cartItems)[i].price * qty
    {
      if UniqueIds(cartItems) {
        AddToCartKeepsUnique(cartItems, item, qty);
        AddToCartItemsPrice(cartItems, item, qty);
      }
      if Valid() {
        ValidItemsPrice();
      }
      SetItems(AddToCartItems(cartItems, item, qty));
    }

    /** `removeFromCart(id)`: drop every line with that id, then reprice. */
    method RemoveFromCart(id: string)
      modifies this`cartItems, this`itemsPrice, this`shippingPrice, this`taxPrice, this`totalPrice
      ensures cartItems == RemoveFromCartItems(old(cartItems), id)
      ensures CurrentPrices() == CartPrices(cartItems)
      ensures old(Valid()) ==> Valid()
      ensures old(Valid()) && id !in Ids(old(cartItems)) ==> itemsPrice == old(itemsPrice)
      ensures old(Valid()) ==>
                forall i :: 0 <= i < |old(cartItems)| && old(cartItems)[i].id == id ==>
                  itemsPrice == old(itemsPrice) - LineTotal(old(cartItems)[i])
    {
      if UniqueIds(cartItems) {
        RemoveKeepsUnique(cartItems, id);
        forall i | 0 <= i < |cartItems| && cartItems[i].id == id
          ensures ItemsPrice(RemoveFromCartItems(cartItems, id)) == ItemsPrice(cartItems) - LineTotal(cartItems[i])
        {
          RemovePresentPrice(cartItems, i);
        }
      }
      if Valid() {
        ValidItemsPrice();
      }
      SetItems(RemoveFromCartItems(cartItems, id));
    }

    /** `saveShippingAddress(address)`: replaces the address and nothing else. */
    method SaveShippingAddress(address: ShippingAddress)
      modifies this`shippingAddress
      ensures shippingAddress == Some(address)
      ensures old(Valid()) ==> Valid()
    {
      shippingAddress := Some(address);
    }

    /** `savePaymentMethod(method)`: replaces the payment method and nothing else. */
    method SavePaymentMethod(m: PaymentMethod)
      modifies this`paymentMethod
      ensures paymentMethod == Some(m)
      ensures old(Valid()) ==> Valid()
    {
      paymentMethod := Some(m);
    }

    /** `clearCart()`: no lines and zero prices; the checkout fields are kept. */
    method ClearCart()
      modifies this`cartItems, this`itemsPrice, this`shippingPrice, this`taxPrice, this`totalPrice
      ensures cartItems == [] && CurrentPrices() == ZeroPrices
      ensures Valid()
    {
      cartItems := [];
      itemsPrice, shippingPrice, taxPrice, totalPrice := 0, 0, 0, 0;
    }
  }
}
