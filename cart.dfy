/**
 * The shopping cart provider: the list of cart lines, whether the cart
 * panel is open, and the totals derived from the lines.
 *
 * Prices are whole cents (the storefront's prices all have two decimals),
 * so the cart count and subtotal are exact integers; tax is an exact real.
 */
module Cart {
  import opened Common

  /**
   * The options a line was added with. Two option objects are the same when
   * their JSON text is the same: the same keys with the same values in the
   * same order, which is equality of the ordered key/value list.
   */
  type Options = seq<(string, string)>

  /** A cart line: the product's fields spread into the line, its quantity and its options. */
  datatype LineItem = LineItem(product: Product, quantity: int, options: Options)

  /** The key under which the cart is persisted. */
  const StorageKey := "triciana-cart"

  /** Tax rate (8%) and the free-shipping threshold and flat fee, in cents. */
  const TaxRate: real := 0.08
  const FreeShippingAbove := 7500
  const ShippingFee := 999

  predicate SameLine(item: LineItem, id: int, options: Options)
  {
    item.product.id == id && item.options == options
  }

  /** The index of the first line for this product with these options (`findIndex`). */
  function FindLine(items: seq<LineItem>, id: int, options: Options): (r: Option<nat>)
    ensures r.Some? ==> r.value < |items| && SameLine(items[r.value], id, options)
    ensures r.Some? ==> forall j :: 0 <= j < r.value ==> !SameLine(items[j], id, options)
    ensures r.None? <==> forall j :: 0 <= j < |items| ==> !SameLine(items[j], id, options)
  {
    if items == [] then None
    else if SameLine(items[0], id, options) then Some(0)
    else match FindLine(items[1..], id, options)
      case None => None
      case Some(k) => Some(k + 1)
  }

  /**
   * The lines after adding `quantity` of `product` with `options`: the
   * matching line's quantity grows, or a new line goes at the end.
   */
  function Added(items: seq<LineItem>, product: Product, quantity: int, options: Options): (r: seq<LineItem>)
    ensures |r| == |items| + (if FindLine(items, product.id, options).Some? then 0 else 1)
  {
    match FindLine(items, product.id, options)
      case Some(k) => items[k := items[k].(quantity := items[k].quantity + quantity)]
      case None => items + [LineItem(product, quantity, options)]
  }

  /** The lines whose product is not `id`, in their order (`filter`). */
  function Removed(items: seq<LineItem>, id: int): (r: seq<LineItem>)
    ensures |r| <= |items|
    ensures forall k :: 0 <= k < |r| ==> r[k].product.id != id
  {
    if items == [] then []
    else if items[0].product.id != id then [items[0]] + Removed(items[1..], id)
    else Removed(items[1..], id)
  }

  /** The lines whose product is `id`, in their order. */
  function LinesOf(items: seq<LineItem>, id: int): seq<LineItem>
  {
    if items == [] then []
    else if items[0].product.id == id then [items[0]] + LinesOf(items[1..], id)
    else LinesOf(items[1..], id)
  }

  /** Every line of product `id` gets quantity `q`, the rest are kept (`map`). */
  function QuantitySet(items: seq<LineItem>, id: int, q: int): seq<LineItem>
  {
    seq(|items|, k requires 0 <= k < |items| =>
      if items[k].product.id == id then items[k].(quantity := q) else items[k])
  }

  /** `updateQuantity`: a quantity of zero or less removes the product's lines. */
  function QuantityUpdated(items: seq<LineItem>, id: int, q: int): (r: seq<LineItem>)
    ensures q <= 0 ==> forall k :: 0 <= k < |r| ==> r[k].product.id != id
    ensures q > 0 ==> |r| == |items|
    ensures q > 0 ==> forall k :: 0 <= k < |r| && r[k].product.id == id ==> r[k].quantity == q
  {
    if q <= 0 then Removed(items, id) else QuantitySet(items, id, q)
  }

  function LineQuantity(item: LineItem): int { item.quantity }
  function LineSubtotal(item: LineItem): int { item.product.price * item.quantity }

  /** The sum of `f` over the lines (`reduce` from 0). */
  function Sum(items: seq<LineItem>, f: LineItem -> int): int
  {
    if items == [] then 0 else f(items[0]) + Sum(items[1..], f)
  }

  /** The number of units in the cart; never negative while no line has a negative quantity. */
  function CartCount(items: seq<LineItem>): (n: int)
    ensures (forall k :: 0 <= k < |items| ==> items[k].quantity >= 0) ==> n >= 0
  {
    SumNonNegative(items, LineQuantity);
    Sum(items, LineQuantity)
  }

  /** The subtotal in cents; never negative while no line has a negative price or quantity. */
  function CartTotal(items: seq<LineItem>): (total: int)
    ensures (forall k :: 0 <= k < |items| ==> items[k].quantity >= 0 && items[k].product.price >= 0) ==> total >= 0
  {
    SumNonNegative(items, LineSubtotal);
    Sum(items, LineSubtotal)
  }

  /** A sum of terms that are never negative is never negative. */
  lemma {:induction false} SumNonNegative(items: seq<LineItem>, f: LineItem -> int)
    ensures (forall k :: 0 <= k < |items| ==> f(items[k]) >= 0) ==> Sum(items, f) >= 0
    decreases |items|
  {
    if items != [] {
      SumNonNegative(items[1..], f);
      assert forall k :: 0 <= k < |items| - 1 ==> items[1..][k] == items[k + 1];
    }
  }

  /** 8% of the subtotal, exactly. */
  function CartTax(items: seq<LineItem>): (tax: real)
    ensures 25.0 * tax == 2.0 * CartTotal(items) as real
  {
    CartTotal(items) as real * TaxRate
  }

  /** Shipping is free only for a subtotal strictly above $75. */
  function CartShipping(items: seq<LineItem>): (fee: int)
    ensures fee == 0 <==> CartTotal(items) > FreeShippingAbove
    ensures fee != 0 ==> fee == ShippingFee
  {
    if CartTotal(items) > FreeShippingAbove then 0 else ShippingFee
  }

  function CartFinalTotal(items: seq<LineItem>): (total: real)
    ensures total == CartTotal(items) as real * 1.08 + CartShipping(items) as real
  {
    CartTotal(items) as real + CartTax(items) + CartShipping(items) as real
  }

  /** No two lines have the same product and the same options. */
  predicate DistinctLines(items: seq<LineItem>)
  {
    forall i, j :: 0 <= i < j < |items| ==>
      !SameLine(items[j], items[i].product.id, items[i].options)
  }

  // ---- Sums over lines

  lemma {:induction false} SumConcat(a: seq<LineItem>, b: seq<LineItem>, f: LineItem -> int)
    ensures Sum(a + b, f) == Sum(a, f) + Sum(b, f)
    decreases |a|
  {
    if a != [] {
      assert (a + b)[1..] == a[1..] + b;
      SumConcat(a[1..], b, f);
    } else {
      assert a + b == b;
    }
  }

  lemma {:induction false} SumUpdate(items: seq<LineItem>, k: nat, x: LineItem, f: LineItem -> int)
    requires k < |items|
    ensures Sum(items[k := x], f) == Sum(items, f) - f(items[k]) + f(x)
    decreases |items|
  {
    if k > 0 {
      assert items[k := x][1..] == items[1..][k - 1 := x];
      SumUpdate(items[1..], k - 1, x, f);
    } else {
      assert items[k := x][1..] == items[1..];
    }
  }

  /** Removing a product's lines splits every sum into the kept lines and the removed ones. */
  lemma {:induction false} SumRemoved(items: seq<LineItem>, id: int, f: LineItem -> int)
    ensures Sum(items, f) == Sum(Removed(items, id), f) + Sum(LinesOf(items, id), f)
    decreases |items|
  {
    if items != [] {
      SumRemoved(items[1..], id, f);
      if items[0].product.id != id {
        SumConcat([items[0]], Removed(items[1..], id), f);
      } else {
        SumConcat([items[0]], LinesOf(items[1..], id), f);
      }
    }
  }

  // ---- addToCart

  /** A product already in the cart with the same options: one line grows, nothing else changes. */
  lemma AddedMerges(items: seq<LineItem>, product: Product, quantity: int, options: Options, k: nat)
    requires k < |items| && SameLine(items[k], product.id, options)
    requires forall j :: 0 <= j < k ==> !SameLine(items[j], product.id, options)
    ensures var r := Added(items, product, quantity, options);
      |r| == |items| &&
      r[k] == items[k].(quantity := items[k].quantity + quantity) &&
      forall j :: 0 <= j < |r| && j != k ==> r[j] == items[j]
  {
    assert FindLine(items, product.id, options) == Some(k);
  }

  /** A new product or new options: the line goes at the end with the product's own fields. */
  lemma AddedAppends(items: seq<LineItem>, product: Product, quantity: int, options: Options)
    requires forall j :: 0 <= j < |items| ==> !SameLine(items[j], product.id, options)
    ensures Added(items, product, quantity, options) == items + [LineItem(product, quantity, options)]
  {
  }

  /** Adding grows the item count by exactly the quantity added. */
  lemma AddedCount(items: seq<LineItem>, product: Product, quantity: int, options: Options)
    ensures CartCount(Added(items, product, quantity, options)) == CartCount(items) + quantity
  {
    match FindLine(items, product.id, options)
    case Some(k) =>
      SumUpdate(items, k, items[k].(quantity := items[k].quantity + quantity), LineQuantity);
    case None =>
      SumConcat(items, [LineItem(product, quantity, options)], LineQuantity);
  }

  /**
   * Adding grows the subtotal by the quantity times the price: the price
   * already on the merged line, or the product's price for a new line.
   */
  lemma AddedTotal(items: seq<LineItem>, product: Product, quantity: int, options: Options)
    ensures var price := match FindLine(items, product.id, options)
                           case Some(k) => items[k].product.price
                           case None => product.price;
      CartTotal(Added(items, product, quantity, options)) == CartTotal(items) + price * quantity
  {
    match FindLine(items, product.id, options)
    case Some(k) =>
      var line := items[k];
      SumUpdate(items, k, line.(quantity := line.quantity + quantity), LineSubtotal);
      assert LineSubtotal(line.(quantity := line.quantity + quantity))
          == LineSubtotal(line) + line.product.price * quantity;
    case None =>
      SumConcat(items, [LineItem(product, quantity, options)], LineSubtotal);
  }

  /** Adding never creates a second line for the same product and options. */
  lemma AddedKeepsDistinct(items: seq<LineItem>, product: Product, quantity: int, options: Options)
    requires DistinctLines(items)
    ensures DistinctLines(Added(items, product, quantity, options))
  {
    var r := Added(items, product, quantity, options);
    match FindLine(items, product.id, options)
    case Some(k) =>
      assert forall j :: 0 <= j < |r| ==> r[j].product == items[j].product && r[j].options == items[j].options;
    case None =>
  }

  // ---- removeFromCart

  /** Removal keeps exactly the lines of other products. */
  lemma {:induction false} RemovedContents(items: seq<LineItem>, id: int)
    ensures forall x :: x in Removed(items, id) <==> x in items && x.product.id != id
    ensures |Removed(items, id)| + |LinesOf(items, id)| == |items|
    decreases |items|
  {
    if items != [] {
      RemovedContents(items[1..], id);
      assert items == [items[0]] + items[1..];
    }
  }

  /** Removal keeps the order: removing from a concatenation removes from each part. */
  lemma {:induction false} RemovedConcat(a: seq<LineItem>, b: seq<LineItem>, id: int)
    ensures Removed(a + b, id) == Removed(a, id) + Removed(b, id)
    decreases |a|
  {
    if a != [] {
      assert (a + b)[1..] == a[1..] + b;
      RemovedConcat(a[1..], b, id);
    } else {
      assert a + b == b;
    }
  }

  /** Removing a product takes its quantity off the count and its lines off the subtotal. */
  lemma RemovedTotals(items: seq<LineItem>, id: int)
    ensures CartCount(Removed(items, id)) == CartCount(items) - CartCount(LinesOf(items, id))
    ensures CartTotal(Removed(items, id)) == CartTotal(items) - CartTotal(LinesOf(items, id))
  {
    SumRemoved(items, id, LineQuantity);
    SumRemoved(items, id, LineSubtotal);
  }

  /** Removing twice is removing once. */
  lemma {:induction false} RemovedIdempotent(items: seq<LineItem>, id: int)
    ensures Removed(Removed(items, id), id) == Removed(items, id)
    decreases |items|
  {
    if items != [] {
      RemovedIdempotent(items[1..], id);
      if items[0].product.id != id {
        assert ([items[0]] + Removed(items[1..], id))[1..] == Removed(items[1..], id);
      }
    }
  }

  lemma {:induction false} RemovedKeepsDistinct(items: seq<LineItem>, id: int)
    requires DistinctLines(items)
    ensures DistinctLines(Removed(items, id))
    decreases |items|
  {
    if items != [] {
      RemovedKeepsDistinct(items[1..], id);
      RemovedContents(items[1..], id);
      var rest := Removed(items[1..], id);
      forall j | 0 <= j < |rest|
        ensures !SameLine(rest[j], items[0].product.id, items[0].options)
      {
        assert rest[j] in items[1..];
      }
    }
  }

  // ---- updateQuantity

  /** A positive quantity replaces the quantity of every line of the product, in place. */
  lemma QuantityUpdatedSets(items: seq<LineItem>, id: int, q: int)
    requires q > 0
    ensures var r := QuantityUpdated(items, id, q);
      |r| == |items| &&
      forall k :: 0 <= k < |r| ==>
        r[k].product == items[k].product && r[k].options == items[k].options &&
        r[k].quantity == (if items[k].product.id == id then q else items[k].quantity)
  {
  }

  lemma {:induction false} QuantitySetSum(items: seq<LineItem>, id: int, q: int)
    ensures Sum(QuantitySet(items, id, q), LineQuantity) == Sum(Removed(items, id), LineQuantity) + q * |LinesOf(items, id)|
    decreases |items|
  {
    if items != [] {
      var set1 := QuantitySet(items, id, q);
      assert set1[1..] == QuantitySet(items[1..], id, q);
      QuantitySetSum(items[1..], id, q);
      assert Sum(set1, LineQuantity) == set1[0].quantity + Sum(set1[1..], LineQuantity);
      if items[0].product.id != id {
        assert Removed(items, id) == [items[0]] + Removed(items[1..], id);
        assert LinesOf(items, id) == LinesOf(items[1..], id);
        SumConcat([items[0]], Removed(items[1..], id), LineQuantity);
      } else {
        assert Removed(items, id) == Removed(items[1..], id);
        assert |LinesOf(items, id)| == |LinesOf(items[1..], id)| + 1;
      }
    }
  }

  /** A positive update leaves each of the product's lines with quantity `q`. */
  lemma QuantitySetCount(items: seq<LineItem>, id: int, q: int)
    ensures CartCount(QuantitySet(items, id, q)) == CartCount(Removed(items, id)) + q * |LinesOf(items, id)|
  {
    QuantitySetSum(items, id, q);
  }

  lemma QuantityUpdatedKeepsDistinct(items: seq<LineItem>, id: int, q: int)
    requires DistinctLines(items)
    ensures DistinctLines(QuantityUpdated(items, id, q))
  {
    if q <= 0 {
      RemovedKeepsDistinct(items, id);
    }
  }

  // ---- Totals

  /** The empty cart: nothing to count or pay for, but shipping is still charged. */
  lemma EmptyCartTotals()
    ensures CartCount([]) == 0 && CartTotal([]) == 0
    ensures CartShipping([]) == ShippingFee && CartFinalTotal([]) == ShippingFee as real
  {
  }

  /** Free shipping starts strictly above the threshold. */
  lemma ShippingThreshold(items: seq<LineItem>)
    ensures CartTotal(items) == FreeShippingAbove ==> CartFinalTotal(items) == 8100.0 + ShippingFee as real
    ensures CartTotal(items) == FreeShippingAbove + 1 ==> CartFinalTotal(items) == 7501.0 * 1.08
  {
  }

  /**
   * The cart provider's state: the lines, whether the panel is open, and
   * the copy persisted under `StorageKey`, which the save effect keeps
   * equal to the lines after every change.
   */
  class CartStore {
    var items: seq<LineItem>
    var isCartOpen: bool
    var persisted: seq<LineItem>

    ghost predicate Valid()
      reads this
    {
      persisted == items
    }

    /** The lines saved by an earlier visit, if any; the panel starts closed. */
    constructor (saved: Option<seq<LineItem>>)
      ensures Valid()
      ensures items == (if saved.Some? then saved.value else [])
      ensures !isCartOpen
    {
      items := if saved.Some? then saved.value else [];
      isCartOpen := false;
      persisted := items;
    }

    /** `addToCart`: merges into the matching line or appends, then opens the panel. */
    method AddToCart(product: Product, quantity: int, options: Options)
      modifies this
      ensures Valid()
      ensures items == Added(old(items), product, quantity, options)
      ensures isCartOpen
    {
      var updated := items;
      var existing := FindLine(updated, product.id, options);
      if existing.Some? {
        var k := existing.value;
        updated := updated[k := updated[k].(quantity := updated[k].quantity + quantity)];
      } else {
        updated := updated + [LineItem(product, quantity, options)];
      }
      items := updated;
      isCartOpen := true;
      persisted := items;
    }

    /** `removeFromCart`: drops every line of the product. */
    method RemoveFromCart(id: int)
      modifies this
      ensures Valid()
      ensures items == Removed(old(items), id)
      ensures isCartOpen == old(isCartOpen)
    {
      items := Removed(items, id);
      persisted := items;
    }

    /** `updateQuantity`: removes for a quantity of zero or less, otherwise sets it. */
    method UpdateQuantity(id: int, quantity: int)
      modifies this
      ensures Valid()
      ensures items == QuantityUpdated(old(items), id, quantity)
      ensures isCartOpen == old(isCartOpen)
    {
      if quantity <= 0 {
        RemoveFromCart(id);
        return;
      }
      items := QuantitySet(items, id, quantity);
      persisted := items;
    }

    /** `clearCart`: the cart becomes empty; the panel is left as it was. */
    method ClearCart()
      modifies this
      ensures Valid()
      ensures items == [] && CartCount(items) == 0
      ensures isCartOpen == old(isCartOpen)
    {
      items := [];
      persisted := items;
    }

    /** `setIsCartOpen`. */
    method SetCartOpen(open: bool)
      modifies this
      ensures items == old(items) && persisted == old(persisted)
      ensures isCartOpen == open
    {
      isCartOpen := open;
    }
  }
}
