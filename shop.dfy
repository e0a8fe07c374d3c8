/**
 * The shop page: the fixed catalog, the category and price filters, the
 * five sort modes, the price slider, and the product card's star rating
 * and add-to-cart button.
 *
 * Prices are whole cents; the slider's bounds are whole dollars, so a
 * price is within `[lo, hi]` dollars exactly when it is within
 * `[lo * 100, hi * 100]` cents.
 */
module Shop {
  import opened Common
  import Cart

  /** The catalog, in its featured order. */
  const Catalog: seq<Product> := [
    Product(1, "Classic Rose Bouquet", 7999, "bouquets", 4.9, 128, true),
    Product(2, "Pink Garden Arrangement", 8999, "arrangements", 4.8, 96, true),
    Product(3, "White Elegance Centerpiece", 12999, "centerpieces", 5.0, 74, true),
    Product(4, "Romantic Red Roses", 9999, "bouquets", 4.9, 215, true),
    Product(5, "Spring Garden Mix", 6999, "seasonal", 4.7, 89, true),
    Product(6, "Luxury Orchid Arrangement", 14999, "premium", 5.0, 52, true),
    Product(7, "Sunshine Bouquet", 6499, "bouquets", 4.8, 103, true),
    Product(8, "Sympathy White Arrangement", 10999, "sympathy", 4.9, 67, true)
  ]

  const AllCategories := "all"
  const Categories := [AllCategories, "bouquets", "arrangements", "centerpieces", "seasonal", "premium", "sympathy"]
  const SortOptions := ["featured", "price-asc", "price-desc", "rating", "newest"]

  /** The slider's range and the initial price range, in dollars. */
  const SliderMax := 200
  const InitialPriceRange: (int, int) := (0, SliderMax)

  /** No product occurs twice. */
  ghost predicate Distinct(s: seq<Product>)
  {
    forall p :: multiset(s)[p] <= 1
  }

  /** The products of `s` that `keep` accepts, in their order (`filter`). */
  function Filter(s: seq<Product>, keep: Product -> bool): (r: seq<Product>)
    ensures |r| <= |s|
  {
    if s == [] then [] else (if keep(s[0]) then [s[0]] else []) + Filter(s[1..], keep)
  }

  /** The filter keeps exactly the accepted products, each as often as before. */
  lemma {:induction false} FilterContents(s: seq<Product>, keep: Product -> bool)
    ensures forall p :: p in Filter(s, keep) <==> p in s && keep(p)
    ensures multiset(Filter(s, keep)) <= multiset(s)
    decreases |s|
  {
    if s != [] {
      FilterContents(s[1..], keep);
      assert s == [s[0]] + s[1..];
    }
  }

  function CategoryIs(category: string): Product -> bool
  {
    (p: Product) => p.category == category
  }

  function PriceWithin(lo: int, hi: int): Product -> bool
  {
    (p: Product) => lo * 100 <= p.price <= hi * 100
  }

  /** The category step: "all" keeps everything, any other name keeps that category. */
  function InCategory(s: seq<Product>, category: string): (r: seq<Product>)
    ensures forall p :: p in r <==> p in s && (category == AllCategories || p.category == category)
    ensures multiset(r) <= multiset(s)
  {
    if category == AllCategories then s
    else
      FilterContents(s, CategoryIs(category));
      Filter(s, CategoryIs(category))
  }

  /** The price step, inclusive at both ends. */
  function InPriceRange(s: seq<Product>, lo: int, hi: int): (r: seq<Product>)
    ensures forall p :: p in r <==> p in s && lo * 100 <= p.price <= hi * 100
    ensures multiset(r) <= multiset(s)
  {
    FilterContents(s, PriceWithin(lo, hi));
    Filter(s, PriceWithin(lo, hi))
  }

  /** The products that pass both filters, in catalog order. */
  function Selected(catalog: seq<Product>, category: string, priceRange: (int, int)): seq<Product>
  {
    InPriceRange(InCategory(catalog, category), priceRange.0, priceRange.1)
  }

  // ---- Sorting

  function PriceKey(p: Product): real { p.price as real }
  function RatingKey(p: Product): real { p.rating }

  /** `a` may come before `b`: the comparator does not put `b` first. */
  predicate InOrder(a: Product, b: Product, key: Product -> real, descending: bool)
  {
    if descending then key(a) >= key(b) else key(a) <= key(b)
  }

  predicate SortedBy(s: seq<Product>, key: Product -> real, descending: bool)
  {
    forall i, j :: 0 <= i < j < |s| ==> InOrder(s[i], s[j], key, descending)
  }

  /** A product that may precede every product of a sorted list can go in front of it. */
  lemma SortedCons(a: Product, t: seq<Product>, key: Product -> real, descending: bool)
    requires SortedBy(t, key, descending)
    requires forall j :: 0 <= j < |t| ==> InOrder(a, t[j], key, descending)
    ensures SortedBy([a] + t, key, descending)
  {
    var u := [a] + t;
    forall i, j | 0 <= i < j < |u| ensures InOrder(u[i], u[j], key, descending) {
      assert u[j] == t[j - 1];
      if i > 0 {
        assert u[i] == t[i - 1];
      }
    }
  }

  /** Puts `x` before the first product it may precede, so it stays ahead of equal keys. */
  function Insert(x: Product, s: seq<Product>, key: Product -> real, descending: bool): (r: seq<Product>)
    requires SortedBy(s, key, descending)
    ensures SortedBy(r, key, descending)
    ensures multiset(r) == multiset(s) + multiset{x}
  {
    if s == [] then [x]
    else if InOrder(x, s[0], key, descending) then
      assert forall j :: 0 <= j < |s| ==> InOrder(x, s[j], key, descending) by {
        forall j | 0 <= j < |s| ensures InOrder(x, s[j], key, descending) {
          assert j == 0 || InOrder(s[0], s[j], key, descending);
        }
      }
      SortedCons(x, s, key, descending);
      [x] + s
    else
      assert s == [s[0]] + s[1..];
      assert SortedBy(s[1..], key, descending) by {
        forall i, j | 0 <= i < j < |s| - 1 ensures InOrder(s[1..][i], s[1..][j], key, descending) {
          assert InOrder(s[i + 1], s[j + 1], key, descending);
        }
      }
      var rest := Insert(x, s[1..], key, descending);
      assert forall j :: 0 <= j < |rest| ==> InOrder(s[0], rest[j], key, descending) by {
        forall j | 0 <= j < |rest| ensures InOrder(s[0], rest[j], key, descending) {
          assert rest[j] in multiset(rest);
          assert rest[j] == x || rest[j] in multiset(s[1..]);
          if rest[j] != x {
            var k :| 0 <= k < |s[1..]| && s[1..][k] == rest[j];
            assert InOrder(s[0], s[k + 1], key, descending);
          }
        }
      }
      SortedCons(s[0], rest, key, descending);
      [s[0]] + rest
  }

  /** A stable insertion sort by `key` (`Array.prototype.sort` with a key comparator). */
  function SortBy(s: seq<Product>, key: Product -> real, descending: bool): (r: seq<Product>)
    ensures SortedBy(r, key, descending)
    ensures multiset(r) == multiset(s)
  {
    if s == [] then []
    else
      assert s == [s[0]] + s[1..];
      Insert(s[0], SortBy(s[1..], key, descending), key, descending)
  }

  /** The catalog order reversed (`Array.prototype.reverse`). */
  function Reverse(s: seq<Product>): (r: seq<Product>)
    ensures |r| == |s|
    ensures forall i :: 0 <= i < |s| ==> r[i] == s[|s| - 1 - i]
    ensures multiset(r) == multiset(s)
  {
    if s == [] then []
    else
      assert s == [s[0]] + s[1..];
      Reverse(s[1..]) + [s[0]]
  }

  /** The sort step; "featured" and every unknown mode keep the filtered order. */
  function Arranged(s: seq<Product>, sortBy: string): (r: seq<Product>)
    ensures multiset(r) == multiset(s)
    ensures sortBy !in SortOptions[1..] ==> r == s
  {
    match sortBy
      case "price-asc" => SortBy(s, PriceKey, false)
      case "price-desc" => SortBy(s, PriceKey, true)
      case "rating" => SortBy(s, RatingKey, true)
      case "newest" => Reverse(s)
      case _ => s
  }

  lemma {:induction false} FilterConcat(a: seq<Product>, b: seq<Product>, keep: Product -> bool)
    ensures Filter(a + b, keep) == Filter(a, keep) + Filter(b, keep)
    decreases |a|
  {
    if a != [] {
      assert (a + b)[1..] == a[1..] + b;
      FilterConcat(a[1..], b, keep);
    } else {
      assert a + b == b;
    }
  }

  lemma FilterSingle(y: Product, keep: Product -> bool)
    ensures Filter([y], keep) == if keep(y) then [y] else []
  {
    assert [y][1..] == [];
  }

  /** Products with keys equal to `v`, given as the predicate `eq`. */
  ghost predicate KeyIs(eq: Product -> bool, key: Product -> real, v: real)
  {
    forall p :: eq(p) <==> key(p) == v
  }

  lemma {:induction false} InsertStable(x: Product, s: seq<Product>, key: Product -> real, descending: bool,
                                        eq: Product -> bool, v: real)
    requires SortedBy(s, key, descending) && KeyIs(eq, key, v)
    ensures Filter(Insert(x, s, key, descending), eq) == Filter([x], eq) + Filter(s, eq)
    decreases |s|
  {
    if s == [] {
    } else if InOrder(x, s[0], key, descending) {
      FilterConcat([x], s, eq);
    } else {
      var rest := Insert(x, s[1..], key, descending);
      assert Insert(x, s, key, descending) == [s[0]] + rest;
      InsertStable(x, s[1..], key, descending, eq, v);
      FilterConcat([s[0]], rest, eq);
      assert s == [s[0]] + s[1..];
      FilterConcat([s[0]], s[1..], eq);
      var fx, f0, ft := Filter([x], eq), Filter([s[0]], eq), Filter(s[1..], eq);
      assert Filter(Insert(x, s, key, descending), eq) == f0 + (fx + ft);
      assert Filter(s, eq) == f0 + ft;
      FilterSingle(x, eq);
      FilterSingle(s[0], eq);
      SwapEmpty(fx, f0, ft);
    }
  }

  lemma SwapEmpty(a: seq<Product>, b: seq<Product>, c: seq<Product>)
    requires a == [] || b == []
    ensures b + (a + c) == a + (b + c)
  {
  }

  /**
   * The sort is stable: the products that share any one key value come
   * out in the order they went in.
   */
  lemma {:induction false} SortStable(s: seq<Product>, key: Product -> real, descending: bool,
                                      eq: Product -> bool, v: real)
    requires KeyIs(eq, key, v)
    ensures Filter(SortBy(s, key, descending), eq) == Filter(s, eq)
    decreases |s|
  {
    if s != [] {
      SortStable(s[1..], key, descending, eq, v);
      InsertStable(s[0], SortBy(s[1..], key, descending), key, descending, eq, v);
      assert s == [s[0]] + s[1..];
      FilterConcat([s[0]], s[1..], eq);
    }
  }

  /** No two positions hold products with the same id. */
  predicate DistinctIds(s: seq<Product>)
  {
    forall i, j :: 0 <= i < j < |s| ==> s[i].id != s[j].id
  }

  lemma {:induction false} DistinctIdsOccurOnce(s: seq<Product>)
    requires DistinctIds(s)
    ensures Distinct(s)
    decreases |s|
  {
    if s != [] {
      DistinctIdsOccurOnce(s[1..]);
      assert s == [s[0]] + s[1..];
      assert s[0] !in s[1..];
    }
  }

  lemma OccurOnceNoRepeats(s: seq<Product>)
    requires Distinct(s)
    ensures forall i, j :: 0 <= i < j < |s| ==> s[i] != s[j]
  {
    forall i, j | 0 <= i < j < |s| ensures s[i] != s[j] {
      assert s == s[..j] + s[j..];
      assert multiset(s) == multiset(s[..j]) + multiset(s[j..]);
      assert s[j] in multiset(s[j..]);
      assert multiset(s)[s[j]] <= 1;
      assert multiset(s[..j])[s[j]] == 0;
      assert s[i] in multiset(s[..j]);
    }
  }

  /** A sub-multiset of a list without repeated ids has no repeated ids either. */
  lemma SubMultisetDistinctIds(r: seq<Product>, catalog: seq<Product>)
    requires DistinctIds(catalog) && multiset(r) <= multiset(catalog)
    ensures DistinctIds(r)
  {
    DistinctIdsOccurOnce(catalog);
    OccurOnceNoRepeats(r);
    forall i, j | 0 <= i < j < |r| ensures r[i].id != r[j].id {
      assert r[i] in multiset(catalog) && r[j] in multiset(catalog);
      var a :| 0 <= a < |catalog| && catalog[a] == r[i];
      var b :| 0 <= b < |catalog| && catalog[b] == r[j];
      assert a != b;
    }
  }

  /**
   * The pipeline over a catalog without repeated ids shows exactly the
   * products passing both filters, each once, whatever the sort mode.
   */
  lemma PipelineContents(catalog: seq<Product>, category: string, sortBy: string, priceRange: (int, int))
    requires DistinctIds(catalog)
    ensures var r := Arranged(Selected(catalog, category, priceRange), sortBy);
      (forall p :: p in r <==>
        p in catalog && (category == AllCategories || p.category == category) &&
        priceRange.0 * 100 <= p.price <= priceRange.1 * 100) &&
      DistinctIds(r)
  {
    var selected := Selected(catalog, category, priceRange);
    var r := Arranged(selected, sortBy);
    assert multiset(r) == multiset(selected);
    forall p ensures p in r <==> p in selected {
      assert p in r <==> p in multiset(r);
      assert p in selected <==> p in multiset(selected);
    }
    assert multiset(selected) <= multiset(catalog);
    SubMultisetDistinctIds(r, catalog);
  }

  lemma CatalogIdsDistinct()
    ensures DistinctIds(Catalog)
  {
    assert forall i :: 0 <= i < |Catalog| ==> Catalog[i].id == i + 1;
  }

  /**
   * The filter/sort pipeline (`filteredProducts`) over a catalog: a copy of
   * it, filtered by category and by price, then sorted or reversed.
   */
  method FilterAndSort(catalog: seq<Product>, selectedCategory: string, sortBy: string, priceRange: (int, int))
    returns (result: seq<Product>)
    requires DistinctIds(catalog)
    ensures result == Arranged(Selected(catalog, selectedCategory, priceRange), sortBy)
    ensures forall p :: p in result <==>
      p in catalog && (selectedCategory == AllCategories || p.category == selectedCategory) &&
      priceRange.0 * 100 <= p.price <= priceRange.1 * 100
    ensures DistinctIds(result)
    ensures sortBy == "price-asc" ==> SortedBy(result, PriceKey, false)
    ensures sortBy == "price-desc" ==> SortedBy(result, PriceKey, true)
    ensures sortBy == "rating" ==> SortedBy(result, RatingKey, true)
    ensures sortBy == "newest" ==> result == Reverse(Selected(catalog, selectedCategory, priceRange))
    ensures sortBy !in SortOptions[1..] ==> result == Selected(catalog, selectedCategory, priceRange)
  {
    result := catalog;
    if selectedCategory != AllCategories {
      result := Filter(result, CategoryIs(selectedCategory));
    }
    result := Filter(result, PriceWithin(priceRange.0, priceRange.1));
    match sortBy {
      case "price-asc" => result := SortBy(result, PriceKey, false);
      case "price-desc" => result := SortBy(result, PriceKey, true);
      case "rating" => result := SortBy(result, RatingKey, true);
      case "newest" => result := Reverse(result);
      case _ =>
    }
    PipelineContents(catalog, selectedCategory, sortBy, priceRange);
  }

  // ---- Page state

  /** The shop page's state: the selected category, sort mode and price range. */
  class ShopPage {
    var selectedCategory: string
    var sortBy: string
    var priceRange: (int, int)

    constructor ()
      ensures selectedCategory == AllCategories && sortBy == "featured" && priceRange == InitialPriceRange
    {
      selectedCategory := AllCategories;
      sortBy := "featured";
      priceRange := InitialPriceRange;
    }

    method SelectCategory(category: string)
      modifies this
      ensures selectedCategory == category
      ensures sortBy == old(sortBy) && priceRange == old(priceRange)
    {
      selectedCategory := category;
    }

    method SelectSort(mode: string)
      modifies this
      ensures sortBy == mode
      ensures selectedCategory == old(selectedCategory) && priceRange == old(priceRange)
    {
      sortBy := mode;
    }

    /** The slider only moves the upper bound; the lower bound is always reset to 0. */
    method MovePriceSlider(value: int)
      modifies this
      ensures priceRange == (0, value)
      ensures selectedCategory == old(selectedCategory) && sortBy == old(sortBy)
    {
      priceRange := (0, value);
    }

    /** The products the grid shows for the current state. */
    method Visible() returns (result: seq<Product>)
      ensures result == Arranged(Selected(Catalog, selectedCategory, priceRange), sortBy)
      ensures forall p :: p in result <==> p in Selected(Catalog, selectedCategory, priceRange)
      ensures DistinctIds(result)
    {
      CatalogIdsDistinct();
      result := FilterAndSort(Catalog, selectedCategory, sortBy, priceRange);
    }
  }

  // ---- Product card

  /** Star `i` (0 to 4) is filled when it is below the rating's floor. */
  predicate StarFilled(i: int, rating: real)
  {
    i < rating.Floor
  }

  /** The number of filled stars out of five. */
  function FilledStars(rating: real): (n: nat)
    ensures n <= 5
    ensures forall i :: 0 <= i < 5 ==> (StarFilled(i, rating) <==> i < n)
  {
    if rating.Floor <= 0 then 0 else if rating.Floor >= 5 then 5 else rating.Floor
  }

  lemma CatalogStars()
    ensures forall p :: p in Catalog ==> FilledStars(p.rating) == (if p.rating == 5.0 then 5 else 4)
  {
  }

  /** A product card: its product and whether an add is in progress. */
  class ProductCard {
    const product: Product
    var isAdding: bool

    constructor (product: Product)
      ensures this.product == product && !isAdding
    {
      this.product := product;
      isAdding := false;
    }

    /** The quick-add button is disabled while adding or when the product is out of stock. */
    predicate AddDisabled()
      reads this
      ensures !product.inStock ==> AddDisabled()
      ensures product.inStock ==> (AddDisabled() <==> isAdding)
    {
      isAdding || !product.inStock
    }

    /** `handleAddToCart`: one unit, no options; the add completes before the button re-enables. */
    method HandleAddToCart(cart: Cart.CartStore)
      modifies this, cart
      ensures cart.items == Cart.Added(old(cart.items), product, 1, [])
      ensures cart.isCartOpen && cart.Valid()
      ensures !isAdding
    {
      isAdding := true;
      cart.AddToCart(product, 1, []);
      isAdding := false;
    }

    /** A click reaches the handler only when the button is enabled. */
    method Click(cart: Cart.CartStore)
      modifies this, cart
      ensures old(AddDisabled()) ==> unchanged(this, cart)
      ensures !old(AddDisabled()) ==> cart.items == Cart.Added(old(cart.items), product, 1, []) && !isAdding
      ensures !old(AddDisabled()) ==> cart.isCartOpen && cart.Valid()
    {
      if !AddDisabled() {
        HandleAddToCart(cart);
      }
    }
  }
}
