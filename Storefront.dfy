/** The storefront home page: products as loaded, the category and search
    filter, the three sort orders, the banner carousel and the cart badge. */
module Storefront {
  import opened Common
  import opened CartProvider

  const Categories: seq<string> := ["All", "Lifestyle", "Basketball", "Running", "Fashion & Apparel",
                                    "Electronics", "Groceries", "Home & Kitchen", "Other"]
  const AllCategory: string := "All"
  const DefaultPrice: int := 15000

  datatype Product = Product(id: string, name: string, price: int, category: string, sellerId: string,
                             color: Option<string>)

  /** A product document as stored: price and category may be missing. */
  datatype ProductDoc = ProductDoc(id: string, name: string, price: Option<int>, category: Option<string>,
                                   sellerId: string, color: Option<string>)

  /** The seller fields the search reads. */
  datatype SellerInfo = SellerInfo(storeName: string)

  // ---------------------------------------------------------------------------
  // Loading

  /** `price || 15000`: a missing or zero price becomes the default. */
  function LoadedPrice(raw: Option<int>): (p: int)
    ensures raw.None? || raw.value == 0 ==> p == DefaultPrice
    ensures raw.Some? && raw.value != 0 ==> p == raw.value
  {
    if raw.Some? && raw.value != 0 then raw.value else DefaultPrice
  }

  /** The mapping applied to each document; `pick` is the random category index
      `Math.floor(Math.random() * categories.length)`. */
  function LoadProduct(doc: ProductDoc, pick: nat): (p: Product)
    requires pick < |Categories|
    ensures p.id == doc.id && p.name == doc.name && p.sellerId == doc.sellerId && p.color == doc.color
    ensures p.price == LoadedPrice(doc.price)
    ensures Truthy(doc.category) ==> p.category == doc.category.value
    ensures !Truthy(doc.category) ==> p.category in Categories
  {
    Product(doc.id, doc.name, LoadedPrice(doc.price), OrDefault(doc.category, Categories[pick]), doc.sellerId, doc.color)
  }

  // ---------------------------------------------------------------------------
  // Filtering

  /** `selectedCategory === "All" || product.category === selectedCategory`. */
  predicate MatchesCategory(p: Product, selected: string)
  {
    selected == AllCategory || p.category == selected
  }

  /** `needle` is a substring of `hay` (reference definition). */
  ghost predicate ContainsSubstring(hay: string, needle: string)
  {
    exists i :: OccursAt(hay, needle, i)
  }

  /** The search test: an empty term matches; otherwise the lower-cased term must
      occur in the lower-cased name, the seller's store name, or the colour. */
  function MatchesSearch(p: Product, sellers: map<string, SellerInfo>, term: string): (r: bool)
    ensures r <==> term == ""
                   || ContainsSubstring(Lower(p.name), Lower(term))
                   || (p.sellerId in sellers && ContainsSubstring(Lower(sellers[p.sellerId].storeName), Lower(term)))
                   || (Truthy(p.color) && ContainsSubstring(Lower(p.color.value), Lower(term)))
  {
    var t := Lower(term);
    IncludesIffOccurs(Lower(p.name), t);
    var inStore := if p.sellerId in sellers then
                     IncludesIffOccurs(Lower(sellers[p.sellerId].storeName), t);
                     Includes(Lower(sellers[p.sellerId].storeName), t)
                   else false;
    var inColor := if Truthy(p.color) then
                     IncludesIffOccurs(Lower(p.color.value), t);
                     Includes(Lower(p.color.value), t)
                   else false;
    term == "" || Includes(Lower(p.name), t) || inStore || inColor
  }

  predicate Matches(p: Product, selected: string, sellers: map<string, SellerInfo>, term: string)
  {
    MatchesCategory(p, selected) && MatchesSearch(p, sellers, term)
  }

  /** `filteredProducts`: the matching products, in list order. */
  function FilterProducts(products: seq<Product>, selected: string, sellers: map<string, SellerInfo>, term: string)
    : (r: seq<Product>)
    ensures IsSubseq(r, products)
    ensures forall x :: multiset(r)[x] == if Matches(x, selected, sellers, term) then multiset(products)[x] else 0
  {
    if products == [] then []
    else
      assert products == [products[0]] + products[1..];
      var rest := FilterProducts(products[1..], selected, sellers, term);
      if Matches(products[0], selected, sellers, term) then [products[0]] + rest else rest
  }

  /** The `All` category with an empty term keeps the whole list. */
  lemma {:induction false} FilterAllKeepsEverything(products: seq<Product>, sellers: map<string, SellerInfo>)
    ensures FilterProducts(products, AllCategory, sellers, "") == products
  {
    if products != [] {
      FilterAllKeepsEverything(products[1..], sellers);
    }
  }

  // ---------------------------------------------------------------------------
  // Sorting

  datatype SortOption = Latest | PriceLowToHigh | PriceHighToLow

  /** The `switch` on the sort select: any value other than the two price options sorts as "Latest". */
  function ParseSortOption(s: string): (o: SortOption)
    ensures o == PriceLowToHigh <==> s == "Price: Low to High"
    ensures o == PriceHighToLow <==> s == "Price: High to Low"
  {
    if s == "Price: Low to High" then PriceLowToHigh
    else if s == "Price: High to Low" then PriceHighToLow
    else Latest
  }

  /** Code-unit lexicographic order, the total order standing for `localeCompare`. */
  predicate LexLe(a: string, b: string)
  {
    if a == [] then true
    else if b == [] then false
    else if a[0] != b[0] then a[0] < b[0]
    else LexLe(a[1..], b[1..])
  }

  lemma {:induction false} LexLeTotal(a: string, b: string)
    ensures LexLe(a, b) || LexLe(b, a)
  {
    if a != [] && b != [] && a[0] == b[0] {
      LexLeTotal(a[1..], b[1..]);
    }
  }

  lemma {:induction false} LexLeTransitive(a: string, b: string, c: string)
    requires LexLe(a, b) && LexLe(b, c)
    ensures LexLe(a, c)
  {
    if a != [] && b != [] && c != [] && a[0] == b[0] && b[0] == c[0] {
      LexLeTransitive(a[1..], b[1..], c[1..]);
    }
  }

  /** `a` may come before `b` under the comparator: the comparator's result is not positive. */
  predicate InOrder(opt: SortOption, a: Product, b: Product)
  {
    match opt
    case PriceLowToHigh => a.price <= b.price
    case PriceHighToLow => b.price <= a.price
    case Latest => LexLe(b.id, a.id)
  }

  lemma InOrderTotal(opt: SortOption, a: Product, b: Product)
    ensures InOrder(opt, a, b) || InOrder(opt, b, a)
  {
    if opt == Latest { LexLeTotal(a.id, b.id); }
  }

  lemma InOrderTransitive(opt: SortOption, a: Product, b: Product, c: Product)
    requires InOrder(opt, a, b) && InOrder(opt, b, c)
    ensures InOrder(opt, a, c)
  {
    if opt == Latest { LexLeTransitive(c.id, b.id, a.id); }
  }

  predicate SortedBy(opt: SortOption, s: seq<Product>)
  {
    forall i, j :: 0 <= i < j < |s| ==> InOrder(opt, s[i], s[j])
  }

  lemma SortedCons(opt: SortOption, h: Product, t: seq<Product>)
    requires SortedBy(opt, t)
    requires forall y :: y in t ==> InOrder(opt, h, y)
    ensures SortedBy(opt, [h] + t)
  {
    var s := [h] + t;
    forall i, j | 0 <= i < j < |s| ensures InOrder(opt, s[i], s[j]) {
      assert s[j] == t[j - 1];
      if i > 0 { assert s[i] == t[i - 1]; }
    }
  }

  /** Place `x` before the first element it may precede. */
  function Insert(opt: SortOption, x: Product, s: seq<Product>): (r: seq<Product>)
    requires SortedBy(opt, s)
    ensures SortedBy(opt, r)
    ensures multiset(r) == multiset(s) + multiset{x}
  {
    if s == [] then [x]
    else
      assert s == [s[0]] + s[1..];
      if InOrder(opt, x, s[0]) then
        (forall y | y in s ensures InOrder(opt, x, y) {
           if y != s[0] { InOrderTransitive(opt, x, s[0], y); }
         }
         SortedCons(opt, x, s);
         [x] + s)
      else
        InOrderTotal(opt, x, s[0]);
        var rest := Insert(opt, x, s[1..]);
        assert forall y :: y in rest ==> y == x || y in s[1..] by {
          forall y | y in rest ensures y == x || y in s[1..] {
            assert y in multiset(rest);
          }
        }
        SortedCons(opt, s[0], rest);
        [s[0]] + rest
  }

  /** `sortedProducts`: a sorted permutation of the filtered list. */
  function SortProducts(opt: SortOption, s: seq<Product>): (r: seq<Product>)
    ensures SortedBy(opt, r)
    ensures multiset(r) == multiset(s)
  {
    if s == [] then []
    else
      assert s == [s[0]] + s[1..];
      Insert(opt, s[0], SortProducts(opt, s[1..]))
  }

  /** What the product grid shows. */
  function ShownProducts(products: seq<Product>, selected: string, sellers: map<string, SellerInfo>,
                         term: string, sortOption: string): seq<Product>
  {
    SortProducts(ParseSortOption(sortOption), FilterProducts(products, selected, sellers, term))
  }

  /** The grid holds exactly the matching products, each as often as in the
      loaded list, price non-decreasing, price non-increasing, or id descending. */
  lemma ShownProductsSpec(products: seq<Product>, selected: string, sellers: map<string, SellerInfo>,
                          term: string, sortOption: string)
    ensures var r := ShownProducts(products, selected, sellers, term, sortOption);
            && (forall x :: multiset(r)[x] == if Matches(x, selected, sellers, term) then multiset(products)[x] else 0)
            && (sortOption == "Price: Low to High" ==> forall i, j :: 0 <= i < j < |r| ==> r[i].price <= r[j].price)
            && (sortOption == "Price: High to Low" ==> forall i, j :: 0 <= i < j < |r| ==> r[i].price >= r[j].price)
            && (ParseSortOption(sortOption) == Latest ==> forall i, j :: 0 <= i < j < |r| ==> LexLe(r[j].id, r[i].id))
  {
    var r := ShownProducts(products, selected, sellers, term, sortOption);
    assert SortedBy(ParseSortOption(sortOption), r);
  }

  // ---------------------------------------------------------------------------
  // Banner carousel

  /** `goToNextBanner` and the interval tick. */
  function NextBanner(i: int, n: int): int
  {
    if i == n - 1 then 0 else i + 1
  }

  /** `goToPreviousBanner`. */
  function PrevBanner(i: int, n: int): int
  {
    if i == 0 then n - 1 else i - 1
  }

  /** Both steps keep the index in range and undo each other. */
  lemma BannerSteps(i: int, n: int)
    requires 0 <= i < n
    ensures 0 <= NextBanner(i, n) < n && 0 <= PrevBanner(i, n) < n
    ensures PrevBanner(NextBanner(i, n), n) == i
    ensures NextBanner(PrevBanner(i, n), n) == i
  {
  }

  /** The index after `ticks` interval ticks from the initial 0. */
  function AfterTicks(ticks: nat, n: int): int
  {
    if ticks == 0 then 0 else NextBanner(AfterTicks(ticks - 1, n), n)
  }

  lemma {:induction false} MulAtLeast(d: int, n: int)
    requires d >= 1 && n > 0
    ensures d * n >= n
  {
    if d > 1 {
      MulAtLeast(d - 1, n);
      assert d * n == (d - 1) * n + n;
    }
  }

  /** A remainder is determined by any decomposition with a remainder in range. */
  lemma ModOfDecomposition(x: int, n: int, q: int, r: int)
    requires n > 0 && 0 <= r < n && x == q * n + r
    ensures x % n == r
  {
    var q', r' := x / n, x % n;
    assert x == q' * n + r';
    assert (q - q') * n == r' - r;
    if q > q' {
      MulAtLeast(q - q', n);
    } else if q < q' {
      MulAtLeast(q' - q, n);
    }
  }

  /** The auto-advance cycles through the banners in order. */
  lemma {:induction false} AfterTicksIsModulo(ticks: nat, n: int)
    requires n > 0
    ensures AfterTicks(ticks, n) == ticks % n
  {
    if ticks > 0 {
      AfterTicksIsModulo(ticks - 1, n);
      var q, r := (ticks - 1) / n, (ticks - 1) % n;
      if r == n - 1 {
        ModOfDecomposition(ticks, n, q + 1, 0);
      } else {
        ModOfDecomposition(ticks, n, q, r + 1);
      }
    }
  }

  // ---------------------------------------------------------------------------
  // Cart badge

  /** `cartItems.reduce((acc, item) => acc + item.quantity, 0)`. */
  function BadgeCount(items: seq<CartItem>): int
  {
    if items == [] then 0 else items[0].quantity + BadgeCount(items[1..])
  }

  /** The badge is rendered only for a non-empty cart. */
  predicate BadgeShown(items: seq<CartItem>)
  {
    |items| > 0
  }

  lemma {:induction false} BadgeCountSnoc(items: seq<CartItem>, x: CartItem)
    ensures BadgeCount(items + [x]) == BadgeCount(items) + x.quantity
  {
    if items != [] {
      assert (items + [x])[1..] == items[1..] + [x];
      BadgeCountSnoc(items[1..], x);
    } else {
      assert items + [x] == [x];
    }
  }

  lemma {:induction false} BadgeCountUpdate(items: seq<CartItem>, k: int, v: CartItem)
    requires 0 <= k < |items|
    ensures BadgeCount(items[k := v]) == BadgeCount(items) - items[k].quantity + v.quantity
  {
    if k > 0 {
      assert items[k := v][1..] == items[1..][k - 1 := v];
      BadgeCountUpdate(items[1..], k - 1, v);
    }
  }

  /** Adding a product to the cart raises the badge by exactly one. */
  lemma AddRaisesBadgeByOne(items: seq<CartItem>, item: CartItem)
    ensures BadgeCount(Added(items, item)) == BadgeCount(items) + 1
  {
    var k := IndexOf(items, item.id);
    if k > -1 {
      BadgeCountUpdate(items, k, items[k].(quantity := items[k].quantity + 1));
    } else {
      BadgeCountSnoc(items, item.(quantity := 1));
    }
  }

  /** With positive quantities the badge count is at least the number of entries,
      so a shown badge is never zero. */
  lemma {:induction false} BadgeAtLeastEntries(items: seq<CartItem>)
    requires PositiveQuantities(items)
    ensures BadgeCount(items) >= |items|
    ensures BadgeShown(items) ==> BadgeCount(items) > 0
  {
    if items != [] {
      assert PositiveQuantities(items[1..]) by {
        forall i | 0 <= i < |items| - 1 ensures items[1..][i].quantity >= 1 {
          assert items[1..][i] == items[i + 1];
        }
      }
      BadgeAtLeastEntries(items[1..]);
    }
  }
}
