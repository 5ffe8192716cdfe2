/** The cart page: cart entries grouped by seller, the per-seller subtotals
    and grand total, and the per-seller WhatsApp order link. */
module CartPage {
  import opened Common
  import opened CartProvider

  /** One seller's share of the cart, in cart order. */
  datatype Group = Group(sellerId: string, items: seq<CartItem>)

  /** The fields of a seller document the page reads. */
  datatype Seller = Seller(storeName: Option<string>, whatsapp: Option<string>)

  const FallbackNumber: string := "256XXXXXXXXX"
  const FallbackStoreName: string := "Unknown Store"
  const DeliveryPrompt: string := "\nPlease provide delivery instructions/details."

  // ---------------------------------------------------------------------------
  // Grouping by seller

  /** The entries of one seller, in cart order (the reference for a group's contents). */
  function ItemsOfSeller(items: seq<CartItem>, sellerId: string): seq<CartItem>
  {
    if items == [] then []
    else (if items[0].sellerId == sellerId then [items[0]] else []) + ItemsOfSeller(items[1..], sellerId)
  }

  /** Position of the group keyed by `sellerId`, or -1. */
  function GroupIndex(groups: seq<Group>, sellerId: string): (k: int)
    ensures -1 <= k < |groups|
    ensures k >= 0 ==> groups[k].sellerId == sellerId
    ensures k == -1 ==> forall j :: 0 <= j < |groups| ==> groups[j].sellerId != sellerId
  {
    if groups == [] then -1
    else if groups[0].sellerId == sellerId then 0
    else
      var k := GroupIndex(groups[1..], sellerId);
      if k == -1 then -1 else k + 1
  }

  /** One step of the `reduce`: push the entry onto its seller's group, creating the group on first sight. */
  function Push(groups: seq<Group>, item: CartItem): seq<Group>
  {
    var k := GroupIndex(groups, item.sellerId);
    if k >= 0 then groups[k := Group(item.sellerId, groups[k].items + [item])]
    else groups + [Group(item.sellerId, [item])]
  }

  /** `groupedItems`: the `reduce` over the cart, as a list of groups in first-appearance order. */
  function Grouped(items: seq<CartItem>): seq<Group>
    decreases |items|
  {
    if items == [] then [] else Push(Grouped(items[..|items| - 1]), items[|items| - 1])
  }

  /** The `reduce` at cart/page.jsx, step by step. */
  method GroupBySeller(items: seq<CartItem>) returns (groups: seq<Group>)
    ensures groups == Grouped(items)
  {
    groups := [];
    var i := 0;
    while i < |items|
      invariant 0 <= i <= |items|
      invariant groups == Grouped(items[..i])
    {
      assert items[..i + 1][..i] == items[..i];
      groups := Push(groups, items[i]);
      i := i + 1;
    }
    assert items[..i] == items;
  }

  predicate DistinctKeys(groups: seq<Group>)
  {
    forall a, b :: 0 <= a < b < |groups| ==> groups[a].sellerId != groups[b].sellerId
  }

  predicate HasSeller(items: seq<CartItem>, sellerId: string)
  {
    exists i :: 0 <= i < |items| && items[i].sellerId == sellerId
  }

  /** Each group holds exactly its seller's entries, in cart order. */
  predicate GroupsHold(groups: seq<Group>, items: seq<CartItem>)
  {
    forall j :: 0 <= j < |groups| ==> groups[j].items == ItemsOfSeller(items, groups[j].sellerId)
  }

  /** The keys are exactly the sellers present in the cart. */
  ghost predicate KeysAreSellers(groups: seq<Group>, items: seq<CartItem>)
  {
    forall sid :: HasSeller(items, sid) <==> GroupIndex(groups, sid) >= 0
  }

  /** Grouping is a partition of the cart by seller. */
  ghost predicate IsPartition(groups: seq<Group>, items: seq<CartItem>)
  {
    DistinctKeys(groups) && GroupsHold(groups, items) && KeysAreSellers(groups, items)
  }

  lemma {:induction false} ItemsOfSellerSnoc(s: seq<CartItem>, x: CartItem, sellerId: string)
    ensures ItemsOfSeller(s + [x], sellerId)
         == ItemsOfSeller(s, sellerId) + (if x.sellerId == sellerId then [x] else [])
  {
    if s != [] {
      assert (s + [x])[1..] == s[1..] + [x];
      ItemsOfSellerSnoc(s[1..], x, sellerId);
    }
  }

  lemma {:induction false} ItemsOfAbsentSeller(s: seq<CartItem>, sellerId: string)
    requires !HasSeller(s, sellerId)
    ensures ItemsOfSeller(s, sellerId) == []
  {
    if s != [] {
      assert !HasSeller(s[1..], sellerId) by {
        forall i | 0 <= i < |s| - 1 ensures s[1..][i].sellerId != sellerId {
          assert s[1..][i] == s[i + 1];
        }
      }
      ItemsOfAbsentSeller(s[1..], sellerId);
    }
  }

  lemma HasSellerSnoc(s: seq<CartItem>, x: CartItem, sid: string)
    ensures HasSeller(s + [x], sid) <==> HasSeller(s, sid) || x.sellerId == sid
  {
    if HasSeller(s, sid) {
      var i :| 0 <= i < |s| && s[i].sellerId == sid;
      assert (s + [x])[i] == s[i];
    }
    if x.sellerId == sid {
      assert (s + [x])[|s|] == x;
    }
  }

  lemma PushKeepsDistinctKeys(g: seq<Group>, x: CartItem)
    requires DistinctKeys(g)
    ensures DistinctKeys(Push(g, x))
  {
    var k := GroupIndex(g, x.sellerId);
    var r := Push(g, x);
    if k >= 0 {
      assert forall j :: 0 <= j < |r| ==> r[j].sellerId == g[j].sellerId;
    } else {
      assert forall j :: 0 <= j < |g| ==> r[j] == g[j];
    }
  }

  lemma PushKeepsGroupsHold(g: seq<Group>, s: seq<CartItem>, x: CartItem)
    requires DistinctKeys(g) && GroupsHold(g, s) && KeysAreSellers(g, s)
    ensures GroupsHold(Push(g, x), s + [x])
  {
    var k := GroupIndex(g, x.sellerId);
    var r := Push(g, x);
    forall sid ensures ItemsOfSeller(s + [x], sid) == ItemsOfSeller(s, sid) + (if x.sellerId == sid then [x] else []) {
      ItemsOfSellerSnoc(s, x, sid);
    }
    if k == -1 {
      assert !HasSeller(s, x.sellerId);
      ItemsOfAbsentSeller(s, x.sellerId);
      assert forall j :: 0 <= j < |g| ==> r[j] == g[j];
    }
  }

  lemma PushKeepsKeysAreSellers(g: seq<Group>, s: seq<CartItem>, x: CartItem)
    requires KeysAreSellers(g, s)
    ensures KeysAreSellers(Push(g, x), s + [x])
  {
    var k := GroupIndex(g, x.sellerId);
    var r := Push(g, x);
    forall sid ensures HasSeller(s + [x], sid) <==> GroupIndex(r, sid) >= 0 {
      HasSellerSnoc(s, x, sid);
      if k == -1 {
        GroupIndexSnoc(g, Group(x.sellerId, [x]), sid);
      } else {
        GroupIndexKeyUpdate(g, k, Group(x.sellerId, g[k].items + [x]), sid);
      }
    }
  }

  /** Every entry lands in exactly the group keyed by its seller, and each group
      holds its seller's entries in cart order; keys are distinct and are exactly
      the sellers present in the cart. */
  lemma {:induction false} GroupedIsPartition(items: seq<CartItem>)
    ensures IsPartition(Grouped(items), items)
    decreases |items|
  {
    if items != [] {
      var s, x := items[..|items| - 1], items[|items| - 1];
      assert items == s + [x];
      GroupedIsPartition(s);
      PushKeepsDistinctKeys(Grouped(s), x);
      PushKeepsGroupsHold(Grouped(s), s, x);
      PushKeepsKeysAreSellers(Grouped(s), s, x);
    }
  }

  lemma {:induction false} GroupIndexSnoc(g: seq<Group>, last: Group, sid: string)
    ensures GroupIndex(g + [last], sid) >= 0 <==> GroupIndex(g, sid) >= 0 || last.sellerId == sid
  {
    if g != [] {
      assert (g + [last])[1..] == g[1..] + [last];
      GroupIndexSnoc(g[1..], last, sid);
    }
  }

  lemma {:induction false} GroupIndexKeyUpdate(g: seq<Group>, k: int, v: Group, sid: string)
    requires 0 <= k < |g| && v.sellerId == g[k].sellerId
    ensures GroupIndex(g[k := v], sid) == GroupIndex(g, sid)
  {
    if k > 0 {
      assert g[k := v][1..] == g[1..][k - 1 := v];
      GroupIndexKeyUpdate(g[1..], k - 1, v, sid);
    }
  }

  /** An empty cart has no groups, so the page shows its empty state; any entry yields a group. */
  lemma GroupedEmptyIff(items: seq<CartItem>)
    ensures Grouped(items) == [] <==> items == []
  {
  }

  // ---------------------------------------------------------------------------
  // Totals

  function LineTotal(item: CartItem): int
  {
    item.price * item.quantity
  }

  /** `totalCartValue` over the whole cart and `shopSubtotal` over one group: the sum of price times quantity. */
  function Subtotal(items: seq<CartItem>): int
  {
    if items == [] then 0 else LineTotal(items[0]) + Subtotal(items[1..])
  }

  lemma {:induction false} SubtotalAppend(a: seq<CartItem>, b: seq<CartItem>)
    ensures Subtotal(a + b) == Subtotal(a) + Subtotal(b)
  {
    if a != [] {
      assert (a + b)[1..] == a[1..] + b;
      SubtotalAppend(a[1..], b);
    } else {
      assert a + b == b;
    }
  }

  /** The sum of the subtotals shown on the page, one per group. */
  function SumOfSubtotals(groups: seq<Group>): int
  {
    if groups == [] then 0 else Subtotal(groups[0].items) + SumOfSubtotals(groups[1..])
  }

  lemma {:induction false} SumOfSubtotalsSnoc(g: seq<Group>, last: Group)
    ensures SumOfSubtotals(g + [last]) == SumOfSubtotals(g) + Subtotal(last.items)
  {
    if g != [] {
      assert (g + [last])[1..] == g[1..] + [last];
      SumOfSubtotalsSnoc(g[1..], last);
    }
  }

  lemma {:induction false} SumOfSubtotalsUpdate(g: seq<Group>, k: int, v: Group)
    requires 0 <= k < |g|
    ensures SumOfSubtotals(g[k := v]) == SumOfSubtotals(g) - Subtotal(g[k].items) + Subtotal(v.items)
  {
    if k > 0 {
      assert g[k := v][1..] == g[1..][k - 1 := v];
      SumOfSubtotalsUpdate(g[1..], k - 1, v);
    }
  }

  /** The grand total equals the sum of the per-seller subtotals. */
  lemma {:induction false} GrandTotalIsSumOfSubtotals(items: seq<CartItem>)
    ensures Subtotal(items) == SumOfSubtotals(Grouped(items))
    decreases |items|
  {
    if items != [] {
      var s, x := items[..|items| - 1], items[|items| - 1];
      assert items == s + [x];
      GrandTotalIsSumOfSubtotals(s);
      SubtotalAppend(s, [x]);
      var g := Grouped(s);
      var k := GroupIndex(g, x.sellerId);
      if k >= 0 {
        SumOfSubtotalsUpdate(g, k, Group(x.sellerId, g[k].items + [x]));
        SubtotalAppend(g[k].items, [x]);
      } else {
        SumOfSubtotalsSnoc(g, Group(x.sellerId, [x]));
      }
    }
  }

  // ---------------------------------------------------------------------------
  // The WhatsApp order link

  /** `seller?.whatsapp || '256XXXXXXXXX'`. */
  function SellerNumber(sellers: map<string, Seller>, sellerId: string): (r: string)
    ensures !(sellerId in sellers && Truthy(sellers[sellerId].whatsapp)) ==> r == FallbackNumber
    ensures sellerId in sellers && Truthy(sellers[sellerId].whatsapp) ==> r == sellers[sellerId].whatsapp.value
  {
    if sellerId in sellers then OrDefault(sellers[sellerId].whatsapp, FallbackNumber) else FallbackNumber
  }

  /** `seller?.storeName || 'Unknown Store'`. */
  function SellerStoreName(sellers: map<string, Seller>, sellerId: string): (r: string)
    ensures !(sellerId in sellers && Truthy(sellers[sellerId].storeName)) ==> r == FallbackStoreName
    ensures sellerId in sellers && Truthy(sellers[sellerId].storeName) ==> r == sellers[sellerId].storeName.value
  {
    if sellerId in sellers then OrDefault(sellers[sellerId].storeName, FallbackStoreName) else FallbackStoreName
  }

  function Greeting(storeName: string): string
  {
    "Hello " + storeName + ", I would like to order the following items:\n\n"
  }

  /** One order line, given the entry's line total; `fmt` stands for `Number.prototype.toLocaleString`. */
  function ItemLine(item: CartItem, itemTotal: int, fmt: int -> string): string
  {
    "- " + item.name + " (x" + IntString(item.quantity) + ") - UGX " + fmt(itemTotal) + "\n"
  }

  function ItemLines(items: seq<CartItem>, fmt: int -> string): string
  {
    if items == [] then "" else ItemLine(items[0], LineTotal(items[0]), fmt) + ItemLines(items[1..], fmt)
  }

  lemma {:induction false} ItemLinesSnoc(items: seq<CartItem>, x: CartItem, fmt: int -> string)
    ensures ItemLines(items + [x], fmt) == ItemLines(items, fmt) + ItemLine(x, LineTotal(x), fmt)
  {
    if items != [] {
      assert (items + [x])[1..] == items[1..] + [x];
      ItemLinesSnoc(items[1..], x, fmt);
    }
  }

  function TotalLine(total: int, fmt: int -> string): string
  {
    "\nTotal for this order: UGX " + fmt(total) + "\n"
  }

  /** The order text: greeting naming the store, one line per entry in order,
      the total line carrying the shop subtotal, then the delivery prompt. */
  function OrderMessage(storeName: string, items: seq<CartItem>, fmt: int -> string): string
  {
    Greeting(storeName) + ItemLines(items, fmt) + TotalLine(Subtotal(items), fmt) + DeliveryPrompt
  }

  /** `https://wa.me/<number without its first '+'>?text=<encoded message>`; `encode` stands for `encodeURIComponent`. */
  function OrderLink(number: string, message: string, encode: string -> string): string
  {
    WaPrefix + StripFirstPlus(number) + "?text=" + encode(message)
  }

  /** One pass of the loop in `generateWhatsAppLink` extends the subtotal and the message by the next entry. */
  lemma OrderStep(items: seq<CartItem>, i: int, greeting: string, message: string, subtotal: int, fmt: int -> string)
    requires 0 <= i < |items|
    requires subtotal == Subtotal(items[..i])
    requires message == greeting + ItemLines(items[..i], fmt)
    ensures subtotal + LineTotal(items[i]) == Subtotal(items[..i + 1])
    ensures message + ItemLine(items[i], LineTotal(items[i]), fmt) == greeting + ItemLines(items[..i + 1], fmt)
  {
    assert items[..i + 1] == items[..i] + [items[i]];
    SubtotalAppend(items[..i], [items[i]]);
    ItemLinesSnoc(items[..i], items[i], fmt);
    ConcatAssoc(greeting, ItemLines(items[..i], fmt), ItemLine(items[i], LineTotal(items[i]), fmt));
  }

  /** `generateWhatsAppLink`: the message and the subtotal are built up entry by entry. */
  method GenerateWhatsAppLink(shopItems: seq<CartItem>, sellerId: string, sellers: map<string, Seller>,
                              fmt: int -> string, encode: string -> string) returns (link: string)
    ensures link == OrderLink(SellerNumber(sellers, sellerId),
                              OrderMessage(SellerStoreName(sellers, sellerId), shopItems, fmt), encode)
  {
    var whatsappNumber := SellerNumber(sellers, sellerId);
    var whatsappStoreName := SellerStoreName(sellers, sellerId);
    var greeting := Greeting(whatsappStoreName);
    var message := greeting;
    var subtotal := 0;
    var i := 0;
    while i < |shopItems|
      invariant 0 <= i <= |shopItems|
      invariant subtotal == Subtotal(shopItems[..i])
      invariant message == greeting + ItemLines(shopItems[..i], fmt)
    {
      var item := shopItems[i];
      var itemTotal := item.price * item.quantity;
      OrderStep(shopItems, i, greeting, message, subtotal, fmt);
      subtotal := subtotal + itemTotal;
      message := message + ItemLine(item, itemTotal, fmt);
      i := i + 1;
    }
    assert shopItems[..i] == shopItems;
    message := message + TotalLine(subtotal, fmt);
    message := message + DeliveryPrompt;
    link := WaPrefix + StripFirstPlus(whatsappNumber) + "?text=" + encode(message);
  }

  /** The order message opens with the greeting and closes with the total line and the prompt. */
  lemma OrderMessageShape(storeName: string, items: seq<CartItem>, fmt: int -> string)
    ensures StartsWith(OrderMessage(storeName, items, fmt), Greeting(storeName))
    ensures EndsWith(OrderMessage(storeName, items, fmt), TotalLine(Subtotal(items), fmt) + DeliveryPrompt)
  {
    ConcatShape(Greeting(storeName), ItemLines(items, fmt), TotalLine(Subtotal(items), fmt), DeliveryPrompt);
  }
}
