/** The shopping cart held by the cart provider: an ordered list of entries,
    each a product reference with a quantity, and the four operations the
    provider exposes (add, remove, set quantity, clear). */
module CartProvider {
  import opened Common

  datatype CartItem = CartItem(id: string, sellerId: string, name: string, price: int, quantity: int)

  predicate HasId(items: seq<CartItem>, id: string)
  {
    exists i :: 0 <= i < |items| && items[i].id == id
  }

  predicate DistinctIds(items: seq<CartItem>)
  {
    forall i, j :: 0 <= i < j < |items| ==> items[i].id != items[j].id
  }

  predicate PositiveQuantities(items: seq<CartItem>)
  {
    forall i :: 0 <= i < |items| ==> items[i].quantity >= 1
  }

  /** The cart invariant: every product appears at most once, with a positive quantity. */
  predicate WellFormed(items: seq<CartItem>)
  {
    DistinctIds(items) && PositiveQuantities(items)
  }

  /** `findIndex` on the id: the first matching position, or -1. */
  function IndexOf(items: seq<CartItem>, id: string): (k: int)
    ensures -1 <= k < |items|
    ensures k == -1 <==> !HasId(items, id)
    ensures k >= 0 ==> items[k].id == id && forall j :: 0 <= j < k ==> items[j].id != id
  {
    if items == [] then -1
    else if items[0].id == id then 0
    else
      var k := IndexOf(items[1..], id);
      if k == -1 then -1 else k + 1
  }

  /** The list `addToCart` produces: bump the first entry with the id, or append the item with quantity 1. */
  function Added(items: seq<CartItem>, item: CartItem): seq<CartItem>
  {
    var k := IndexOf(items, item.id);
    if k > -1 then items[k := items[k].(quantity := items[k].quantity + 1)]
    else items + [item.(quantity := 1)]
  }

  /** `removeItem`: keep the entries whose id differs, in order. */
  function WithoutId(items: seq<CartItem>, id: string): (r: seq<CartItem>)
    ensures IsSubseq(r, items)
    ensures forall x :: multiset(r)[x] == if x.id == id then 0 else multiset(items)[x]
  {
    if items == [] then []
    else
      assert items == [items[0]] + items[1..];
      if items[0].id == id then WithoutId(items[1..], id)
    else [items[0]] + WithoutId(items[1..], id)
  }

  /** The `map` in `updateQuantity` for a positive quantity. */
  function WithQuantity(items: seq<CartItem>, id: string, q: int): (r: seq<CartItem>)
    ensures |r| == |items|
    ensures forall i :: 0 <= i < |items| ==>
              r[i] == if items[i].id == id then items[i].(quantity := q) else items[i]
  {
    if items == [] then [] else
      [if items[0].id == id then items[0].(quantity := q) else items[0]] + WithQuantity(items[1..], id, q)
  }

  /** `updateQuantity` as a whole. */
  function QuantityUpdated(items: seq<CartItem>, id: string, q: int): seq<CartItem>
  {
    if q <= 0 then WithoutId(items, id) else WithQuantity(items, id, q)
  }

  /** The scan behind `findIndex`. */
  method FindIndex(items: seq<CartItem>, id: string) returns (k: int)
    ensures k == IndexOf(items, id)
  {
    k := 0;
    while k < |items|
      invariant 0 <= k <= |items|
      invariant forall j :: 0 <= j < k ==> items[j].id != id
    {
      if items[k].id == id {
        return;
      }
      k := k + 1;
    }
    k := -1;
  }

  /** A new id is appended at the end with quantity 1; the rest is untouched. */
  lemma AddNewAppends(items: seq<CartItem>, item: CartItem)
    requires !HasId(items, item.id)
    ensures Added(items, item) == items + [item.(quantity := 1)]
    ensures |Added(items, item)| == |items| + 1
  {
  }

  /** A present id bumps the quantity of its entry by one; length and all other entries are unchanged. */
  lemma AddExistingIncrements(items: seq<CartItem>, item: CartItem, k: int)
    requires DistinctIds(items)
    requires 0 <= k < |items| && items[k].id == item.id
    ensures |Added(items, item)| == |items|
    ensures Added(items, item)[k] == items[k].(quantity := items[k].quantity + 1)
    ensures forall j :: 0 <= j < |items| && j != k ==> Added(items, item)[j] == items[j]
  {
  }

  lemma AddPreservesWellFormed(items: seq<CartItem>, item: CartItem)
    requires WellFormed(items)
    ensures WellFormed(Added(items, item))
  {
    var k := IndexOf(items, item.id);
    var r := Added(items, item);
    if k == -1 {
      forall i, j | 0 <= i < j < |r| ensures r[i].id != r[j].id {
        if j == |items| {
          assert r[i] == items[i];
        }
      }
    } else {
      assert forall i :: 0 <= i < |r| ==> r[i].id == items[i].id;
    }
  }

  /** Distinct ids, read one entry at a time. */
  lemma DistinctCons(h: CartItem, s: seq<CartItem>)
    ensures DistinctIds([h] + s) <==> DistinctIds(s) && !HasId(s, h.id)
  {
    var t := [h] + s;
    assert forall i :: 0 <= i < |s| ==> t[i + 1] == s[i];
    if DistinctIds(s) && !HasId(s, h.id) {
      forall i, j | 0 <= i < j < |t| ensures t[i].id != t[j].id {
        if i > 0 {
          assert t[i] == s[i - 1] && t[j] == s[j - 1];
        } else {
          assert t[j] == s[j - 1];
        }
      }
    }
    if DistinctIds(t) {
      forall i, j | 0 <= i < j < |s| ensures s[i].id != s[j].id {
        assert t[i + 1] == s[i] && t[j + 1] == s[j];
      }
      forall i | 0 <= i < |s| ensures s[i].id != h.id {
        assert t[i + 1] == s[i] && t[0] == h;
      }
    }
  }

  /** Every id left after a removal was in the cart before, and is not the removed one. */
  lemma WithoutIdKeepsOnlyPresentIds(items: seq<CartItem>, id: string, x: string)
    requires HasId(WithoutId(items, id), x)
    ensures HasId(items, x) && x != id
  {
    var r := WithoutId(items, id);
    var i :| 0 <= i < |r| && r[i].id == x;
    assert multiset(r)[r[i]] > 0;
    assert r[i] in items;
    var j :| 0 <= j < |items| && items[j] == r[i];
  }

  /** Every entry left after a removal was in the cart before. */
  lemma WithoutIdKeepsEntries(items: seq<CartItem>, id: string)
    ensures forall x :: x in WithoutId(items, id) ==> x in items && x.id != id
  {
    var r := WithoutId(items, id);
    forall x | x in r ensures x in items && x.id != id {
      assert multiset(r)[x] > 0;
    }
  }

  lemma {:induction false} RemovePreservesDistinct(items: seq<CartItem>, id: string)
    requires DistinctIds(items)
    ensures DistinctIds(WithoutId(items, id))
  {
    if items != [] {
      var rest := WithoutId(items[1..], id);
      DistinctCons(items[0], items[1..]);
      assert items == [items[0]] + items[1..];
      RemovePreservesDistinct(items[1..], id);
      if items[0].id != id {
        if HasId(rest, items[0].id) {
          WithoutIdKeepsOnlyPresentIds(items[1..], id, items[0].id);
        }
        DistinctCons(items[0], rest);
      }
    }
  }

  /** Removing an id removes every entry with it, and nothing else; on a
      well-formed cart the result is well-formed. */
  lemma RemovePreservesWellFormed(items: seq<CartItem>, id: string)
    requires WellFormed(items)
    ensures WellFormed(WithoutId(items, id))
  {
    RemovePreservesDistinct(items, id);
    WithoutIdKeepsEntries(items, id);
  }

  /** Removing an id that is not in the cart changes nothing. */
  lemma {:induction false} RemoveAbsentIsIdentity(items: seq<CartItem>, id: string)
    requires !HasId(items, id)
    ensures WithoutId(items, id) == items
  {
    if items != [] {
      assert !HasId(items[1..], id) by {
        forall i | 0 <= i < |items| - 1 ensures items[1..][i].id != id {
          assert items[1..][i] == items[i + 1];
        }
      }
      RemoveAbsentIsIdentity(items[1..], id);
    }
  }

  /** A positive quantity keeps ids and order and touches only the entries with the id. */
  lemma SetQuantityPreservesWellFormed(items: seq<CartItem>, id: string, q: int)
    requires WellFormed(items) && q >= 1
    ensures WellFormed(QuantityUpdated(items, id, q))
  {
    var r := QuantityUpdated(items, id, q);
    assert forall i :: 0 <= i < |r| ==> r[i].id == items[i].id;
  }

  /** A quantity of zero or less is exactly a removal. */
  lemma NonPositiveQuantityRemoves(items: seq<CartItem>, id: string, q: int)
    requires q <= 0
    ensures QuantityUpdated(items, id, q) == WithoutId(items, id)
  {
  }

  /** The cart state kept by the provider. Each operation replaces `items`
      with a new list, as `setCartItems` does. */
  class Cart {
    var items: seq<CartItem>

    predicate Valid()
      reads this
    {
      WellFormed(items)
    }

    constructor ()
      ensures items == [] && Valid()
    {
      items := [];
    }

    /** `addToCart`: copy the list, then bump the found entry in the copy or append. */
    method AddToCart(item: CartItem)
      modifies this
      ensures items == Added(old(items), item)
      ensures old(Valid()) ==> Valid()
    {
      var existing := FindIndex(items, item.id);
      var updated: seq<CartItem>;
      if existing > -1 {
        updated := items;
        updated := updated[existing := updated[existing].(quantity := updated[existing].quantity + 1)];
      } else {
        updated := items + [item.(quantity := 1)];
      }
      if Valid() {
        AddPreservesWellFormed(items, item);
      }
      items := updated;
    }

    method RemoveItem(itemId: string)
      modifies this
      ensures items == WithoutId(old(items), itemId)
      ensures !HasId(items, itemId)
      ensures old(Valid()) ==> Valid()
    {
      if Valid() {
        RemovePreservesWellFormed(items, itemId);
      }
      items := WithoutId(items, itemId);
      assert !HasId(items, itemId) by {
        forall i | 0 <= i < |items| ensures items[i].id != itemId {
          assert multiset(items)[items[i]] > 0;
        }
      }
    }

    method ClearCart()
      modifies this
      ensures items == [] && Valid()
    {
      items := [];
    }

    /** `updateQuantity`: zero or less removes the id, otherwise every entry with the id gets the quantity. */
    method UpdateQuantity(itemId: string, newQuantity: int)
      modifies this
      ensures items == QuantityUpdated(old(items), itemId, newQuantity)
      ensures newQuantity <= 0 ==> items == WithoutId(old(items), itemId)
      ensures old(Valid()) ==> Valid()
    {
      if newQuantity <= 0 {
        RemoveItem(itemId);
      } else {
        if Valid() {
          SetQuantityPreservesWellFormed(items, itemId, newQuantity);
        }
        items := WithQuantity(items, itemId, newQuantity);
      }
    }
  }
}
