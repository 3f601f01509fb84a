/**
 * The cart store (`CartProvider`): an ordered list of cart lines keyed by the
 * product's `_id`.  Each store operation replaces the list by a pure transform
 * of the previous one (`find`/`map`, `filter`, `map`); those transforms are the
 * functions below, and `CartStore` is the stateful provider that applies them.
 * The store itself puts no upper bound on a quantity.
 */
module CartContext {
  import opened Common

  /** A cart line is the product object as it was added, spread, plus `quantity`. */
  datatype CartLine = CartLine(product: Product, quantity: int)

  type Cart = seq<CartLine>

  /** Some line carries this `_id`. */
  predicate HasId(c: Cart, id: string) {
    exists i :: 0 <= i < |c| && c[i].product.id == id
  }

  /** `prev.find(item => item._id === id)`: the first line with this id. */
  function Find(c: Cart, id: string): (r: Option<CartLine>)
    ensures r.Some? <==> HasId(c, id)
    ensures r.Some? ==> r.value in c && r.value.product.id == id
  {
    if c == [] then None
    else if c[0].product.id == id then Some(c[0])
    else
      assert HasId(c, id) ==> HasId(c[1..], id) by {
        if HasId(c, id) {
          var i :| 0 <= i < |c| && c[i].product.id == id;
          assert c[1..][i - 1] == c[i];
        }
      }
      Find(c[1..], id)
  }

  /** `find` returns the first line with the id: the line at `k` when no
      earlier line carries that id. */
  lemma {:induction false} FindIsFirst(c: Cart, id: string, k: int)
    requires 0 <= k < |c| && c[k].product.id == id
    requires forall j :: 0 <= j < k ==> c[j].product.id != id
    ensures Find(c, id) == Some(c[k])
  {
    if k > 0 {
      assert c[0].product.id != id;
      assert c[1..][k - 1] == c[k];
      forall j | 0 <= j < k - 1
        ensures c[1..][j].product.id != id
      {
        assert c[1..][j] == c[j + 1];
      }
      FindIsFirst(c[1..], id, k - 1);
    }
  }

  predicate UniqueIds(c: Cart) {
    forall i, j :: 0 <= i < j < |c| ==> c[i].product.id != c[j].product.id
  }

  predicate PositiveQuantities(c: Cart) {
    forall i :: 0 <= i < |c| ==> c[i].quantity >= 1
  }

  /** The store's invariant: ids are pairwise distinct and every quantity is at least 1. */
  predicate WellFormed(c: Cart) {
    UniqueIds(c) && PositiveQuantities(c)
  }

  /** `prev.map(item => item._id === id ? {...item, quantity: item.quantity + 1} : item)`. */
  function Incremented(c: Cart, id: string): Cart {
    seq(|c|, i requires 0 <= i < |c| =>
      if c[i].product.id == id then c[i].(quantity := c[i].quantity + 1) else c[i])
  }

  /** The list `addToCart(product)` leaves behind. */
  function Added(c: Cart, p: Product): Cart {
    if Find(c, p.id).Some? then Incremented(c, p.id) else c + [CartLine(p, 1)]
  }

  /** `prev.filter(item => item._id !== id)`. */
  function Removed(c: Cart, id: string): Cart {
    if c == [] then []
    else if c[0].product.id == id then Removed(c[1..], id)
    else [c[0]] + Removed(c[1..], id)
  }

  /** `quantity > 0 ? quantity : 1`: the store never stores a quantity below 1. */
  function StoredQuantity(q: int): int {
    if q > 0 then q else 1
  }

  /** The list `updateQuantity(id, q)` leaves behind. */
  function WithQuantity(c: Cart, id: string, q: int): Cart {
    seq(|c|, i requires 0 <= i < |c| =>
      if c[i].product.id == id then c[i].(quantity := StoredQuantity(q)) else c[i])
  }

  /** `cartItems.reduce((acc, item) => acc + item.quantity, 0)`. */
  function TotalItems(c: Cart): int {
    if c == [] then 0 else c[0].quantity + TotalItems(c[1..])
  }

  /** `item.price * item.quantity`. */
  function LineAmount(l: CartLine): int {
    l.product.price * l.quantity
  }

  /** `cartItems.reduce((acc, item) => acc + item.price * item.quantity, 0)`. */
  function Subtotal(c: Cart): int {
    if c == [] then 0 else LineAmount(c[0]) + Subtotal(c[1..])
  }

  // ---------------------------------------------------------------------------
  // addToCart

  /** With distinct ids, `find` on the id of line `k` returns line `k`. */
  lemma {:induction false} FindUnique(c: Cart, k: int)
    requires UniqueIds(c)
    requires 0 <= k < |c|
    ensures Find(c, c[k].product.id) == Some(c[k])
  {
    if k > 0 {
      assert c[0].product.id != c[k].product.id;
      assert c[1..][k - 1] == c[k];
      FindUnique(c[1..], k - 1);
    }
  }

  /** Adding a product whose id is absent appends exactly one line, with
      quantity 1, at the end; the earlier lines are unchanged. */
  lemma AddAbsentAppends(c: Cart, p: Product)
    requires !HasId(c, p.id)
    ensures |Added(c, p)| == |c| + 1
    ensures Added(c, p)[..|c|] == c
    ensures Added(c, p)[|c|] == CartLine(p, 1)
  {
  }

  /** Adding a product whose id is present at position `k` adds no line and
      increments that line's quantity by exactly 1; the line keeps its stored
      product fields, and every other line is unchanged. */
  lemma AddPresentIncrements(c: Cart, p: Product, k: int)
    requires UniqueIds(c)
    requires 0 <= k < |c| && c[k].product.id == p.id
    ensures Added(c, p) == c[k := CartLine(c[k].product, c[k].quantity + 1)]
  {
    assert HasId(c, p.id);
    var r := Added(c, p);
    forall i | 0 <= i < |c| && i != k ensures r[i] == c[i] {
      assert c[i].product.id != c[k].product.id;
    }
  }

  /** There is no upper cap in the store: a line at quantity 10 goes to 11. */
  lemma AddHasNoCap(p: Product)
    ensures Added([CartLine(p, 10)], p) == [CartLine(p, 11)]
  {
    assert [CartLine(p, 10)][0].product.id == p.id;
  }

  /** Adding the same product twice to an empty cart gives one line of quantity 2. */
  lemma AddTwiceMerges(p: Product)
    ensures Added(Added([], p), p) == [CartLine(p, 2)]
  {
    assert Added([], p) == [CartLine(p, 1)];
    assert [CartLine(p, 1)][0].product.id == p.id;
  }

  lemma AddedWellFormed(c: Cart, p: Product)
    requires WellFormed(c)
    ensures WellFormed(Added(c, p))
  {
    if HasId(c, p.id) {
      var k :| 0 <= k < |c| && c[k].product.id == p.id;
      AddPresentIncrements(c, p, k);
    }
  }

  // ---------------------------------------------------------------------------
  // removeFromCart

  /** The filtered list keeps exactly the lines whose id differs. */
  lemma {:induction false} RemovedMembers(c: Cart, id: string)
    ensures forall l :: l in Removed(c, id) <==> l in c && l.product.id != id
  {
    if c != [] {
      RemovedMembers(c[1..], id);
      assert c == [c[0]] + c[1..];
    }
  }

  /** Removing an absent id is a no-op. */
  lemma {:induction false} RemoveAbsentIsNoop(c: Cart, id: string)
    requires !HasId(c, id)
    ensures Removed(c, id) == c
  {
    if c != [] {
      assert c[0].product.id != id;
      assert !HasId(c[1..], id);
      RemoveAbsentIsNoop(c[1..], id);
      assert c == [c[0]] + c[1..];
    }
  }

  /** In a cart with distinct ids, removing the id of line `k` drops that line
      and keeps all the others in their original order. */
  lemma {:induction false} RemoveAtDropsLine(c: Cart, k: int)
    requires UniqueIds(c)
    requires 0 <= k < |c|
    ensures Removed(c, c[k].product.id) == c[..k] + c[k + 1..]
  {
    var id := c[k].product.id;
    if k == 0 {
      assert !HasId(c[1..], id);
      RemoveAbsentIsNoop(c[1..], id);
    } else {
      var t := c[1..];
      assert t[k - 1] == c[k];
      assert UniqueIds(t);
      RemoveAtDropsLine(t, k - 1);
      assert c[0].product.id != id;
      assert c[..k] == [c[0]] + t[..k - 1];
      assert c[k + 1..] == t[k..];
    }
  }

  lemma {:induction false} RemovedWellFormed(c: Cart, id: string)
    requires WellFormed(c)
    ensures WellFormed(Removed(c, id))
  {
    if HasId(c, id) {
      var k :| 0 <= k < |c| && c[k].product.id == id;
      RemoveAtDropsLine(c, k);
      var r := Removed(c, id);
      assert |r| == |c| - 1;
      assert forall i :: 0 <= i < |r| ==> r[i] == c[if i < k then i else i + 1];
    } else {
      RemoveAbsentIsNoop(c, id);
    }
  }

  // ---------------------------------------------------------------------------
  // updateQuantity

  /** Updating an absent id leaves the cart unchanged. */
  lemma UpdateAbsentIsNoop(c: Cart, id: string, q: int)
    requires !HasId(c, id)
    ensures WithQuantity(c, id, q) == c
  {
  }

  /** Updating the id of line `k` sets that line's quantity to `q` when `q > 0`
      and to 1 otherwise; every other line and the line's product are untouched. */
  lemma UpdateSetsLine(c: Cart, k: int, q: int)
    requires UniqueIds(c)
    requires 0 <= k < |c|
    ensures WithQuantity(c, c[k].product.id, q)
         == c[k := CartLine(c[k].product, if q > 0 then q else 1)]
  {
    var r := WithQuantity(c, c[k].product.id, q);
    forall i | 0 <= i < |c| && i != k ensures r[i] == c[i] {
      assert c[i].product.id != c[k].product.id;
    }
  }

  lemma UpdatedWellFormed(c: Cart, id: string, q: int)
    requires WellFormed(c)
    ensures WellFormed(WithQuantity(c, id, q))
  {
  }

  // ---------------------------------------------------------------------------
  // Totals

  lemma {:induction false} TotalItemsAppend(a: Cart, b: Cart)
    ensures TotalItems(a + b) == TotalItems(a) + TotalItems(b)
    ensures Subtotal(a + b) == Subtotal(a) + Subtotal(b)
  {
    if a == [] {
      assert a + b == b;
    } else {
      TotalItemsAppend(a[1..], b);
      assert (a + b)[0] == a[0];
      assert (a + b)[1..] == a[1..] + b;
    }
  }

  /** With every quantity at least 1, the item count is at least the number of
      lines: it is never negative, and it is positive exactly when the cart is not empty. */
  lemma {:induction false} TotalItemsAtLeastLines(c: Cart)
    requires PositiveQuantities(c)
    ensures TotalItems(c) >= |c|
    ensures TotalItems(c) > 0 <==> c != []
  {
    if c != [] {
      TotalItemsAtLeastLines(c[1..]);
    }
  }

  /** Replacing line `k` changes both totals by the difference of that one line. */
  lemma {:induction false} TotalsReplaceLine(c: Cart, k: int, l: CartLine)
    requires 0 <= k < |c|
    ensures TotalItems(c[k := l]) == TotalItems(c) - c[k].quantity + l.quantity
    ensures Subtotal(c[k := l]) == Subtotal(c) - LineAmount(c[k]) + LineAmount(l)
  {
    assert c == c[..k] + [c[k]] + c[k + 1..];
    assert c[k := l] == c[..k] + [l] + c[k + 1..];
    TotalItemsAppend(c[..k] + [c[k]], c[k + 1..]);
    TotalItemsAppend(c[..k], [c[k]]);
    TotalItemsAppend(c[..k] + [l], c[k + 1..]);
    TotalItemsAppend(c[..k], [l]);
  }

  /** Every `addToCart` raises the item count by exactly 1, and the subtotal by
      the price of the line that was incremented (its stored price, not the new
      product's) or of the product that was appended. */
  lemma AddedTotals(c: Cart, p: Product)
    requires UniqueIds(c)
    ensures TotalItems(Added(c, p)) == TotalItems(c) + 1
    ensures Subtotal(Added(c, p))
         == Subtotal(c) + (match Find(c, p.id) case Some(l) => l.product.price case None => p.price)
  {
    if HasId(c, p.id) {
      var k :| 0 <= k < |c| && c[k].product.id == p.id;
      FindUnique(c, k);
      AddPresentIncrements(c, p, k);
      TotalsReplaceLine(c, k, CartLine(c[k].product, c[k].quantity + 1));
    } else {
      TotalItemsAppend(c, [CartLine(p, 1)]);
      assert Subtotal([CartLine(p, 1)]) == p.price;
    }
  }

  /** Removing line `k` lowers the totals by exactly that line's share. */
  lemma RemovedTotals(c: Cart, k: int)
    requires UniqueIds(c)
    requires 0 <= k < |c|
    ensures TotalItems(Removed(c, c[k].product.id)) == TotalItems(c) - c[k].quantity
    ensures Subtotal(Removed(c, c[k].product.id)) == Subtotal(c) - LineAmount(c[k])
  {
    RemoveAtDropsLine(c, k);
    var front, line, back := c[..k], [c[k]], c[k + 1..];
    assert c == front + line + back;
    assert TotalItems(line) == c[k].quantity && Subtotal(line) == LineAmount(c[k]) by {
      assert line[1..] == [];
    }
    TotalItemsAppend(front + line, back);
    TotalItemsAppend(front, line);
    TotalItemsAppend(front, back);
  }

  /** The worked example: lines of 1500 x 2 and 500 x 1 come to 3500 (the
      total with the shipping fee is stated in the cart page). */
  lemma SubtotalExample(a: Product, b: Product)
    requires a.price == 1500 && b.price == 500
    ensures TotalItems([CartLine(a, 2), CartLine(b, 1)]) == 3
    ensures Subtotal([CartLine(a, 2), CartLine(b, 1)]) == 3500
  {
    var c := [CartLine(a, 2), CartLine(b, 1)];
    assert c[1..] == [CartLine(b, 1)];
    assert c[1..][1..] == [];
    assert TotalItems(c[1..]) == 1;
    assert Subtotal(c[1..]) == 500;
  }

  // ---------------------------------------------------------------------------
  // The provider

  /** `CartProvider`'s `cartItems` state and its three updaters. */
  class CartStore {
    var items: Cart

    ghost predicate Valid()
      reads this
    {
      WellFormed(items)
    }

    /** `useState([])`: the cart starts empty. */
    constructor ()
      ensures Valid() && items == []
    {
      items := [];
    }

    method AddToCart(p: Product) returns (t: Toast)
      requires Valid()
      modifies this
      ensures Valid()
      ensures items == Added(old(items), p)
      ensures |items| == |old(items)| + (if HasId(old(items), p.id) then 0 else 1)
      ensures t == if HasId(old(items), p.id)
                   then Success(p.name + " quantity increased! \U{1F6D2}")
                   else Success(p.name + " added to cart! \U{1F6D2}")
    {
      var present := HasId(items, p.id);
      AddedWellFormed(items, p);
      items := Added(items, p);
      if present {
        t := Success(p.name + " quantity increased! \U{1F6D2}");
      } else {
        t := Success(p.name + " added to cart! \U{1F6D2}");
      }
    }

    method RemoveFromCart(id: string)
      requires Valid()
      modifies this
      ensures Valid()
      ensures items == Removed(old(items), id)
      ensures !HasId(items, id)
    {
      RemovedWellFormed(items, id);
      RemovedMembers(items, id);
      items := Removed(items, id);
    }

    method UpdateQuantity(id: string, q: int)
      requires Valid()
      modifies this
      ensures Valid()
      ensures items == WithQuantity(old(items), id, q)
      ensures |items| == |old(items)|
    {
      UpdatedWellFormed(items, id, q);
      items := WithQuantity(items, id, q);
    }
  }
}
