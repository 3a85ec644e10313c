/**
 * The cart state holder (src/components/CartContext.jsx): an ordered list of
 * line items with add, remove, update-quantity and clear, the open/closed
 * flag of the cart drawer, and the two derived sums.
 *
 * Ids: a product carries `id` and `_id` (here `dbId`); the empty string stands
 * for a missing (falsy) id.
 */
module CartContext {
  import opened Text

  /** A product as the components hand it to `addToCart`. */
  datatype Product = Product(
    id: string,
    dbId: string,
    name: string,
    price: real,
    image: string,
    category: string,
    rating: real,
    countInStock: int,
    images: seq<string>)

  /** A cart line: the (normalised) product's fields plus a quantity. */
  datatype LineItem = LineItem(product: Product, quantity: int)

  /** `product.id || product._id`, the id every component uses for a product or a line. */
  function ProductId(p: Product): (r: string)
    ensures p.id != "" ==> r == p.id
    ensures p.id == "" ==> r == p.dbId
  {
    OrElse(p.id, p.dbId)
  }

  /** `{...product, id: product.id || product._id}` */
  function Normalize(p: Product): (r: Product)
    ensures r.id == ProductId(p) && r == p.(id := r.id)
    ensures ProductId(r) == ProductId(p)
  {
    p.(id := ProductId(p))
  }

  /** The test `addToCart` uses to find the line of a product. */
  predicate MatchesProduct(item: LineItem, p: Product) {
    item.product.id == ProductId(p) || (item.product.dbId != "" && item.product.dbId == p.dbId)
  }

  /** The test `removeFromCart` and `updateQuantity` use to find the lines of an id. */
  predicate MatchesId(item: LineItem, pid: string) {
    item.product.id == pid || (item.product.dbId != "" && item.product.dbId == pid)
  }

  predicate HasLine(items: seq<LineItem>, p: Product) {
    exists i | 0 <= i < |items| :: MatchesProduct(items[i], p)
  }

  function Ids(items: seq<LineItem>): (r: seq<string>)
    ensures |r| == |items| && forall i :: 0 <= i < |items| ==> r[i] == items[i].product.id
  {
    seq(|items|, i requires 0 <= i < |items| => items[i].product.id)
  }

  // ---------------------------------------------------------------------
  // The cart operations as functions of the previous list

  /** Every line matching `p` gets one more unit. */
  function Bump(items: seq<LineItem>, p: Product): (r: seq<LineItem>)
    ensures |r| == |items|
    ensures forall i :: 0 <= i < |items| ==>
      r[i] == if MatchesProduct(items[i], p) then items[i].(quantity := items[i].quantity + 1) else items[i]
  {
    seq(|items|, i requires 0 <= i < |items| =>
      if MatchesProduct(items[i], p) then items[i].(quantity := items[i].quantity + 1) else items[i])
  }

  /** The list after `addToCart(p)`. */
  function Added(items: seq<LineItem>, p: Product): (r: seq<LineItem>)
    ensures |r| == |items| + (if HasLine(items, p) then 0 else 1)
  {
    if HasLine(items, p) then Bump(items, p) else items + [LineItem(Normalize(p), 1)]
  }

  /** The list after `removeFromCart(pid)`: the lines not matching `pid`, in their order. */
  function Removed(items: seq<LineItem>, pid: string): (r: seq<LineItem>)
    ensures |r| <= |items|
    ensures forall i :: 0 <= i < |r| ==> !MatchesId(r[i], pid)
  {
    Filter(items, (item: LineItem) => !MatchesId(item, pid))
  }

  /** The list after `updateQuantity(pid, q)` for a positive `q`. */
  function Requantified(items: seq<LineItem>, pid: string, q: int): (r: seq<LineItem>)
    ensures |r| == |items|
    ensures forall i :: 0 <= i < |items| ==>
      r[i] == if MatchesId(items[i], pid) then items[i].(quantity := q) else items[i]
  {
    seq(|items|, i requires 0 <= i < |items| =>
      if MatchesId(items[i], pid) then items[i].(quantity := q) else items[i])
  }

  /** The list after `updateQuantity(pid, q)`. */
  function Updated(items: seq<LineItem>, pid: string, q: int): (r: seq<LineItem>)
    ensures q <= 0 ==> forall i :: 0 <= i < |r| ==> !MatchesId(r[i], pid)
    ensures q > 0 ==> |r| == |items| && forall i :: 0 <= i < |r| && MatchesId(r[i], pid) ==> r[i].quantity == q
  {
    if q <= 0 then Removed(items, pid) else Requantified(items, pid, q)
  }

  // ---------------------------------------------------------------------
  // Derived values (the two `reduce` folds; with exact numbers the order of summation is immaterial)

  /** `itemCount`: the sum of the quantities. */
  function Count(items: seq<LineItem>): int {
    if items == [] then 0 else items[0].quantity + Count(items[1..])
  }

  /** `cartTotal`: the sum of price times quantity. */
  function Total(items: seq<LineItem>): real {
    if items == [] then 0.0 else items[0].product.price * items[0].quantity as real + Total(items[1..])
  }

  /** Number of lines matching `p`. */
  function MatchCount(items: seq<LineItem>, p: Product): nat {
    if items == [] then 0 else (if MatchesProduct(items[0], p) then 1 else 0) + MatchCount(items[1..], p)
  }

  /** The cart invariant: every quantity is at least 1 and no two lines share an id. */
  predicate WellFormed(items: seq<LineItem>) {
    (forall i :: 0 <= i < |items| ==> items[i].quantity >= 1) && Distinct(Ids(items))
  }

  // ---------------------------------------------------------------------
  // The state holder

  class CartProvider {
    var cartItems: seq<LineItem>
    var isCartOpen: bool

    ghost predicate Valid()
      reads this
    {
      WellFormed(cartItems)
    }

    constructor ()
      ensures Valid() && cartItems == [] && !isCartOpen
    {
      cartItems := [];
      isCartOpen := false;
    }

    method ToggleCart()
      modifies this
      ensures isCartOpen == !old(isCartOpen) && cartItems == old(cartItems)
    {
      isCartOpen := !isCartOpen;
    }

    method AddToCart(product: Product)
      requires Valid()
      modifies this
      ensures Valid()
      ensures cartItems == Added(old(cartItems), product) && isCartOpen == old(isCartOpen)
    {
      AddedWellFormed(cartItems, product);
      cartItems := Added(cartItems, product);
    }

    method RemoveFromCart(productId: string)
      requires Valid()
      modifies this
      ensures Valid()
      ensures cartItems == Removed(old(cartItems), productId) && isCartOpen == old(isCartOpen)
    {
      RemovedWellFormed(cartItems, productId);
      cartItems := Removed(cartItems, productId);
    }

    method UpdateQuantity(productId: string, quantity: int)
      requires Valid()
      modifies this
      ensures Valid()
      ensures cartItems == Updated(old(cartItems), productId, quantity) && isCartOpen == old(isCartOpen)
      ensures quantity <= 0 ==> cartItems == Removed(old(cartItems), productId)
    {
      if quantity <= 0 {
        RemoveFromCart(productId);
        return;
      }
      RequantifiedWellFormed(cartItems, productId, quantity);
      cartItems := Requantified(cartItems, productId, quantity);
    }

    method ClearCart()
      modifies this
      ensures Valid() && cartItems == [] && isCartOpen == old(isCartOpen)
      ensures CartTotal() == 0.0 && ItemCount() == 0
    {
      cartItems := [];
    }

    /** `cartTotal`, computed from the current lines, so it can never be stale. */
    function CartTotal(): (r: real)
      reads this
      ensures r == Total(cartItems)
      ensures cartItems == [] ==> r == 0.0
    {
      Total(cartItems)
    }

    /** `itemCount`, computed from the current lines; every line adds at least one item. */
    function ItemCount(): (r: int)
      reads this
      ensures r == Count(cartItems)
      ensures Valid() ==> r >= |cartItems|
    {
      CountAtLeastLines(cartItems);
      Count(cartItems)
    }
  }

  // ---------------------------------------------------------------------
  // Properties

  lemma {:induction false} MatchCountPositive(items: seq<LineItem>, p: Product)
    ensures HasLine(items, p) <==> MatchCount(items, p) > 0
  {
    if items != [] {
      MatchCountPositive(items[1..], p);
      if HasLine(items, p) && !MatchesProduct(items[0], p) {
        var i :| 0 <= i < |items| && MatchesProduct(items[i], p);
        assert items[1..][i - 1] == items[i];
      }
      if HasLine(items[1..], p) {
        var i :| 0 <= i < |items[1..]| && MatchesProduct(items[1..][i], p);
        assert items[i + 1] == items[1..][i];
      }
    }
  }

  /** With every quantity at least one, there are at least as many items as lines. */
  lemma {:induction false} CountAtLeastLines(items: seq<LineItem>)
    ensures (forall i :: 0 <= i < |items| ==> items[i].quantity >= 1) ==> Count(items) >= |items|
  {
    if items != [] {
      CountAtLeastLines(items[1..]);
      assert forall i :: 0 <= i < |items[1..]| ==> items[1..][i] == items[i + 1];
    }
  }

  lemma {:induction false} CountAppend(a: seq<LineItem>, b: seq<LineItem>)
    ensures Count(a + b) == Count(a) + Count(b)
    ensures Total(a + b) == Total(a) + Total(b)
  {
    if a == [] {
      assert a + b == b;
    } else {
      assert (a + b)[0] == a[0];
      assert (a + b)[1..] == a[1..] + b;
      CountAppend(a[1..], b);
    }
  }

  lemma {:induction false} BumpCount(items: seq<LineItem>, p: Product)
    ensures Count(Bump(items, p)) == Count(items) + MatchCount(items, p)
  {
    if items != [] {
      assert Bump(items, p)[1..] == Bump(items[1..], p);
      BumpCount(items[1..], p);
    }
  }

  /**
   * Adding a product the cart already holds raises the quantity of each matching line by
   * exactly one and changes nothing else: same length, same ids in the same order.
   * Adding a product it does not hold appends one line, with quantity 1 and the normalised id.
   */
  lemma AddedShape(items: seq<LineItem>, p: Product)
    ensures HasLine(items, p) ==>
      |Added(items, p)| == |items| && Ids(Added(items, p)) == Ids(items) &&
      forall i :: 0 <= i < |items| ==>
        Added(items, p)[i].product == items[i].product &&
        Added(items, p)[i].quantity == items[i].quantity + (if MatchesProduct(items[i], p) then 1 else 0)
    ensures !HasLine(items, p) ==>
      Added(items, p)[..|items|] == items &&
      Added(items, p)[|items|] == LineItem(p.(id := ProductId(p)), 1) &&
      |Added(items, p)| == |items| + 1
  {
  }

  /**
   * Adding raises the item count by the number of matching lines, or by one for a new
   * line, whose price is then added to the total.
   */
  lemma AddedCount(items: seq<LineItem>, p: Product)
    ensures Count(Added(items, p)) == Count(items) + if HasLine(items, p) then MatchCount(items, p) else 1
    ensures !HasLine(items, p) ==> Total(Added(items, p)) == Total(items) + p.price
  {
    if HasLine(items, p) {
      BumpCount(items, p);
    } else {
      CountAppend(items, [LineItem(Normalize(p), 1)]);
      assert [LineItem(Normalize(p), 1)][1..] == [];
    }
  }

  /** Removing keeps exactly the lines that do not match, in order, and leaves an absent id's cart as it was. */
  lemma RemovedShape(items: seq<LineItem>, pid: string)
    ensures forall i :: 0 <= i < |Removed(items, pid)| ==> !MatchesId(Removed(items, pid)[i], pid)
    ensures forall i :: 0 <= i < |items| && !MatchesId(items[i], pid) ==> items[i] in Removed(items, pid)
    ensures forall i :: 0 <= i < |Removed(items, pid)| ==> Removed(items, pid)[i] in items
    ensures (forall i :: 0 <= i < |items| ==> !MatchesId(items[i], pid)) ==> Removed(items, pid) == items
    ensures forall k :: 0 <= k <= |items| ==>
      Removed(items, pid) == Removed(items[..k], pid) + Removed(items[k..], pid)
    ensures forall k :: 0 <= k < |items| ==>
      Removed([items[k]], pid) == if MatchesId(items[k], pid) then [] else [items[k]]
  {
    FilterOrder(items, (item: LineItem) => !MatchesId(item, pid));
    if forall i :: 0 <= i < |items| ==> !MatchesId(items[i], pid) {
      FilterAll(items, (item: LineItem) => !MatchesId(item, pid));
    }
  }

  /** A positive quantity update sets the matching lines to `q` and touches nothing else. */
  lemma UpdatedPositive(items: seq<LineItem>, pid: string, q: int)
    requires q > 0
    ensures |Updated(items, pid, q)| == |items| && Ids(Updated(items, pid, q)) == Ids(items)
    ensures forall i :: 0 <= i < |items| && MatchesId(items[i], pid) ==> Updated(items, pid, q)[i].quantity == q
    ensures forall i :: 0 <= i < |items| && !MatchesId(items[i], pid) ==> Updated(items, pid, q)[i] == items[i]
  {
  }

  /** Adding a product twice to an empty cart gives one line of quantity 2; removing its id empties the cart. */
  lemma AddTwiceThenRemove(p: Product)
    ensures Added(Added([], p), p) == [LineItem(Normalize(p), 2)]
    ensures Removed(Added(Added([], p), p), ProductId(p)) == []
  {
    var once := Added([], p);
    assert once == [LineItem(Normalize(p), 1)];
    assert MatchesProduct(once[0], p);
    assert Bump(once, p) == [LineItem(Normalize(p), 2)];
  }

  /** Example: 2 x 10.00 and 1 x 5.50 give a total of 25.50 and a count of 3. */
  lemma ExampleTotals(a: Product, b: Product)
    requires a.price == 10.0 && b.price == 5.5
    ensures Total([LineItem(a, 2), LineItem(b, 1)]) == 25.5
    ensures Count([LineItem(a, 2), LineItem(b, 1)]) == 3
  {
    assert [LineItem(a, 2), LineItem(b, 1)][1..] == [LineItem(b, 1)];
    assert [LineItem(b, 1)][1..] == [];
    assert Total([LineItem(b, 1)]) == 5.5 && Count([LineItem(b, 1)]) == 1;
  }

  // The invariant is kept by every operation.

  lemma AddedWellFormed(items: seq<LineItem>, p: Product)
    requires WellFormed(items)
    ensures WellFormed(Added(items, p))
  {
    if !HasLine(items, p) {
      var r := Added(items, p);
      forall i, j | 0 <= i < j < |r| ensures Ids(r)[i] != Ids(r)[j] {
        if j == |items| {
          assert !MatchesProduct(items[i], p);
        } else {
          assert Ids(items)[i] != Ids(items)[j];
        }
      }
    }
  }

  lemma {:induction false} RemovedWellFormed(items: seq<LineItem>, pid: string)
    requires WellFormed(items)
    ensures WellFormed(Removed(items, pid))
    decreases |items|
  {
    if items != [] {
      var tail := items[1..];
      assert WellFormed(tail) by {
        forall i, j | 0 <= i < j < |tail| ensures Ids(tail)[i] != Ids(tail)[j] {
          assert Ids(items)[i + 1] != Ids(items)[j + 1];
        }
      }
      RemovedWellFormed(tail, pid);
      if !MatchesId(items[0], pid) {
        assert Removed(items, pid) == [items[0]] + Removed(tail, pid);
        var rest := Removed(tail, pid);
        forall k | 0 <= k < |rest| ensures rest[k].product.id != items[0].product.id {
          var m :| 0 <= m < |tail| && tail[m] == rest[k];
          assert Ids(items)[0] != Ids(items)[m + 1];
        }
        ConsWellFormed(items[0], rest);
      } else {
        assert Removed(items, pid) == Removed(tail, pid);
      }
    }
  }

  lemma ConsWellFormed(x: LineItem, rest: seq<LineItem>)
    requires x.quantity >= 1 && WellFormed(rest)
    requires forall k :: 0 <= k < |rest| ==> rest[k].product.id != x.product.id
    ensures WellFormed([x] + rest)
  {
    var r := [x] + rest;
    forall i, j | 0 <= i < j < |r| ensures Ids(r)[i] != Ids(r)[j] {
      if i > 0 {
        assert Ids(rest)[i - 1] != Ids(rest)[j - 1];
      }
    }
  }

  lemma RequantifiedWellFormed(items: seq<LineItem>, pid: string, q: int)
    requires WellFormed(items) && q > 0
    ensures WellFormed(Requantified(items, pid, q))
  {
    assert Ids(Requantified(items, pid, q)) == Ids(items);
  }
}
