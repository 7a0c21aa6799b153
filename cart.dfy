/** The shopping cart of the storefront's home page: an ordered sequence of
    line items, one per product, that the page updates as the shopper adds
    products, presses "+", "-" or the trash button, and that it folds into a
    rupee total and an item count for the header badge. */
module Cart {

  type ProductId = string

  /** A catalog product as the detail request returns it. Prices are whole
      rupees. */
  datatype Product = Product(id: ProductId, title: string, description: string, price: nat, imagesCount: nat)

  /** One cart line; title and price are a snapshot taken when the product was
      first added. */
  datatype LineItem = LineItem(productId: ProductId, title: string, price: nat, quantity: nat)

  function Subtotal(l: LineItem): nat { l.price * l.quantity }

  function Quantity(l: LineItem): nat { l.quantity }

  /** Left fold of `f` over the lines, in the order of `Array.prototype.reduce`
      with initial value 0. */
  function SumOf(cart: seq<LineItem>, f: LineItem -> nat): nat
  {
    if cart == [] then 0 else SumOf(cart[..|cart| - 1], f) + f(cart[|cart| - 1])
  }

  /** The rupee total shown in the cart panel: no line's share exceeds it,
      and it is 0 exactly when every line is free or has quantity 0. */
  function Total(cart: seq<LineItem>): (r: nat)
    ensures forall i :: 0 <= i < |cart| ==> Subtotal(cart[i]) <= r
    ensures r == 0 <==> forall i :: 0 <= i < |cart| ==> Subtotal(cart[i]) == 0
  {
    SumBounds(cart, Subtotal);
    SumOf(cart, Subtotal)
  }

  /** The number shown in the header badge and in the mobile menu: no line's
      quantity exceeds it, and it is 0 exactly when every quantity is 0. */
  function ItemCount(cart: seq<LineItem>): (r: nat)
    ensures forall i :: 0 <= i < |cart| ==> cart[i].quantity <= r
    ensures r == 0 <==> forall i :: 0 <= i < |cart| ==> cart[i].quantity == 0
  {
    SumBounds(cart, Quantity);
    SumOf(cart, Quantity)
  }

  /** The badge is only rendered while the cart has at least one line, and
      then shows the sum of the quantities. */
  function HeaderBadge(cart: seq<LineItem>): (r: Option<nat>)
    ensures r.Some? <==> |cart| > 0
    ensures r.Some? ==> r.value == ItemCount(cart)
    ensures r.Some? ==> r.value >= |cart| || exists i :: 0 <= i < |cart| && cart[i].quantity == 0
  {
    if |cart| > 0 then
      BadgeCountsLines(cart);
      Some(ItemCount(cart))
    else None
  }

  datatype Option<T> = None | Some(value: T)

  /** Position of the first line for `id`, or -1: `findIndex` on `productId`. */
  function FindIndex(cart: seq<LineItem>, id: ProductId): (r: int)
    ensures -1 <= r < |cart|
    ensures r >= 0 ==> cart[r].productId == id && forall j :: 0 <= j < r ==> cart[j].productId != id
    ensures r == -1 <==> forall j :: 0 <= j < |cart| ==> cart[j].productId != id
  {
    if cart == [] then -1
    else if cart[0].productId == id then 0
    else
      var k := FindIndex(cart[1..], id);
      if k == -1 then -1 else k + 1
  }

  /** The cart after pressing "Add to Cart" on product `p`: the first line for
      `p` gains one unit, or a new line with quantity 1 is appended. */
  function AddToCart(cart: seq<LineItem>, p: Product): (r: seq<LineItem>)
    ensures FindIndex(cart, p.id) > -1 ==>
      |r| == |cart| && r[FindIndex(cart, p.id)].quantity == cart[FindIndex(cart, p.id)].quantity + 1
    ensures FindIndex(cart, p.id) == -1 ==>
      |r| == |cart| + 1 && r[..|cart|] == cart && r[|cart|].productId == p.id && r[|cart|].quantity == 1
  {
    var idx := FindIndex(cart, p.id);
    if idx > -1 then cart[idx := cart[idx].(quantity := cart[idx].quantity + 1)]
    else cart + [LineItem(p.id, p.title, p.price, 1)]
  }

  /** What "Add to Cart" does, stated without the search: the first line for
      `p` gains exactly one unit and nothing else changes, or, when `p` has no
      line, a line with `p`'s title and price snapshot and quantity 1 is
      appended after the existing lines. */
  lemma AddToCartSpec(cart: seq<LineItem>, p: Product)
    ensures forall k :: 0 <= k < |cart| && cart[k].productId == p.id && (forall j :: 0 <= j < k ==> cart[j].productId != p.id) ==>
      var r := AddToCart(cart, p);
      |r| == |cart| && r[k] == cart[k].(quantity := cart[k].quantity + 1) &&
      forall j :: 0 <= j < |cart| && j != k ==> r[j] == cart[j]
    ensures (forall k :: 0 <= k < |cart| ==> cart[k].productId != p.id) ==>
      AddToCart(cart, p) == cart + [LineItem(p.id, p.title, p.price, 1)]
  {
  }

  /** The cart after the "+" button of line `idx`; there is no upper bound. */
  function Incremented(cart: seq<LineItem>, idx: nat): (r: seq<LineItem>)
    requires idx < |cart|
    ensures |r| == |cart| && r[idx].quantity == cart[idx].quantity + 1
    ensures r[idx].productId == cart[idx].productId && r[idx].title == cart[idx].title && r[idx].price == cart[idx].price
    ensures forall j :: 0 <= j < |cart| && j != idx ==> r[j] == cart[j]
  {
    cart[idx := cart[idx].(quantity := cart[idx].quantity + 1)]
  }

  /** The cart after the "-" button of line `idx`: `Math.max(1, q - 1)`. */
  function Decremented(cart: seq<LineItem>, idx: nat): (r: seq<LineItem>)
    requires idx < |cart|
    ensures |r| == |cart| && r[idx].quantity >= 1
    ensures cart[idx].quantity >= 2 ==> r[idx].quantity == cart[idx].quantity - 1
    ensures cart[idx].quantity <= 1 ==> r[idx].quantity == 1
    ensures forall j :: 0 <= j < |cart| && j != idx ==> r[j] == cart[j]
    ensures r[idx].productId == cart[idx].productId && r[idx].title == cart[idx].title && r[idx].price == cart[idx].price
  {
    var q: int := cart[idx].quantity - 1;
    cart[idx := cart[idx].(quantity := if q < 1 then 1 else q)]
  }

  /** The cart after the trash button of line `idx`: `cart.filter((_, i) => i !== idx)`,
      computed position by position. */
  function RemoveAt(cart: seq<LineItem>, idx: int): (r: seq<LineItem>)
    ensures 0 <= idx < |cart| ==> r == cart[..idx] + cart[idx + 1..]
    ensures !(0 <= idx < |cart|) ==> r == cart
  {
    if cart == [] then []
    else
      var last := |cart| - 1;
      RemoveAt(cart[..last], idx) + (if last == idx then [] else [cart[last]])
  }

  /** At most one line per product. */
  ghost predicate DistinctIds(cart: seq<LineItem>)
  {
    forall i, j :: 0 <= i < j < |cart| ==> cart[i].productId != cart[j].productId
  }

  /** The invariant every cart operation keeps: distinct products and no line
      with quantity 0. */
  ghost predicate WellFormed(cart: seq<LineItem>)
  {
    DistinctIds(cart) && forall i :: 0 <= i < |cart| ==> cart[i].quantity >= 1
  }

  ghost function IdSet(cart: seq<LineItem>): set<ProductId>
  {
    set i | 0 <= i < |cart| :: cart[i].productId
  }

  // ---------------------------------------------------------------------------
  // Folds

  lemma {:induction false} SumAppend(a: seq<LineItem>, b: seq<LineItem>, f: LineItem -> nat)
    ensures SumOf(a + b, f) == SumOf(a, f) + SumOf(b, f)
  {
    if b == [] {
      assert a + b == a;
    } else {
      var b' := b[..|b| - 1];
      assert (a + b)[..|a + b| - 1] == a + b';
      SumAppend(a, b', f);
    }
  }

  lemma SumSingle(x: LineItem, f: LineItem -> nat)
    ensures SumOf([x], f) == f(x)
  {
    assert [x][..0] == [];
  }

  /** Deleting line `k` lowers a fold by that line's share. */
  lemma SumRemove(cart: seq<LineItem>, k: nat, f: LineItem -> nat)
    requires k < |cart|
    ensures SumOf(cart[..k] + cart[k + 1..], f) + f(cart[k]) == SumOf(cart, f)
  {
    var pre, post := cart[..k], cart[k + 1..];
    var front := cart[..k + 1];
    assert front == pre + [cart[k]];
    assert cart == front + post;
    SumAppend(front, post, f);
    SumAppend(pre, [cart[k]], f);
    SumSingle(cart[k], f);
    SumAppend(pre, post, f);
  }

  /** Replacing line `k` changes a fold by the difference of the two lines. */
  lemma SumUpdate(cart: seq<LineItem>, k: nat, x: LineItem, f: LineItem -> nat)
    requires k < |cart|
    ensures SumOf(cart[k := x], f) + f(cart[k]) == SumOf(cart, f) + f(x)
  {
    var upd := cart[k := x];
    assert upd[..k] == cart[..k] && upd[k + 1..] == cart[k + 1..];
    SumRemove(cart, k, f);
    SumRemove(upd, k, f);
  }

  /** No single line's share exceeds a fold, and a fold is 0 exactly when
      every line's share is. */
  lemma {:induction false} SumBounds(cart: seq<LineItem>, f: LineItem -> nat)
    ensures forall i :: 0 <= i < |cart| ==> f(cart[i]) <= SumOf(cart, f)
    ensures SumOf(cart, f) == 0 <==> forall i :: 0 <= i < |cart| ==> f(cart[i]) == 0
  {
    if cart != [] {
      var pre := cart[..|cart| - 1];
      SumBounds(pre, f);
      assert forall i :: 0 <= i < |pre| ==> cart[i] == pre[i];
    }
  }

  lemma {:induction false} BadgeCountsLines(cart: seq<LineItem>)
    ensures ItemCount(cart) >= |cart| || exists i :: 0 <= i < |cart| && cart[i].quantity == 0
  {
    if cart != [] {
      var pre := cart[..|cart| - 1];
      BadgeCountsLines(pre);
      if exists i :: 0 <= i < |pre| && pre[i].quantity == 0 {
        var i :| 0 <= i < |pre| && pre[i].quantity == 0;
        assert cart[i].quantity == 0;
      }
    }
  }

  /** The total is the sum of price times quantity over the lines, whatever
      way the lines are split. */
  lemma TotalAppend(a: seq<LineItem>, b: seq<LineItem>)
    ensures Total([]) == 0
    ensures Total(a + b) == Total(a) + Total(b)
    ensures ItemCount(a + b) == ItemCount(a) + ItemCount(b)
  {
    SumAppend(a, b, Subtotal);
    SumAppend(a, b, Quantity);
  }

  /** Two lines priced 500 x 2 and 300 x 1 total 1300 rupees over 3 items. */
  lemma TotalExample()
    ensures var cart := [LineItem("a", "A", 500, 2), LineItem("b", "B", 300, 1)];
      Total(cart) == 1300 && ItemCount(cart) == 3
  {
    var cart := [LineItem("a", "A", 500, 2), LineItem("b", "B", 300, 1)];
    assert cart[..1] == [cart[0]];
    SumSingle(cart[0], Subtotal);
    SumSingle(cart[0], Quantity);
  }

  // ---------------------------------------------------------------------------
  // How each handler moves the total and the badge

  /** One more unit of a line adds its price to its subtotal. */
  lemma SubtotalStep(l: LineItem)
    ensures Subtotal(l.(quantity := l.quantity + 1)) == Subtotal(l) + l.price
  {
    assert l.price * (l.quantity + 1) == l.price * l.quantity + l.price;
  }

  /** Adding `p` changes any fold by the share of the line it touches. */
  lemma AddToCartSum(cart: seq<LineItem>, p: Product, f: LineItem -> nat)
    ensures var idx := FindIndex(cart, p.id);
      idx > -1 ==> SumOf(AddToCart(cart, p), f) + f(cart[idx]) == SumOf(cart, f) + f(cart[idx].(quantity := cart[idx].quantity + 1))
    ensures FindIndex(cart, p.id) == -1 ==> SumOf(AddToCart(cart, p), f) == SumOf(cart, f) + f(LineItem(p.id, p.title, p.price, 1))
  {
    var idx := FindIndex(cart, p.id);
    if idx > -1 {
      SumUpdate(cart, idx, cart[idx].(quantity := cart[idx].quantity + 1), f);
    } else {
      var x := LineItem(p.id, p.title, p.price, 1);
      SumAppend(cart, [x], f);
      SumSingle(x, f);
    }
  }

  /** Adding a product already in the cart charges the price snapshot of its
      line, not the product's current price. */
  lemma AddToCartTotal(cart: seq<LineItem>, p: Product)
    ensures FindIndex(cart, p.id) == -1 ==> Total(AddToCart(cart, p)) == Total(cart) + p.price
    ensures FindIndex(cart, p.id) > -1 ==> Total(AddToCart(cart, p)) == Total(cart) + cart[FindIndex(cart, p.id)].price
    ensures ItemCount(AddToCart(cart, p)) == ItemCount(cart) + 1
  {
    AddToCartSubtotals(cart, p);
    AddToCartQuantities(cart, p);
  }

  /** One add raises the quantity fold by one. */
  lemma AddToCartQuantities(cart: seq<LineItem>, p: Product)
    ensures SumOf(AddToCart(cart, p), Quantity) == SumOf(cart, Quantity) + 1
  {
    AddToCartSum(cart, p, Quantity);
    var idx := FindIndex(cart, p.id);
    if idx > -1 {
      assert Quantity(cart[idx].(quantity := cart[idx].quantity + 1)) == Quantity(cart[idx]) + 1;
    } else {
      assert Quantity(LineItem(p.id, p.title, p.price, 1)) == 1;
    }
  }

  /** `AddToCartTotal` on the folds themselves. */
  lemma AddToCartSubtotals(cart: seq<LineItem>, p: Product)
    ensures FindIndex(cart, p.id) == -1 ==> SumOf(AddToCart(cart, p), Subtotal) == SumOf(cart, Subtotal) + p.price
    ensures FindIndex(cart, p.id) > -1 ==> SumOf(AddToCart(cart, p), Subtotal) == SumOf(cart, Subtotal) + cart[FindIndex(cart, p.id)].price
  {
    var idx := FindIndex(cart, p.id);
    AddToCartSum(cart, p, Subtotal);
    if idx > -1 {
      SubtotalStep(cart[idx]);
    } else {
      assert Subtotal(LineItem(p.id, p.title, p.price, 1)) == p.price;
    }
  }

  lemma IncrementedTotal(cart: seq<LineItem>, idx: nat)
    requires idx < |cart|
    ensures Total(Incremented(cart, idx)) == Total(cart) + cart[idx].price
    ensures ItemCount(Incremented(cart, idx)) == ItemCount(cart) + 1
  {
    var x := cart[idx].(quantity := cart[idx].quantity + 1);
    SubtotalStep(cart[idx]);
    SumUpdate(cart, idx, x, Subtotal);
    SumUpdate(cart, idx, x, Quantity);
  }

  lemma DecrementedTotal(cart: seq<LineItem>, idx: nat)
    requires idx < |cart|
    ensures cart[idx].quantity >= 2 ==> Total(Decremented(cart, idx)) + cart[idx].price == Total(cart)
    ensures cart[idx].quantity >= 2 ==> ItemCount(Decremented(cart, idx)) + 1 == ItemCount(cart)
    ensures cart[idx].quantity == 1 ==> Decremented(cart, idx) == cart
  {
    var r := Decremented(cart, idx);
    assert r == cart[idx := r[idx]];
    if cart[idx].quantity >= 2 {
      assert cart[idx] == r[idx].(quantity := r[idx].quantity + 1);
      SubtotalStep(r[idx]);
    }
    SumUpdate(cart, idx, r[idx], Subtotal);
    SumUpdate(cart, idx, r[idx], Quantity);
  }

  lemma RemoveAtTotal(cart: seq<LineItem>, idx: int)
    ensures 0 <= idx < |cart| ==> Total(RemoveAt(cart, idx)) + Subtotal(cart[idx]) == Total(cart)
    ensures 0 <= idx < |cart| ==> ItemCount(RemoveAt(cart, idx)) + cart[idx].quantity == ItemCount(cart)
    ensures !(0 <= idx < |cart|) ==> Total(RemoveAt(cart, idx)) == Total(cart)
    ensures !(0 <= idx < |cart|) ==> ItemCount(RemoveAt(cart, idx)) == ItemCount(cart)
  {
    if 0 <= idx < |cart| {
      SumRemove(cart, idx, Subtotal);
      SumRemove(cart, idx, Quantity);
    }
  }

  /** Scenario: one line for A at 100 rupees; adding A again gives quantity 2
      and a total of 200. */
  lemma AddAgainExample()
    ensures var p := Product("A", "Card", "", 100, 1);
      var r := AddToCart([LineItem("A", "Card", 100, 1)], p);
      r == [LineItem("A", "Card", 100, 2)] && Total(r) == 200
  {
    var r := [LineItem("A", "Card", 100, 2)];
    SumSingle(r[0], Subtotal);
  }

  // ---------------------------------------------------------------------------
  // The invariant

  /** Adding keeps products distinct and adds exactly `p`'s id to the set of
      products in the cart. */
  lemma AddToCartIds(cart: seq<LineItem>, p: Product)
    ensures DistinctIds(cart) ==> DistinctIds(AddToCart(cart, p))
    ensures IdSet(AddToCart(cart, p)) == IdSet(cart) + {p.id}
  {
    var r := AddToCart(cart, p);
    var idx := FindIndex(cart, p.id);
    if idx > -1 {
      assert forall i :: 0 <= i < |r| ==> r[i].productId == cart[i].productId;
    } else {
      assert forall i :: 0 <= i < |cart| ==> r[i] == cart[i];
      assert r[|cart|].productId == p.id;
      forall x | x in IdSet(r) ensures x in IdSet(cart) + {p.id} {
        var i :| 0 <= i < |r| && r[i].productId == x;
        if i < |cart| { assert cart[i].productId == x; }
      }
    }
  }

  lemma AddToCartWellFormed(cart: seq<LineItem>, p: Product)
    requires WellFormed(cart)
    ensures WellFormed(AddToCart(cart, p))
    ensures IdSet(AddToCart(cart, p)) == IdSet(cart) + {p.id}
  {
    AddToCartIds(cart, p);
  }

  lemma IncrementedWellFormed(cart: seq<LineItem>, idx: nat)
    requires idx < |cart| && WellFormed(cart)
    ensures WellFormed(Incremented(cart, idx))
  {
  }

  lemma DecrementedWellFormed(cart: seq<LineItem>, idx: nat)
    requires idx < |cart| && WellFormed(cart)
    ensures WellFormed(Decremented(cart, idx))
  {
  }

  lemma RemoveAtWellFormed(cart: seq<LineItem>, idx: int)
    requires WellFormed(cart)
    ensures WellFormed(RemoveAt(cart, idx))
  {
    if 0 <= idx < |cart| {
      var r := RemoveAt(cart, idx);
      assert forall i :: 0 <= i < |r| ==> r[i] == cart[if i < idx then i else i + 1];
    }
  }

  // ---------------------------------------------------------------------------
  // Any sequence of "Add to Cart" presses

  /** The cart after adding `ps` in order, oldest press first. */
  function AddAll(cart: seq<LineItem>, ps: seq<Product>): seq<LineItem>
  {
    if ps == [] then cart else AddToCart(AddAll(cart, ps[..|ps| - 1]), ps[|ps| - 1])
  }

  /** How many of the presses in `ps` were for product `id`. */
  function Count(ps: seq<Product>, id: ProductId): nat
  {
    if ps == [] then 0 else Count(ps[..|ps| - 1], id) + (if ps[|ps| - 1].id == id then 1 else 0)
  }

  function QtyFor(id: ProductId): LineItem -> nat
  {
    (l: LineItem) => if l.productId == id then l.quantity else 0
  }

  /** Units of product `id` in the cart, summed over its lines. */
  function QuantityOf(cart: seq<LineItem>, id: ProductId): nat { SumOf(cart, QtyFor(id)) }

  lemma AddToCartQuantity(cart: seq<LineItem>, p: Product, id: ProductId)
    ensures QuantityOf(AddToCart(cart, p), id) == QuantityOf(cart, id) + (if p.id == id then 1 else 0)
  {
    AddToCartSum(cart, p, QtyFor(id));
  }

  lemma {:induction false} AbsentQuantity(cart: seq<LineItem>, id: ProductId)
    requires forall i :: 0 <= i < |cart| ==> cart[i].productId != id
    ensures QuantityOf(cart, id) == 0
  {
    if cart != [] {
      AbsentQuantity(cart[..|cart| - 1], id);
    }
  }

  /** With distinct products, a line's quantity is the product's quantity. */
  lemma {:induction false} LineQuantity(cart: seq<LineItem>, i: nat)
    requires DistinctIds(cart) && i < |cart|
    ensures QuantityOf(cart, cart[i].productId) == cart[i].quantity
  {
    var pre := cart[..|cart| - 1];
    if i == |cart| - 1 {
      AbsentQuantity(pre, cart[i].productId);
    } else {
      LineQuantity(pre, i);
    }
  }

  lemma {:induction false} AddAllQuantity(cart: seq<LineItem>, ps: seq<Product>, id: ProductId)
    ensures QuantityOf(AddAll(cart, ps), id) == QuantityOf(cart, id) + Count(ps, id)
  {
    if ps != [] {
      AddAllQuantity(cart, ps[..|ps| - 1], id);
      AddToCartQuantity(AddAll(cart, ps[..|ps| - 1]), ps[|ps| - 1], id);
    }
  }

  /** Earlier lines keep their position, product and snapshot; quantities only grow. */
  lemma {:induction false} AddAllKeepsLines(cart: seq<LineItem>, ps: seq<Product>)
    ensures |cart| <= |AddAll(cart, ps)|
    ensures forall i :: 0 <= i < |cart| ==>
      var l := AddAll(cart, ps)[i];
      l.productId == cart[i].productId && l.title == cart[i].title &&
      l.price == cart[i].price && l.quantity >= cart[i].quantity
  {
    if ps != [] {
      var mid := AddAll(cart, ps[..|ps| - 1]);
      AddAllKeepsLines(cart, ps[..|ps| - 1]);
      var r := AddToCart(mid, ps[|ps| - 1]);
      assert |mid| <= |r| && forall i :: 0 <= i < |mid| ==>
        r[i].productId == mid[i].productId && r[i].title == mid[i].title &&
        r[i].price == mid[i].price && r[i].quantity >= mid[i].quantity;
    }
  }

  /** The products pressed in `ps`. */
  ghost function PressedIds(ps: seq<Product>): set<ProductId>
  {
    set i | 0 <= i < |ps| :: ps[i].id
  }

  lemma PressedIdsSnoc(ps: seq<Product>)
    requires ps != []
    ensures PressedIds(ps) == PressedIds(ps[..|ps| - 1]) + {ps[|ps| - 1].id}
  {
    var init := ps[..|ps| - 1];
    forall x | x in PressedIds(ps) ensures x in PressedIds(init) + {ps[|ps| - 1].id} {
      var i :| 0 <= i < |ps| && ps[i].id == x;
      if i < |init| { assert init[i].id == x; }
    }
    forall x | x in PressedIds(init) ensures x in PressedIds(ps) {
      var i :| 0 <= i < |init| && init[i].id == x;
      assert ps[i].id == x;
    }
  }

  /** Any sequence of presses keeps products distinct, and the products in
      the cart become the old ones plus those pressed. */
  lemma {:induction false} AddAllIds(cart: seq<LineItem>, ps: seq<Product>)
    ensures DistinctIds(cart) ==> DistinctIds(AddAll(cart, ps))
    ensures IdSet(AddAll(cart, ps)) == IdSet(cart) + PressedIds(ps)
  {
    if ps != [] {
      var init := ps[..|ps| - 1];
      AddAllIds(cart, init);
      AddToCartIds(AddAll(cart, init), ps[|ps| - 1]);
      PressedIdsSnoc(ps);
    }
  }

  lemma {:induction false} AddAllWellFormed(cart: seq<LineItem>, ps: seq<Product>)
    requires WellFormed(cart)
    ensures WellFormed(AddAll(cart, ps))
  {
    if ps != [] {
      var init := ps[..|ps| - 1];
      AddAllWellFormed(cart, init);
      AddToCartWellFormed(AddAll(cart, init), ps[|ps| - 1]);
    }
  }

  /** Starting from a cart with distinct products, any sequence of presses
      leaves exactly one line per product that was in the cart or was pressed,
      and that line's quantity is its starting quantity plus the presses for
      it. */
  lemma AddAllLines(cart: seq<LineItem>, ps: seq<Product>)
    requires DistinctIds(cart)
    ensures var r := AddAll(cart, ps);
      DistinctIds(r) &&
      IdSet(r) == IdSet(cart) + PressedIds(ps) &&
      forall i :: 0 <= i < |r| ==> r[i].quantity == QuantityOf(cart, r[i].productId) + Count(ps, r[i].productId)
  {
    var r := AddAll(cart, ps);
    AddAllIds(cart, ps);
    forall i | 0 <= i < |r|
      ensures r[i].quantity == QuantityOf(cart, r[i].productId) + Count(ps, r[i].productId)
    {
      LineQuantity(r, i);
      AddAllQuantity(cart, ps, r[i].productId);
    }
  }

  /** From an empty cart, the line for a product holds exactly the number of
      presses for it. */
  lemma AddAllFromEmpty(ps: seq<Product>, i: nat)
    requires i < |AddAll([], ps)|
    ensures AddAll([], ps)[i].quantity == Count(ps, AddAll([], ps)[i].productId)
  {
    AddAllLines([], ps);
    var r := AddAll([], ps);
    AbsentQuantity([], r[i].productId);
  }
}
