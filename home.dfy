/** The state of the storefront's home page component and the handlers that
    change it: the cart (kept in step with its persisted copy), the product
    whose modal is open, the carousel index, and the cart and checkout panels. */
module Storefront {
  import opened Cart
  import opened Carousel

  class Home {
    /** The cart lines, in first-added order. */
    var cart: seq<LineItem>
    /** The copy of the cart held in persistent storage under "cart". */
    var saved: seq<LineItem>
    /** The product whose detail modal is open, if any. */
    var active: Option<Product>
    /** The image shown by the carousel. */
    var imageIndex: int
    var cartOpen: bool
    var checkoutOpen: bool

    /** While a product with images is open, the carousel shows one of them. */
    ghost predicate IndexInRange()
      reads this
    {
      active.Some? && active.value.imagesCount >= 1 ==> 0 <= imageIndex < active.value.imagesCount
    }

    /** Mounting the page: the cart is restored from storage, or starts empty
        when nothing is stored. */
    constructor (stored: Option<seq<LineItem>>)
      ensures cart == (if stored.Some? then stored.value else []) && saved == cart
      ensures active == None && imageIndex == 0 && !cartOpen && !checkoutOpen
    {
      cart := if stored.Some? then stored.value else [];
      active := None;
      imageIndex := 0;
      cartOpen := false;
      checkoutOpen := false;
      saved := cart;
    }

    /** "Add to Cart" in the product modal: merge by product, close the modal
        and open the cart panel. */
    method AddToCart(p: Product)
      modifies this
      ensures cart == Cart.AddToCart(old(cart), p) && saved == cart
      ensures ItemCount(cart) == old(ItemCount(cart)) + 1
      ensures old(WellFormed(cart)) ==> WellFormed(cart)
      ensures active == None && cartOpen
      ensures imageIndex == old(imageIndex) && checkoutOpen == old(checkoutOpen)
    {
      AddToCartTotal(cart, p);
      if WellFormed(cart) {
        AddToCartWellFormed(cart, p);
      }
      var prev := cart;
      var idx := FindIndex(prev, p.id);
      var next;
      if idx > -1 {
        var copy := prev;
        copy := copy[idx := copy[idx].(quantity := copy[idx].quantity + 1)];
        next := copy;
      } else {
        next := prev + [LineItem(p.id, p.title, p.price, 1)];
      }
      assert next == Cart.AddToCart(prev, p);
      cart := next;
      saved := cart;
      active := None;
      cartOpen := true;
    }

    /** The "-" button of line `idx`; the line is never taken below 1. */
    method Decrement(idx: nat)
      requires idx < |cart|
      modifies this`cart, this`saved
      ensures cart == Decremented(old(cart), idx) && saved == cart
      ensures old(cart[idx].quantity) >= 2 ==> Total(cart) + old(cart[idx].price) == old(Total(cart))
      ensures old(cart[idx].quantity) == 1 ==> cart == old(cart)
      ensures old(WellFormed(cart)) ==> WellFormed(cart)
    {
      ghost var before := cart;
      var c := cart;
      var q: int := c[idx].quantity - 1;
      c := c[idx := c[idx].(quantity := if 1 > q then 1 else q)];
      cart := c;
      saved := cart;
      DecrementedTotal(before, idx);
      if WellFormed(before) {
        DecrementedWellFormed(before, idx);
      }
    }

    /** The "+" button of line `idx`; there is no upper bound. */
    method Increment(idx: nat)
      requires idx < |cart|
      modifies this`cart, this`saved
      ensures cart == Incremented(old(cart), idx) && saved == cart
      ensures Total(cart) == old(Total(cart)) + old(cart[idx].price)
      ensures ItemCount(cart) == old(ItemCount(cart)) + 1
      ensures old(WellFormed(cart)) ==> WellFormed(cart)
    {
      ghost var before := cart;
      var c := cart;
      c := c[idx := c[idx].(quantity := c[idx].quantity + 1)];
      cart := c;
      saved := cart;
      IncrementedTotal(before, idx);
      if WellFormed(before) {
        IncrementedWellFormed(before, idx);
      }
    }

    /** The trash button of line `idx`. */
    method Remove(idx: int)
      modifies this`cart, this`saved
      ensures cart == RemoveAt(old(cart), idx)
      ensures 0 <= idx < |old(cart)| ==> cart == old(cart[..idx] + cart[idx + 1..])
      ensures 0 <= idx < |old(cart)| ==> ItemCount(cart) + old(cart[idx].quantity) == old(ItemCount(cart))
      ensures !(0 <= idx < |old(cart)|) ==> cart == old(cart)
      ensures saved == cart
      ensures old(WellFormed(cart)) ==> WellFormed(cart)
    {
      ghost var before := cart;
      cart := RemoveAt(cart, idx);
      saved := cart;
      RemoveAtTotal(before, idx);
      if WellFormed(before) {
        RemoveAtWellFormed(before, idx);
      }
    }

    /** "Place Order" opens the delivery form; the button is disabled while the
        cart is empty. */
    method OpenCheckout()
      requires |cart| > 0
      modifies this`checkoutOpen
      ensures checkoutOpen
    {
      checkoutOpen := true;
    }

    /** The order request succeeded: the cart is emptied, in storage too, and
        both panels close. */
    method OrderPlaced()
      modifies this`cart, this`saved, this`checkoutOpen, this`cartOpen
      ensures cart == [] && saved == [] && Total(cart) == 0 && ItemCount(cart) == 0
      ensures !checkoutOpen && !cartOpen
    {
      cart := [];
      saved := cart;
      checkoutOpen := false;
      cartOpen := false;
    }

    /** A product card's "View": `p` is the detail the catalog returned; the
        carousel starts on the first image. */
    method OpenProduct(p: Product)
      modifies this`active, this`imageIndex
      ensures active == Some(p) && imageIndex == 0
      ensures IndexInRange()
    {
      active := Some(p);
      imageIndex := 0;
    }

    /** The modal's close button. */
    method CloseProduct()
      modifies this`active
      ensures active == None
    {
      active := None;
    }

    /** "Next" or a left swipe. */
    method NextImage()
      requires active.Some?
      modifies this`imageIndex
      ensures imageIndex == NextIndex(active.value.imagesCount, old(imageIndex))
      ensures old(IndexInRange()) ==> IndexInRange()
    {
      imageIndex := if active.value.imagesCount - 1 < imageIndex + 1 then active.value.imagesCount - 1 else imageIndex + 1;
    }

    /** "Prev" or a right swipe. */
    method PrevImage()
      modifies this`imageIndex
      ensures imageIndex == PrevIndex(old(imageIndex))
      ensures old(IndexInRange()) ==> IndexInRange()
    {
      imageIndex := if 0 > imageIndex - 1 then 0 else imageIndex - 1;
    }

    /** A dot under the image; dots exist for indices `0 .. imagesCount - 1`. */
    method ShowImage(idx: int)
      requires active.Some? && 0 <= idx < active.value.imagesCount
      modifies this`imageIndex
      ensures imageIndex == idx && IndexInRange()
    {
      imageIndex := idx;
    }
  }
}
