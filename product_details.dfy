/**
 * The product page (src/components/ProductDetails.jsx): the image list, the
 * quantity selector with its clamps, and the add-to-cart that adds the
 * product once per selected unit. The product fetch is left out: the loaded
 * product is handed to `ReceiveProduct`.
 */
module ProductDetails {
  import opened Wrappers
  import opened Text
  import opened CartContext
  import AuthContext

  /** The gallery: the product's own images when it has any, else just its main image. */
  function ProductImages(data: Product): (r: seq<string>)
    ensures r != []
    ensures |data.images| > 0 ==> r == data.images
    ensures |data.images| == 0 ==> r == [data.image]
  {
    if |data.images| > 0 then data.images else [data.image]
  }

  /** The cart after `n` calls of `addToCart(p)`. */
  function AddedTimes(items: seq<LineItem>, p: Product, n: int): seq<LineItem>
    decreases n
  {
    if n <= 0 then items else Added(AddedTimes(items, p, n - 1), p)
  }

  /** Adding a product `n` times to a cart that has a line for it raises each of its lines by `n`. */
  lemma {:induction false} AddedTimesExisting(items: seq<LineItem>, p: Product, n: nat)
    requires HasLine(items, p)
    ensures var r := AddedTimes(items, p, n);
      |r| == |items| &&
      (forall i :: 0 <= i < |items| ==> r[i].product == items[i].product) &&
      (forall i :: 0 <= i < |items| && MatchesProduct(items[i], p) ==> r[i].quantity == items[i].quantity + n) &&
      (forall i :: 0 <= i < |items| && !MatchesProduct(items[i], p) ==> r[i] == items[i])
    decreases n
  {
    if n > 0 {
      var prev := AddedTimes(items, p, n - 1);
      AddedTimesExisting(items, p, n - 1);
      var i :| 0 <= i < |items| && MatchesProduct(items[i], p);
      assert MatchesProduct(prev[i], p);
      assert AddedTimes(items, p, n) == Bump(prev, p);
    }
  }

  /** Adding a product `n > 0` times to a cart without a line for it appends one line of `n` units. */
  lemma {:induction false} AddedTimesNew(items: seq<LineItem>, p: Product, n: nat)
    requires !HasLine(items, p) && n > 0
    ensures AddedTimes(items, p, n) == items + [LineItem(Normalize(p), n)]
    decreases n
  {
    if n == 1 {
      assert AddedTimes(items, p, 0) == items;
    } else {
      var prev := AddedTimes(items, p, n - 1);
      AddedTimesNew(items, p, n - 1);
      var last := |prev| - 1;
      assert prev[last] == LineItem(Normalize(p), n - 1);
      assert MatchesProduct(prev[last], p);
      var r := AddedTimes(items, p, n);
      assert r == Bump(prev, p);
      forall i | 0 <= i < |items| ensures r[i] == items[i] {
        assert prev[i] == items[i];
      }
    }
  }

  class ProductDetailsView {
    var product: Option<Product>
    var productImages: seq<string>
    var quantity: int
    var addedToCart: bool
    var loginRequired: bool
    var showLoginModal: bool

    /** The selected quantity is at least one (a cleared box, which the source turns into `NaN`, is not modelled). */
    ghost predicate Valid()
      reads this
    {
      quantity >= 1
    }

    constructor ()
      ensures Valid() && quantity == 1 && product.None? && productImages == []
      ensures !addedToCart && !loginRequired && !showLoginModal
    {
      product := None;
      productImages := [];
      quantity := 1;
      addedToCart := false;
      loginRequired := false;
      showLoginModal := false;
    }

    /** The fetched product arrives. */
    method ReceiveProduct(data: Product)
      modifies this
      ensures product == Some(data) && productImages == ProductImages(data)
      ensures quantity == old(quantity) && addedToCart == old(addedToCart)
      ensures loginRequired == old(loginRequired) && showLoginModal == old(showLoginModal)
    {
      product := Some(data);
      if |data.images| > 0 {
        productImages := data.images;
      } else {
        productImages := [data.image];
      }
    }

    /** `handleQuantityChange` for an integer typed into the box: below one reads as one. */
    method HandleQuantityChange(value: int)
      modifies this
      ensures Valid()
      ensures value >= 1 ==> quantity == value
      ensures value < 1 ==> quantity == 1
      ensures product == old(product) && productImages == old(productImages) && addedToCart == old(addedToCart)
      ensures loginRequired == old(loginRequired) && showLoginModal == old(showLoginModal)
    {
      quantity := if value < 1 then 1 else value;
    }

    /** The "-" button: `Math.max(prev - 1, 1)`. */
    method Decrement()
      modifies this
      ensures quantity == Max(old(quantity) - 1, 1) && Valid()
      ensures product == old(product) && productImages == old(productImages) && addedToCart == old(addedToCart)
      ensures loginRequired == old(loginRequired) && showLoginModal == old(showLoginModal)
    {
      quantity := Max(quantity - 1, 1);
    }

    /** The "+" button, shown only for a loaded product in stock: `Math.min(prev + 1, countInStock)`. */
    method Increment()
      requires Valid() && product.Some? && product.value.countInStock > 0
      modifies this
      ensures product == old(product) && productImages == old(productImages) && addedToCart == old(addedToCart)
      ensures quantity == Min(old(quantity) + 1, product.value.countInStock) && Valid()
      ensures quantity <= product.value.countInStock
      ensures loginRequired == old(loginRequired) && showLoginModal == old(showLoginModal)
    {
      quantity := Min(quantity + 1, product.value.countInStock);
    }

    /**
     * `handleAddToCart`: a signed-out visitor gets the login prompt; otherwise a loaded product,
     * with its id normalised, goes into the cart once per selected unit.
     */
    method HandleAddToCart(cart: CartProvider, auth: AuthContext.AuthProvider)
      requires cart.Valid()
      modifies this, cart
      ensures cart.Valid() && cart.isCartOpen == old(cart.isCartOpen)
      ensures !auth.IsAuthenticated() ==>
        cart.cartItems == old(cart.cartItems) && loginRequired && showLoginModal && addedToCart == old(addedToCart)
      ensures auth.IsAuthenticated() && product.None? ==>
        cart.cartItems == old(cart.cartItems) && addedToCart == old(addedToCart)
      ensures auth.IsAuthenticated() && product.Some? ==>
        cart.cartItems == AddedTimes(old(cart.cartItems), Normalize(product.value), quantity) && addedToCart
      ensures auth.IsAuthenticated() ==> loginRequired == old(loginRequired) && showLoginModal == old(showLoginModal)
      ensures product == old(product) && quantity == old(quantity) && productImages == old(productImages)
    {
      if !auth.IsAuthenticated() {
        loginRequired := true;
        showLoginModal := true;
        return;
      }
      if product.Some? {
        var enhancedProduct := Normalize(product.value);
        var i := 0;
        while i < quantity
          invariant 0 <= i && (i <= quantity || i == 0)
          invariant cart.Valid() && cart.isCartOpen == old(cart.isCartOpen)
          invariant cart.cartItems == AddedTimes(old(cart.cartItems), enhancedProduct, i)
          invariant product == old(product) && quantity == old(quantity) && productImages == old(productImages)
          invariant loginRequired == old(loginRequired) && showLoginModal == old(showLoginModal)
        {
          cart.AddToCart(enhancedProduct);
          i := i + 1;
        }
        addedToCart := true;
      }
    }

    method CloseLoginModal()
      modifies this
      ensures !showLoginModal && loginRequired == old(loginRequired) && addedToCart == old(addedToCart)
      ensures product == old(product) && quantity == old(quantity) && productImages == old(productImages)
    {
      showLoginModal := false;
    }

    /** The timer after a refused add hides the login message. */
    method LoginRequiredElapsed()
      modifies this
      ensures !loginRequired && showLoginModal == old(showLoginModal) && addedToCart == old(addedToCart)
      ensures product == old(product) && quantity == old(quantity) && productImages == old(productImages)
    {
      loginRequired := false;
    }

    /** The timer after an add hides the confirmation. */
    method AddedElapsed()
      modifies this
      ensures !addedToCart && loginRequired == old(loginRequired) && showLoginModal == old(showLoginModal)
      ensures product == old(product) && quantity == old(quantity) && productImages == old(productImages)
    {
      addedToCart := false;
    }
  }

  /**
   * Adding a product `n` times raises the item count by `n` for each line of the product,
   * or by `n` for the one new line.
   */
  lemma AddedTimesCount(items: seq<LineItem>, p: Product, n: nat)
    ensures Count(AddedTimes(items, p, n)) == Count(items) + n * (if HasLine(items, p) then MatchCount(items, p) else 1)
  {
    if n > 0 {
      if HasLine(items, p) {
        AddedTimesExisting(items, p, n);
        CountBumpedBy(items, AddedTimes(items, p, n), p, n);
      } else {
        AddedTimesNew(items, p, n);
        CountAppend(items, [LineItem(Normalize(p), n)]);
      }
    }
  }

  /** A list that raises every line matching `p` by `n` and keeps the rest counts `n` more per matching line. */
  lemma {:induction false} CountBumpedBy(a: seq<LineItem>, b: seq<LineItem>, p: Product, n: nat)
    requires |a| == |b| && forall i :: 0 <= i < |a| ==> b[i].product == a[i].product
    requires forall i :: 0 <= i < |a| && MatchesProduct(a[i], p) ==> b[i].quantity == a[i].quantity + n
    requires forall i :: 0 <= i < |a| && !MatchesProduct(a[i], p) ==> b[i] == a[i]
    ensures Count(b) == Count(a) + n * MatchCount(a, p)
  {
    if a != [] {
      CountBumpedBy(a[1..], b[1..], p, n);
    }
  }
}
