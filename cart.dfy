/**
 * The cart drawer's checkout (src/components/Cart.jsx): the guards, the order
 * request built from the cart, the order call, and what the drawer shows
 * afterwards; plus the effect that closes the drawer on logout. A page
 * navigation is recorded as the target path in `location`.
 */
module Cart {
  import opened Wrappers
  import opened Text
  import opened Api
  import opened CartContext
  import AuthContext
  import OrderService

  const LoginToCheckout := "You need to be logged in to checkout. Please login."
  const EmptyCart := "Your cart is empty. Add items before checkout."
  const InvalidResponse := "Failed to create order. The server response was invalid."
  /** The alert before moving to a new order; the order id follows it. */
  const OrderCreated := "Order created successfully! Order ID: "
  const SessionExpired := "Your session has expired. Please log in again."
  const PaymentSystemError := "Payment system error. Please try again later or contact support."
  const OrderFailed := "Failed to create order. Please try again."

  const FixedAddress := ShippingAddress("123 Example St", "Test City", "12345", "India")

  /** One order line per cart line: its name, quantity, image and price, and `id || _id`. */
  function OrderItemOf(item: LineItem): (o: OrderItem)
    ensures o.quantity == item.quantity && o.price == item.product.price
    ensures o.name == item.product.name && o.image == item.product.image
    ensures o.product == ProductId(item.product)
  {
    OrderItem(item.product.name, item.quantity, item.product.image, item.product.price, ProductId(item.product))
  }

  /** The order request for a cart: free shipping, no tax, the fixed address, total = cart total. */
  function OrderRequest(items: seq<LineItem>): (d: OrderData)
    ensures |d.orderItems| == |items|
    ensures forall i :: 0 <= i < |items| ==> d.orderItems[i] == OrderItemOf(items[i])
    ensures d.itemsPrice == Total(items) && d.totalPrice == Total(items)
    ensures d.shippingPrice == 0.0 && d.taxPrice == 0.0
    ensures d.paymentMethod == "Stripe" && d.shippingAddress == FixedAddress
  {
    OrderData(seq(|items|, i requires 0 <= i < |items| => OrderItemOf(items[i])),
              FixedAddress, "Stripe", Total(items), 0.0, 0.0, Total(items))
  }

  /** The sum of price times quantity over order lines. */
  function LinesTotal(lines: seq<OrderItem>): real {
    if lines == [] then 0.0 else lines[0].price * lines[0].quantity as real + LinesTotal(lines[1..])
  }

  /** The total the request claims is the sum over the lines it sends. */
  lemma {:induction false} OrderRequestTotal(items: seq<LineItem>)
    ensures LinesTotal(OrderRequest(items).orderItems) == OrderRequest(items).totalPrice
    decreases |items|
  {
    if items != [] {
      OrderRequestTotal(items[1..]);
      assert OrderRequest(items).orderItems[1..] == OrderRequest(items[1..]).orderItems;
    }
  }

  /** The error text the drawer shows for a failed order call, and whether it opens the login modal. */
  function Classify(message: string): (r: (string, bool))
    ensures r.0 != ""
    ensures r.1 <==> Contains(message, "Authentication")
    ensures Contains(message, "Authentication") ==> r.0 == SessionExpired
    ensures !Contains(message, "Authentication") && Contains(message, "Payment gateway") ==> r.0 == PaymentSystemError
    ensures !Contains(message, "Authentication") && !Contains(message, "Payment gateway") ==>
      r.0 == (if message == "" then OrderFailed else message)
  {
    if message != "" && Contains(message, "Authentication") then (SessionExpired, true)
    else if message != "" && Contains(message, "Payment gateway") then (PaymentSystemError, false)
    else (OrElse(message, OrderFailed), false)
  }

  /** The id of the created order in a create-order reply: `result.order._id`, "" when absent. */
  function CreatedOrderId(body: Body): (r: string)
    ensures body.order.None? ==> r == ""
    ensures body.order.Some? ==> r == body.order.value.dbId
  {
    if body.order.Some? then body.order.value.dbId else ""
  }

  class CartDrawer {
    var showLoginModal: bool
    var isProcessing: bool
    /** `checkoutError`; "" stands for null. */
    var checkoutError: string
    /** The page the drawer navigated to, "" while it has not. */
    var location: string

    constructor ()
      ensures !showLoginModal && !isProcessing && checkoutError == "" && location == ""
    {
      showLoginModal := false;
      isProcessing := false;
      checkoutError := "";
      location := "";
    }

    method CloseLoginModal()
      modifies this
      ensures !showLoginModal
      ensures isProcessing == old(isProcessing) && checkoutError == old(checkoutError) && location == old(location)
    {
      showLoginModal := false;
    }

    /**
     * `handleCheckout`. Returns the request the order call sent, if any, and the alert shown
     * ("" for none). The cart's lines never change; on success the drawer closes, the alert
     * names the new order and the page moves to it.
     */
    method HandleCheckout(cart: CartProvider, auth: AuthContext.AuthProvider, reply: Reply)
      returns (sent: Option<Request>, notice: string)
      modifies this, cart
      ensures cart.cartItems == old(cart.cartItems)
      ensures !auth.IsAuthenticated() ==>
        sent.None? && notice == "" && checkoutError == LoginToCheckout && showLoginModal &&
        isProcessing == old(isProcessing) && location == old(location) && cart.isCartOpen == old(cart.isCartOpen)
      ensures auth.IsAuthenticated() && cart.cartItems == [] ==>
        sent.None? && notice == "" && checkoutError == EmptyCart && showLoginModal == old(showLoginModal) &&
        isProcessing == old(isProcessing) && location == old(location) && cart.isCartOpen == old(cart.isCartOpen)
      ensures auth.IsAuthenticated() && cart.cartItems != [] ==>
        var c := OrderService.CreateOrder(auth.storage, OrderRequest(cart.cartItems), reply);
        sent == c.sent &&
        match c.outcome
        case Failure(m) =>
          notice == "" && checkoutError == Classify(m).0 && showLoginModal == (old(showLoginModal) || Classify(m).1) &&
          !isProcessing && location == old(location) && cart.isCartOpen == old(cart.isCartOpen)
        case Success(result) =>
          if CreatedOrderId(result) == "" then
            notice == "" && checkoutError == InvalidResponse && showLoginModal == old(showLoginModal) &&
            !isProcessing && location == old(location) && cart.isCartOpen == old(cart.isCartOpen)
          else
            checkoutError == "" && showLoginModal == old(showLoginModal) && isProcessing &&
            location == "/order/" + CreatedOrderId(result) && cart.isCartOpen == !old(cart.isCartOpen) &&
            notice == OrderCreated + CreatedOrderId(result)
    {
      notice := "";
      if !auth.IsAuthenticated() {
        checkoutError := LoginToCheckout;
        showLoginModal := true;
        return None, notice;
      }
      if cart.cartItems == [] {
        checkoutError := EmptyCart;
        return None, notice;
      }
      isProcessing := true;
      checkoutError := "";
      var orderData := OrderRequest(cart.cartItems);
      var call := OrderService.CreateOrder(auth.storage, orderData, reply);
      sent := call.sent;
      match call.outcome {
        case Success(result) =>
          if CreatedOrderId(result) == "" {
            checkoutError := InvalidResponse;
            isProcessing := false;
            return;
          }
          var orderId := CreatedOrderId(result);
          cart.ToggleCart();
          notice := OrderCreated + orderId;
          location := "/order/" + orderId;
        case Failure(message) =>
          var (text, opensLogin) := Classify(message);
          checkoutError := text;
          if opensLogin {
            showLoginModal := true;
          }
          isProcessing := false;
      }
    }
  }

  /** The effect that closes an open drawer once nobody is signed in. */
  method CloseOnLogout(cart: CartProvider, auth: AuthContext.AuthProvider)
    modifies cart
    ensures cart.isCartOpen == (old(cart.isCartOpen) && auth.IsAuthenticated())
    ensures cart.cartItems == old(cart.cartItems)
  {
    if !auth.IsAuthenticated() && cart.isCartOpen {
      cart.ToggleCart();
    }
  }

  /** A checkout by a signed-out visitor sends nothing, whatever the server would answer. */
  lemma SignedOutCheckoutSendsNothing(storage: map<string, string>, items: seq<LineItem>, reply: Reply)
    ensures OrderService.CreateOrder(AuthContext.SignedOutStorage(storage), OrderRequest(items), reply).sent.None?
  {
    OrderService.SignedOutSendsNothing(storage, OrderRequest(items), "", PaymentResult("", "", "", "", ""), reply);
  }
}
