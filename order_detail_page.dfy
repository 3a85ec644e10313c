/**
 * The order page (src/pages/OrderDetailPage.jsx): the sign-in redirect and
 * the order fetch on mount, and the payment flow: the provider order for the
 * amount in paise, the options the payment widget is opened with, and the
 * widget's success and dismiss callbacks. The widget itself and the script
 * that loads it are not modelled: whether the SDK is present is the parameter
 * `sdkLoaded`, opening the widget is the returned `Checkout` value, and the
 * browser alerts are the returned `notice` ("" for none). Clocks are the
 * parameters `now` (milliseconds) and `nowIso` (`new Date().toISOString()`).
 */
module OrderDetailPage {
  import opened Wrappers
  import opened Text
  import opened Api
  import AuthContext
  import OrderService
  import PaymentService

  const LoginPath := "/login"
  const FallbackKey := "rzp_test_IuMAdXrnMrVoQM"
  const Currency := "INR"
  const StoreName := "QuickCart Store"
  const LoadFailed := "Failed to load order"
  const SdkMissing := "Razorpay SDK failed to load. Please refresh the page and try again."
  const PaymentOrderFailed := "Failed to create payment order"
  const GenericPaymentError := "An error occurred. Please try again."
  const PaymentSucceeded := "Payment successful! Your order has been paid."
  const PaymentVerificationFailed := "Payment verification failed. Please contact support."
  const ShortIdLength := 6

  /**
   * `Math.round(totalPrice * 100)` on an exact decimal price: the nearest whole number of
   * paise, halves rounding up.
   */
  function AmountInPaise(totalPrice: real): (r: int)
    ensures r as real - 0.5 <= totalPrice * 100.0 < r as real + 0.5
  {
    (totalPrice * 100.0 + 0.5).Floor
  }

  /** A price in whole paise is sent exactly. */
  lemma WholePaiseExact(paise: int)
    ensures AmountInPaise(paise as real / 100.0) == paise
  {
  }

  /** 199.99 rupees go out as 19999 paise, and 0.005 rounds up to one paisa. */
  lemma AmountExamples()
    ensures AmountInPaise(199.99) == 19999
    ensures AmountInPaise(0.005) == 1
  {
  }

  /** The order number shown for an order: the last six characters of its `_id`, upper-cased. */
  function ShortOrderNumber(orderId: string): (r: string)
    ensures |r| == if |orderId| <= ShortIdLength then |orderId| else ShortIdLength
    ensures r == Upper(orderId[|orderId| - |r|..])
    ensures forall i :: 0 <= i < |r| ==> !('a' <= r[i] <= 'z')
  {
    var tail := TakeLast(orderId, ShortIdLength);
    assert tail == orderId[|orderId| - |tail|..];
    UpperHasNoLowerCase(tail);
    Upper(tail)
  }

  /** The payment record sent to mark the order paid: the widget's three ids, "succeeded", the time. */
  function PaymentResultOf(payment: PaymentResponse, nowIso: string): (r: PaymentResult)
    ensures r.paymentIntentId == payment.razorpayPaymentId
    ensures r.razorpayOrderId == payment.razorpayOrderId
    ensures r.razorpaySignature == payment.razorpaySignature
    ensures r.status == "succeeded" && r.updatedAt == nowIso
  {
    PaymentResult(payment.razorpayPaymentId, payment.razorpayOrderId, payment.razorpaySignature, "succeeded", nowIso)
  }

  /** The provider-order request for an order: its amount in paise, rupees, and its `_id` as receipt. */
  function ProviderOrderFor(order: Body): (r: PaymentService.ProviderOrderInput)
    ensures r.amount == AmountInPaise(order.totalPrice)
    ensures r.currency == Currency && r.receipt == order.dbId && r.notes.None?
  {
    PaymentService.ProviderOrderInput(AmountInPaise(order.totalPrice), Currency, order.dbId, None)
  }

  /** The options the payment widget is opened with. */
  datatype Checkout = Checkout(
    key: string,
    amount: int,
    currency: string,
    name: string,
    description: string,
    orderId: string,
    prefillName: string,
    prefillEmail: string,
    notesOrderId: string)

  /**
   * The widget options for an order and the provider's reply: the reply's key, else the fixed
   * fallback key; the provider order's id; the order's own number in the description.
   */
  function CheckoutFor(order: Body, response: Body): (w: Checkout)
    requires response.order.Some?
    ensures w.key == (if response.keyId != "" then response.keyId else FallbackKey) && w.key != ""
    ensures w.amount == AmountInPaise(order.totalPrice) && w.currency == Currency && w.name == StoreName
    ensures w.orderId == response.order.value.id && w.notesOrderId == order.dbId
    ensures w.description == "Payment for Order #" + ShortOrderNumber(order.dbId)
    ensures w.prefillName == order.userName && w.prefillEmail == order.userEmail
  {
    Checkout(OrElse(response.keyId, FallbackKey), AmountInPaise(order.totalPrice), Currency, StoreName,
             "Payment for Order #" + ShortOrderNumber(order.dbId), response.order.value.id,
             OrElse(order.userName, ""), OrElse(order.userEmail, ""), order.dbId)
  }

  class OrderDetailView {
    /** The `:id` route parameter. */
    const id: string
    var order: Option<Body>
    var loading: bool
    /** `error`; "" stands for null. */
    var error: string
    var paymentLoading: bool
    /** The page navigated to, "" while it has not, and the `from` it passed along. */
    var location: string
    var from: string

    constructor (routeId: string)
      ensures id == routeId && order.None? && loading && error == "" && !paymentLoading
      ensures location == "" && from == ""
    {
      id := routeId;
      order := None;
      loading := true;
      error := "";
      paymentLoading := false;
      location := "";
      from := "";
    }

    /**
     * The mount effect: a signed-out visitor is sent to the login page with this order as the
     * way back, and nothing is fetched; otherwise the order is fetched. Returns the request sent.
     */
    method Mount(auth: AuthContext.AuthProvider, reply: Reply) returns (sent: Option<Request>)
      modifies this
      ensures !auth.IsAuthenticated() ==>
        sent.None? && location == LoginPath && from == "/order/" + id &&
        order == old(order) && loading == old(loading) && error == old(error)
      ensures auth.IsAuthenticated() ==>
        var c := OrderService.GetOrderById(auth.storage, id, reply);
        sent == c.sent && !loading && location == old(location) && from == old(from) &&
        match c.outcome
        case Success(data) => order == Some(data) && error == old(error)
        case Failure(m) => order == old(order) && error == (if m != "" then m else LoadFailed)
      ensures paymentLoading == old(paymentLoading)
    {
      if !auth.IsAuthenticated() {
        location := LoginPath;
        from := "/order/" + id;
        return None;
      }
      var c := OrderService.GetOrderById(auth.storage, id, reply);
      sent := c.sent;
      match c.outcome {
        case Success(data) =>
          order := Some(data);
          loading := false;
        case Failure(m) =>
          error := OrElse(m, LoadFailed);
          loading := false;
      }
    }

    /**
     * `handlePayment`. A missing SDK fails before any request; a failed provider-order call or a
     * reply without `order.id` fails before the widget opens; otherwise the widget opens and
     * `paymentLoading` stays set until one of its callbacks runs.
     */
    method HandlePayment(auth: AuthContext.AuthProvider, sdkLoaded: bool, now: nat, reply: Reply)
      returns (sent: Option<Request>, widget: Option<Checkout>, notice: string)
      requires order.Some?
      modifies this
      ensures order == old(order) && loading == old(loading) && error == old(error)
      ensures location == old(location) && from == old(from)
      ensures widget.Some? <==> paymentLoading
      ensures !sdkLoaded ==> sent.None? && widget.None? && notice == SdkMissing
      ensures sdkLoaded ==>
        var c := PaymentService.CreateRazorpayOrder(auth.storage, ProviderOrderFor(order.value), now, reply);
        sent == c.sent &&
        match c.outcome
        case Failure(m) => widget.None? && notice == (if m != "" then m else GenericPaymentError)
        case Success(response) =>
          if response.order.None? || response.order.value.id == "" then
            widget.None? && notice == PaymentOrderFailed
          else
            widget == Some(CheckoutFor(order.value, response)) && notice == ""
    {
      paymentLoading := true;
      widget := None;
      notice := "";
      if !sdkLoaded {
        notice := SdkMissing;
        paymentLoading := false;
        return None, widget, notice;
      }
      var o := order.value;
      var c := PaymentService.CreateRazorpayOrder(auth.storage, ProviderOrderFor(o), now, reply);
      sent := c.sent;
      match c.outcome {
        case Failure(m) =>
          notice := OrElse(m, GenericPaymentError);
          paymentLoading := false;
        case Success(response) =>
          if response.order.None? || response.order.value.id == "" {
            notice := PaymentOrderFailed;
            paymentLoading := false;
          } else {
            widget := Some(CheckoutFor(o, response));
          }
      }
    }

    /**
     * The widget's success callback: the order is marked paid with the payment record; the
     * updated order replaces the shown one on success; `paymentLoading` ends either way.
     */
    method OnPaymentSuccess(auth: AuthContext.AuthProvider, payment: PaymentResponse, nowIso: string, reply: Reply)
      returns (sent: Option<Request>, notice: string)
      requires order.Some?
      modifies this
      ensures var c := OrderService.UpdateOrderToPaid(auth.storage, old(order).value.dbId, PaymentResultOf(payment, nowIso), reply);
        sent == c.sent &&
        match c.outcome
        case Success(updated) => order == Some(updated) && notice == PaymentSucceeded
        case Failure(_) => order == old(order) && notice == PaymentVerificationFailed
      ensures !paymentLoading
      ensures loading == old(loading) && error == old(error) && location == old(location) && from == old(from)
    {
      var paymentResult := PaymentResultOf(payment, nowIso);
      var c := OrderService.UpdateOrderToPaid(auth.storage, order.value.dbId, paymentResult, reply);
      sent := c.sent;
      match c.outcome {
        case Success(updated) =>
          order := Some(updated);
          notice := PaymentSucceeded;
        case Failure(_) =>
          notice := PaymentVerificationFailed;
      }
      paymentLoading := false;
    }

    /** The widget closed without paying: only `paymentLoading` is reset. */
    method Dismiss()
      modifies this
      ensures !paymentLoading
      ensures order == old(order) && loading == old(loading) && error == old(error)
      ensures location == old(location) && from == old(from)
    {
      paymentLoading := false;
    }
  }

  /** A signed-out visit to an order page sends no request, whatever the server would answer. */
  lemma SignedOutFetchesNothing(storage: map<string, string>, orderId: string, reply: Reply)
    ensures OrderService.GetOrderById(AuthContext.SignedOutStorage(storage), orderId, reply).sent.None?
  {
    OrderService.SignedOutSendsNothing(storage, OrderData([], ShippingAddress("", "", "", ""), "", 0.0, 0.0, 0.0, 0.0),
                                       orderId, PaymentResult("", "", "", "", ""), reply);
  }
}
