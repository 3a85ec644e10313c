/**
 * The payment calls of src/services/paymentService.js: creating a provider
 * order, verifying a payment and reading its details. The token lookup and
 * the request shape are those of the order calls; the first two calls catch
 * an unreadable error body and report the status instead.
 */
module PaymentService {
  import opened Wrappers
  import opened Text
  import opened Api
  import opened SessionToken
  import OrderService

  const CheckoutLogin := "You must be logged in to checkout"
  const VerifyLogin := "You must be logged in to verify payment"
  const DetailsLogin := "You must be logged in to get payment details"
  const DefaultCurrency := "INR"
  const DefaultNotes: seq<(string, string)> := [("source", "ecommerce-website")]

  /** What the caller passes to `createRazorpayOrder`; "" and `None` stand for absent members. */
  datatype ProviderOrderInput = ProviderOrderInput(amount: int, currency: string, receipt: string, notes: Option<seq<(string, string)>>)

  /** The request body: the amount forwarded, the other members defaulted when absent. */
  function ProviderOrderBody(input: ProviderOrderInput, now: nat): (r: ProviderOrderRequest)
    ensures r.amount == input.amount
    ensures r.currency == (if input.currency == "" then DefaultCurrency else input.currency)
    ensures r.receipt == (if input.receipt == "" then "receipt_" + NatToString(now) else input.receipt)
    ensures r.notes == (if input.notes.None? then DefaultNotes else input.notes.value)
    ensures r.currency != "" && r.receipt != ""
  {
    ProviderOrderRequest(
      input.amount,
      OrElse(input.currency, DefaultCurrency),
      OrElse(input.receipt, "receipt_" + NatToString(now)),
      input.notes.GetOr(DefaultNotes))
  }

  /** `createRazorpayOrder` */
  function CreateRazorpayOrder(storage: map<string, string>, input: ProviderOrderInput, now: nat, reply: Reply): (c: Call)
    ensures c.sent.Some? <==> StoredToken(storage).Found?
    ensures c.sent.Some? ==>
      c.sent.value == Request("POST", "/api/payment/create-razorpay-order", StoredToken(storage).token,
                              ProviderOrderPayload(ProviderOrderBody(input, now)))
    ensures StoredToken(storage).Missing? ==> c.outcome == Failure(CheckoutLogin)
    ensures StoredToken(storage).Unreadable? ==> c.outcome == Failure(SyntaxErrorText)
    ensures c.sent.Some? ==> c.outcome == SettleGuarded(reply)
    ensures c.outcome.Success? ==> reply.Reply? && reply.ok && reply.body == Some(c.outcome.value)
  {
    OrderService.Dispatch(StoredToken(storage), CheckoutLogin,
      Request("POST", "/api/payment/create-razorpay-order", "", ProviderOrderPayload(ProviderOrderBody(input, now))),
      SettleGuarded(reply))
  }

  /** `verifyPayment`: the widget's payment data is forwarded as it is. */
  function VerifyPayment(storage: map<string, string>, paymentData: PaymentResponse, reply: Reply): (c: Call)
    ensures c.sent.Some? <==> StoredToken(storage).Found?
    ensures c.sent.Some? ==> c.sent.value == Request("POST", "/api/payment/verify-upi", StoredToken(storage).token, VerifyPayload(paymentData))
    ensures StoredToken(storage).Missing? ==> c.outcome == Failure(VerifyLogin)
    ensures StoredToken(storage).Unreadable? ==> c.outcome == Failure(SyntaxErrorText)
    ensures c.sent.Some? ==> c.outcome == SettleGuarded(reply)
    ensures c.outcome.Success? ==> reply.Reply? && reply.ok && reply.body == Some(c.outcome.value)
  {
    OrderService.Dispatch(StoredToken(storage), VerifyLogin,
      Request("POST", "/api/payment/verify-upi", "", VerifyPayload(paymentData)), SettleGuarded(reply))
  }

  /** `getPaymentDetails`: no guard around the error body here, so an unreadable one throws. */
  function GetPaymentDetails(storage: map<string, string>, paymentId: string, reply: Reply): (c: Call)
    ensures c.sent.Some? <==> StoredToken(storage).Found?
    ensures c.sent.Some? ==> c.sent.value == Request("GET", "/api/payment/" + paymentId, StoredToken(storage).token, NoPayload)
    ensures StoredToken(storage).Missing? ==> c.outcome == Failure(DetailsLogin)
    ensures StoredToken(storage).Unreadable? ==> c.outcome == Failure(SyntaxErrorText)
    ensures c.sent.Some? ==> c.outcome == Settle(reply)
    ensures c.outcome.Success? ==> reply.Reply? && reply.ok && reply.body == Some(c.outcome.value)
  {
    OrderService.Dispatch(StoredToken(storage), DetailsLogin,
      Request("GET", "/api/payment/" + paymentId, "", NoPayload), Settle(reply))
  }

  /**
   * A non-OK reply throws its body's message when there is one, "Failed with status: N" when
   * the body has none, and "Request failed with status: N" when the body cannot be read.
   */
  lemma CreateFailureMessages(storage: map<string, string>, input: ProviderOrderInput, now: nat, status: nat, body: Option<Body>)
    requires StoredToken(storage).Found?
    ensures var c := CreateRazorpayOrder(storage, input, now, Reply(false, status, body));
      c.outcome.Failure? &&
      (body.Some? && body.value.message != "" ==> c.outcome.message == body.value.message) &&
      (body.Some? && body.value.message == "" ==> c.outcome.message == "Failed with status: " + NatToString(status)) &&
      (body.None? ==> c.outcome.message == "Request failed with status: " + NatToString(status))
  {
  }
}
