/**
 * What the client sends to and receives from the order and payment back end.
 * The network is not modelled: a request is a value the services return, and
 * the server's answer is a `Reply` value handed in by the caller.
 */
module Api {
  import opened Wrappers
  import opened Text

  /** One line of an order request. */
  datatype OrderItem = OrderItem(name: string, quantity: int, image: string, price: real, product: string)

  datatype ShippingAddress = ShippingAddress(address: string, city: string, postalCode: string, country: string)

  /** The order request the cart drawer sends. */
  datatype OrderData = OrderData(
    orderItems: seq<OrderItem>,
    shippingAddress: ShippingAddress,
    paymentMethod: string,
    itemsPrice: real,
    shippingPrice: real,
    taxPrice: real,
    totalPrice: real)

  /** The payment record sent when an order is marked as paid. */
  datatype PaymentResult = PaymentResult(
    paymentIntentId: string,
    razorpayOrderId: string,
    razorpaySignature: string,
    status: string,
    updatedAt: string)

  /** What the payment widget hands to its success callback, and what payment verification forwards. */
  datatype PaymentResponse = PaymentResponse(razorpayPaymentId: string, razorpayOrderId: string, razorpaySignature: string)

  /** The body of a provider-order request: `notes` is an object of string members. */
  datatype ProviderOrderRequest = ProviderOrderRequest(amount: int, currency: string, receipt: string, notes: seq<(string, string)>)

  datatype Payload =
    | NoPayload
    | OrderPayload(order: OrderData)
    | PaidPayload(result: PaymentResult)
    | ProviderOrderPayload(request: ProviderOrderRequest)
    | VerifyPayload(response: PaymentResponse)

  /** One request: method, path below the API base URL, bearer token and JSON body. */
  datatype Request = Request(verb: string, path: string, token: string, payload: Payload)

  /** `{ _id, id }` nested under `order` in the create-order and provider-order replies. */
  datatype OrderRef = OrderRef(dbId: string, id: string)

  /**
   * The members of a reply body the client reads. An absent string member reads as "",
   * an absent `order` member as `None`.
   */
  datatype Body = Body(
    message: string,
    dbId: string,
    order: Option<OrderRef>,
    keyId: string,
    totalPrice: real,
    isPaid: bool,
    isDelivered: bool,
    itemCount: nat,
    userName: string,
    userEmail: string)

  /**
   * What `fetch` yields: a rejection (`Offline`), or a response with its `ok` flag, its
   * status, and its body as `response.json()` reads it (`None` when that throws).
   */
  datatype Reply = Offline(reason: string) | Reply(ok: bool, status: nat, body: Option<Body>)

  /** A service call: the request it sent, if any, and what it returned or threw. */
  datatype Call = Call(sent: Option<Request>, outcome: Result<Body>)

  /** The message of the `SyntaxError` that `JSON.parse`/`response.json()` throws on unreadable text. */
  const SyntaxErrorText := "Unexpected token in JSON"

  /** A fixed prefix followed by the status in decimal, which reads back as the status. */
  function StatusMessage(prefix: string, status: nat): (r: string)
    ensures |r| > |prefix| && r[..|prefix|] == prefix
    ensures AllDigits(r[|prefix|..]) && DigitsValue(r[|prefix|..]) == status
  {
    var text := prefix + NatToString(status);
    NatToStringRoundTrip(status);
    assert text[|prefix|..] == NatToString(status);
    text
  }

  /** `errorData.message || \`Failed with status: ${status}\``, where reading `errorData` may throw. */
  function FailureMessage(body: Option<Body>, status: nat): (r: string)
    ensures r != ""
    ensures body.Some? && body.value.message != "" ==> r == body.value.message
    ensures body.Some? && body.value.message == "" ==> r == "Failed with status: " + NatToString(status)
    ensures body.None? ==> r == SyntaxErrorText
  {
    match body
    case None => SyntaxErrorText
    case Some(b) => OrElse(b.message, StatusMessage("Failed with status: ", status))
  }

  /** The same choice with the `response.json()` failure caught and turned into a status message. */
  function GuardedFailureMessage(body: Option<Body>, status: nat): (r: string)
    ensures r != ""
    ensures body.Some? ==> r == FailureMessage(body, status)
    ensures body.None? ==> r == "Request failed with status: " + NatToString(status)
  {
    match body
    case None => StatusMessage("Request failed with status: ", status)
    case Some(b) => FailureMessage(body, status)
  }

  /**
   * How a sent request ends: a rejected `fetch` rethrows its reason, a non-OK response throws
   * the failure message, and an OK response returns its parsed body unchanged.
   */
  function Settle(reply: Reply): (r: Result<Body>)
    ensures r.Success? <==> reply.Reply? && reply.ok && reply.body.Some?
    ensures r.Success? ==> r.value == reply.body.value
    ensures reply.Reply? && !reply.ok ==> r == Failure(FailureMessage(reply.body, reply.status))
    ensures reply.Reply? && reply.ok && reply.body.None? ==> r == Failure(SyntaxErrorText)
    ensures reply.Offline? ==> r == Failure(reply.reason)
  {
    match reply
    case Offline(reason) => Failure(reason)
    case Reply(ok, status, body) =>
      if !ok then Failure(FailureMessage(body, status))
      else match body
        case None => Failure(SyntaxErrorText)
        case Some(b) => Success(b)
  }

  /** `Settle` for the payment calls that catch an unreadable error body. */
  function SettleGuarded(reply: Reply): (r: Result<Body>)
    ensures r.Success? <==> reply.Reply? && reply.ok && reply.body.Some?
    ensures r.Success? ==> r.value == reply.body.value
    ensures reply.Reply? && !reply.ok ==> r == Failure(GuardedFailureMessage(reply.body, reply.status))
    ensures reply.Reply? && reply.ok && reply.body.None? ==> r == Failure(SyntaxErrorText)
    ensures reply.Offline? ==> r == Failure(reply.reason)
  {
    match reply
    case Offline(reason) => Failure(reason)
    case Reply(ok, status, body) =>
      if !ok then Failure(GuardedFailureMessage(body, status))
      else Settle(reply)
  }

  /** The two differ only on a non-OK reply whose body cannot be read. */
  lemma SettleGuardedDiffers(reply: Reply)
    ensures SettleGuarded(reply) != Settle(reply) <==> reply.Reply? && !reply.ok && reply.body.None?
  {
  }
}
