/**
 * The order calls of src/services/orderService.js. Each call looks up the
 * session token, throws before any request when there is none, sends one
 * request, and settles the reply. Storage is the browser storage map; the
 * reply is a parameter; the API base URL is left out of the paths.
 */
module OrderService {
  import opened Wrappers
  import opened Api
  import opened Text
  import opened SessionToken
  import AuthContext

  const PlaceOrderLogin := "You must be logged in to place an order"
  const UpdateOrderLogin := "You must be logged in to update an order"
  const OrderDetailsLogin := "You must be logged in to view order details"
  const MyOrdersLogin := "You must be logged in to view your orders"
  const OrderIdRequired := "Order ID is required"
  const InvalidOrderData := "Invalid order data received from server"

  /**
   * The common shape of a call: the token lookup decides whether the request goes out
   * (carrying that token) and, if not, which error is thrown.
   */
  function Dispatch(lookup: Lookup, loginMessage: string, request: Request, settled: Result<Body>): (c: Call)
    ensures c.sent.Some? <==> lookup.Found?
    ensures lookup.Found? ==> c.sent == Some(request.(token := lookup.token)) && c.outcome == settled
    ensures lookup.Missing? ==> c.outcome == Failure(loginMessage)
    ensures lookup.Unreadable? ==> c.outcome == Failure(SyntaxErrorText)
  {
    match lookup
    case Unreadable => Call(None, Failure(SyntaxErrorText))
    case Missing => Call(None, Failure(loginMessage))
    case Found(token) => Call(Some(request.(token := token)), settled)
  }

  /**
   * `createOrder`: POST the order. The body is read before the status is checked, which ends
   * the same way as `Settle`: an unreadable body throws either way.
   */
  function CreateOrder(storage: map<string, string>, orderData: OrderData, reply: Reply): (c: Call)
    ensures c.sent.Some? <==> StoredToken(storage).Found?
    ensures c.sent.Some? ==> c.sent.value == Request("POST", "/api/orders", StoredToken(storage).token, OrderPayload(orderData))
    ensures StoredToken(storage).Missing? ==> c.outcome == Failure(PlaceOrderLogin)
    ensures c.outcome.Success? ==> reply.Reply? && reply.ok && reply.body == Some(c.outcome.value)
    ensures StoredToken(storage).Unreadable? ==> c.outcome == Failure(SyntaxErrorText)
    ensures c.sent.Some? ==> c.outcome == Settle(reply)
  {
    Dispatch(StoredToken(storage), PlaceOrderLogin, Request("POST", "/api/orders", "", OrderPayload(orderData)), Settle(reply))
  }

  /** `updateOrderToPaid`: PUT the payment result to the order's `pay` path. */
  function UpdateOrderToPaid(storage: map<string, string>, orderId: string, paymentResult: PaymentResult, reply: Reply): (c: Call)
    ensures c.sent.Some? <==> StoredToken(storage).Found?
    ensures c.sent.Some? ==> c.sent.value == Request("PUT", "/api/orders/" + orderId + "/pay", StoredToken(storage).token, PaidPayload(paymentResult))
    ensures StoredToken(storage).Missing? ==> c.outcome == Failure(UpdateOrderLogin)
    ensures c.outcome.Success? ==> reply.Reply? && reply.ok && reply.body == Some(c.outcome.value)
    ensures StoredToken(storage).Unreadable? ==> c.outcome == Failure(SyntaxErrorText)
    ensures c.sent.Some? ==> c.outcome == Settle(reply)
  {
    Dispatch(StoredToken(storage), UpdateOrderLogin,
      Request("PUT", "/api/orders/" + orderId + "/pay", "", PaidPayload(paymentResult)), Settle(reply))
  }

  /** The order record `getOrderById` accepts: one with an `_id`. */
  function CheckOrder(settled: Result<Body>): (r: Result<Body>)
    ensures r.Success? <==> settled.Success? && settled.value.dbId != ""
    ensures r.Success? ==> r == settled
  {
    match settled
    case Failure(m) => Failure(m)
    case Success(data) => if data.dbId == "" then Failure(InvalidOrderData) else Success(data)
  }

  /** `getOrderById`: the id is checked before the token is looked up. */
  function GetOrderById(storage: map<string, string>, orderId: string, reply: Reply): (c: Call)
    ensures orderId == "" ==> c == Call(None, Failure(OrderIdRequired))
    ensures c.sent.Some? <==> orderId != "" && StoredToken(storage).Found?
    ensures c.sent.Some? ==> c.sent.value == Request("GET", "/api/orders/" + orderId, StoredToken(storage).token, NoPayload)
    ensures orderId != "" && StoredToken(storage).Missing? ==> c.outcome == Failure(OrderDetailsLogin)
    ensures c.outcome.Success? ==> c.outcome.value.dbId != "" && reply.Reply? && reply.ok && reply.body == Some(c.outcome.value)
    ensures c.sent.Some? && reply.Reply? && reply.ok && reply.body.Some? && reply.body.value.dbId == "" ==>
      c.outcome == Failure(InvalidOrderData)
    ensures orderId != "" && StoredToken(storage).Unreadable? ==> c.outcome == Failure(SyntaxErrorText)
    ensures c.sent.Some? ==> c.outcome == CheckOrder(Settle(reply))
  {
    if orderId == "" then Call(None, Failure(OrderIdRequired))
    else Dispatch(StoredToken(storage), OrderDetailsLogin,
      Request("GET", "/api/orders/" + orderId, "", NoPayload), CheckOrder(Settle(reply)))
  }

  /** `getMyOrders`: GET the signed-in user's orders. */
  function GetMyOrders(storage: map<string, string>, reply: Reply): (c: Call)
    ensures c.sent.Some? <==> StoredToken(storage).Found?
    ensures c.sent.Some? ==> c.sent.value == Request("GET", "/api/orders/myorders", StoredToken(storage).token, NoPayload)
    ensures StoredToken(storage).Missing? ==> c.outcome == Failure(MyOrdersLogin)
    ensures c.outcome.Success? ==> reply.Reply? && reply.ok && reply.body == Some(c.outcome.value)
    ensures StoredToken(storage).Unreadable? ==> c.outcome == Failure(SyntaxErrorText)
    ensures c.sent.Some? ==> c.outcome == Settle(reply)
  {
    Dispatch(StoredToken(storage), MyOrdersLogin, Request("GET", "/api/orders/myorders", "", NoPayload), Settle(reply))
  }

  /** After logout no order call reaches the server, whatever the reply would have been. */
  lemma SignedOutSendsNothing(storage: map<string, string>, orderData: OrderData, orderId: string, result: PaymentResult, reply: Reply)
    ensures var s := AuthContext.SignedOutStorage(storage);
      CreateOrder(s, orderData, reply) == Call(None, Failure(PlaceOrderLogin)) &&
      UpdateOrderToPaid(s, orderId, result, reply) == Call(None, Failure(UpdateOrderLogin)) &&
      GetMyOrders(s, reply) == Call(None, Failure(MyOrdersLogin)) &&
      (orderId != "" ==> GetOrderById(s, orderId, reply) == Call(None, Failure(OrderDetailsLogin)))
  {
    TokenAfterSignOut(storage);
  }

  /** After login every order call is sent with the signed-in user's token. */
  lemma SignedInSendsToken(storage: map<string, string>, u: AuthContext.User, orderData: OrderData, reply: Reply)
    requires u.token != ""
    ensures var c := CreateOrder(AuthContext.SignedInStorage(storage, u), orderData, reply);
      c.sent.Some? && c.sent.value.token == u.token && c.outcome == Settle(reply)
  {
    TokenAfterSignIn(storage, u);
  }

  /**
   * A non-OK reply to any of the four calls throws the body's message when there is one,
   * "Failed with status: N" when the body has none, and the parse error when the body cannot
   * be read; `getOrderById` passes these failures through its `_id` check unchanged.
   */
  lemma FailedReplyMessages(storage: map<string, string>, orderData: OrderData, orderId: string,
                            result: PaymentResult, status: nat, body: Option<Body>)
    requires StoredToken(storage).Found?
    ensures var reply := Reply(false, status, body);
      var expected :=
        if body.None? then SyntaxErrorText
        else if body.value.message != "" then body.value.message
        else "Failed with status: " + NatToString(status);
      CreateOrder(storage, orderData, reply).outcome == Failure(expected) &&
      UpdateOrderToPaid(storage, orderId, result, reply).outcome == Failure(expected) &&
      GetMyOrders(storage, reply).outcome == Failure(expected) &&
      (orderId != "" ==> GetOrderById(storage, orderId, reply).outcome == Failure(expected))
  {
  }
}
