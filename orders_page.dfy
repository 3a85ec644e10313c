/**
 * The signed-in user's order list (src/pages/OrdersPage.jsx): the redirect of
 * a signed-out visitor, the list fetch, and the labels of each row. The reply
 * model carries one body, so the array a successful reply holds is handed in
 * as `received`.
 */
module OrdersPage {
  import opened Wrappers
  import opened Text
  import opened Api
  import AuthContext
  import OrderService
  import OrderDetailPage

  const Home := "/"
  const LoadFailed := "Failed to load orders"

  /** "item" for exactly one item, "items" otherwise. */
  function ItemsLabel(count: nat): (r: string)
    ensures r == "item" <==> count == 1
    ensures r == "items" <==> count != 1
  {
    if count == 1 then "item" else "items"
  }

  function PaymentLabel(isPaid: bool): (r: string)
    ensures r == "Paid" <==> isPaid
    ensures r == "Pending payment" <==> !isPaid
  {
    if isPaid then "Paid" else "Pending payment"
  }

  function DeliveryLabel(isDelivered: bool): (r: string)
    ensures r == "Delivered" <==> isDelivered
    ensures r == "Processing" <==> !isDelivered
  {
    if isDelivered then "Delivered" else "Processing"
  }

  /** What one row shows: the link, the order number, the item count and its word, the two badges. */
  datatype Row = Row(link: string, number: string, itemCount: nat, itemsWord: string, payment: string, delivery: string)

  function RowOf(order: Body): (r: Row)
    ensures r.link == "/order/" + order.dbId
    ensures r.number == OrderDetailPage.ShortOrderNumber(order.dbId)
    ensures r.itemCount == order.itemCount && r.itemsWord == ItemsLabel(order.itemCount)
    ensures r.payment == PaymentLabel(order.isPaid) && r.delivery == DeliveryLabel(order.isDelivered)
  {
    Row("/order/" + order.dbId, OrderDetailPage.ShortOrderNumber(order.dbId), order.itemCount,
        ItemsLabel(order.itemCount), PaymentLabel(order.isPaid), DeliveryLabel(order.isDelivered))
  }

  /** Every row links to the order page that shows the same order number. */
  lemma RowLinksToItsOrder(order: Body)
    ensures var r := RowOf(order);
      r.link[..|"/order/"|] == "/order/" && r.link[|"/order/"|..] == order.dbId &&
      r.number == OrderDetailPage.ShortOrderNumber(r.link[|"/order/"|..])
  {
  }

  class OrdersView {
    var orders: seq<Body>
    var loading: bool
    /** `error`; "" stands for null. */
    var error: string
    /** The page navigated to, "" while it has not. */
    var location: string

    constructor ()
      ensures orders == [] && loading && error == "" && location == ""
    {
      orders := [];
      loading := true;
      error := "";
      location := "";
    }

    /**
     * The mount effect: a signed-out visitor goes home and nothing is fetched; otherwise the
     * list is fetched and shown, or the error shown. Returns the request sent.
     */
    method Mount(auth: AuthContext.AuthProvider, reply: Reply, received: seq<Body>) returns (sent: Option<Request>)
      modifies this
      ensures !auth.IsAuthenticated() ==>
        sent.None? && location == Home && orders == old(orders) && loading == old(loading) && error == old(error)
      ensures auth.IsAuthenticated() ==>
        var c := OrderService.GetMyOrders(auth.storage, reply);
        sent == c.sent && !loading && location == old(location) &&
        match c.outcome
        case Success(_) => orders == received && error == old(error)
        case Failure(m) => orders == old(orders) && error == (if m != "" then m else LoadFailed)
    {
      if !auth.IsAuthenticated() {
        location := Home;
        return None;
      }
      loading := true;
      var c := OrderService.GetMyOrders(auth.storage, reply);
      sent := c.sent;
      match c.outcome {
        case Success(_) =>
          orders := received;
          loading := false;
        case Failure(m) =>
          error := OrElse(m, LoadFailed);
          loading := false;
      }
    }

    /** The rows, one per order in the order received. */
    function Rows(): (rs: seq<Row>)
      reads this
      ensures |rs| == |orders| && forall i :: 0 <= i < |orders| ==> rs[i] == RowOf(orders[i])
    {
      seq(|orders|, i reads this requires 0 <= i < |orders| => RowOf(orders[i]))
    }
  }

  /** A signed-out visitor's list request is never sent, whatever the server would answer. */
  lemma SignedOutFetchesNothing(storage: map<string, string>, reply: Reply)
    ensures OrderService.GetMyOrders(AuthContext.SignedOutStorage(storage), reply).sent.None?
  {
    OrderService.SignedOutSendsNothing(storage, OrderData([], ShippingAddress("", "", "", ""), "", 0.0, 0.0, 0.0, 0.0),
                                       "", PaymentResult("", "", "", "", ""), reply);
  }
}
