/**
 * The service worker's `fetch` listener (public/sw.js): which requests it
 * leaves to the browser, which it answers with a synthesised web-app
 * manifest, and which it sends to the network with a 503 fallback. The
 * install and activate listeners (cache clearing, taking control of clients)
 * are left out. The network's answer is the parameter `fetched` (`None` when
 * `fetch` rejects); leaving a request to the browser is the answer `None`.
 */
module ServiceWorker {
  import opened Wrappers
  import opened Text

  const ProviderHost := "razorpay.com"
  const ManifestFile := "manifest.json"
  const PaymentApi := "/api/payment/"
  const OrderPages := "/order/"
  const CheckoutPages := "/checkout/"

  /** `JSON.stringify` of the manifest the worker answers with. */
  const ManifestJson :=
    "{\"name\":\"Vercelecom\",\"short_name\":\"Vercelecom\",\"description\":\"E-commerce application\"," +
    "\"start_url\":\"/\",\"display\":\"browser\",\"background_color\":\"#ffffff\"," +
    "\"theme_color\":\"#dc2626\",\"icons\":[]}"

  const NetworkError := "Network error"

  datatype Route =
    | ProviderPassThrough   // the payment provider's own requests
    | SynthesisedManifest   // the manifest, answered without the network
    | PaymentPassThrough    // payment, order and checkout requests
    | NetworkFirst          // everything else

  datatype Response = Response(status: nat, body: string, contentType: string)

  /**
   * The decision chain: the provider's host first, then the manifest, then the payment paths;
   * every other URL goes to the network. Each URL gets exactly one route.
   */
  function RouteOf(url: string): (r: Route)
    ensures r == ProviderPassThrough <==> Contains(url, ProviderHost)
    ensures r == SynthesisedManifest <==> !Contains(url, ProviderHost) && Contains(url, ManifestFile)
    ensures r == PaymentPassThrough <==>
      !Contains(url, ProviderHost) && !Contains(url, ManifestFile) &&
      (Contains(url, PaymentApi) || Contains(url, OrderPages) || Contains(url, CheckoutPages))
    ensures r == NetworkFirst <==>
      !Contains(url, ProviderHost) && !Contains(url, ManifestFile) &&
      !Contains(url, PaymentApi) && !Contains(url, OrderPages) && !Contains(url, CheckoutPages)
  {
    if Contains(url, ProviderHost) then ProviderPassThrough
    else if Contains(url, ManifestFile) then SynthesisedManifest
    else if Contains(url, PaymentApi) || Contains(url, OrderPages) || Contains(url, CheckoutPages) then PaymentPassThrough
    else NetworkFirst
  }

  /**
   * The listener's answer: `None` leaves the request to the browser; the manifest is answered
   * as JSON; a network-first request gets the network's answer, or 503 "Network error".
   */
  function HandleFetch(url: string, fetched: Option<Response>): (r: Option<Response>)
    ensures r.None? <==> RouteOf(url) in {ProviderPassThrough, PaymentPassThrough}
    ensures RouteOf(url) == SynthesisedManifest ==> r == Some(Response(200, ManifestJson, "application/json"))
    ensures RouteOf(url) == NetworkFirst && fetched.Some? ==> r == fetched
    ensures RouteOf(url) == NetworkFirst && fetched.None? ==> r == Some(Response(503, NetworkError, "text/plain;charset=UTF-8"))
  {
    match RouteOf(url)
    case ProviderPassThrough => None
    case SynthesisedManifest => Some(Response(200, ManifestJson, "application/json"))
    case PaymentPassThrough => None
    case NetworkFirst =>
      match fetched
      case Some(response) => Some(response)
      case None => Some(Response(503, NetworkError, "text/plain;charset=UTF-8"))
  }

  /** Every request to the provider's host is left alone, whatever else its URL holds. */
  lemma ProviderRequestsPassThrough(before: string, after: string, fetched: Option<Response>)
    ensures RouteOf(before + ProviderHost + after) == ProviderPassThrough
    ensures HandleFetch(before + ProviderHost + after, fetched).None?
  {
    ContainsInfix(before, ProviderHost, after);
  }

  /** A manifest request off the provider's host is answered locally, even on a payment path. */
  lemma ManifestAnsweredLocally(before: string, after: string, fetched: Option<Response>)
    requires !Contains(before + ManifestFile + after, ProviderHost)
    ensures HandleFetch(before + ManifestFile + after, fetched) == Some(Response(200, ManifestJson, "application/json"))
  {
    ContainsInfix(before, ManifestFile, after);
  }

  /** A payment-API request that is neither the provider's nor the manifest never reaches the worker's fetch. */
  lemma PaymentApiBypasses(before: string, after: string, fetched: Option<Response>)
    requires !Contains(before + PaymentApi + after, ProviderHost)
    requires !Contains(before + PaymentApi + after, ManifestFile)
    ensures RouteOf(before + PaymentApi + after) == PaymentPassThrough
    ensures HandleFetch(before + PaymentApi + after, fetched).None?
  {
    ContainsInfix(before, PaymentApi, after);
  }

  /** The worker answers a request itself exactly when it answers with a status, and a failure is 503. */
  lemma AnsweredRequestsHaveAStatus(url: string, fetched: Option<Response>)
    requires HandleFetch(url, fetched).Some?
    ensures var r := HandleFetch(url, fetched).value;
      r == Response(200, ManifestJson, "application/json") ||
      (fetched.Some? && r == fetched.value) ||
      (fetched.None? && r.status == 503 && r.body == NetworkError)
  {
  }
}
