/** The payment facade: one `PaymentService`, whose mode is read from
    PAYMENT_MODE once when it is constructed, dispatches to the mock in "demo"
    mode and to the PayPal SDK otherwise. The SDK is an oracle: the callback
    outcome of `paypal.payment.create` and whether a capture call throws are
    parameters. */
module PaymentService {

  import opened Wrappers
  import MockPayment
  import Text

  type Link = MockPayment.Link

  datatype Backend = Mock | PayPal

  datatype PaymentService = PaymentService(mode: string)

  /** What `paypal.payment.create` hands its callback. */
  datatype ProviderCreate = ProviderError(message: string) | ProviderPayment(id: string, links: seq<Link>)

  /** What the real provider's capture does. */
  datatype ProviderCapture = CaptureThrows(message: string) | CaptureReturns

  /** The object `createPayment` resolves with. */
  datatype PaymentResult =
    | DemoPayment(orderId: string, status: string)
    | ProviderApproval(approvalURL: Option<string>, paymentId: string)
  {
    function ApprovalURL(): Option<string> {
      if DemoPayment? then None else approvalURL
    }
    predicate IsDemo() { DemoPayment? }
  }

  /** How a call to `capturePayment` ends: the mock returns a response (it never
      throws), the provider returns or throws. */
  datatype CaptureCall =
    | MockReturned(result: MockPayment.CaptureResult)
    | ProviderReturned
    | Threw(message: string)

  /** The constructor: `process.env.PAYMENT_MODE || "sandbox"`. */
  function Construct(env: Option<string>): (s: PaymentService)
    ensures env.Some? && env.value != "" ==> s.mode == env.value
    ensures env.None? || env.value == "" ==> s.mode == "sandbox"
  {
    PaymentService(if env.Some? && env.value != "" then env.value else "sandbox")
  }

  function GetMode(s: PaymentService): string {
    s.mode
  }

  predicate IsDemoMode(s: PaymentService) {
    s.mode == "demo"
  }

  /** `getService`: the mock exactly in demo mode. */
  function GetService(s: PaymentService): (b: Backend)
    ensures b == Mock <==> IsDemoMode(s)
  {
    if s.mode == "demo" then Mock else PayPal
  }

  /** `links.findIndex(l => l.rel === "approval_url")`. */
  function IndexOfApproval(links: seq<Link>): (k: int)
    ensures -1 <= k < |links|
    ensures k == -1 <==> forall i :: 0 <= i < |links| ==> links[i].rel != "approval_url"
    ensures k >= 0 ==> links[k].rel == "approval_url"
    ensures k >= 0 ==> forall i :: 0 <= i < k ==> links[i].rel != "approval_url"
  {
    if links == [] then -1
    else if links[0].rel == "approval_url" then 0
    else
      var k := IndexOfApproval(links[1..]);
      if k == -1 then -1 else k + 1
  }

  /** `links.find(l => l.rel === "approval_url")?.href || null`: the href of the
      first approval link, unless there is none or that href is empty. */
  function ApprovalURL(links: seq<Link>): (r: Option<string>)
    ensures r.Some? <==> exists k :: 0 <= k < |links| && links[k].rel == "approval_url" && links[k].href != ""
                                     && forall i :: 0 <= i < k ==> links[i].rel != "approval_url"
    ensures r.Some? ==> r.value != "" && exists k :: 0 <= k < |links| && links[k].href == r.value && links[k].rel == "approval_url"
  {
    var k := IndexOfApproval(links);
    if k == -1 || links[k].href == "" then None else Some(links[k].href)
  }

  /** `createPayment`: in demo mode a mock order with no approval URL; otherwise
      the provider's payment, or a rejection carrying the provider's error. */
  function CreatePayment(s: PaymentService, now: nat, digits: string, provider: ProviderCreate): (r: Result<PaymentResult>)
    ensures IsDemoMode(s) ==> r.Ok? && r.value.IsDemo() && r.value.ApprovalURL().None?
                              && r.value.orderId == MockPayment.CreateOrder(now, digits).id
    ensures !IsDemoMode(s) ==> (r.Err? <==> provider.ProviderError?)
    ensures !IsDemoMode(s) && r.Ok? ==> !r.value.IsDemo() && r.value.ApprovalURL() == ApprovalURL(provider.links)
    ensures r.Err? ==> r.message == provider.message
  {
    if s.mode == "demo" then
      var mockOrder := MockPayment.CreateOrder(now, digits);
      Ok(DemoPayment(mockOrder.id, mockOrder.status))
    else
      match provider
      case ProviderError(msg) => Err(msg)
      case ProviderPayment(id, links) => Ok(ProviderApproval(ApprovalURL(links), id))
  }

  /** `capturePayment(orderId)`: the mock's response in demo mode, whatever the
      provider does otherwise. */
  function CapturePayment(s: PaymentService, orderId: string, debugDigits: string, paymentDigits: string,
                          payerDigits: string, provider: ProviderCapture): (r: CaptureCall)
    requires MockPayment.IsBase36(paymentDigits) && MockPayment.IsBase36(payerDigits)
    ensures IsDemoMode(s) ==> r.MockReturned? && r.result.id == orderId
    ensures r.Threw? <==> !IsDemoMode(s) && provider.CaptureThrows?
  {
    if s.mode == "demo" then MockReturned(MockPayment.CapturePayment(orderId, debugDigits, paymentDigits, payerDigits))
    else if provider.CaptureThrows? then Threw(provider.message)
    else ProviderReturned
  }

  /** The mock's own links carry rel "approve", not "approval_url": run through
      the provider's link search they would give no approval URL either. */
  lemma MockLinksHaveNoApprovalURL(now: nat, digits: string)
    ensures ApprovalURL(MockPayment.CreateOrder(now, digits).links) == None
  {
    var links := MockPayment.CreateOrder(now, digits).links;
    assert links[0].rel == "approve" && links[1].rel == "self";
  }

  /** A failing sentinel in the id makes the mock decline, but the decline is a
      returned value, never a thrown error. */
  lemma {:induction false} DemoCaptureNeverThrows(s: PaymentService, orderId: string, d1: string, d2: string, d3: string, p: ProviderCapture)
    requires IsDemoMode(s) && MockPayment.IsBase36(d2) && MockPayment.IsBase36(d3)
    ensures !CapturePayment(s, orderId, d1, d2, d3, p).Threw?
    ensures CapturePayment(s, orderId, d1, d2, d3, p).result.Declined? <==> Text.Contains(orderId, "FAIL")
  {
  }
}
