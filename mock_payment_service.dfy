/** `MockPaymentService`: builds PayPal-shaped responses from an order id. The
    clock and `Math.random` become parameters: `now` is `Date.now()` and each
    `digits` argument is the base-36 fraction of one `Math.random()` draw. */
module MockPayment {

  import Text

  datatype Link = Link(href: string, rel: string, httpMethod: string)

  datatype MockOrder = MockOrder(id: string, status: string, links: seq<Link>)

  datatype Capture = Capture(id: string, status: string, currencyCode: string, value: string, finalCapture: bool)

  datatype CaptureResult =
    | Declined(id: string, status: string, errorName: string, errorMessage: string, debugId: string)
    | Completed(id: string, status: string, captures: seq<Capture>, payerId: string, payerEmail: string)

  datatype OrderDetails = OrderDetails(id: string, status: string, intent: string, value: string, links: seq<Link>)

  /** The characters `Number.prototype.toString(36)` writes after "0.". */
  predicate IsBase36(s: string) {
    forall i :: 0 <= i < |s| ==> ('0' <= s[i] <= '9' || 'a' <= s[i] <= 'z')
  }

  /** `DEMO-<timestamp>-<up to 9 random characters>`. */
  function GenerateOrderId(now: nat, digits: string): (id: string)
    ensures "DEMO-" <= id
    ensures Text.DecimalString(now) <= id[5..]
  {
    "DEMO-" + Text.DecimalString(now) + "-" + Text.Take(digits, 9)
  }

  /** `PAY-<up to 9 random characters, upper-cased>`. */
  function GeneratePaymentId(digits: string): (id: string)
    requires IsBase36(digits)
    ensures "PAY-" <= id && |id| <= 13
    ensures forall i :: 4 <= i < |id| ==> !('a' <= id[i] <= 'z')
  {
    "PAY-" + Text.ToUpper(Text.Take(digits, 9))
  }

  /** `DEMO-PAYER-<up to 5 random characters, upper-cased>`. */
  function GeneratePayerId(digits: string): (id: string)
    requires IsBase36(digits)
    ensures "DEMO-PAYER-" <= id && |id| <= 16
    ensures forall i :: 11 <= i < |id| ==> !('a' <= id[i] <= 'z')
  {
    "DEMO-PAYER-" + Text.ToUpper(Text.Take(digits, 5))
  }

  function ApproveLink(orderId: string): Link {
    Link("http://demo-payment/" + orderId, "approve", "GET")
  }

  /** `createOrder`: a fresh DEMO- order in state CREATED with an approve link and a self link. */
  function CreateOrder(now: nat, digits: string): (o: MockOrder)
    ensures "DEMO-" <= o.id && o.status == "CREATED"
    ensures o.links == [Link("http://demo-payment/" + o.id, "approve", "GET"),
                        Link("http://api/orders/" + o.id, "self", "GET")]
  {
    var orderId := GenerateOrderId(now, digits);
    MockOrder(orderId, "CREATED", [ApproveLink(orderId), Link("http://api/orders/" + orderId, "self", "GET")])
  }

  /** `capturePayment`: declines, without throwing, any id containing "FAIL";
      otherwise reports one completed, final capture. `orderId` is "" when absent. */
  function CapturePayment(orderId: string, debugDigits: string, paymentDigits: string, payerDigits: string): (r: CaptureResult)
    requires IsBase36(paymentDigits) && IsBase36(payerDigits)
    ensures r.id == orderId
    ensures r.Declined? <==> Text.Contains(orderId, "FAIL")
    ensures r.Declined? ==> r.status == "FAILED" && r.errorName == "PAYMENT_DECLINED"
    ensures r.Completed? ==>
      && r.status == "COMPLETED"
      && |r.captures| == 1
      && r.captures[0].status == "COMPLETED"
      && r.captures[0].finalCapture
      && "PAY-" <= r.captures[0].id
      && "DEMO-PAYER-" <= r.payerId
  {
    if orderId != "" && Text.Contains(orderId, "FAIL") then
      Declined(orderId, "FAILED", "PAYMENT_DECLINED", "Payment declined - Demo Mode",
               "DEBUG-" + Text.Take(debugDigits, 9))
    else
      Completed(orderId, "COMPLETED",
                [Capture(GeneratePaymentId(paymentDigits), "COMPLETED", "USD", "0.00", true)],
                GeneratePayerId(payerDigits), "demo@example.com")
  }

  /** `getOrderDetails`: echoes the id as a CREATED order with intent CAPTURE. */
  function GetOrderDetails(orderId: string): (d: OrderDetails)
    ensures d.id == orderId && d.status == "CREATED" && d.intent == "CAPTURE"
  {
    OrderDetails(orderId, "CREATED", "CAPTURE", "0.00", [ApproveLink(orderId)])
  }

  /** The details of a created order point at the same approve link the creation returned. */
  lemma DetailsAgreeWithCreation(now: nat, digits: string)
    ensures var o := CreateOrder(now, digits);
      GetOrderDetails(o.id).links == o.links[..1] && GetOrderDetails(o.id).status == o.status
  {
  }

  /** A created demo order's id never contains the failure sentinel unless the
      random characters do, so a fresh id with sentinel-free digits captures. */
  lemma {:induction false} FreshIdCaptures(now: nat, digits: string, d1: string, d2: string, d3: string)
    requires IsBase36(digits) && IsBase36(d2) && IsBase36(d3)
    ensures CapturePayment(CreateOrder(now, digits).id, d1, d2, d3).Completed?
  {
    var id := CreateOrder(now, digits).id;
    var ds, tail := Text.DecimalString(now), Text.Take(digits, 9);
    assert id == "DEMO-" + ds + "-" + tail;
    assert forall j :: 0 <= j < |id| ==> id[j] != 'F' by {
      forall j | 0 <= j < |id|
        ensures id[j] != 'F'
      {
        if j < 5 {
        } else if j < 5 + |ds| {
          assert id[j] == ds[j - 5];
        } else if j == 5 + |ds| {
        } else {
          assert id[j] == tail[j - 6 - |ds|];
        }
      }
    }
    assert !Text.Contains(id, "FAIL") by {
      if Text.Contains(id, "FAIL") {
        var i :| 0 <= i <= |id| && Text.OccursAt(id, "FAIL", i);
        Text.OccursAtStart(id, "FAIL", i);
        assert false;
      }
    }
  }
}
