/**
 * The draft index.js: a Stripe checkout session that carries the reservation
 * in its metadata and is also remembered in `reservationStore` under the
 * session id, and a Stripe webhook that, for a completed session, e-mails the
 * metadata reservation with the payment facts and sends an SMS. The webhook
 * never reads the store.
 */
module StripeServer {
  import opened Booking

  type Store = map<string, Option<Reservation>>

  const CheckoutFailed: string := "Error creating checkout. Please try again later."
  const SuccessUrl: string := "https://www.silverfoxrides.com/thank-you.html"
  const CancelUrl: string := "https://www.silverfoxrides.com/book.html"

  /** The session requested from Stripe: one line item, in cents, with the reservation as metadata. */
  datatype SessionRequest = SessionRequest(
    itemName: string,
    quantity: nat,
    currency: string,
    unitAmount: Option<int>,
    metadata: Option<Reservation>,
    successUrl: string,
    cancelUrl: string)

  /** The session sent, the reply, and the store afterwards. */
  datatype CheckoutStep = CheckoutStep(session: SessionRequest, response: Response, store: Store)

  /** `/api/create-checkout`; Stripe's answer is `result`, its `key` the session id. */
  function Checkout(store: Store, price: Option<int>, details: Option<Reservation>, result: ProviderResult): (c: CheckoutStep)
    ensures c.session == SessionRequest("Ride Booking", 1, "usd", price, details, SuccessUrl, CancelUrl)
    ensures result.Failed? ==> c.response == Response(500, Error(CheckoutFailed)) && c.store == store
    ensures result.Created? ==>
              c.response == Response(200, CheckoutUrl(result.url))
              && JsKey(result.key) in c.store && c.store[JsKey(result.key)] == details
    ensures c.store.Keys == store.Keys + (if result.Created? then {JsKey(result.key)} else {})
    ensures forall k :: k in store && (result.Failed? || k != JsKey(result.key)) ==> c.store[k] == store[k]
  {
    var session := SessionRequest("Ride Booking", 1, "usd", price, details, SuccessUrl, CancelUrl);
    match result
    case Created(url, id) => CheckoutStep(session, Response(200, CheckoutUrl(url)), store[JsKey(id) := details])
    case Failed => CheckoutStep(session, Response(500, Error(CheckoutFailed)), store)
  }

  /** `JSON.parse(session.metadata.reservationDetails)`: a record, or the message of the exception. */
  datatype Metadata = Parsed(details: Reservation) | Unparseable(reason: string)

  /** The fields of `event.data.object` the webhook reads for a completed session. */
  datatype CompletedSession = CompletedSession(amountTotal: int, paymentIntent: string, paymentStatus: string, metadata: Metadata)

  datatype StripeEvent = StripeEvent(kind: string, session: CompletedSession)

  /** `stripe.webhooks.constructEvent`: the verified event, or the message of the exception. */
  datatype Verification = Rejected(reason: string) | Verified(event: StripeEvent)

  /** The awaited Brevo call: the data it returns, or the message of the exception. */
  datatype EmailResult = Delivered(data: string) | Threw(reason: string)

  /** The reply and the notifications this delivery sent. */
  datatype WebhookStep = WebhookStep(response: Response, sent: seq<Notification>)

  function WebhookError(reason: string): Response {
    Response(400, Text("Webhook Error: " + reason))
  }

  /** `/api/payment-confirmation`. Every exception inside the `try` becomes the 400 "Webhook Error". */
  function Webhook(v: Verification, email: EmailResult): (w: WebhookStep)
    ensures v.Rejected? ==> w == WebhookStep(WebhookError(v.reason), [])
    ensures w.sent != [] <==>
              v.Verified? && v.event.kind == "checkout.session.completed"
              && v.event.session.metadata.Parsed? && email.Delivered?
    ensures w.sent != [] ==>
              var s := v.event.session;
              w == WebhookStep(Response(200, Received(email.data)),
                               [PaidEmail(s.metadata.details, s.amountTotal, s.paymentIntent, s.paymentStatus),
                                Sms(s.metadata.details)])
    ensures v.Verified? && v.event.kind != "checkout.session.completed" ==> w == WebhookStep(Response(200, Received("")), [])
    ensures v.Verified? && v.event.kind == "checkout.session.completed" && v.event.session.metadata.Unparseable? ==>
              w == WebhookStep(WebhookError(v.event.session.metadata.reason), [])
    ensures v.Verified? && v.event.kind == "checkout.session.completed" && v.event.session.metadata.Parsed? && email.Threw? ==>
              w == WebhookStep(WebhookError(email.reason), [])
  {
    match v
    case Rejected(reason) => WebhookStep(WebhookError(reason), [])
    case Verified(e) =>
      if e.kind == "checkout.session.completed" then
        match e.session.metadata
        case Unparseable(reason) => WebhookStep(WebhookError(reason), [])
        case Parsed(d) =>
          match email
          case Threw(reason) => WebhookStep(WebhookError(reason), [])
          case Delivered(data) =>
            WebhookStep(Response(200, Received(data)),
                        [PaidEmail(d, e.session.amountTotal, e.session.paymentIntent, e.session.paymentStatus), Sms(d)])
      else WebhookStep(Response(200, Received("")), [])
  }

  // ---------------------------------------------------------------------
  // The HTML body of the e-mail, line by line.

  /** One indented line of the body: `name: value<br/>`. */
  function Line(name: string, value: string): string {
    "    " + name + ": " + value + "<br/>"
  }

  /** A line printed only when `value` is truthy; otherwise only the indentation is left. */
  function OptionalLine(name: string, value: string): (l: string)
    ensures Truthy(value) ==> l == Line(name, value)
    ensures !Truthy(value) ==> l == "    "
  {
    "    " + (if Truthy(value) then name + ": " + value + "<br/>" else "")
  }

  /** What every line labelled `name` starts with. */
  function LinePrefix(name: string): string {
    "    " + name + ": "
  }

  const RoundTripLabel: string := "Next dropoff location for round trip"
  const FlightLabel: string := "Flight Number"

  /**
   * The sixteen lines of the body, which the template joins with newlines;
   * `amountText` is how JavaScript prints `amount_total / 100`.
   */
  function EmailLines(d: Reservation, amountText: string, paymentIntent: string, paymentStatus: string): (ls: seq<string>)
    ensures |ls| == 16
  {
    ["Reservation Details:<br/>",
     Line("First Name", d.customerFirstName),
     Line("Last Name", d.customerLastName),
     Line("Phone Number", d.customerPhoneNumber),
     Line("Pickup Location", d.pickupLocation),
     Line("Dropoff Location", d.dropoffLocation),
     OptionalLine(RoundTripLabel, d.dropoffLocation2),
     Line("Pickup Date", d.pickupDate),
     Line("Pickup Time", d.pickupTime),
     Line("Customer Email", d.customerEmail),
     Line("Number of passengers", d.numPassengers),
     Line("Ride choice", d.rideChoice),
     OptionalLine(FlightLabel, d.flightNumber),
     Line("Amount total", amountText),
     Line("Stripe payment intent id", paymentIntent),
     Line("Stripe payment status", paymentStatus)]
  }

  predicate HasPrefix(s: string, p: string) {
    |p| <= |s| && s[..|p|] == p
  }

  /** Some line of `ls` starts with `p`. */
  predicate Mentions(ls: seq<string>, p: string) {
    exists k :: 0 <= k < |ls| && HasPrefix(ls[k], p)
  }

  lemma NoPrefixAt(s: string, p: string, i: nat)
    requires i < |s| && i < |p| && s[i] != p[i]
    ensures !HasPrefix(s, p)
  {
    if |p| <= |s| {
      assert s[..|p|][i] == s[i];
    }
  }

  /** A line starts with its own name's prefix. */
  lemma LineHasPrefix(name: string, value: string)
    ensures HasPrefix(Line(name, value), LinePrefix(name))
  {
    assert Line(name, value) == LinePrefix(name) + (value + "<br/>");
    assert Line(name, value)[..|LinePrefix(name)|] == LinePrefix(name);
  }

  /** A line whose name differs from `other` at position `i` does not start with `other`'s prefix. */
  lemma LineMiss(name: string, value: string, other: string, i: nat)
    requires i < |name| && i < |other| && name[i] != other[i]
    ensures !HasPrefix(Line(name, value), LinePrefix(other))
  {
    assert Line(name, value)[4 + i] == name[i];
    assert LinePrefix(other)[4 + i] == other[i];
    NoPrefixAt(Line(name, value), LinePrefix(other), 4 + i);
  }

  /** An optional line that is absent, or whose name differs from `other`, does not start with `other`'s prefix. */
  lemma OptionalLineMiss(name: string, value: string, other: string, i: nat)
    requires i < |name| && i < |other| && name[i] != other[i]
    ensures !HasPrefix(OptionalLine(name, value), LinePrefix(other))
  {
    if Truthy(value) {
      LineMiss(name, value, other, i);
    }
  }

  /** An optional line starts with its name's prefix exactly when its value is truthy. */
  lemma OptionalLineIff(name: string, value: string)
    ensures HasPrefix(OptionalLine(name, value), LinePrefix(name)) <==> Truthy(value)
  {
    if Truthy(value) {
      LineHasPrefix(name, value);
    }
  }

  /** The body has a round-trip line exactly when the second drop-off is truthy, and that line names it. */
  lemma RoundTripLineIff(d: Reservation, amountText: string, paymentIntent: string, paymentStatus: string)
    ensures var ls := EmailLines(d, amountText, paymentIntent, paymentStatus);
      (Mentions(ls, LinePrefix(RoundTripLabel)) <==> Truthy(d.dropoffLocation2))
      && (Truthy(d.dropoffLocation2) ==> ls[6] == Line(RoundTripLabel, d.dropoffLocation2))
  {
    var ls := EmailLines(d, amountText, paymentIntent, paymentStatus);
    OptionalLineIff(RoundTripLabel, d.dropoffLocation2);
    if Truthy(d.dropoffLocation2) {
      assert HasPrefix(ls[6], LinePrefix(RoundTripLabel));
    } else {
      RoundTripMissHead(d, amountText, paymentIntent, paymentStatus);
      RoundTripMissTail(d, amountText, paymentIntent, paymentStatus);
    }
  }

  /** Without a second drop-off, none of the first eight lines starts like the round-trip line. */
  lemma RoundTripMissHead(d: Reservation, amountText: string, paymentIntent: string, paymentStatus: string)
    requires !Truthy(d.dropoffLocation2)
    ensures var ls := EmailLines(d, amountText, paymentIntent, paymentStatus);
      forall k :: 0 <= k < 8 ==> !HasPrefix(ls[k], LinePrefix(RoundTripLabel))
  {
    var ls := EmailLines(d, amountText, paymentIntent, paymentStatus);
    var q := RoundTripLabel;
    NoPrefixAt(ls[0], LinePrefix(q), 0);
    LineMiss("First Name", d.customerFirstName, q, 0);
    LineMiss("Last Name", d.customerLastName, q, 0);
    LineMiss("Phone Number", d.customerPhoneNumber, q, 0);
    LineMiss("Pickup Location", d.pickupLocation, q, 0);
    LineMiss("Dropoff Location", d.dropoffLocation, q, 0);
    LineMiss("Pickup Date", d.pickupDate, q, 0);
    assert |ls[6]| < |LinePrefix(q)|;
    forall k | 0 <= k < 8 ensures !HasPrefix(ls[k], LinePrefix(q)) {
      assert k == 0 || k == 1 || k == 2 || k == 3 || k == 4 || k == 5 || k == 6 || k == 7;
    }
  }

  /** None of the last eight lines starts like the round-trip line. */
  lemma RoundTripMissTail(d: Reservation, amountText: string, paymentIntent: string, paymentStatus: string)
    ensures var ls := EmailLines(d, amountText, paymentIntent, paymentStatus);
      forall k :: 8 <= k < 16 ==> !HasPrefix(ls[k], LinePrefix(RoundTripLabel))
  {
    var ls := EmailLines(d, amountText, paymentIntent, paymentStatus);
    var q := RoundTripLabel;
    LineMiss("Pickup Time", d.pickupTime, q, 0);
    LineMiss("Customer Email", d.customerEmail, q, 0);
    LineMiss("Number of passengers", d.numPassengers, q, 1);
    LineMiss("Ride choice", d.rideChoice, q, 0);
    OptionalLineMiss(FlightLabel, d.flightNumber, q, 0);
    LineMiss("Amount total", amountText, q, 0);
    LineMiss("Stripe payment intent id", paymentIntent, q, 0);
    LineMiss("Stripe payment status", paymentStatus, q, 0);
    forall k | 8 <= k < 16 ensures !HasPrefix(ls[k], LinePrefix(q)) {
      assert k == 8 || k == 9 || k == 10 || k == 11 || k == 12 || k == 13 || k == 14 || k == 15;
    }
  }

  /** The body has a flight line exactly when the flight number is truthy, and that line names it. */
  lemma FlightLineIff(d: Reservation, amountText: string, paymentIntent: string, paymentStatus: string)
    ensures var ls := EmailLines(d, amountText, paymentIntent, paymentStatus);
      (Mentions(ls, LinePrefix(FlightLabel)) <==> Truthy(d.flightNumber))
      && (Truthy(d.flightNumber) ==> ls[12] == Line(FlightLabel, d.flightNumber))
  {
    var ls := EmailLines(d, amountText, paymentIntent, paymentStatus);
    OptionalLineIff(FlightLabel, d.flightNumber);
    if Truthy(d.flightNumber) {
      assert HasPrefix(ls[12], LinePrefix(FlightLabel));
    } else {
      FlightMissHead(d, amountText, paymentIntent, paymentStatus);
      FlightMissTail(d, amountText, paymentIntent, paymentStatus);
    }
  }

  /** None of the first eight lines starts like the flight line. */
  lemma FlightMissHead(d: Reservation, amountText: string, paymentIntent: string, paymentStatus: string)
    ensures var ls := EmailLines(d, amountText, paymentIntent, paymentStatus);
      forall k :: 0 <= k < 8 ==> !HasPrefix(ls[k], LinePrefix(FlightLabel))
  {
    FlightMissFirst(d, amountText, paymentIntent, paymentStatus);
    FlightMissSecond(d, amountText, paymentIntent, paymentStatus);
  }

  lemma FlightMissFirst(d: Reservation, amountText: string, paymentIntent: string, paymentStatus: string)
    ensures var ls := EmailLines(d, amountText, paymentIntent, paymentStatus);
      forall k :: 0 <= k < 4 ==> !HasPrefix(ls[k], LinePrefix(FlightLabel))
  {
    var ls := EmailLines(d, amountText, paymentIntent, paymentStatus);
    var q := FlightLabel;
    NoPrefixAt(ls[0], LinePrefix(q), 0);
    LineMiss("First Name", d.customerFirstName, q, 1);
    LineMiss("Last Name", d.customerLastName, q, 0);
    LineMiss("Phone Number", d.customerPhoneNumber, q, 0);
    forall k | 0 <= k < 4 ensures !HasPrefix(ls[k], LinePrefix(q)) {
      assert k == 0 || k == 1 || k == 2 || k == 3;
    }
  }

  lemma FlightMissSecond(d: Reservation, amountText: string, paymentIntent: string, paymentStatus: string)
    ensures var ls := EmailLines(d, amountText, paymentIntent, paymentStatus);
      forall k :: 4 <= k < 8 ==> !HasPrefix(ls[k], LinePrefix(FlightLabel))
  {
    var ls := EmailLines(d, amountText, paymentIntent, paymentStatus);
    var q := FlightLabel;
    LineMiss("Pickup Location", d.pickupLocation, q, 0);
    LineMiss("Dropoff Location", d.dropoffLocation, q, 0);
    OptionalLineMiss(RoundTripLabel, d.dropoffLocation2, q, 0);
    LineMiss("Pickup Date", d.pickupDate, q, 0);
    forall k | 4 <= k < 8 ensures !HasPrefix(ls[k], LinePrefix(q)) {
      assert k == 4 || k == 5 || k == 6 || k == 7;
    }
  }

  /** Without a flight number, none of the last eight lines starts like the flight line. */
  lemma FlightMissTail(d: Reservation, amountText: string, paymentIntent: string, paymentStatus: string)
    requires !Truthy(d.flightNumber)
    ensures var ls := EmailLines(d, amountText, paymentIntent, paymentStatus);
      forall k :: 8 <= k < 16 ==> !HasPrefix(ls[k], LinePrefix(FlightLabel))
  {
    var ls := EmailLines(d, amountText, paymentIntent, paymentStatus);
    var q := FlightLabel;
    LineMiss("Pickup Time", d.pickupTime, q, 0);
    LineMiss("Customer Email", d.customerEmail, q, 0);
    LineMiss("Number of passengers", d.numPassengers, q, 0);
    LineMiss("Ride choice", d.rideChoice, q, 0);
    LineMiss("Amount total", amountText, q, 0);
    LineMiss("Stripe payment intent id", paymentIntent, q, 0);
    LineMiss("Stripe payment status", paymentStatus, q, 0);
    assert |ls[12]| < |LinePrefix(q)|;
    forall k | 8 <= k < 16 ensures !HasPrefix(ls[k], LinePrefix(q)) {
      assert k == 8 || k == 9 || k == 10 || k == 11 || k == 12 || k == 13 || k == 14 || k == 15;
    }
  }

  /** The running server: the store and every notification sent so far. */
  class App {
    var store: Store
    var sent: seq<Notification>

    constructor ()
      ensures store == map[] && sent == []
    {
      store := map[];
      sent := [];
    }

    method CreateCheckout(price: Option<int>, details: Option<Reservation>, result: ProviderResult)
      returns (session: SessionRequest, response: Response)
      modifies this`store
      ensures var c := Checkout(old(store), price, details, result);
        session == c.session && response == c.response && store == c.store
    {
      session := SessionRequest("Ride Booking", 1, "usd", price, details, SuccessUrl, CancelUrl);
      if result.Failed? {
        response := Response(500, Error(CheckoutFailed));
        return;
      }
      store := store[JsKey(result.key) := details];
      response := Response(200, CheckoutUrl(result.url));
    }

    /** The webhook leaves the store alone: only `sent` is in its frame. */
    method PaymentConfirmation(v: Verification, email: EmailResult) returns (response: Response)
      modifies this`sent
      ensures var w := Webhook(v, email);
        response == w.response && sent == old(sent) + w.sent
    {
      if v.Rejected? {
        response := WebhookError(v.reason);
        return;
      }
      var e := v.event;
      var res1 := "";
      if e.kind == "checkout.session.completed" {
        if e.session.metadata.Unparseable? {
          response := WebhookError(e.session.metadata.reason);
          return;
        }
        var details := e.session.metadata.details;
        if email.Threw? {
          response := WebhookError(email.reason);
          return;
        }
        sent := sent + [PaidEmail(details, e.session.amountTotal, e.session.paymentIntent, e.session.paymentStatus)];
        res1 := email.data;
        sent := sent + [Sms(details)];
      }
      response := Response(200, Received(res1));
    }
  }
}
