/**
 * Values shared by every draft of the ride-booking backend: the reservation
 * record the booking form submits, the HTTP replies the handlers send, the
 * results the payment provider hands back, and the notifications the
 * handlers fire.
 *
 * JavaScript's `undefined` for a string field of a record is modelled as the
 * empty string: both are falsy, and no handler tells them apart.
 */
module Booking {

  datatype Option<T> = None | Some(value: T)

  /** The reservation details as the booking form posts them. */
  datatype Reservation = Reservation(
    pickupLocation: string,
    dropoffLocation: string,
    dropoffLocation2: string,   // second drop-off of a round trip, "" when absent
    pickupDate: string,         // "YYYY-MM-DD" as the form sends it
    pickupTime: string,         // "HH:MM" as the form sends it
    numPassengers: string,
    rideChoice: string,
    flightNumber: string,       // "" when absent
    serviceHours: string,
    customerFirstName: string,
    customerLastName: string,
    customerPhoneNumber: string,
    customerEmail: string)

  /** JavaScript truthiness of a string. */
  predicate Truthy(s: string) { s != "" }

  /** The property name JavaScript uses when a possibly undefined value indexes an object. */
  function JsKey(key: Option<string>): (k: string)
    ensures key.Some? ==> k == key.value
    ensures key.None? ==> k == "undefined"
  {
    match key
    case Some(k) => k
    case None => "undefined"
  }

  /** Two ids index the same property exactly when they are equal, or one is missing and the other is "undefined". */
  lemma KeyCollision(a: Option<string>, b: Option<string>)
    ensures JsKey(a) == JsKey(b) <==>
              a == b || (a.None? && b == Some("undefined")) || (b.None? && a == Some("undefined"))
  {
  }

  /**
   * The names every plain object `{}` inherits from `Object.prototype`.
   * Indexing a store with one finds a function (or, for "__proto__", the
   * prototype itself), a truthy value, even when the store has no entry of
   * its own under that name; `delete` never removes it.
   */
  const Inherited: set<string> := {
    "constructor", "hasOwnProperty", "isPrototypeOf", "propertyIsEnumerable", "toLocaleString",
    "toString", "valueOf", "__defineGetter__", "__defineSetter__", "__lookupGetter__",
    "__lookupSetter__", "__proto__" }

  /** The record read from a value that has none of the reservation's fields, such as an inherited function. */
  const NoDetails: Reservation := Reservation("", "", "", "", "", "", "", "", "", "", "", "", "")

  /** The JSON body of a reply. */
  datatype Body =
    | Message(text: string)       // { message: ... }
    | Error(text: string)         // { error: ... }
    | CheckoutUrl(url: string)    // { checkoutUrl: ... }
    | Received(res1: string)      // { received: true, res1, res2 } of the Stripe webhook
    | Text(text: string)          // a plain-text body
    | Crash                       // an uncaught exception: the framework answers 500 on its own

  datatype Response = Response(status: int, body: Body)

  /** What a checkout request carries; the price is already in cents. */
  datatype CheckoutRequest = CheckoutRequest(
    price: Option<int>,
    idempotencyKey: Option<string>,
    details: Option<Reservation>)

  /** The outcome of the provider's create-payment-link / create-session call. */
  datatype ProviderResult =
    | Created(url: string, key: Option<string>)   // the order id or session id, when the provider gives one
    | Failed                                      // the call threw

  /** The order a Square draft sends to `createPaymentLink`. */
  datatype SquareOrder = SquareOrder(
    idempotencyKey: Option<string>,
    itemName: string,
    quantity: string,
    amount: Option<int>,
    currency: string,
    note: Option<string>)

  /** A Square webhook body: `kind` is its `type`, `eventType` its `event_type`, "" when absent. */
  datatype SquareEvent = SquareEvent(kind: string, eventType: string, payment: Option<Payment>)

  /** `event.data.object.payment`. */
  datatype Payment = Payment(orderId: Option<string>, note: string, buyerEmail: string)

  /**
   * A number as the calendar library receives it: a decimal value, `undefined`
   * for a missing array element, or whatever `Number` makes of text that is
   * not a plain digit string (usually NaN), which the model does not compute.
   */
  datatype JsNum = Num(n: nat) | Undefined | Unparsed(text: string)

  /** The event handed to the calendar library `ics.createEvent`. */
  datatype CalendarEvent = CalendarEvent(
    start: seq<JsNum>,
    durationHours: nat,
    title: string,
    description: string,
    location: string,
    status: string,
    attendeeName: string,
    attendeeEmail: string)

  /** One notification side effect, recorded when the handler starts it. */
  datatype Notification =
    | Email(details: Reservation)
    | Sms(details: Reservation)
    | PaidEmail(details: Reservation, amountTotal: int, paymentIntent: string, paymentStatus: string)
    | CalendarEmail(details: Reservation, event: CalendarEvent)

  /** The reply and side effects of a handler that keeps no state. */
  datatype Outcome = Outcome(response: Response, extracted: Option<Reservation>, sent: seq<Notification>)
}
