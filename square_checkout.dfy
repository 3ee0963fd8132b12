/**
 * The `/create-checkout` handler shared by the note-carrying Square drafts
 * (public/index.js, api/index.js, public/checkout.js): it builds one
 * "Ride Booking" order whose note carries the reservation, asks Square for a
 * payment link and answers with its URL. Nothing is stored: the reservation
 * travels in the note.
 */
module SquareCheckout {
  import opened Booking
  import opened NoteCodec

  const CheckoutFailed: string := "Error creating checkout. Please try again later."

  /** The order sent to Square, if the handler got that far, and the reply. */
  datatype Checkout = Checkout(order: Option<SquareOrder>, response: Response)

  /** The note of the order: seven pairs, and the hours as an eighth when `withHours`. */
  function OrderNote(d: Reservation, withHours: bool): (n: string)
    ensures n == Join(NoteFields(d) + (if withHours then [Field(HoursLabel, d.serviceHours)] else []), "")
  {
    if withHours then
      NoteWithHoursIsJoin(d);
      NoteWithHours(d)
    else
      NoteIsJoin(d);
      assert NoteFields(d) + [] == NoteFields(d);
      Note(d)
  }

  /**
   * The handler. Reading the fields of a missing `reservationDetails` throws
   * inside the `try`, so that request gets the generic 500 and Square is never
   * called.
   */
  function NoteCheckout(req: CheckoutRequest, withHours: bool, result: ProviderResult): (c: Checkout)
    ensures c.order.Some? <==> req.details.Some?
    ensures c.order.Some? ==> c.order.value == SquareOrder(req.idempotencyKey, "Ride Booking", "1", req.price, "USD",
                                                         Some(OrderNote(req.details.value, withHours)))
    ensures c.response.status == 200 <==> req.details.Some? && result.Created?
    ensures c.response.status == 200 ==> c.response.body == CheckoutUrl(result.url)
    ensures c.response.status != 200 ==> c.response == Response(500, Error(CheckoutFailed))
  {
    match req.details
    case None => Checkout(None, Response(500, Error(CheckoutFailed)))
    case Some(d) =>
      var order := SquareOrder(req.idempotencyKey, "Ride Booking", "1", req.price, "USD", Some(OrderNote(d, withHours)));
      match result
      case Created(url, _) => Checkout(Some(order), Response(200, CheckoutUrl(url)))
      case Failed => Checkout(Some(order), Response(500, Error(CheckoutFailed)))
  }
}
