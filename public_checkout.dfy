/**
 * The draft public/checkout.js: the note-carrying checkout with the hours
 * appended (`NoteCheckout` with the hours) and an unsigned webhook that, on
 * `type` "payment.created", rebuilds the reservation from the note and sends
 * it with a calendar event.
 */
module PublicCheckout {
  import opened Booking
  import opened NoteCodec
  import opened Calendar
  import opened SquareCheckout

  /**
   * The webhook. There is no signature check. `event.data.object.payment` is
   * read without optional chaining, so a `payment.created` body without a
   * payment throws and the framework answers 500.
   */
  function PaymentConfirmation(e: SquareEvent): (o: Outcome)
    ensures |o.sent| <= 1
    ensures o.sent != [] <==> e.kind == "payment.created" && e.payment.Some?
    ensures o.sent != [] ==>
              var d := DecodeReservation(e.payment.value.note, e.payment.value.buyerEmail);
              o == Outcome(Response(200, Message("Payment confirmation received")), Some(d),
                           [CalendarEmail(d, RideEvent(d))])
    ensures e.kind == "payment.created" && e.payment.None? ==> o == Outcome(Response(500, Crash), None, [])
    ensures e.kind != "payment.created" ==> o == Outcome(Response(400, Message("Invalid event type")), None, [])
  {
    if e.kind == "payment.created" then
      match e.payment
      case None => Outcome(Response(500, Crash), None, [])
      case Some(p) =>
        var d := DecodeReservation(p.note, p.buyerEmail);
        Outcome(Response(200, Message("Payment confirmation received")), Some(d), [CalendarEmail(d, RideEvent(d))])
    else Outcome(Response(400, Message("Invalid event type")), None, [])
  }

  /**
   * End to end: the eight-pair note of this draft's checkout comes back as
   * one calendar e-mail of the seven fields; the hours are lost, and the
   * event is built from the decoded record.
   */
  lemma CheckoutThenPayment(req: CheckoutRequest, result: ProviderResult, orderId: Option<string>, buyer: string)
    requires req.details.Some? && NoteCarried(req.details.value)
    ensures var c := NoteCheckout(req, true, result);
      var v := NoteView(req.details.value, buyer);
      c.order.Some? &&
      PaymentConfirmation(SquareEvent("payment.created", "", Some(Payment(orderId, c.order.value.note.value, buyer)))).sent
        == [CalendarEmail(v, RideEvent(v))]
  {
    NoteWithHoursDecodes(req.details.value, buyer);
    NoteRoundTrip(req.details.value, buyer);
  }

  /**
   * A payment whose note holds no date and no time key puts "Not provided"
   * into the event start, which `Number` cannot read.
   */
  lemma MissingDateReachesCalendar(orderId: Option<string>, note: string, buyer: string)
    requires FirstMatch(note, Key("Pickup Date")).None? && FirstMatch(note, Key("Pickup Time")).None?
    ensures var o := PaymentConfirmation(SquareEvent("payment.created", "", Some(Payment(orderId, note, buyer))));
      o.sent != [] && o.sent[0].event.start
        == [Unparsed("Not provided"), Undefined, Undefined, Unparsed("Not provided"), Undefined]
  {
    ExtractNone(note, "Pickup Date");
    ExtractNone(note, "Pickup Time");
    StartOfNotProvided();
  }
}
