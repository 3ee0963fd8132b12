/**
 * The draft public/index.js: the note-carrying checkout (`NoteCheckout`
 * without the hours) and a Square webhook that checks the signature,
 * acknowledges Square's test notification, and on `payment.created` rebuilds
 * the reservation from the order note without sending anything.
 */
module PublicSquareWebhook {
  import opened Booking
  import opened NoteCodec
  import opened SquareCheckout

  /** `buyer_email_address || 'not provided'`. */
  function BuyerEmail(p: Payment): (e: string)
    ensures Truthy(e)
    ensures Truthy(p.buyerEmail) ==> e == p.buyerEmail
    ensures !Truthy(p.buyerEmail) ==> e == "not provided"
  {
    if Truthy(p.buyerEmail) then p.buyerEmail else "not provided"
  }

  /**
   * The webhook, with the HMAC check reduced to `signatureOk`. It reads
   * `event_type` only; it never notifies anyone.
   */
  function PaymentConfirmation(signatureOk: bool, e: SquareEvent): (o: Outcome)
    ensures o.sent == []
    ensures !signatureOk ==> o == Outcome(Response(400, Message("Invalid signature")), None, [])
    ensures o.response.status == 200 <==>
              signatureOk && (e.eventType == "TEST_NOTIFICATION" || (e.eventType == "payment.created" && e.payment.Some?))
    ensures o.extracted.Some? <==> signatureOk && e.eventType == "payment.created" && e.payment.Some?
    ensures o.extracted.Some? ==>
              o.extracted.value == DecodeReservation(e.payment.value.note, BuyerEmail(e.payment.value))
              && o.response.body == Message("Payment confirmation received and logged.")
    ensures signatureOk && e.eventType == "TEST_NOTIFICATION" ==>
              o.response.body == Message("Test notification received and logged.")
    ensures signatureOk && e.eventType == "payment.created" && e.payment.None? ==>
              o.response == Response(400, Message("Invalid payment data received."))
    ensures signatureOk && e.eventType != "TEST_NOTIFICATION" && e.eventType != "payment.created" ==>
              o.response == Response(400, Message("Invalid event type"))
  {
    if !signatureOk then Outcome(Response(400, Message("Invalid signature")), None, [])
    else if e.eventType == "TEST_NOTIFICATION" then
      Outcome(Response(200, Message("Test notification received and logged.")), None, [])
    else if e.eventType == "payment.created" then
      match e.payment
      case None => Outcome(Response(400, Message("Invalid payment data received.")), None, [])
      case Some(p) =>
        Outcome(Response(200, Message("Payment confirmation received and logged.")),
                Some(DecodeReservation(p.note, BuyerEmail(p))), [])
    else Outcome(Response(400, Message("Invalid event type")), None, [])
  }

  /**
   * End to end: the note this draft's checkout sends, carried back in the
   * payment, decodes to the reservation's seven fields, with the buyer's
   * address or the "not provided" default.
   */
  lemma CheckoutThenPayment(req: CheckoutRequest, result: ProviderResult, orderId: Option<string>, buyer: string)
    requires req.details.Some? && NoteCarried(req.details.value)
    ensures var c := NoteCheckout(req, false, result);
      c.order.Some? &&
      PaymentConfirmation(true, SquareEvent("", "payment.created", Some(Payment(orderId, c.order.value.note.value, buyer))))
        == Outcome(Response(200, Message("Payment confirmation received and logged.")),
                   Some(NoteView(req.details.value, if buyer != "" then buyer else "not provided")), [])
  {
    var d := req.details.value;
    var note := NoteCheckout(req, false, result).order.value.note.value;
    assert note == Note(d) by {
      assert note == OrderNote(d, false);
    }
    var email := if buyer != "" then buyer else "not provided";
    NoteRoundTrip(d, email);
    assert BuyerEmail(Payment(orderId, note, buyer)) == email;
  }
}
