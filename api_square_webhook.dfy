/**
 * The draft api/index.js: the same note-carrying checkout (`NoteCheckout`
 * without the hours) and a Square webhook that checks the signature first,
 * handles only `type` "payment.created", rebuilds the reservation from the
 * note and e-mails it.
 */
module ApiSquareWebhook {
  import opened Booking
  import opened NoteCodec
  import opened SquareCheckout
  import PublicSquareWebhook

  /**
   * The webhook, with the HMAC check reduced to `signatureOk`. It reads
   * `type` only, so a test notification (which Square marks in `event_type`)
   * is an invalid event here. The buyer's address is passed on as it is.
   */
  function PaymentConfirmation(signatureOk: bool, e: SquareEvent): (o: Outcome)
    ensures !signatureOk ==> o == Outcome(Response(400, Message("Invalid signature")), None, [])
    ensures o.sent != [] <==> signatureOk && e.kind == "payment.created" && e.payment.Some?
    ensures o.sent != [] ==>
              var d := DecodeReservation(e.payment.value.note, e.payment.value.buyerEmail);
              o == Outcome(Response(200, Message("Payment confirmation received")), Some(d), [Email(d)])
    ensures o.sent == [] ==> o.extracted.None? && o.response.status == 400
    ensures signatureOk && e.kind != "payment.created" ==> o.response == Response(400, Message("Invalid event type"))
    ensures signatureOk && e.kind == "payment.created" && e.payment.None? ==>
              o.response == Response(400, Message("Invalid payment data received."))
  {
    if !signatureOk then Outcome(Response(400, Message("Invalid signature")), None, [])
    else if e.kind == "payment.created" then
      match e.payment
      case None => Outcome(Response(400, Message("Invalid payment data received.")), None, [])
      case Some(p) =>
        var d := DecodeReservation(p.note, p.buyerEmail);
        Outcome(Response(200, Message("Payment confirmation received")), Some(d), [Email(d)])
    else Outcome(Response(400, Message("Invalid event type")), None, [])
  }

  /** End to end: the note of this draft's checkout comes back as exactly one e-mail of the seven fields. */
  lemma CheckoutThenPayment(req: CheckoutRequest, result: ProviderResult, orderId: Option<string>, buyer: string)
    requires req.details.Some? && NoteCarried(req.details.value)
    ensures var c := NoteCheckout(req, false, result);
      c.order.Some? &&
      PaymentConfirmation(true, SquareEvent("payment.created", "", Some(Payment(orderId, c.order.value.note.value, buyer)))).sent
        == [Email(NoteView(req.details.value, buyer))]
  {
    NoteRoundTrip(req.details.value, buyer);
  }

  /** Square's test notification: acknowledged by public/index.js, refused by this draft. */
  lemma TestNotificationDiffers(kind: string, payment: Option<Payment>)
    requires kind != "payment.created"
    ensures PublicSquareWebhook.PaymentConfirmation(true, SquareEvent(kind, "TEST_NOTIFICATION", payment)).response.status == 200
    ensures PaymentConfirmation(true, SquareEvent(kind, "TEST_NOTIFICATION", payment)).response
         == Response(400, Message("Invalid event type"))
  {
  }
}
