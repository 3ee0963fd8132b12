/**
 * The serverless checkout and confirmation functions with the one store they
 * were evidently meant to share: the checkout's write is what the
 * confirmation looks up.
 */
module ApiSharedStore {
  import opened Booking
  import ApiCreateCheckout
  import opened ApiPaymentConfirmation

  /**
   * A checkout that stored the reservation under its order id, followed by
   * the payment for that order, sends one e-mail and one SMS of it and
   * leaves the store as it was before, without that id; a replay is refused,
   * unless the id is an inherited name, which the store still answers.
   */
  lemma CheckoutThenConfirm(store: Store, req: CheckoutRequest, url: string, orderId: string, e: SquareEvent)
    requires ApiCreateCheckout.Complete(req) && orderId != ""
    requires EventType(e) == "payment.created" && e.payment.Some? && e.payment.value.orderId == Some(orderId)
    ensures var c := ApiCreateCheckout.Checkout(store, "POST", req, Created(url, Some(orderId)));
      var f := Confirm(c.store, "POST", e);
      f == ConfirmStep(Response(200, Message("Payment confirmation received")), store - {orderId},
                       [Email(req.details.value), Sms(req.details.value)])
      && Confirm(f.store, "POST", e).sent == (if orderId in Inherited then [Email(NoDetails), Sms(NoDetails)] else [])
  {
    var c := ApiCreateCheckout.Checkout(store, "POST", req, Created(url, Some(orderId)));
    assert c.store == store[orderId := req.details.value];
    assert Found(c.store, e.payment.value);
    assert c.store - {orderId} == store - {orderId};
    ConfirmReplay(c.store, "POST", e);
  }

  /** Both handlers over one store, and every notification sent. */
  class PaymentsApi {
    var store: Store
    var sent: seq<Notification>

    constructor ()
      ensures store == map[] && sent == []
    {
      store := map[];
      sent := [];
    }

    method CreateCheckout(verb: string, req: CheckoutRequest, result: ProviderResult)
      returns (order: Option<SquareOrder>, response: Response)
      modifies this`store
      ensures var c := ApiCreateCheckout.Checkout(old(store), verb, req, result);
        order == c.order && response == c.response && store == c.store
    {
      var c := ApiCreateCheckout.Checkout(store, verb, req, result);
      order, response, store := c.order, c.response, c.store;
    }

    method PaymentConfirmation(verb: string, e: SquareEvent) returns (response: Response)
      modifies this`store, this`sent
      ensures var c := Confirm(old(store), verb, e);
        response == c.response && store == c.store && sent == old(sent) + c.sent
    {
      var c := Confirm(store, verb, e);
      response, store, sent := c.response, c.store, sent + c.sent;
    }
  }

  /**
   * The same requests as the separate deployment: now the payment is
   * confirmed once and, for an id that is not an inherited name, its replay
   * refused.
   */
  method SharedStore(req: CheckoutRequest, url: string, orderId: string, e: SquareEvent)
    returns (checkoutReply: Response, confirmationReply: Response, replayReply: Response, sent: seq<Notification>)
    requires ApiCreateCheckout.Complete(req) && orderId != ""
    requires EventType(e) == "payment.created" && e.payment.Some? && e.payment.value.orderId == Some(orderId)
    ensures checkoutReply == Response(200, CheckoutUrl(url))
    ensures confirmationReply == Response(200, Message("Payment confirmation received"))
    ensures orderId !in Inherited ==>
              replayReply == Response(400, Message("Reservation details not found."))
              && sent == [Email(req.details.value), Sms(req.details.value)]
    ensures orderId in Inherited ==>
              replayReply == Response(200, Message("Payment confirmation received"))
              && sent == [Email(req.details.value), Sms(req.details.value), Email(NoDetails), Sms(NoDetails)]
  {
    var api := new PaymentsApi();
    var order;
    order, checkoutReply := api.CreateCheckout("POST", req, Created(url, Some(orderId)));
    CheckoutThenConfirm(map[], req, url, orderId, e);
    confirmationReply := api.PaymentConfirmation("POST", e);
    replayReply := api.PaymentConfirmation("POST", e);
    sent := api.sent;
  }
}
