/**
 * The serverless function api/payment-confirmation.js: POST only, the event
 * type from `type` or else `event_type`, a lookup of the order id in this
 * function's own `reservationStore`, one e-mail and one SMS of the stored
 * reservation, and the deletion of that entry. The store is a plain `{}`, so
 * it also answers the names inherited from `Object.prototype`
 * (`Booking.Inherited`), and `delete` leaves those in place.
 */
module ApiPaymentConfirmation {
  import opened Booking
  import ApiCreateCheckout

  type Store = map<string, Reservation>

  /** `event.type || event.event_type`: `event_type` counts only when `type` is absent or empty. */
  function EventType(e: SquareEvent): (t: string)
    ensures t == "payment.created" <==>
              e.kind == "payment.created" || (!Truthy(e.kind) && e.eventType == "payment.created")
  {
    if Truthy(e.kind) then e.kind else e.eventType
  }

  /** The reply, the store afterwards, and the notifications this delivery sent. */
  datatype ConfirmStep = ConfirmStep(response: Response, store: Store, sent: seq<Notification>)

  /**
   * `orderId && reservationStore[orderId]`: the order id is truthy and the
   * store has an entry under it, its own or an inherited one.
   */
  predicate Found(store: Store, p: Payment) {
    p.orderId.Some? && Truthy(p.orderId.value) && (p.orderId.value in store || p.orderId.value in Inherited)
  }

  /** The details read at a found key: the own entry's, or none of the fields for an inherited name. */
  function Stored(store: Store, k: string): Reservation {
    if k in store then store[k] else NoDetails
  }

  /** The handler, for HTTP method `verb`. */
  function Confirm(store: Store, verb: string, e: SquareEvent): (c: ConfirmStep)
    ensures verb != "POST" ==> c == ConfirmStep(Response(405, Message("Only POST requests are allowed.")), store, [])
    ensures verb == "POST" && EventType(e) != "payment.created" ==>
              c == ConfirmStep(Response(400, Message("Invalid event type")), store, [])
    ensures verb == "POST" && EventType(e) == "payment.created" && e.payment.None? ==>
              c == ConfirmStep(Response(500, Crash), store, [])
    ensures c.sent != [] <==> verb == "POST" && EventType(e) == "payment.created" && e.payment.Some? && Found(store, e.payment.value)
    ensures c.sent != [] ==>
              var k := e.payment.value.orderId.value;
              c == ConfirmStep(Response(200, Message("Payment confirmation received")), store - {k},
                               [Email(Stored(store, k)), Sms(Stored(store, k))])
    ensures c.sent == [] ==> c.store == store && c.response.status != 200
    ensures verb == "POST" && EventType(e) == "payment.created" && e.payment.Some? && !Found(store, e.payment.value) ==>
              c.response == Response(400, Message("Reservation details not found."))
  {
    if verb != "POST" then ConfirmStep(Response(405, Message("Only POST requests are allowed.")), store, [])
    else if EventType(e) == "payment.created" then
      match e.payment
      case None => ConfirmStep(Response(500, Crash), store, [])
      case Some(p) =>
        if !Found(store, p) then ConfirmStep(Response(400, Message("Reservation details not found.")), store, [])
        else
          var k := p.orderId.value;
          ConfirmStep(Response(200, Message("Payment confirmation received")), store - {k},
                      [Email(Stored(store, k)), Sms(Stored(store, k))])
    else ConfirmStep(Response(400, Message("Invalid event type")), store, [])
  }

  /**
   * A second delivery of a confirmed payment: for an ordinary id it finds
   * nothing, 400 and nothing sent; an inherited name survives the `delete`
   * and is e-mailed and texted again.
   */
  lemma ConfirmReplay(store: Store, verb: string, e: SquareEvent)
    requires Confirm(store, verb, e).sent != []
    ensures var first := Confirm(store, verb, e);
      var k := e.payment.value.orderId.value;
      (k !in Inherited ==>
         Confirm(first.store, verb, e) == ConfirmStep(Response(400, Message("Reservation details not found.")), first.store, []))
      && (k in Inherited ==>
         Confirm(first.store, verb, e)
           == ConfirmStep(Response(200, Message("Payment confirmation received")), first.store, [Email(NoDetails), Sms(NoDetails)]))
  {
    var first := Confirm(store, verb, e);
    var k := e.payment.value.orderId.value;
    assert k !in first.store;
    assert first.store - {k} == first.store;
  }

  /**
   * From the store this function starts with, a delivery is confirmed
   * exactly when its order id is an inherited name, and then it sends an
   * e-mail and an SMS of no details and leaves the store empty.
   */
  lemma EmptyStoreConfirmsInherited(verb: string, e: SquareEvent)
    ensures var c := Confirm(map[], verb, e);
      (c.sent != [] <==> verb == "POST" && EventType(e) == "payment.created" && e.payment.Some?
                         && e.payment.value.orderId.Some? && e.payment.value.orderId.value in Inherited)
      && (c.sent != [] ==>
            c == ConfirmStep(Response(200, Message("Payment confirmation received")), map[], [Email(NoDetails), Sms(NoDetails)]))
      && (c.sent == [] ==> c.response.status != 200)
  {
    var empty: Store := map[];
    var c := Confirm(empty, verb, e);
    if c.sent != [] {
      assert empty - {e.payment.value.orderId.value} == empty;
    } else if verb == "POST" && EventType(e) == "payment.created" && e.payment.Some? && e.payment.value.orderId.Some? {
      assert "" !in Inherited;
    }
  }

  /** The serverless function's instance: its module-level store, and every notification sent. */
  class ConfirmationFunction {
    var store: Store
    var sent: seq<Notification>

    constructor ()
      ensures store == map[] && sent == []
    {
      store := map[];
      sent := [];
    }

    method Handle(verb: string, e: SquareEvent) returns (response: Response)
      modifies this`store, this`sent
      ensures var c := Confirm(old(store), verb, e);
        response == c.response && store == c.store && sent == old(sent) + c.sent
    {
      if verb != "POST" {
        response := Response(405, Message("Only POST requests are allowed."));
        return;
      }
      var eventType := if e.kind != "" then e.kind else e.eventType;
      if eventType != "payment.created" {
        response := Response(400, Message("Invalid event type"));
        return;
      }
      if e.payment.None? {
        response := Response(500, Crash);
        return;
      }
      var orderId := e.payment.value.orderId;
      if orderId.None? || orderId.value == "" || (orderId.value !in store && orderId.value !in Inherited) {
        response := Response(400, Message("Reservation details not found."));
        return;
      }
      var details := if orderId.value in store then store[orderId.value] else NoDetails;
      sent := sent + [Email(details), Sms(details)];
      store := store - {orderId.value};
      response := Response(200, Message("Payment confirmation received"));
    }
  }

  /**
   * The two functions as deployed: each has its own store, so the checkout's
   * write never reaches the confirmation, and a payment for the very order
   * just created is answered "Reservation details not found." and notifies
   * no one, unless the id is an inherited name.
   */
  method SeparateStores(req: CheckoutRequest, url: string, orderId: string, e: SquareEvent)
    returns (checkoutReply: Response, confirmationReply: Response, sent: seq<Notification>)
    requires ApiCreateCheckout.Complete(req) && orderId != ""
    requires EventType(e) == "payment.created" && e.payment.Some? && e.payment.value.orderId == Some(orderId)
    ensures checkoutReply == Response(200, CheckoutUrl(url))
    ensures orderId !in Inherited ==>
              confirmationReply == Response(400, Message("Reservation details not found.")) && sent == []
    ensures orderId in Inherited ==>
              confirmationReply == Response(200, Message("Payment confirmation received"))
              && sent == [Email(NoDetails), Sms(NoDetails)]
  {
    var checkout := new ApiCreateCheckout.CheckoutFunction();
    var confirmation := new ConfirmationFunction();
    var order;
    order, checkoutReply := checkout.Handle("POST", req, Created(url, Some(orderId)));
    assert orderId in checkout.store;
    confirmationReply := confirmation.Handle("POST", e);
    sent := confirmation.sent;
    EmptyStoreConfirmsInherited("POST", e);
  }
}
