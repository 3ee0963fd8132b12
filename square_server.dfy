/**
 * The draft server.js: a Square checkout that remembers the reservation in
 * the module-level `reservationStore` under the order id Square returns, and
 * a `/payment-confirmation` webhook that e-mails the stored reservation once
 * and deletes it.
 *
 * The store maps the key JavaScript uses (the order id, or "undefined" when
 * the id is missing) to what was stored (`None` for an `undefined`
 * `reservationDetails`). Being a plain `{}`, it also answers the names it
 * inherits from `Object.prototype` (`Booking.Inherited`).
 */
module SquareServer {
  import opened Booking

  type Store = map<string, Option<Reservation>>

  /**
   * `reservationStore[key]` is truthy: the store's own entry holds a
   * reservation, or it has no own entry and the name is inherited.
   */
  predicate Pending(store: Store, key: string) {
    if key in store then store[key].Some? else key in Inherited
  }

  /** The details read at a pending key: the own entry's, or none of the fields for an inherited name. */
  function Stored(store: Store, key: string): Reservation
    requires Pending(store, key)
  {
    if key in store then store[key].value else NoDetails
  }

  /** The order sent to Square, the reply, and the store afterwards. */
  datatype CheckoutStep = CheckoutStep(order: SquareOrder, response: Response, store: Store)

  /** The reply, the store afterwards, and the notifications this delivery sent. */
  datatype ConfirmStep = ConfirmStep(response: Response, store: Store, sent: seq<Notification>)

  /** `/create-checkout`: the order is sent whatever the request holds; only a created link writes the store. */
  function Checkout(store: Store, req: CheckoutRequest, result: ProviderResult): (c: CheckoutStep)
    ensures c.order == SquareOrder(req.idempotencyKey, "Ride Booking", "1", req.price, "USD", None)
    ensures result.Failed? ==> c.response == Response(500, Error("Error creating checkout.")) && c.store == store
    ensures result.Created? ==>
              c.response == Response(200, CheckoutUrl(result.url))
              && JsKey(result.key) in c.store && c.store[JsKey(result.key)] == req.details
              && c.store.Keys == store.Keys + {JsKey(result.key)}
    ensures forall k :: k in store && (result.Failed? || k != JsKey(result.key)) ==> k in c.store && c.store[k] == store[k]
  {
    var order := SquareOrder(req.idempotencyKey, "Ride Booking", "1", req.price, "USD", None);
    match result
    case Created(url, key) => CheckoutStep(order, Response(200, CheckoutUrl(url)), store[JsKey(key) := req.details])
    case Failed => CheckoutStep(order, Response(500, Error("Error creating checkout.")), store)
  }

  /** `/payment-confirmation`. */
  function Confirm(store: Store, e: SquareEvent): (c: ConfirmStep)
    ensures e.kind != "payment.created" ==> c == ConfirmStep(Response(400, Message("Invalid event type")), store, [])
    ensures e.kind == "payment.created" && e.payment.None? ==> c == ConfirmStep(Response(500, Crash), store, [])
    ensures c.sent != [] <==> e.kind == "payment.created" && e.payment.Some? && Pending(store, JsKey(e.payment.value.orderId))
    ensures c.sent != [] ==>
              var key := JsKey(e.payment.value.orderId);
              c == ConfirmStep(Response(200, Message("Payment confirmation received")), store - {key},
                               [Email(Stored(store, key))])
    ensures c.sent == [] ==> c.store == store
    ensures e.kind == "payment.created" && e.payment.Some? && !Pending(store, JsKey(e.payment.value.orderId)) ==>
              c.response == Response(200, Message("Duplicate or missing data. Event ignored."))
  {
    if e.kind == "payment.created" then
      match e.payment
      case None => ConfirmStep(Response(500, Crash), store, [])
      case Some(p) =>
        var key := JsKey(p.orderId);
        if Pending(store, key) then
          ConfirmStep(Response(200, Message("Payment confirmation received")), store - {key}, [Email(Stored(store, key))])
        else
          ConfirmStep(Response(200, Message("Duplicate or missing data. Event ignored.")), store, [])
    else ConfirmStep(Response(400, Message("Invalid event type")), store, [])
  }

  /** Deleting the key touches no other entry. */
  lemma ConfirmKeepsOthers(store: Store, e: SquareEvent, k: string)
    requires k in store
    requires e.payment.None? || k != JsKey(e.payment.value.orderId)
    ensures k in Confirm(store, e).store && Confirm(store, e).store[k] == store[k]
  {
  }

  /**
   * Delivering the same payment twice: for an ordinary id the second delivery
   * is ignored, but an inherited name survives the `delete` and is e-mailed again.
   */
  lemma ConfirmReplay(store: Store, e: SquareEvent)
    requires e.kind == "payment.created" && e.payment.Some?
    ensures var key := JsKey(e.payment.value.orderId);
      var first := Confirm(store, e);
      var second := Confirm(first.store, e);
      (key !in Inherited ==>
         second == ConfirmStep(Response(200, Message("Duplicate or missing data. Event ignored.")), first.store, []))
      && (key in Inherited && first.sent != [] ==>
         second == ConfirmStep(Response(200, Message("Payment confirmation received")), first.store, [Email(NoDetails)]))
  {
    var key := JsKey(e.payment.value.orderId);
    var first := Confirm(store, e);
    if first.sent != [] {
      assert key !in first.store;
      assert first.store - {key} == first.store;
    } else {
      assert !Pending(first.store, key);
    }
  }

  /** An inherited name the store does not own is found on every delivery, and the store never changes. */
  lemma InheritedAlwaysFound(store: Store, orderId: Option<string>, note: string, buyer: string)
    requires JsKey(orderId) in Inherited && JsKey(orderId) !in store
    ensures Confirm(store, SquareEvent("payment.created", "", Some(Payment(orderId, note, buyer))))
         == ConfirmStep(Response(200, Message("Payment confirmation received")), store, [Email(NoDetails)])
  {
    assert store - {JsKey(orderId)} == store;
  }

  /** A created link followed by Square's payment for that order sends the stored reservation and forgets it. */
  lemma CheckoutThenConfirm(store: Store, req: CheckoutRequest, url: string, orderId: Option<string>, p: Payment)
    requires req.details.Some? && p.orderId == orderId
    ensures var c := Checkout(store, req, Created(url, orderId));
      var f := Confirm(c.store, SquareEvent("payment.created", "", Some(p)));
      f.sent == [Email(req.details.value)] && f.store == store - {JsKey(orderId)}
  {
    var c := Checkout(store, req, Created(url, orderId));
    assert c.store - {JsKey(orderId)} == store - {JsKey(orderId)};
  }

  /**
   * A link created without an order id is stored under "undefined", and a
   * payment without an order id then picks it up.
   */
  lemma MissingIdsMeet(store: Store, req: CheckoutRequest, url: string, note: string, buyer: string)
    requires req.details.Some?
    ensures var c := Checkout(store, req, Created(url, None));
      Confirm(c.store, SquareEvent("payment.created", "", Some(Payment(None, note, buyer)))).sent
        == [Email(req.details.value)]
  {
  }

  /** The store after a run of deliveries and every notification the run sent. */
  datatype Run = Run(store: Store, sent: seq<Notification>)

  /**
   * Deliveries one after another, from a store: with the handler as written,
   * or (`ownOnly`) with the own-property lookup of `ConfirmOwn`.
   */
  function ConfirmAll(store: Store, es: seq<SquareEvent>, ownOnly: bool): (r: Run)
    ensures es == [] ==> r == Run(store, [])
    decreases |es|
  {
    if es == [] then Run(store, [])
    else
      var first := if ownOnly then ConfirmOwn(store, es[0]) else Confirm(store, es[0]);
      var rest := ConfirmAll(first.store, es[1..], ownOnly);
      Run(rest.store, first.sent + rest.sent)
  }

  /** A payment.created delivery whose order id is an inherited name. */
  predicate HitsInherited(e: SquareEvent) {
    e.kind == "payment.created" && e.payment.Some? && JsKey(e.payment.value.orderId) in Inherited
  }

  /** How many deliveries of a run hit an inherited name. */
  function InheritedHits(es: seq<SquareEvent>): (n: nat)
    ensures n <= |es|
    ensures n == 0 <==> forall k :: 0 <= k < |es| ==> !HitsInherited(es[k])
    decreases |es|
  {
    if es == [] then 0
    else
      var rest := InheritedHits(es[1..]);
      assert forall k :: 1 <= k < |es| ==> es[k] == es[1..][k - 1];
      (if HitsInherited(es[0]) then 1 else 0) + rest
  }

  lemma RemoveOne(store: Store, k: string)
    requires k in store
    ensures |store - {k}| == |store| - 1
  {
    assert (store - {k}).Keys == store.Keys - {k};
    assert |store.Keys - {k}| == |store.Keys| - 1;
  }

  /** One delivery: an e-mail costs an own entry, except at most one e-mail of an inherited name. */
  lemma ConfirmCost(store: Store, e: SquareEvent)
    ensures var c := Confirm(store, e);
      |c.sent| + |c.store| <= |store| + (if HitsInherited(e) then 1 else 0)
      && (!HitsInherited(e) ==> |c.sent| + |c.store| == |store|)
  {
    var c := Confirm(store, e);
    if c.sent != [] {
      var key := JsKey(e.payment.value.orderId);
      if key in store {
        RemoveOne(store, key);
      } else {
        assert store - {key} == store;
      }
    }
  }

  /**
   * However the deliveries go, each e-mail either uses up a stored entry or
   * answers a delivery for an inherited name: without such deliveries, the
   * e-mails sent and the entries left add up to the entries at the start.
   */
  lemma {:induction false} ConfirmAllBounded(store: Store, es: seq<SquareEvent>)
    ensures var r := ConfirmAll(store, es, false);
      |r.sent| + |r.store| <= |store| + InheritedHits(es)
      && |r.sent| <= |store| + InheritedHits(es)
      && (InheritedHits(es) == 0 ==> |r.sent| + |r.store| == |store|)
    decreases |es|
  {
    if es != [] {
      var first := Confirm(store, es[0]);
      ConfirmCost(store, es[0]);
      ConfirmAllBounded(first.store, es[1..]);
    }
  }

  /** From a store without that own entry, `n` deliveries for an inherited name send `n` e-mails. */
  lemma {:induction false} InheritedFloods(store: Store, e: SquareEvent, n: nat)
    requires HitsInherited(e) && JsKey(e.payment.value.orderId) !in store
    ensures ConfirmAll(store, seq(n, _ => e), false) == Run(store, seq(n, _ => Email(NoDetails)))
    decreases n
  {
    if n > 0 {
      var p := e.payment.value;
      InheritedAlwaysFound(store, p.orderId, p.note, p.buyerEmail);
      assert seq(n, _ => e)[0] == e;
      assert seq(n, _ => e)[1..] == seq(n - 1, _ => e);
      InheritedFloods(store, e, n - 1);
      assert [Email(NoDetails)] + seq(n - 1, _ => Email(NoDetails)) == seq(n, _ => Email(NoDetails));
    }
  }

  /** The handler with the guard looking at the store's own entries only (`Object.hasOwn`). */
  function ConfirmOwn(store: Store, e: SquareEvent): (c: ConfirmStep)
    ensures c.sent != [] ==>
              e.payment.Some?
              && var key := JsKey(e.payment.value.orderId);
                 key in store && store[key].Some?
                 && c == ConfirmStep(Response(200, Message("Payment confirmation received")), store - {key},
                                     [Email(store[key].value)])
    ensures c.sent == [] ==> c.store == store
    ensures !HitsInherited(e) ==> c == Confirm(store, e)
  {
    if HitsInherited(e) && JsKey(e.payment.value.orderId) !in store then
      ConfirmStep(Response(200, Message("Duplicate or missing data. Event ignored.")), store, [])
    else Confirm(store, e)
  }

  /** With the own-property guard, every e-mail uses up a stored reservation, whatever the ids. */
  lemma {:induction false} ConfirmOwnAllBounded(store: Store, es: seq<SquareEvent>)
    ensures var r := ConfirmAll(store, es, true);
      |r.sent| + |r.store| == |store| && |r.sent| <= |store|
    decreases |es|
  {
    if es != [] {
      var first := ConfirmOwn(store, es[0]);
      ConfirmOwnAllBounded(first.store, es[1..]);
      if first.sent != [] {
        RemoveOne(store, JsKey(es[0].payment.value.orderId));
      }
    }
  }

  /** The running server: the store and every notification sent so far. */
  class Server {
    var store: Store
    var sent: seq<Notification>

    constructor ()
      ensures store == map[] && sent == []
    {
      store := map[];
      sent := [];
    }

    method CreateCheckout(req: CheckoutRequest, result: ProviderResult) returns (order: SquareOrder, response: Response)
      modifies this`store
      ensures var c := Checkout(old(store), req, result);
        order == c.order && response == c.response && store == c.store
    {
      order := SquareOrder(req.idempotencyKey, "Ride Booking", "1", req.price, "USD", None);
      if result.Created? {
        store := store[JsKey(result.key) := req.details];
        response := Response(200, CheckoutUrl(result.url));
      } else {
        response := Response(500, Error("Error creating checkout."));
      }
    }

    method PaymentConfirmation(e: SquareEvent) returns (response: Response)
      modifies this`store, this`sent
      ensures var c := Confirm(old(store), e);
        response == c.response && store == c.store && sent == old(sent) + c.sent
    {
      if e.kind == "payment.created" {
        if e.payment.None? {
          response := Response(500, Crash);
          return;
        }
        var key := JsKey(e.payment.value.orderId);
        if (key in store && store[key].Some?) || (key !in store && key in Inherited) {
          var details := if key in store then store[key].value else NoDetails;
          sent := sent + [Email(details)];
          store := store - {key};
          response := Response(200, Message("Payment confirmation received"));
        } else {
          response := Response(200, Message("Duplicate or missing data. Event ignored."));
        }
      } else {
        response := Response(400, Message("Invalid event type"));
      }
    }
  }
}
