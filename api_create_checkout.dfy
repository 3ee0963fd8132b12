/**
 * The serverless function api/create-checkout.js: POST only, a gate on the
 * three required fields, a Square payment link for one "Ride Booking", and a
 * write of the reservation into this function's own `reservationStore` under
 * the order id, when Square returns one.
 */
module ApiCreateCheckout {
  import opened Booking

  type Store = map<string, Reservation>

  const MissingFields: string := "Missing required fields: price, idempotencyKey, or reservationDetails"
  const CheckoutFailed: string := "Error creating checkout. Please try again later."

  /** `price && idempotencyKey && reservationDetails`: none of the three is falsy. */
  predicate Complete(req: CheckoutRequest) {
    req.price.Some? && req.price.value != 0
    && req.idempotencyKey.Some? && Truthy(req.idempotencyKey.value)
    && req.details.Some?
  }

  /** The key the store is written under: the order id, when it is truthy. */
  function StoredKey(result: ProviderResult): (k: Option<string>)
    ensures k.Some? <==> result.Created? && result.key.Some? && Truthy(result.key.value)
    ensures k.Some? ==> k == result.key
  {
    if result.Created? && result.key.Some? && Truthy(result.key.value) then result.key else None
  }

  /** The order sent to Square (if any), the reply, and the store afterwards. */
  datatype CheckoutStep = CheckoutStep(order: Option<SquareOrder>, response: Response, store: Store)

  /** The handler, for HTTP method `verb`; Square's answer is `result`. */
  function Checkout(store: Store, verb: string, req: CheckoutRequest, result: ProviderResult): (c: CheckoutStep)
    ensures verb != "POST" ==> c == CheckoutStep(None, Response(405, Message("Method not allowed")), store)
    ensures verb == "POST" && !Complete(req) ==> c == CheckoutStep(None, Response(400, Error(MissingFields)), store)
    ensures c.order.Some? <==> verb == "POST" && Complete(req)
    ensures c.order.Some? ==> c.order.value == SquareOrder(req.idempotencyKey, "Ride Booking", "1", req.price, "USD", None)
    ensures c.order.Some? && result.Failed? ==> c.response == Response(500, Error(CheckoutFailed))
    ensures c.order.Some? && result.Created? ==> c.response == Response(200, CheckoutUrl(result.url))
    ensures c.store != store ==> c.order.Some? && StoredKey(result).Some?
    ensures c.order.Some? && StoredKey(result).Some? ==> c.store == store[StoredKey(result).value := req.details.value]
  {
    if verb != "POST" then CheckoutStep(None, Response(405, Message("Method not allowed")), store)
    else if !Complete(req) then CheckoutStep(None, Response(400, Error(MissingFields)), store)
    else
      var order := SquareOrder(req.idempotencyKey, "Ride Booking", "1", req.price, "USD", None);
      match result
      case Failed => CheckoutStep(Some(order), Response(500, Error(CheckoutFailed)), store)
      case Created(url, key) =>
        var written := if StoredKey(result).Some? then store[StoredKey(result).value := req.details.value] else store;
        CheckoutStep(Some(order), Response(200, CheckoutUrl(url)), written)
  }

  /** No entry other than the returned order id is touched, and none is ever removed. */
  lemma CheckoutKeepsOthers(store: Store, verb: string, req: CheckoutRequest, result: ProviderResult, k: string)
    requires k in store && StoredKey(result) != Some(k)
    ensures var c := Checkout(store, verb, req, result);
      k in c.store && c.store[k] == store[k] && store.Keys <= c.store.Keys
  {
  }

  /**
   * A provider result without a truthy order id (a failure, a missing id or
   * an empty one) leaves the store as it was, while a created link is still
   * answered 200.
   */
  lemma CheckoutWithoutIdKeepsStore(store: Store, verb: string, req: CheckoutRequest, result: ProviderResult)
    requires result.Failed? || result.key.None? || !Truthy(result.key.value)
    ensures Checkout(store, verb, req, result).store == store
    ensures verb == "POST" && Complete(req) && result.Created? ==>
              Checkout(store, verb, req, result).response == Response(200, CheckoutUrl(result.url))
  {
    assert StoredKey(result).None?;
  }

  /** The serverless function's instance: its module-level store. */
  class CheckoutFunction {
    var store: Store

    constructor ()
      ensures store == map[]
    {
      store := map[];
    }

    method Handle(verb: string, req: CheckoutRequest, result: ProviderResult)
      returns (order: Option<SquareOrder>, response: Response)
      modifies this`store
      ensures var c := Checkout(old(store), verb, req, result);
        order == c.order && response == c.response && store == c.store
    {
      order := None;
      if verb != "POST" {
        response := Response(405, Message("Method not allowed"));
        return;
      }
      if req.price.None? || req.price.value == 0 || req.idempotencyKey.None? || req.idempotencyKey.value == ""
         || req.details.None? {
        response := Response(400, Error(MissingFields));
        return;
      }
      order := Some(SquareOrder(req.idempotencyKey, "Ride Booking", "1", req.price, "USD", None));
      if result.Failed? {
        response := Response(500, Error(CheckoutFailed));
        return;
      }
      if result.key.Some? && result.key.value != "" {
        store := store[result.key.value := req.details.value];
      }
      response := Response(200, CheckoutUrl(result.url));
    }
  }
}
