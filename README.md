# SilverFoxRides booking backend, modelled in Dafny

SilverFoxRides sells rides. A booking form posts a reservation and a price.
The backend asks a payment provider (Square or Stripe) for a hosted checkout
page and answers with its URL. When the payment is made, the provider calls
a webhook. The webhook recovers the reservation and notifies the business by
e-mail, SMS and in one draft a calendar invitation.

The repository holds six drafts of that backend in seven files. Five files
each hold one draft's checkout handler and its webhook. The sixth draft puts
each handler in a file of its own: api/create-checkout.js and
api/payment-confirmation.js. This project models every one of those
handlers, the state the handlers keep, and the two ways the drafts carry the
reservation from checkout to webhook:

- **Server-side store.** server.js, index.js, and the pair
  api/create-checkout.js / api/payment-confirmation.js keep a module-level
  `reservationStore`. It is keyed by the provider's order or session id. It
  is modelled as a Dafny `map` field of a class. Each handler is a pure
  function (`Checkout`, `Confirm`, `Webhook`) that returns the reply, the new
  store and the notifications sent. A class method (`Server.CreateCheckout`,
  …) performs the same update on its fields, and its `ensures` ties the new
  state to that function.
- **Order note.** public/index.js, api/index.js and public/checkout.js write
  the reservation into the Square order's free-text note as `Label: value`
  pairs separated by ", ". The webhook reads the note back with the regular
  expression `Label: ([^,]+)`. The module `NoteCodec` models this. The
  regular expression is the leftmost match of the key followed by a
  non-comma, and the capture is the greedy comma-free prefix. The main
  results are:
  - a round trip: a note of non-empty values free of commas and labels
    decodes to the same seven fields;
  - a truncation law for values that hold a comma;
  - the proof that public/checkout.js's extra `Hours` pair is never read
    back.

Modules: `Booking` (shared values), `NoteCodec`, `Calendar` (the `ics` event
and its start tuple), `SquareCheckout` (the note-carrying `/create-checkout`
shared by the three note drafts), `SquareServer` (server.js), `StripeServer`
(index.js), `ApiCreateCheckout`, `ApiPaymentConfirmation`, `ApiSharedStore`,
`PublicSquareWebhook` (public/index.js), `ApiSquareWebhook` (api/index.js),
`PublicCheckout` (public/checkout.js).

Conventions:
- **Absent fields.** An absent string field of the request body is `""`.
  `undefined` and `""` are both falsy, and no branch of the code tells them
  apart.
- **Missing ids.** A provider id that may be missing is an `Option<string>`.
  It indexes an object as JavaScript does, so a missing id becomes the key
  `"undefined"` (`Booking.JsKey`).
- **Uncaught exceptions.** An exception no `try` catches is the reply
  `Response(500, Crash)`: Express answers such a request with 500 on its
  own.
- **Provider and environment results are inputs:**
  - what the provider's create call returned (`ProviderResult`);
  - whether the webhook signature matched (`signatureOk`);
  - what Stripe's `constructEvent` produced (`Verification`);
  - what the awaited e-mail call returned (`EmailResult`).
- **Notifications** are recorded as values (`Notification`) when the
  handler issues them. Most sends are fire-and-forget, and a send the
  handler issues is recorded whatever its delivery does. The one awaited
  send is the Brevo e-mail of index.js. When that call throws
  (`EmailResult.Threw`), the handler answers 400, and the model records no
  e-mail and no SMS for it.
- **Plain-object stores.** A `reservationStore` is a plain `{}`. Indexing
  it with a name it inherits from `Object.prototype`, such as "constructor",
  finds a truthy function even when the store has no entry of its own, and
  `delete` does not remove it (`Booking.Inherited`). The details read from
  such a value have none of the reservation's fields (`Booking.NoDetails`).

## Model

| member | source | states |
|---|---|---|
| Booking.JsKey | server.js:58-59 | an order id that is present is the store key itself; a missing one becomes "undefined" |
| Booking.KeyCollision | server.js:58-59 | two order ids reach the same store entry exactly when they are equal, or one is missing and the other is the text "undefined" |
| SquareServer.Checkout | server.js:31-70 | the order is "Ride Booking", quantity "1", the price in USD, with no note; on success the reply is 200 with the URL and the reservation is stored under the order id's key, adding exactly that key; on failure the reply is 500 "Error creating checkout." and the store is unchanged; every other entry is kept |
| SquareServer.Confirm | server.js:72-100 | any event type other than payment.created gives 400 "Invalid event type"; a missing payment crashes with 500; an e-mail is sent exactly when `reservationStore[orderId]` is truthy, that is, when the store's own entry holds a reservation or, with no own entry, the key is an inherited name; the e-mail carries the own entry's reservation, or no details for an inherited name; then the reply is 200 and the key alone is deleted; otherwise the store is unchanged and the reply is 200 "Duplicate or missing data. Event ignored." |
| SquareServer.ConfirmKeepsOthers | server.js:79-89 | a confirmation touches no entry but the paid order's |
| SquareServer.ConfirmReplay | server.js:79-96 | a second delivery of the same payment sends nothing and is answered "Duplicate or missing data. Event ignored." when the key is not an inherited name; for an inherited name that was confirmed, the `delete` leaves it in place and the replay e-mails no details again with 200 |
| SquareServer.InheritedAlwaysFound | server.js:79-91 | a payment whose order id is an inherited name the store does not own is answered 200 with an e-mail of no details, and leaves the store unchanged |
| SquareServer.CheckoutThenConfirm | server.js:54-91 | a created link followed by its payment e-mails exactly the stored reservation and leaves the store as before, without that key |
| SquareServer.MissingIdsMeet | server.js:58-80 | a link without an order id and a payment without one meet under the key "undefined", and the e-mail goes out |
| SquareServer.ConfirmAllBounded | server.js:79-89 | over any sequence of deliveries, the e-mails sent plus the entries left are at most the entries at the start plus the deliveries for inherited names; without such deliveries they are exactly the entries at the start, so no more e-mails are sent than reservations were stored |
| SquareServer.InheritedFloods | server.js:79-89 | from a store without an own entry for it, `n` deliveries for an inherited name send `n` e-mails and leave the store unchanged, so the e-mails are not bounded by the reservations stored |
| SquareServer.ConfirmOwn | server.js:79 | with the guard reading only the store's own entries, an e-mail is sent only for an own entry holding a reservation, which is then deleted; deliveries for ids that are not inherited names are handled as before |
| SquareServer.ConfirmOwnAllBounded | server.js:79-89 | with the own-entry guard, over any sequence of deliveries the e-mails sent plus the entries left equal the entries at the start, whatever the ids |
| SquareServer.Server.CreateCheckout | server.js:31-70 | the handler updates the server's store as `Checkout` prescribes |
| SquareServer.Server.PaymentConfirmation | server.js:72-100 | the handler updates the store and appends to the notifications sent as `Confirm` prescribes |
| StripeServer.Checkout | index.js:62-95 | the session requested is one "Ride Booking" at the price in cents, "usd", with the reservation as metadata and the thank-you / book URLs; on success the reply is 200 with the URL and the reservation is stored under the session id's key; on failure the reply is 500 with the generic message and the store is unchanged; the store's keys only grow |
| StripeServer.Webhook | index.js:98-124 | a rejected signature gives 400 "Webhook Error: " and the reason; notifications are sent exactly for a verified checkout.session.completed whose metadata parses and whose e-mail call succeeds, and then they are the paid e-mail (with amount, payment intent and status) and the SMS of the metadata reservation, with 200; an unparseable metadata or a failed e-mail gives 400 "Webhook Error: " and the reason with nothing sent; any other event type gives 200 with nothing sent |
| StripeServer.RoundTripLineIff | index.js:176-191 | the e-mail body has a line starting "Next dropoff location for round trip: " exactly when the second drop-off is truthy, and that line carries it |
| StripeServer.FlightLineIff | index.js:176-191 | the e-mail body has a line starting "Flight Number: " exactly when the flight number is truthy, and that line carries it |
| StripeServer.OptionalLineIff | index.js:182 | a conditional line starts with its label exactly when its value is truthy |
| StripeServer.App.CreateCheckout | index.js:62-95 | the handler updates the store as `Checkout` prescribes |
| StripeServer.App.PaymentConfirmation | index.js:98-124 | the webhook appends what `Webhook` sends and cannot change the store |
| ApiCreateCheckout.Checkout | api/create-checkout.js:10-65 | a method other than POST gives 405 "Method not allowed"; a falsy price, key or reservation gives 400 with the missing-fields message and no order; an order is sent exactly for a complete POST; a failed call gives 500; a created link gives 200 with the URL; the store changes only when the returned order id is truthy, and then exactly at that id |
| ApiCreateCheckout.CheckoutWithoutIdKeepsStore | api/create-checkout.js:47-56 | a provider result without a truthy order id leaves the store as it was, while a created link is still answered 200 with its URL |
| ApiCreateCheckout.CheckoutKeepsOthers | api/create-checkout.js:49-50 | no entry other than the returned order id is altered, and none is removed |
| ApiCreateCheckout.CheckoutFunction.Handle | api/create-checkout.js:10-65 | the handler updates its own store as `Checkout` prescribes |
| ApiPaymentConfirmation.EventType | api/payment-confirmation.js:65 | the event type is payment.created exactly when `type` is, or `type` is empty and `event_type` is |
| ApiPaymentConfirmation.Confirm | api/payment-confirmation.js:62-91 | a method other than POST gives 405; other event types give 400 "Invalid event type"; a missing payment crashes with 500; the e-mail and SMS are sent exactly when the order id is truthy and the store has an entry under it, its own or an inherited one; they carry the own entry's reservation, or no details for an inherited name; then the reply is 200 and that key is deleted; otherwise the store is unchanged and the reply is not 200; an unknown order gives 400 "Reservation details not found." |
| ApiPaymentConfirmation.ConfirmReplay | api/payment-confirmation.js:71-84 | a second delivery of a confirmed payment finds nothing and sends nothing when the id is not an inherited name; for an inherited name the replay is answered 200 and sends the e-mail and SMS of no details again |
| ApiPaymentConfirmation.EmptyStoreConfirmsInherited | api/payment-confirmation.js:4 | from the store this function starts with, a delivery is confirmed exactly when its order id is an inherited name, and then it sends the e-mail and SMS of no details with 200; every other delivery is answered with a status other than 200 |
| ApiPaymentConfirmation.ConfirmationFunction.Handle | api/payment-confirmation.js:62-91 | the handler updates its own store and the notifications as `Confirm` prescribes |
| ApiPaymentConfirmation.SeparateStores | api/payment-confirmation.js:4 | with the two functions' separate stores, a payment for the order just created is answered 400 "Reservation details not found." and notifies no one, unless the id is an inherited name, which is answered 200 with notifications of no details |
| ApiSharedStore.CheckoutThenConfirm | api/create-checkout.js:49-50 | over one shared store, a complete checkout followed by its payment sends one e-mail and one SMS of the reservation and leaves the store as before; the replay sends nothing, except for an inherited name |
| ApiSharedStore.SharedStore | api/payment-confirmation.js:71-84 | with one store shared by both functions, the payment is confirmed once (200, e-mail and SMS) and its replay refused (400), except for an inherited name, whose replay is confirmed again |
| ApiSharedStore.PaymentsApi.CreateCheckout | api/create-checkout.js:10-65 | the shared-store checkout updates the store as `ApiCreateCheckout.Checkout` prescribes |
| ApiSharedStore.PaymentsApi.PaymentConfirmation | api/payment-confirmation.js:62-91 | the shared-store confirmation updates the store and the notifications as `Confirm` prescribes |
| NoteCodec.FirstMatch | public/index.js:127-128 | the match found is the leftmost position where the key is followed by a non-comma; none is found only when there is no such position |
| NoteCodec.UpToComma | public/index.js:127 | the capture `[^,]+` is a prefix without a comma that stops at a comma or at the end |
| NoteCodec.ExtractField | public/index.js:126-130 | the extracted value is never empty and never holds a comma |
| NoteCodec.ExtractFieldMeaning | public/index.js:126-130 | the value is either the capture after the leftmost match, or "Not provided" when nothing matches |
| NoteCodec.NoteFields | public/index.js:54 | the note holds the seven labels in the template's order |
| NoteCodec.NoteIsJoin | public/index.js:54 | the note template is the seven pairs joined by ", " |
| NoteCodec.NoteWithHoursIsJoin | public/checkout.js:49 | the calendar draft's template is the same join with the Hours pair appended |
| NoteCodec.DecodeReservation | public/index.js:101-111 | the rebuilt record has the given e-mail and no hours, second drop-off or flight number |
| NoteCodec.ExtractFromJoin | public/index.js:126-130 | over any join of pairs with suffix-free labels, extracting a label reads its value up to the first comma, provided no earlier value contains its key |
| NoteCodec.AllLabelsSuffixFree | public/index.js:54 | no label of the note is a suffix of another, so no key is found inside another label |
| NoteCodec.DecodeTruncates | public/index.js:101-111 | decoding the note gives back each of the seven values up to its first comma |
| NoteCodec.NoteRoundTrip | public/index.js:54 | a note of non-empty values without commas or label keys decodes to exactly the seven fields it was built from |
| NoteCodec.NoteWithHoursDecodes | public/checkout.js:49 | the eight-pair note decodes like the seven-pair one, so the hours are never read back |
| NoteCodec.EmptyValueLost | public/index.js:129 | an empty pickup location is never decoded as empty, because the capture `([^,]+)` needs at least one character |
| NoteCodec.EmptyNoteDecodes | public/index.js:101 | an absent note decodes every field to "Not provided" |
| SquareCheckout.OrderNote | public/checkout.js:49 | the order note is the join of the seven pairs, plus Hours in the calendar draft |
| SquareCheckout.NoteCheckout | public/index.js:38-70 | an order is sent exactly when the reservation is present, with the note of its pairs; the reply is 200 with the URL exactly when the reservation is present and the link was created, and 500 with the generic message otherwise |
| PublicSquareWebhook.BuyerEmail | public/index.js:110 | the e-mail is the buyer's when truthy and "not provided" otherwise, so it is never empty |
| PublicSquareWebhook.PaymentConfirmation | public/index.js:72-124 | nothing is ever sent; a bad signature gives 400 "Invalid signature"; the reply is 200 exactly for a test notification or a payment.created with a payment; the reservation is rebuilt from the note exactly in the latter case; a payment.created without payment gives 400 "Invalid payment data received."; any other event type gives 400 "Invalid event type" |
| PublicSquareWebhook.CheckoutThenPayment | public/index.js:54 | the note this draft's checkout sends comes back from its webhook as the seven fields it was built from |
| ApiSquareWebhook.PaymentConfirmation | api/index.js:73-119 | a bad signature gives 400; an e-mail is sent exactly for a signed payment.created with a payment, and it is the record decoded from the note, with 200; everything else is a 400 with nothing sent |
| ApiSquareWebhook.CheckoutThenPayment | api/index.js:52 | the note this draft's checkout sends comes back as exactly one e-mail of the seven fields |
| ApiSquareWebhook.TestNotificationDiffers | api/index.js:83 | Square's test notification is acknowledged by public/index.js and refused as an invalid event by api/index.js |
| PublicCheckout.PaymentConfirmation | public/checkout.js:69-95 | at most one notification; a calendar e-mail of the decoded record with its ride event is sent exactly for payment.created with a payment, with 200; a payment.created without payment crashes with 500; other types give 400 |
| PublicCheckout.CheckoutThenPayment | public/checkout.js:49 | the eight-pair note of this draft comes back as one calendar e-mail of the seven fields, built from the decoded record |
| PublicCheckout.MissingDateReachesCalendar | public/checkout.js:113-118 | a note in which neither the date key nor the time key matches puts "Not provided" into the event start as year and hours, with the other components undefined |
| Calendar.Split | public/checkout.js:114 | `split` yields at least one piece, no piece holds the separator, and joining the pieces gives the text back |
| Calendar.SplitJoin | public/checkout.js:114 | splitting the join of separator-free pieces gives those pieces back |
| Calendar.ToNumber | public/checkout.js:114 | `Number` of the empty piece is 0 and of a digit string its decimal value; any other text is left uninterpreted, as its own text |
| Calendar.StartOfDigits | public/checkout.js:114-118 | a date Y-M-D and a time h:m of digit strings give the start tuple of their five values |
| Calendar.StartOfNotProvided | public/checkout.js:114-118 | "Not provided" as date and time gives that text as year and hours and undefined elsewhere |
| Calendar.StartIgnoresExtra | public/checkout.js:114 | whatever follows a third dash in the date leaves the whole start tuple as it was |
| Calendar.Invite | public/index.js:162-175 | the invitation starts at the pickup date and time, lasts one hour, is at the pickup location, and has the customer's e-mail as attendee |
| Calendar.RideEvent | public/checkout.js:117-126 | the ride event starts at the pickup date and time, lasts one hour, is located "pickup to drop-off", is described as "Your ride from " that location and a period, and has the customer's first name and e-mail as attendee |
| Calendar.RideEventTitle | public/checkout.js:120 | the title is "Ride Reservation for ", the first name, a space and the last name |

## Left out

- HTTP and Express plumbing is not modelled: routing, static files, the CORS middleware and the host redirect of index.js (index.js:25-45), and listening on a port. Each handler is a function of the parsed request.
- The JSON body parser of api/index.js is registered after `/create-checkout` (api/index.js:71). There `req.body` is undefined, so that route would always throw. `SquareCheckout.NoteCheckout` models the route as if the body were parsed.
- Provider SDK calls are inputs: Square's `createPaymentLink`, Stripe's `checkout.sessions.create`, Brevo's `sendTransacEmail`. What they return or throw is a parameter.
- Signature checks are booleans. The Square HMAC-SHA256 check (public/index.js:21-36, api/index.js:19-34) is `signatureOk`, and Stripe's `constructEvent` is `Verification`. No cryptography is modelled.
- `JSON.stringify` of the metadata and `JSON.parse` of it are not modelled (index.js:83, index.js:111). The parse result is a `Metadata` input.
  - A metadata that parses to a number, a string or a boolean has none of the reservation's fields. Both sends go out and the reply is 200. That case is the input `Parsed(Booking.NoDetails)`.
  - A metadata that parses to `null` is left out. The e-mail would go out, then the SMS would throw when it reads a field of `null`, and the reply would be 400.
- Floating point is left out:
  - `Math.round(price * 100)`: the price enters the model already in cents.
  - `!price` on a sub-cent price.
  - The printed amount `amount_total / 100`, which enters the e-mail body as the text parameter `amountText`.
  - `Number` of text that is not a digit string. `Calendar.ToNumber` leaves such text uninterpreted, as `Unparsed`.
- Mail, SMS and calendar transports (nodemailer, Vonage, the Bird HTTP API, `ics.createEvent`) have delivery results and callbacks. These are not modelled; a notification is recorded when it is started. The plain-text bodies of these notifications are left out too. The Brevo HTML body of index.js is modelled (`StripeServer.EmailLines`).
- `StripeServer.Webhook`: the SMS call in index.js:116 returns `undefined`, and its failures go to an unawaited callback, so its outcome never reaches the reply. `Received` carries only `res1`.
- Concurrency between requests is left out, and so is logging. Handlers run one at a time, as the single-threaded event loop runs their synchronous parts.
- The 500 replies of the `catch` blocks in public/index.js:120-123 and api/index.js:111-114 are left out. Nothing inside those `try` blocks can throw in the model: optional chaining guards the payment, and extraction cannot throw.
- Absent and empty are not told apart. A template literal prints an `undefined` field as the text "undefined", but the model's absent field is `""`. So a note built from a reservation with missing fields holds "undefined" where the model writes nothing.
- A store write under the key "__proto__" (server.js:59, index.js:88, api/create-checkout.js:50) does not create an entry in JavaScript: it replaces the store's prototype with the reservation object, or does nothing when the value is `undefined`. The model records it as an ordinary own entry. Reading "__proto__" is modelled: it is one of the inherited names.
- `sendCalendarInvite` is defined but never called in public/index.js and api/index.js. It is modelled as `Calendar.Invite` only.
- `sendEmailNotification` and `sendSMSNotification` of the note drafts are recorded as notifications. Their text is not modelled.

## Findings

| source | as written | input that shows it | evidently intended | confidence | as-written member | corrected member |
|---|---|---|---|---|---|---|
| api/payment-confirmation.js:4 | the confirmation function declares its own `reservationStore`, which nothing ever writes; api/create-checkout.js:8 writes a different one | a complete POST to create-checkout that returns order id "o1", then a payment.created webhook for order "o1" | the confirmation finds the reservation the checkout stored, e-mails and texts it once, and refuses the replay | not executed | ApiPaymentConfirmation.SeparateStores | ApiSharedStore.SharedStore |
| server.js:79 | the guard `reservationStore[orderId]` on a plain `{}` is also truthy for the names the store inherits, and `delete` at server.js:89 does not remove them | to a fresh server, any number of payment.created webhooks (server.js checks no signature) whose payment has order_id "constructor" | only a stored reservation is e-mailed, once, so the e-mails never outnumber the reservations stored | not executed | SquareServer.InheritedFloods | SquareServer.ConfirmOwnAllBounded |
