# ecommerce platform: payment lifecycle, event log and supporting services in Dafny

This project models the core of a NestJS e-commerce monorepo.

The centre of the model is the payment lifecycle and its event log:

- `InMemoryEventStore`: an append-only map from aggregate id to its stream of domain events, plus a global log. Saves carry an optimistic-concurrency check on the expected version.
- `PaymentService`: the payment record's status machine (PENDING, SUCCEEDED, FAILED, REFUNDED, CANCELLED). The provider's reply decides each confirmation and refund, and every confirmation of a PENDING payment whose provider call returns publishes one domain event; an unknown id, a record that is not PENDING or a provider call that throws publishes nothing.
- `WebhookService`: routes Stripe, PayPal and Klarna notifications. For Stripe it finds the order's first PENDING payment with the notified intent id and confirms or fails it.
- `PaypalProvider`: the bearer-token cache of the OAuth 2.0 client-credentials grant (section 4.4 of RFC 6749). The token is refreshed 60 seconds before the `expires_in` of section 5.1. Every order call goes through this cache. The module also covers the order amount's two-decimal encoding.
- The domain-event base class and its subclass table of event type and aggregate type.

Around this centre sit smaller, sequential parts:

- the BFF's in-memory cart: line merge and running totals;
- the catalog's stock update, `findAll` paging, partial update and slug hook;
- the BFF product and order look-ups;
- the shared utilities: order and invoice numbers, masking, truncation and password rules;
- the zod schemas with a bound or a default (every schema of the shared validators except `WebhookEventSchema`, whose fields carry only type checks) and the class-validator DTOs;
- the `Pagination` request decorator;
- the email service's job and log fan-out.

How the source's state and effects are represented:

- Repositories and in-memory maps are `map` or `seq` fields of Dafny classes, with a `Valid()` invariant.
- Published events are appended to a ghost sequence, `DomainEvents.EventEmitter.published`.
- Anything the code obtains from outside is a parameter: provider replies, Stripe event construction, clocks, generated UUIDs and the HTTP replies of the PayPal API.
- A thrown exception is the `Failure` arm of a `Result`.
- `undefined` is `None`.
- JavaScript's `||` defaults are modelled as in the code: 0 and `""` fall through to the default. Destructuring defaults replace only `undefined`.

Some behaviours of the code are worth knowing, and the model keeps them as written:

- Only `getPaymentStatus`, which this model leaves out, stores PROCESSING, CANCELED or CANCELLED (the provider's status copied or mapped) and can move a REFUNDED record back to SUCCEEDED. None of the modelled operations sets those statuses, and `Payments.CanTransition` lists the changes the modelled operations make.
- There is no idempotency guard: a repeated Stripe delivery is absorbed only because the payment is no longer PENDING (`Webhooks.RepeatedSucceededDelivery`).
- A refund is not bounded by the amount paid (`Payments.RefundNotBounded`) and publishes no `payment.refunded` event.
- The Stripe failure handler never saves the FAILED status it sets (`Webhooks.WebhookService.HandlePaymentFailed`).

## Model

| member | source | states |
|---|---|---|
| EventStore.Message | libs/events/src/lib/event-store.ts:19 | the conflict message starts with 'Concurrency conflict. Expected version ' and goes on with the versions |
| EventStore.TotalLengthFrame | libs/events/src/lib/event-store.ts:22 | replacing the stream of an id that is not among the counted ids leaves the counted total unchanged |
| EventStore.TotalLengthUpdate | libs/events/src/lib/event-store.ts:22-23 | replacing one stream changes the total of all streams by the new length minus the old one; this keeps the invariant that the global log's length equals the sum of the stream lengths |
| EventStore.InMemoryEventStore.Stream | libs/events/src/lib/event-store.ts:17 | an aggregate never written to has the empty stream |
| EventStore.InMemoryEventStore.constructor | libs/events/src/lib/event-store.ts:11-13 | a new store has no streams and an empty global log |
| EventStore.InMemoryEventStore.SaveEvents | libs/events/src/lib/event-store.ts:15-24 | the save fails iff the stream length differs from the expected version; the error carries both numbers and nothing changes; an unseen aggregate accepts only version 0; on success the stream is the old one followed by the batch, its length is expectedVersion + the batch size, the global log gains the batch in order, and the store invariant (log length = sum of stream lengths) holds |
| EventStore.InMemoryEventStore.GetEvents | libs/events/src/lib/event-store.ts:26-29 | the whole stream for a missing or zero version; otherwise the suffix from that version, `slice` semantics for negative and out-of-range versions; nothing is modified |
| EventStore.InMemoryEventStore.GetAllEvents | libs/events/src/lib/event-store.ts:31-33 | the same reading on the global log; nothing is modified |
| EventStore.ConflictingWriters | libs/events/src/lib/event-store.ts:16-23 | two writers saving at the same expected version: the first succeeds, the second (after a non-empty first batch) is rejected, and only the first batch is stored |
| DomainEvents.NewEvent | libs/events/src/lib/domain-event.ts:3-18 | every event has version 1 and stores type, aggregate id and type, payload, metadata, id and time exactly as given |
| DomainEvents.Make | libs/events/src/lib/domain-event.ts:21-132 | a subclass event carries its class's fixed type and aggregate type and the caller's aggregate id, payload and metadata, with version 1 |
| DomainEvents.NamespaceOfDotted | libs/events/src/lib/domain-event.ts:21-132 | the namespace of a dotted type string is the part before its first dot |
| DomainEvents.SubclassTypesDeclared | libs/events/src/lib/domain-event.ts:21-132 | every subclass's type string is one of the declared `EventTypes` values |
| DomainEvents.AggregateOfDotted | libs/events/src/lib/domain-event.ts:21-132 | the aggregate a type string's namespace names does not depend on the text after the dot |
| DomainEvents.OrderTable | libs/events/src/lib/domain-event.ts:21-49 | every `order.*` event class uses aggregate type `Order` |
| DomainEvents.ProductTable | libs/events/src/lib/domain-event.ts:52-74 | every `product.*` event class uses aggregate type `Product` |
| DomainEvents.CartTable | libs/events/src/lib/domain-event.ts:77-87 | every `cart.*` event class uses aggregate type `Cart` |
| DomainEvents.UserTable | libs/events/src/lib/domain-event.ts:90-106 | every `user.*` event class uses aggregate type `User` |
| DomainEvents.ReviewTable | libs/events/src/lib/domain-event.ts:109-119 | every `review.*` event class uses aggregate type `Review` |
| DomainEvents.PaymentTable | libs/events/src/lib/domain-event.ts:122-132 | every `payment.*` event class uses aggregate type `Payment` |
| DomainEvents.SubclassTable | libs/events/src/lib/domain-event.ts:21-132 | for every subclass, the aggregate type is the one its type's namespace names |
| DomainEvents.TypeOfInjective | libs/events/src/lib/domain-event.ts:21-132 | no two subclasses share a type string: the type determines the class |
| DomainEvents.EventEmitter.constructor | services/payment/src/app/payment/payment.service.ts:23 | the shared emitter starts with nothing published |
| DomainEvents.EventEmitter.EmitAsync | services/payment/src/app/payment/payment.service.ts:122 | publishing appends exactly the given event |
| PaymentDtos.CreateIntentViolations | services/payment/src/app/payment/dto/create-payment-intent.dto.ts:3-28 | reports each field iff its constraint fails: amount below 50, orderId or userId not a UUID, provider given and not stripe, paypal or klarna, paymentMethodId given and not a UUID; currency is never reported |
| PaymentDtos.RefundViolations | services/payment/src/app/payment/dto/refund-payment.dto.ts:3-12 | a refund DTO is valid iff the amount is absent or at least 1; the reason is never reported |
| PaymentDtos.ValidCreateIntentMeans | services/payment/src/app/payment/dto/create-payment-intent.dto.ts:3-28 | a creation DTO is valid iff all five constraints hold |
| PaymentDtos.AnyCurrencyAccepted | services/payment/src/app/payment/dto/create-payment-intent.dto.ts:8-9 | a valid DTO stays valid with any currency string |
| PaymentDtos.RefundAmountUnbounded | services/payment/src/app/payment/dto/refund-payment.dto.ts:4-7 | any amount of at least 1, however large, is a valid refund amount |
| Payments.ProviderOf | services/payment/src/app/payment/payment.service.ts:27 | the provider defaults to stripe when absent |
| Payments.ClientSecretOf | services/payment/src/app/payment/payment.service.ts:72 | the client secret is Stripe's when non-empty, otherwise PayPal's approve link |
| Payments.CreateOutcome | services/payment/src/app/payment/payment.service.ts:26-79 | creation succeeds iff the provider is stripe or paypal and the provider answered; the new record is PENDING with the provider's id and the DTO's fields; every failure is 'Failed to create payment intent' |
| Payments.KlarnaAcceptedButUnsupported | services/payment/src/app/payment/payment.service.ts:52-53 | a DTO naming klarna passes validation and still fails creation |
| Payments.EventPayload | services/payment/src/app/payment/payment.service.ts:113-119 | the event payload has exactly the keys orderId, userId, amount, currency and provider |
| Payments.SucceededEvent | services/payment/src/app/payment/payment.service.ts:113-122 | a `payment.succeeded` event of aggregate type Payment whose aggregate id is the payment's id, carrying the payload |
| Payments.FailedEvent | services/payment/src/app/payment/payment.service.ts:132-141 | a `payment.failed` event whose payload is the success payload plus the reason |
| Payments.ConfirmStep | services/payment/src/app/payment/payment.service.ts:88-153 | the saved status is SUCCEEDED iff the provider confirmed (Stripe 'succeeded', PayPal 'COMPLETED') and FAILED otherwise, always a permitted transition; one event is published iff the provider call did not throw, and then the call succeeds; a throw records its message as the failure reason; no other field changes and well-formedness is kept |
| Payments.RefundStep | services/payment/src/app/payment/payment.service.ts:163-196 | a provider error fails the refund and changes nothing; otherwise the record becomes REFUNDED with the requested amount (default the full amount), the reason and the time |
| Payments.RefundNotBounded | services/payment/src/app/payment/payment.service.ts:163-187 | a refund larger than the amount paid is recorded as refunded in full |
| Payments.MapPaypalStatus | services/payment/src/app/payment/payment.service.ts:270-280 | COMPLETED maps to SUCCEEDED, CANCELLED to CANCELLED, FAILED to FAILED, and every other string (CREATED, APPROVED, unknown) to PENDING, each as an iff |
| Payments.PaypalConfirmAgreesWithMap | services/payment/src/app/payment/payment.service.ts:99-104 | a PayPal confirmation succeeds exactly when the status table maps the capture status to SUCCEEDED |
| Payments.PaymentService.constructor | services/payment/src/app/payment/payment.service.ts:16-24 | a new service has no payments and uses the given emitter |
| Payments.PaymentService.FindOne | services/payment/src/app/payment/payment.service.ts:199-210 | returns the stored record iff the id is known, else NotFound with the id in the message |
| Payments.PaymentService.FindPendingByOrder | services/payment/src/app/payment/payment.service.ts:212-234 | returns exactly the stored PENDING payments of the order, each once |
| Payments.PaymentService.CreatePaymentIntent | services/payment/src/app/payment/payment.service.ts:26-79 | the answer is `CreateOutcome`; on success exactly the new record is stored, on failure nothing changes; nothing is published |
| Payments.PaymentService.ConfirmPayment | services/payment/src/app/payment/payment.service.ts:81-154 | an unknown id gives NotFound and a non-PENDING payment gives 'Payment is not in pending state', both with no change and nothing published; otherwise the record is replaced by `ConfirmStep`'s and its event, if any, is published |
| Payments.PaymentService.RefundPayment | services/payment/src/app/payment/payment.service.ts:156-197 | NotFound for an unknown id, 'Can only refund successful payments' unless SUCCEEDED, otherwise `RefundStep`'s record and answer; nothing is published |
| Payments.ConfirmTwice | services/payment/src/app/payment/payment.service.ts:84-86 | a second confirmation of the same payment is refused, so at most one event is published for both |
| Webhooks.StripeRoute | services/payment/src/app/webhook/webhook.service.ts:19-34 | each of the three Stripe event types goes to its own handler iff it is that type; every other type is only logged |
| Webhooks.OrderIdOf | services/payment/src/app/webhook/webhook.service.ts:44-45 | the handlers act only when the intent's metadata carries a non-empty orderId |
| Webhooks.FailureReasonOf | services/payment/src/app/webhook/webhook.service.ts:83 | the reason is the last payment error's message when non-empty, else 'Payment failed' |
| Webhooks.StripePayload | services/payment/src/app/webhook/webhook.service.ts:56-62 | the webhook's payload has the service payload's keys and values, with provider fixed to stripe |
| Webhooks.WebhookSucceededEvent | services/payment/src/app/webhook/webhook.service.ts:56-64 | a `payment.succeeded` event for the payment with the Stripe payload |
| Webhooks.WebhookFailedEvent | services/payment/src/app/webhook/webhook.service.ts:85-94 | a `payment.failed` event for the payment with the Stripe payload plus the reason |
| Webhooks.WebhookService.constructor | services/payment/src/app/webhook/webhook.service.ts:9-13 | the webhook service shares the payment service and its emitter |
| Webhooks.WebhookService.FirstMatch | services/payment/src/app/webhook/webhook.service.ts:47-53 | finds a PENDING payment of the order whose provider id is the intent id iff one exists |
| Webhooks.WebhookService.HandlePaymentSucceeded | services/payment/src/app/webhook/webhook.service.ts:43-68 | does nothing iff there is no orderId or no matching PENDING payment; otherwise confirms the first match, then publishes its own `payment.succeeded` whatever the confirmation did |
| Webhooks.WebhookService.HandlePaymentFailed | services/payment/src/app/webhook/webhook.service.ts:70-98 | never changes the stored payments; publishes one `payment.failed` with the failure reason iff a matching PENDING payment exists |
| Webhooks.WebhookService.HandleStripeWebhook | services/payment/src/app/webhook/webhook.service.ts:15-98 | a failed event construction runs no handler and every error is 'Invalid webhook signature'; success is `{received: true}`; a succeeded event acts iff a PENDING record of the order has the intent's id, then stores the confirmation's record, answers 400 iff the confirmation failed, and on success publishes the confirmation's event and the handler's own `payment.succeeded`; a failed event leaves the records and publishes one `payment.failed` iff such a record matches; disputes and unknown types change nothing |
| Webhooks.WebhookService.VerifyPayPalSignature | services/payment/src/app/webhook/webhook.service.ts:131-135 | the PayPal signature check accepts everything |
| Webhooks.WebhookService.HandlePayPalWebhook | services/payment/src/app/webhook/webhook.service.ts:105-129 | every PayPal notification is acknowledged with `{received: true}` |
| Webhooks.WebhookService.HandleKlarnaWebhook | services/payment/src/app/webhook/webhook.service.ts:152-156 | every Klarna notification is acknowledged with `{received: true}` |
| Webhooks.RepeatedSucceededDelivery | services/payment/src/app/webhook/webhook.service.ts:43-68 | after a first delivery that matched at most one record: the first stores that record's `ConfirmStep` result (or changes nothing without a match) and publishes the confirmation's event and its own only when the confirmation did not throw; then no PENDING record matches, and the second delivery succeeds and leaves the records and the published events exactly as the first left them |
| PayPal.BaseUrlOf | services/payment/src/app/payment/providers/paypal.provider.ts:26-27 | the configured URL when non-empty, else the sandbox URL |
| PayPal.UnsignedAmount | services/payment/src/app/payment/providers/paypal.provider.ts:70 | the amount in units with exactly two decimals |
| PayPal.FormatAmount | services/payment/src/app/payment/providers/paypal.provider.ts:70 | `(amount / 100).toFixed(2)` has a point before two final digits and a sign iff negative |
| PayPal.TwoDigitsValue | services/payment/src/app/payment/providers/paypal.provider.ts:70 | the two decimals read back as the cents of the amount |
| PayPal.UnsignedRoundTrip | services/payment/src/app/payment/providers/paypal.provider.ts:70 | reading the unsigned decimal string gives back the minor-unit amount |
| PayPal.FormatAmountRoundTrip | services/payment/src/app/payment/providers/paypal.provider.ts:70 | reading the encoded amount gives back the minor-unit amount, for every integer |
| PayPal.ExpiryAfter | services/payment/src/app/payment/providers/paypal.provider.ts:51 | the new expiry is 60 seconds before `now + expires_in` |
| PayPal.NextCache | services/payment/src/app/payment/providers/paypal.provider.ts:33-51 | a fresh cache or a failed fetch keeps the cache; otherwise the fetched token and its early expiry replace it |
| PayPal.FetchedTokenFreshUntilExpiry | services/payment/src/app/payment/providers/paypal.provider.ts:33-51 | a fetched token is reused at every instant before its early expiry |
| PayPal.PaypalProvider.constructor | services/payment/src/app/payment/providers/paypal.provider.ts:25-30 | the base URL as `BaseUrlOf`; no token and no request yet |
| PayPal.PaypalProvider.TokenRequest | services/payment/src/app/payment/providers/paypal.provider.ts:39-48 | the token request posts the client-credentials grant to `/v1/oauth2/token` with the client's credentials |
| PayPal.PaypalProvider.GetAccessToken | services/payment/src/app/payment/providers/paypal.provider.ts:32-54 | a fresh cached token is returned without any request; otherwise one token request is made and the returned token is the newly cached one |
| PayPal.PaypalProvider.Authorized | services/payment/src/app/payment/providers/paypal.provider.ts:61-63 | an API call is the token phase followed by exactly one request bearing the token |
| PayPal.PaypalProvider.CreateOrder | services/payment/src/app/payment/providers/paypal.provider.ts:56-84 | after the token phase, one POST to `/v2/checkout/orders` with intent CAPTURE, the order id as reference and the two-decimal amount |
| PayPal.PaypalProvider.CaptureOrder | services/payment/src/app/payment/providers/paypal.provider.ts:86-101 | after the token phase, one POST to the order's capture URL |
| PayPal.PaypalProvider.GetOrder | services/payment/src/app/payment/providers/paypal.provider.ts:103-116 | after the token phase, one GET of the order |
| PayPal.PaypalProvider.RefundOrder | services/payment/src/app/payment/providers/paypal.provider.ts:118-141 | after the token phase, one POST to the capture's refund URL |
| PayPal.TwoCallsShareToken | services/payment/src/app/payment/providers/paypal.provider.ts:32-115 | two order reads before the early expiry send exactly one token request, then both GETs with the fetched bearer token, and return the two replies |
| Carts.FindLine | apps/bff/src/app/cart/cart.service.ts:30 | the index of the first line with the product id, or none iff no line has it |
| Carts.TotalUpdate | apps/bff/src/app/cart/cart.service.ts:77-80 | replacing one line changes total and item count by that line's difference |
| Carts.AddLineExisting | apps/bff/src/app/cart/cart.service.ts:32-33 | an existing product's line gains the quantity; no line is added and the others are unchanged |
| Carts.AddLineNew | apps/bff/src/app/cart/cart.service.ts:34-43 | a new product is appended as one line at the end |
| Carts.AddLineUnique | apps/bff/src/app/cart/cart.service.ts:30-43 | adding keeps at most one line per product |
| Carts.TotalWithout | apps/bff/src/app/cart/cart.service.ts:53-55 | removing a product lowers total and item count by exactly its lines |
| Carts.WithoutUnique | apps/bff/src/app/cart/cart.service.ts:53 | removal keeps at most one line per product |
| Carts.WithoutSpec | apps/bff/src/app/cart/cart.service.ts:53 | removal drops every line of the product and keeps each other line as often as it occurs, in order |
| Carts.EmptyCart | apps/bff/src/app/cart/cart.service.ts:13-20 | a new cart is an empty EUR cart with total 0 and item count 0 |
| Carts.WithLines | apps/bff/src/app/cart/cart.service.ts:77-80 | after a change, total is the sum of price × quantity and item count the sum of quantities |
| Carts.CartService.constructor | apps/bff/src/app/cart/cart.service.ts:7 | the service starts with no carts |
| Carts.CartService.GetCart | apps/bff/src/app/cart/cart.service.ts:9-25 | an existing cart is returned unchanged; an unseen session gets a stored empty cart |
| Carts.CartService.AddToCart | apps/bff/src/app/cart/cart.service.ts:27-49 | the session's cart gets the merged lines and fresh totals; no other session changes |
| Carts.CartService.RemoveFromCart | apps/bff/src/app/cart/cart.service.ts:51-59 | the session's cart loses the product's lines and gets fresh totals; no other session changes |
| Carts.CartService.UpdateQuantity | apps/bff/src/app/cart/cart.service.ts:61-75 | an absent product leaves the cart unchanged; a quantity of 0 or less removes the line; otherwise the line's quantity is replaced and totals refreshed |
| CatalogEntities.DropRun | services/catalog/src/app/product/entities/product.entity.ts:77 | drops a run of non-slug characters, leaving a suffix that starts with a slug character |
| CatalogEntities.Collapse | services/catalog/src/app/product/entities/product.entity.ts:77 | each maximal run of characters outside [a-z0-9] becomes one '-': only slug characters, never '--' |
| CatalogEntities.TrimStart | services/catalog/src/app/product/entities/product.entity.ts:78 | leading dashes are removed |
| CatalogEntities.TrimEnd | services/catalog/src/app/product/entities/product.entity.ts:78 | trailing dashes are removed |
| CatalogEntities.SlugifyShaped | services/catalog/src/app/product/entities/product.entity.ts:75-78 | a slug has only [a-z0-9-], no '--' and no leading or trailing '-' |
| CatalogEntities.CollapseFixed | services/catalog/src/app/product/entities/product.entity.ts:77 | collapsing changes nothing in a string already in slug shape |
| CatalogEntities.ToLowerFixed | services/catalog/src/app/product/entities/product.entity.ts:76 | lower-casing changes nothing in slug characters |
| CatalogEntities.SlugifyIdempotent | services/catalog/src/app/product/entities/product.entity.ts:75-78 | slugifying a slug returns it unchanged |
| CatalogEntities.AlnumOfConcat | services/catalog/src/app/product/entities/product.entity.ts:77 | keeping the letters and digits commutes with concatenation |
| CatalogEntities.AlnumOfDropRun | services/catalog/src/app/product/entities/product.entity.ts:77 | dropping a separator run keeps every letter and digit |
| CatalogEntities.AlnumOfCollapse | services/catalog/src/app/product/entities/product.entity.ts:77 | collapsing keeps every letter and digit in order |
| CatalogEntities.AlnumOfTrimStart | services/catalog/src/app/product/entities/product.entity.ts:78 | trimming leading dashes keeps every letter and digit |
| CatalogEntities.AlnumOfTrimEnd | services/catalog/src/app/product/entities/product.entity.ts:78 | trimming trailing dashes keeps every letter and digit |
| CatalogEntities.SlugifyKeepsAlnum | services/catalog/src/app/product/entities/product.entity.ts:75-78 | the slug keeps exactly the lower-cased name's letters and digits, in order |
| CatalogEntities.SlugifyEmpty | services/catalog/src/app/product/entities/product.entity.ts:75-78 | a name without letters or digits gives the empty slug |
| CatalogEntities.ProductEntity.constructor | services/catalog/src/app/product/entities/product.entity.ts:72-80 | an entity holds the given name and slug |
| CatalogEntities.ProductEntity.GenerateSlug | services/catalog/src/app/product/entities/product.entity.ts:72-80 | an absent or empty slug becomes the slug of the name; a non-empty slug is kept |
| CatalogEntities.CategoryEntity.constructor | services/catalog/src/app/category/entities/category.entity.ts:56-64 | an entity holds the given name and slug |
| CatalogEntities.CategoryEntity.GenerateSlug | services/catalog/src/app/category/entities/category.entity.ts:56-64 | an absent or empty slug becomes the slug of the name; a non-empty slug is kept |
| CatalogProducts.FindViolations | services/catalog/src/app/product/dto/find-products.dto.ts:4-35 | reports limit below 1, offset below 0, sortBy outside name, price, createdAt and updatedAt, and sortOrder not ASC or DESC after upper-casing, each iff; search and category are never reported |
| CatalogProducts.ValidFindMeans | services/catalog/src/app/product/dto/find-products.dto.ts:4-35 | a query is valid iff all four constraints hold |
| CatalogProducts.LowerCaseSortOrderAccepted | services/catalog/src/app/product/dto/find-products.dto.ts:30-34 | a lower-case 'asc' is accepted and becomes ASC |
| CatalogProducts.CreateProductViolations | services/catalog/src/app/product/dto/create-product.dto.ts:12-48 | reports name over 100, description over 2000, negative price, non-UUID categoryId and negative stock, each iff |
| CatalogProducts.CreateProductTypedOnly | services/catalog/src/app/product/dto/create-product.dto.ts:17-35 | slug, currency and images, which carry only type checks, are never reported |
| CatalogProducts.PlanQuery | services/catalog/src/app/product/product.service.ts:16-37 | search and category filters only for non-empty values, the search as `%term%`; limit 20, offset 0, sortBy createdAt and sortOrder DESC when absent |
| CatalogProducts.FindAllResponse | services/catalog/src/app/product/product.service.ts:39-49 | the response echoes the rows, total, limit and offset, and pages is the ceiling of total / limit |
| CatalogProducts.FindAllDefaults | services/catalog/src/app/product/product.service.ts:17 | an empty query reports limit 20, offset 0 and ceil(total / 20) pages |
| CatalogProducts.ApplyUpdate | services/catalog/src/app/product/product.service.ts:85 | every field given in the DTO overwrites the product's, every other field is kept |
| CatalogProducts.ApplyUpdateIdempotent | services/catalog/src/app/product/product.service.ts:85 | applying an update twice is applying it once, and an empty update changes nothing |
| CatalogProducts.StockAfter | services/catalog/src/app/product/product.service.ts:97-109 | set replaces, add adds and subtract subtracts, then the result is clamped at 0; an unknown operation only clamps |
| CatalogProducts.Max0 | services/catalog/src/app/product/product.service.ts:109 | `Math.max(0, x)` |
| CatalogProducts.ApplyStock | services/catalog/src/app/product/product.service.ts:94-110 | the new stock is `StockAfter`, never negative, inStock iff it is positive, and no other field changes |
| CatalogProducts.StockAddSubtract | services/catalog/src/app/product/product.service.ts:101-109 | add then subtract of the same quantity restores the stock; subtracting more than the stock and adding it back yields that quantity, not the old stock |
| CatalogProducts.ProductService.constructor | services/catalog/src/app/product/product.service.ts:11-14 | the repository starts empty |
| CatalogProducts.ProductService.FindOne | services/catalog/src/app/product/product.service.ts:52-63 | the stored product iff the id is known, else NotFound naming the id |
| CatalogProducts.ProductService.FindBySlug | services/catalog/src/app/product/product.service.ts:65-76 | a stored product with that slug iff one exists, else NotFound naming the slug |
| CatalogProducts.ProductService.Update | services/catalog/src/app/product/product.service.ts:83-87 | an unknown id fails and changes nothing; otherwise the stored product becomes `ApplyUpdate`'s and is returned |
| CatalogProducts.ProductService.UpdateStock | services/catalog/src/app/product/product.service.ts:94-113 | an unknown id fails and changes nothing; otherwise the stored product becomes `ApplyStock`'s and is returned |
| BffProducts.FiltersAreSelection | apps/bff/src/app/product/product.service.ts:81-91 | the category filter followed by the search filter keeps exactly the products that pass both, in order |
| BffProducts.FindAllNoInput | apps/bff/src/app/product/product.service.ts:79-97 | with no input every product is returned in stored order |
| BffProducts.FindAllSpec | apps/bff/src/app/product/product.service.ts:75-98 | the result is the first `limit` (when truthy) of the selected products; offset is never applied |
| BffProducts.FindAllSubseq | apps/bff/src/app/product/product.service.ts:75-98 | the result is an order-preserving subsequence of the stored list |
| BffProducts.FindById | apps/bff/src/app/product/product.service.ts:100-103 | a stored product with that id, or null iff none has it |
| BffProducts.FindBySlug | apps/bff/src/app/product/product.service.ts:105-108 | a stored product with that slug, or null iff none has it |
| BffProducts.FindBy | apps/bff/src/app/product/product.service.ts:100-108 | a stored product whose id or slug is the value, or null iff none has it |
| BffProducts.FindByIsFirst | apps/bff/src/app/product/product.service.ts:100-108 | the product found is the first match in stored order |
| BffProducts.LookupsAreFirst | apps/bff/src/app/product/product.service.ts:100-108 | both `findById` and `findBySlug` return the first match in stored order |
| BffProducts.SeedLookups | apps/bff/src/app/product/product.service.ts:8-73 | look-ups in the seeded catalogue find id 2 and 'laptop-gaming', and no id 5 |
| BffOrders.SeedOrderAmounts | apps/bff/src/app/order/order.service.ts:7-45 | in the seed order, total = subtotal + taxes + shipping, the subtotal is the items' sum and the taxes are 20% of it |
| BffOrders.GetUserOrders | apps/bff/src/app/order/order.service.ts:47-50 | every returned order belongs to the user |
| BffOrders.GetUserOrdersSpec | apps/bff/src/app/order/order.service.ts:47-50 | exactly the user's orders, each as often as it is stored, in stored order |
| BffOrders.GetOrder | apps/bff/src/app/order/order.service.ts:52-55 | an order with that id, or null iff none has it |
| BffOrders.GetOrderIsFirst | apps/bff/src/app/order/order.service.ts:52-55 | the order found is the first with that id |
| BffOrders.CreateCheckout | apps/bff/src/app/order/order.service.ts:57-67 | the fixed mock checkout URL |
| BffOrders.CheckoutIgnoresInput | apps/bff/src/app/order/order.service.ts:57-67 | the URL does not depend on the session or the input |
| BffOrders.SeedQueries | apps/bff/src/app/order/order.service.ts:7-55 | user-1 owns the seed order, other users own none, and id 1 finds it |
| SharedUtils.TruncateText | libs/shared/src/lib/utils/index.ts:49-52 | text within the limit is unchanged; longer text becomes its first maxLength-3 characters plus '...', of length exactly maxLength when maxLength ≥ 3 |
| SharedUtils.TruncateIdempotent | libs/shared/src/lib/utils/index.ts:49-52 | truncating twice equals truncating once, for limits of at least 3 |
| SharedUtils.TruncateShortLimit | libs/shared/src/lib/utils/index.ts:49-52 | below 3 the result is longer than the limit: 'hello' at 2 gives 'hell...' |
| SharedUtils.GenerateOrderNumber | libs/shared/src/lib/utils/index.ts:78-80 | the prefix (default CMD) followed by the number padded with zeros to at least 6 characters |
| SharedUtils.UpperRun | libs/shared/src/lib/utils/index.ts:70 | the length of the leading run of capital letters |
| SharedUtils.ParseOrderNumber | libs/shared/src/lib/utils/index.ts:69-76 | fails with 'Invalid order number format' unless the text is capitals then digits; the prefix is the capitals and the number the digits' value |
| SharedUtils.ParseMatchesPattern | libs/shared/src/lib/utils/index.ts:70-71 | parsing succeeds iff the text matches `^[A-Z]+\d+$` |
| SharedUtils.OrderNumberRoundTrip | libs/shared/src/lib/utils/index.ts:69-80 | parsing a generated order number gives back the capital prefix and the number |
| SharedUtils.UpperRunOfPrefix | libs/shared/src/lib/utils/index.ts:70 | capitals followed by a non-capital have that run length |
| SharedUtils.InvoiceNumberFields | libs/shared/src/lib/utils/index.ts:82-87 | for a 4-digit year and a sequence below 10000, the invoice number is the prefix, the year, the month 01..12 as 2 digits and the sequence as 4 digits, each field reading back as its number |
| SharedUtils.InvoiceFieldDigits | libs/shared/src/lib/utils/index.ts:84-86 | the year, month and sequence fields are digit strings of widths 4, 2 and 4 that read back as their numbers |
| SharedUtils.ConcatFields | libs/shared/src/lib/utils/index.ts:86 | each field can be sliced back out of the concatenation |
| SharedUtils.MaskEmail | libs/shared/src/lib/utils/index.ts:129-135 | a local part of at most 2 characters keeps the email; otherwise first and last characters kept, the middle replaced by as many '*', then '@' and the part after the first '@' |
| SharedUtils.MaskEmailOneAt | libs/shared/src/lib/utils/index.ts:129-135 | for one '@' the length and the domain are kept, and so are the local part's first and last characters |
| SharedUtils.MaskEmailNoAt | libs/shared/src/lib/utils/index.ts:130-134 | without '@' the domain is the text 'undefined' |
| SharedUtils.MaskCreditCard | libs/shared/src/lib/utils/index.ts:137-139 | same length; a character is '*' iff it is a digit followed by four digits, else unchanged |
| SharedUtils.MaskAllDigits | libs/shared/src/lib/utils/index.ts:137-139 | an all-digit number keeps only its last four digits |
| SharedUtils.MaskCreditCardIdempotent | libs/shared/src/lib/utils/index.ts:137-139 | masking a masked number changes nothing |
| SharedUtils.Violations | libs/shared/src/lib/utils/index.ts:101-126 | one message per broken rule, in rule order; no message when all rules hold |
| SharedUtils.ViolationsStep | libs/shared/src/lib/utils/index.ts:101-126 | checking one more rule appends its message iff it is broken |
| SharedUtils.ViolationsOfFive | libs/shared/src/lib/utils/index.ts:101-126 | five checks in sequence, starting from no errors, give the violations of those five rules in order |
| SharedUtils.PushIfBroken | libs/shared/src/lib/utils/index.ts:101-123 | one check of `validatePassword`: keeps the earlier errors and appends the rule's message iff the password breaks it |
| SharedUtils.ValidatePassword | libs/shared/src/lib/utils/index.ts:97-127 | the errors are the broken rules' messages in the order length, upper, lower, digit, special; isValid iff there are none iff every rule holds; at most 5 errors |
| SharedUtils.NoViolationsMeansAllSatisfied | libs/shared/src/lib/utils/index.ts:97-127 | no error iff every rule holds |
| SharedUtils.AllRulesListed | libs/shared/src/lib/utils/index.ts:101-123 | every rule is checked |
| SharedUtils.StrongPasswordValid | libs/shared/src/lib/utils/index.ts:97-127 | 'Passw0rd!' passes every rule |
| Schemas.Issues | libs/shared/src/lib/validators/index.ts:185-191 | the issues are the schema's fields whose checks fail, as a subsequence of the fields in their order |
| Schemas.IssuesMember | libs/shared/src/lib/validators/index.ts:185-191 | a field is reported iff it belongs to the schema and its check fails |
| Schemas.NoIssues | libs/shared/src/lib/validators/index.ts:185-191 | there is no issue iff every field's check passes |
| Schemas.ParseWith | libs/shared/src/lib/validators/index.ts:185-191 | `safeParse` succeeds iff there is no issue, then with the data, else with the issues |
| Schemas.ValidateSchema | libs/shared/src/lib/validators/index.ts:185-191 | returns the parsed data iff parsing succeeded, else throws a validation error with the issues |
| Schemas.PaginationReported | libs/shared/src/lib/validators/index.ts:4-9 | page is reported iff below 1, limit iff outside 1..100, sortOrder iff not ASC or DESC, and no other field |
| Schemas.PaginationBounds | libs/shared/src/lib/validators/index.ts:4-9 | parsed pagination has page ≥ 1, limit in 1..100, sortOrder ASC or DESC |
| Schemas.PaginationDefaults | libs/shared/src/lib/validators/index.ts:4-9 | an empty input parses to page 1, limit 20, DESC |
| Schemas.ProductCreateReported | libs/shared/src/lib/validators/index.ts:18-28 | name 1..200, slug 1..200 when given, description 1..2000, price ≥ 0, currency of length 3 when given, at least one image, every image a URL, categoryId a UUID and stock ≥ 0 when given: each field reported iff its constraint is broken |
| Schemas.ProductCreateParsed | libs/shared/src/lib/validators/index.ts:18-28 | a parsed product has a non-negative price and stock, a 3-character currency defaulting to EUR, and at least one image, all URLs |
| Schemas.UserRegisterReported | libs/shared/src/lib/validators/index.ts:43-52 | email format, password length 8..128, names 1..50 and acceptTerms true: each field reported iff its constraint is broken |
| Schemas.RegisterNeedsTerms | libs/shared/src/lib/validators/index.ts:43-52 | a registration parses only with accepted terms and a password of 8..128 characters; without accepted terms validation throws |
| Schemas.AddressReported | libs/shared/src/lib/validators/index.ts:77-86 | names 1..50, company at most 100, street 1..200, city 1..100, postal code 1..20, country exactly 2: each field reported iff its constraint is broken |
| Schemas.AddressParsed | libs/shared/src/lib/validators/index.ts:77-86 | an address parses iff every field is within its bounds |
| Schemas.NoIssueInBounds | libs/shared/src/lib/validators/index.ts:77-86 | an address with no issue has every field within its bounds |
| Schemas.AddToCartReported | libs/shared/src/lib/validators/index.ts:89-93 | product and variant ids UUIDs and quantity in 1..100: each field reported iff its constraint is broken |
| Schemas.UpdateCartItemIssues | libs/shared/src/lib/validators/index.ts:95-97 | quantity in 1..100, reported iff broken |
| Schemas.CartQuantitiesAgree | libs/shared/src/lib/validators/index.ts:89-97 | add and update reject exactly the same quantities |
| Schemas.ReviewCreateReported | libs/shared/src/lib/validators/index.ts:109-115 | productId a UUID, rating 1..5, title at most 100, text 10..1000, at most 5 images that are URLs: each field reported iff its constraint is broken |
| Schemas.ReviewParsed | libs/shared/src/lib/validators/index.ts:109-115 | a parsed review has a rating in 1..5, text of 10..1000 characters and at most 5 URL images |
| Schemas.CouponCreateReported | libs/shared/src/lib/validators/index.ts:132-141 | code 3..20, type PERCENTAGE or FIXED_AMOUNT, value ≥ 0, minimum amount ≥ 0 and usage limit ≥ 1 when given: each field reported iff its constraint is broken |
| Schemas.CouponCodeUpper | libs/shared/src/lib/validators/index.ts:133 | a parsed coupon code has 3..20 characters, no lower-case letter and is its own upper-case; the type is PERCENTAGE or FIXED_AMOUNT and the value ≥ 0 |
| Schemas.SearchReported | libs/shared/src/lib/validators/index.ts:11-15 | query reported iff not 1..200 characters, and the spread pagination fields as in `PaginationSchema` |
| Schemas.SearchParsed | libs/shared/src/lib/validators/index.ts:11-15 | a search parses iff its query has 1..200 characters and its pagination parses, and then carries the same pagination values with their defaults |
| Schemas.ProductSearchReported | libs/shared/src/lib/validators/index.ts:32-40 | categoryId a UUID, minPrice and maxPrice ≥ 0 and rating 1..5, each when given, and the pagination fields: each reported iff its constraint is broken |
| Schemas.ProductSearchParsed | libs/shared/src/lib/validators/index.ts:32-40 | a product search parses iff its filters are within bounds and its pagination parses |
| Schemas.PriceRangeUnordered | libs/shared/src/lib/validators/index.ts:34-35 | a minimum price above the maximum price still parses: the bounds are not compared |
| Schemas.UserLoginReported | libs/shared/src/lib/validators/index.ts:54-58 | email format and a non-empty password: each field reported iff its constraint is broken |
| Schemas.UserLoginParsed | libs/shared/src/lib/validators/index.ts:54-58 | a login parses iff the email passes the format check and the password is not empty |
| Schemas.UserUpdateReported | libs/shared/src/lib/validators/index.ts:60-65 | a given first or last name of 1..50 characters: each field reported iff its constraint is broken |
| Schemas.UserUpdateParsed | libs/shared/src/lib/validators/index.ts:60-65 | an update parses iff each given name has 1..50 characters |
| Schemas.EmailOnlyIssues | libs/shared/src/lib/validators/index.ts:67-69 | the password-reset request (and the newsletter subscription, lines 146-149) has no issue iff the email passes the format check, and otherwise exactly the email issue |
| Schemas.PasswordResetReported | libs/shared/src/lib/validators/index.ts:71-74 | newPassword reported iff not 8..128 characters; the token is never reported |
| Schemas.ResetAcceptsRegisterPasswords | libs/shared/src/lib/validators/index.ts:71-74 | a reset accepts exactly the passwords registration accepts |
| Schemas.CheckoutReported | libs/shared/src/lib/validators/index.ts:100-106 | each address reported iff one of its fields is out of bounds, notes iff over 500 characters |
| Schemas.CheckoutParsed | libs/shared/src/lib/validators/index.ts:100-106 | a checkout parses iff both addresses parse on their own and the notes have at most 500 characters |
| Schemas.ShippingRateReported | libs/shared/src/lib/validators/index.ts:160-164 | weight reported iff negative, the address iff one of its fields is out of bounds |
| Schemas.ShippingRateParsed | libs/shared/src/lib/validators/index.ts:160-164 | a shipping-rate request parses iff the weight is not negative and the address parses |
| Schemas.CategoryCreateReported | libs/shared/src/lib/validators/index.ts:120-127 | name 1..100, slug 1..100 when given, description at most 500, image a URL and parentId a UUID when given, sortOrder ≥ 0 when given: each field reported iff its constraint is broken |
| Schemas.CategoryCreateParsed | libs/shared/src/lib/validators/index.ts:120-127 | a parsed category has a name and slug within 1..100, a description of at most 500 and a sort order ≥ 0 that defaults to 0 |
| Schemas.ContactReported | libs/shared/src/lib/validators/index.ts:152-157 | name 1..100, email format, subject 1..200, message 10..2000: each field reported iff its constraint is broken |
| Schemas.ContactParsed | libs/shared/src/lib/validators/index.ts:152-157 | a contact message parses iff every field is within its bounds |
| Schemas.FileUploadReported | libs/shared/src/lib/validators/index.ts:176-182 | the file reported iff its size is missing or above 5 MiB, the type iff not image or document |
| Schemas.FileUploadAccepted | libs/shared/src/lib/validators/index.ts:176-182 | an upload passes iff it has a size of at most 5 MiB and is an image or a document; exactly 5 MiB passes despite the "less than 5MB" message |
| Schemas.ProductUpdateReported | libs/shared/src/lib/validators/index.ts:30 | each given product field reported iff it breaks its creation constraint; a missing field is never reported |
| Schemas.ProductUpdateKeepsChecks | libs/shared/src/lib/validators/index.ts:30 | a creation input sent as an update raises exactly the issues it raises on creation |
| Schemas.EmptyProductUpdate | libs/shared/src/lib/validators/index.ts:30 | an empty product update raises no issue |
| Schemas.ReviewUpdateReported | libs/shared/src/lib/validators/index.ts:117 | each given review field reported iff it breaks its creation constraint |
| Schemas.ReviewUpdateKeepsChecks | libs/shared/src/lib/validators/index.ts:117 | a review sent as an update raises its creation issues except the product id, which is no longer a field |
| Schemas.CategoryUpdateReported | libs/shared/src/lib/validators/index.ts:129 | each given category field reported iff it breaks its creation constraint |
| Schemas.CategoryUpdateKeepsChecks | libs/shared/src/lib/validators/index.ts:129 | a category sent as an update raises exactly its creation issues |
| Schemas.CouponUpdateReported | libs/shared/src/lib/validators/index.ts:143 | each given coupon field reported iff it breaks its creation constraint |
| Schemas.CouponUpdateKeepsChecks | libs/shared/src/lib/validators/index.ts:143 | a coupon sent as an update raises its creation issues except the code, which can no longer be changed |
| QueryPagination.SkipSpace | libs/shared/src/lib/decorators/index.ts:55 | `parseInt` skips exactly the leading whitespace |
| QueryPagination.DigitRun | libs/shared/src/lib/decorators/index.ts:55 | `parseInt` reads the longest leading run of digits |
| QueryPagination.SkipSpacePrefix | libs/shared/src/lib/decorators/index.ts:55 | whitespace before a non-space is skipped entirely |
| QueryPagination.DigitRunPrefix | libs/shared/src/lib/decorators/index.ts:55 | digits before a non-digit are read entirely |
| QueryPagination.ParseDigits | libs/shared/src/lib/decorators/index.ts:55 | a digit run followed by a non-digit reads as its value |
| QueryPagination.ParseNegatedDigits | libs/shared/src/lib/decorators/index.ts:55 | a minus sign and a digit run followed by a non-digit read as the negated value |
| QueryPagination.ParseSignedOfPrinted | libs/shared/src/lib/decorators/index.ts:55 | a printed integer followed by a non-digit reads back as that integer |
| QueryPagination.PrintedStart | libs/shared/src/lib/decorators/index.ts:55 | a printed integer is non-empty and does not start with whitespace |
| QueryPagination.ParseIntTrailing | libs/shared/src/lib/decorators/index.ts:55 | `parseInt` of a printed integer followed by a non-digit is that integer |
| QueryPagination.ParseIntPrinted | libs/shared/src/lib/decorators/index.ts:55 | `parseInt` of a printed integer is that integer |
| QueryPagination.ParseIntOfPrinted | libs/shared/src/lib/decorators/index.ts:55-56 | `parseInt(_, 10)` reads back every printed integer, whatever whitespace precedes it and non-digit text follows it |
| QueryPagination.ParseIntNaN | libs/shared/src/lib/decorators/index.ts:55 | text that, after whitespace and at most one sign, does not start with a digit reads as NaN |
| QueryPagination.ParseIntHexPrefix | libs/shared/src/lib/decorators/index.ts:55 | any text starting '0x' reads as 0 in base 10 |
| QueryPagination.ParseIntFraction | libs/shared/src/lib/decorators/index.ts:55 | a printed integer followed by '.' and anything reads as that integer |
| QueryPagination.MinNum | libs/shared/src/lib/decorators/index.ts:56 | `Math.min(x, 100)` is NaN iff x is, else at most the cap and at most x |
| QueryPagination.OffsetOf | libs/shared/src/lib/decorators/index.ts:59 | the offset is a number iff page and limit are |
| QueryPagination.LimitCappedNotFloored | libs/shared/src/lib/decorators/index.ts:56 | in every context a numeric limit is at most 100, yet every printed limit up to 100, zero and negatives included, is returned as is |
| QueryPagination.CappedProduct | libs/shared/src/lib/decorators/index.ts:56-59 | the offset computed from the uncapped limit equals the one from the capped limit iff the limit is at most 100 or the page is 1 |
| QueryPagination.PrintedQuery | libs/shared/src/lib/decorators/index.ts:52-56 | printed page and limit values read back as those numbers |
| QueryPagination.PaginateNumbers | libs/shared/src/lib/decorators/index.ts:48-66 | printed page and limit are returned as numbers, the limit capped at 100, the offset (page-1) × uncapped limit, agreeing with the returned values iff the limit is at most 100 or the page is 1; sortBy as given, sortOrder defaulting to DESC |
| QueryPagination.UnreadablePropagates | libs/shared/src/lib/decorators/index.ts:55-59 | an unreadable page or limit makes the offset NaN and is itself returned as NaN |
| QueryPagination.EmptyQueryAsOther | libs/shared/src/lib/decorators/index.ts:52-64 | an empty query gives page 1, limit 20, DESC, offset 0, the same as a non-HTTP context |
| QueryPagination.DefaultsOnlyWhenMissing | libs/shared/src/lib/decorators/index.ts:52 | only a missing value takes its default: an empty page is NaN and an empty sortOrder is kept |
| Emails.PriorityOr | services/email/src/app/email/email.service.ts:34 | the DTO's priority when truthy, else the fallback |
| Emails.QueuedJobsAt | services/email/src/app/email/email.service.ts:63-80 | the k-th queued job has id firstId + k, name 'send-email', the k-th email, its priority or the fallback, and delay k × stagger |
| Emails.IdsOf | services/email/src/app/email/email.service.ts:103 | the job ids in job order |
| Emails.Consecutive | services/email/src/app/email/email.service.ts:103 | the ids firstId, firstId + 1, … |
| Emails.QueuedIds | services/email/src/app/email/email.service.ts:100-104 | the returned job ids are consecutive from the first |
| Emails.QueuedLogsAt | services/email/src/app/email/email.service.ts:83-97 | the k-th log is QUEUED, provider 'default', with the k-th email's recipient, subject and template, the job id as text and the k-th metadata |
| Emails.BulkEmails | services/email/src/app/email/email.service.ts:63-73 | one email per recipient |
| Emails.BulkMetadata | services/email/src/app/email/email.service.ts:90-94 | one bulk metadata per recipient, its id 'bulk-' and the clock reading |
| Emails.BulkEmailsPersonalised | services/email/src/app/email/email.service.ts:64-73 | each recipient's email goes to that recipient with the bulk subject and template; its variables are the shared ones overridden by the recipient's on clashes |
| Emails.BackInStockEmails | services/email/src/app/email/email.service.ts:290-307 | one email per subscriber |
| Emails.SingleMetadata | services/email/src/app/email/email.service.ts:45-48 | one single-email metadata per email |
| Emails.BackInStockFanOut | services/email/src/app/email/email.service.ts:290-307 | no subscribers list means no email; each subscriber's email goes to the subscriber with the 'back-in-stock' template, priority 8, the subscriber's name and the product's name |
| Emails.UpdateMatching | services/email/src/app/email/email.service.ts:185-194 | the update keeps the number of logs |
| Emails.StatusUpdateStamps | services/email/src/app/email/email.service.ts:185-194 | only logs with the job id change; they take the status; sentAt is set to now exactly for SENT and deliveredAt exactly for DELIVERED, a given error replaces the old one, the metadata becomes the provider response exactly when that response is a non-empty string; other logs are unchanged; the same update twice equals once |
| Emails.PagesOf | services/email/src/app/email/email.service.ts:164 | `Math.ceil(total / limit)`: the least page count covering the rows for a positive limit; NaN or Infinity for limit 0; a non-positive count for a negative limit |
| Emails.NegativePages | services/email/src/app/email/email.service.ts:164 | the ceiling for a negative limit |
| Emails.LogsOffset | services/email/src/app/email/email.service.ts:154 | the offset is 0 on page 1 and never negative for a positive page and a non-negative limit |
| Emails.EmailLogsMeta | services/email/src/app/email/email.service.ts:158-166 | the metadata echoes total, page and limit, with pages as `PagesOf` |
| Emails.PagesCoverRows | services/email/src/app/email/email.service.ts:154-164 | for a positive limit the last page starts before the last row and the page after it starts past every row |
| Emails.EmailService.constructor | services/email/src/app/email/email.service.ts:24-30 | no job and no log yet |
| Emails.EmailService.Enqueue | services/email/src/app/email/email.service.ts:33-35 | the queue assigns the next id to one new 'send-email' job |
| Emails.EmailService.SaveLog | services/email/src/app/email/email.service.ts:51 | the repository gains exactly the row |
| Emails.EmailService.QueueAndLog | services/email/src/app/email/email.service.ts:33-51 | one job and its QUEUED log |
| Emails.EmailService.SendEmail | services/email/src/app/email/email.service.ts:32-58 | one job with priority as `PriorityOr(_, 10)` and no delay, and one QUEUED log for it |
| Emails.EmailService.FanOut | services/email/src/app/email/email.service.ts:63-98 | one job and one log per email, in order, with consecutive ids and staggered delays |
| Emails.EmailService.SendBulkEmail | services/email/src/app/email/email.service.ts:60-105 | totalEmails is the number of recipients; one job (priority default 5, delay k × 100) and one bulk log per recipient, and the consecutive job ids |
| Emails.EmailService.UpdateEmailLogStatus | services/email/src/app/email/email.service.ts:179-195 | the logs become `UpdateMatching`'s; jobs are untouched |
| Emails.EmailService.HandleProductBackInStock | services/email/src/app/email/email.service.ts:288-308 | one `sendEmail` per subscriber in order: the jobs and logs of the back-in-stock emails |
| JsText.PadStart | libs/shared/src/lib/utils/index.ts:79 | `padStart`: the width or the text's length, the text at the end, the fill before it |
| JsText.NatToString | libs/shared/src/lib/utils/index.ts:79 | `toString` of a natural number: digits only, one digit iff below 10, a leading 0 only for 0 |
| JsText.NatToStringRoundTrip | libs/shared/src/lib/utils/index.ts:74-79 | reading the printed digits gives back the number |
| JsText.PaddedRoundTrip | libs/shared/src/lib/utils/index.ts:79 | leading zeros do not change the value read back |
| JsText.CeilDiv | services/catalog/src/app/product/product.service.ts:47 | `Math.ceil(a / b)` for b ≥ 1: the least r with a ≤ r × b |

## Left out

- Listener failures inside `emitAsync` and repository save failures are not modelled; only provider calls may fail.
- `getPaymentStatus` and the `findAll` ordering by `createdAt DESC` are not modelled. The pending payments of an order come back in an unspecified order, each once.
- Stripe and PayPal SDK and HTTP calls, Stripe event construction and Base64 encoding of the credentials are replaced by parameters. A PayPal request is recorded as its URL, verb and body.
- Aliasing between the object `findAll` returns and the stored payment is not modelled: the failure handler's in-memory change to the loaded object is modelled as not stored.
- The concurrency of async handlers is not modelled; each operation is atomic.
- Numbers are integers: fractional amounts, `toFixed` on fractions, `toString` of numbers of 1e21 and more, the precision limit of `parseInt` and `-0` are not modelled.
- Character classes and case mapping are ASCII. Unicode case mapping and Unicode whitespace are not modelled.
- String lengths are counted in Unicode code points. JavaScript's `.length` and `slice`, and zod's string bounds, count UTF-16 code units, so a character outside the Basic Multilingual Plane counts twice there; class-validator's length checks count code points but skip the variation selectors U+FE0E and U+FE0F. The members below agree with the code only for text of Basic Multilingual Plane characters without variation selectors.
- SharedUtils.TruncateText: its length test and `slice` count code points, not UTF-16 units.
- SharedUtils.MaskEmail: the local part's length and the kept characters count code points, not UTF-16 units.
- SharedUtils.ValidatePassword: the minimum-length rule counts code points, not UTF-16 units.
- Schemas.LengthIn: every zod `.min`, `.max` and `.length` bound on a string counts code points, not UTF-16 units.
- CatalogProducts.CreateProductViolations: the `@MinLength`/`@MaxLength` bounds count every code point, including U+FE0E and U+FE0F.
- Emails.LogsOffset: `page` and `limit` are integers. The controller passes the query values through untyped, as text: numeric text is coerced by the subtraction and multiplication, but a non-numeric value makes the offset NaN and the query builder then throws. That path is not modelled.
- Emails.EmailLogsMeta: the code echoes the query text itself as `page` and `limit`, so even numeric text such as "2" is returned as a string, and non-numeric text gives NaN pages. The model echoes integers.
- `PayPal.PaypalProvider.RefundOrder` takes the payment service's amount in minor units and applies the caller's division by 100 and `refundOrder`'s `toFixed(2)` together, as `FormatAmount`. A direct call of `refundOrder` with a fractional major-unit amount is not modelled.
- Payments.MapPaypalStatus: a PayPal status that names a property inherited from `Object.prototype` (`constructor`, `toString`, `valueOf`, `hasOwnProperty`, `__proto__`) makes `statusMap[status]` a truthy function or object in the code, not 'PENDING'. The model maps every string outside the three own keys and CREATED/APPROVED to PENDING.
- `WebhookEventSchema` is not modelled: its fields carry type checks only, which typed inputs always pass.
- A nested schema's issues (the addresses in `CheckoutSchema` and `ShippingRateSchema`) are reported under the nested field's own path, not under the inner field's path.
- Schemas.Issues: a field is reported at most once. zod reports one issue per failing element of an array (paths such as `images.2`) and can report several issues on one field (a string both too short and not an email); the model reports the field's own path once in either case.
- Fields without a check (`filters`, `preferences`, `token`, `zone`, `couponCode`, `paymentMethodId`, `rememberMe`, `inStock`) are carried without a path of their own.
- zod and class-validator issue messages are not rendered. The email, URL and UUID format checks are predicates passed in.
- A zod number field given as a non-number and query values given as arrays are not modelled.
- The BFF product ratings (floating point), the dates in the seed data and the `setTimeout` delays are left out.
- The database's slug uniqueness constraint is not modelled.
- `updateStock` is modelled with an integer quantity. Its untyped quantity, for example a string concatenated by `+=`, is not modelled.
- `CatalogProducts.ProductService.FindBySlug`: which of several products sharing a slug is found is not specified.
- The other shared utilities are not modelled: `formatPrice`, the discount, tax and shipping calculations, `getTimeAgo`, timers, `generateId`, the utils' `generateSlug` and `sanitizeHtml`.
- The decorators other than `Pagination` are not modelled.
- The email service's other handlers, `sendTemplateEmail`, `sendTestEmail` and `getEmailLog` are not modelled.
- The filters and query of `getEmailLogs` are not modelled, and neither are the `success: true` fields of the email answers.
- Generated log UUIDs are modelled as positions in the log list, and Bull job ids as a running counter from 1.
- The send-email and send-bulk-email DTO files are not part of this model. Their fields are taken from the service's use of them.
- The update-product DTO file is not part of this model: every field of the product DTO is taken as optional.
