# Stripe Connect backend: checkout-session builder and webhook dispatch

This is a Dafny model of the two pieces of local logic in a FastAPI backend that takes marketplace payments through Stripe Connect. It models:

- **Checkout-session builder** (`Checkout`, `checkout.dfy`). A posted `CheckoutRequest` is a cart of `CartItem`s plus an optional customer id. Under a `Config` it becomes the `SessionArgs` record that the backend passes to the processor's session-creation call. That record holds:
  - one `LineItem` per cart item, in order;
  - the flat platform fee and the transfer destination;
  - the fixed payment settings;
  - the success and cancel URLs;
  - exactly one of the `customer` / `customer_creation` keys.

  The loop that builds the line items is the method `BuildLineItems`. The full assembly is the method `CreateCheckoutSession`, proved equal to the specification function `SessionArgsOf`. The lemmas that follow state what the source promises about that function. The redirect URLs are `SuccessUrl`, `CancelUrl` and `PortalReturnUrl`. The endpoint's reply is `CheckoutReplyOf`: the session id and URL, or a 400 carrying the processor's message. The whole endpoint is `CheckoutEndpoint`, which takes the processor call as a function parameter.
- **Webhook processor** (`Webhook`, `webhook.dfy`). The processor library's verification of a delivery is an abstract `Verification` value: `InvalidPayload`, `InvalidSignature` or `Verified(event)`. `HandleDelivery` maps it to a `Delivery`, which holds the HTTP response and the handler branch taken, if any. The branch is chosen by `Dispatch`, an exact match on the event type.

Configuration is an explicit parameter (`Config`) and is not read from the environment. The Stripe SDK calls are abstract: the verification outcome is an input, and session creation is a function-typed parameter.

Spec functions without their own contract are `UnitAmount`, `ImagesOf`, `ImageFrom`, `ToLineItem`, `LineItems`, `SessionArgsOf`, `CustomerModeOf`, `HasCustomer` and the three URL functions. Their properties are the lemmas listed below.

### Platform fee

`application_fee_amount` is the constant 10000 cents on every order (connect_backend/api/index.py:73). The model keeps that constant (`PlatformFee`, `SessionSettingsFixed`). The code computes no order total and has no tiered fee schedule. For any cart worth 100 dollars or less, the fee is therefore at least the cart's value.

## Model

| member | source | states |
|---|---|---|
| Checkout.TruncateToInt | connect_backend/api/index.py:68 | Python's `int()` truncates toward zero. For non-negative x the result is the largest integer not above x. For negative x it is the smallest integer not below x. It never has the opposite sign of x. |
| Checkout.TruncateToIntUnique | connect_backend/api/index.py:68 | Exactly one integer satisfies those bounds, so they fully determine the unit amount. |
| Checkout.UnitAmountOfCents | connect_backend/api/index.py:68 | A price given in exact hundredths yields exactly that many cents as `unit_amount`. |
| Checkout.UnitAmountMonotone | connect_backend/api/index.py:68 | A higher price never yields a lower `unit_amount`. |
| Checkout.UnitAmountBounds | connect_backend/api/index.py:68 | For a non-negative price, `unit_amount` is non-negative and loses less than one cent. |
| Checkout.ImagesOfRoundTrip | connect_backend/api/index.py:66 | The `images` list holds at most one entry, and the item's image (`""` when the list is empty) can be read back from it. |
| Checkout.LineItemDeterminesItem | connect_backend/api/index.py:61-71 | Two cart items give the same line item if and only if they agree on name, image and quantity and their prices truncate to the same cents. |
| Checkout.LineItemsConcat | connect_backend/api/index.py:59-71 | Building line items for two carts joined together gives the two results joined together, so cart order is kept. |
| Checkout.BuildLineItems | connect_backend/api/index.py:59-71 | The loop's result has one entry per cart item, and entry k is the line item of item k. |
| Checkout.UrlsShape | connect_backend/api/index.py:86-87 | Both URLs start with the frontend base URL. The success URL is the cancel URL followed by `success?session_id=` and the token. The token is the literal `{CHECKOUT_SESSION_ID}` with single braces. |
| Checkout.UrlsDetermineFrontend | connect_backend/api/index.py:86-87 | Different frontend base URLs always give different success URLs, and different cancel URLs. |
| Checkout.UrlsDistinct | connect_backend/api/index.py:86-87 | The success and cancel URLs for one base URL differ. |
| Checkout.PortalReturnUrlShape | connect_backend/api/index.py:122 | The portal return URL is the base URL followed by `/success`. It determines the base URL. It is the success URL without its query. It differs from both checkout URLs. |
| Checkout.CreateCheckoutSession | connect_backend/api/index.py:56-93 | The assembled arguments equal `SessionArgsOf(data, config)` and always give a well-defined customer mode. |
| Checkout.SessionLineItemsFollowCart | connect_backend/api/index.py:59-71 | The session has as many line items as the cart, in order. Each entry has the item's quantity, currency `usd`, the item's name unchanged, `[image]` when the image is non-empty and `[]` otherwise, and the truncated cents of the price. |
| Checkout.SessionSettingsFixed | connect_backend/api/index.py:73-87 | Always present: the card payment method only, `payment` mode, invoice creation on, fee 10000, the configured account as destination, and the success and cancel URLs. |
| Checkout.SessionSettingsIndependentOfCart | connect_backend/api/index.py:73-88 | Two requests under one configuration differ only in line items and customer keys. |
| Checkout.CustomerFieldsExclusive | connect_backend/api/index.py:90-93 | Exactly one customer key is set. `customer` is set, to the given id, if and only if the id is present and non-empty. Otherwise `customer_creation` is `"always"`. |
| Checkout.CheckoutReplyOf | connect_backend/api/index.py:95-101 | A created session is answered with its id and URL. A processor error is answered with 400 and the error message unchanged. |
| Checkout.CheckoutEndpoint | connect_backend/api/index.py:56-101 | The endpoint's reply is the processor's outcome on exactly the specified session arguments, mapped by `CheckoutReplyOf`. |
| Webhook.Dispatch | connect_backend/api/index.py:148-156 | `payment_intent.succeeded` selects the payment-intent branch and `checkout.session.completed` selects the checkout branch, each if and only if the type matches exactly and carrying the event object's id. Every other type selects no handler. |
| Webhook.HandleDelivery | connect_backend/api/index.py:137-156 | A payload error gives 400 "Invalid payload" and a signature error gives 400 "Invalid signature", both with no branch. A verified event gives `{"status": "success"}` and its dispatched branch. |
| Webhook.RejectedIffUnverified | connect_backend/api/index.py:137-146 | A delivery is rejected, always with status 400, if and only if verification failed. No branch runs if and only if verification failed. |
| Webhook.FailuresDistinguishable | connect_backend/api/index.py:141-146 | The payload-error and signature-error responses differ. |
| Webhook.AcknowledgmentIndependentOfEvent | connect_backend/api/index.py:148-156 | Every verified event gets the same `{"status": "success"}` response, whatever its type. |
| Webhook.BranchFiresIff | connect_backend/api/index.py:148-156 | Each handler branch fires if and only if the event is verified and has its exact type, with that event's object id. The unhandled outcome occurs if and only if the event is verified and has any other type. |

## Left out

- Stripe SDK calls (`stripe.checkout.Session.create`, `retrieve`, `stripe.billing_portal.Session.create`, `stripe.Webhook.construct_event`): foreign library code. Their results are inputs (`Verification`, the `create` parameter of `CheckoutEndpoint`). The signature scheme is not modelled.
- `get_checkout_session` and `create_portal_session`: passthroughs to the SDK. Only the portal's return URL (`PortalReturnUrl`) is modelled.
- Environment loading, CORS middleware, FastAPI routing and the liveness route `home`: configuration and I/O plumbing. Configuration is passed in as `Config`.
- `print` logging: a side channel. The webhook model records only the branch taken.
- Checkout.TruncateToInt: the price is an exact `real`, not an IEEE-754 double. The float rounding of `price * 100` is not modelled; in the source, 19.99 gives 1998. Line-item building therefore cannot fail in the model. In the source, `int(item.price * 100)` raises for an infinite or NaN price, or when the product overflows to infinity. The `except Exception` at connect_backend/api/index.py:99-101 turns that into a 400 carrying `str(e)`. That error path is left out along with IEEE floats.
- Checkout.CheckoutReplyOf: the error message is the processor's `str(e)`, taken as an opaque string.
- Webhook.HandleDelivery: in the source, a verified event with no `type` key always raises and gives a server error. A missing `data`, `object` or `id` key raises only for `payment_intent.succeeded` and `checkout.session.completed` (connect_backend/api/index.py:149-150, :153-154). Events of any other type are acknowledged without reading those keys (:156). The model assumes the keys are present.
- Persistence in the webhook handlers, and handlers for charge or transfer events: not present in the code.
- Request validation by pydantic (field types): the model takes already-typed values.
