/**
 * The checkout-session builder of the Stripe Connect backend: how a posted cart
 * becomes the argument record handed to the processor's session-creation call,
 * the redirect URLs derived from the frontend base URL, and how the call's
 * outcome becomes the endpoint's reply.
 */
module Checkout {
  import opened Wrappers

  /** One cart entry as posted by the storefront. The price is in major units (dollars). */
  datatype CartItem = CartItem(name: string, price: real, quantity: int, image: string)

  /** The checkout request body: the cart and, optionally, a known processor customer id. */
  datatype CheckoutRequest = CheckoutRequest(items: seq<CartItem>, customerId: Option<string>)

  /**
   * Process-wide configuration, read from the environment once at start-up:
   * the storefront's base URL and the connected seller account (absent when the
   * environment variable is unset).
   */
  datatype Config = Config(frontendUrl: string, connectedAccountId: Option<string>)

  datatype ProductData = ProductData(name: string, images: seq<string>)
  datatype PriceData = PriceData(currency: string, productData: ProductData, unitAmount: int)
  /** One entry of `line_items` in the session arguments. */
  datatype LineItem = LineItem(priceData: PriceData, quantity: int)

  /**
   * The keyword arguments of the session-creation call. `customer` and
   * `customerCreation` are dictionary keys that may be missing, hence `Option`.
   */
  datatype SessionArgs = SessionArgs(
    paymentMethodTypes: seq<string>,
    lineItems: seq<LineItem>,
    mode: string,
    invoiceCreationEnabled: bool,
    applicationFeeAmount: int,
    transferDestination: Option<string>,
    successUrl: string,
    cancelUrl: string,
    customer: Option<string>,
    customerCreation: Option<string>)

  /** How a session is tied to a customer: an existing one, or one created at checkout. */
  datatype CustomerMode = ExistingCustomer(id: string) | CreateAlways

  /** The session the processor reports back after a successful creation call. */
  datatype CreatedSession = CreatedSession(id: string, url: string)

  /** The reply of the checkout endpoint. */
  datatype CheckoutReply =
    | SessionCreated(sessionId: string, url: string)
    | CheckoutRejected(statusCode: int, detail: string)

  /** The flat platform fee in cents, taken on every order. */
  const PlatformFee: int := 10000
  const Currency: string := "usd"
  /** The placeholder the processor replaces with the new session's id at redirect time. */
  const SessionIdToken: string := "{CHECKOUT_SESSION_ID}"

  // ---------------------------------------------------------------------------
  // Amounts

  /** Python's `int(x)` on a number: truncation toward zero. */
  function TruncateToInt(x: real): (n: int)
    ensures 0.0 <= x ==> 0 <= n && n as real <= x < n as real + 1.0
    ensures x < 0.0 ==> n <= 0 && n as real - 1.0 < x <= n as real
  {
    if 0.0 <= x then x.Floor else -((-x).Floor)
  }

  /** The integer the source computes as a line's `unit_amount`: the price in cents, truncated. */
  function UnitAmount(price: real): int
  {
    TruncateToInt(price * 100.0)
  }

  /** The truncation is the only integer with the characterising bounds of `TruncateToInt`. */
  lemma TruncateToIntUnique(x: real, n: int)
    requires 0.0 <= x ==> 0 <= n && n as real <= x < n as real + 1.0
    requires x < 0.0 ==> n <= 0 && n as real - 1.0 < x <= n as real
    ensures TruncateToInt(x) == n
  {
  }

  /** A price given in exact hundredths becomes exactly that many cents. */
  lemma UnitAmountOfCents(cents: int)
    ensures UnitAmount(cents as real / 100.0) == cents
  {
  }

  /** A higher price never yields a lower unit amount. */
  lemma UnitAmountMonotone(p: real, q: real)
    requires p <= q
    ensures UnitAmount(p) <= UnitAmount(q)
  {
  }

  /** A non-negative price loses less than one cent to the truncation. */
  lemma UnitAmountBounds(price: real)
    requires 0.0 <= price
    ensures 0 <= UnitAmount(price)
    ensures UnitAmount(price) as real <= price * 100.0 < UnitAmount(price) as real + 1.0
  {
  }

  // ---------------------------------------------------------------------------
  // Line items

  /** The product image list: the item's image when it is non-empty, otherwise none. */
  function ImagesOf(image: string): seq<string>
  {
    if image != "" then [image] else []
  }

  /** Reads the item's image back out of a product image list (`""` when there is none). */
  function ImageFrom(images: seq<string>): string
  {
    if images == [] then "" else images[0]
  }

  /** The image list loses nothing: the image can be read back from it. */
  lemma ImagesOfRoundTrip(image: string)
    ensures ImageFrom(ImagesOf(image)) == image
    ensures |ImagesOf(image)| <= 1
  {
  }

  /** The line-item entry built for one cart item. */
  function ToLineItem(item: CartItem): LineItem
  {
    LineItem(PriceData(Currency, ProductData(item.name, ImagesOf(item.image)), UnitAmount(item.price)), item.quantity)
  }

  /**
   * Two cart items yield the same line item exactly when they agree on name,
   * image and quantity and their prices truncate to the same number of cents.
   */
  lemma LineItemDeterminesItem(a: CartItem, b: CartItem)
    ensures ToLineItem(a) == ToLineItem(b) <==>
      a.name == b.name && a.image == b.image && a.quantity == b.quantity &&
      UnitAmount(a.price) == UnitAmount(b.price)
  {
  }

  /** The cart's line items: one entry per item, in cart order. */
  function LineItems(items: seq<CartItem>): seq<LineItem>
  {
    seq(|items|, k requires 0 <= k < |items| => ToLineItem(items[k]))
  }

  /** Building line items distributes over concatenation of carts, so order is kept. */
  lemma LineItemsConcat(a: seq<CartItem>, b: seq<CartItem>)
    ensures LineItems(a + b) == LineItems(a) + LineItems(b)
  {
  }

  /**
   * The loop of the checkout endpoint: appends one entry per cart item.
   */
  method BuildLineItems(items: seq<CartItem>) returns (lineItems: seq<LineItem>)
    ensures |lineItems| == |items|
    ensures forall k :: 0 <= k < |items| ==> lineItems[k] == ToLineItem(items[k])
  {
    lineItems := [];
    for i := 0 to |items|
      invariant |lineItems| == i
      invariant forall k :: 0 <= k < i ==> lineItems[k] == ToLineItem(items[k])
    {
      // The literals are spelled out as the source writes them; the ensures ties them to ToLineItem.
      var item := items[i];
      var images := if item.image != "" then [item.image] else [];
      var priceData := PriceData("usd", ProductData(item.name, images), TruncateToInt(item.price * 100.0));
      lineItems := lineItems + [LineItem(priceData, item.quantity)];
    }
  }

  // ---------------------------------------------------------------------------
  // Redirect URLs

  /** Where the processor sends the buyer after payment; the token is substituted by the processor. */
  function SuccessUrl(frontendUrl: string): string
  {
    frontendUrl + "/success?session_id=" + SessionIdToken
  }

  /** Where the processor sends the buyer who abandons the payment page. */
  function CancelUrl(frontendUrl: string): string
  {
    frontendUrl + "/"
  }

  /** Where the billing portal sends the customer back to. */
  function PortalReturnUrl(frontendUrl: string): string
  {
    frontendUrl + "/success"
  }

  /**
   * Both checkout URLs sit under the frontend base URL, and the success URL ends
   * in the session-id token: the literal placeholder with one opening and one
   * closing brace.
   */
  lemma UrlsShape(f: string)
    ensures CancelUrl(f)[..|f|] == f && SuccessUrl(f)[..|f|] == f
    ensures SuccessUrl(f) == CancelUrl(f) + "success?session_id=" + SessionIdToken
    ensures SuccessUrl(f)[|SuccessUrl(f)| - |SessionIdToken|..] == SessionIdToken
    ensures SessionIdToken == ['{'] + "CHECKOUT_SESSION_ID" + ['}']
  {
    assert "/success?session_id=" == "/" + "success?session_id=";
  }

  /** Each checkout URL determines the frontend base URL it was built from. */
  lemma UrlsDetermineFrontend(f: string, g: string)
    ensures SuccessUrl(f) == SuccessUrl(g) ==> f == g
    ensures CancelUrl(f) == CancelUrl(g) ==> f == g
  {
    if SuccessUrl(f) == SuccessUrl(g) {
      assert f == SuccessUrl(f)[..|f|] && g == SuccessUrl(g)[..|g|];
    }
    if CancelUrl(f) == CancelUrl(g) {
      assert f == CancelUrl(f)[..|f|] && g == CancelUrl(g)[..|g|];
    }
  }

  /** For one frontend base URL the success and cancel URLs differ. */
  lemma UrlsDistinct(f: string)
    ensures SuccessUrl(f) != CancelUrl(f)
  {
  }

  /**
   * The portal return URL sits under the frontend base URL, determines it, is
   * the success URL without its query, and differs from both checkout URLs.
   */
  lemma PortalReturnUrlShape(f: string, g: string)
    ensures PortalReturnUrl(f)[..|f|] == f
    ensures PortalReturnUrl(f) == PortalReturnUrl(g) ==> f == g
    ensures SuccessUrl(f) == PortalReturnUrl(f) + "?session_id=" + SessionIdToken
    ensures PortalReturnUrl(f) != SuccessUrl(f) && PortalReturnUrl(f) != CancelUrl(f)
  {
  }

  // ---------------------------------------------------------------------------
  // Session arguments

  /** Python truthiness of the optional customer id: present and non-empty. */
  predicate HasCustomer(customerId: Option<string>)
  {
    customerId.Some? && customerId.value != ""
  }

  /** The session arguments built for a request under a configuration. */
  function SessionArgsOf(data: CheckoutRequest, config: Config): SessionArgs
  {
    var settled := SessionArgs(
      ["card"], LineItems(data.items), "payment", true, PlatformFee,
      config.connectedAccountId, SuccessUrl(config.frontendUrl), CancelUrl(config.frontendUrl),
      None, None);
    if HasCustomer(data.customerId) then settled.(customer := data.customerId)
    else settled.(customerCreation := Some("always"))
  }

  /**
   * The customer mode a set of arguments asks for, or `None` when the arguments
   * set both customer fields or neither (which the processor rejects).
   */
  function CustomerModeOf(args: SessionArgs): Option<CustomerMode>
  {
    match (args.customer, args.customerCreation)
    case (Some(id), None) => Some(ExistingCustomer(id))
    case (None, Some("always")) => Some(CreateAlways)
    case _ => None
  }

  /**
   * The checkout endpoint's argument assembly: the line-item loop, the fixed
   * settings, then exactly one of the two customer keys.
   */
  method CreateCheckoutSession(data: CheckoutRequest, config: Config) returns (args: SessionArgs)
    ensures args == SessionArgsOf(data, config)
    ensures CustomerModeOf(args).Some?
  {
    // The literals are spelled out as the source writes them; the ensures ties them to SessionArgsOf.
    var lineItems := BuildLineItems(data.items);
    var platformFee := 10000;
    args := SessionArgs(
      ["card"], lineItems, "payment", true, platformFee,
      config.connectedAccountId,
      config.frontendUrl + "/success?session_id={CHECKOUT_SESSION_ID}",
      config.frontendUrl + "/",
      None, None);
    if data.customerId.Some? && data.customerId.value != "" {
      args := args.(customer := data.customerId);
    } else {
      args := args.(customerCreation := Some("always"));
    }
  }

  /** One line item per cart item, in cart order, each mapping its item field by field. */
  lemma SessionLineItemsFollowCart(data: CheckoutRequest, config: Config, k: int)
    requires 0 <= k < |data.items|
    ensures |SessionArgsOf(data, config).lineItems| == |data.items|
    ensures var line, item := SessionArgsOf(data, config).lineItems[k], data.items[k];
      && line.quantity == item.quantity
      && line.priceData.currency == "usd"
      && line.priceData.productData.name == item.name
      && (item.image != "" ==> line.priceData.productData.images == [item.image])
      && (item.image == "" ==> line.priceData.productData.images == [])
      && line.priceData.unitAmount == TruncateToInt(item.price * 100.0)
  {
  }

  /** The payment settings are constants of the configuration, whatever the cart. */
  lemma SessionSettingsFixed(data: CheckoutRequest, config: Config)
    ensures var args := SessionArgsOf(data, config);
      && args.paymentMethodTypes == ["card"]
      && args.mode == "payment"
      && args.invoiceCreationEnabled
      && args.applicationFeeAmount == 10000
      && args.transferDestination == config.connectedAccountId
      && args.successUrl == SuccessUrl(config.frontendUrl)
      && args.cancelUrl == CancelUrl(config.frontendUrl)
  {
  }

  /** Two requests under one configuration differ at most in line items and customer fields. */
  lemma SessionSettingsIndependentOfCart(d1: CheckoutRequest, d2: CheckoutRequest, config: Config)
    ensures var a1, a2 := SessionArgsOf(d1, config), SessionArgsOf(d2, config);
      a1.(lineItems := [], customer := None, customerCreation := None) ==
      a2.(lineItems := [], customer := None, customerCreation := None)
  {
  }

  /**
   * Exactly one customer key is set: `customer`, carrying the given id, when the
   * id is present and non-empty; otherwise `customer_creation = "always"`.
   */
  lemma CustomerFieldsExclusive(data: CheckoutRequest, config: Config)
    ensures var args := SessionArgsOf(data, config);
      && (args.customer.Some? <==> HasCustomer(data.customerId))
      && (args.customerCreation.Some? <==> !HasCustomer(data.customerId))
      && (args.customer.Some? ==> args.customer == data.customerId)
      && (args.customerCreation.Some? ==> args.customerCreation == Some("always"))
    ensures CustomerModeOf(SessionArgsOf(data, config)) ==
      if HasCustomer(data.customerId) then Some(ExistingCustomer(data.customerId.value)) else Some(CreateAlways)
  {
  }

  // ---------------------------------------------------------------------------
  // Endpoint reply

  /**
   * The endpoint's reply to the processor's outcome: the session id and URL, or
   * a 400 carrying the processor's error message unchanged.
   */
  function CheckoutReplyOf(created: Result<CreatedSession, string>): (r: CheckoutReply)
    ensures r.SessionCreated? <==> created.Success?
    ensures created.Success? ==> r.sessionId == created.value.id && r.url == created.value.url
    ensures created.Failure? ==> r.statusCode == 400 && r.detail == created.error
  {
    match created
    case Success(session) => SessionCreated(session.id, session.url)
    case Failure(message) => CheckoutRejected(400, message)
  }

  /**
   * The whole checkout endpoint, with the processor's session-creation call
   * given as the function `create` from arguments to outcome.
   */
  method CheckoutEndpoint(data: CheckoutRequest, config: Config, create: SessionArgs -> Result<CreatedSession, string>)
    returns (reply: CheckoutReply)
    ensures reply == CheckoutReplyOf(create(SessionArgsOf(data, config)))
  {
    var args := CreateCheckoutSession(data, config);
    var outcome := create(args);
    match outcome
    case Success(session) =>
      reply := SessionCreated(session.id, session.url);
    case Failure(message) =>
      reply := CheckoutRejected(400, message);
  }
}
