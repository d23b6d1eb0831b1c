/** The PayPal create-order proxy: validate the request, exchange the
    client credentials for a token, rebuild the order payload with its
    defaults, and relay PayPal's answer. The token exchange and PayPal's
    reply are inputs. */
module PayPalProxy {
  import opened Wrappers
  import opened Http

  const InvalidPurchaseUnits := "Invalid purchase_units"
  const OrderCreationFailed := "PayPal order creation failed"
  const DefaultIntent := "CAPTURE"
  const DefaultCurrency := "USD"
  const BrandName := "Zimbabwe E-commerce Platform"
  /** Messages of the TypeErrors thrown when a unit has no `amount` or an
      item has no `unit_amount`. */
  const NoUnitAmount := "Cannot read properties of undefined (reading 'currency_code')"
  const NoItemAmount := "Cannot read properties of undefined (reading 'value')"

  // ---------------------------------------------------------------------
  // Request shape (as posted by the client)
  // ---------------------------------------------------------------------

  /** A unit's `amount`; `hasBreakdown` is the truthiness of its `breakdown`. */
  datatype InAmount = InAmount(currencyCode: Option<string>, value: Option<string>, hasBreakdown: bool)

  /** An item's `unit_amount`. */
  datatype InPrice = InPrice(value: Option<string>)

  datatype InItem = InItem(name: Option<string>, quantity: Option<string>, unitAmount: Option<InPrice>)

  datatype InUnit = InUnit(
    referenceId: Option<string>,
    amount: Option<InAmount>,
    description: Option<string>,
    items: Option<seq<InItem>>)

  /** The request body; `purchaseUnits` is None when the member is absent
      or is not an array. */
  datatype OrderRequest = OrderRequest(intent: Option<string>, purchaseUnits: Option<seq<InUnit>>)

  // ---------------------------------------------------------------------
  // Payload shape (as sent to PayPal)
  // ---------------------------------------------------------------------

  datatype Money = Money(currencyCode: string, value: Option<string>)

  datatype OutItem = OutItem(name: Option<string>, quantity: Option<string>, unitAmount: Money)

  /** A unit of the payload; `itemTotal` is `breakdown.item_total`. */
  datatype OutUnit = OutUnit(
    referenceId: Option<string>,
    amount: Money,
    itemTotal: Option<Money>,
    description: Option<string>,
    items: Option<seq<OutItem>>)

  datatype AppContext = AppContext(
    returnUrl: string, cancelUrl: string, brandName: string, landingPage: string, userAction: string)

  datatype OrderPayload = OrderPayload(intent: string, purchaseUnits: seq<OutUnit>, context: AppContext)

  /** The call made to PayPal: the bearer token and the payload. */
  datatype OrderCall = OrderCall(bearer: string, payload: OrderPayload)

  /** PayPal's answer: its HTTP status and JSON body. */
  datatype UpstreamReply = UpstreamReply(status: int, data: string) {
    predicate Ok() {
      OkStatus(status)
    }
  }

  /** The reply; whether the token was requested; the call made to PayPal, if any. */
  datatype CreateOutcome = CreateOutcome(reply: Reply<string>, tokenRequested: bool, sent: Option<OrderCall>)

  // ---------------------------------------------------------------------
  // Transformation
  // ---------------------------------------------------------------------

  /** The currency of a unit, defaulting to USD. */
  function UnitCurrency(amount: InAmount): string {
    OrElse(amount.currencyCode, DefaultCurrency)
  }

  function TransformItems(items: seq<InItem>, currency: string): (r: Result<seq<OutItem>>)
    ensures r.Success? <==> forall i :: 0 <= i < |items| ==> items[i].unitAmount.Some?
    ensures r.Success? ==> |r.value| == |items|
    ensures r.Success? ==> forall i :: 0 <= i < |items| ==>
      r.value[i] == OutItem(items[i].name, items[i].quantity, Money(currency, items[i].unitAmount.value.value))
    decreases |items|
  {
    if |items| == 0 then Success([])
    else if items[0].unitAmount.None? then Failure(NoItemAmount)
    else
      match TransformItems(items[1..], currency)
      case Failure(m) => Failure(m)
      case Success(rest) =>
        var head := OutItem(items[0].name, items[0].quantity, Money(currency, items[0].unitAmount.value.value));
        assert forall i :: 1 <= i < |items| ==> items[i] == items[1..][i - 1];
        Success([head] + rest)
  }

  /** One unit: the unit's currency (or USD) on the amount, on the item
      total and on every item; the item total present only when the input
      had a breakdown. */
  function TransformUnit(unit: InUnit): Result<OutUnit> {
    if unit.amount.None? then Failure(NoUnitAmount)
    else
      var currency := UnitCurrency(unit.amount.value);
      var money := Money(currency, unit.amount.value.value);
      var total := if unit.amount.value.hasBreakdown then Some(money) else None;
      if unit.items.None? then Success(OutUnit(unit.referenceId, money, total, unit.description, None))
      else
        match TransformItems(unit.items.value, currency)
        case Failure(m) => Failure(m)
        case Success(items) => Success(OutUnit(unit.referenceId, money, total, unit.description, Some(items)))
  }

  /** All units in order; the first unit that throws ends the mapping. */
  function TransformUnits(units: seq<InUnit>): (r: Result<seq<OutUnit>>)
    ensures r.Success? <==> forall i :: 0 <= i < |units| ==> TransformUnit(units[i]).Success?
    ensures r.Success? ==> |r.value| == |units|
    ensures r.Success? ==> forall i :: 0 <= i < |units| ==> r.value[i] == TransformUnit(units[i]).value
    decreases |units|
  {
    if |units| == 0 then Success([])
    else
      match TransformUnit(units[0])
      case Failure(m) => Failure(m)
      case Success(head) =>
        match TransformUnits(units[1..])
        case Failure(m) => Failure(m)
        case Success(rest) =>
          assert forall i :: 1 <= i < |units| ==> units[i] == units[1..][i - 1];
          Success([head] + rest)
  }

  function Context(siteUrl: Option<string>): AppContext {
    AppContext(Str(siteUrl) + "/payment-success", Str(siteUrl) + "/payment-cancelled",
               BrandName, "NO_PREFERENCE", "PAY_NOW")
  }

  /** The handler. `siteUrl` is the site's URL variable, `token` the
      outcome of the credential exchange, `upstream` PayPal's answer. */
  function CreateOrder(
    httpMethod: string,
    request: Parsed<OrderRequest>,
    siteUrl: Option<string>,
    token: Result<string>,
    upstream: Result<UpstreamReply>): (o: CreateOutcome)
    ensures o.tokenRequested <==>
      httpMethod == "POST" && request.Parsed? && request.value.purchaseUnits.Some?
    ensures o.sent.Some? <==>
      o.tokenRequested && token.Success? && TransformUnits(request.value.purchaseUnits.value).Success?
    ensures o.sent.Some? ==>
      && o.sent.value.bearer == token.value
      && |o.sent.value.payload.purchaseUnits| == |request.value.purchaseUnits.value|
    ensures o.reply.statusCode == 200 ==>
      httpMethod == "OPTIONS" || (o.sent.Some? && upstream.Success? && upstream.value.Ok())
  {
    match Gate(httpMethod, "POST")
    case Some(reply) => CreateOutcome(reply, false, None)
    case None =>
      match request
      case Malformed(message) => CreateOutcome(Reply(500, ServerError(message)), false, None)
      case Parsed(req) =>
        if req.purchaseUnits.None? then
          CreateOutcome(Reply(400, ErrorJson(InvalidPurchaseUnits)), false, None)
        else
          match token
          case Failure(message) => CreateOutcome(Reply(500, ServerError(message)), true, None)
          case Success(bearer) =>
            match TransformUnits(req.purchaseUnits.value)
            case Failure(message) => CreateOutcome(Reply(500, ServerError(message)), true, None)
            case Success(units) =>
              var call := OrderCall(bearer, OrderPayload(OrElse(req.intent, DefaultIntent), units, Context(siteUrl)));
              match upstream
              case Failure(message) => CreateOutcome(Reply(500, ServerError(message)), true, Some(call))
              case Success(answer) =>
                if !answer.Ok() then
                  CreateOutcome(Reply(answer.status, ErrorWithDetails(OrderCreationFailed, answer.data)), true, Some(call))
                else CreateOutcome(Reply(200, Json(answer.data)), true, Some(call))
  }

  /** A preflight is answered 200 with an empty body, any other method but
      POST 405; neither requests a token. */
  lemma MethodGate(httpMethod: string, request: Parsed<OrderRequest>, siteUrl: Option<string>,
                   token: Result<string>, upstream: Result<UpstreamReply>)
    requires httpMethod != "POST"
    ensures var o := CreateOrder(httpMethod, request, siteUrl, token, upstream);
      && !o.tokenRequested && o.sent.None?
      && (httpMethod == "OPTIONS" ==> o.reply == Reply(200, Empty))
      && (httpMethod != "OPTIONS" ==> o.reply == Reply(405, ErrorJson(MethodNotAllowed)))
  {
  }

  /** Missing or non-array purchase units are answered 400 before any token request. */
  lemma InvalidUnitsRejected(intent: Option<string>, siteUrl: Option<string>,
                             token: Result<string>, upstream: Result<UpstreamReply>)
    ensures CreateOrder("POST", Parsed(OrderRequest(intent, None)), siteUrl, token, upstream)
      == CreateOutcome(Reply(400, ErrorJson(InvalidPurchaseUnits)), false, None)
  {
  }

  /** The payload sent: the request's intent or CAPTURE; one output unit per
      input unit, in order, with the same reference, description and value;
      the currency defaulting to USD and shared by the amount, the item total
      and every item; the item total present exactly when the input unit had
      a breakdown, and then equal to the amount; one output item per input
      item, in order. */
  lemma PayloadShape(req: OrderRequest, siteUrl: Option<string>, bearer: string, upstream: Result<UpstreamReply>)
    requires req.purchaseUnits.Some?
    requires TransformUnits(req.purchaseUnits.value).Success?
    ensures var units := req.purchaseUnits.value;
      var o := CreateOrder("POST", Parsed(req), siteUrl, Success(bearer), upstream);
      var payload := o.sent.value.payload;
      && payload.intent == (if Truthy(req.intent) then req.intent.value else "CAPTURE")
      && |payload.purchaseUnits| == |units|
      && forall i :: 0 <= i < |units| ==>
        var inUnit, outUnit := units[i], payload.purchaseUnits[i];
        && inUnit.amount.Some?
        && outUnit.referenceId == inUnit.referenceId
        && outUnit.description == inUnit.description
        && outUnit.amount.value == inUnit.amount.value.value
        && outUnit.amount.currencyCode
             == (if Truthy(inUnit.amount.value.currencyCode) then inUnit.amount.value.currencyCode.value else "USD")
        && (outUnit.itemTotal.Some? <==> inUnit.amount.value.hasBreakdown)
        && (outUnit.itemTotal.Some? ==> outUnit.itemTotal.value == outUnit.amount)
        && (outUnit.items.Some? <==> inUnit.items.Some?)
        && (outUnit.items.Some? ==>
              && |outUnit.items.value| == |inUnit.items.value|
              && forall j :: 0 <= j < |inUnit.items.value| ==>
                   && outUnit.items.value[j].name == inUnit.items.value[j].name
                   && outUnit.items.value[j].quantity == inUnit.items.value[j].quantity
                   && outUnit.items.value[j].unitAmount.currencyCode == outUnit.amount.currencyCode)
  {
    var units := req.purchaseUnits.value;
    forall i | 0 <= i < |units|
      ensures TransformUnit(units[i]).Success?
    {
    }
  }

  /** PayPal's answer is relayed: a non-ok answer keeps its status and is
      wrapped with "PayPal order creation failed" and the details; an ok
      answer is 200 with PayPal's body as is. */
  lemma UpstreamRelayed(req: OrderRequest, siteUrl: Option<string>, bearer: string, answer: UpstreamReply)
    requires req.purchaseUnits.Some?
    requires TransformUnits(req.purchaseUnits.value).Success?
    ensures var reply := CreateOrder("POST", Parsed(req), siteUrl, Success(bearer), Success(answer)).reply;
      && (!answer.Ok() ==> reply == Reply(answer.status, ErrorWithDetails(OrderCreationFailed, answer.data)))
      && (answer.Ok() ==> reply == Reply(200, Json(answer.data)))
  {
  }
}
