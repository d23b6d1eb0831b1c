/** The browser-side payment service: the bodies it posts to the proxies,
    the WhatsApp order message and links, and the dispatch of a payment to
    PayPal or Paynow. Amounts and prices are integer cents; the page origin,
    `encodeURIComponent` and the build-time configuration are parameters. */
module PaymentService {
  import opened Wrappers
  import opened Text
  import Http
  import PayPalProxy
  import PaynowInitiate
  import PaynowStatus
  import WhatsAppProxy

  datatype LineItem = LineItem(name: string, quantity: nat, price: nat)

  datatype PaymentOrder = PaymentOrder(
    id: string,
    amount: nat,
    currency: string,
    description: string,
    customerEmail: string,
    customerPhone: Option<string>,
    items: seq<LineItem>)

  // ---------------------------------------------------------------------
  // PayPal create-order body
  // ---------------------------------------------------------------------

  datatype Price = Price(currencyCode: string, value: string)
  datatype PayPalItem = PayPalItem(name: string, quantity: string, unitAmount: Price)
  datatype PayPalUnit = PayPalUnit(referenceId: string, amount: Price, description: string, items: seq<PayPalItem>)
  datatype PayPalOrderBody = PayPalOrderBody(intent: string, purchaseUnits: seq<PayPalUnit>)

  function PayPalItemOf(item: LineItem, currency: string): PayPalItem {
    PayPalItem(item.name, NatToString(item.quantity), Price(currency, FormatCents(item.price)))
  }

  /** The body posted to the create-order proxy: a capture of exactly one
      purchase unit that carries the whole order. */
  function PayPalOrder(order: PaymentOrder): (b: PayPalOrderBody)
    ensures b.intent == "CAPTURE" && |b.purchaseUnits| == 1
    ensures |b.purchaseUnits[0].items| == |order.items|
  {
    var items := seq(|order.items|, i requires 0 <= i < |order.items| => PayPalItemOf(order.items[i], order.currency));
    PayPalOrderBody("CAPTURE", [PayPalUnit(order.id, Price(order.currency, FormatCents(order.amount)),
                                           order.description, items)])
  }

  /** The body loses nothing: reading back its unit gives the order's id,
      currency and amount, and reading back item i gives item i's name,
      quantity and unit price, in the order's currency. */
  lemma PayPalOrderReadsBack(order: PaymentOrder)
    ensures var unit := PayPalOrder(order).purchaseUnits[0];
      && unit.referenceId == order.id
      && unit.description == order.description
      && unit.amount.currencyCode == order.currency
      && IsTwoDecimal(unit.amount.value) && ParseTwoDecimal(unit.amount.value) == order.amount
      && forall i :: 0 <= i < |order.items| ==>
           && unit.items[i].name == order.items[i].name
           && AllDigits(unit.items[i].quantity)
           && DigitsValue(unit.items[i].quantity) == order.items[i].quantity
           && unit.items[i].unitAmount.currencyCode == order.currency
           && IsTwoDecimal(unit.items[i].unitAmount.value)
           && ParseTwoDecimal(unit.items[i].unitAmount.value) == order.items[i].price
  {
    FormatCentsRoundTrip(order.amount);
    forall i | 0 <= i < |order.items|
      ensures DigitsValue(NatToString(order.items[i].quantity)) == order.items[i].quantity
      ensures ParseTwoDecimal(FormatCents(order.items[i].price)) == order.items[i].price
    {
      NatToStringRoundTrip(order.items[i].quantity);
      FormatCentsRoundTrip(order.items[i].price);
    }
  }

  /** What the create-order proxy reads from the posted JSON. No member is
      left out, and no unit carries a breakdown. */
  function AsOrderRequest(body: PayPalOrderBody): PayPalProxy.OrderRequest {
    PayPalProxy.OrderRequest(Some(body.intent), Some(seq(|body.purchaseUnits|, i requires 0 <= i < |body.purchaseUnits| =>
      var u := body.purchaseUnits[i];
      PayPalProxy.InUnit(
        Some(u.referenceId),
        Some(PayPalProxy.InAmount(Some(u.amount.currencyCode), Some(u.amount.value), false)),
        Some(u.description),
        Some(seq(|u.items|, j requires 0 <= j < |u.items| =>
          PayPalProxy.InItem(Some(u.items[j].name), Some(u.items[j].quantity),
                             Some(PayPalProxy.InPrice(Some(u.items[j].unitAmount.value))))))))))
  }

  /** The proxy accepts every order the client builds and forwards it to
      PayPal as a capture of one unit with the order's amount, no item total,
      and every item priced in the unit's currency — the order's own
      currency, or USD when the order's currency is empty. */
  lemma ProxyForwardsClientOrder(order: PaymentOrder, siteUrl: Option<string>, bearer: string,
                                 upstream: Result<PayPalProxy.UpstreamReply>)
    ensures var o := PayPalProxy.CreateOrder("POST", Http.Parsed(AsOrderRequest(PayPalOrder(order))),
                                             siteUrl, Success(bearer), upstream);
      var currency := if order.currency != "" then order.currency else "USD";
      && o.sent.Some?
      && o.sent.value.payload.intent == "CAPTURE"
      && |o.sent.value.payload.purchaseUnits| == 1
      && var unit := o.sent.value.payload.purchaseUnits[0];
      && unit.referenceId == Some(order.id)
      && unit.amount == PayPalProxy.Money(currency, Some(FormatCents(order.amount)))
      && unit.itemTotal.None?
      && unit.items.Some? && |unit.items.value| == |order.items|
      && forall j :: 0 <= j < |order.items| ==>
           unit.items.value[j] == PayPalProxy.OutItem(Some(order.items[j].name),
             Some(NatToString(order.items[j].quantity)),
             PayPalProxy.Money(currency, Some(FormatCents(order.items[j].price))))
  {
    var req := AsOrderRequest(PayPalOrder(order));
    var units := req.purchaseUnits.value;
    assert PayPalProxy.TransformUnit(units[0]).Success?;
    PayPalProxy.PayloadShape(req, siteUrl, bearer, upstream);
  }

  // ---------------------------------------------------------------------
  // Paynow bodies
  // ---------------------------------------------------------------------

  /** The build-time Paynow credentials the client reads. */
  datatype ClientConfig = ClientConfig(paynowIntegrationId: Option<string>, paynowIntegrationKey: Option<string>)

  const PlaceholderIntegrationId := "your-paynow-integration-id"
  const PlaceholderIntegrationKey := "your-paynow-integration-key"

  datatype PaynowPaymentData = PaynowPaymentData(
    reference: string,
    amount: nat,
    email: string,
    phone: Option<string>,
    payMethod: string,
    returnUrl: string,
    resultUrl: string)

  /** The body posted to the initiate proxy. */
  datatype InitiateBody = InitiateBody(
    integrationId: string,
    integrationKey: string,
    reference: string,
    amount: nat,
    email: string,
    phone: Option<string>,
    payMethod: string,
    returnUrl: string,
    resultUrl: string)

  /** The initiate body: the configured (or placeholder) credentials, the
      payment data with `returnUrl`/`resultUrl` renamed to
      `return_url`/`result_url`. */
  function InitiateBodyOf(data: PaynowPaymentData, config: ClientConfig): (b: InitiateBody)
    ensures Truthy(config.paynowIntegrationId) ==> b.integrationId == config.paynowIntegrationId.value
    ensures !Truthy(config.paynowIntegrationId) ==> b.integrationId == PlaceholderIntegrationId
    ensures Truthy(config.paynowIntegrationKey) ==> b.integrationKey == config.paynowIntegrationKey.value
    ensures !Truthy(config.paynowIntegrationKey) ==> b.integrationKey == PlaceholderIntegrationKey
  {
    InitiateBody(
      OrElse(config.paynowIntegrationId, PlaceholderIntegrationId),
      OrElse(config.paynowIntegrationKey, PlaceholderIntegrationKey),
      data.reference, data.amount, data.email, data.phone, data.payMethod, data.returnUrl, data.resultUrl)
  }

  /** What the initiate proxy destructures from the posted JSON: the
      credentials are not among its members, and an undefined phone is
      dropped by `JSON.stringify`. */
  function AsInitiateRequest(b: InitiateBody): PaynowInitiate.InitiateRequest {
    PaynowInitiate.InitiateRequest(
      Some(b.reference), Some(PaynowInitiate.Number(b.amount)), Some(b.email), b.phone,
      Some(b.payMethod), Some(b.returnUrl), Some(b.resultUrl))
  }

  /** The body reaches the proxy with its fields renamed back: reference,
      amount, email, phone and method pass through unchanged, and the return
      and result URLs land in the members the proxy reads. */
  lemma InitiateRenaming(data: PaynowPaymentData, config: ClientConfig)
    ensures var r := AsInitiateRequest(InitiateBodyOf(data, config));
      && r.reference == Some(data.reference) && r.amount == Some(PaynowInitiate.Number(data.amount))
      && r.email == Some(data.email) && r.phone == data.phone && r.payMethod == Some(data.payMethod)
      && r.returnUrl == Some(data.returnUrl) && r.resultUrl == Some(data.resultUrl)
  {
  }

  /** The proxy ignores the credentials the client sends: whatever the
      client's configuration, the proxy signs with its own and answers the same. */
  lemma ClientCredentialsIgnored(data: PaynowPaymentData, c1: ClientConfig, c2: ClientConfig,
                                 config: PaynowInitiate.PaynowConfig, digest: string -> string, upstream: Result<string>)
    ensures PaynowInitiate.Initiate("POST", Http.Parsed(AsInitiateRequest(InitiateBodyOf(data, c1))), config, digest, upstream)
         == PaynowInitiate.Initiate("POST", Http.Parsed(AsInitiateRequest(InitiateBodyOf(data, c2))), config, digest, upstream)
  {
  }

  /** A client payment with a reference, a non-zero amount, an email and a
      method reaches Paynow with the amount in two decimals and the client's
      return and result URLs (the configured ones when empty). */
  lemma InitiateReachesPaynow(data: PaynowPaymentData, config: ClientConfig,
                              server: PaynowInitiate.PaynowConfig, digest: string -> string, upstream: Result<string>)
    requires data.reference != "" && data.amount > 0 && data.email != "" && data.payMethod != ""
    ensures var form := PaynowInitiate.Initiate("POST", Http.Parsed(AsInitiateRequest(InitiateBodyOf(data, config))),
                                                server, digest, upstream).sent;
      && form.Some?
      && form.value[1] == ("reference", data.reference)
      && form.value[2] == ("amount", FormatCents(data.amount))
      && form.value[5] == ("method", data.payMethod)
      && form.value[6] == ("returnurl", if data.returnUrl != "" then data.returnUrl
                                        else PaynowInitiate.ConfiguredReturnUrl(server))
  {
    var req := AsInitiateRequest(InitiateBodyOf(data, config));
    PaynowInitiate.SentForm(req, data.amount, server, digest, upstream);
  }

  /** A zero amount is refused by the proxy before anything is signed. */
  lemma ZeroAmountRefused(data: PaynowPaymentData, config: ClientConfig,
                          server: PaynowInitiate.PaynowConfig, digest: string -> string, upstream: Result<string>)
    requires data.amount == 0
    ensures PaynowInitiate.Initiate("POST", Http.Parsed(AsInitiateRequest(InitiateBodyOf(data, config))),
                                    server, digest, upstream)
         == PaynowInitiate.InitiateOutcome(Http.Reply(400, Http.ErrorJson(PaynowInitiate.MissingFields)), None)
  {
    PaynowInitiate.MissingFieldsRejected(AsInitiateRequest(InitiateBodyOf(data, config)), server, digest, upstream);
  }

  const StatusPathPrefix := "/api/paynow/status?poll_url="

  /** The status request path for a poll URL. */
  function StatusPath(pollUrl: string, encode: string -> string): string {
    StatusPathPrefix + encode(pollUrl)
  }

  /** The `poll_url` query parameter of a status path, as the platform
      decodes it. */
  function PollUrlParameter(path: string, decode: string -> string): Option<string> {
    if StartsWith(path, StatusPathPrefix) then Some(decode(path[|StatusPathPrefix|..])) else None
  }

  /** With a decoder that undoes the encoder, the status proxy receives the
      poll URL the client asked about. It then URI-decodes that URL a second
      time: what it fetches is the twice-decoded URL, and a URL the second
      decoding rejects is answered 500 without any fetch. */
  lemma StatusPathRoundTrip(pollUrl: string, encode: string -> string, decode: string -> string,
                            decodeUri: string -> Result<string>, upstream: Result<string>)
    requires decode(encode(pollUrl)) == pollUrl
    ensures PollUrlParameter(StatusPath(pollUrl, encode), decode) == Some(pollUrl)
    ensures pollUrl != "" ==>
      var o := PaynowStatus.CheckStatus("GET", PollUrlParameter(StatusPath(pollUrl, encode), decode), decodeUri, upstream);
      && (decodeUri(pollUrl).Success? ==> o.fetched == Some(decodeUri(pollUrl).value))
      && (decodeUri(pollUrl).Failure? ==> o.fetched.None? && o.reply.statusCode == 500)
  {
    var path := StatusPath(pollUrl, encode);
    assert path[..|StatusPathPrefix|] == StatusPathPrefix;
    assert path[|StatusPathPrefix|..] == encode(pollUrl);
  }

  // ---------------------------------------------------------------------
  // WhatsApp order message and links
  // ---------------------------------------------------------------------

  const Bullet := "\U{2022}"
  const Headline := "\U{1F6CD}\U{FE0F} *New Order Confirmation*"
  const Slogan := "\U{1F30D} *Serving Zimbabweans Worldwide* \U{1F1FF}\U{1F1FC}"
  /** The template's thank-you and closing lines. */
  const ThankYou := "Thank you " + "for your order! " + "We'll process " + "it shortly."
  const Closing := "For any " + "inquiries, please " + "reply to this " + "message."

  /** `• name (qx) - $t`, t the two-decimal line total. */
  function ItemLine(item: LineItem): string {
    Bullet + " " + item.name + " (" + NatToString(item.quantity) + "x) - $" + FormatCents(item.price * item.quantity)
  }

  function ItemLines(items: seq<LineItem>): (lines: seq<string>)
    ensures |lines| == |items|
    ensures forall i :: 0 <= i < |items| ==> lines[i] == ItemLine(items[i])
  {
    seq(|items|, i requires 0 <= i < |items| => ItemLine(items[i]))
  }

  /** The phone line: `*Phone:* p` when the phone is truthy, else empty. */
  function PhoneLine(phone: Option<string>): string {
    if Truthy(phone) then "*Phone:* " + phone.value else ""
  }

  /** The template lines before the item list. */
  function HeadLines(order: PaymentOrder): seq<string> {
    [Headline, "",
     "*Order ID:* " + order.id,
     "*Total Amount:* $" + FormatCents(order.amount),
     "", "*Items:*"]
  }

  /** The template lines after the item list. */
  function TailLines(order: PaymentOrder): seq<string> {
    ["",
     "*Customer Email:* " + order.customerEmail,
     PhoneLine(order.customerPhone),
     "", Slogan, ThankYou, "", Closing]
  }

  /** The lines of the message template, the item list as one line. */
  function TemplateLines(order: PaymentOrder): seq<string> {
    HeadLines(order) + [Join(ItemLines(order.items), "\n")] + TailLines(order)
  }

  /** `generateOrderMessage`: the template, opening with a newline and
      closing with a newline and four spaces of indentation, trimmed. */
  function OrderMessage(order: PaymentOrder): string {
    Trim("\n" + Join(TemplateLines(order), "\n") + "\n    ")
  }

  /** Trimming removes exactly the template's opening newline and closing
      indentation: the message is the template lines joined by newlines,
      from the headline to the closing sentence. */
  lemma OrderMessageIsTemplate(order: PaymentOrder)
    ensures OrderMessage(order) == Join(TemplateLines(order), "\n")
  {
    var lines := TemplateLines(order);
    var core := Join(lines, "\n");
    JoinEnds(lines, "\n");
    assert core[0] == Headline[0];
    assert core[|core| - 1] == Closing[|Closing| - 1];
    assert AllWhitespace("\n") && AllWhitespace("\n    ");
    TrimPadded("\n", core, "\n    ");
  }

  /** Item lines spelled out in place of the item list; an empty item list
      stays as one empty line. */
  function ItemBlock(items: seq<LineItem>): (block: seq<string>)
    ensures |block| >= 1
    ensures Join(block, "\n") == Join(ItemLines(items), "\n")
  {
    if |items| == 0 then [""] else ItemLines(items)
  }

  predicate NoNewline(s: string) {
    '\n' !in s
  }

  /** The order's own text contains no line break. */
  predicate SingleLineFields(order: PaymentOrder) {
    && NoNewline(order.id) && NoNewline(order.customerEmail)
    && (order.customerPhone.Some? ==> NoNewline(order.customerPhone.value))
    && forall i :: 0 <= i < |order.items| ==> NoNewline(order.items[i].name)
  }

  lemma DigitsHaveNoNewline(s: string)
    requires AllDigits(s)
    ensures NoNewline(s)
  {
  }

  lemma AmountHasNoNewline(cents: nat)
    ensures NoNewline(FormatCents(cents))
  {
    var r := FormatCents(cents);
    DigitsHaveNoNewline(r[..|r| - 3]);
    DigitsHaveNoNewline(r[|r| - 2..]);
    assert r == r[..|r| - 3] + "." + r[|r| - 2..];
  }

  lemma ItemLineHasNoNewline(item: LineItem)
    requires NoNewline(item.name)
    ensures NoNewline(ItemLine(item))
  {
    DigitsHaveNoNewline(NatToString(item.quantity));
    AmountHasNoNewline(item.price * item.quantity);
  }

  predicate AllSingleLine(lines: seq<string>) {
    forall i :: 0 <= i < |lines| ==> NoNewline(lines[i])
  }

  lemma AllSingleLineConcat(a: seq<string>, b: seq<string>)
    requires AllSingleLine(a) && AllSingleLine(b)
    ensures AllSingleLine(a + b)
  {
    assert forall i :: |a| <= i < |a + b| ==> (a + b)[i] == b[i - |a|];
  }

  lemma HeadLinesSingle(order: PaymentOrder)
    requires NoNewline(order.id)
    ensures AllSingleLine(HeadLines(order))
  {
    AmountHasNoNewline(order.amount);
    assert NoNewline(Headline);
  }

  lemma SloganSingle()
    ensures NoNewline(Slogan)
  {
  }

  lemma ThankYouSingle()
    ensures NoNewline(ThankYou)
  {
    assert NoNewline("Thank you ") && NoNewline("for your order! ");
    assert NoNewline("We'll process ") && NoNewline("it shortly.");
  }

  lemma ClosingSingle()
    ensures NoNewline(Closing)
  {
    assert NoNewline("For any ") && NoNewline("inquiries, please ");
    assert NoNewline("reply to this ") && NoNewline("message.");
  }

  lemma TailLinesSingle(order: PaymentOrder)
    requires NoNewline(order.customerEmail)
    requires order.customerPhone.Some? ==> NoNewline(order.customerPhone.value)
    ensures AllSingleLine(TailLines(order))
  {
    SloganSingle();
    ThankYouSingle();
    ClosingSingle();
  }

  lemma ItemBlockSingle(items: seq<LineItem>)
    requires forall i :: 0 <= i < |items| ==> NoNewline(items[i].name)
    ensures AllSingleLine(ItemBlock(items))
  {
    forall i | 0 <= i < |items|
      ensures NoNewline(ItemLine(items[i]))
    {
      ItemLineHasNoNewline(items[i]);
    }
  }

  /** When the order's text has no line breaks, splitting the message at
      line breaks gives the head lines, one line per item in item order,
      then the tail lines. */
  lemma OrderMessageSplits(order: PaymentOrder)
    requires SingleLineFields(order)
    ensures Split(OrderMessage(order), '\n') == HeadLines(order) + ItemBlock(order.items) + TailLines(order)
  {
    OrderMessageIsTemplate(order);
    JoinFlatten(HeadLines(order), ItemBlock(order.items), TailLines(order), "\n");
    HeadLinesSingle(order);
    ItemBlockSingle(order.items);
    TailLinesSingle(order);
    AllSingleLineConcat(HeadLines(order), ItemBlock(order.items));
    AllSingleLineConcat(HeadLines(order) + ItemBlock(order.items), TailLines(order));
    SplitJoin(HeadLines(order) + ItemBlock(order.items) + TailLines(order), '\n');
  }

  /** The spelled-out template: line 2 names the order, line 3 its
      two-decimal total, the item lines follow in item order from line 6,
      and the line after the customer's email is the phone line. */
  lemma SpelledOutLines(order: PaymentOrder)
    ensures var lines := HeadLines(order) + ItemBlock(order.items) + TailLines(order);
      var n := |ItemBlock(order.items)|;
      && |lines| == 14 + n
      && lines[2] == "*Order ID:* " + order.id
      && lines[3] == "*Total Amount:* $" + FormatCents(order.amount)
      && (forall i :: 0 <= i < |order.items| ==> lines[6 + i] == ItemLine(order.items[i]))
      && lines[7 + n] == "*Customer Email:* " + order.customerEmail
      && lines[8 + n] == PhoneLine(order.customerPhone)
  {
    var head := HeadLines(order);
    var block := ItemBlock(order.items);
    var tail := TailLines(order);
    var lines := head + block + tail;
    assert forall i :: 0 <= i < |block| ==> lines[6 + i] == block[i];
    assert lines[7 + |block|] == tail[1] && lines[8 + |block|] == tail[2];
  }

  /** The message's lines: line 2 names the order, line 3 its two-decimal
      total, the item lines follow in item order from line 6, and the line
      after the customer's email is the phone line, `*Phone:* p` exactly
      when the phone is truthy and empty otherwise. */
  lemma OrderMessageLines(order: PaymentOrder)
    requires SingleLineFields(order)
    ensures var lines := Split(OrderMessage(order), '\n');
      var n := |ItemBlock(order.items)|;
      && |lines| == 14 + n
      && lines[2] == "*Order ID:* " + order.id
      && lines[3] == "*Total Amount:* $" + FormatCents(order.amount)
      && (forall i :: 0 <= i < |order.items| ==> lines[6 + i] == ItemLine(order.items[i]))
      && lines[7 + n] == "*Customer Email:* " + order.customerEmail
      && lines[8 + n] == (if Truthy(order.customerPhone) then "*Phone:* " + order.customerPhone.value else "")
  {
    OrderMessageSplits(order);
    SpelledOutLines(order);
  }

  /** `generatePaymentLink`: the checkout page of the order, with the
      amount in JavaScript's default number rendering. */
  function PaymentLink(origin: string, orderId: string, amount: int): string {
    origin + "/checkout/" + orderId + "?amount=" + NumberToString(amount)
  }

  /** The link's amount parameter denotes the order's amount. */
  lemma PaymentLinkAmount(origin: string, orderId: string, amount: nat)
    ensures var link := PaymentLink(origin, orderId, amount);
      var prefix := origin + "/checkout/" + orderId + "?amount=";
      && StartsWith(link, prefix)
      && ReadAmount(link[|prefix|..]) == Some(amount)
  {
    var prefix := origin + "/checkout/" + orderId + "?amount=";
    var link := PaymentLink(origin, orderId, amount);
    assert link[..|prefix|] == prefix;
    assert link[|prefix|..] == NumberToString(amount);
    NumberToStringRoundTrip(amount);
  }

  const ChatPrefix := "https://wa.me/"

  /** The URL `openWhatsAppChat` opens: the chat with the phone number,
      the message as the encoded `text` parameter. */
  function ChatUrl(phone: string, message: string, encode: string -> string): string {
    ChatPrefix + phone + "?text=" + encode(message)
  }

  /** A phone number without '?' can be read back from the chat URL, and
      then the text parameter decodes to the message. */
  lemma ChatUrlReadsBack(phone: string, message: string, encode: string -> string, decode: string -> string)
    requires '?' !in phone
    requires decode(encode(message)) == message
    ensures var url := ChatUrl(phone, message, encode);
      var query := url[|ChatPrefix|..];
      var parts := Split(query, '?');
      && StartsWith(url, ChatPrefix)
      && |parts| >= 1 && parts[0] == phone
      && StartsWith(query[|phone| + 1..], "text=")
      && decode(query[|phone| + 6..]) == message
  {
    var url := ChatUrl(phone, message, encode);
    var query := url[|ChatPrefix|..];
    assert url[..|ChatPrefix|] == ChatPrefix;
    assert query == phone + ['?'] + ("text=" + encode(message));
    SplitAtFirst(phone, '?', "text=" + encode(message));
    assert query[|phone| + 1..] == "text=" + encode(message);
    assert query[|phone| + 6..] == encode(message);
  }

  /** The body posted by `sendOrderNotification`. */
  function NotificationRequest(phone: string, message: string, orderId: string): WhatsAppProxy.MessageRequest {
    WhatsAppProxy.MessageRequest(Some(phone), Some(message), Some(orderId))
  }

  /** A notification with a phone and a message reaches the WhatsApp API
      unchanged when the proxy is configured, and is logged otherwise. */
  lemma NotificationDelivered(phone: string, message: string, orderId: string,
                              config: WhatsAppProxy.WhatsAppConfig, upstream: Result<WhatsAppProxy.GraphReply>)
    requires phone != "" && message != ""
    ensures var o := WhatsAppProxy.SendMessage("POST", Http.Parsed(NotificationRequest(phone, message, orderId)), config, upstream);
      && (WhatsAppProxy.Configured(config) ==>
            o.sent.Some? && o.sent.value.to == phone && o.sent.value.textBody == message)
      && (!WhatsAppProxy.Configured(config) ==>
            o.sent.None? && o.reply.statusCode == 200
            && o.reply.body == Http.Json(WhatsAppProxy.Logged(phone, Some(orderId))))
  {
  }

  // ---------------------------------------------------------------------
  // Payment dispatch
  // ---------------------------------------------------------------------

  const UnsupportedMethod := "Unsupported payment method"

  predicate IsMobileMoney(paymentMethod: string) {
    paymentMethod == "ecocash" || paymentMethod == "onemoney" || paymentMethod == "telecash"
  }

  /** The Paynow payment data for an order: the order's id, amount, email
      and phone, the chosen method, and the success and result pages of
      the current origin. */
  function PaynowDataFor(order: PaymentOrder, paymentMethod: string, origin: string): (d: PaynowPaymentData)
    ensures d.reference == order.id && d.amount == order.amount && d.email == order.customerEmail
    ensures d.phone == order.customerPhone && d.payMethod == paymentMethod
  {
    PaynowPaymentData(order.id, order.amount, order.customerEmail, order.customerPhone, paymentMethod,
                      origin + "/payment-success", origin + "/api/paynow/result")
  }

  /** The request `processPayment` makes, or the error it throws. */
  datatype Dispatch =
    | ToPayPal(order: PayPalOrderBody)
    | ToPaynow(payment: InitiateBody)
    | Unsupported(message: string)

  function ProcessPayment(order: PaymentOrder, paymentMethod: string, origin: string, config: ClientConfig): (d: Dispatch)
    ensures d.ToPayPal? <==> paymentMethod == "paypal"
    ensures d.ToPaynow? <==> IsMobileMoney(paymentMethod)
    ensures d.Unsupported? <==> paymentMethod != "paypal" && !IsMobileMoney(paymentMethod)
    ensures d.ToPaynow? ==> d.payment.payMethod == paymentMethod && d.payment.reference == order.id
  {
    if paymentMethod == "paypal" then ToPayPal(PayPalOrder(order))
    else if IsMobileMoney(paymentMethod) then ToPaynow(InitiateBodyOf(PaynowDataFor(order, paymentMethod, origin), config))
    else Unsupported(UnsupportedMethod)
  }

  /** A mobile-money payment posts the order's id, amount, email and phone
      with the chosen method, and asks Paynow to come back to the origin's
      success page and to report to the origin's result endpoint. */
  lemma MobileMoneyPayment(order: PaymentOrder, paymentMethod: string, origin: string, config: ClientConfig)
    requires IsMobileMoney(paymentMethod)
    ensures var b := ProcessPayment(order, paymentMethod, origin, config).payment;
      && b.reference == order.id && b.amount == order.amount && b.email == order.customerEmail
      && b.phone == order.customerPhone
      && b.returnUrl == origin + "/payment-success" && b.resultUrl == origin + "/api/paynow/result"
  {
  }
}
