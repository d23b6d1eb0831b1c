# Zimbabwe e-commerce payments — a Dafny model

This project models the payment and messaging core of a small e-commerce
platform. The core has four parts.

1. **Serverless proxies.** Four handlers:
   - Paynow *initiate* signs an order and posts it to the Paynow mobile-money gateway.
   - Paynow *status* polls a transaction.
   - PayPal *create order* reshapes and forwards an order.
   - WhatsApp *send message* forwards a text to the WhatsApp Business API, or only logs it when that API is not configured.
2. **Browser-side service layer** (`paymentService`). It builds:
   - the PayPal order body;
   - the Paynow request body;
   - the status path;
   - the WhatsApp order message, the payment link and the chat URL;
   - the dispatch from a payment method to a gateway.
3. **Two widgets.**
   - The Paynow payment widget: a polling state machine over *idle / pending / checking*.
   - The WhatsApp widget: the phone-number normaliser, and the choice between a custom and a generated message.
4. **List filters** of the Orders, Store and CRM pages: a case-insensitive substring search, combined with a status or category match.

Every handler is a pure function. It maps (HTTP method, parsed request, configuration, upstream answer) to (status code, JSON body), plus the outbound request it made, if any. SHA-512, URI encoding and decoding, and the network are parameters:
- an upstream answer is the reply text, or the message of the error the call threw;
- "nothing was sent" is an explicit `None`.

Amounts are whole cents:
- `toFixed(2)` is `ToFixed2`;
- JavaScript's `${amount}` is `NumberToString`, the shortest decimal.

Files and modules:

| file | module | contents |
|---|---|---|
| wrappers.dfy | `Wrappers` | `Option`, `Result`, JavaScript truthiness of an optional string, `x \|\| fallback` |
| text.dfy | `Text` | `toLowerCase`, `includes`, `trim`, `split`/`join`, decimal rendering of naturals and cents |
| http.dfy | `Http` | replies, parsed request bodies, the OPTIONS/method gate, `response.ok` |
| paynow_wire.dfy | `PaynowWire` | the `key=value` reply parser shared by both Paynow handlers; the signed form and its digest input |
| paynow_initiate.dfy | `PaynowInitiate` | the initiate handler |
| paynow_status.dfy | `PaynowStatus` | the status handler |
| paypal_proxy.dfy | `PayPalProxy` | the create-order handler |
| whatsapp_proxy.dfy | `WhatsAppProxy` | the send-message handler |
| payment_service.dfy | `PaymentService` | the service layer, and how its requests meet the proxies |
| paynow_client.dfy | `PaynowClient` | the Paynow widget's button, reply handling and polling loop |
| whatsapp_client.dfy | `WhatsAppClient` | `formatPhoneNumber`, message selection, send and copy |
| listing.dfy | `Listing` | `Array.prototype.filter` and the shared search predicate |
| orders_page.dfy, store_page.dfy, crm_page.dfy | `OrdersPage`, `StorePage`, `CrmPage` | the three page filters |
| scenarios.dfy | `Scenarios` | worked examples proved from the general model |

## Where the code and its description differ

The model follows the code in each of these cases.

- **Reply parser: which '=' delimits the value.** The design description says each reply line is split on the *first* `=`. The code splits on *every* `=` and keeps pieces 0 and 1, so a value is cut at a second `=` (`PaynowWire.ParseEntryLine`).
- **Reply parser: when an entry is stored.** The description checks for non-empty key and value "after trimming". The code checks the untrimmed pieces, so a value of spaces is stored as the empty string.
- **Malformed request JSON.** The description says it is answered 400. In all three POST handlers `JSON.parse` throws inside the `try`, so the answer is 500 with the parser's message.
- **Unset Paynow integration id.** The id contributes the empty string to the digest input (`Array.join` renders `undefined` as nothing). The form, however, sends the text `undefined` (`String(undefined)`). `PaynowWire.SignedFormLayout` states both.
- **Client-sent credentials.** The client sends `integration_id` and `integration_key` in the body. The proxy never reads them (`PaymentService.ClientCredentialsIgnored`).
- **Missing poll URL.** A successful initiation without a poll URL still schedules polling. Failed status calls are retried forever: there is no attempt bound.
- **Poll URL decoded twice.** The client URI-encodes the poll URL once, and the platform decodes the query parameter once. The status proxy then applies `decodeURIComponent` a second time and fetches that result (`PaynowStatus.CheckStatus`, `PaymentService.StatusPathRoundTrip`). So a poll URL containing `%2B` or `%20` is fetched altered. One with a lone `%` makes the decoder throw: the proxy answers 500, and the widget retries that every 10000 ms (`PaynowStatus.UndecodablePollUrl`, `PaynowClient.StatusDrivesWidget`).

## Model

| member | source | states |
|---|---|---|
| Wrappers.OrElse | netlify/functions/paynow-initiate.ts:59-62 | `x \|\| fallback` on an optional string: the value when present and non-empty, the fallback otherwise |
| Http.Gate | netlify/functions/paynow-initiate.ts:22-32 | a request passes the gate exactly when its method is the handler's; OPTIONS is answered 200 with an empty body, every other method 405 "Method not allowed" |
| Text.Trim | src/components/payments/WhatsAppIntegration.tsx:23 | `trim` leaves a string with no whitespace at either end, cut out of the input after exactly its leading whitespace and followed only by whitespace |
| Text.TrimPadded | netlify/functions/paynow-initiate.ts:102 | whitespace around a string with non-blank ends is exactly what `trim` removes |
| Text.TrimIdempotent | src/components/payments/WhatsAppIntegration.tsx:28 | trimming twice is trimming once |
| Text.TrimEmptyIff | src/components/payments/WhatsAppIntegration.tsx:23 | `!s.trim()` holds exactly when s is all whitespace |
| Text.Split | netlify/functions/paynow-initiate.ts:99 | `split` on one character yields at least one piece, no piece contains the separator, and joining the pieces with it gives back the input |
| Text.SplitJoin | netlify/functions/paynow-initiate.ts:99 | splitting a join of separator-free pieces gives back the pieces |
| Text.LowerFacts | src/pages/Orders.tsx:143 | `toLowerCase` keeps the length, leaves no capital letter and is idempotent |
| Text.IncludesIff | src/pages/Orders.tsx:143 | `includes` holds exactly when the needle occurs at some position |
| Text.NatToString | src/services/paymentService.ts:57 | a quantity renders as at least one decimal digit with no leading zero |
| Text.NatToStringRoundTrip | src/services/paymentService.ts:57 | reading the rendered digits back gives the quantity |
| Text.FormatCents | src/services/paymentService.ts:52 | `toFixed(2)` of a non-negative amount is digits, a point and exactly two digits, with no leading zero before a whole part of two or more digits |
| Text.FormatCentsRoundTrip | src/services/paymentService.ts:52 | reading the two-decimal rendering back gives the amount: nothing is lost |
| Text.ToFixed2 | netlify/functions/paynow-initiate.ts:57 | the amount sent to Paynow is two-decimal digits that read back as the amount's magnitude, behind a leading '-' exactly when it is negative, and the whole part has no leading zero |
| Text.NumberToString | src/services/paymentService.ts:145 | `${amount}` is a prefix of the two-decimal rendering; it equals it when the last cent digit is not zero, has no point for whole amounts, never ends in a zero after the point, and has no leading zero on the whole part |
| Text.NumberToStringRoundTrip | src/services/paymentService.ts:145 | the shortest rendering of an amount reads back as that amount |
| PaynowWire.ParseLineByIndex | netlify/functions/paynow-initiate.ts:100-103 | the split-based line parse equals the index reading: the key is before the first '=', the value between the first and second '=', both untrimmed pieces non-empty, and the stored pair trimmed |
| PaynowWire.ParseEntryLine | netlify/functions/paynow-initiate.ts:100-103 | `key=value`, followed by nothing or by text from a further '=', yields the trimmed key and value: the value is cut at the second '=' |
| PaynowWire.SkippedLines | netlify/functions/paynow-initiate.ts:100-101 | a line with no '=', one starting with '=', or one whose only '=' is its last character yields no entry |
| PaynowWire.ParseLinesKeys | netlify/functions/paynow-initiate.ts:98-104 | a key is in the parsed map exactly when some line yields an entry for it |
| PaynowWire.ParseLinesLastWins | netlify/functions/paynow-initiate.ts:98-104 | the value stored for a key comes from the last line with that key; later duplicates overwrite earlier ones |
| PaynowWire.HashInputLayout | netlify/functions/paynow-initiate.ts:9-12 | the digest input is id, reference, amount, email, phone, method, return URL and result URL concatenated with no separator, then the integration key |
| PaynowWire.SignedFormLayout | netlify/functions/paynow-initiate.ts:54-84 | the form has keys id, reference, amount, email, phone, method, returnurl, resulturl, hash, in that order; the first eight values are the record's, and an unset id is sent as "undefined"; the hash is the digest of the other values, where an unset id contributes nothing |
| PaynowWire.OneFieldChangesInput | netlify/functions/paynow-initiate.ts:66-77 | two records that differ in exactly one hashed value have different digest inputs |
| PaynowWire.BoundaryAmbiguity | netlify/functions/paynow-initiate.ts:9-12 | moving the last character of the email to the front of the phone changes the record but not the digest input: with no separators, field boundaries are not signed |
| PaynowInitiate.Initiate | netlify/functions/paynow-initiate.ts:14-139 | the status is one of 200, 400, 405, 500; a form is sent exactly for a POST whose body parsed, whose required fields are truthy and whose amount is a number; a sent form has the nine keys in order; 200 means a preflight or an initiated payment |
| PaynowInitiate.MethodGate | netlify/functions/paynow-initiate.ts:22-32 | OPTIONS gets 200 with an empty body and any other non-POST method 405; neither sends anything |
| PaynowInitiate.MissingFieldsRejected | netlify/functions/paynow-initiate.ts:45-51 | a falsy reference, amount (absent or 0), email or method gives 400 "Missing required fields", and nothing is hashed or sent |
| PaynowInitiate.SentForm | netlify/functions/paynow-initiate.ts:54-84 | the sent form carries the request's reference, email and method and the amount in two decimals; the phone defaults to ""; the return and result URLs default to the configured ones, which themselves default to Paynow's; last comes the digest of the eight values and the key (empty when unset) |
| PaynowInitiate.ReplyMapping | netlify/functions/paynow-initiate.ts:106-126 | the reply is 200 with browserurl, pollurl and hash exactly when the parsed status lower-cases to "ok"; otherwise it is 400 with the parsed error, or "Payment initiation failed" when that is absent or empty |
| PaynowInitiate.ThrownErrors | netlify/functions/paynow-initiate.ts:128-137 | malformed JSON, a non-number amount, and a failed call to Paynow each give 500 with the thrown message |
| PaynowStatus.CheckStatus | netlify/functions/paynow-status.ts:3-77 | the status is one of 200, 400, 405, 500; something is fetched exactly for a GET with a non-empty poll URL that `decodeURIComponent` accepts, and what is fetched is the decoded URL; a decoder error gives 500 with its message; a fetch that answers always gives 200 |
| PaynowStatus.MethodGate | netlify/functions/paynow-status.ts:11-21 | OPTIONS gets 200 and any other non-GET method 405; nothing is fetched |
| PaynowStatus.PollUrlMissing | netlify/functions/paynow-status.ts:24-32 | a missing or empty poll URL gives 400 "Poll URL is required" and nothing is fetched |
| PaynowStatus.RelaysParsedFields | netlify/functions/paynow-status.ts:45-64 | whatever the parsed status, the reply is 200, and each of the six relayed fields is the parsed value of its key, or undefined when the reply had no line for it |
| PaynowStatus.ThrownErrors | netlify/functions/paynow-status.ts:66-75 | a failed fetch gives 500 with its message |
| PaynowStatus.UndecodablePollUrl | netlify/functions/paynow-status.ts:35 | a poll URL that `decodeURIComponent` rejects gives 500 with the decoder's message, whatever the gateway would say, and nothing is fetched |
| PayPalProxy.TransformItems | netlify/functions/paypal-create-order.ts:73-80 | the items map one to one, in order, each priced in the unit's currency; the map fails exactly when some item has no unit amount |
| PayPalProxy.TransformUnits | netlify/functions/paypal-create-order.ts:60-81 | the units map one to one, in order; the map fails exactly when some unit fails |
| PayPalProxy.CreateOrder | netlify/functions/paypal-create-order.ts:25-131 | a token is requested exactly for a POST with parsed purchase units; the order is sent exactly when the token arrives and every unit transforms; a sent order has as many units as the request and carries the token; 200 means a preflight or an ok answer from PayPal |
| PayPalProxy.MethodGate | netlify/functions/paypal-create-order.ts:33-43 | OPTIONS gets 200 and any other non-POST method 405; no token is requested |
| PayPalProxy.InvalidUnitsRejected | netlify/functions/paypal-create-order.ts:48-56 | missing purchase units give 400 "Invalid purchase_units" before any token request |
| PayPalProxy.PayloadShape | netlify/functions/paypal-create-order.ts:58-89 | intent defaults to CAPTURE; units keep reference, description and amount; currency defaults to USD and is used for every item; an item total is present exactly when the unit had a breakdown, and then equals the amount |
| PayPalProxy.UpstreamRelayed | netlify/functions/paypal-create-order.ts:100-118 | a non-ok answer passes its status through with "PayPal order creation failed" and the details; an ok answer gives 200 with the answer verbatim |
| WhatsAppProxy.SendMessage | netlify/functions/whatsapp-send-message.ts:3-108 | a message is sent exactly for a POST with a truthy recipient and text while the API is configured; a 200 JSON reply echoes the recipient and order id, and it is the logged form exactly when the API is unconfigured |
| WhatsAppProxy.MethodGate | netlify/functions/whatsapp-send-message.ts:11-21 | OPTIONS gets 200 and any other non-POST method 405; nothing is sent |
| WhatsAppProxy.RecipientAndMessageChecked | netlify/functions/whatsapp-send-message.ts:24-32 | a falsy `to` or `message` gives 400 "Phone number and message are required" |
| WhatsAppProxy.LogOnlyWhenUnconfigured | netlify/functions/whatsapp-send-message.ts:36-53 | with no access token or no phone-number id, the reply is 200 "logged" with `to` and `orderId`, and nothing is sent |
| WhatsAppProxy.LiveSend | netlify/functions/whatsapp-send-message.ts:56-95 | the message goes to the phone number's Graph API endpoint with the bearer token, product "whatsapp", the recipient and the text; a non-ok answer passes its status through with "WhatsApp message failed"; success gives 200 with the first message id, or none |
| PaymentService.PayPalOrder | src/services/paymentService.ts:45-65 | the client's PayPal body is a capture of exactly one purchase unit with one item per order item |
| PaymentService.PayPalOrderReadsBack | src/services/paymentService.ts:45-62 | the unit carries the order id, description and currency; its value and every item's unit price read back as the order's amounts; every quantity reads back as the item's quantity |
| PaymentService.ProxyForwardsClientOrder | src/services/paymentService.ts:45-65 | the proxy forwards every client order as a capture of one unit: the order's amount, no item total, the order's currency (USD when empty) on the unit and on every item, and the items in order |
| PaymentService.InitiateBodyOf | src/services/paymentService.ts:7-8 | the body carries the configured integration id and key, or the placeholder values when they are unset |
| PaymentService.InitiateRenaming | src/services/paymentService.ts:88-98 | reference, amount, email, phone and method reach the proxy unchanged; returnUrl and resultUrl arrive as `return_url` and `result_url` |
| PaymentService.ClientCredentialsIgnored | src/services/paymentService.ts:88-90 | the credentials the client sends make no difference to what the proxy does |
| PaymentService.InitiateReachesPaynow | src/services/paymentService.ts:88-98 | a complete payment with a positive amount reaches Paynow with its reference, the amount in two decimals, its method, and its return URL (the configured one when empty) |
| PaymentService.ZeroAmountRefused | src/services/paymentService.ts:92 | a zero amount is refused by the proxy as a missing field |
| PaymentService.StatusPathRoundTrip | src/services/paymentService.ts:108 | when the platform's decoding undoes the client's encoding, the status proxy receives the poll URL the client asked about; it fetches that URL URI-decoded a second time, or answers 500 without fetching when the second decoding throws |
| PaymentService.ItemLines | src/services/paymentService.ts:120-122 | one "• name (qx) - $t" line per item, in item order |
| PaymentService.OrderMessageIsTemplate | src/services/paymentService.ts:124-140 | trimming the template removes exactly its leading newline and trailing indentation |
| PaymentService.OrderMessageSplits | src/services/paymentService.ts:119-141 | when no field contains a newline, the message's lines are the header lines, one line per item (an empty line when there are none), and the footer lines |
| PaymentService.OrderMessageLines | src/services/paymentService.ts:119-141 | the message has 14 + n lines; the id and the two-decimal total sit on lines 2 and 3; the items follow in order from line 6; then the email, and the phone line, which is empty exactly when the phone is falsy |
| PaymentService.PaymentLinkAmount | src/services/paymentService.ts:143-146 | the link is origin + "/checkout/" + id + "?amount=", and its amount parameter reads back as the order's amount |
| PaymentService.ChatUrlReadsBack | src/services/paymentService.ts:162-166 | the chat URL starts with https://wa.me/; for a phone without '?' the phone is the first piece of the query, and the text parameter decodes to the message |
| PaymentService.NotificationDelivered | src/services/paymentService.ts:148-160 | a notification with a phone and a message reaches the WhatsApp API unchanged when the proxy is configured, and is logged with its order id otherwise |
| PaymentService.PaynowDataFor | src/services/paymentService.ts:183-191 | the Paynow data takes the reference, amount, email and phone from the order and the method from the caller |
| PaymentService.ProcessPayment | src/services/paymentService.ts:171-201 | "paypal" goes to PayPal, exactly the three mobile-money methods go to Paynow with that method and the order id, and everything else is "Unsupported payment method" |
| PaymentService.MobileMoneyPayment | src/services/paymentService.ts:180-192 | a mobile-money payment carries the order's fields and the origin's /payment-success and /api/paynow/result URLs |
| PaynowClient.PressPay | src/components/payments/PaynowPayment.tsx:42-62 | pressing Pay with no phone only reports an error; otherwise it posts the order's id, amount, email and phone with the selected method |
| PaynowClient.StateAfterPress | src/components/payments/PaynowPayment.tsx:43-49 | a press without a phone leaves the widget as it was; a press that sends the request leaves the widget pending and loading, with the Pay button disabled |
| PaynowClient.PressDisablesPay | src/components/payments/PaynowPayment.tsx:43-49 | pressing the Pay button while it is enabled (not loading and idle) disables it exactly when the order has a phone, so it cannot be pressed again before the reply |
| PaynowClient.PressMatchesProcessPayment | src/components/payments/PaynowPayment.tsx:52-60 | the widget posts exactly what `processPayment` would post for the same order and method |
| PaynowClient.AfterInitiation | src/components/payments/PaynowPayment.tsx:64-81 | the widget turns pending, with a first poll after 5000 ms, exactly on an "Ok" reply; any other reply or a thrown error returns it to idle and fires `onError` |
| PaynowClient.PollStep | src/components/payments/PaynowPayment.tsx:85-111 | "Paid" fires `onSuccess`, "Cancelled" and "Failed" fire `onError`, and all three end polling in idle; any other status re-polls after 5000 ms and a failed call after 10000 ms, firing nothing |
| PaynowClient.NoSecondInitiation | src/components/payments/PaynowPayment.tsx:172 | whenever a poll is scheduled, the Pay button is disabled |
| PaynowClient.FirstTerminal | src/components/payments/PaynowPayment.tsx:91-98 | finds the first reply that ends polling, if any; every earlier reply continues it |
| PaynowClient.RunPolling | src/components/payments/PaynowPayment.tsx:85-111 | polling stops at the first terminal reply, after one request per reply up to it, and fires at most one callback; it is `onSuccess` exactly when that reply is "Paid"; the time waited is the sum of the 5000 and 10000 ms delays before it |
| PaynowClient.InitiationDrivesWidget | src/components/payments/PaynowPayment.tsx:62-71 | end to end: the widget goes pending, polling the gateway's poll URL, exactly when the gateway's status lower-cases to "ok" |
| PaynowClient.StatusDrivesWidget | src/components/payments/PaynowPayment.tsx:89-110 | end to end: `onSuccess` fires exactly when the gateway reports "Paid"; polling continues unless the status is Paid, Cancelled or Failed; a failed call, including one on a poll URL the proxy cannot decode, retries after 10000 ms |
| WhatsAppClient.Clean | src/components/payments/WhatsAppIntegration.tsx:66 | cleaning keeps only digits and '+', never lengthens, and changes nothing already clean |
| WhatsAppClient.CleanConcat | src/components/payments/WhatsAppIntegration.tsx:66 | cleaning works character by character: cleaning two pieces is cleaning each |
| WhatsAppClient.FormatPhone | src/components/payments/WhatsAppIntegration.tsx:64-88 | the normalised number contains only digits and '+' |
| WhatsAppClient.FormatPhoneCases | src/components/payments/WhatsAppIntegration.tsx:64-88 | the cases of the normaliser: '+' numbers are kept; a leading 0 (up to ten characters) becomes +263; short numbers get +263 (so empty gives "+263"); a 263 prefix or a longer number gets '+'; a ten-character number starting with neither 0 nor 263 is kept without '+' |
| WhatsAppClient.FormatPhoneShape | src/components/payments/WhatsAppIntegration.tsx:68-87 | every normalised number starts with '+' or is exactly ten characters starting with neither 0, '+' nor 263 |
| WhatsAppClient.FormatPhoneIdempotent | src/components/payments/WhatsAppIntegration.tsx:64-93 | normalising twice is normalising once, so re-applying on every keystroke leaves a settled number alone |
| WhatsAppClient.ChosenText | src/components/payments/WhatsAppIntegration.tsx:28 | the text is the trimmed custom message when that is not blank, the generated order message otherwise |
| WhatsAppClient.HandleSend | src/components/payments/WhatsAppIntegration.tsx:22-34 | a blank phone field is refused, and exactly then |
| WhatsAppClient.InitialWidget | src/components/payments/WhatsAppIntegration.tsx:15-16 | the phone field starts as the customer's phone, when given and non-empty, else empty; it is blank exactly when that phone is missing or blank; the custom message starts empty |
| WhatsAppClient.InitialSend | src/components/payments/WhatsAppIntegration.tsx:15-34 | sending from the widget as first shown is refused exactly when the customer's phone is missing or blank, and otherwise opens the chat with that phone and the order message |
| WhatsAppClient.SendAndCopyAgree | src/components/payments/WhatsAppIntegration.tsx:58-60 | the copied text is the text the chat is opened with |
| WhatsAppClient.ComposedLayout | src/components/payments/WhatsAppIntegration.tsx:34 | the composed text is the chosen text, then the blank line and payment-link label, then the link at the very end |
| WhatsAppClient.FormattedPhoneAccepted | src/components/payments/WhatsAppIntegration.tsx:90-93 | a phone number the normaliser produced is never refused as blank |
| Listing.Filter | src/pages/Orders.tsx:140-147 | `filter` keeps an order-preserving subsequence of passing elements, each as often as in the input, and no other element |
| Listing.FilterMembers | src/pages/Orders.tsx:140-147 | an element is kept exactly when it is in the list and passes |
| Listing.FilterKeepsAll | src/pages/Orders.tsx:140-147 | a test every element passes keeps the whole list |
| Listing.FilterEmptyIff | src/pages/Orders.tsx:314 | the filtered list is empty exactly when no element passes |
| Listing.FilterCongruent | src/pages/Orders.tsx:140-147 | two tests that agree on every element select the same list |
| Listing.DisjointFilters | src/pages/Store.tsx:160-162 | two tests no element passes together select at most the whole list between them |
| Listing.EmptyTermMatches | src/pages/Orders.tsx:143 | the empty search term matches every field |
| Listing.MatchesIgnoresCase | src/pages/Orders.tsx:143-145 | search terms equal up to letter case match the same fields |
| Listing.MatchesIff | src/pages/Orders.tsx:143 | a field matches exactly when the lower-cased term occurs in the lower-cased field |
| OrdersPage.FilteredOrdersExact | src/pages/Orders.tsx:140-147 | the shown orders are a subsequence of the orders with the selected status (unless "all") and an id, customer or email containing the term case-insensitively; every such order is shown, as often as it occurs |
| OrdersPage.AllAndEmptySearchShowsEverything | src/pages/Orders.tsx:141-146 | "all" with an empty search shows every order |
| OrdersPage.SearchIgnoresCase | src/pages/Orders.tsx:142-145 | search terms equal up to letter case show the same orders |
| OrdersPage.EmptyStateIff | src/pages/Orders.tsx:314 | "No orders found" shows exactly when no order passes both conditions |
| StorePage.FilteredProductsExact | src/pages/Store.tsx:101-105 | the shown products are a subsequence of those in the selected category (unless "all") whose name contains the term case-insensitively, and every such product is shown |
| StorePage.AllAndEmptySearchShowsEverything | src/pages/Store.tsx:101-105 | "all" with an empty search shows every product |
| StorePage.StoreCounts | src/pages/Store.tsx:158-162 | the shown count is at most the catalogue size, and the active and out-of-stock counts together are too |
| StorePage.CountsIgnoreSelection | src/pages/Store.tsx:158-162 | the displayed count is the filtered length, while the active and out-of-stock counts do not depend on category or search |
| StorePage.EmptyStateIff | src/pages/Store.tsx:254 | the empty state shows exactly when no product passes both conditions |
| CrmPage.FilteredCustomersExact | src/pages/CRM.tsx:141-144 | the shown customers are exactly those, in order, whose name or email contains the term case-insensitively |
| CrmPage.EmptySearchShowsEverything | src/pages/CRM.tsx:141-144 | an empty search shows every customer |
| CrmPage.SearchIgnoresCase | src/pages/CRM.tsx:141-144 | search terms equal up to letter case show the same customers |
| CrmPage.SegmentIgnored | src/pages/CRM.tsx:212-217 | the segment dropdown does not affect the list |
| Scenarios.TwoEntriesParse | netlify/functions/paynow-initiate.ts:98-104 | two clean `key=value` lines with distinct keys, then any number of blank lines, parse to exactly those two entries |
| Scenarios.OkReplyParses | netlify/functions/paynow-initiate.ts:98-104 | "status=Ok\npollurl=https://x\n\n" parses to exactly status and pollurl; the trailing blank lines are skipped |
| Scenarios.EmptyValueSkipped | netlify/functions/paynow-initiate.ts:100-101 | "foo=" yields no entry |
| Scenarios.DeclinedReplyParses | netlify/functions/paynow-initiate.ts:98-104 | "status=Error\nerror=Insufficient funds" parses to its status and error |
| Scenarios.DeclinedOrderForm | netlify/functions/paynow-initiate.ts:54-84 | an order of 8750 cents is sent with amount "87.50" and a hash field last |
| Scenarios.DeclinedInitiation | netlify/functions/paynow-initiate.ts:117-126 | Paynow's "Insufficient funds" decline comes back as 400 with that error |
| Scenarios.MissingAmount | netlify/functions/paynow-initiate.ts:45-51 | the same order without an amount is refused with 400 and nothing is sent |
| Scenarios.PendingThenPaid | src/components/payments/PaynowPayment.tsx:85-104 | "Pending" then "Paid": two status requests, 5000 ms apart, and `onSuccess` fired once |

## Left out

- SHA-512 and its uppercase-hex output: the digest is a `string -> string` parameter. Only its input is modelled.
- `encodeURIComponent`, `decodeURIComponent`, `URLSearchParams` and `JSON.parse`/`JSON.stringify` are abstract. The proxy's `decodeURIComponent` is a parameter that yields the decoded text or throws:
  - codecs are parameters;
  - a request body arrives already parsed, or as the parser's error message;
  - a form is the ordered list of its fields.
- The network: the calls to Paynow, PayPal and WhatsApp, and PayPal's OAuth token exchange (`getAccessToken`), are inputs. Each is a reply or a thrown message. The PayPal base URL and the Basic credentials are not modelled.
- CORS headers. They are the same constant set on every reply, so a reply is its status code and body.
- Floating point:
  - amounts and prices are whole cents;
  - JavaScript rounding, `NaN`, exponent notation and fractional quantities are not modelled;
  - a line total is exact cents × quantity.
- Non-string JSON values in request fields. A field is an optional string. The Paynow amount is a number of cents, or a non-number whose only relevant property is truthiness.
- The PayPal `breakdown` object, which is only tested for presence. Opaque PayPal and WhatsApp answer bodies are passed through as strings.
- Routing: the client posts to `/api/paypal/create-order`, `/api/paynow/initiate`, `/api/paynow/status` and `/api/whatsapp/send-message` (src/services/paymentService.ts:45, 88, 108, 151). The model assumes that these paths reach the functions `paypal-create-order`, `paynow-initiate`, `paynow-status` and `whatsapp-send-message`. The routing configuration is not part of this model. The lemmas that compose a client call with its handler rest on this assumption: `PaymentService.ProxyForwardsClientOrder`, `InitiateRenaming`, `InitiateReachesPaynow`, `ZeroAmountRefused`, `StatusPathRoundTrip`, `NotificationDelivered`, and `PaynowClient.InitiationDrivesWidget` and `StatusDrivesWidget`.
- `PayPalService.captureOrder`: it is a bare POST whose proxy is not part of this model.
- `window.location` navigation (the redirect to Paynow's page), `window.open`, the clipboard (including `copyPaymentLink`), toasts and console logging.
- Timers and React: `setTimeout` is a returned delay. A polling run is driven by a finite list of replies. Re-renders and state batching are not modelled.
- The presentation pages, the PayPal SDK wrapper and the demo data.
- Text.LowerChar: `toLowerCase` is ASCII lower-casing. Other scripts' case mappings are not modelled.
- PaynowClient.PollStep: `onSuccess` and `onError` are assumed to return normally. In the source they run inside the `try` (src/components/payments/PaynowPayment.tsx:87-98). A callback that throws is caught there: the widget stays checking, re-polls after 10000 ms, and a later "Paid" fires `onSuccess` again. A throwing callback is not modelled.
- PaynowClient.RunPolling: "at most one callback" and "ends in idle" rest on the same assumption, that callbacks do not throw.
- PaynowClient.RunPolling: it stops when the given replies run out. The source keeps polling with no bound, which a finite run can only approximate.
- PaynowClient.InitiateView: a reply status outside 2xx is a thrown error with a fixed message. Axios's exact message text is not modelled.
- PaynowInitiate.Initiate: the `amount` is whole cents, so a fractional-cent amount and its `toFixed` rounding are out of scope.
