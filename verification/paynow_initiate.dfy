/** The Paynow initiate proxy: validate the JSON request, build the
    outgoing record with its defaults, sign it, post it to Paynow, and map
    Paynow's reply to an HTTP status and JSON body. The digest function,
    the gateway's reply and the thrown errors are inputs. */
module PaynowInitiate {
  import opened Wrappers
  import opened Text
  import opened Http
  import opened PaynowWire

  /** The `amount` member of the request body: a JSON number (in cents), or
      some other JSON value, of which only its truthiness matters. */
  datatype Amount = Number(cents: int) | NotNumber(truthy: bool)

  /** The members of the request body the handler destructures. */
  datatype InitiateRequest = InitiateRequest(
    reference: Option<string>,
    amount: Option<Amount>,
    email: Option<string>,
    phone: Option<string>,
    payMethod: Option<string>,
    returnUrl: Option<string>,
    resultUrl: Option<string>)

  /** The handler's environment variables. */
  datatype PaynowConfig = PaynowConfig(
    integrationId: Option<string>,
    integrationKey: Option<string>,
    returnUrl: Option<string>,
    resultUrl: Option<string>)

  const DefaultReturnUrl := "https://www.paynow.co.zw/return/"
  const DefaultResultUrl := "https://www.paynow.co.zw/result/"
  const MissingFields := "Missing required fields"
  const InitiationFailed := "Payment initiation failed"
  /** The message of the TypeError thrown by `toFixed` on a non-number amount. */
  const AmountNotNumber := "amount.toFixed is not a function"

  /** The success and failure shapes of the handler's JSON reply:
      `{status: 'Ok', redirectUrl, pollUrl, hash}` and `{status: 'Error', error}`. */
  datatype InitiateBody =
    | Initiated(redirectUrl: Option<string>, pollUrl: Option<string>, hash: Option<string>)
    | Declined(error: string)

  /** The reply, and the form posted to Paynow if the handler got that far. */
  datatype InitiateOutcome = InitiateOutcome(reply: Reply<InitiateBody>, sent: Option<Form>)

  predicate AmountTruthy(amount: Option<Amount>) {
    amount.Some? &&
    match amount.value
    case Number(cents) => cents != 0
    case NotNumber(truthy) => truthy
  }

  /** `reference`, `amount`, `email` and `method` are all truthy. */
  predicate HasRequiredFields(req: InitiateRequest) {
    Truthy(req.reference) && AmountTruthy(req.amount) && Truthy(req.email) && Truthy(req.payMethod)
  }

  /** `PAYNOW_RETURN_URL`, with its built-in default. */
  function ConfiguredReturnUrl(config: PaynowConfig): string {
    OrElse(config.returnUrl, DefaultReturnUrl)
  }

  /** `PAYNOW_RESULT_URL`, with its built-in default. */
  function ConfiguredResultUrl(config: PaynowConfig): string {
    OrElse(config.resultUrl, DefaultResultUrl)
  }

  /** The outgoing record of a valid request whose amount is a number. */
  function RecordOf(req: InitiateRequest, config: PaynowConfig, cents: int): OutgoingRecord
    requires HasRequiredFields(req)
  {
    OutgoingRecord(
      config.integrationId,
      req.reference.value,
      ToFixed2(cents),
      req.email.value,
      OrElse(req.phone, ""),
      req.payMethod.value,
      OrElse(req.returnUrl, ConfiguredReturnUrl(config)),
      OrElse(req.resultUrl, ConfiguredResultUrl(config)))
  }

  /** Map Paynow's parsed reply to the handler's reply. */
  function Interpret(fields: Fields): Reply<InitiateBody> {
    if "status" in fields && Lower(fields["status"]) == "ok" then
      Reply(200, Json(Initiated(Lookup(fields, "browserurl"), Lookup(fields, "pollurl"), Lookup(fields, "hash"))))
    else
      Reply(400, Json(Declined(OrElse(Lookup(fields, "error"), InitiationFailed))))
  }

  /** The handler. `digest` is uppercase-hex SHA-512; `upstream` is the text
      of Paynow's reply, or the message of the error the call threw. */
  function Initiate(
    httpMethod: string,
    request: Parsed<InitiateRequest>,
    config: PaynowConfig,
    digest: string -> string,
    upstream: Result<string>): (o: InitiateOutcome)
    ensures o.reply.statusCode in {200, 400, 405, 500}
    ensures o.sent.Some? <==>
      httpMethod == "POST" && request.Parsed? && HasRequiredFields(request.value)
      && request.value.amount.value.Number?
    ensures o.sent.Some? ==> Keys(o.sent.value) == FormKeys
    ensures o.reply.statusCode == 200 ==>
      o.reply.body == Empty || (o.reply.body.Json? && o.reply.body.value.Initiated?)
  {
    match Gate(httpMethod, "POST")
    case Some(reply) => InitiateOutcome(reply, None)
    case None =>
      match request
      case Malformed(message) => InitiateOutcome(Reply(500, ServerError(message)), None)
      case Parsed(req) =>
        if !HasRequiredFields(req) then
          InitiateOutcome(Reply(400, ErrorJson(MissingFields)), None)
        else
          match req.amount.value
          case NotNumber(_) => InitiateOutcome(Reply(500, ServerError(AmountNotNumber)), None)
          case Number(cents) =>
            var rec := RecordOf(req, config, cents);
            var form := SignedForm(rec, OrElse(config.integrationKey, ""), digest);
            SignedFormLayout(rec, OrElse(config.integrationKey, ""), digest);
            match upstream
            case Failure(message) => InitiateOutcome(Reply(500, ServerError(message)), Some(form))
            case Success(text) => InitiateOutcome(Interpret(ParseReply(text)), Some(form))
  }

  /** A preflight is answered 200 with an empty body, any other method but
      POST 405; neither reaches Paynow. */
  lemma MethodGate(httpMethod: string, request: Parsed<InitiateRequest>, config: PaynowConfig,
                   digest: string -> string, upstream: Result<string>)
    requires httpMethod != "POST"
    ensures var o := Initiate(httpMethod, request, config, digest, upstream);
      && o.sent.None?
      && (httpMethod == "OPTIONS" ==> o.reply == Reply(200, Empty))
      && (httpMethod != "OPTIONS" ==> o.reply == Reply(405, ErrorJson(MethodNotAllowed)))
  {
  }

  /** A POST missing any of reference, amount, email or method (absent,
      empty, or a zero amount) is answered 400 "Missing required fields",
      and nothing is hashed or sent. */
  lemma MissingFieldsRejected(req: InitiateRequest, config: PaynowConfig,
                              digest: string -> string, upstream: Result<string>)
    requires !Truthy(req.reference) || !AmountTruthy(req.amount) || !Truthy(req.email) || !Truthy(req.payMethod)
    ensures Initiate("POST", Parsed(req), config, digest, upstream)
      == InitiateOutcome(Reply(400, ErrorJson(MissingFields)), None)
  {
  }

  /** The form sent for a valid request: the request's reference, email and
      method; the amount in two decimals; the phone defaulting to the empty
      string; the return and result URLs defaulting to the configured ones;
      and as last field the digest of the preceding values, an unset
      integration id contributing nothing, followed by the integration key
      (empty when unset). */
  lemma SentForm(req: InitiateRequest, cents: int, config: PaynowConfig,
                 digest: string -> string, upstream: Result<string>)
    requires HasRequiredFields(req) && req.amount == Some(Number(cents))
    ensures var form := Initiate("POST", Parsed(req), config, digest, upstream).sent.value;
      var returnUrl := if Truthy(req.returnUrl) then req.returnUrl.value else ConfiguredReturnUrl(config);
      var resultUrl := if Truthy(req.resultUrl) then req.resultUrl.value else ConfiguredResultUrl(config);
      var phone := if Truthy(req.phone) then req.phone.value else "";
      && form[0] == ("id", Str(config.integrationId))
      && form[1] == ("reference", req.reference.value)
      && form[2] == ("amount", ToFixed2(cents))
      && form[3] == ("email", req.email.value)
      && form[4] == ("phone", phone)
      && form[5] == ("method", req.payMethod.value)
      && form[6] == ("returnurl", returnUrl)
      && form[7] == ("resulturl", resultUrl)
      && form[8] == ("hash", digest(config.integrationId.GetOr("") + req.reference.value
           + ToFixed2(cents) + req.email.value + phone + req.payMethod.value
           + returnUrl + resultUrl + OrElse(config.integrationKey, "")))
  {
    var rec := RecordOf(req, config, cents);
    SignedFormLayout(rec, OrElse(config.integrationKey, ""), digest);
    HashInputLayout(rec, OrElse(config.integrationKey, ""));
  }

  /** When Paynow answers, the reply is 200 with the parsed browserurl,
      pollurl and hash exactly when the parsed status lower-cases to "ok";
      otherwise, an absent status included, it is 400 with the parsed error,
      or "Payment initiation failed" when that is absent or empty. */
  lemma ReplyMapping(req: InitiateRequest, cents: int, config: PaynowConfig,
                     digest: string -> string, text: string)
    requires HasRequiredFields(req) && req.amount == Some(Number(cents))
    ensures var reply := Initiate("POST", Parsed(req), config, digest, Success(text)).reply;
      var fields := ParseReply(text);
      && (reply.statusCode == 200 <==> "status" in fields && Lower(fields["status"]) == "ok")
      && (reply.statusCode == 200 ==> reply.body == Json(Initiated(
            Lookup(fields, "browserurl"), Lookup(fields, "pollurl"), Lookup(fields, "hash"))))
      && (reply.statusCode != 200 ==> reply.statusCode == 400 && reply.body.Json? && reply.body.value.Declined?)
      && (reply.statusCode != 200 && "error" in fields && fields["error"] != "" ==>
            reply.body == Json(Declined(fields["error"])))
      && (reply.statusCode != 200 && ("error" !in fields || fields["error"] == "") ==>
            reply.body == Json(Declined(InitiationFailed)))
  {
  }

  /** Every thrown error becomes 500 with the error's message: a malformed
      body, a non-number amount, and a failed call to Paynow (which had
      been sent). */
  lemma ThrownErrors(request: Parsed<InitiateRequest>, config: PaynowConfig,
                     digest: string -> string, upstream: Result<string>)
    ensures var o := Initiate("POST", request, config, digest, upstream);
      && (request.Malformed? ==> o.reply == Reply(500, ServerError(request.message)))
      && (request.Parsed? && HasRequiredFields(request.value) && request.value.amount.value.NotNumber? ==>
            o.reply == Reply(500, ServerError(AmountNotNumber)))
      && (o.sent.Some? && upstream.Failure? ==> o.reply == Reply(500, ServerError(upstream.message)))
  {
  }
}
