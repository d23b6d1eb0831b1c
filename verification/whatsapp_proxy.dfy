/** The WhatsApp send-message proxy: validate the request, then either log
    it (when the API credentials are not configured) or relay it to the
    WhatsApp Business API and report the message id. The Graph API's answer
    is an input. */
module WhatsAppProxy {
  import opened Wrappers
  import opened Http

  const RecipientAndMessageRequired := "Phone number and message are required"
  const LoggedNotice := "Message logged (WhatsApp API not configured)"
  const SendFailed := "WhatsApp message failed"
  const GraphApiBase := "https://graph.facebook.com/v18.0/"

  datatype MessageRequest = MessageRequest(to: Option<string>, message: Option<string>, orderId: Option<string>)

  /** The access token and phone-number id environment variables. */
  datatype WhatsAppConfig = WhatsAppConfig(accessToken: Option<string>, phoneNumberId: Option<string>)

  /** `{success: true, message: LoggedNotice, to, orderId}` and
      `{success: true, messageId, to, orderId}`. */
  datatype SendBody =
    | Logged(to: string, orderId: Option<string>)
    | Delivered(messageId: Option<string>, to: string, orderId: Option<string>)

  /** The Graph API call: URL, bearer token and the JSON body
      `{messaging_product, to, text: {body}}`. */
  datatype OutboundMessage = OutboundMessage(
    url: string, bearer: string, messagingProduct: string, to: string, textBody: string)

  /** The Graph API's answer: status, JSON body, and the ids of its
      `messages` array (None when there is no such array). */
  datatype GraphReply = GraphReply(status: int, data: string, messageIds: Option<seq<Option<string>>>)

  datatype SendOutcome = SendOutcome(reply: Reply<SendBody>, sent: Option<OutboundMessage>)

  /** The live-send strategy is chosen only when both credentials are set. */
  predicate Configured(config: WhatsAppConfig) {
    Truthy(config.accessToken) && Truthy(config.phoneNumberId)
  }

  /** `messages?.[0]?.id`. */
  function FirstMessageId(ids: Option<seq<Option<string>>>): Option<string> {
    if ids.None? || |ids.value| == 0 then None else ids.value[0]
  }

  /** The handler. */
  function SendMessage(
    httpMethod: string,
    request: Parsed<MessageRequest>,
    config: WhatsAppConfig,
    upstream: Result<GraphReply>): (o: SendOutcome)
    ensures o.sent.Some? <==>
      httpMethod == "POST" && request.Parsed? && Truthy(request.value.to) && Truthy(request.value.message)
      && Configured(config)
    ensures o.reply.statusCode == 200 && o.reply.body.Json? ==>
      request.Parsed? && request.value.to.Some? && o.reply.body.value.to == request.value.to.value
      && o.reply.body.value.orderId == request.value.orderId
      && (o.reply.body.value.Logged? <==> !Configured(config))
  {
    match Gate(httpMethod, "POST")
    case Some(reply) => SendOutcome(reply, None)
    case None =>
      match request
      case Malformed(message) => SendOutcome(Reply(500, ServerError(message)), None)
      case Parsed(req) =>
        if !Truthy(req.to) || !Truthy(req.message) then
          SendOutcome(Reply(400, ErrorJson(RecipientAndMessageRequired)), None)
        else if !Configured(config) then
          SendOutcome(Reply(200, Json(Logged(req.to.value, req.orderId))), None)
        else
          var call := OutboundMessage(
            GraphApiBase + config.phoneNumberId.value + "/messages", config.accessToken.value,
            "whatsapp", req.to.value, req.message.value);
          match upstream
          case Failure(message) => SendOutcome(Reply(500, ServerError(message)), Some(call))
          case Success(answer) =>
            if !OkStatus(answer.status) then
              SendOutcome(Reply(answer.status, ErrorWithDetails(SendFailed, answer.data)), Some(call))
            else
              SendOutcome(Reply(200, Json(Delivered(FirstMessageId(answer.messageIds), req.to.value, req.orderId))), Some(call))
  }

  /** A preflight is answered 200 with an empty body, any other method but
      POST 405; neither sends anything. */
  lemma MethodGate(httpMethod: string, request: Parsed<MessageRequest>, config: WhatsAppConfig,
                   upstream: Result<GraphReply>)
    requires httpMethod != "POST"
    ensures var o := SendMessage(httpMethod, request, config, upstream);
      && o.sent.None?
      && (httpMethod == "OPTIONS" ==> o.reply == Reply(200, Empty))
      && (httpMethod != "OPTIONS" ==> o.reply == Reply(405, ErrorJson(MethodNotAllowed)))
  {
  }

  /** A missing or empty recipient or message is answered 400, whatever the configuration. */
  lemma RecipientAndMessageChecked(req: MessageRequest, config: WhatsAppConfig, upstream: Result<GraphReply>)
    requires !Truthy(req.to) || !Truthy(req.message)
    ensures SendMessage("POST", Parsed(req), config, upstream)
      == SendOutcome(Reply(400, ErrorJson(RecipientAndMessageRequired)), None)
  {
  }

  /** Without both credentials a valid request is only logged: 200, the
      recipient and order id echoed, nothing sent, whatever the Graph API
      would have answered. */
  lemma LogOnlyWhenUnconfigured(req: MessageRequest, config: WhatsAppConfig, upstream: Result<GraphReply>)
    requires Truthy(req.to) && Truthy(req.message) && !Configured(config)
    ensures SendMessage("POST", Parsed(req), config, upstream)
      == SendOutcome(Reply(200, Json(Logged(req.to.value, req.orderId))), None)
  {
  }

  /** With both credentials the Graph API receives
      `{messaging_product: "whatsapp", to, text: {body: message}}` at the
      configured phone-number id; a non-ok answer keeps its status with
      "WhatsApp message failed", an ok one is 200 with the first message id. */
  lemma LiveSend(req: MessageRequest, config: WhatsAppConfig, answer: GraphReply)
    requires Truthy(req.to) && Truthy(req.message) && Configured(config)
    ensures var o := SendMessage("POST", Parsed(req), config, Success(answer));
      && o.sent == Some(OutboundMessage(
           "https://graph.facebook.com/v18.0/" + config.phoneNumberId.value + "/messages",
           config.accessToken.value, "whatsapp", req.to.value, req.message.value))
      && (!OkStatus(answer.status) ==> o.reply == Reply(answer.status, ErrorWithDetails(SendFailed, answer.data)))
      && (OkStatus(answer.status) ==>
            (&& o.reply.statusCode == 200 && o.reply.body.Json?
             && o.reply.body.value.Delivered?
             && (answer.messageIds.Some? && |answer.messageIds.value| > 0 ==>
                   o.reply.body.value.messageId == answer.messageIds.value[0])
             && (answer.messageIds.None? || |answer.messageIds.value| == 0 ==>
                   o.reply.body.value.messageId.None?)))
  {
  }
}
