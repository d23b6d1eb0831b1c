/** The Paynow status proxy: take the poll URL from the query string,
    URI-decode it, post to it, parse the reply with the same line parser as
    the initiate proxy, and relay six of the parsed fields. The decoder is a
    parameter that either yields the decoded text or throws; the call and
    reading its text are one input: the reply text or the thrown message. */
module PaynowStatus {
  import opened Wrappers
  import opened Http
  import opened PaynowWire

  const PollUrlRequired := "Poll URL is required"

  /** The relayed fields; an absent key stays undefined. */
  datatype StatusFields = StatusFields(
    status: Option<string>,
    reference: Option<string>,
    amount: Option<string>,
    paynowreference: Option<string>,
    pollurl: Option<string>,
    hash: Option<string>)

  /** The reply, and the URL that was fetched, if any. */
  datatype StatusOutcome = StatusOutcome(reply: Reply<StatusFields>, fetched: Option<string>)

  /** The six relayed fields of a parsed reply. */
  function Project(fields: Fields): StatusFields {
    StatusFields(
      Lookup(fields, "status"), Lookup(fields, "reference"), Lookup(fields, "amount"),
      Lookup(fields, "paynowreference"), Lookup(fields, "pollurl"), Lookup(fields, "hash"))
  }

  /** The handler. `pollUrl` is the `poll_url` query parameter as the
      platform delivers it (already decoded once); `decodeUri` is
      `decodeURIComponent`, applied to it once more before the fetch. */
  function CheckStatus(httpMethod: string, pollUrl: Option<string>, decodeUri: string -> Result<string>,
                       upstream: Result<string>): (o: StatusOutcome)
    ensures o.reply.statusCode in {200, 400, 405, 500}
    ensures o.fetched.Some? <==>
      httpMethod == "GET" && Truthy(pollUrl) && decodeUri(pollUrl.value).Success?
    ensures o.fetched.Some? ==> o.fetched.value == decodeUri(pollUrl.value).value
    ensures httpMethod == "GET" && Truthy(pollUrl) && decodeUri(pollUrl.value).Failure? ==>
      o.reply == Reply(500, ServerError(decodeUri(pollUrl.value).message))
    ensures o.fetched.Some? && upstream.Success? ==> o.reply.statusCode == 200
    ensures o.reply.statusCode == 200 ==> httpMethod == "OPTIONS" || (o.fetched.Some? && upstream.Success?)
  {
    match Gate(httpMethod, "GET")
    case Some(reply) => StatusOutcome(reply, None)
    case None =>
      if !Truthy(pollUrl) then StatusOutcome(Reply(400, ErrorJson(PollUrlRequired)), None)
      else
        match decodeUri(pollUrl.value)
        case Failure(message) => StatusOutcome(Reply(500, ServerError(message)), None)
        case Success(url) =>
          match upstream
          case Failure(message) => StatusOutcome(Reply(500, ServerError(message)), Some(url))
          case Success(text) => StatusOutcome(Reply(200, Json(Project(ParseReply(text)))), Some(url))
  }

  /** A preflight is answered 200 with an empty body, any other method but
      GET 405; neither fetches anything. */
  lemma MethodGate(httpMethod: string, pollUrl: Option<string>, decodeUri: string -> Result<string>,
                   upstream: Result<string>)
    requires httpMethod != "GET"
    ensures var o := CheckStatus(httpMethod, pollUrl, decodeUri, upstream);
      && o.fetched.None?
      && (httpMethod == "OPTIONS" ==> o.reply == Reply(200, Empty))
      && (httpMethod != "OPTIONS" ==> o.reply == Reply(405, ErrorJson(MethodNotAllowed)))
  {
  }

  /** A missing or empty poll URL is answered 400 and nothing is fetched. */
  lemma PollUrlMissing(pollUrl: Option<string>, decodeUri: string -> Result<string>, upstream: Result<string>)
    requires !Truthy(pollUrl)
    ensures CheckStatus("GET", pollUrl, decodeUri, upstream) == StatusOutcome(Reply(400, ErrorJson(PollUrlRequired)), None)
  {
  }

  /** Whenever the poll URL answers, the reply is 200 whatever the parsed
      status says, and each of the six relayed fields is the parsed value of
      its key, or undefined when the reply had no line for it. */
  lemma RelaysParsedFields(pollUrl: string, decodeUri: string -> Result<string>, text: string)
    requires pollUrl != "" && decodeUri(pollUrl).Success?
    ensures var reply := CheckStatus("GET", Some(pollUrl), decodeUri, Success(text)).reply;
      var fields := ParseReply(text);
      && reply.statusCode == 200 && reply.body.Json?
      && reply.body.value.status == Lookup(fields, "status")
      && reply.body.value.reference == Lookup(fields, "reference")
      && reply.body.value.amount == Lookup(fields, "amount")
      && reply.body.value.paynowreference == Lookup(fields, "paynowreference")
      && reply.body.value.pollurl == Lookup(fields, "pollurl")
      && reply.body.value.hash == Lookup(fields, "hash")
  {
  }

  /** A failed call to the poll URL is answered 500 with the error's message. */
  lemma ThrownErrors(pollUrl: string, decodeUri: string -> Result<string>, message: string)
    requires pollUrl != "" && decodeUri(pollUrl).Success?
    ensures CheckStatus("GET", Some(pollUrl), decodeUri, Failure(message)).reply == Reply(500, ServerError(message))
  {
  }

  /** A poll URL that `decodeURIComponent` rejects (a lone '%', say) is
      answered 500 with the decoder's message, whatever the gateway would
      have said, and nothing is fetched. */
  lemma UndecodablePollUrl(pollUrl: string, decodeUri: string -> Result<string>, upstream: Result<string>)
    requires pollUrl != "" && decodeUri(pollUrl).Failure?
    ensures CheckStatus("GET", Some(pollUrl), decodeUri, upstream)
         == StatusOutcome(Reply(500, ServerError(decodeUri(pollUrl).message)), None)
  {
  }
}
