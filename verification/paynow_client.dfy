/** The mobile-money payment widget: the guard and the initiation request of
    the Pay button, the reaction to the initiation reply, and the status
    polling loop. Timers become the delay of the next poll; the callbacks
    are reported rather than called; the proxies' replies arrive as axios
    delivers them — the body of a 2xx reply, or a thrown error. */
module PaynowClient {
  import opened Wrappers
  import opened Http
  import PaymentService
  import PaynowInitiate
  import PaynowStatus
  import PaynowWire
  import Text

  datatype PayState = Idle | Pending | Checking

  /** `onSuccess` or `onError`. */
  datatype Callback = OnSuccess | OnError

  /** A scheduled status check: the delay in milliseconds and the poll URL
      it will ask about (undefined when the initiation reply had none). */
  datatype Poll = Poll(delayMs: nat, pollUrl: Option<string>)

  /** The widget after one reply: its payment status, the callback fired,
      and the next scheduled status check. */
  datatype Step = Step(state: PayState, fired: Option<Callback>, nextPoll: Option<Poll>)

  /** The members of the initiation reply the widget reads. */
  datatype InitiateReply = InitiateReply(status: Option<string>, redirectUrl: Option<string>, pollUrl: Option<string>)

  /** The member of the status reply the widget reads. */
  datatype StatusReply = StatusReply(status: Option<string>)

  const FirstPollDelay := 5000
  const PollInterval := 5000
  const RetryDelay := 10000

  /** A poll is scheduled exactly while the payment is in flight, and a
      callback fires exactly when the widget returns to idle. */
  predicate Coherent(step: Step) {
    && (step.nextPoll.Some? <==> step.state != Idle)
    && (step.fired.Some? <==> step.state == Idle)
  }

  // ---------------------------------------------------------------------
  // The Pay button
  // ---------------------------------------------------------------------

  /** The Pay button is enabled only when nothing is loading and no payment
      is in flight. */
  predicate PayEnabled(state: PayState, isLoading: bool) {
    !isLoading && state == Idle
  }

  /** What pressing Pay does: nothing but an error toast when the order has
      no phone number; otherwise the widget turns pending and posts the
      payment for the order with the selected method. */
  datatype Press = PhoneRequired | Initiating(body: PaymentService.InitiateBody)

  function PressPay(order: PaymentService.PaymentOrder, selectedMethod: string, origin: string,
                    config: PaymentService.ClientConfig): (p: Press)
    ensures p.PhoneRequired? <==> !Truthy(order.customerPhone)
    ensures p.Initiating? ==>
      && p.body.reference == order.id && p.body.amount == order.amount
      && p.body.email == order.customerEmail && p.body.phone == order.customerPhone
      && p.body.payMethod == selectedMethod
  {
    if !Truthy(order.customerPhone) then PhoneRequired
    else Initiating(PaymentService.InitiateBodyOf(PaymentService.PaynowDataFor(order, selectedMethod, origin), config))
  }

  /** The widget's state after pressing Pay: unchanged without a phone;
      otherwise a payment is in flight and the button is disabled until the
      reply comes back. */
  function StateAfterPress(p: Press, state: PayState, isLoading: bool): (r: (PayState, bool))
    ensures p.PhoneRequired? ==> r == (state, isLoading)
    ensures p.Initiating? ==> r.0 != Idle && r.1 && !PayEnabled(r.0, r.1)
  {
    if p.PhoneRequired? then (state, isLoading) else (Pending, true)
  }

  /** Pressing an enabled Pay button disables it exactly when the order has a
      phone number, that is, exactly when the payment request goes out: the
      button cannot be pressed again between the press and the reply. */
  lemma PressDisablesPay(order: PaymentService.PaymentOrder, selectedMethod: string, origin: string,
                         config: PaymentService.ClientConfig, state: PayState, isLoading: bool)
    requires PayEnabled(state, isLoading)
    ensures var after := StateAfterPress(PressPay(order, selectedMethod, origin, config), state, isLoading);
      !PayEnabled(after.0, after.1) <==> Truthy(order.customerPhone)
  {
  }

  /** The button press and the widget press share one request builder with
      `processPayment`: the widget posts what `processPayment` would for the
      same order and method. */
  lemma PressMatchesProcessPayment(order: PaymentService.PaymentOrder, selectedMethod: string, origin: string,
                                   config: PaymentService.ClientConfig)
    requires Truthy(order.customerPhone) && PaymentService.IsMobileMoney(selectedMethod)
    ensures PressPay(order, selectedMethod, origin, config)
      == Initiating(PaymentService.ProcessPayment(order, selectedMethod, origin, config).payment)
  {
  }

  // ---------------------------------------------------------------------
  // One reply at a time
  // ---------------------------------------------------------------------

  /** The reaction to the initiation reply: on status "Ok" the widget stays
      pending and checks the poll URL after five seconds; on any other reply
      or a thrown error it returns to idle and fires `onError`. Loading ends
      either way. */
  function AfterInitiation(reply: Result<InitiateReply>): (step: Step)
    ensures Coherent(step)
    ensures step.state == Pending <==> reply.Success? && reply.value.status == Some("Ok")
    ensures step.state != Pending ==> step.state == Idle && step.fired == Some(OnError)
    ensures step.nextPoll.Some? ==> step.nextPoll.value == Poll(FirstPollDelay, reply.value.pollUrl)
  {
    if reply.Success? && reply.value.status == Some("Ok") then
      Step(Pending, None, Some(Poll(FirstPollDelay, reply.value.pollUrl)))
    else
      Step(Idle, Some(OnError), None)
  }

  /** Terminal statuses end the polling; the comparison is exact, so "paid"
      is not "Paid". */
  predicate IsTerminal(reply: Result<StatusReply>) {
    reply.Success? && reply.value.status in {Some("Paid"), Some("Cancelled"), Some("Failed")}
  }

  /** The reaction to one status check: "Paid" fires `onSuccess`,
      "Cancelled" and "Failed" fire `onError`, and both return to idle with
      nothing scheduled; any other status checks again after five seconds,
      a thrown error after ten, and the widget stays checking. */
  function PollStep(pollUrl: Option<string>, reply: Result<StatusReply>): (step: Step)
    ensures Coherent(step)
    ensures step.state == Idle <==> IsTerminal(reply)
    ensures step.state != Idle ==> step.state == Checking
    ensures step.fired == Some(OnSuccess) <==> reply.Success? && reply.value.status == Some("Paid")
    ensures step.fired == Some(OnError) <==> IsTerminal(reply) && reply.value.status != Some("Paid")
    ensures !IsTerminal(reply) ==> step.fired == None
    ensures reply.Failure? ==> step.nextPoll == Some(Poll(RetryDelay, pollUrl))
    ensures reply.Success? && !IsTerminal(reply) ==> step.nextPoll == Some(Poll(PollInterval, pollUrl))
  {
    match reply
    case Failure(_) => Step(Checking, None, Some(Poll(RetryDelay, pollUrl)))
    case Success(r) =>
      if r.status == Some("Paid") then Step(Idle, Some(OnSuccess), None)
      else if r.status == Some("Cancelled") || r.status == Some("Failed") then Step(Idle, Some(OnError), None)
      else Step(Checking, None, Some(Poll(PollInterval, pollUrl)))
  }

  /** While a poll is scheduled the Pay button is disabled, so no second
      payment can start in the middle of one. */
  lemma NoSecondInitiation(step: Step, isLoading: bool)
    requires Coherent(step) && step.nextPoll.Some?
    ensures !PayEnabled(step.state, isLoading)
  {
  }

  // ---------------------------------------------------------------------
  // The polling loop
  // ---------------------------------------------------------------------

  /** The index of the first terminal reply, if any. */
  function FirstTerminal(replies: seq<Result<StatusReply>>): (k: Option<nat>)
    ensures k.Some? ==> k.value < |replies| && IsTerminal(replies[k.value])
    ensures k.Some? ==> forall i :: 0 <= i < k.value ==> !IsTerminal(replies[i])
    ensures k.None? ==> forall i :: 0 <= i < |replies| ==> !IsTerminal(replies[i])
    decreases |replies|
  {
    if |replies| == 0 then None
    else if IsTerminal(replies[0]) then Some(0)
    else
      match FirstTerminal(replies[1..])
      case None => None
      case Some(k) => Some(k + 1)
  }

  /** The delay a reply schedules before the next check. */
  function DelayAfter(reply: Result<StatusReply>): nat {
    if IsTerminal(reply) then 0 else if reply.Failure? then RetryDelay else PollInterval
  }

  function TotalDelay(replies: seq<Result<StatusReply>>): nat
    decreases |replies|
  {
    if |replies| == 0 then 0 else TotalDelay(replies[..|replies| - 1]) + DelayAfter(replies[|replies| - 1])
  }

  /** Poll the status proxy with successive `replies`, starting from the
      pending state the initiation left: the loop stops at the first
      terminal reply. Returns the final state, the callbacks fired, the
      number of status requests made and the milliseconds spent waiting
      between them (after the first check). */
  method RunPolling(pollUrl: Option<string>, replies: seq<Result<StatusReply>>)
    returns (state: PayState, fired: seq<Callback>, requests: nat, waited: nat)
    ensures |fired| <= 1
    ensures FirstTerminal(replies).Some? ==>
      && requests == FirstTerminal(replies).value + 1
      && state == Idle
      && fired == [PollStep(pollUrl, replies[requests - 1]).fired.value]
      && waited == TotalDelay(replies[..requests - 1])
    ensures FirstTerminal(replies).None? ==>
      && requests == |replies|
      && fired == []
      && state == (if |replies| == 0 then Pending else Checking)
      && waited == TotalDelay(replies)
    ensures fired == [OnSuccess] <==>
      FirstTerminal(replies).Some? && replies[FirstTerminal(replies).value].value.status == Some("Paid")
  {
    state, fired, requests, waited := Pending, [], 0, 0;
    while requests < |replies| && state != Idle
      invariant 0 <= requests <= |replies|
      invariant forall i :: 0 <= i < requests - 1 ==> !IsTerminal(replies[i])
      invariant state == Idle <==> requests > 0 && IsTerminal(replies[requests - 1])
      invariant state != Idle ==> fired == [] && waited == TotalDelay(replies[..requests])
      invariant state != Idle && requests > 0 ==> state == Checking
      invariant state == Pending <==> requests == 0
      invariant state == Idle ==>
        && fired == [PollStep(pollUrl, replies[requests - 1]).fired.value]
        && waited == TotalDelay(replies[..requests - 1])
      decreases |replies| - requests
    {
      var step := PollStep(pollUrl, replies[requests]);
      assert replies[..requests + 1][..requests] == replies[..requests];
      if step.fired.Some? {
        fired := fired + [step.fired.value];
      } else {
        waited := waited + step.nextPoll.value.delayMs;
      }
      state := step.state;
      requests := requests + 1;
    }
    assert replies[..|replies|] == replies;
  }

  // ---------------------------------------------------------------------
  // The proxies' replies as the widget sees them
  // ---------------------------------------------------------------------

  /** The initiation reply through axios: a 2xx reply delivers its body, any
      other status throws. */
  function InitiateView(reply: Reply<PaynowInitiate.InitiateBody>): Result<InitiateReply> {
    if !OkStatus(reply.statusCode) then Failure("Request failed with status code")
    else
      match reply.body
      case Json(body) =>
        if body.Initiated? then Success(InitiateReply(Some("Ok"), body.redirectUrl, body.pollUrl))
        else Success(InitiateReply(Some("Error"), None, None))
      case _ => Success(InitiateReply(None, None, None))
  }

  /** The status reply through axios. */
  function StatusView(reply: Reply<PaynowStatus.StatusFields>): Result<StatusReply> {
    if !OkStatus(reply.statusCode) then Failure("Request failed with status code")
    else
      match reply.body
      case Json(fields) => Success(StatusReply(fields.status))
      case _ => Success(StatusReply(None))
  }

  /** End to end: a payment posted by the widget leaves it pending, polling
      Paynow's poll URL after five seconds, exactly when Paynow's reply
      status lower-cases to "ok"; any other reply returns it to idle with
      `onError`. */
  lemma InitiationDrivesWidget(req: PaynowInitiate.InitiateRequest, cents: int,
                               config: PaynowInitiate.PaynowConfig, digest: string -> string, text: string)
    requires PaynowInitiate.HasRequiredFields(req) && req.amount == Some(PaynowInitiate.Number(cents))
    ensures var reply := PaynowInitiate.Initiate("POST", Parsed(req), config, digest, Success(text)).reply;
      var fields := PaynowWire.ParseReply(text);
      var step := AfterInitiation(InitiateView(reply));
      && (step.state == Pending <==> "status" in fields && Text.Lower(fields["status"]) == "ok")
      && (step.state == Pending ==> step.nextPoll == Some(Poll(FirstPollDelay, PaynowWire.Lookup(fields, "pollurl"))))
      && (step.state != Pending ==> step.state == Idle && step.fired == Some(OnError))
  {
    PaynowInitiate.ReplyMapping(req, cents, config, digest, text);
  }

  /** End to end: once Paynow answers a status check, the widget finishes
      with `onSuccess` exactly when the relayed status is "Paid" in exactly
      that spelling; a failed check — including a poll URL that the proxy's
      second URI-decoding rejects — is retried after ten seconds. */
  lemma StatusDrivesWidget(pollUrl: string, decodeUri: string -> Result<string>, upstream: Result<string>)
    requires pollUrl != ""
    ensures var reply := PaynowStatus.CheckStatus("GET", Some(pollUrl), decodeUri, upstream).reply;
      var step := PollStep(Some(pollUrl), StatusView(reply));
      && (decodeUri(pollUrl).Success? && upstream.Success? ==>
            var fields := PaynowWire.ParseReply(upstream.value);
            && (step.fired == Some(OnSuccess) <==> "status" in fields && fields["status"] == "Paid")
            && (step.state == Checking <==>
                  !("status" in fields && fields["status"] in {"Paid", "Cancelled", "Failed"})))
      && (decodeUri(pollUrl).Failure? || upstream.Failure? ==>
            step == Step(Checking, None, Some(Poll(RetryDelay, Some(pollUrl)))))
  {
    if decodeUri(pollUrl).Success? && upstream.Success? {
      PaynowStatus.RelaysParsedFields(pollUrl, decodeUri, upstream.value);
    }
  }
}
