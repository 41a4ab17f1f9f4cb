/**
 * The chat edge function: crisis short-circuit on the latest user message, the
 * API-key check, and the mapping of the AI gateway's outcome to the HTTP response.
 * The gateway call itself is an outcome supplied from outside.
 */
module EdgeChat {
  import opened Text
  import opened Crisis
  import opened Ordering
  import opened Optional

  /** A chat message as it travels in the request and upstream. */
  datatype WireMessage = WireMessage(role: string, content: string)

  /** The persona prompt sent first upstream. */
  const SystemPrompt: string := "You are MindfulAI, a compassionate and supportive mental health companion. Your role is to:\n\n1. Listen actively and empathetically to users' feelings and concerns\n2. Provide thoughtful, non-judgmental responses\n3. Offer evidence-based coping strategies and mental wellness tips\n4. Encourage professional help when appropriate\n5. Share relevant resources and techniques for managing stress, anxiety, and other emotions\n\nGuidelines:\n- Always be warm, supportive, and understanding\n- Never diagnose conditions or prescribe treatments\n- Suggest professional help for serious concerns\n- Use calming, reassuring language\n- Offer practical coping strategies when appropriate\n- Remember you're a supportive companion, not a replacement for professional care\n\nWhen asked for advice, you can search for and suggest relevant self-help resources, breathing exercises, mindfulness techniques, and general wellness tips."

  /** The reply used when the gateway's first choice has no content. */
  const FallbackContent: string := "I'm here to listen. How can I support you today?"

  const MissingKeyMessage: string := "LOVABLE_API_KEY is not configured"
  const RateLimitMessage: string := "Rate limit exceeded. Please try again in a moment."
  const UnavailableMessage: string := "Service temporarily unavailable. Please try again later."
  const GatewayErrorPrefix: string := "AI gateway error: "

  /** What the gateway call produced: a response (status and parsed first-choice content) or an exception. */
  datatype GatewayOutcome =
    | Completed(status: nat, firstChoiceContent: Option<string>)
    | Threw(message: string)

  datatype Body = Reply(content: string, isCrisis: bool) | Error(message: string)

  datatype HttpResponse = HttpResponse(status: nat, body: Body)

  /** Either the function answers at once, or it sends `upstream` to the gateway. */
  datatype Step = Respond(response: HttpResponse) | Forward(upstream: seq<WireMessage>)

  predicate IsUserMessage(m: WireMessage) {
    m.role == "user"
  }

  /** `messages.filter(m => m.role === "user").pop()`: when present, a user message of the request. */
  function LatestUserMessage(messages: seq<WireMessage>): (r: Option<WireMessage>)
    ensures r.Some? ==> IsUserMessage(r.value) && r.value in messages
  {
    var users := Filter(messages, IsUserMessage);
    if users == [] then None else Some(users[|users| - 1])
  }

  /** No latest user message exists exactly when no message has role "user". */
  lemma LatestUserMessageNone(messages: seq<WireMessage>)
    ensures LatestUserMessage(messages).None? <==> forall i :: 0 <= i < |messages| ==> !IsUserMessage(messages[i])
  {
    FilterEmptyIff(messages, IsUserMessage);
  }

  /** Message `i` has role "user" and no later message does. */
  ghost predicate IsLastUserAt(messages: seq<WireMessage>, i: int) {
    && 0 <= i < |messages|
    && IsUserMessage(messages[i])
    && forall k :: i < k < |messages| ==> !IsUserMessage(messages[k])
  }

  /** The latest user message is a user message with no user message after it. */
  lemma {:induction false} LatestUserMessageIsLast(messages: seq<WireMessage>)
    requires LatestUserMessage(messages).Some?
    ensures exists i :: IsLastUserAt(messages, i) && messages[i] == LatestUserMessage(messages).value
    decreases |messages|
  {
    var init, last := messages[..|messages| - 1], messages[|messages| - 1];
    assert messages == init + [last];
    FilterAppend(init, [last], IsUserMessage);
    FilterSingle(last, IsUserMessage);
    if IsUserMessage(last) {
      assert IsLastUserAt(messages, |messages| - 1);
    } else {
      LatestUserMessageIsLast(init);
      var i :| IsLastUserAt(init, i) && init[i] == LatestUserMessage(init).value;
      LastUserExtends(init, last, i);
    }
  }

  /** Appending a non-user message keeps the last user message where it was. */
  lemma LastUserExtends(init: seq<WireMessage>, last: WireMessage, i: int)
    requires IsLastUserAt(init, i) && !IsUserMessage(last)
    ensures IsLastUserAt(init + [last], i) && (init + [last])[i] == init[i]
  {
    var m := init + [last];
    forall k | i < k < |m| ensures !IsUserMessage(m[k]) {
      if k < |init| {
        assert m[k] == init[k];
      }
    }
  }

  /**
   * `latestUserMessage && detectCrisis(latestUserMessage.content)`: a crisis request
   * holds a user message in which a crisis keyword occurs.
   */
  predicate IsCrisisRequest(messages: seq<WireMessage>): (b: bool)
    ensures b ==> exists i :: 0 <= i < |messages| && IsUserMessage(messages[i]) && DetectCrisis(CrisisKeywords, messages[i].content)
  {
    var latest := LatestUserMessage(messages);
    latest.Some? && DetectCrisis(CrisisKeywords, latest.value.content)
  }

  /** `!LOVABLE_API_KEY`: absent or the empty string. */
  predicate KeyMissing(apiKey: Option<string>) {
    apiKey.None? || apiKey.value == ""
  }

  /**
   * The part of the handler before the gateway request: the gateway is asked exactly
   * when a key is configured and the request is not a crisis; an immediate answer is
   * the configuration error or the flagged crisis script.
   */
  function Plan(apiKey: Option<string>, messages: seq<WireMessage>): (s: Step)
    ensures s.Forward? <==> !KeyMissing(apiKey) && !IsCrisisRequest(messages)
    ensures s.Respond? ==>
      || (s.response.status == 500 && KeyMissing(apiKey))
      || (s.response.body == Reply(CrisisResponse, true) && IsCrisisRequest(messages))
  {
    if KeyMissing(apiKey) then Respond(HttpResponse(500, Error(MissingKeyMessage)))
    else if IsCrisisRequest(messages) then Respond(HttpResponse(200, Reply(CrisisResponse, true)))
    else Forward([WireMessage("system", SystemPrompt)] + messages)
  }

  /** `response.ok`: a status in the 200 range. */
  predicate IsOk(status: nat) {
    200 <= status <= 299
  }

  /** `data.choices?.[0]?.message?.content || fallback`. */
  function ReplyContent(firstChoiceContent: Option<string>): (r: string)
    ensures r != ""
    ensures firstChoiceContent.Some? && firstChoiceContent.value != "" ==> r == firstChoiceContent.value
    ensures firstChoiceContent.None? || firstChoiceContent.value == "" ==> r == FallbackContent
  {
    if firstChoiceContent.Some? && firstChoiceContent.value != "" then firstChoiceContent.value
    else FallbackContent
  }

  /**
   * The part of the handler after the gateway request, including the catch block. The
   * status is one of four, a reply comes exactly with 200, and a generated reply is
   * never flagged as crisis and never empty.
   */
  function Complete(outcome: GatewayOutcome): (r: HttpResponse)
    ensures r.status in {200, 402, 429, 500}
    ensures r.body.Reply? <==> r.status == 200
    ensures r.body.Reply? ==> !r.body.isCrisis && r.body.content != ""
  {
    match outcome
    case Threw(message) => HttpResponse(500, Error(message))
    case Completed(status, content) =>
      if IsOk(status) then HttpResponse(200, Reply(ReplyContent(content), false))
      else if status == 429 then HttpResponse(429, Error(RateLimitMessage))
      else if status == 402 then HttpResponse(402, Error(UnavailableMessage))
      else HttpResponse(500, Error(GatewayErrorPrefix + NatToString(status)))
  }

  /**
   * The whole handler for one POST request: one of four statuses, a non-empty reply
   * exactly with 200, and a missing key always reported as 500.
   */
  function Handle(apiKey: Option<string>, messages: seq<WireMessage>, outcome: GatewayOutcome): (r: HttpResponse)
    ensures r.status in {200, 402, 429, 500}
    ensures r.body.Reply? <==> r.status == 200
    ensures r.body.Reply? ==> r.body.content != ""
    ensures KeyMissing(apiKey) ==> r.status == 500
  {
    match Plan(apiKey, messages)
    case Respond(response) => response
    case Forward(_) => Complete(outcome)
  }

  /** A missing key is reported before crisis detection, even for a crisis message, and no request is made. */
  lemma MissingKeyFirst(apiKey: Option<string>, messages: seq<WireMessage>, outcome: GatewayOutcome)
    requires KeyMissing(apiKey)
    ensures Plan(apiKey, messages).Respond?
    ensures Handle(apiKey, messages, outcome) == HttpResponse(500, Error(MissingKeyMessage))
  {
  }

  /** On a crisis the script is returned without a gateway request, so no gateway outcome can change it. */
  lemma CrisisShortCircuit(apiKey: Option<string>, messages: seq<WireMessage>, o1: GatewayOutcome, o2: GatewayOutcome)
    requires !KeyMissing(apiKey) && IsCrisisRequest(messages)
    ensures Plan(apiKey, messages) == Respond(HttpResponse(200, Reply(CrisisResponse, true)))
    ensures Handle(apiKey, messages, o1) == Handle(apiKey, messages, o2)
  {
  }

  /** Otherwise the upstream conversation is the system prompt followed by the request's messages, unchanged. */
  lemma UpstreamMessages(apiKey: Option<string>, messages: seq<WireMessage>)
    requires !KeyMissing(apiKey) && !IsCrisisRequest(messages)
    ensures Plan(apiKey, messages).Forward?
    ensures var up := Plan(apiKey, messages).upstream;
      |up| == |messages| + 1 && up[0] == WireMessage("system", SystemPrompt) && up[1..] == messages
  {
  }

  /** Only the latest user message is examined: a crisis in an earlier one is ignored. */
  lemma {:induction false} OnlyLatestUserMessageCounts(before: seq<WireMessage>, latest: WireMessage, after: seq<WireMessage>)
    requires IsUserMessage(latest)
    requires forall k :: 0 <= k < |after| ==> !IsUserMessage(after[k])
    ensures IsCrisisRequest(before + [latest] + after) <==> DetectCrisis(CrisisKeywords, latest.content)
  {
    var all := before + [latest] + after;
    FilterAppend(before + [latest], after, IsUserMessage);
    FilterAppend(before, [latest], IsUserMessage);
    FilterSingle(latest, IsUserMessage);
    NoUsers(after);
    assert Filter(all, IsUserMessage) == Filter(before, IsUserMessage) + [latest];
  }

  /** A sequence without user messages filters to nothing. */
  lemma {:induction false} NoUsers(s: seq<WireMessage>)
    requires forall k :: 0 <= k < |s| ==> !IsUserMessage(s[k])
    ensures Filter(s, IsUserMessage) == []
    decreases |s|
  {
    if s != [] {
      NoUsers(s[1..]);
    }
  }

  /** Without any user message there is no crisis. */
  lemma NoUserMessageNoCrisis(messages: seq<WireMessage>)
    requires forall k :: 0 <= k < |messages| ==> !IsUserMessage(messages[k])
    ensures !IsCrisisRequest(messages)
  {
    NoUsers(messages);
  }

  /** The gateway status mapping: ok gives 200; 429 and 402 pass through; every other failure is 500. */
  lemma GatewayStatusMapping(status: nat, content: Option<string>)
    ensures var r := Complete(Completed(status, content));
      && (IsOk(status) <==> r.status == 200)
      && (r.status == 200 ==> r.body == Reply(ReplyContent(content), false))
      && (status == 429 <==> r.status == 429 && r.body == Error(RateLimitMessage))
      && (status == 402 <==> r.status == 402 && r.body == Error(UnavailableMessage))
      && (!IsOk(status) && status != 429 && status != 402 <==> r.status == 500)
  {
  }

  /** A generated reply is never flagged as crisis: `isCrisis` is true only on the fixed script. */
  lemma ReplyFlagOnlyOnScript(apiKey: Option<string>, messages: seq<WireMessage>, outcome: GatewayOutcome)
    ensures var r := Handle(apiKey, messages, outcome);
      r.body.Reply? && r.body.isCrisis ==> r.body.content == CrisisResponse && IsCrisisRequest(messages)
  {
  }
}
