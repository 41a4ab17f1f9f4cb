/**
 * The React chat page: one chat turn appends the user's message, calls the chat
 * function, appends the reply, and records rows in `chat_messages` and
 * `mood_entries`. The call is split at its single network request, so that what
 * holds while the request is outstanding can be stated.
 */
module ChatPage {
  import opened Optional
  import opened Ordering
  import EdgeChat

  datatype Role = User | Assistant

  /** A message on screen; `isCrisis` is false where the source leaves it undefined. */
  datatype Message = Message(id: string, role: Role, content: string, isCrisis: bool)

  /** A row sent to `chat_messages`; the user's row carries no crisis column. */
  datatype ChatInsert = ChatInsert(userId: string, role: Role, content: string, isCrisisAlert: Option<bool>)

  /** A row sent to `mood_entries`. */
  datatype MoodInsert = MoodInsert(userId: string, mood: string, notes: string)

  datatype Toast = CrisisToast | FailureToast

  /** What `supabase.functions.invoke("chat", ...)` produced. */
  datatype InvokeOutcome =
    | InvokeError
    | InvokeData(content: string, isCrisis: bool, detectedMood: Option<string>)

  function RoleName(r: Role): string {
    match r
    case User => "user"
    case Assistant => "assistant"
  }

  /** `m => ({ role: m.role, content: m.content })`. */
  function ToWire(m: Message): EdgeChat.WireMessage {
    EdgeChat.WireMessage(RoleName(m.role), m.content)
  }

  /** The request body's `messages`: every message mapped to role and content, in order. */
  function Payload(ms: seq<Message>): (r: seq<EdgeChat.WireMessage>)
    ensures |r| == |ms|
    ensures forall i :: 0 <= i < |ms| ==> r[i] == ToWire(ms[i])
    decreases |ms|
  {
    if ms == [] then [] else Payload(ms[..|ms| - 1]) + [ToWire(ms[|ms| - 1])]
  }

  /** The payload of a turn is the earlier conversation followed by the new message, last. */
  lemma {:induction false} PayloadOfTurn(previous: seq<Message>, userMessage: Message)
    ensures Payload(previous + [userMessage]) == Payload(previous) + [ToWire(userMessage)]
  {
    assert (previous + [userMessage])[..|previous|] == previous;
  }

  /** JavaScript truthiness of an optional string: present and non-empty. */
  predicate Truthy(s: Option<string>) {
    s.Some? && s.value != ""
  }

  const MoodNotePrefix: string := "Auto-detected from chat: \""

  /** The note of an auto-logged mood: the first 80 characters, "..." when longer, in quotes. */
  function MoodNote(content: string): (r: string)
    ensures |content| <= 80 ==> r == MoodNotePrefix + content + "\""
    ensures |content| > 80 ==> r == MoodNotePrefix + content[..80] + "...\""
    ensures |r| <= |MoodNotePrefix| + 84
  {
    MoodNotePrefix + Take(content, 80) + (if |content| > 80 then "..." else "") + "\""
  }

  /** `messages.some(m => m.isCrisis)`, which shows the crisis banner. */
  predicate ShowsCrisisBanner(ms: seq<Message>)
    decreases |ms|
  {
    |ms| > 0 && (ms[0].isCrisis || ShowsCrisisBanner(ms[1..]))
  }

  /** The banner shows exactly when some message is flagged. */
  lemma {:induction false} ShowsCrisisBannerIff(ms: seq<Message>)
    ensures ShowsCrisisBanner(ms) <==> exists i :: 0 <= i < |ms| && ms[i].isCrisis
    decreases |ms|
  {
    if ms != [] {
      ShowsCrisisBannerIff(ms[1..]);
      if ShowsCrisisBanner(ms[1..]) {
        var i :| 0 <= i < |ms| - 1 && ms[1..][i].isCrisis;
        assert ms[i + 1].isCrisis;
      }
      forall i | 0 < i < |ms| && ms[i].isCrisis ensures ShowsCrisisBanner(ms[1..]) {
        assert ms[1..][i - 1] == ms[i];
      }
    }
  }

  /** Appending a message turns the banner on when it is flagged and never turns it off. */
  lemma BannerAfterAppend(ms: seq<Message>, m: Message)
    ensures ShowsCrisisBanner(ms + [m]) <==> ShowsCrisisBanner(ms) || m.isCrisis
  {
    ShowsCrisisBannerIff(ms);
    ShowsCrisisBannerIff(ms + [m]);
    if ShowsCrisisBanner(ms) {
      var i :| 0 <= i < |ms| && ms[i].isCrisis;
      assert (ms + [m])[i] == ms[i];
    }
    if ShowsCrisisBanner(ms + [m]) && !m.isCrisis {
      var i :| 0 <= i < |ms| + 1 && (ms + [m])[i].isCrisis;
      assert i < |ms| && ms[i] == (ms + [m])[i];
    }
    assert (ms + [m])[|ms|] == m;
  }

  /** How the client sees a response of the chat edge function: a non-2xx status is an error. */
  function InvokeOf(r: EdgeChat.HttpResponse): (o: InvokeOutcome)
    ensures o.InvokeData? ==> o.detectedMood.None?
  {
    if 200 <= r.status <= 299 && r.body.Reply? then InvokeData(r.body.content, r.body.isCrisis, None)
    else InvokeError
  }

  /** The edge function never reports a mood, so a turn against it never logs one. */
  lemma EdgeFunctionNeverLogsMood(apiKey: Option<string>, msgs: seq<EdgeChat.WireMessage>, g: EdgeChat.GatewayOutcome)
    ensures var o := InvokeOf(EdgeChat.Handle(apiKey, msgs, g));
      o.InvokeData? ==> !Truthy(o.detectedMood)
  {
  }

  /** The edge function's rate-limit answer reaches the page as an error. */
  lemma RateLimitIsFailure(apiKey: Option<string>, msgs: seq<EdgeChat.WireMessage>)
    requires !EdgeChat.KeyMissing(apiKey) && !EdgeChat.IsCrisisRequest(msgs)
    ensures InvokeOf(EdgeChat.Handle(apiKey, msgs, EdgeChat.Completed(429, None))) == InvokeError
  {
  }

  /** The page's state. */
  class ChatPage {
    var messages: seq<Message>
    var isLoading: bool
    var chatInserts: seq<ChatInsert>
    var moodInserts: seq<MoodInsert>
    var toasts: seq<Toast>

    constructor ()
      ensures messages == [] && !isLoading && chatInserts == [] && moodInserts == [] && toasts == []
    {
      messages, isLoading, chatInserts, moodInserts, toasts := [], false, [], [], [];
    }

    /**
     * `sendMessage` up to the invoke: without a user nothing happens; otherwise the
     * message is shown, loading starts, the user row is inserted and the payload is built.
     */
    method BeginTurn(user: Option<string>, content: string, messageId: string)
      returns (payload: Option<seq<EdgeChat.WireMessage>>)
      modifies this
      ensures user.None? ==> payload.None? && unchanged(this)
      ensures user.Some? ==>
        && messages == old(messages) + [Message(messageId, User, content, false)]
        && isLoading
        && chatInserts == old(chatInserts) + [ChatInsert(user.value, User, content, None)]
        && moodInserts == old(moodInserts) && toasts == old(toasts)
        && payload == Some(Payload(old(messages)) + [EdgeChat.WireMessage("user", content)])
    {
      if user.None? {
        return None;
      }
      var userMessage := Message(messageId, User, content, false);
      var previous := messages;
      messages := messages + [userMessage];
      isLoading := true;
      chatInserts := chatInserts + [ChatInsert(user.value, User, content, None)];
      PayloadOfTurn(previous, userMessage);
      payload := Some(Payload(previous + [userMessage]));
    }

    /**
     * `sendMessage` after the invoke: on an error only the failure toast; on data the
     * reply is shown and stored, a mood is logged when one was reported, and a crisis
     * toast shown on a crisis. Loading ends on both paths (`finally`).
     */
    method FinishTurn(userId: string, content: string, outcome: InvokeOutcome, replyId: string)
      modifies this
      ensures !isLoading
      ensures outcome.InvokeError? ==>
        && messages == old(messages) && chatInserts == old(chatInserts)
        && moodInserts == old(moodInserts) && toasts == old(toasts) + [FailureToast]
      ensures outcome.InvokeData? ==>
        && messages == old(messages) + [Message(replyId, Assistant, outcome.content, outcome.isCrisis)]
        && chatInserts == old(chatInserts) + [ChatInsert(userId, Assistant, outcome.content, Some(outcome.isCrisis))]
        && moodInserts == old(moodInserts) +
             (if Truthy(outcome.detectedMood) then [MoodInsert(userId, outcome.detectedMood.value, MoodNote(content))] else [])
        && toasts == old(toasts) + (if outcome.isCrisis then [CrisisToast] else [])
    {
      match outcome {
        case InvokeError =>
          toasts := toasts + [FailureToast];
        case InvokeData(reply, isCrisis, detectedMood) =>
          messages := messages + [Message(replyId, Assistant, reply, isCrisis)];
          chatInserts := chatInserts + [ChatInsert(userId, Assistant, reply, Some(isCrisis))];
          if Truthy(detectedMood) {
            moodInserts := moodInserts + [MoodInsert(userId, detectedMood.value, MoodNote(content))];
          }
          if isCrisis {
            toasts := toasts + [CrisisToast];
          }
      }
      isLoading := false;
    }

    /** The whole turn for a given invoke outcome. */
    method SendMessage(user: Option<string>, content: string, messageId: string, outcome: InvokeOutcome, replyId: string)
      returns (payload: Option<seq<EdgeChat.WireMessage>>)
      modifies this
      ensures user.None? ==> payload.None? && unchanged(this)
      ensures user.Some? ==>
        && !isLoading
        && payload == Some(Payload(old(messages)) + [EdgeChat.WireMessage("user", content)])
        && messages == old(messages) + [Message(messageId, User, content, false)] +
             (if outcome.InvokeData? then [Message(replyId, Assistant, outcome.content, outcome.isCrisis)] else [])
        && chatInserts == old(chatInserts) + [ChatInsert(user.value, User, content, None)] +
             (if outcome.InvokeData? then [ChatInsert(user.value, Assistant, outcome.content, Some(outcome.isCrisis))] else [])
        && moodInserts == old(moodInserts) +
             (if outcome.InvokeData? && Truthy(outcome.detectedMood)
              then [MoodInsert(user.value, outcome.detectedMood.value, MoodNote(content))] else [])
        && toasts == old(toasts) +
             (if outcome.InvokeError? then [FailureToast] else if outcome.isCrisis then [CrisisToast] else [])
    {
      payload := BeginTurn(user, content, messageId);
      if user.Some? {
        FinishTurn(user.value, content, outcome, replyId);
      }
    }
  }
}
