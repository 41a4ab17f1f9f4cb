/**
 * The PHP chat endpoint: the rule-based reply table, one chat turn over the
 * `chat_messages` table, and the history query. The table is a sequence of rows in
 * insertion order; `created_at` is an integer timestamp supplied by the caller.
 */
module PhpChatApi {
  import opened Text
  import opened Crisis
  import opened Ordering
  import opened Optional

  datatype Role = User | Assistant

  /** One row of `chat_messages`. */
  datatype ChatRow = ChatRow(userId: int, role: Role, content: string, isCrisisAlert: bool, createdAt: int)

  /** The keyword replies in declaration order; the first key found wins. */
  const ResponseTable: seq<(string, string)> := [
    ("hello", "Hello! I'm psybot, your mental wellness companion. How are you feeling today?"),
    ("hi", "Hi there! I'm here to listen and support you. What's on your mind?"),
    ("sad", "I'm sorry to hear you're feeling sad. It's okay to feel this way. Would you like to talk about what's troubling you?"),
    ("anxious", "Anxiety can be really challenging. Try taking some deep breaths - inhale for 4 counts, hold for 4, exhale for 4. Would you like some more coping strategies?"),
    ("stressed", "Stress is a common experience. Let's work through this together. What's causing you the most stress right now?"),
    ("happy", "That's wonderful to hear! Celebrating positive moments is important. What's bringing you joy today?"),
    ("thank", "You're welcome! Remember, I'm always here when you need to talk. Take care of yourself! \U{1F499}"),
    ("help", "I'm here to help! You can talk to me about how you're feeling, and I'll do my best to provide support and coping strategies."),
    ("calm", "Let's practice a calming exercise together. Close your eyes, take a slow deep breath in through your nose, and exhale slowly through your mouth. Repeat this 5 times."),
    ("sleep", "Sleep issues can really affect mental health. Try creating a relaxing bedtime routine, avoid screens before bed, and keep your room dark and cool.")
  ]

  /** The reply when no key of the table occurs in the message. */
  const DefaultReply: string :=
    "Thank you for sharing that with me. I'm here to listen and support you. Can you tell me more about how you're feeling?"

  /**
   * The loop over the reply table: the reply of the first key occurring in `text`.
   * The result is the default or the reply of a key that occurs in `text`.
   */
  function FirstReply(table: seq<(string, string)>, text: string): (r: string)
    ensures r == DefaultReply || exists k :: 0 <= k < |table| && r == table[k].1 && Contains(text, table[k].0)
    decreases |table|
  {
    if table == [] then DefaultReply
    else if Contains(text, table[0].0) then table[0].1
    else
      var later := FirstReply(table[1..], text);
      assert forall k :: 0 < k < |table| ==> table[1..][k - 1] == table[k];
      later
  }

  /** Every reply of the table, and the default, is shorter than the crisis script. */
  lemma RepliesShorterThanScript()
    ensures |DefaultReply| < 200 <= |CrisisResponse|
    ensures forall k :: 0 <= k < |ResponseTable| ==> |ResponseTable[k].1| < 200
  {
    assert |ResponseTable[0].1| == 77 && |ResponseTable[1].1| == 66 && |ResponseTable[2].1| == 116;
    assert |ResponseTable[3].1| == 156 && |ResponseTable[4].1| == 110 && |ResponseTable[5].1| == 99;
    assert |ResponseTable[6].1| == 89 && |ResponseTable[7].1| == 124 && |ResponseTable[8].1| == 165;
    assert |ResponseTable[9].1| == 146;
  }

  /**
   * `generateAIResponse`: the history argument is accepted and never read. The reply
   * is the default or the reply of a key occurring in the lower-cased message, and
   * never the crisis script.
   */
  function GenerateAIResponse(message: string, history: seq<ChatRow>): (r: string)
    ensures r == DefaultReply || exists k :: 0 <= k < |ResponseTable| && r == ResponseTable[k].1 && Contains(Lower(message), ResponseTable[k].0)
    ensures r != CrisisResponse
  {
    RepliesShorterThanScript();
    FirstReply(ResponseTable, Lower(message))
  }

  /** When key `j` is the first key occurring in `text`, its reply is chosen. */
  lemma {:induction false} FirstReplyPicksFirst(table: seq<(string, string)>, text: string, j: nat)
    requires j < |table| && Contains(text, table[j].0)
    requires forall k :: 0 <= k < j ==> !Contains(text, table[k].0)
    ensures FirstReply(table, text) == table[j].1
    decreases j
  {
    if j > 0 {
      assert !Contains(text, table[0].0);
      forall k | 0 <= k < j - 1 ensures !Contains(text, table[1..][k].0) {
        assert table[1..][k] == table[k + 1];
      }
      FirstReplyPicksFirst(table[1..], text, j - 1);
    }
  }

  /** When no key occurs in `text`, the default reply is chosen. */
  lemma {:induction false} FirstReplyDefault(table: seq<(string, string)>, text: string)
    requires forall k :: 0 <= k < |table| ==> !Contains(text, table[k].0)
    ensures FirstReply(table, text) == DefaultReply
    decreases |table|
  {
    if table != [] {
      assert !Contains(text, table[0].0);
      forall k | 0 <= k < |table| - 1 ensures !Contains(text, table[1..][k].0) {
        assert table[1..][k] == table[k + 1];
      }
      FirstReplyDefault(table[1..], text);
    }
  }

  /** "hello" is checked before "hi", so a greeting containing both gets the hello reply. */
  lemma HelloBeatsHi(message: string, history: seq<ChatRow>)
    requires Contains(Lower(message), "hello")
    ensures GenerateAIResponse(message, history) == ResponseTable[0].1
  {
    FirstReplyPicksFirst(ResponseTable, Lower(message), 0);
  }

  /** Any message containing "hi" (such as "this") never receives the "happy" reply. */
  lemma HiShadowsHappy(message: string, history: seq<ChatRow>)
    requires Contains(Lower(message), "hi")
    ensures GenerateAIResponse(message, history) != ResponseTable[5].1
  {
    var text := Lower(message);
    if Contains(text, "hello") {
      FirstReplyPicksFirst(ResponseTable, text, 0);
      assert |ResponseTable[0].1| == 77 && |ResponseTable[5].1| == 99;
    } else {
      FirstReplyPicksFirst(ResponseTable, text, 1);
      assert |ResponseTable[1].1| == 66;
    }
  }

  /** The reply depends on the message alone. */
  lemma ReplyIgnoresHistory(message: string, h1: seq<ChatRow>, h2: seq<ChatRow>)
    ensures GenerateAIResponse(message, h1) == GenerateAIResponse(message, h2)
  {
  }

  /**
   * The keyword list `detectCrisis` sees during a request. The list is assigned by
   * top-level code placed after the action dispatch, so while `sendMessage` runs the
   * global is still unset and the loop has nothing to iterate over.
   */
  const KeywordsAtDispatch: seq<string> := []

  /** As written, crisis detection in the PHP endpoint never fires. */
  lemma AsWrittenNeverDetects(message: string)
    ensures !DetectCrisis(KeywordsAtDispatch, message)
  {
  }

  /** The message "I Want To Die" shows the gap: the intended list flags it, the list in effect does not. */
  lemma AsWrittenMissesCrisisExample()
    ensures DetectCrisis(CrisisKeywords, "I Want To Die")
    ensures !DetectCrisis(KeywordsAtDispatch, "I Want To Die")
  {
    MixedCaseExampleDetected();
  }

  /** PHP `empty()` on a string: true for "" and for "0". */
  predicate IsPhpEmpty(s: string) {
    s == "" || s == "0"
  }

  /**
   * `$data['message'] ?? ''` followed by `trim`: the body with only PHP white space
   * removed before and after it, leaving none at either end; empty when the field is
   * absent or blank.
   */
  function IncomingMessage(body: Option<string>): (r: string)
    ensures body.None? ==> r == ""
    ensures r != "" ==> !IsPhpSpace(r[0]) && !IsPhpSpace(r[|r| - 1])
    ensures body.Some? ==> (r == "" <==> forall i :: 0 <= i < |body.value| ==> IsPhpSpace(body.value[i]))
    ensures body.Some? ==> Contains(body.value, r)
    ensures body.Some? ==> exists a :: PaddedAt(body.value, r, a, IsPhpSpace)
  {
    var raw := body.GetOr("");
    TrimShape(raw, IsPhpSpace);
    TrimEmptyIff(raw, IsPhpSpace);
    var r := Trim(raw, IsPhpSpace);
    assert OccursAt(raw, r, |raw| - |TrimLeft(raw, IsPhpSpace)|);
    ContainsIff(raw, r);
    r
  }

  /** The rows of `chat_messages` that belong to `userId`. */
  predicate OwnedBy(userId: int, row: ChatRow) {
    row.userId == userId
  }

  /** The user's rows, oldest first: `WHERE user_id = ? ORDER BY created_at ASC`. */
  function HistoryOf(rows: seq<ChatRow>, userId: int): (r: seq<ChatRow>)
    ensures SortedBy(r, (row: ChatRow) => row.createdAt)
    ensures multiset(r) == multiset(Filter(rows, (row: ChatRow) => OwnedBy(userId, row)))
    ensures forall row :: row in r ==> row.userId == userId && row in rows
    ensures forall row :: row in rows && row.userId == userId ==> row in r
  {
    var mine := Filter(rows, (row: ChatRow) => OwnedBy(userId, row));
    SortByMembers(mine, (row: ChatRow) => row.createdAt);
    SortBy(mine, (row: ChatRow) => row.createdAt)
  }

  /** The context query of a non-crisis turn: the user's ten newest rows, newest first. */
  function RecentHistory(rows: seq<ChatRow>, userId: int): (r: seq<ChatRow>)
    ensures |r| <= 10
    ensures forall row :: row in r ==> row.userId == userId && row in rows
  {
    var mine := Filter(rows, (row: ChatRow) => OwnedBy(userId, row));
    SortByMembers(mine, (row: ChatRow) => -row.createdAt);
    var sorted := SortBy(mine, (row: ChatRow) => -row.createdAt);
    var r := Take(sorted, 10);
    assert forall row :: row in r ==> row in sorted;
    r
  }

  /** What a turn answers. */
  datatype ChatReply =
    | NotAuthenticated
    | InvalidAction
    | EmptyMessage
    | Sent(content: string, isCrisis: bool)
    | HistoryRows(messages: seq<ChatRow>)

  /** The reply of a turn and the rows it appends to `chat_messages`. */
  datatype Turn = Turn(reply: ChatReply, appended: seq<ChatRow>)

  /**
   * The assistant text: the crisis script on a crisis, the keyword reply otherwise.
   * The script appears exactly on a crisis, and the history never changes the reply.
   */
  function AssistantContent(isCrisis: bool, message: string, rows: seq<ChatRow>, userId: int): (r: string)
    ensures r == CrisisResponse <==> isCrisis
    ensures !isCrisis ==> r == FirstReply(ResponseTable, Lower(message))
  {
    if isCrisis then CrisisResponse else GenerateAIResponse(message, RecentHistory(rows, userId))
  }

  /** `sendMessage` as a function of the table before the turn. */
  function SendTurn(keywords: seq<string>, rows: seq<ChatRow>, userId: int, body: Option<string>, now: int): (t: Turn)
    ensures IsPhpEmpty(IncomingMessage(body)) <==> t.reply == EmptyMessage
    ensures t.reply == EmptyMessage ==> t.appended == []
    ensures t.reply != EmptyMessage ==>
      && |t.appended| == 2
      && t.appended[0].role == User && t.appended[1].role == Assistant
      && t.appended[0].userId == userId && t.appended[1].userId == userId
      && t.appended[0].content == IncomingMessage(body)
      && t.appended[0].isCrisisAlert == DetectCrisis(keywords, IncomingMessage(body))
      && t.appended[1].isCrisisAlert == t.appended[0].isCrisisAlert
      && t.reply == Sent(t.appended[1].content, t.appended[0].isCrisisAlert)
    ensures t.reply != EmptyMessage && DetectCrisis(keywords, IncomingMessage(body)) ==>
      t.appended[1].content == CrisisResponse
  {
    var message := IncomingMessage(body);
    if IsPhpEmpty(message) then Turn(EmptyMessage, [])
    else
      var isCrisis := DetectCrisis(keywords, message);
      var userRow := ChatRow(userId, User, message, isCrisis, now);
      var content := AssistantContent(isCrisis, message, rows + [userRow], userId);
      Turn(Sent(content, isCrisis), [userRow, ChatRow(userId, Assistant, content, isCrisis, now)])
  }

  /** A message made only of white space, or "0", is refused and stores nothing. */
  lemma BlankOrZeroRefused(keywords: seq<string>, rows: seq<ChatRow>, userId: int, raw: string, now: int)
    requires (forall i :: 0 <= i < |raw| ==> IsPhpSpace(raw[i])) || Trim(raw, IsPhpSpace) == "0"
    ensures SendTurn(keywords, rows, userId, Some(raw), now) == Turn(EmptyMessage, [])
  {
    TrimEmptyIff(raw, IsPhpSpace);
  }

  /** A non-crisis turn answers with the keyword reply to the trimmed message. */
  lemma NonCrisisUsesKeywordReply(keywords: seq<string>, rows: seq<ChatRow>, userId: int, body: Option<string>, now: int)
    requires !IsPhpEmpty(IncomingMessage(body)) && !DetectCrisis(keywords, IncomingMessage(body))
    ensures SendTurn(keywords, rows, userId, body, now).reply
         == Sent(FirstReply(ResponseTable, Lower(IncomingMessage(body))), false)
  {
  }

  /** The `chat_messages` table. */
  class ChatMessagesTable {
    var rows: seq<ChatRow>

    constructor ()
      ensures rows == []
    {
      rows := [];
    }

    /** `sendMessage` for the session user, searching with `keywords`. */
    method SendMessage(keywords: seq<string>, userId: int, body: Option<string>, now: int) returns (reply: ChatReply)
      modifies this
      ensures var t := SendTurn(keywords, old(rows), userId, body, now);
        reply == t.reply && rows == old(rows) + t.appended
    {
      var message := IncomingMessage(body);
      if IsPhpEmpty(message) {
        reply := EmptyMessage;
        return;
      }
      var isCrisis := DetectCrisis(keywords, message);
      rows := rows + [ChatRow(userId, User, message, isCrisis, now)];
      var content: string;
      if isCrisis {
        content := CrisisResponse;
      } else {
        var history := RecentHistory(rows, userId);
        content := GenerateAIResponse(message, history);
      }
      rows := rows + [ChatRow(userId, Assistant, content, isCrisis, now)];
      reply := Sent(content, isCrisis);
    }

    /** `getHistory` for the session user. */
    function GetHistory(userId: int): (r: seq<ChatRow>)
      reads this
      ensures forall row :: row in r <==> row in rows && row.userId == userId
      ensures SortedBy(r, (row: ChatRow) => row.createdAt)
      ensures multiset(r) == multiset(Filter(rows, (row: ChatRow) => OwnedBy(userId, row)))
    {
      HistoryOf(rows, userId)
    }

    /**
     * One request: the session check, then the action dispatch. Crisis detection
     * uses the declared keyword list (the evident intent; see `KeywordsAtDispatch`).
     */
    method Handle(session: Option<int>, action: string, body: Option<string>, now: int) returns (reply: ChatReply)
      modifies this
      ensures session.None? ==> reply == NotAuthenticated && rows == old(rows)
      ensures session.Some? && action == "send" ==>
        var t := SendTurn(CrisisKeywords, old(rows), session.value, body, now);
        reply == t.reply && rows == old(rows) + t.appended
      ensures session.Some? && action == "history" ==>
        reply == HistoryRows(HistoryOf(old(rows), session.value)) && rows == old(rows)
      ensures session.Some? && action != "send" && action != "history" ==>
        reply == InvalidAction && rows == old(rows)
    {
      if session.None? {
        return NotAuthenticated;
      }
      if action == "send" {
        reply := SendMessage(CrisisKeywords, session.value, body, now);
      } else if action == "history" {
        reply := HistoryRows(GetHistory(session.value));
      } else {
        reply := InvalidAction;
      }
    }
  }
}
