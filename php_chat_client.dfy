/**
 * The browser side of the PHP chat page: the module-level `isLoading` flag, the
 * messages shown, the crisis alert and the input box. `sendMessage` is split at its
 * single request: `SendMessage` is the part that runs before the request is sent,
 * `ReceiveResponse` the part that runs when it settles.
 */
module PhpChatClient {
  import opened Text
  import opened ChatFormat

  datatype Role = User | Assistant

  /** A message as shown: its role, its formatted HTML and whether it has the crisis style. */
  datatype Shown = Shown(role: Role, html: string, isCrisis: bool)

  /** How one request of `sendMessage` settled. */
  datatype Response =
    | ErrorBody                              // the JSON body has an `error` field
    | ContentBody(content: string, isCrisis: bool)
    | Failed                                 // `fetch` or `response.json()` threw

  /** A stored message as `chat.php?action=history` returns it. */
  datatype StoredMessage = StoredMessage(role: Role, content: string, isCrisisAlert: bool)

  const PleaseTryAgain: string := "Please try again."
  const SomethingWentWrong: string := "Sorry, something went wrong. " + PleaseTryAgain
  const CouldNotProcess: string := "Sorry, I couldn't process " + "your message. " + PleaseTryAgain

  /** The assistant message a settled request adds. */
  function AssistantMessage(r: Response): (m: Shown)
    ensures m.role == Assistant
    ensures m.isCrisis <==> r.ContentBody? && r.isCrisis
    ensures r.ErrorBody? ==> m.html == FormatContent(SomethingWentWrong)
    ensures r.Failed? ==> m.html == FormatContent(CouldNotProcess)
    ensures r.ContentBody? ==> m.html == FormatContent(r.content)
  {
    match r
    case ErrorBody => Shown(Assistant, FormatContent(SomethingWentWrong), false)
    case ContentBody(c, k) => Shown(Assistant, FormatContent(c), k)
    case Failed => Shown(Assistant, FormatContent(CouldNotProcess), false)
  }

  /** No '*', '[' or line terminator in `s`. */
  predicate Plain(s: string) {
    forall i :: 0 <= i < |s| ==> s[i] != '*' && s[i] != '[' && !IsJsLineTerminator(s[i])
  }

  lemma PlainConcat(a: string, b: string)
    requires Plain(a) && Plain(b)
    ensures Plain(a + b)
  {
    forall i | |a| <= i < |a + b| ensures (a + b)[i] == b[i - |a|] {
    }
  }

  /** The first apology is plain text: formatting leaves it as it is. */
  lemma SomethingWentWrongVerbatim()
    ensures FormatContent(SomethingWentWrong) == SomethingWentWrong
  {
    PlainConcat("Sorry, something went wrong. ", PleaseTryAgain);
    assert SomethingWentWrong[..2] == "So";
    NoMarkupIdentity(SomethingWentWrong);
  }

  /** The second apology is plain text too. */
  lemma CouldNotProcessVerbatim()
    ensures FormatContent(CouldNotProcess) == CouldNotProcess
  {
    PlainConcat("Sorry, I couldn't process ", "your message. ");
    PlainConcat("Sorry, I couldn't process " + "your message. ", PleaseTryAgain);
    assert CouldNotProcess[..2] == "So";
    NoMarkupIdentity(CouldNotProcess);
  }

  /** Plain text that does not start with "- " is returned unchanged. */
  lemma NoMarkupIdentity(s: string)
    requires Plain(s)
    requires !IsPrefix("- ", s)
    ensures FormatContent(s) == s
  {
    forall p | 0 <= p <= |s| ensures !BoldAt(s[p..]) && !LinkAt(s[p..]) {
      if p < |s| {
        assert s[p..][0] == s[p];
      }
    }
    FormatContentIdentity(s);
  }

  /** The shown form of a stored message. */
  function StoredShown(m: StoredMessage): Shown {
    Shown(m.role, FormatContent(m.content), m.isCrisisAlert)
  }

  class ChatView {
    var isLoading: bool
    var sendDisabled: bool
    var welcomeHidden: bool
    var crisisAlertShown: bool
    var shown: seq<Shown>
    var input: string
    /** The messages posted to `chat.php?action=send`, in order. */
    var requests: seq<string>

    /** The send button is disabled exactly while a request is outstanding. */
    ghost predicate Valid()
      reads this
    {
      sendDisabled == isLoading
    }

    constructor ()
      ensures Valid() && !isLoading && !welcomeHidden && !crisisAlertShown
      ensures shown == [] && input == "" && requests == []
    {
      isLoading, sendDisabled, welcomeHidden, crisisAlertShown := false, false, false, false;
      shown, input, requests := [], "", [];
    }

    /**
     * `loadChatHistory`: when the server returned a non-empty list, the welcome is hidden
     * and every stored message is shown in order; otherwise nothing changes.
     */
    method LoadHistory(messages: seq<StoredMessage>)
      modifies this
      ensures messages == [] ==> unchanged(this)
      ensures messages != [] ==> welcomeHidden
      ensures messages != [] ==>
        && |shown| == |old(shown)| + |messages|
        && shown[..|old(shown)|] == old(shown)
        && forall i :: 0 <= i < |messages| ==> shown[|old(shown)| + i] == StoredShown(messages[i])
      ensures isLoading == old(isLoading) && sendDisabled == old(sendDisabled)
      ensures crisisAlertShown == old(crisisAlertShown) && input == old(input) && requests == old(requests)
    {
      if |messages| > 0 {
        welcomeHidden := true;
        var i := 0;
        while i < |messages|
          invariant 0 <= i <= |messages| && welcomeHidden
          invariant |shown| == |old(shown)| + i && shown[..|old(shown)|] == old(shown)
          invariant forall k :: 0 <= k < i ==> shown[|old(shown)| + k] == StoredShown(messages[k])
          invariant isLoading == old(isLoading) && sendDisabled == old(sendDisabled)
          invariant crisisAlertShown == old(crisisAlertShown) && input == old(input) && requests == old(requests)
        {
          shown := shown + [StoredShown(messages[i])];
          i := i + 1;
        }
      }
    }

    /**
     * `sendMessage` up to its request: a no-op while loading; otherwise the welcome is
     * hidden, the user's message is shown, loading starts and the message is posted.
     */
    method SendMessage(message: string) returns (started: bool)
      requires Valid()
      modifies this
      ensures Valid()
      ensures started <==> !old(isLoading)
      ensures !started ==> unchanged(this)
      ensures started ==>
        && isLoading && welcomeHidden
        && shown == old(shown) + [Shown(User, FormatContent(message), false)]
        && requests == old(requests) + [message]
        && crisisAlertShown == old(crisisAlertShown) && input == old(input)
    {
      if isLoading {
        return false;
      }
      welcomeHidden := true;
      shown := shown + [Shown(User, FormatContent(message), false)];
      isLoading := true;
      sendDisabled := true;
      requests := requests + [message];
      started := true;
    }

    /**
     * `sendMessage` after its request settles: exactly one assistant message is shown,
     * the crisis alert is shown when the reply is flagged, and loading ends on every path.
     */
    method ReceiveResponse(r: Response)
      requires Valid()
      modifies this
      ensures Valid() && !isLoading
      ensures shown == old(shown) + [AssistantMessage(r)]
      ensures crisisAlertShown == (old(crisisAlertShown) || (r.ContentBody? && r.isCrisis))
      ensures welcomeHidden == old(welcomeHidden) && input == old(input) && requests == old(requests)
    {
      shown := shown + [AssistantMessage(r)];
      if r.ContentBody? && r.isCrisis {
        crisisAlertShown := true;
      }
      isLoading := false;
      sendDisabled := false;
    }

    /** A whole call of `sendMessage` when nothing else is outstanding: one user, then one assistant message. */
    method SendAndReceive(message: string, r: Response)
      requires Valid() && !isLoading
      modifies this
      ensures Valid() && !isLoading && welcomeHidden
      ensures shown == old(shown) + [Shown(User, FormatContent(message), false), AssistantMessage(r)]
      ensures requests == old(requests) + [message]
      ensures crisisAlertShown == (old(crisisAlertShown) || (r.ContentBody? && r.isCrisis))
      ensures input == old(input)
    {
      var started := SendMessage(message);
      ReceiveResponse(r);
    }

    /** `sendQuickMessage`: sends only when not loading. */
    method SendQuickMessage(message: string) returns (started: bool)
      requires Valid()
      modifies this
      ensures Valid()
      ensures started <==> !old(isLoading)
      ensures !started ==> unchanged(this)
      ensures started ==>
        && isLoading && welcomeHidden && requests == old(requests) + [message]
        && shown == old(shown) + [Shown(User, FormatContent(message), false)]
        && crisisAlertShown == old(crisisAlertShown) && input == old(input)
    {
      started := false;
      if !isLoading {
        started := SendMessage(message);
      }
    }

    /**
     * The form's submit handler: the trimmed input is sent when it is non-empty and no
     * request is outstanding, and then the input is cleared; otherwise nothing changes.
     */
    method Submit() returns (started: bool)
      requires Valid()
      modifies this
      ensures Valid()
      ensures started <==> Trim(old(input), IsJsSpace) != "" && !old(isLoading)
      ensures !started ==> unchanged(this)
      ensures started ==>
        && input == "" && isLoading && welcomeHidden
        && crisisAlertShown == old(crisisAlertShown)
        && requests == old(requests) + [Trim(old(input), IsJsSpace)]
        && shown == old(shown) + [Shown(User, FormatContent(Trim(old(input), IsJsSpace)), false)]
    {
      var message := Trim(input, IsJsSpace);
      started := false;
      if message != "" && !isLoading {
        started := SendMessage(message);
        input := "";
      }
    }
  }
}
