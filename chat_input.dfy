/**
 * The React chat input box: a text state, a submit guard on the trimmed text and the
 * `disabled` prop, and Enter-without-Shift as a shortcut for submitting.
 */
module ChatInput {
  import opened Text

  /** The send button's `disabled`: the trimmed text is empty or the prop is set. */
  predicate SendDisabled(message: string, disabled: bool) {
    Trim(message, IsJsSpace) == "" || disabled
  }

  class ChatInput {
    var message: string
    /** The calls made to `onSend`, in order. */
    var sent: seq<string>

    constructor ()
      ensures message == "" && sent == []
    {
      message, sent := "", [];
    }

    /** The text area's `onChange`. */
    method SetMessage(value: string)
      modifies this
      ensures message == value && sent == old(sent)
    {
      message := value;
    }

    /**
     * `handleSubmit`: sends the trimmed text exactly when the send button is enabled,
     * then clears the box; otherwise nothing changes. What is sent is never empty and
     * has no white space at either end.
     */
    method HandleSubmit(disabled: bool)
      modifies this
      ensures !SendDisabled(old(message), disabled) ==>
        sent == old(sent) + [Trim(old(message), IsJsSpace)] && message == ""
      ensures SendDisabled(old(message), disabled) ==> unchanged(this)
      ensures |sent| > |old(sent)| ==>
        var t := sent[|sent| - 1];
        t != "" && !IsJsSpace(t[0]) && !IsJsSpace(t[|t| - 1])
    {
      var t := Trim(message, IsJsSpace);
      if t != "" && !disabled {
        TrimShape(message, IsJsSpace);
        sent := sent + [t];
        message := "";
      }
    }

    /** `handleKeyDown`: Enter without Shift submits; every other key, Shift+Enter included, does nothing here. */
    method HandleKeyDown(key: string, shiftKey: bool, disabled: bool)
      modifies this
      ensures key == "Enter" && !shiftKey && !SendDisabled(old(message), disabled) ==>
        sent == old(sent) + [Trim(old(message), IsJsSpace)] && message == ""
      ensures !(key == "Enter" && !shiftKey && !SendDisabled(old(message), disabled)) ==> unchanged(this)
    {
      if key == "Enter" && !shiftKey {
        HandleSubmit(disabled);
      }
    }
  }

  /** The button is disabled exactly when the text is all white space or the prop is set. */
  lemma SendDisabledIff(message: string, disabled: bool)
    ensures SendDisabled(message, disabled) <==> disabled || forall i :: 0 <= i < |message| ==> IsJsSpace(message[i])
  {
    TrimEmptyIff(message, IsJsSpace);
  }
}
