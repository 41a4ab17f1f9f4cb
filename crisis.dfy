/**
 * The crisis-keyword detector and the fixed crisis script. The PHP backend and the
 * edge function declare the same twelve keywords and the same script.
 */
module Crisis {
  import opened Text

  /** The declared keyword list, in declaration order. */
  const CrisisKeywords: seq<string> := [
    "suicide", "kill myself", "end my life", "don't want to live",
    "want to die", "self harm", "hurt myself", "no point in living",
    "better off dead", "end it all", "take my life", "suicidal"
  ]

  /** The fixed safety script returned instead of a generated reply. */
  const CrisisResponse: string := "I'm deeply concerned about what you've shared, and I want you to know that you're not alone. Your life matters, and there are people who want to help.\n\n**Please reach out to a crisis helpline immediately:**\n- **National Suicide Prevention Lifeline (US):** 988 or 1-800-273-8255\n- **Crisis Text Line:** Text HOME to 741741\n- **International Association for Suicide Prevention:** https://www.iasp.info/resources/Crisis_Centres/\n\nIf you're in immediate danger, please call emergency services (911 in the US) or go to your nearest emergency room.\n\nI'm here to listen and support you, but professional help is the most important step right now. You deserve care and support. \U{1F499}"

  /**
   * The keyword loop: the first keyword found in `text` ends the search with true.
   * It answers true exactly when some keyword of the list occurs in the text.
   */
  predicate AnyKeywordIn(keywords: seq<string>, text: string): (b: bool)
    ensures b <==> exists j :: 0 <= j < |keywords| && Contains(text, keywords[j])
    decreases |keywords|
  {
    if |keywords| == 0 then false
    else
      var later := AnyKeywordIn(keywords[1..], text);
      assert forall j :: 0 < j < |keywords| ==> keywords[1..][j - 1] == keywords[j];
      Contains(text, keywords[0]) || later
  }

  /**
   * `detectCrisis`, with the keyword list as a parameter: true exactly when some
   * keyword occurs in the lower-cased message.
   */
  predicate DetectCrisis(keywords: seq<string>, message: string): (b: bool)
    ensures b <==> exists j :: 0 <= j < |keywords| && Contains(Lower(message), keywords[j])
    ensures keywords == [] ==> !b
  {
    AnyKeywordIn(keywords, Lower(message))
  }

  /** Crisis is detected exactly when some keyword occurs, at some index, in the lower-cased message. */
  lemma DetectCrisisIff(keywords: seq<string>, message: string)
    ensures DetectCrisis(keywords, message) <==>
      exists j, i :: 0 <= j < |keywords| && OccursAt(Lower(message), keywords[j], i)
  {
    var l := Lower(message);
    if DetectCrisis(keywords, message) {
      var j :| 0 <= j < |keywords| && Contains(l, keywords[j]);
      ContainsIff(l, keywords[j]);
      var i :| OccursAt(l, keywords[j], i);
    }
    forall j, i | 0 <= j < |keywords| && OccursAt(l, keywords[j], i)
      ensures DetectCrisis(keywords, message)
    {
      ContainsIff(l, keywords[j]);
    }
  }

  /** Two messages that differ only in ASCII letter case get the same verdict. */
  lemma DetectCrisisIgnoresCase(keywords: seq<string>, m1: string, m2: string)
    requires |m1| == |m2|
    requires forall i :: 0 <= i < |m1| ==> LowerChar(m1[i]) == LowerChar(m2[i])
    ensures DetectCrisis(keywords, m1) == DetectCrisis(keywords, m2)
  {
    assert Lower(m1) == Lower(m2);
  }

  /** Appending or prepending text never hides a detected keyword. */
  lemma {:induction false} DetectCrisisExtends(keywords: seq<string>, m: string, extra: string)
    requires DetectCrisis(keywords, m)
    ensures DetectCrisis(keywords, m + extra) && DetectCrisis(keywords, extra + m)
  {
    var j :| 0 <= j < |keywords| && Contains(Lower(m), keywords[j]);
    ContainsAppend(Lower(m), Lower(extra), keywords[j]);
    LowerAppend(m, extra);
    LowerAppend(extra, m);
  }

  /** A mixed-case crisis phrase is detected by the declared list. */
  lemma {:induction false} MixedCaseExampleDetected()
    ensures DetectCrisis(CrisisKeywords, "I Want To Die")
  {
    var s := "I Want To Die";
    var l := Lower(s);
    assert l[2..13] == "want to die" by {
      assert forall i :: 2 <= i < 13 ==> l[i] == LowerChar(s[i]);
    }
    assert OccursAt(l, CrisisKeywords[4], 2);
    ContainsIff(l, CrisisKeywords[4]);
  }
}
