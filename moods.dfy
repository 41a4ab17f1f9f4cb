/**
 * The five mood values shared by the PHP mood API and both clients, and their
 * wire keys ("very_sad" ... "very_happy").
 */
module Moods {
  import opened Optional

  datatype Mood = VerySad | Sad | Neutral | Happy | VeryHappy

  /** The five moods from saddest to happiest. */
  const AllMoods: seq<Mood> := [VerySad, Sad, Neutral, Happy, VeryHappy]

  function Key(m: Mood): string {
    match m
    case VerySad => "very_sad"
    case Sad => "sad"
    case Neutral => "neutral"
    case Happy => "happy"
    case VeryHappy => "very_happy"
  }

  /** The mood a key names, if any (the `$validMoods` membership test of the mood API). */
  function ParseMood(s: string): (r: Option<Mood>)
    ensures r.Some? ==> Key(r.value) == s
  {
    if s == "very_sad" then Some(VerySad)
    else if s == "sad" then Some(Sad)
    else if s == "neutral" then Some(Neutral)
    else if s == "happy" then Some(Happy)
    else if s == "very_happy" then Some(VeryHappy)
    else None
  }

  /** A key is valid exactly when it is the key of one of the five moods. */
  predicate IsValidMood(s: string) {
    ParseMood(s).Some?
  }

  /** Keys parse back to their mood, so no two moods share a key. */
  lemma ParseKey(m: Mood)
    ensures ParseMood(Key(m)) == Some(m)
  {
    match m
    case VerySad =>
    case Sad =>
    case Neutral =>
    case Happy =>
    case VeryHappy =>
  }

  /** The valid keys are exactly the keys of `AllMoods`. */
  lemma ValidMoodsAreKeys(s: string)
    ensures IsValidMood(s) <==> exists i :: 0 <= i < |AllMoods| && Key(AllMoods[i]) == s
  {
    if IsValidMood(s) {
      var m := ParseMood(s).value;
      assert m == AllMoods[Rank(m)];
    }
    forall i | 0 <= i < |AllMoods| && Key(AllMoods[i]) == s ensures IsValidMood(s) {
      ParseKey(AllMoods[i]);
    }
  }

  /** The position of a mood in `AllMoods`. */
  function Rank(m: Mood): (r: nat)
    ensures r < |AllMoods| && AllMoods[r] == m
  {
    match m
    case VerySad => 0
    case Sad => 1
    case Neutral => 2
    case Happy => 3
    case VeryHappy => 4
  }
}
