/**
 * The React mood picker's table of five options and its two lookups, which fall
 * back to the neutral emoji and label when no option matches.
 */
module MoodSelector {
  import opened Optional
  import opened Moods

  /** One option; `kind` and `caption` are the source's `type` and `label` (reserved words here). */
  datatype MoodOption = MoodOption(kind: string, emoji: string, caption: string, color: string)

  const Options: seq<MoodOption> := [
    MoodOption("very_sad", "\U{1F622}", "Very Sad", "bg-destructive/20 border-destructive/40"),
    MoodOption("sad", "\U{1F614}", "Sad", "bg-crisis/20 border-crisis/40"),
    MoodOption("neutral", "\U{1F610}", "Neutral", "bg-muted border-border"),
    MoodOption("happy", "\U{1F60A}", "Happy", "bg-accent border-accent-foreground/20"),
    MoodOption("very_happy", "\U{1F604}", "Very Happy", "bg-success/20 border-success/40")
  ]

  /** `Array.prototype.find`: the first option of `kind`, if any. */
  function Find(options: seq<MoodOption>, kind: string): (r: Option<MoodOption>)
    ensures r.Some? ==> r.value in options && r.value.kind == kind
    ensures r.None? ==> forall i :: 0 <= i < |options| ==> options[i].kind != kind
    decreases |options|
  {
    if options == [] then None
    else if options[0].kind == kind then Some(options[0])
    else Find(options[1..], kind)
  }

  /**
   * `find(...)?.emoji || "😐"`: JavaScript's `||` also falls back on an empty emoji.
   * A known mood gets its own option's emoji; anything else the neutral option's.
   */
  function GetMoodEmoji(mood: string): (r: string)
    ensures IsValidMood(mood) ==> r == Options[Rank(ParseMood(mood).value)].emoji
    ensures !IsValidMood(mood) ==> r == Options[Rank(Neutral)].emoji
  {
    FindByKey(mood);
    var o := Find(Options, mood);
    if o.Some? && o.value.emoji != "" then o.value.emoji else "\U{1F610}"
  }

  /** `find(...)?.label || "Neutral"`: a known mood's own label, otherwise the neutral option's. */
  function GetMoodLabel(mood: string): (r: string)
    ensures IsValidMood(mood) ==> r == Options[Rank(ParseMood(mood).value)].caption
    ensures !IsValidMood(mood) ==> r == Options[Rank(Neutral)].caption
  {
    FindByKey(mood);
    var o := Find(Options, mood);
    if o.Some? && o.value.caption != "" then o.value.caption else "Neutral"
  }

  /** The option of each mood: the five moods appear in order, one option each. */
  lemma OptionsFollowMoods()
    ensures |Options| == |AllMoods|
    ensures forall i :: 0 <= i < |Options| ==> Options[i].kind == Key(AllMoods[i])
    ensures forall i, j :: 0 <= i < j < |Options| ==> Options[i].kind != Options[j].kind
  {
  }

  /** The option a known mood finds is the one at that mood's position. */
  lemma FindMood(m: Mood)
    ensures Find(Options, Key(m)) == Some(Options[Rank(m)])
  {
    assert Options[0].kind == "very_sad" && Options[1].kind == "sad";
    assert Options[2].kind == "neutral" && Options[3].kind == "happy" && Options[4].kind == "very_happy";
  }

  /** A known mood finds the option at its position; anything else finds none. */
  lemma FindByKey(mood: string)
    ensures IsValidMood(mood) ==> Find(Options, mood) == Some(Options[Rank(ParseMood(mood).value)])
    ensures !IsValidMood(mood) ==> Find(Options, mood) == None
  {
    if IsValidMood(mood) {
      FindMood(ParseMood(mood).value);
    } else {
      FindUnknown(mood);
    }
  }

  /** A string that is not a mood key finds no option. */
  lemma FindUnknown(mood: string)
    requires !IsValidMood(mood)
    ensures Find(Options, mood) == None
  {
    OptionsFollowMoods();
    forall i | 0 <= i < |Options| ensures Options[i].kind != mood {
      ParseKey(AllMoods[i]);
    }
  }
}
