/**
 * Helpers of the PHP front end: mood emoji and label lookups keyed by the mood's
 * wire key, and the choice of date format by the age of a timestamp.
 */
module AppUtils {
  import opened Optional
  import opened Moods
  import MoodSelector

  /** The `emojis` object: an entry for each of the five keys. */
  function EmojiEntry(mood: string): Option<string> {
    match ParseMood(mood)
    case Some(VerySad) => Some("\U{1F622}")
    case Some(Sad) => Some("\U{1F614}")
    case Some(Neutral) => Some("\U{1F610}")
    case Some(Happy) => Some("\U{1F60A}")
    case Some(VeryHappy) => Some("\U{1F604}")
    case None => None
  }

  /** The `labels` object. */
  function LabelEntry(mood: string): Option<string> {
    match ParseMood(mood)
    case Some(VerySad) => Some("Very Sad")
    case Some(Sad) => Some("Sad")
    case Some(Neutral) => Some("Neutral")
    case Some(Happy) => Some("Happy")
    case Some(VeryHappy) => Some("Very Happy")
    case None => None
  }

  /** `emojis[mood] || '😐'`: the picker's emoji for each of the five moods, the neutral face otherwise. */
  function GetMoodEmoji(mood: string): (r: string)
    ensures IsValidMood(mood) ==> r == MoodSelector.Options[Rank(ParseMood(mood).value)].emoji
    ensures !IsValidMood(mood) ==> r == "\U{1F610}"
  {
    var e := EmojiEntry(mood);
    if e.Some? && e.value != "" then e.value else "\U{1F610}"
  }

  /** `labels[mood] || 'Unknown'`: the picker's label for each of the five moods, "Unknown" otherwise. */
  function GetMoodLabel(mood: string): (r: string)
    ensures IsValidMood(mood) ==> r == MoodSelector.Options[Rank(ParseMood(mood).value)].caption
    ensures !IsValidMood(mood) ==> r == "Unknown"
  {
    var l := LabelEntry(mood);
    if l.Some? && l.value != "" then l.value else "Unknown"
  }

  /** Both front ends show the same emoji for every key, known or not. */
  lemma EmojiAgreesWithSelector(mood: string)
    ensures GetMoodEmoji(mood) == MoodSelector.GetMoodEmoji(mood)
  {
  }

  /** The labels agree on the five moods; an unknown key is "Unknown" here and "Neutral" in the picker. */
  lemma LabelAgreesWithSelector(mood: string)
    ensures IsValidMood(mood) ==> GetMoodLabel(mood) == MoodSelector.GetMoodLabel(mood)
    ensures !IsValidMood(mood) ==> GetMoodLabel(mood) == "Unknown" && MoodSelector.GetMoodLabel(mood) == "Neutral"
  {
  }

  const DayMs: int := 86400000
  const WeekMs: int := 604800000

  /** The three presentations `formatDate` chooses between (the strings are locale-dependent). */
  datatype DateForm = TimeOfDay | Weekday | FullDate

  /**
   * `formatDate`: the form for a timestamp `date` (None for an unparsable date, whose
   * difference is NaN and fails both comparisons) seen at `now`, both in milliseconds.
   */
  function FormatDate(date: Option<int>, now: int): (f: DateForm)
    ensures date.None? ==> f == FullDate
    ensures date.Some? ==> (f == TimeOfDay <==> now - date.value < DayMs)
    ensures date.Some? ==> (f == Weekday <==> DayMs <= now - date.value < WeekMs)
    ensures date.Some? ==> (f == FullDate <==> WeekMs <= now - date.value)
  {
    if date.Some? && now - date.value < DayMs then TimeOfDay
    else if date.Some? && now - date.value < WeekMs then Weekday
    else FullDate
  }

  function FormRank(f: DateForm): nat {
    match f
    case TimeOfDay => 0
    case Weekday => 1
    case FullDate => 2
  }

  /** An older timestamp never gets a more recent-looking form. */
  lemma FormatDateMonotone(d1: int, d2: int, now: int)
    requires d2 <= d1
    ensures FormRank(FormatDate(Some(d1), now)) <= FormRank(FormatDate(Some(d2), now))
  {
  }

  /** Both bounds are strict: exactly a day old is a weekday, exactly a week old the full date; a future date gets the time. */
  lemma FormatDateBounds(date: int, now: int)
    ensures now - date == 86400000 ==> FormatDate(Some(date), now) == Weekday
    ensures now - date == 604800000 ==> FormatDate(Some(date), now) == FullDate
    ensures date > now ==> FormatDate(Some(date), now) == TimeOfDay
  {
  }
}
