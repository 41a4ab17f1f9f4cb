/**
 * The React mood chart: mood keys become values 1 to 5 (3 for anything else), and
 * the entries, which arrive newest first, are charted oldest first.
 */
module MoodChart {
  import opened Optional
  import opened Ordering
  import opened Moods
  import MoodSelector

  /** The `moodToValue` record. */
  function MoodToValue(mood: string): Option<int> {
    match ParseMood(mood)
    case Some(VerySad) => Some(1)
    case Some(Sad) => Some(2)
    case Some(Neutral) => Some(3)
    case Some(Happy) => Some(4)
    case Some(VeryHappy) => Some(5)
    case None => None
  }

  /** The `valueToMood` record. */
  function ValueToMood(v: int): Option<string> {
    if v == 1 then Some("Very Sad")
    else if v == 2 then Some("Sad")
    else if v == 3 then Some("Neutral")
    else if v == 4 then Some("Happy")
    else if v == 5 then Some("Very Happy")
    else None
  }

  /**
   * `moodToValue[entry.mood] || 3`: no value is 0, so `||` only replaces a missing one.
   * The five moods chart as 1 to 5 from saddest to happiest; anything else as 3.
   */
  function ChartValue(mood: string): (r: int)
    ensures IsValidMood(mood) ==> r == Rank(ParseMood(mood).value) + 1
    ensures !IsValidMood(mood) ==> r == 3
    ensures 1 <= r <= 5
  {
    var v := MoodToValue(mood);
    if v.Some? && v.value != 0 then v.value else 3
  }

  datatype MoodEntry = MoodEntry(createdAt: int, mood: string)

  /** A point of the chart; `date` is the entry's timestamp (its "MMM d" rendering is left to the locale). */
  datatype ChartPoint = ChartPoint(date: int, value: int, mood: string)

  function ToPoint(e: MoodEntry): ChartPoint {
    ChartPoint(e.createdAt, ChartValue(e.mood), e.mood)
  }

  /** `entries.map(...).reverse()`: one point per entry, oldest first, each on the 1 to 5 axis. */
  function ChartData(entries: seq<MoodEntry>): (r: seq<ChartPoint>)
    ensures |r| == |entries|
    ensures forall i :: 0 <= i < |entries| ==> r[i] == ToPoint(entries[|entries| - 1 - i])
    ensures forall i :: 0 <= i < |r| ==> 1 <= r[i].value <= 5
  {
    Reverse(seq(|entries|, i requires 0 <= i < |entries| => ToPoint(entries[i])))
  }

  /** What the component renders. */
  datatype View = Placeholder | Chart(points: seq<ChartPoint>)

  /** The placeholder shows exactly when there are no entries; otherwise every entry is charted, oldest first. */
  function Render(entries: seq<MoodEntry>): (v: View)
    ensures v == Placeholder <==> entries == []
    ensures v.Chart? ==> |v.points| == |entries| && forall i :: 0 <= i < |entries| ==> v.points[i] == ToPoint(entries[|entries| - 1 - i])
  {
    var data := ChartData(entries);
    if |data| == 0 then Placeholder else Chart(data)
  }

  /** Each mood's value maps back to that mood's label in the picker. */
  lemma ValueLabelsMatchPicker(m: Mood)
    ensures ValueToMood(ChartValue(Key(m))) == Some(MoodSelector.Options[Rank(m)].caption)
  {
    ParseKey(m);
  }
}
