/**
 * The React message bubble: the content is split on "**" and the pieces alternate
 * between plain and bold; crisis styling applies to assistant messages only.
 */
module ChatMessage {
  import opened Text
  import opened Optional
  import ChatPage

  const Marker: string := "**"

  /** `content.split("**")`: the pieces between non-overlapping markers, found left to right. */
  function Split(s: string): (parts: seq<string>)
    ensures |parts| >= 1
    decreases |s|
  {
    var j := IndexOf(s, Marker);
    if j < 0 then [s] else [s[..j]] + Split(s[j + 2..])
  }

  /** The pieces put back together with `sep` between neighbours. */
  function Join(parts: seq<string>, sep: string): string
    requires |parts| >= 1
    decreases |parts|
  {
    if |parts| == 1 then parts[0] else parts[0] + sep + Join(parts[1..], sep)
  }

  /** The pieces put back together with nothing between them. */
  function Concat(parts: seq<string>): string
    decreases |parts|
  {
    if parts == [] then [] else parts[0] + Concat(parts[1..])
  }

  /** `s` with every marker removed, scanning left to right. */
  function RemoveMarkers(s: string): string
    decreases |s|
  {
    if s == [] then []
    else if IsPrefix(Marker, s) then RemoveMarkers(s[2..])
    else [s[0]] + RemoveMarkers(s[1..])
  }

  /** The number of non-overlapping markers in `s`, scanning left to right. */
  function CountMarkers(s: string): nat
    decreases |s|
  {
    if s == [] then 0
    else if IsPrefix(Marker, s) then 1 + CountMarkers(s[2..])
    else CountMarkers(s[1..])
  }

  /** A stretch of `s` in which no marker starts is copied by `RemoveMarkers` and counts none. */
  lemma {:induction false} SkipPlain(s: string, j: nat)
    requires j <= |s|
    requires forall i :: 0 <= i < j ==> !OccursAt(s, Marker, i)
    ensures RemoveMarkers(s) == s[..j] + RemoveMarkers(s[j..])
    ensures CountMarkers(s) == CountMarkers(s[j..])
    decreases j
  {
    if j > 0 {
      var t := s[1..];
      assert !OccursAt(s, Marker, 0);
      NoMarkerAtFront(s);
      forall i | 0 <= i < j - 1 ensures !OccursAt(t, Marker, i) {
        OccursShift(s, Marker, i);
      }
      SkipPlain(t, j - 1);
      assert t[j - 1..] == s[j..];
      assert [s[0]] + t[..j - 1] == s[..j];
    }
  }

  /** What a character that does not start a marker contributes. */
  lemma NoMarkerAtFront(s: string)
    requires |s| > 0 && !OccursAt(s, Marker, 0)
    ensures RemoveMarkers(s) == [s[0]] + RemoveMarkers(s[1..])
    ensures CountMarkers(s) == CountMarkers(s[1..])
  {
    assert !IsPrefix(Marker, s);
  }

  /** Splitting and joining with the marker gives the content back. */
  lemma {:induction false} JoinSplit(s: string)
    ensures Join(Split(s), Marker) == s
    decreases |s|
  {
    var j := IndexOf(s, Marker);
    if j >= 0 {
      JoinSplit(s[j + 2..]);
      assert Split(s)[1..] == Split(s[j + 2..]);
      assert s == s[..j] + Marker + s[j + 2..];
    }
  }

  /** What a marker at the front contributes. */
  lemma MarkerAtFront(s: string)
    requires IsPrefix(Marker, s)
    ensures RemoveMarkers(s) == RemoveMarkers(s[2..])
    ensures CountMarkers(s) == 1 + CountMarkers(s[2..])
  {
  }

  /** The pieces, concatenated, are the content with every marker removed. */
  lemma {:induction false} ConcatSplit(s: string)
    ensures Concat(Split(s)) == RemoveMarkers(s)
    ensures |Split(s)| == CountMarkers(s) + 1
    decreases |s|
  {
    var j := IndexOf(s, Marker);
    if j < 0 {
      SkipPlain(s, |s|);
      assert s[..|s|] == s && s[|s|..] == [];
    } else {
      SkipPlain(s, j);
      assert s[j..][2..] == s[j + 2..];
      MarkerAtFront(s[j..]);
      ConcatSplit(s[j + 2..]);
      assert Split(s)[1..] == Split(s[j + 2..]);
    }
  }

  /** No piece contains a marker. */
  lemma {:induction false} PiecesHaveNoMarker(s: string)
    ensures forall i :: 0 <= i < |Split(s)| ==> !Contains(Split(s)[i], Marker)
    decreases |s|
  {
    var j := IndexOf(s, Marker);
    var head := if j < 0 then s else s[..j];
    ContainsIff(head, Marker);
    if Contains(head, Marker) {
      var i :| OccursAt(head, Marker, i);
      assert s[i..i + 2] == head[i..i + 2];
      assert OccursAt(s, Marker, i);
    }
    if j >= 0 {
      PiecesHaveNoMarker(s[j + 2..]);
      assert Split(s)[1..] == Split(s[j + 2..]);
      forall i | 0 < i < |Split(s)| ensures !Contains(Split(s)[i], Marker) {
        assert Split(s)[i] == Split(s[j + 2..])[i - 1];
      }
    }
  }

  /** Content without a marker is one piece. */
  lemma NoMarkerOnePiece(s: string)
    requires !Contains(s, Marker)
    ensures Split(s) == [s]
  {
    ContainsIff(s, Marker);
  }

  datatype Segment = Plain(text: string) | Bold(text: string)

  /** The rendered pieces: even positions in a `span`, odd positions in a `strong`. */
  function Segments(content: string): (segs: seq<Segment>)
    ensures |segs| == |Split(content)|
    ensures forall i :: 0 <= i < |segs| ==> segs[i].text == Split(content)[i]
    ensures forall i :: 0 <= i < |segs| ==> (segs[i].Bold? <==> i % 2 == 1)
  {
    var parts := Split(content);
    seq(|parts|, i requires 0 <= i < |parts| => if i % 2 == 0 then Plain(parts[i]) else Bold(parts[i]))
  }

  /** The texts of the segments. */
  function Texts(segs: seq<Segment>): seq<string>
  {
    seq(|segs|, i requires 0 <= i < |segs| => segs[i].text)
  }

  /** The segments show the content without its markers; content without markers is one plain segment. */
  lemma SegmentsShowContent(content: string)
    ensures Concat(Texts(Segments(content))) == RemoveMarkers(content)
    ensures |Segments(content)| == CountMarkers(content) + 1
    ensures !Contains(content, Marker) ==> Segments(content) == [Plain(content)]
  {
    assert Texts(Segments(content)) == Split(content);
    ConcatSplit(content);
    if !Contains(content, Marker) {
      NoMarkerOnePiece(content);
    }
  }

  datatype Avatar = AlertAvatar | BotAvatar
  datatype Bubble = CrisisBubble | CardBubble | GradientBubble

  /** The classes that depend on the props: which side, which avatar, which bubble, whether the user icon shows. */
  datatype Style = Style(alignStart: bool, avatar: Option<Avatar>, bubble: Bubble, userIcon: bool)

  function MessageStyle(role: ChatPage.Role, isCrisis: bool): (st: Style)
    ensures st.bubble == CrisisBubble <==> role.Assistant? && isCrisis
    ensures st.avatar == Some(AlertAvatar) <==> role.Assistant? && isCrisis
    ensures role.User? ==> st == Style(false, None, GradientBubble, true)
    ensures role.Assistant? ==> st.alignStart && st.avatar.Some? && !st.userIcon
  {
    match role
    case Assistant =>
      Style(true, Some(if isCrisis then AlertAvatar else BotAvatar),
            if isCrisis then CrisisBubble else CardBubble, false)
    case User => Style(false, None, GradientBubble, true)
  }
}
