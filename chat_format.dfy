/**
 * `formatContent` of the PHP front end: four global regular-expression replacements
 * applied in order (bold, links, line breaks, bullets). Each replacement is a
 * left-to-right scan that, at each position, either rewrites the leftmost match
 * starting there and resumes after it, or copies one character.
 */
module ChatFormat {
  import opened Text

  /** No character of `s` is a line terminator. */
  ghost predicate NoLineTerminator(s: string) {
    forall i :: 0 <= i < |s| ==> !IsJsLineTerminator(s[i])
  }

  /** The only line terminator `s` may hold is '\n'. */
  ghost predicate OnlyNewlines(s: string) {
    forall i :: 0 <= i < |s| ==> IsJsLineTerminator(s[i]) ==> s[i] == '\n'
  }

  /**
   * Where a lazy `(.*?)` followed by `pat` stops: the first index at which `pat`
   * starts in `t`, provided no line terminator comes before it (`.` stops at them).
   */
  function FindOnLine(t: string, pat: string): (r: int)
    requires |pat| > 0
    ensures -1 <= r <= |t|
    ensures r >= 0 ==> r + |pat| <= |t| && t[r..r + |pat|] == pat && NoLineTerminatorIn(t, r)
    decreases |t|
  {
    if IsPrefix(pat, t) then 0
    else if t == [] || IsJsLineTerminator(t[0]) then -1
    else
      var r := FindOnLine(t[1..], pat);
      if r < 0 then -1
      else
        assert t[1..][r..r + |pat|] == t[r + 1..r + 1 + |pat|];
        r + 1
  }

  /** The search is leftmost: any match on the first line is found, at its position or earlier. */
  lemma {:induction false} FindOnLineFirst(t: string, pat: string, j: int)
    requires |pat| > 0 && 0 <= j <= |t| && NoLineTerminatorIn(t, j) && IsPrefix(pat, t[j..])
    ensures 0 <= FindOnLine(t, pat) <= j
    decreases j
  {
    if j > 0 && !IsPrefix(pat, t) {
      assert t[1..][j - 1..] == t[j..];
      FindOnLineFirst(t[1..], pat, j - 1);
    }
  }

  /** The first `n` characters of `t` hold no line terminator. */
  predicate NoLineTerminatorIn(t: string, n: int)
    requires 0 <= n <= |t|
  {
    forall i :: 0 <= i < n ==> !IsJsLineTerminator(t[i])
  }

  /** A match of the bold pattern (two asterisks, the shortest run of text on one line, two asterisks) starts at the front of `s`. */
  predicate BoldAt(s: string) {
    IsPrefix("**", s) && FindOnLine(s[2..], "**") >= 0
  }

  /** `<strong>$1</strong>`. */
  function StrongTag(text: string): string {
    "<strong>" + text + "</strong>"
  }

  /** `<a href="$2" target="_blank">$1</a>`. */
  function AnchorTag(text: string, url: string): string {
    "<a href=\"" + url + "\" target=\"_blank\">" + text + "</a>"
  }

  /**
   * The bold replacement: each match becomes `<strong>` around the text between the
   * asterisks. It adds no line terminator other than those of the input.
   */
  function Bold(s: string): (r: string)
    ensures OnlyNewlines(s) ==> OnlyNewlines(r)
    decreases |s|
  {
    if s == [] then []
    else if BoldAt(s) then
      var j := FindOnLine(s[2..], "**");
      var later := Bold(s[2 + j + 2..]);
      OnlyNewlinesSlice(s, 2, 2 + j);
      OnlyNewlinesSlice(s, 2 + j + 2, |s|);
      TagsKeepOnlyNewlines(s[2..2 + j], "");
      OnlyNewlinesConcat(StrongTag(s[2..2 + j]), later);
      StrongTag(s[2..2 + j]) + later
    else
      var later := Bold(s[1..]);
      OnlyNewlinesSlice(s, 1, |s|);
      OnlyNewlinesConcat([s[0]], later);
      [s[0]] + later
  }

  /** The `]( ... )` part of a link match after an opening '[': the positions of "](" and ")". */
  predicate LinkAt(s: string) {
    && |s| > 0 && s[0] == '['
    && FindOnLine(s[1..], "](") >= 0
    && FindOnLine(s[1 + FindOnLine(s[1..], "](") + 2..], ")") >= 0
  }

  /**
   * `content.replace(/\[(.*?)\]\((.*?)\)/g, '<a href="$2" target="_blank">$1</a>')`. It
   * adds no line terminator other than those of the input.
   */
  function Links(s: string): (r: string)
    ensures OnlyNewlines(s) ==> OnlyNewlines(r)
    decreases |s|
  {
    if s == [] then []
    else if LinkAt(s) then
      var j := FindOnLine(s[1..], "](");
      var rest := s[1 + j + 2..];
      var k := FindOnLine(rest, ")");
      var later := Links(rest[k + 1..]);
      OnlyNewlinesSlice(s, 1, 1 + j);
      OnlyNewlinesSlice(s, 1 + j + 2, |s|);
      OnlyNewlinesSlice(rest, 0, k);
      OnlyNewlinesSlice(rest, k + 1, |rest|);
      TagsKeepOnlyNewlines(s[1..1 + j], rest[..k]);
      OnlyNewlinesConcat(AnchorTag(s[1..1 + j], rest[..k]), later);
      AnchorTag(s[1..1 + j], rest[..k]) + later
    else
      var later := Links(s[1..]);
      OnlyNewlinesSlice(s, 1, |s|);
      OnlyNewlinesConcat([s[0]], later);
      [s[0]] + later
  }

  /** `content.replace(/\n/g, '<br>')`: no '\n' is left. */
  function Newlines(s: string): (r: string)
    ensures forall i :: 0 <= i < |r| ==> r[i] != '\n'
    decreases |s|
  {
    if s == [] then []
    else (if s[0] == '\n' then "<br>" else [s[0]]) + Newlines(s[1..])
  }

  /**
   * `content.replace(/^- (.*)/gm, '• $1')`: "- " becomes "• " where a line starts,
   * that is at the front or right after a line terminator; `atLineStart` says whether
   * the front of `s` is such a place. It introduces no '\n'.
   */
  function Bullets(s: string, atLineStart: bool): (r: string)
    ensures (forall i :: 0 <= i < |s| ==> s[i] != '\n') ==> forall i :: 0 <= i < |r| ==> r[i] != '\n'
    decreases |s|
  {
    if s == [] then []
    else if atLineStart && IsPrefix("- ", s) then "\U{2022} " + Bullets(s[2..], false)
    else [s[0]] + Bullets(s[1..], IsJsLineTerminator(s[0]))
  }

  /** `formatContent`: every newline of the content becomes `<br>`, so the output holds no '\n'. */
  function FormatContent(content: string): (r: string)
    ensures forall i :: 0 <= i < |r| ==> r[i] != '\n'
  {
    Bullets(Newlines(Links(Bold(content))), true)
  }

  /** When '\n' is the only line terminator, none is left after the line-break step. */
  lemma {:induction false} NewlinesLeaveNoTerminator(s: string)
    ensures OnlyNewlines(s) ==> NoLineTerminator(Newlines(s))
    decreases |s|
  {
    if s != [] {
      NewlinesLeaveNoTerminator(s[1..]);
      if OnlyNewlines(s) {
        assert OnlyNewlines(s[1..]) by {
          forall i | 0 <= i < |s| - 1 ensures IsJsLineTerminator(s[1..][i]) ==> s[1..][i] == '\n' {
            assert s[1..][i] == s[i + 1];
          }
        }
      }
    }
  }

  /** Away from a line start, text without line terminators passes the bullet step unchanged. */
  lemma {:induction false} BulletsInsideLine(s: string)
    requires NoLineTerminator(s)
    ensures Bullets(s, false) == s
    decreases |s|
  {
    if s != [] {
      BulletsInsideLine(s[1..]);
    }
  }

  /** On one line, only a leading "- " becomes a bullet. */
  lemma BulletsOneLine(s: string)
    requires NoLineTerminator(s)
    ensures Bullets(s, true) == if IsPrefix("- ", s) then "\U{2022} " + s[2..] else s
  {
    if s != [] {
      if IsPrefix("- ", s) {
        BulletsInsideLine(s[2..]);
      } else {
        BulletsInsideLine(s[1..]);
      }
    }
  }

  /** A piece of text taken from `s` keeps the property that '\n' is its only line terminator. */
  lemma OnlyNewlinesSlice(s: string, a: int, b: int)
    requires 0 <= a <= b <= |s|
    ensures OnlyNewlines(s) ==> OnlyNewlines(s[a..b])
  {
    if OnlyNewlines(s) {
      forall i | 0 <= i < b - a ensures IsJsLineTerminator(s[a..b][i]) ==> s[a..b][i] == '\n' {
        assert s[a..b][i] == s[a + i];
      }
    }
  }

  /** The tags add no line terminator. */
  lemma TagsKeepOnlyNewlines(text: string, url: string)
    ensures OnlyNewlines(text) && OnlyNewlines(url) ==> OnlyNewlines(StrongTag(text)) && OnlyNewlines(AnchorTag(text, url))
  {
    OnlyNewlinesConcat("<strong>", text);
    OnlyNewlinesConcat("<strong>" + text, "</strong>");
    var a := "<a href=\"" + url;
    var b := a + "\" target=\"_blank\">";
    var c := b + text;
    OnlyNewlinesConcat("<a href=\"", url);
    OnlyNewlinesConcat(a, "\" target=\"_blank\">");
    OnlyNewlinesConcat(b, text);
    OnlyNewlinesConcat(c, "</a>");
  }

  /** Concatenation keeps the property. */
  lemma OnlyNewlinesConcat(a: string, b: string)
    ensures OnlyNewlines(a) && OnlyNewlines(b) ==> OnlyNewlines(a + b)
  {
    if OnlyNewlines(a) && OnlyNewlines(b) {
      forall i | 0 <= i < |a + b| ensures IsJsLineTerminator((a + b)[i]) ==> (a + b)[i] == '\n' {
        if i >= |a| {
          assert (a + b)[i] == b[i - |a|];
        }
      }
    }
  }

  /**
   * Because line breaks are rewritten before bullets, content whose only line
   * terminator is '\n' gets a bullet at most at its very front.
   */
  lemma BulletOnlyAtFront(content: string)
    requires OnlyNewlines(content)
    ensures var t := Newlines(Links(Bold(content)));
      FormatContent(content) == if IsPrefix("- ", t) then "\U{2022} " + t[2..] else t
  {
    NewlinesLeaveNoTerminator(Links(Bold(content)));
    BulletsOneLine(Newlines(Links(Bold(content))));
  }

  /** No bold match starts anywhere in `s`. */
  ghost predicate NoBoldMatch(s: string) {
    forall p :: 0 <= p <= |s| ==> !BoldAt(s[p..])
  }

  /** No link match starts anywhere in `s`. */
  ghost predicate NoLinkMatch(s: string) {
    forall p :: 0 <= p <= |s| ==> !LinkAt(s[p..])
  }

  lemma {:induction false} BoldIdentity(s: string)
    requires NoBoldMatch(s)
    ensures Bold(s) == s
    decreases |s|
  {
    if s != [] {
      assert s[0..] == s;
      assert NoBoldMatch(s[1..]) by {
        forall p | 0 <= p <= |s| - 1 ensures !BoldAt(s[1..][p..]) {
          assert s[1..][p..] == s[p + 1..];
        }
      }
      BoldIdentity(s[1..]);
    }
  }

  lemma {:induction false} LinksIdentity(s: string)
    requires NoLinkMatch(s)
    ensures Links(s) == s
    decreases |s|
  {
    if s != [] {
      assert s[0..] == s;
      assert NoLinkMatch(s[1..]) by {
        forall p | 0 <= p <= |s| - 1 ensures !LinkAt(s[1..][p..]) {
          assert s[1..][p..] == s[p + 1..];
        }
      }
      LinksIdentity(s[1..]);
    }
  }

  lemma {:induction false} NewlinesIdentity(s: string)
    requires NoLineTerminator(s)
    ensures Newlines(s) == s
    decreases |s|
  {
    if s != [] {
      NewlinesIdentity(s[1..]);
    }
  }

  /**
   * Content with no bold span, no link, no line break and no leading "- " comes back
   * unchanged.
   */
  lemma FormatContentIdentity(content: string)
    requires NoBoldMatch(content) && NoLinkMatch(content) && NoLineTerminator(content)
    requires !IsPrefix("- ", content)
    ensures FormatContent(content) == content
  {
    BoldIdentity(content);
    LinksIdentity(content);
    NewlinesIdentity(content);
    BulletsOneLine(content);
  }
}
