/** Character and string helpers shared by the PHP and TypeScript parts of the model. */
module Text {

  /** True for the 26 upper-case ASCII letters. */
  predicate IsUpperAscii(c: char) {
    'A' <= c <= 'Z'
  }

  /** ASCII-only lower-casing of one character (PHP 8 `strtolower`; see README for JS). */
  function LowerChar(c: char): (r: char)
    ensures !IsUpperAscii(r)
    ensures IsUpperAscii(c) ==> r as int == c as int + 32
    ensures !IsUpperAscii(c) ==> r == c
  {
    if IsUpperAscii(c) then (c as int + 32) as char else c
  }

  /** Lower-cases every character of `s`, leaving its length and the non-letters alone. */
  function Lower(s: string): string {
    seq(|s|, i requires 0 <= i < |s| => LowerChar(s[i]))
  }

  /** Lower-casing distributes over concatenation. */
  lemma LowerAppend(a: string, b: string)
    ensures Lower(a + b) == Lower(a) + Lower(b)
  {
  }

  /** Lower-casing twice is lower-casing once. */
  lemma LowerIdempotent(s: string)
    ensures Lower(Lower(s)) == Lower(s)
  {
    assert forall i :: 0 <= i < |s| ==> LowerChar(LowerChar(s[i])) == LowerChar(s[i]);
  }

  /** `k` is a prefix of `s`. */
  predicate IsPrefix(k: string, s: string) {
    |k| <= |s| && s[..|k|] == k
  }

  /** `k` occurs in `s` starting at index `i`. */
  ghost predicate OccursAt(s: string, k: string, i: int) {
    0 <= i && i + |k| <= |s| && s[i..i + |k|] == k
  }

  /** Substring search: PHP `strpos($s, $k) !== false`, JS `s.includes(k)`. */
  predicate Contains(s: string, k: string)
    decreases |s|
  {
    IsPrefix(k, s) || (|s| > 0 && Contains(s[1..], k))
  }

  /** The search finds `k` exactly when `k` occurs somewhere in `s`. */
  lemma {:induction false} ContainsIff(s: string, k: string)
    ensures Contains(s, k) <==> exists i :: OccursAt(s, k, i)
    decreases |s|
  {
    if IsPrefix(k, s) {
      assert OccursAt(s, k, 0);
    } else if |s| == 0 {
      forall i | OccursAt(s, k, i) ensures false {
      }
    } else {
      ContainsIff(s[1..], k);
      if Contains(s[1..], k) {
        var i :| OccursAt(s[1..], k, i);
        assert s[1..][i..i + |k|] == s[i + 1..i + 1 + |k|];
        assert OccursAt(s, k, i + 1);
      } else {
        forall i | OccursAt(s, k, i) && i > 0 ensures false {
          assert s[1..][i - 1..i - 1 + |k|] == s[i..i + |k|];
          assert OccursAt(s[1..], k, i - 1);
        }
      }
    }
  }

  /** Occurrences in `s[1..]` are the occurrences in `s` after the first position, shifted by one. */
  lemma OccursShift(s: string, k: string, i: int)
    requires |s| > 0 && 0 <= i
    ensures OccursAt(s[1..], k, i) <==> OccursAt(s, k, i + 1)
  {
    if 0 <= i && i + 1 + |k| <= |s| {
      assert s[1..][i..i + |k|] == s[i + 1..i + 1 + |k|];
    }
  }

  /** The first index at which a non-empty `k` occurs in `s`, or -1 (JS `indexOf`). */
  function IndexOf(s: string, k: string): (r: int)
    requires |k| > 0
    ensures r == -1 || 0 <= r <= |s| - |k|
    ensures r >= 0 ==> OccursAt(s, k, r) && forall i :: 0 <= i < r ==> !OccursAt(s, k, i)
    ensures r == -1 ==> forall i :: !OccursAt(s, k, i)
    decreases |s|
  {
    if IsPrefix(k, s) then 0
    else if |s| == 0 then -1
    else
      var r := IndexOf(s[1..], k);
      IndexOfStep(s, k, r);
      if r == -1 then -1 else r + 1
  }

  /** One step of the search: what is known of `s` from the search of `s[1..]`. */
  lemma IndexOfStep(s: string, k: string, r: int)
    requires |k| > 0 && |s| > 0 && !IsPrefix(k, s)
    requires r >= 0 ==> OccursAt(s[1..], k, r) && forall i :: 0 <= i < r ==> !OccursAt(s[1..], k, i)
    requires r < 0 ==> forall i :: !OccursAt(s[1..], k, i)
    ensures r >= 0 ==> OccursAt(s, k, r + 1) && forall i :: 0 <= i < r + 1 ==> !OccursAt(s, k, i)
    ensures r < 0 ==> forall i :: !OccursAt(s, k, i)
  {
    if r >= 0 {
      OccursShift(s, k, r);
    }
    forall i | OccursAt(s, k, i) && (r < 0 || i < r + 1) && i > 0 ensures false {
      OccursShift(s, k, i - 1);
    }
  }

  /** A string occurring in `s` occurs in every extension of `s`. */
  lemma {:induction false} ContainsAppend(s: string, t: string, k: string)
    requires Contains(s, k)
    ensures Contains(s + t, k) && Contains(t + s, k)
  {
    ContainsIff(s, k);
    var i :| OccursAt(s, k, i);
    assert (s + t)[i..i + |k|] == s[i..i + |k|];
    assert OccursAt(s + t, k, i);
    assert (t + s)[|t| + i..|t| + i + |k|] == s[i..i + |k|];
    assert OccursAt(t + s, k, |t| + i);
    ContainsIff(s + t, k);
    ContainsIff(t + s, k);
  }

  /** Leading characters satisfying `ws` removed. */
  function TrimLeft(s: string, ws: char -> bool): string
    decreases |s|
  {
    if |s| > 0 && ws(s[0]) then TrimLeft(s[1..], ws) else s
  }

  /** Trailing characters satisfying `ws` removed. */
  function TrimRight(s: string, ws: char -> bool): string
    decreases |s|
  {
    if |s| > 0 && ws(s[|s| - 1]) then TrimRight(s[..|s| - 1], ws) else s
  }

  /** Both ends trimmed; `ws` is the language's notion of white space. */
  function Trim(s: string, ws: char -> bool): string {
    TrimRight(TrimLeft(s, ws), ws)
  }

  /** The white space PHP's `trim` strips by default: " \t\n\r\0\x0B". */
  predicate IsPhpSpace(c: char) {
    c == ' ' || c == '\t' || c == '\n' || c == '\r' || c == '\0' || c == '\U{000B}'
  }

  /** ECMAScript line terminators (what `.` and `^`/`$` in multiline mode stop at). */
  predicate IsJsLineTerminator(c: char) {
    c == '\n' || c == '\r' || c == '\U{2028}' || c == '\U{2029}'
  }

  /** ECMAScript WhiteSpace and LineTerminator, the set `String.prototype.trim` strips. */
  predicate IsJsSpace(c: char) {
    || c == '\t' || c == '\U{000B}' || c == '\U{000C}' || c == ' ' || c == '\U{00A0}'
    || c == '\U{FEFF}' || c == '\U{1680}' || ('\U{2000}' <= c <= '\U{200A}')
    || c == '\U{202F}' || c == '\U{205F}' || c == '\U{3000}'
    || IsJsLineTerminator(c)
  }

  /** TrimLeft keeps a suffix, starting at the first character that is not white space. */
  lemma {:induction false} TrimLeftShape(s: string, ws: char -> bool)
    ensures |TrimLeft(s, ws)| <= |s| && TrimLeft(s, ws) == s[|s| - |TrimLeft(s, ws)|..]
    ensures forall i :: 0 <= i < |s| - |TrimLeft(s, ws)| ==> ws(s[i])
    ensures TrimLeft(s, ws) != [] ==> !ws(TrimLeft(s, ws)[0])
    decreases |s|
  {
    if |s| > 0 && ws(s[0]) {
      TrimLeftShape(s[1..], ws);
      assert s[1..][|s| - 1 - |TrimLeft(s, ws)|..] == s[|s| - |TrimLeft(s, ws)|..];
      forall i | 0 < i < |s| - |TrimLeft(s, ws)| ensures ws(s[i]) {
        assert s[1..][i - 1] == s[i];
      }
    }
  }

  /** TrimRight keeps a prefix, ending at the last character that is not white space. */
  lemma {:induction false} TrimRightShape(s: string, ws: char -> bool)
    ensures |TrimRight(s, ws)| <= |s| && TrimRight(s, ws) == s[..|TrimRight(s, ws)|]
    ensures forall i :: |TrimRight(s, ws)| <= i < |s| ==> ws(s[i])
    ensures TrimRight(s, ws) != [] ==> !ws(TrimRight(s, ws)[|TrimRight(s, ws)| - 1])
    decreases |s|
  {
    if |s| > 0 && ws(s[|s| - 1]) {
      var p := s[..|s| - 1];
      TrimRightShape(p, ws);
      assert p[..|TrimRight(p, ws)|] == s[..|TrimRight(s, ws)|];
      forall i | |TrimRight(s, ws)| <= i < |s| - 1 ensures ws(s[i]) {
        assert p[i] == s[i];
      }
    }
  }

  /** The trimmed text is empty exactly when every character of `s` is white space. */
  lemma TrimEmptyIff(s: string, ws: char -> bool)
    ensures Trim(s, ws) == [] <==> forall i :: 0 <= i < |s| ==> ws(s[i])
  {
    var l := TrimLeft(s, ws);
    TrimLeftShape(s, ws);
    TrimRightShape(l, ws);
    if Trim(s, ws) == [] {
      forall i | 0 <= i < |s| ensures ws(s[i]) {
      }
    } else {
      var k := |s| - |l|;
      assert l != [] && !ws(l[0]) && l[0] == s[k];
    }
  }

  /** `s` is `t` at offset `a` with only white space before and after it. */
  ghost predicate PaddedAt(s: string, t: string, a: int, ws: char -> bool) {
    && 0 <= a && a + |t| <= |s| && s[a..a + |t|] == t
    && (forall i :: 0 <= i < a ==> ws(s[i]))
    && (forall i :: a + |t| <= i < |s| ==> ws(s[i]))
  }

  /**
   * Trimmed text is a contiguous piece of `s` with no white space at either end, and
   * everything removed before and after it is white space.
   */
  lemma TrimShape(s: string, ws: char -> bool)
    ensures |Trim(s, ws)| <= |s|
    ensures Trim(s, ws) != [] ==> !ws(Trim(s, ws)[0]) && !ws(Trim(s, ws)[|Trim(s, ws)| - 1])
    ensures |Trim(s, ws)| <= |TrimLeft(s, ws)| <= |s|
    ensures Trim(s, ws) == s[|s| - |TrimLeft(s, ws)|..|s| - |TrimLeft(s, ws)| + |Trim(s, ws)|]
    ensures PaddedAt(s, Trim(s, ws), |s| - |TrimLeft(s, ws)|, ws)
  {
    var l := TrimLeft(s, ws);
    TrimLeftShape(s, ws);
    TrimRightShape(l, ws);
    var t := Trim(s, ws);
    var a := |s| - |l|;
    assert t == l[..|t|];
    assert s[a..a + |t|] == l[..|t|];
    if t != [] {
      assert t[0] == l[0];
    }
    forall i | a + |t| <= i < |s| ensures ws(s[i]) {
      assert s[i] == l[i - a];
    }
  }

  /** Trimming is idempotent. */
  lemma TrimIdempotent(s: string, ws: char -> bool)
    ensures Trim(Trim(s, ws), ws) == Trim(s, ws)
  {
    TrimShape(s, ws);
    var t := Trim(s, ws);
    if t != [] {
      assert TrimLeft(t, ws) == t;
      assert TrimRight(t, ws) == t;
    }
  }

  /** The decimal digit for `d`. */
  function DigitChar(d: nat): (c: char)
    requires d < 10
    ensures '0' <= c <= '9' && c as int - '0' as int == d
  {
    "0123456789"[d]
  }

  /** Decimal text of `n`, as JavaScript's template literal `${n}` renders a status. */
  function NatToString(n: nat): (r: string)
    ensures |r| > 0
    ensures forall i :: 0 <= i < |r| ==> '0' <= r[i] <= '9'
    ensures n > 0 ==> r[0] != '0'
    decreases n
  {
    if n < 10 then [DigitChar(n)] else NatToString(n / 10) + [DigitChar(n % 10)]
  }
}
