/**
 * The few JavaScript string built-ins the core relies on: `trim`, `startsWith`,
 * `endsWith`, `includes` and `Array.prototype.join`.
 *
 * `String.prototype.trim` removes Unicode white space and line terminators; this
 * model recognises the ASCII ones only (space, tab, line feed, vertical tab,
 * form feed, carriage return).
 */
module Text {

  predicate IsWhitespace(c: char)
  {
    c == ' ' || c == '\t' || c == '\n' || c == '\r' || c == '\U{B}' || c == '\U{C}'
  }

  predicate AllWhitespace(s: string)
  {
    forall i :: 0 <= i < |s| ==> IsWhitespace(s[i])
  }

  /** `s.startsWith(p)` */
  predicate StartsWith(s: string, p: string)
  {
    |p| <= |s| && s[..|p|] == p
  }

  /** `s.endsWith(p)` */
  predicate EndsWith(s: string, p: string)
  {
    |p| <= |s| && s[|s| - |p|..] == p
  }

  lemma ConcatAssoc4(a: string, b: string, c: string, d: string)
    ensures a + (b + (c + d)) == a + b + c + d
  {
  }

  lemma ConcatAssoc3(a: string, b: string, c: string)
    ensures a + (b + c) == a + b + c
  {
  }

  lemma PrefixOfConcat(a: string, b: string)
    ensures StartsWith(a + b, a)
  {
    assert (a + b)[..|a|] == a;
  }

  lemma SuffixOfConcat(a: string, b: string)
    ensures EndsWith(a + b, b)
  {
    assert (a + b)[|a + b| - |b|..] == b;
  }

  lemma PrefixOfLonger(a: string, b: string, p: string)
    requires StartsWith(a, p)
    ensures StartsWith(a + b, p)
  {
    assert (a + b)[..|p|] == a[..|p|];
  }

  /** `s.includes(c)` for a one-character needle. */
  predicate Contains(s: string, c: char)
  {
    exists i :: 0 <= i < |s| && s[i] == c
  }

  /** Leading white space removed. */
  function TrimStart(s: string): (r: string)
    ensures |r| <= |s|
  {
    if s == [] || !IsWhitespace(s[0]) then s else TrimStart(s[1..])
  }

  /** Trailing white space removed. */
  function TrimEnd(s: string): (r: string)
    ensures |r| <= |s|
  {
    if s == [] || !IsWhitespace(s[|s| - 1]) then s else TrimEnd(s[..|s| - 1])
  }

  lemma {:induction false} TrimStartSpec(s: string)
    ensures TrimStart(s) == s[|s| - |TrimStart(s)|..]
    ensures AllWhitespace(s[..|s| - |TrimStart(s)|])
    ensures TrimStart(s) == [] || !IsWhitespace(TrimStart(s)[0])
  {
    if s != [] && IsWhitespace(s[0]) {
      TrimStartSpec(s[1..]);
      var r := TrimStart(s[1..]);
      assert s[1..][..|s| - 1 - |r|] == s[1..|s| - |r|];
    }
  }

  lemma {:induction false} TrimEndSpec(s: string)
    ensures TrimEnd(s) == s[..|TrimEnd(s)|]
    ensures AllWhitespace(s[|TrimEnd(s)|..])
    ensures TrimEnd(s) == [] || !IsWhitespace(TrimEnd(s)[|TrimEnd(s)| - 1])
  {
    if s != [] && IsWhitespace(s[|s| - 1]) {
      var init := s[..|s| - 1];
      TrimEndSpec(init);
      var r := TrimEnd(init);
      assert init[..|r|] == s[..|r|];
      forall i | 0 <= i < |s| - |r|
        ensures IsWhitespace(s[|r|..][i])
      {
        if |r| + i < |s| - 1 {
          assert s[|r|..][i] == init[|r|..][i];
        }
      }
    }
  }

  /** `s.trim()` */
  function Trim(s: string): (r: string)
    ensures |r| <= |s|
  {
    TrimEnd(TrimStart(s))
  }

  /** What `trim` returns is a contiguous piece of its input with white space only around it. */
  lemma TrimSpec(s: string)
    ensures IsTrimOf(s, Trim(s))
    ensures Trim(s) == [] || (!IsWhitespace(Trim(s)[0]) && !IsWhitespace(Trim(s)[|Trim(s)| - 1]))
  {
    var t := TrimStart(s);
    var r := TrimEnd(t);
    TrimStartSpec(s);
    TrimEndSpec(t);
    var i := |s| - |t|;
    assert r == t[..|r|] && t == s[i..];
    assert r == s[i..i + |r|];
    assert s[i + |r|..] == t[|r|..];
    assert IsTrimmedAt(s, r, i);
  }

  /** `r` is `s` with white space, and only white space, removed from both ends. */
  ghost predicate IsTrimOf(s: string, r: string)
  {
    exists i :: IsTrimmedAt(s, r, i)
  }

  /** `r` sits at offset `i` of `s` with nothing but white space before and after it. */
  predicate IsTrimmedAt(s: string, r: string, i: int)
  {
    0 <= i <= |s| - |r| && r == s[i..i + |r|]
    && AllWhitespace(s[..i]) && AllWhitespace(s[i + |r|..])
  }

  /** Trimming only removes white space: text that has none at either end is unchanged. */
  lemma {:induction false} TrimOfBareText(x: string)
    requires x == [] || (!IsWhitespace(x[0]) && !IsWhitespace(x[|x| - 1]))
    ensures Trim(x) == x
  {
  }

  /** White space around text that has none at its ends is exactly what `trim` removes. */
  lemma {:induction false} TrimSurrounded(ws1: string, x: string, ws2: string)
    requires AllWhitespace(ws1) && AllWhitespace(ws2)
    requires x != [] && !IsWhitespace(x[0]) && !IsWhitespace(x[|x| - 1])
    ensures Trim(ws1 + x + ws2) == x
  {
    TrimStartDropsWhitespace(ws1, x + ws2);
    assert ws1 + x + ws2 == ws1 + (x + ws2);
    TrimEndDropsWhitespace(x, ws2);
  }

  lemma {:induction false} TrimStartDropsWhitespace(ws: string, y: string)
    requires AllWhitespace(ws)
    requires y != [] && !IsWhitespace(y[0])
    ensures TrimStart(ws + y) == y
  {
    if ws != [] {
      assert (ws + y)[1..] == ws[1..] + y;
      TrimStartDropsWhitespace(ws[1..], y);
    }
  }

  lemma {:induction false} TrimEndDropsWhitespace(y: string, ws: string)
    requires AllWhitespace(ws)
    requires y != [] && !IsWhitespace(y[|y| - 1])
    ensures TrimEnd(y + ws) == y
  {
    if ws != [] {
      assert (y + ws)[..|y + ws| - 1] == y + ws[..|ws| - 1];
      TrimEndDropsWhitespace(y, ws[..|ws| - 1]);
    } else {
      assert y + ws == y;
    }
  }

  /** Trimming twice is trimming once. */
  lemma TrimIdempotent(s: string)
    ensures Trim(Trim(s)) == Trim(s)
  {
    TrimSpec(s);
    TrimOfBareText(Trim(s));
  }

  /** `parts.join(sep)` */
  function Join(parts: seq<string>, sep: string): (r: string)
    ensures parts == [] ==> r == ""
    ensures |parts| == 1 ==> r == parts[0]
  {
    if parts == [] then ""
    else if |parts| == 1 then parts[0]
    else parts[0] + sep + Join(parts[1..], sep)
  }

  /** Joining two non-empty lists puts one separator between their joins. */
  lemma {:induction false} JoinAppend(a: seq<string>, b: seq<string>, sep: string)
    requires a != [] && b != []
    ensures Join(a + b, sep) == Join(a, sep) + sep + Join(b, sep)
  {
    if |a| == 1 {
      assert (a + b)[1..] == b;
    } else {
      assert (a + b)[1..] == a[1..] + b;
      JoinAppend(a[1..], b, sep);
    }
  }
}
