/**
 * The JavaScript string primitives the engine is written with: the `\s`
 * and `\w` character classes, `trim`, `startsWith`/`indexOf`, `slice` with
 * its clamping rules, `split` on one character, and decimal numerals.
 */
module Strings {
  import opened Common

  /**
   * JavaScript's `\s` class; `String.prototype.trim` strips the same set:
   * the ASCII white space characters, the no-break space, the Unicode space
   * separators, the line and paragraph separators and the byte order mark.
   */
  const SpaceChars: set<char> := {
    ' ', '\t', '\n', '\r', '\U{000B}', '\U{000C}', '\U{00A0}', '\U{1680}',
    '\U{2000}', '\U{2001}', '\U{2002}', '\U{2003}', '\U{2004}', '\U{2005}',
    '\U{2006}', '\U{2007}', '\U{2008}', '\U{2009}', '\U{200A}',
    '\U{2028}', '\U{2029}', '\U{202F}', '\U{205F}', '\U{3000}', '\U{FEFF}'
  }

  predicate IsSpace(c: char) {
    c in SpaceChars
  }

  /** JavaScript's `\w` class. */
  predicate IsWordChar(c: char) {
    ('a' <= c <= 'z') || ('A' <= c <= 'Z') || ('0' <= c <= '9') || c == '_'
  }

  predicate IsDigit(c: char) {
    '0' <= c <= '9'
  }

  /** The regular expression `^[a-zA-Z_][a-zA-Z0-9_]*$`. */
  predicate IsIdentifier(s: string) {
    |s| > 0 && IsWordChar(s[0]) && !IsDigit(s[0])
    && forall i :: 0 <= i < |s| ==> IsWordChar(s[i])
  }

  predicate AllSpace(s: string) {
    forall i :: 0 <= i < |s| ==> IsSpace(s[i])
  }

  function TrimEnd(s: string): (r: string)
    ensures |r| <= |s| && r == s[..|r|]
    ensures AllSpace(s[|r|..])
    ensures r != [] ==> !IsSpace(r[|r| - 1])
  {
    if s != [] && IsSpace(s[|s| - 1]) then
      var s' := s[..|s| - 1];
      var r := TrimEnd(s');
      assert s[..|r|] == s'[..|r|];
      assert s[|r|..] == s'[|r|..] + [s[|s| - 1]];
      AllSpaceSnoc(s'[|r|..], s[|s| - 1]);
      r
    else s
  }

  lemma AllSpaceCons(c: char, w: string)
    requires IsSpace(c) && AllSpace(w)
    ensures AllSpace([c] + w)
  {
    assert forall i :: 0 < i <= |w| ==> ([c] + w)[i] == w[i - 1];
  }

  lemma AllSpaceSnoc(w: string, c: char)
    requires AllSpace(w) && IsSpace(c)
    ensures AllSpace(w + [c])
  {
    assert forall i :: 0 <= i < |w| ==> (w + [c])[i] == w[i];
  }

  /**
   * `String.prototype.trim`: drop the leading white space, then the
   * trailing white space.
   */
  function Trim(s: string): (r: string)
    ensures |r| <= |s|
    ensures r != [] ==> !IsSpace(r[0]) && !IsSpace(r[|r| - 1])
  {
    if s != [] && IsSpace(s[0]) then Trim(s[1..]) else TrimEnd(s)
  }

  /**
   * The trimmed text is the contiguous part of `s` that lies between a run of
   * leading and a run of trailing white space; `a` is where it starts.
   */
  lemma {:induction false} TrimSlice(s: string) returns (a: nat)
    ensures a + |Trim(s)| <= |s| && Trim(s) == s[a..a + |Trim(s)|]
    ensures AllSpace(s[..a]) && AllSpace(s[a + |Trim(s)|..])
  {
    if s != [] && IsSpace(s[0]) {
      var a' := TrimSlice(s[1..]);
      a := a' + 1;
      var r := Trim(s[1..]);
      assert Trim(s) == r;
      SliceAfterSpace(s, a', r);
    } else {
      a := 0;
      assert Trim(s) == TrimEnd(s);
    }
  }

  /** The trimmed text is a contiguous piece of `s`. */
  lemma TrimPiece(s: string) returns (a: nat)
    ensures a + |Trim(s)| <= |s| && Trim(s) == s[a..a + |Trim(s)|]
  {
    a := TrimSlice(s);
  }

  /** A slice of `s[1..]` between white-space runs, seen from `s` when `s[0]` is white space. */
  lemma SliceAfterSpace(s: string, a: nat, r: string)
    requires s != [] && IsSpace(s[0])
    requires a + |r| <= |s| - 1 && r == s[1..][a..a + |r|]
    requires AllSpace(s[1..][..a]) && AllSpace(s[1..][a + |r|..])
    ensures r == s[a + 1..a + 1 + |r|]
    ensures AllSpace(s[..a + 1]) && AllSpace(s[a + 1 + |r|..])
  {
    assert s[1..][a..a + |r|] == s[a + 1..a + 1 + |r|];
    assert s[..a + 1] == [s[0]] + s[1..][..a];
    AllSpaceCons(s[0], s[1..][..a]);
    assert s[1..][a + |r|..] == s[a + 1 + |r|..];
  }

  /** Leading white space never survives trimming. */
  lemma {:induction false} TrimLeadingSpace(w: string, s: string)
    requires AllSpace(w)
    decreases |w|
    ensures Trim(w + s) == Trim(s)
  {
    if w != [] {
      assert (w + s)[1..] == w[1..] + s;
      TrimLeadingSpace(w[1..], s);
    } else {
      assert w + s == s;
    }
  }

  /** Trimming a string with no white space at either end changes nothing. */
  lemma TrimNoOp(s: string)
    requires s != [] ==> !IsSpace(s[0]) && !IsSpace(s[|s| - 1])
    ensures Trim(s) == s
  {
  }

  /** `Trim` is idempotent. */
  lemma TrimTrim(s: string)
    ensures Trim(Trim(s)) == Trim(s)
  {
    TrimNoOp(Trim(s));
  }

  /** `s.startsWith(p, i)`: `p` occurs in `s` at offset `i`. */
  predicate StartsWithAt(s: string, i: int, p: string) {
    0 <= i <= |s| && p <= s[i..]
  }

  predicate Contains(s: string, p: string) {
    exists i :: 0 <= i <= |s| && StartsWithAt(s, i, p)
  }

  /**
   * `s.indexOf(p, from)` for a non-empty `p`: the first offset at or after
   * `from` where `p` occurs, or -1.
   */
  function IndexOf(s: string, p: string, from: nat): (r: int)
    decreases |s| + 1 - from
    ensures r == -1 || (from <= r <= |s| && StartsWithAt(s, r, p))
  {
    if from > |s| then -1
    else if StartsWithAt(s, from, p) then from
    else IndexOf(s, p, from + 1)
  }

  /** `IndexOf` finds the first occurrence, and reports -1 only when there is none. */
  lemma {:induction false} IndexOfFirst(s: string, p: string, from: nat)
    decreases |s| + 1 - from
    ensures var r := IndexOf(s, p, from);
      (r >= 0 ==> forall j :: from <= j < r ==> !StartsWithAt(s, j, p))
      && (r == -1 <==> forall j :: from <= j <= |s| ==> !StartsWithAt(s, j, p))
  {
    if from <= |s| && !StartsWithAt(s, from, p) {
      var r := IndexOf(s, p, from + 1);
      assert IndexOf(s, p, from) == r;
      IndexOfFirst(s, p, from + 1);
      forall j | from <= j <= |s| && (r >= 0 ==> j < r) ensures !StartsWithAt(s, j, p) {
        if j != from {
          assert from + 1 <= j;
        }
      }
    }
  }

  /** An occurrence found anywhere is found by `IndexOf` from 0. */
  lemma IndexOfContains(s: string, p: string)
    ensures Contains(s, p) <==> IndexOf(s, p, 0) >= 0
  {
    IndexOfFirst(s, p, 0);
    if IndexOf(s, p, 0) >= 0 {
      assert StartsWithAt(s, IndexOf(s, p, 0), p);
    }
  }

  /**
   * Searching the text after `s` is searching the whole text from `s`:
   * `t.slice(s).indexOf(p)`, shifted back by `s`, is `t.indexOf(p, s)`.
   */
  lemma {:induction false} IndexOfShift(t: string, p: string, s: nat, from: nat)
    requires s <= |t| && from <= |t| - s + 1
    decreases |t| - s + 1 - from
    ensures var i := IndexOf(t[s..], p, from);
      IndexOf(t, p, s + from) == if i < 0 then -1 else s + i
  {
    if from <= |t| - s {
      assert t[s..][from..] == t[s + from..];
      assert StartsWithAt(t[s..], from, p) == StartsWithAt(t, s + from, p);
      if !StartsWithAt(t, s + from, p) {
        IndexOfShift(t, p, s, from + 1);
      }
    }
  }

  /** How `slice` normalises an index: negative counts from the end, then clamp. */
  function ClampIndex(x: int, n: nat): (r: nat)
    ensures r <= n
  {
    if x < 0 then (if n + x < 0 then 0 else n + x)
    else if x > n then n
    else x
  }

  /** `s.slice(a, b)`, including its negative-index and empty-range rules. */
  function Slice(s: string, a: int, b: int): string {
    var i := ClampIndex(a, |s|);
    var j := ClampIndex(b, |s|);
    if i < j then s[i..j] else []
  }

  /** With both ends in range, `slice` is the plain subsequence, or empty when the ends are reversed. */
  lemma SliceInRange(s: string, a: int, b: int)
    requires 0 <= a <= |s| && 0 <= b <= |s|
    ensures Slice(s, a, b) == if a <= b then s[a..b] else []
  {
  }

  /** A slice is no longer than what lies after its normalised start. */
  lemma SliceWithin(s: string, a: int, b: int)
    ensures |Slice(s, a, b)| <= |s| - ClampIndex(a, |s|)
  {
  }

  /** `s.split(c)` for a one-character separator. */
  function Split(s: string, c: char): (r: seq<string>)
    decreases |s|
    ensures |r| >= 1
    ensures forall k :: 0 <= k < |r| ==> c !in r[k]
  {
    var i := IndexOf(s, [c], 0);
    IndexOfFirst(s, [c], 0);
    if i < 0 then
      assert forall j :: 0 <= j < |s| ==> !StartsWithAt(s, j, [c]);
      assert c !in s by {
        if c in s {
          var j :| 0 <= j < |s| && s[j] == c;
          assert StartsWithAt(s, j, [c]);
        }
      }
      [s]
    else
      assert c !in s[..i] by {
        if c in s[..i] {
          var j :| 0 <= j < i && s[j] == c;
          assert StartsWithAt(s, j, [c]);
        }
      }
      [s[..i]] + Split(s[i + 1..], c)
  }

  /** `parts.join(c)`. */
  function Join(parts: seq<string>, c: char): string {
    if |parts| == 0 then ""
    else if |parts| == 1 then parts[0]
    else parts[0] + [c] + Join(parts[1..], c)
  }

  /** Splitting and joining again on the same character gives back the text. */
  lemma {:induction false} JoinSplit(s: string, c: char)
    decreases |s|
    ensures Join(Split(s, c), c) == s
  {
    var i := IndexOf(s, [c], 0);
    if i >= 0 {
      JoinSplit(s[i + 1..], c);
      assert s[i..i + 1] == [c];
      assert s == s[..i] + [c] + s[i + 1..];
    }
  }

  /** Conversely, parts free of the separator are recovered by splitting their join. */
  lemma {:induction false} SplitJoin(parts: seq<string>, c: char)
    requires |parts| >= 1
    requires forall k :: 0 <= k < |parts| ==> c !in parts[k]
    ensures Split(Join(parts, c), c) == parts
  {
    var s := Join(parts, c);
    if |parts| == 1 {
      assert IndexOf(s, [c], 0) == -1 by {
        IndexOfFirst(s, [c], 0);
        forall j | 0 <= j <= |s| ensures !StartsWithAt(s, j, [c]) {
          if j < |s| { assert s[j] in parts[0]; }
        }
      }
    } else {
      var p := parts[0];
      assert s == p + [c] + Join(parts[1..], c);
      assert StartsWithAt(s, |p|, [c]);
      forall j | 0 <= j < |p| ensures !StartsWithAt(s, j, [c]) {
        assert s[j] == p[j] && p[j] in p;
      }
      assert IndexOf(s, [c], 0) == |p| by {
        IndexOfFirst(s, [c], 0);
      }
      assert s[..|p|] == p;
      assert s[|p| + 1..] == Join(parts[1..], c);
      SplitJoin(parts[1..], c);
    }
  }

  function DigitChar(d: nat): (c: char)
    requires d < 10
    ensures IsDigit(c) && c as int - '0' as int == d
  {
    (d + '0' as int) as char
  }

  /** `String(n)` for a natural number: its shortest decimal numeral. */
  function NatToString(n: nat): (r: string)
    ensures |r| >= 1
    ensures forall i :: 0 <= i < |r| ==> IsDigit(r[i])
    ensures r[0] == '0' ==> n == 0
  {
    if n < 10 then [DigitChar(n)]
    else NatToString(n / 10) + [DigitChar(n % 10)]
  }

  predicate AllDigits(s: string) {
    forall i :: 0 <= i < |s| ==> IsDigit(s[i])
  }

  /** The value of a decimal numeral (the regular expression `^\d+$`). */
  function ParseDigits(s: string): nat
    requires AllDigits(s)
  {
    if s == [] then 0
    else 10 * ParseDigits(s[..|s| - 1]) + (s[|s| - 1] as int - '0' as int)
  }

  /** Reading back a printed number gives the number. */
  lemma {:induction false} ParseNatToString(n: nat)
    ensures ParseDigits(NatToString(n)) == n
  {
    if n >= 10 {
      var s := NatToString(n);
      assert s[..|s| - 1] == NatToString(n / 10);
      ParseNatToString(n / 10);
    }
  }

  /** Distinct numbers print differently, so `"0"`, `"1"`, ... are distinct keys. */
  lemma NatToStringInjective(a: nat, b: nat)
    ensures NatToString(a) == NatToString(b) ==> a == b
  {
    ParseNatToString(a);
    ParseNatToString(b);
  }
}
