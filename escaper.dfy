/**
 * The HTML escaper of the engine: a table maps six characters to entities
 * and every other character is copied through.
 */
module Escaper {
  import opened Common

  /** The entity table: `& < > " ' `` and nothing else has an entry. */
  function Entity(c: char): Option<string> {
    if c == '&' then Some("&amp;")
    else if c == '<' then Some("&lt;")
    else if c == '>' then Some("&gt;")
    else if c == '"' then Some("&quot;")
    else if c == '\'' then Some("&#39;")
    else if c == '`' then Some("&#x60;")
    else None
  }

  predicate IsSpecial(c: char) {
    Entity(c).Some?
  }

  predicate NoSpecial(s: string) {
    forall i :: 0 <= i < |s| ==> !IsSpecial(s[i])
  }

  /** What one character becomes in the output. */
  function EncodeChar(c: char): string {
    match Entity(c)
    case Some(e) => e
    case None => [c]
  }

  /** The escaped text: every character replaced by its encoding, in order. */
  function Escaped(s: string): string {
    if s == [] then [] else Escaped(s[..|s| - 1]) + EncodeChar(s[|s| - 1])
  }

  /**
   * The escaper as the engine runs it: one pass that appends the unescaped
   * stretch before each special character and then its entity, and returns
   * the input itself when nothing needed escaping.
   */
  method Escape(text: string) returns (r: string)
    ensures r == Escaped(text)
    ensures NoSpecial(text) ==> r == text
  {
    var result := "";
    var lastIndex := 0;
    for i := 0 to |text|
      invariant 0 <= lastIndex <= i
      invariant result + text[lastIndex..i] == Escaped(text[..i])
      invariant lastIndex == 0 ==> result == ""
    {
      EscapedStep(text, i);
      var entity := Entity(text[i]);
      if entity.Some? {
        assert EncodeChar(text[i]) == entity.value;
        result := result + text[lastIndex..i] + entity.value;
        lastIndex := i + 1;
        assert text[lastIndex..i + 1] == [];
      } else {
        assert EncodeChar(text[i]) == [text[i]];
        SliceExtend(text, lastIndex, i);
      }
    }
    assert text[..|text|] == text;
    if NoSpecial(text) {
      EscapedNoSpecial(text);
    }
    if lastIndex == 0 {
      r := text;
    } else {
      r := result + text[lastIndex..];
    }
  }

  lemma SliceExtend(s: string, a: nat, i: nat)
    requires a <= i < |s|
    ensures s[a..i + 1] == s[a..i] + [s[i]]
  {
  }

  lemma EscapedStep(text: string, i: nat)
    requires i < |text|
    ensures Escaped(text[..i + 1]) == Escaped(text[..i]) + EncodeChar(text[i])
  {
    assert text[..i + 1][..i] == text[..i];
    assert text[..i + 1][i] == text[i];
  }

  /** Escaping works character by character, so it distributes over concatenation. */
  lemma {:induction false} EscapedAppend(a: string, b: string)
    decreases |b|
    ensures Escaped(a + b) == Escaped(a) + Escaped(b)
  {
    if b != [] {
      var b' := b[..|b| - 1];
      assert (a + b)[..|a + b| - 1] == a + b';
      EscapedAppend(a, b');
    } else {
      assert a + b == a;
    }
  }

  lemma EscapedCons(c: char, s: string)
    ensures Escaped([c] + s) == EncodeChar(c) + Escaped(s)
  {
    assert Escaped([c]) == EncodeChar(c) by {
      assert [c][..0] == [];
    }
    EscapedAppend([c], s);
  }

  /** Text without any of the six characters is left as it is. */
  lemma {:induction false} EscapedNoSpecial(s: string)
    requires NoSpecial(s)
    ensures Escaped(s) == s
  {
    if s != [] {
      EscapedNoSpecial(s[..|s| - 1]);
    }
  }

  /**
   * The output never contains a raw `<`, `>`, `"`, `'` or backquote: those
   * characters only ever appear through their entities, and every `&` in
   * the output begins one of them.
   */
  lemma {:induction false} EscapedIsSafe(s: string)
    ensures forall i :: 0 <= i < |Escaped(s)| ==> IsSpecial(Escaped(s)[i]) ==> Escaped(s)[i] == '&'
    ensures forall i :: 0 <= i < |Escaped(s)| && Escaped(s)[i] == '&' ==>
      exists c :: IsSpecial(c) && EncodeChar(c) <= Escaped(s)[i..]
  {
    if s != [] {
      EscapedIsSafe(s[..|s| - 1]);
    }
    forall i | 0 <= i < |Escaped(s)| && Escaped(s)[i] == '&'
      ensures exists c :: IsSpecial(c) && EncodeChar(c) <= Escaped(s)[i..]
    {
      AmpersandBeginsEntity(s, i);
    }
  }

  /** The encoding of one character holds `&` only as its first character, and then is an entity. */
  lemma AmpersandFirst(c: char, k: nat)
    requires k < |EncodeChar(c)| && EncodeChar(c)[k] == '&'
    ensures k == 0 && IsSpecial(c)
  {
  }

  /** An `&` at offset `i` of the escaped text is the start of the encoding of a special character. */
  lemma {:induction false} AmpersandBeginsEntity(s: string, i: nat)
    requires i < |Escaped(s)| && Escaped(s)[i] == '&'
    ensures exists c :: IsSpecial(c) && EncodeChar(c) <= Escaped(s)[i..]
    decreases |s|
  {
    var c := s[0];
    var e := EncodeChar(c);
    assert s == [c] + s[1..];
    EscapedCons(c, s[1..]);
    if i < |e| {
      AmpersandFirst(c, i);
      assert e <= Escaped(s)[i..];
    } else {
      AmpersandBeginsEntity(s[1..], i - |e|);
      var d :| IsSpecial(d) && EncodeChar(d) <= Escaped(s[1..])[i - |e|..];
      assert Escaped(s)[i..] == Escaped(s[1..])[i - |e|..];
    }
  }

  /** HTML entity decoding for exactly the entities of the table. */
  function Unescape(s: string): string
    decreases |s|
  {
    if s == [] then []
    else if "&amp;" <= s then "&" + Unescape(s[5..])
    else if "&lt;" <= s then "<" + Unescape(s[4..])
    else if "&gt;" <= s then ">" + Unescape(s[4..])
    else if "&quot;" <= s then "\"" + Unescape(s[6..])
    else if "&#39;" <= s then "'" + Unescape(s[5..])
    else if "&#x60;" <= s then "`" + Unescape(s[6..])
    else [s[0]] + Unescape(s[1..])
  }

  /** Decoding the encoding of a character, followed by more text, gives the character back first. */
  lemma UnescapeEncodeChar(c: char, rest: string)
    ensures Unescape(EncodeChar(c) + rest) == [c] + Unescape(rest)
  {
    var e := EncodeChar(c);
    var s := e + rest;
    assert s[..|e|] == e && s[|e|..] == rest;
    assert s[0] == e[0];
    if IsSpecial(c) {
      assert s[1] == e[1] && s[2] == e[2];
    }
  }

  /** Decoding the escaped text gives back the original text. */
  lemma {:induction false} UnescapeEscaped(s: string)
    decreases |s|
    ensures Unescape(Escaped(s)) == s
  {
    if s != [] {
      assert s == [s[0]] + s[1..];
      EscapedCons(s[0], s[1..]);
      UnescapeEncodeChar(s[0], Escaped(s[1..]));
      UnescapeEscaped(s[1..]);
    }
  }
}
