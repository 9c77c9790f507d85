/**
 * Helper-call arguments: `tokenizeArguments` breaks the text after a helper
 * name into tokens at unquoted spaces, and `parseHelperArguments` sorts the
 * tokens into positional arguments and `key=value` hash options.
 */
module Arguments {
  import opened Common
  import opened Strings

  /** The four local variables of the tokenizer loop. */
  datatype TokState = TokState(tokens: seq<string>, current: string, inQuotes: bool, quoteChar: string)

  const Start := TokState([], "", false, "")

  predicate IsQuote(c: char) {
    c == '"' || c == '\''
  }

  /** One iteration of the tokenizer loop on character `c`. */
  function Step(st: TokState, c: char): TokState {
    if !st.inQuotes && IsQuote(c) then
      TokState(st.tokens, st.current + [c], true, [c])
    else if st.inQuotes && [c] == st.quoteChar then
      st.(inQuotes := false, current := st.current + [c])
    else if !st.inQuotes && c == ' ' then
      if Trim(st.current) != [] then st.(tokens := st.tokens + [Trim(st.current)], current := "")
      else st
    else
      st.(current := st.current + [c])
  }

  /** The loop run over the characters of `s`, starting from `st`. */
  function Run(st: TokState, s: string): TokState
    decreases |s|
  {
    if s == [] then st else Run(Step(st, s[0]), s[1..])
  }

  /** The flush after the loop: a pending non-blank token is kept, trimmed. */
  function Finish(st: TokState): seq<string> {
    if Trim(st.current) != [] then st.tokens + [Trim(st.current)] else st.tokens
  }

  function Tokens(input: string): seq<string> {
    Finish(Run(Start, input))
  }

  /** Every token is non-empty and has no white space at either end. */
  predicate Clean(ts: seq<string>) {
    forall k :: 0 <= k < |ts| ==> ts[k] != [] && Trim(ts[k]) == ts[k]
  }

  /** `tokenizeArguments`. */
  method TokenizeArguments(input: string) returns (tokens: seq<string>)
    ensures tokens == Tokens(input)
    ensures Clean(tokens)
  {
    tokens := [];
    var current := "";
    var inQuotes := false;
    var quoteChar := "";
    for i := 0 to |input|
      invariant Run(TokState(tokens, current, inQuotes, quoteChar), input[i..]) == Run(Start, input)
      invariant Clean(tokens)
    {
      ghost var st := TokState(tokens, current, inQuotes, quoteChar);
      assert input[i..][1..] == input[i + 1..];
      var ch := input[i];
      if !inQuotes && (ch == '"' || ch == '\'') {
        inQuotes := true;
        quoteChar := [ch];
        current := current + [ch];
      } else if inQuotes && [ch] == quoteChar {
        inQuotes := false;
        current := current + [ch];
      } else if !inQuotes && ch == ' ' {
        if Trim(current) != [] {
          TrimTrim(current);
          tokens := tokens + [Trim(current)];
          current := "";
        }
      } else {
        current := current + [ch];
      }
      assert TokState(tokens, current, inQuotes, quoteChar) == Step(st, ch);
    }
    assert input[|input|..] == [];
    if Trim(current) != [] {
      TrimTrim(current);
      tokens := tokens + [Trim(current)];
    }
  }

  /** The tokenizer only ever emits non-empty, trimmed tokens. */
  lemma {:induction false} RunClean(st: TokState, s: string)
    requires Clean(st.tokens)
    decreases |s|
    ensures Clean(Run(st, s).tokens)
  {
    if s != [] {
      TrimTrim(st.current);
      RunClean(Step(st, s[0]), s[1..]);
    }
  }

  lemma TokensClean(input: string)
    ensures Clean(Tokens(input))
  {
    RunClean(Start, input);
    TrimTrim(Run(Start, input).current);
  }

  /** A word free of white space and quotes. */
  predicate Plain(w: string) {
    forall i :: 0 <= i < |w| ==> !IsSpace(w[i]) && !IsQuote(w[i])
  }

  /** Outside quotes, a plain word is appended to the pending token unchanged. */
  lemma {:induction false} RunPlain(st: TokState, w: string, rest: string)
    requires !st.inQuotes && Plain(w)
    decreases |w|
    ensures Run(st, w + rest) == Run(st.(current := st.current + w), rest)
  {
    if w == [] {
      assert w + rest == rest && st.current + w == st.current;
    } else {
      assert (w + rest)[0] == w[0] && (w + rest)[1..] == w[1..] + rest;
      assert Step(st, w[0]) == st.(current := st.current + [w[0]]);
      RunPlain(Step(st, w[0]), w[1..], rest);
      assert st.current + [w[0]] + w[1..] == st.current + w;
    }
  }

  /** Inside quotes everything except the closing quote, spaces included, is kept. */
  lemma {:induction false} RunInQuotes(st: TokState, body: string, rest: string)
    requires st.inQuotes && |st.quoteChar| == 1 && st.quoteChar[0] !in body
    decreases |body|
    ensures Run(st, body + rest) == Run(st.(current := st.current + body), rest)
  {
    if body == [] {
      assert body + rest == rest && st.current + body == st.current;
    } else {
      assert (body + rest)[0] == body[0] && (body + rest)[1..] == body[1..] + rest;
      assert [body[0]] != st.quoteChar by { assert body[0] in body; }
      RunInQuotes(Step(st, body[0]), body[1..], rest);
      assert st.current + [body[0]] + body[1..] == st.current + body;
    }
  }

  /** A quoted span is read into the pending token whole, quotes and all. */
  lemma RunQuoted(st: TokState, q: char, body: string, rest: string)
    requires !st.inQuotes && IsQuote(q) && q !in body
    ensures Run(st, [q] + body + [q] + rest)
         == Run(st.(current := st.current + [q] + body + [q], quoteChar := [q]), rest)
  {
    var s := [q] + body + [q] + rest;
    assert s[0] == q && s[1..] == body + ([q] + rest);
    var st1 := Step(st, q);
    assert st1 == TokState(st.tokens, st.current + [q], true, [q]);
    RunInQuotes(st1, body, [q] + rest);
    var st2 := st1.(current := st1.current + body);
    assert ([q] + rest)[0] == q && ([q] + rest)[1..] == rest;
    assert Step(st2, q) == st.(current := st.current + [q] + body + [q], quoteChar := [q]);
  }

  /** A quoted argument is one token even when it contains spaces. */
  lemma QuotedToken(q: char, body: string)
    requires IsQuote(q) && q !in body
    ensures Tokens([q] + body + [q]) == [[q] + body + [q]]
  {
    var t := [q] + body + [q];
    RunQuoted(Start, q, body, []);
    assert [q] + body + [q] + [] == t;
    assert Start.current + [q] + body + [q] == t;
    var st := Start.(current := t, quoteChar := [q]);
    assert Run(Start, t) == Run(st, []) == st;
    assert !IsSpace(t[0]) && !IsSpace(t[|t| - 1]);
    TrimNoOp(t);
    assert Finish(st) == [t];
  }

  /** A plain word followed by a space becomes the next token. */
  lemma WordThenSpace(toks: seq<string>, q: string, w: string, rest: string)
    requires w != [] && Plain(w)
    ensures Run(TokState(toks, "", false, q), w + ([' '] + rest)) == Run(TokState(toks + [w], "", false, q), rest)
  {
    var st := TokState(toks, "", false, q);
    RunPlain(st, w, [' '] + rest);
    assert "" + w == w;
    assert ([' '] + rest)[0] == ' ' && ([' '] + rest)[1..] == rest;
    TrimNoOp(w);
    assert Step(st.(current := w), ' ') == TokState(toks + [w], "", false, q);
  }

  lemma {:induction false} RunJoin(toks: seq<string>, q: string, ws: seq<string>)
    requires |ws| >= 1
    requires forall k :: 0 <= k < |ws| ==> ws[k] != [] && Plain(ws[k])
    decreases |ws|
    ensures Run(TokState(toks, "", false, q), Join(ws, ' '))
         == TokState(toks + ws[..|ws| - 1], ws[|ws| - 1], false, q)
  {
    var w := ws[0];
    if |ws| == 1 {
      RunPlain(TokState(toks, "", false, q), w, []);
      assert w + [] == w && "" + w == w;
      assert toks + ws[..0] == toks;
    } else {
      var rest := Join(ws[1..], ' ');
      assert Join(ws, ' ') == w + ([' '] + rest);
      assert Run(TokState(toks, "", false, q), w + ([' '] + rest)) == Run(TokState(toks + [w], "", false, q), rest) by {
        WordThenSpace(toks, q, w, rest);
      }
      assert Run(TokState(toks + [w], "", false, q), rest)
          == TokState(toks + [w] + ws[1..][..|ws| - 2], ws[|ws| - 1], false, q) by {
        RunJoin(toks + [w], q, ws[1..]);
      }
      assert toks + [w] + ws[1..][..|ws| - 2] == toks + ws[..|ws| - 1];
    }
  }

  /** Space-separated plain words tokenize back to exactly those words. */
  lemma TokensJoin(ws: seq<string>)
    requires forall k :: 0 <= k < |ws| ==> ws[k] != [] && Plain(ws[k])
    ensures Tokens(Join(ws, ' ')) == ws
  {
    if |ws| > 0 {
      var n := |ws|;
      var w := ws[n - 1];
      assert Run(Start, Join(ws, ' ')) == TokState(ws[..n - 1], w, false, "") by {
        RunJoin([], "", ws);
        assert [] + ws[..n - 1] == ws[..n - 1];
      }
      assert Trim(w) == w by {
        assert Plain(w);
        assert !IsSpace(w[0]) && !IsSpace(w[|w| - 1]);
        TrimNoOp(w);
      }
      FrontLast(ws);
    }
  }

  /** `token.includes("=")`, located by `token.indexOf("=")`. */
  predicate IsPair(t: string) {
    IndexOf(t, "=", 0) >= 0
  }

  /** The text before the first `=`. */
  function Key(t: string): (k: string)
    requires IsPair(t)
    ensures '=' !in k
  {
    var e := IndexOf(t, "=", 0);
    assert '=' !in t[..e] by {
      IndexOfFirst(t, "=", 0);
      forall j | 0 <= j < e ensures t[j] != '=' {
        assert !StartsWithAt(t, j, "=");
      }
    }
    t[..e]
  }

  /** The text after the first `=`, which may itself contain `=`. */
  function Value(t: string): (v: string)
    requires IsPair(t)
    ensures t == Key(t) + "=" + v
  {
    var e := IndexOf(t, "=", 0);
    assert t[e..e + 1] == "=";
    t[e + 1..]
  }

  /** The positional arguments: the tokens without `=`, in order. */
  function Positional(ts: seq<string>): seq<string> {
    if ts == [] then []
    else if IsPair(ts[|ts| - 1]) then Positional(ts[..|ts| - 1])
    else Positional(ts[..|ts| - 1]) + [ts[|ts| - 1]]
  }

  /** The hash options, each token overwriting any earlier one with the same key. */
  function HashOf(ts: seq<string>): map<string, string> {
    if ts == [] then map[]
    else if IsPair(ts[|ts| - 1]) then HashOf(ts[..|ts| - 1])[Key(ts[|ts| - 1]) := Value(ts[|ts| - 1])]
    else HashOf(ts[..|ts| - 1])
  }

  /** `parseHelperArguments`: tokenize the trimmed text, then sort the tokens. */
  method ParseHelperArguments(argsString: string) returns (args: seq<string>, hash: map<string, string>)
    ensures args == Positional(Tokens(Trim(argsString)))
    ensures hash == HashOf(Tokens(Trim(argsString)))
  {
    var tokens := TokenizeArguments(Trim(argsString));
    args, hash := SortTokens(tokens);
  }

  /** The loop of `parseHelperArguments` over the tokens. */
  method SortTokens(tokens: seq<string>) returns (args: seq<string>, hash: map<string, string>)
    ensures args == Positional(tokens)
    ensures hash == HashOf(tokens)
  {
    args := [];
    hash := map[];
    for i := 0 to |tokens|
      invariant args == Positional(tokens[..i])
      invariant hash == HashOf(tokens[..i])
    {
      var token := tokens[i];
      assert tokens[..i + 1] == tokens[..i] + [token];
      SortStep(tokens[..i], token);
      var eqIndex := IndexOf(token, "=", 0);
      if eqIndex >= 0 {
        var key := token[..eqIndex];
        var value := token[eqIndex + 1..];
        hash := hash[key := value];
      } else {
        args := args + [token];
      }
    }
    assert tokens[..|tokens|] == tokens;
  }

  /** One more token: a pair goes to the hash, any other token to the positional arguments. */
  lemma SortStep(ts: seq<string>, t: string)
    ensures Positional(ts + [t]) == if IsPair(t) then Positional(ts) else Positional(ts) + [t]
    ensures HashOf(ts + [t]) == if IsPair(t) then HashOf(ts)[Key(t) := Value(t)] else HashOf(ts)
  {
    assert (ts + [t])[..|ts|] == ts;
  }

  /** Filtering distributes over concatenation. */
  lemma {:induction false} PositionalAppend(a: seq<string>, b: seq<string>)
    decreases |b|
    ensures Positional(a + b) == Positional(a) + Positional(b)
  {
    if b == [] {
      assert a + b == a;
    } else {
      var b' := b[..|b| - 1];
      assert (a + b)[..|a + b| - 1] == a + b';
      PositionalAppend(a, b');
    }
  }

  /** Without `=` in any token, every token is a positional argument. */
  lemma {:induction false} PositionalAll(ts: seq<string>)
    requires forall k :: 0 <= k < |ts| ==> !IsPair(ts[k])
    ensures Positional(ts) == ts
    ensures HashOf(ts) == map[]
  {
    if ts != [] {
      PositionalAll(ts[..|ts| - 1]);
    }
  }

  /** No positional argument contains `=`. */
  lemma {:induction false} PositionalHasNoPair(ts: seq<string>, k: nat)
    requires k < |Positional(ts)|
    ensures !IsPair(Positional(ts)[k])
    ensures Positional(ts)[k] in ts
  {
    var l := ts[..|ts| - 1];
    if k < |Positional(l)| {
      PositionalHasNoPair(l, k);
      assert Positional(ts)[k] == Positional(l)[k];
    }
  }

  /** Some token supplies the option `key`. */
  predicate HasKey(ts: seq<string>, key: string) {
    exists i :: (0 <= i < |ts| && IsPair(ts[i]) && Key(ts[i]) == key)
  }

  /** The hash has an entry for exactly the keys some token supplies. */
  lemma {:induction false} HashDomain(ts: seq<string>, key: string)
    ensures key in HashOf(ts) <==> HasKey(ts, key)
  {
    if ts != [] {
      var l := ts[..|ts| - 1];
      HashDomain(l, key);
      if HasKey(l, key) {
        var i :| 0 <= i < |l| && IsPair(l[i]) && Key(l[i]) == key;
        assert ts[i] == l[i];
      }
      if HasKey(ts, key) && !(IsPair(ts[|ts| - 1]) && Key(ts[|ts| - 1]) == key) {
        var i :| 0 <= i < |ts| && IsPair(ts[i]) && Key(ts[i]) == key;
        assert i < |l| && l[i] == ts[i];
      }
      if IsPair(ts[|ts| - 1]) && Key(ts[|ts| - 1]) == key {
        assert HasKey(ts, key) by { assert IsPair(ts[|ts| - 1]); }
      }
    }
  }

  /** The last token with a given key decides its value. */
  lemma {:induction false} HashLastWins(ts: seq<string>, i: nat)
    requires i < |ts| && IsPair(ts[i])
    requires forall j :: i < j < |ts| && IsPair(ts[j]) ==> Key(ts[j]) != Key(ts[i])
    ensures Key(ts[i]) in HashOf(ts) && HashOf(ts)[Key(ts[i])] == Value(ts[i])
  {
    var l := ts[..|ts| - 1];
    if i < |ts| - 1 {
      assert l[i] == ts[i];
      forall j | i < j < |l| && IsPair(l[j]) ensures Key(l[j]) != Key(l[i]) {
        assert l[j] == ts[j];
      }
      HashLastWins(l, i);
    }
  }
}
