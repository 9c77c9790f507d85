/**
 * Matching the end of a block: from an opening tag `{{#name ...}}`, walk the
 * opening and closing tags of the same name in text order, counting depth,
 * until the depth returns to zero.
 */
module BlockMatch {
  import opened Common
  import opened Strings
  import opened Markers

  /** Block names are `\w+` runs: the block helper probe captures them, or they are keywords. */
  predicate IsName(name: string) {
    |name| > 0 && forall i :: 0 <= i < |name| ==> IsWordChar(name[i])
  }

  /**
   * `\{\{#name\b[^}]*\}\}` at `j`. The name ends with a word character, so
   * the word boundary asks for a non-word character after it.
   */
  predicate OpenTagAt(t: string, name: string, j: nat) {
    var k := j + 3 + |name|;
    StartsWithAt(t, j, "{{#" + name) && k < |t| && !IsWordChar(t[k]) && ClosedAt(t, RunEnd(t, k))
  }

  function OpenTagEnd(t: string, name: string, j: nat): (e: nat)
    requires OpenTagAt(t, name, j)
    ensures j < e <= |t|
  {
    RunEnd(t, j + 3 + |name|) + 2
  }

  function CloseTag(name: string): string {
    "{{/" + name + "}}"
  }

  /** The first opening tag at or after `from`. */
  function NextOpen(t: string, name: string, from: nat): (r: Option<nat>)
    decreases |t| - from
    ensures r.Some? ==> from <= r.value && OpenTagAt(t, name, r.value)
  {
    if from >= |t| then None
    else if OpenTagAt(t, name, from) then Some(from)
    else NextOpen(t, name, from + 1)
  }

  /** `NextOpen` finds the first opening tag, and nothing only when there is none. */
  lemma {:induction false} NextOpenFirst(t: string, name: string, from: nat)
    decreases |t| - from
    ensures var r := NextOpen(t, name, from);
      (r.Some? ==> forall j :: from <= j < r.value ==> !OpenTagAt(t, name, j))
      && (r.None? ==> forall j :: from <= j ==> !OpenTagAt(t, name, j))
  {
    if from < |t| && !OpenTagAt(t, name, from) {
      var r := NextOpen(t, name, from + 1);
      assert NextOpen(t, name, from) == r;
      NextOpenFirst(t, name, from + 1);
      forall j | from <= j && (r.Some? ==> j < r.value) ensures !OpenTagAt(t, name, j) {
        if j != from {
          assert from + 1 <= j;
        }
      }
    }
  }

  datatype Tag = Open(at: nat, end: nat) | Close(at: nat, end: nat)

  /** A tag the walk can meet: a real opening tag, or a real closing tag, with its extent. */
  predicate ValidTag(t: string, name: string, g: Tag) {
    match g
    case Open(at, end) => OpenTagAt(t, name, at) && end == OpenTagEnd(t, name, at)
    case Close(at, end) => StartsWithAt(t, at, CloseTag(name)) && end == at + |CloseTag(name)|
  }

  /**
   * The next tag the walk takes from `pos`: none once no closing tag is left;
   * otherwise the next opening tag if it comes first, else the next closing tag.
   */
  function NextTag(t: string, name: string, pos: nat): (r: Option<Tag>)
    ensures r.Some? ==> pos <= r.value.at < r.value.end <= |t| && ValidTag(t, name, r.value)
  {
    var c := IndexOf(t, CloseTag(name), pos);
    if c < 0 then None
    else
      match NextOpen(t, name, pos)
      case Some(o) =>
        if o < c then Some(Open(o, OpenTagEnd(t, name, o)))
        else Some(Close(c, c + |CloseTag(name)|))
      case None => Some(Close(c, c + |CloseTag(name)|))
  }

  /** Every tag the walk meets from `pos`, in order. */
  function Tags(t: string, name: string, pos: nat): (r: seq<Tag>)
    decreases |t| - pos
    ensures forall i :: 0 <= i < |r| ==> pos <= r[i].at < r[i].end <= |t|
  {
    if pos >= |t| then []
    else
      match NextTag(t, name, pos)
      case None => []
      case Some(g) => [g] + Tags(t, name, g.end)
  }

  function Delta(g: Tag): int {
    if g.Open? then 1 else -1
  }

  /** Opening tags minus closing tags. */
  function Net(ts: seq<Tag>): int {
    if ts == [] then 0 else Delta(ts[0]) + Net(ts[1..])
  }

  /** The depth after the first `n` tags, starting from depth `d`. */
  function Depth(ts: seq<Tag>, d: int, n: nat): int
    requires n <= |ts|
  {
    d + Net(ts[..n])
  }

  /** The index of the first tag after which the depth, starting at `d`, is zero. */
  function FirstZero(ts: seq<Tag>, d: int): (r: Option<nat>)
    requires d > 0
    ensures r.Some? ==> r.value < |ts|
  {
    if ts == [] then None
    else
      var d' := d + Delta(ts[0]);
      if d' == 0 then Some(0)
      else
        match FirstZero(ts[1..], d')
        case Some(i) => Some(i + 1)
        case None => None
  }

  /**
   * Where the walk stops, starting at depth `d`: just past the tag that
   * brings the depth to zero, or the end of the text when none does.
   */
  function Settle(t: string, ts: seq<Tag>, d: int): nat
    requires d > 0
    requires forall i :: 0 <= i < |ts| ==> ts[i].end <= |t|
    decreases |ts|
  {
    if ts == [] then |t|
    else if d + Delta(ts[0]) == 0 then ts[0].end
    else Settle(t, ts[1..], d + Delta(ts[0]))
  }

  /** The walk stops at the tag `FirstZero` names, or at the end of the text when it names none. */
  lemma {:induction false} SettleFirstZero(t: string, ts: seq<Tag>, d: int)
    requires d > 0
    requires forall i :: 0 <= i < |ts| ==> ts[i].end <= |t|
    decreases |ts|
    ensures Settle(t, ts, d) == match FirstZero(ts, d) case Some(i) => ts[i].end case None => |t|
  {
    if ts != [] && d + Delta(ts[0]) != 0 {
      SettleFirstZero(t, ts[1..], d + Delta(ts[0]));
    }
  }

  /** The end of the block opened at `blockStart`, or the end of the text. */
  function BlockEnd(t: string, blockStart: nat, name: string): nat {
    if OpenTagAt(t, name, blockStart) then
      Settle(t, Tags(t, name, OpenTagEnd(t, name, blockStart)), 1)
    else |t|
  }

  /**
   * The matcher as the engine runs it: skip the opening tag, then take the
   * earlier of the next opening and the next closing tag until the depth is
   * back at zero; `pos` moves forward on every step.
   */
  method FindMatchingBlockEnd(t: string, blockStart: nat, name: string) returns (r: nat)
    requires IsName(name)
    ensures r == BlockEnd(t, blockStart, name)
  {
    var openMatch := NextOpen(t, name, blockStart);
    if openMatch.Some? && openMatch.value == blockStart {
      r := Walk(t, name, OpenTagEnd(t, name, blockStart));
    } else {
      r := |t|;
    }
  }

  /** The loop of the matcher, from just past the opening tag at depth one. */
  method Walk(t: string, name: string, start: nat) returns (r: nat)
    ensures r == Settle(t, Tags(t, name, start), 1)
  {
    ghost var target := Settle(t, Tags(t, name, start), 1);
    var depth := 1;
    var pos := start;
    while depth > 0 && pos < |t|
      invariant depth >= 0
      invariant depth > 0 ==> Settle(t, Tags(t, name, pos), depth) == target
      invariant depth == 0 ==> target == |t|
      decreases |t| - pos
    {
      var nextOpen := NextOpen(t, name, pos);
      var nextClose := IndexOf(t, CloseTag(name), pos);
      if nextClose < 0 {
        assert target == |t| by {
          SettleNoClose(t, name, pos, depth);
        }
        break;
      }
      if nextOpen.Some? && nextOpen.value < nextClose {
        var next := OpenTagEnd(t, name, nextOpen.value);
        assert pos < next && Settle(t, Tags(t, name, next), depth + 1) == target by {
          WalkOpen(t, name, pos, depth, nextOpen.value);
        }
        depth := depth + 1;
        pos := next;
      } else {
        var next := nextClose + |CloseTag(name)|;
        assert pos < next && (depth == 1 ==> next == target)
          && (depth > 1 ==> Settle(t, Tags(t, name, next), depth - 1) == target) by {
          WalkClose(t, name, pos, depth, nextClose, next);
        }
        depth := depth - 1;
        pos := next;
        if depth == 0 {
          return pos;
        }
      }
    }
    return |t|;
  }

  /** A step of the walk that meets an opening tag first goes one level deeper. */
  lemma WalkOpen(t: string, name: string, pos: nat, d: int, o: nat)
    requires d > 0 && pos < |t|
    requires IndexOf(t, CloseTag(name), pos) >= 0 && NextOpen(t, name, pos) == Some(o)
    requires o < IndexOf(t, CloseTag(name), pos)
    ensures pos < OpenTagEnd(t, name, o)
    ensures Settle(t, Tags(t, name, pos), d) == Settle(t, Tags(t, name, OpenTagEnd(t, name, o)), d + 1)
  {
    NextTagIsOpen(t, name, pos);
    SettleOpen(t, name, pos, d, o);
  }

  /** A step of the walk that meets a closing tag first comes up one level, to just past it. */
  lemma WalkClose(t: string, name: string, pos: nat, d: int, c: nat, next: nat)
    requires d > 0 && pos < |t|
    requires c == IndexOf(t, CloseTag(name), pos) && next == c + |CloseTag(name)|
    requires var o := NextOpen(t, name, pos); !(o.Some? && o.value < c)
    ensures pos < next
    ensures d == 1 ==> Settle(t, Tags(t, name, pos), d) == next
    ensures d > 1 ==> Settle(t, Tags(t, name, pos), d) == Settle(t, Tags(t, name, next), d - 1)
  {
    NextTagIsClose(t, name, pos, c);
    TagsUnfold(t, name, pos, Close(c, next));
    var ts := Tags(t, name, pos);
    SettleCloseFirst(t, ts, d, c, next);
    assert ts[1..] == Tags(t, name, next);
  }

  lemma SettleNoClose(t: string, name: string, pos: nat, d: int)
    requires d > 0 && IndexOf(t, CloseTag(name), pos) < 0
    ensures Settle(t, Tags(t, name, pos), d) == |t|
  {
  }

  lemma TagsUnfold(t: string, name: string, pos: nat, g: Tag)
    requires pos < |t| && NextTag(t, name, pos) == Some(g)
    ensures Tags(t, name, pos) == [g] + Tags(t, name, g.end)
  {
  }

  lemma NextTagIsOpen(t: string, name: string, pos: nat)
    requires var c := IndexOf(t, CloseTag(name), pos);
      var o := NextOpen(t, name, pos);
      c >= 0 && o.Some? && o.value < c
    ensures NextTag(t, name, pos) == Some(Open(NextOpen(t, name, pos).value, OpenTagEnd(t, name, NextOpen(t, name, pos).value)))
  {
  }

  lemma NextTagIsClose(t: string, name: string, pos: nat, c: int)
    requires c == IndexOf(t, CloseTag(name), pos) && c >= 0
    requires var o := NextOpen(t, name, pos); !(o.Some? && o.value < c)
    ensures NextTag(t, name, pos) == Some(Close(c, c + |CloseTag(name)|))
  {
  }

  /** An opening tag before the next closing tag deepens the nesting. */
  lemma SettleOpen(t: string, name: string, pos: nat, d: int, o: nat)
    requires d > 0 && pos < |t|
    requires OpenTagAt(t, name, o) && NextTag(t, name, pos) == Some(Open(o, OpenTagEnd(t, name, o)))
    ensures Settle(t, Tags(t, name, pos), d) == Settle(t, Tags(t, name, OpenTagEnd(t, name, o)), d + 1)
  {
    var g := Open(o, OpenTagEnd(t, name, o));
    TagsUnfold(t, name, pos, g);
    var ts := Tags(t, name, pos);
    SettleCons(t, ts, d);
    assert ts[1..] == Tags(t, name, g.end);
  }

  lemma SettleCloseFirst(t: string, ts: seq<Tag>, d: int, c: nat, e: nat)
    requires d > 0 && ts != [] && ts[0] == Close(c, e)
    requires forall i :: 0 <= i < |ts| ==> ts[i].end <= |t|
    ensures d == 1 ==> Settle(t, ts, d) == e
    ensures d > 1 ==> Settle(t, ts, d) == Settle(t, ts[1..], d - 1)
  {
    SettleCons(t, ts, d);
  }

  /** Every tag of the walk is a real opening or closing tag. */
  lemma {:induction false} TagsValid(t: string, name: string, pos: nat)
    ensures forall i :: 0 <= i < |Tags(t, name, pos)| ==> ValidTag(t, name, Tags(t, name, pos)[i])
    decreases |t| - pos
  {
    if pos < |t| && NextTag(t, name, pos).Some? {
      TagsValid(t, name, NextTag(t, name, pos).value.end);
    }
  }

  /** Where the walk stops is decided by its first tag and the rest of the walk. */
  lemma SettleCons(t: string, ts: seq<Tag>, d: int)
    requires d > 0 && ts != []
    requires forall i :: 0 <= i < |ts| ==> ts[i].end <= |t|
    ensures Settle(t, ts, d)
      == if d + Delta(ts[0]) == 0 then ts[0].end else Settle(t, ts[1..], d + Delta(ts[0]))
  {
  }

  lemma DepthCons(ts: seq<Tag>, d: int, n: nat)
    requires n < |ts|
    ensures Depth(ts, d, n + 1) == Depth(ts[1..], d + Delta(ts[0]), n)
  {
    assert ts[..n + 1] == [ts[0]] + ts[1..][..n];
  }

  /**
   * What `FirstZero` finds: the depth is zero after tag `i` and non-zero
   * after every earlier one; when it finds nothing, the depth never reaches zero.
   */
  lemma {:induction false} FirstZeroSpec(ts: seq<Tag>, d: int)
    requires d > 0
    ensures FirstZero(ts, d).Some? ==> var i := FirstZero(ts, d).value;
      Depth(ts, d, i + 1) == 0 && forall n :: 1 <= n <= i ==> Depth(ts, d, n) > 0
    ensures FirstZero(ts, d).None? ==> forall n :: 1 <= n <= |ts| ==> Depth(ts, d, n) > 0
  {
    if ts != [] {
      var d' := d + Delta(ts[0]);
      DepthCons(ts, d, 0);
      assert ts[1..][..0] == [];
      if d' != 0 {
        FirstZeroSpec(ts[1..], d');
        forall n | 1 <= n <= |ts| ensures Depth(ts, d, n) == Depth(ts[1..], d', n - 1) {
          DepthCons(ts, d, n - 1);
        }
      }
    }
  }

  /** The balancing tag is a closing tag: the depth only falls on one. */
  lemma FirstZeroIsClose(ts: seq<Tag>, d: int)
    requires d > 0 && FirstZero(ts, d).Some?
    ensures ts[FirstZero(ts, d).value].Close?
    decreases |ts|
  {
    var d' := d + Delta(ts[0]);
    if d' != 0 {
      FirstZeroIsClose(ts[1..], d');
    }
  }

  /**
   * The block end is always past the opening offset and within the text,
   * so a block the scanner found is never reported as unclosed.
   */
  lemma BlockEndBounds(t: string, blockStart: nat, name: string)
    ensures BlockEnd(t, blockStart, name) <= |t|
    ensures blockStart < |t| ==> BlockEnd(t, blockStart, name) > blockStart
  {
    if OpenTagAt(t, name, blockStart) {
      var p := OpenTagEnd(t, name, blockStart);
      var ts := Tags(t, name, p);
      SettleFirstZero(t, ts, 1);
      match FirstZero(ts, 1)
      case Some(i) =>
        assert p <= ts[i].at < ts[i].end;
      case None =>
    }
  }

  /**
   * When the block end lies inside the text, it is just past a closing tag
   * and the opening and closing tags walked up to it balance: the depth
   * is positive after every earlier tag and zero after that one.
   */
  lemma BlockEndIsBalancedClose(t: string, blockStart: nat, name: string)
    requires BlockEnd(t, blockStart, name) < |t|
    ensures OpenTagAt(t, name, blockStart)
    ensures var r := BlockEnd(t, blockStart, name);
      r >= |CloseTag(name)| && StartsWithAt(t, r - |CloseTag(name)|, CloseTag(name))
    ensures exists i :: (BalancedAt(Tags(t, name, OpenTagEnd(t, name, blockStart)), i)
                         && Tags(t, name, OpenTagEnd(t, name, blockStart))[i].end == BlockEnd(t, blockStart, name))
  {
    var ts := Tags(t, name, OpenTagEnd(t, name, blockStart));
    TagsValid(t, name, OpenTagEnd(t, name, blockStart));
    assert BlockEnd(t, blockStart, name) == Settle(t, ts, 1);
    SettleBalanced(t, ts, 1);
    var i := FirstZero(ts, 1).value;
    assert ValidTag(t, name, ts[i]);
    assert BalancedAt(ts, i);
  }

  /** Tag `i` is the first after which the depth, starting at one, is zero. */
  predicate BalancedAt(ts: seq<Tag>, i: int) {
    0 <= i < |ts| && Depth(ts, 1, i + 1) == 0 && forall n :: 1 <= n <= i ==> Depth(ts, 1, n) > 0
  }

  /** A walk that stops inside the text stops just past a balancing closing tag. */
  lemma SettleBalanced(t: string, ts: seq<Tag>, d: int)
    requires d > 0 && forall i :: 0 <= i < |ts| ==> ts[i].end <= |t|
    requires Settle(t, ts, d) < |t|
    ensures FirstZero(ts, d).Some?
    ensures var i := FirstZero(ts, d).value;
      ts[i].Close? && ts[i].end == Settle(t, ts, d)
      && Depth(ts, d, i + 1) == 0 && forall n :: 1 <= n <= i ==> Depth(ts, d, n) > 0
  {
    SettleFirstZero(t, ts, d);
    FirstZeroIsClose(ts, d);
    FirstZeroSpec(ts, d);
  }

  /** With no closing tag anywhere after the opening, the block runs to the end of the text. */
  lemma UnclosedRunsToEnd(t: string, blockStart: nat, name: string)
    requires IndexOf(t, CloseTag(name), blockStart) < 0
    ensures BlockEnd(t, blockStart, name) == |t|
  {
    if OpenTagAt(t, name, blockStart) {
      var p := OpenTagEnd(t, name, blockStart);
      assert IndexOf(t, CloseTag(name), p) < 0 by {
        IndexOfFirst(t, CloseTag(name), blockStart);
        IndexOfFirst(t, CloseTag(name), p);
      }
    }
  }

  /**
   * A block with no opening tag of the same name before its first closing
   * tag ends just past that closing tag.
   */
  lemma FlatBlockEnd(t: string, blockStart: nat, name: string)
    requires OpenTagAt(t, name, blockStart)
    requires var p := OpenTagEnd(t, name, blockStart);
      var c := IndexOf(t, CloseTag(name), p);
      c >= 0 && forall j :: p <= j < c ==> !OpenTagAt(t, name, j)
    ensures BlockEnd(t, blockStart, name) == IndexOf(t, CloseTag(name), OpenTagEnd(t, name, blockStart)) + |CloseTag(name)|
  {
    var p := OpenTagEnd(t, name, blockStart);
    var c := IndexOf(t, CloseTag(name), p);
    var ts := Tags(t, name, p);
    assert p < |t|;
    assert ts[0] == Close(c, c + |CloseTag(name)|);
    assert ts[..1] == [ts[0]];
  }
}
