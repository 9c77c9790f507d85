/**
 * Data paths: `generateDataAccessor` and `generateSubPath` turn a path such
 * as `this`, `@parent.user.name` or `items.0.title` into a chain of
 * optional-chaining property reads. Here the chain is the list of keys it
 * reads, and `Eval` performs the reads on a value. The engine writes a key
 * as `?.key` when it is an identifier and as `?.["key"]` otherwise; both
 * read the same property, so only the key is kept.
 */
module Paths {
  import opened Strings
  import opened Values

  const ParentKey := "@parent"

  /** `generateSubPath`: one read per `.`-separated part, empty parts included. */
  function SubPath(path: string): (keys: seq<string>)
    ensures |keys| >= 1
  {
    Split(path, '.')
  }

  /** `generateDataAccessor`: the keys read, starting from the current data. */
  function DataAccessor(path: string): (keys: seq<string>) {
    if path == "this" then []
    else if StartsWithAt(path, 0, ParentKey) then
      if path == ParentKey then [ParentKey]
      else [ParentKey] + SubPath(Slice(path, 8, |path|))
    else if IsIdentifier(path) then [path]
    else SubPath(path)
  }

  /** The reads performed one after another; a nullish value stays `undefined`. */
  function Eval(v: Value, keys: seq<string>): Value
    decreases |keys|
  {
    if keys == [] then v else Eval(Get(v, keys[0]), keys[1..])
  }

  /** `this` is the current data itself. */
  lemma ThisIsData(v: Value)
    ensures Eval(v, DataAccessor("this")) == v
  {
  }

  /** Reading a path in two pieces is reading it whole. */
  lemma {:induction false} EvalAppend(v: Value, a: seq<string>, b: seq<string>)
    decreases |a|
    ensures Eval(v, a + b) == Eval(Eval(v, a), b)
  {
    if a != [] {
      assert (a + b)[0] == a[0] && (a + b)[1..] == a[1..] + b;
      EvalAppend(Get(v, a[0]), a[1..], b);
    } else {
      assert a + b == b;
    }
  }

  /** Optional chaining: once a read gives `null` or `undefined`, the whole chain is `undefined`. */
  lemma {:induction false} EvalNullish(v: Value, keys: seq<string>)
    requires IsNullish(v) && keys != []
    decreases |keys|
    ensures Eval(v, keys) == Undefined
  {
    if |keys| > 1 {
      EvalNullish(Undefined, keys[1..]);
    }
  }

  /** An identifier contains no `.`, so it is a one-part path. */
  lemma IdentifierSplit(path: string)
    requires IsIdentifier(path)
    ensures Split(path, '.') == [path]
  {
    assert '.' !in path by {
      forall i | 0 <= i < |path| ensures path[i] != '.' {
        assert IsWordChar(path[i]);
      }
    }
    SplitJoin([path], '.');
  }

  /**
   * An ordinary path reads its `.`-separated parts in order, whether or not
   * it took the identifier shortcut, and joining the keys gives the path back.
   */
  lemma OrdinaryPath(path: string)
    requires path != "this" && !StartsWithAt(path, 0, ParentKey)
    ensures DataAccessor(path) == Split(path, '.')
    ensures Join(DataAccessor(path), '.') == path
  {
    if IsIdentifier(path) {
      IdentifierSplit(path);
    }
    JoinSplit(path, '.');
  }

  /** `@parent.rest` reads `@parent` and then the parts of `rest`. */
  lemma ParentPath(rest: string)
    ensures DataAccessor(ParentKey + "." + rest) == [ParentKey] + Split(rest, '.')
    ensures Join(DataAccessor(ParentKey + "." + rest)[1..], '.') == rest
  {
    var path := ParentKey + "." + rest;
    assert path[..7] == ParentKey;
    assert StartsWithAt(path, 0, ParentKey);
    assert path[8..] == rest;
    assert Slice(path, 8, |path|) == rest;
    SliceInRange(path, 8, |path|);
    assert path[8..] == rest;
    assert path != "this";
    assert DataAccessor(path) == [ParentKey] + SubPath(Slice(path, 8, |path|));
    JoinSplit(rest, '.');
  }

  /** Keys written with dots between them are read back exactly. */
  lemma DottedKeys(keys: seq<string>)
    requires |keys| >= 1 && forall k :: 0 <= k < |keys| ==> '.' !in keys[k]
    requires Join(keys, '.') != "this" && !StartsWithAt(Join(keys, '.'), 0, ParentKey)
    ensures DataAccessor(Join(keys, '.')) == keys
  {
    OrdinaryPath(Join(keys, '.'));
    SplitJoin(keys, '.');
  }
}
