/** Failure-carrying wrappers shared by every module of the model. */
module Common {

  datatype Option<+T> = None | Some(value: T)

  /** The outcome of an operation that the engine can abort by throwing. */
  datatype Result<+T, +E> = Ok(value: T) | Err(error: E)

  /** A non-empty sequence is its front followed by its last element. */
  lemma FrontLast<T>(s: seq<T>)
    requires |s| > 0
    ensures s[..|s| - 1] + [s[|s| - 1]] == s
  {
  }

  /** A slice of a prefix is the same slice of the whole sequence. */
  lemma SliceOfPrefix<T>(s: seq<T>, i: nat, a: nat, b: nat)
    requires a <= b <= i <= |s|
    ensures s[..i][a..b] == s[a..b]
  {
  }

  /** Taking every element of a sequence gives the sequence back. */
  lemma TakeAll<T>(s: seq<T>)
    ensures s[..|s|] == s
  {
  }
}
