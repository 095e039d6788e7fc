/** Optional values and results shared by every module of the model. */
module Common {

  /** A value that may be absent: JavaScript's `undefined`/`null` results. */
  datatype Option<+T> = None | Some(value: T)

  /** The outcome of an operation that can throw: `Failure` carries the error's message. */
  datatype Result<+T> = Success(value: T) | Failure(error: string)

  /** A non-empty prefix is the shorter prefix and one more element. */
  lemma TakeSnoc<T>(s: seq<T>, n: nat)
    requires 0 < n <= |s|
    ensures s[..n] == s[..n - 1] + [s[n - 1]]
  {
  }

  /** A prefix of a prefix is a prefix. */
  lemma PrefixOfPrefix<T>(w: seq<T>, b: seq<T>, a: seq<T>)
    requires |a| <= |b| <= |w| && w[..|b|] == b && b[..|a|] == a
    ensures w[..|a|] == a
  {
    assert w[..|a|] == w[..|b|][..|a|];
  }
}
