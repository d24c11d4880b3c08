/**
 * Option and Result, the two failure-carrying wrappers the rest of the
 * model returns, and `Map`, the `array.map` the sources apply to lists.
 */
module Common {

  datatype Option<+T> = None | Some(value: T)

  /** The value a call produces, or the message of the Error it throws. */
  datatype Result<+T, +E> = Success(value: T) | Failure(error: E)

  /** `s.map(f)`: one image per element, in order. */
  function Map<A, B>(f: A -> B, s: seq<A>): (r: seq<B>)
    ensures |r| == |s|
    ensures forall i | 0 <= i < |s| :: r[i] == f(s[i])
  {
    if s == [] then [] else Map(f, s[..|s| - 1]) + [f(s[|s| - 1])]
  }

  /** Mapping one more element appends its image. */
  lemma MapExtend<A, B>(f: A -> B, s: seq<A>, i: nat)
    requires i < |s|
    ensures Map(f, s[..i + 1]) == Map(f, s[..i]) + [f(s[i])]
  {
    assert s[..i + 1][..i] == s[..i];
  }
}
