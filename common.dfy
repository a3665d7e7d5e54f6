/** Small generic building blocks shared by the components. */
module Collections {

  /** A value that may be absent: JavaScript's `undefined`/`null` next to a value. */
  datatype Option<T> = None | Some(value: T)

  /** `Array.prototype.map` over a sequence. */
  function Map<A, B>(f: A -> B, s: seq<A>): (r: seq<B>)
    ensures |r| == |s|
  {
    if s == [] then [] else [f(s[0])] + Map(f, s[1..])
  }

  /** The element at position `i` of a mapped sequence is `f` of the element at `i`. */
  lemma {:induction false} MapAt<A, B>(f: A -> B, s: seq<A>, i: nat)
    requires i < |s|
    ensures Map(f, s)[i] == f(s[i])
  {
    if i > 0 {
      MapAt(f, s[1..], i - 1);
    }
  }
}
