/** Facts about sequences that the solver is better told than left to find. */
module Seqs {

  /** Concatenation regroups freely; stating the regrouping once for the
      three named parts keeps the solver from searching for it. */
  lemma AppendAssoc<T>(a: seq<T>, b: seq<T>, c: seq<T>)
    ensures (a + b) + c == a + (b + c)
  {
  }

  /** f applied to each element, built the way a loop builds it: the image
      of all but the last element, then the image of the last. */
  function Mapped<A, B>(f: A -> B, xs: seq<A>): seq<B> {
    if xs == [] then []
    else Mapped(f, xs[..|xs| - 1]) + [f(xs[|xs| - 1])]
  }

  /** Element k of the image is f of element k. */
  lemma {:induction false} MappedAt<A, B>(f: A -> B, xs: seq<A>)
    ensures |Mapped(f, xs)| == |xs|
    ensures forall k | 0 <= k < |xs| :: Mapped(f, xs)[k] == f(xs[k])
    decreases |xs|
  {
    if xs != [] {
      var init := xs[..|xs| - 1];
      MappedAt(f, init);
      forall k | 0 <= k < |init| ensures Mapped(f, xs)[k] == f(xs[k]) {
        assert Mapped(f, xs)[k] == Mapped(f, init)[k] && xs[k] == init[k];
      }
    }
  }

  /** The image of one more element is the old image and one more entry. */
  lemma MappedSnoc<A, B>(f: A -> B, xs: seq<A>, x: A)
    ensures Mapped(f, xs + [x]) == Mapped(f, xs) + [f(x)]
  {
    assert (xs + [x])[..|xs|] == xs;
  }
}
