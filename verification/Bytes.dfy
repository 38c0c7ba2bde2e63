/** Bytes, and sequences of byte strings. */
module Bytes {

  type Byte = b: int | 0 <= b < 256

  const ESC: Byte := 0x1b

  lemma Associates<T>(a: seq<T>, b: seq<T>, c: seq<T>)
    ensures a + b + c == a + (b + c)
  {
  }

  /** The concatenation of a list of sequences. */
  function Flatten<T>(ss: seq<seq<T>>): (r: seq<T>) {
    if ss == [] then [] else Flatten(ss[..|ss| - 1]) + ss[|ss| - 1]
  }

  lemma {:induction false} FlattenAppend<T>(a: seq<seq<T>>, b: seq<seq<T>>)
    ensures Flatten(a + b) == Flatten(a) + Flatten(b)
  {
    if b == [] {
      assert a + b == a;
    } else {
      var b' := b[..|b| - 1];
      FlattenAppend(a, b');
      assert (a + b)[..|a + b| - 1] == a + b';
    }
  }

  /** A run of `step` over the items of `xs`, from the left. */
  function Fold<S, B>(step: (S, B) -> S, s: S, xs: seq<B>): S {
    if xs == [] then s else step(Fold(step, s, xs[..|xs| - 1]), xs[|xs| - 1])
  }

  lemma FoldOne<S, B>(step: (S, B) -> S, s: S, xs: seq<B>, x: B)
    ensures Fold(step, s, xs + [x]) == step(Fold(step, s, xs), x)
  {
    assert (xs + [x])[..|xs|] == xs;
  }

  lemma FoldNext<S, B>(step: (S, B) -> S, s: S, xs: seq<B>, i: nat)
    requires i < |xs|
    ensures Fold(step, s, xs[..i + 1]) == step(Fold(step, s, xs[..i]), xs[i])
  {
    assert xs[..i + 1] == xs[..i] + [xs[i]];
    FoldOne(step, s, xs[..i], xs[i]);
  }

  lemma {:induction false} FoldAppend<S, B>(step: (S, B) -> S, s: S, a: seq<B>, b: seq<B>)
    ensures Fold(step, s, a + b) == Fold(step, Fold(step, s, a), b)
  {
    if b == [] {
      assert a + b == a;
    } else {
      assert (a + b)[..|a + b| - 1] == a + b[..|b| - 1];
      FoldAppend(step, s, a, b[..|b| - 1]);
    }
  }

  lemma FoldFront<S, B>(step: (S, B) -> S, s: S, x: B, xs: seq<B>)
    ensures Fold(step, s, [x] + xs) == Fold(step, step(s, x), xs)
  {
    FoldAppend(step, s, [x], xs);
    FoldOne(step, s, [], x);
    assert [] + [x] == [x];
  }
}
