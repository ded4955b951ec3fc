/**
 * Sequences built by appending, element by element, what a function gives for each
 * input: the shape of every loop in the program that extends a list per item.
 */
module Seqs {

  /** Concatenation is associative; stated once so proofs can name the regrouping they need. */
  lemma AppendAssoc<T>(a: seq<T>, b: seq<T>, c: seq<T>)
    ensures (a + b) + c == a + (b + c)
  {
  }

  /** A non-empty sequence holds what its prefix holds, and its last element. */
  lemma MemberSnoc<T>(s: seq<T>, x: T)
    requires s != []
    ensures x in s <==> x in s[..|s| - 1] || x == s[|s| - 1]
  {
    assert s == s[..|s| - 1] + [s[|s| - 1]];
  }

  /** What `f` gives for each of `xs`, concatenated in order. */
  function FlatMap<T, U>(f: T -> seq<U>, xs: seq<T>): seq<U> {
    if xs == [] then [] else FlatMap(f, xs[..|xs| - 1]) + f(xs[|xs| - 1])
  }

  lemma FlatMapSnoc<T, U>(f: T -> seq<U>, xs: seq<T>, i: int)
    requires 0 <= i < |xs|
    ensures FlatMap(f, xs[..i + 1]) == FlatMap(f, xs[..i]) + f(xs[i])
  {
    assert xs[..i + 1][..i] == xs[..i];
  }

  /** The output of two runs of inputs is the output of each, in order. */
  lemma {:induction false} FlatMapAppend<T, U>(f: T -> seq<U>, xs: seq<T>, ys: seq<T>)
    ensures FlatMap(f, xs + ys) == FlatMap(f, xs) + FlatMap(f, ys)
  {
    if ys == [] {
      assert xs + ys == xs;
    } else {
      var init := ys[..|ys| - 1];
      FlatMapAppend(f, xs, init);
      assert (xs + ys)[..|xs + ys| - 1] == xs + init;
      AppendAssoc(FlatMap(f, xs), FlatMap(f, init), f(ys[|ys| - 1]));
    }
  }

  lemma FlatMapSingle<T, U>(f: T -> seq<U>, x: T)
    ensures FlatMap(f, [x]) == f(x)
  {
    assert [x][..0] == [];
  }

  /** Processing more inputs only adds output at the end. */
  lemma {:induction false} FlatMapPrefix<T, U>(f: T -> seq<U>, xs: seq<T>, i: int)
    requires 0 <= i <= |xs|
    ensures FlatMap(f, xs[..i]) <= FlatMap(f, xs)
  {
    FlatMapAppend(f, xs[..i], xs[i..]);
    assert xs[..i] + xs[i..] == xs;
  }

  /** Every output satisfies `P` when every input's outputs do. */
  lemma {:induction false} FlatMapAll<T, U>(f: T -> seq<U>, xs: seq<T>, P: U -> bool)
    requires forall x <- xs, u <- f(x) :: P(u)
    ensures forall u <- FlatMap(f, xs) :: P(u)
  {
    if xs != [] {
      FlatMapAll(f, xs[..|xs| - 1], P);
    }
  }

  /** Every output comes from some input. */
  lemma {:induction false} FlatMapOrigin<T, U>(f: T -> seq<U>, xs: seq<T>)
    ensures forall u <- FlatMap(f, xs) :: exists i :: 0 <= i < |xs| && u in f(xs[i])
  {
    if xs != [] {
      var init := xs[..|xs| - 1];
      FlatMapOrigin(f, init);
      forall u <- FlatMap(f, init) ensures exists i :: 0 <= i < |xs| && u in f(xs[i]) {
        var i :| 0 <= i < |init| && u in f(init[i]);
        assert init[i] == xs[i];
      }
    }
  }

  /** When each input gives at most one output, there are at most as many outputs as inputs. */
  lemma {:induction false} FlatMapAtMostOne<T, U>(f: T -> seq<U>, xs: seq<T>)
    requires forall x <- xs :: |f(x)| <= 1
    ensures |FlatMap(f, xs)| <= |xs|
  {
    if xs != [] {
      FlatMapAtMostOne(f, xs[..|xs| - 1]);
    }
  }

  /** Inputs that give nothing give nothing together. */
  lemma {:induction false} FlatMapNone<T, U>(f: T -> seq<U>, xs: seq<T>)
    requires forall x <- xs :: f(x) == []
    ensures FlatMap(f, xs) == []
  {
    if xs != [] {
      FlatMapNone(f, xs[..|xs| - 1]);
    }
  }
}
