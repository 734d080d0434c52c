/**
 * Whole-column operations of a data frame, on sequences of rows: boolean
 * masking (`df[mask]`) and element-wise conversion.
 */
module Seqs {

  /** `xs[mask]` for the mask `p`: the elements that pass, in their order. */
  function Where<T(==,!new)>(xs: seq<T>, p: T -> bool): (r: seq<T>)
    ensures |r| <= |xs|
    ensures forall x {:trigger multiset(r)[x]} :: multiset(r)[x] == if p(x) then multiset(xs)[x] else 0
    ensures forall x :: x in r <==> x in xs && p(x)
  {
    if xs == [] then []
    else
      assert xs == [xs[0]] + xs[1..];
      (if p(xs[0]) then [xs[0]] else []) + Where(xs[1..], p)
  }

  /** Masking twice is masking once with both conditions. */
  lemma {:induction false} WhereWhere<T(!new)>(xs: seq<T>, p: T -> bool, q: T -> bool, pq: T -> bool)
    requires forall x :: pq(x) == (p(x) && q(x))
    ensures Where(Where(xs, p), q) == Where(xs, pq)
  {
    if xs != [] {
      WhereWhere(xs[1..], p, q, pq);
      var ws := Where(xs, p);
      if p(xs[0]) {
        assert ws == [xs[0]] + Where(xs[1..], p);
        assert ws[0] == xs[0] && ws[1..] == Where(xs[1..], p);
        assert Where(ws, q) == (if q(ws[0]) then [ws[0]] else []) + Where(ws[1..], q);
      } else {
        assert ws == [] + Where(xs[1..], p) == Where(xs[1..], p);
        assert !pq(xs[0]);
        assert Where(xs, pq) == [] + Where(xs[1..], pq) == Where(xs[1..], pq);
      }
    }
  }

  /** Masks that agree everywhere select the same elements. */
  lemma {:induction false} WhereSame<T(!new)>(xs: seq<T>, p: T -> bool, q: T -> bool)
    requires forall x :: p(x) == q(x)
    ensures Where(xs, p) == Where(xs, q)
  {
    if xs != [] { WhereSame(xs[1..], p, q); }
  }

  /** A mask every element passes selects everything. */
  lemma {:induction false} WhereAll<T(!new)>(xs: seq<T>, p: T -> bool)
    requires forall x | x in xs :: p(x)
    ensures Where(xs, p) == xs
  {
    if xs != [] {
      assert xs == [xs[0]] + xs[1..];
      WhereAll(xs[1..], p);
    }
  }

  /** Element-wise conversion of a column. */
  function Apply<A, B>(f: A -> B, xs: seq<A>): (r: seq<B>)
    ensures |r| == |xs|
    ensures forall i :: 0 <= i < |xs| ==> r[i] == f(xs[i])
  {
    seq(|xs|, i requires 0 <= i < |xs| => f(xs[i]))
  }

  lemma ApplyConcat<A, B>(f: A -> B, xs: seq<A>, ys: seq<A>)
    ensures Apply(f, xs + ys) == Apply(f, xs) + Apply(f, ys)
  {
  }

  /** Converting a sub-multiset of rows gives a sub-multiset of converted rows. */
  lemma {:induction false} ApplySubMultiset<A, B>(f: A -> B, xs: seq<A>, ys: seq<A>)
    requires multiset(xs) <= multiset(ys)
    ensures multiset(Apply(f, xs)) <= multiset(Apply(f, ys))
  {
    if xs != [] {
      var x := xs[0];
      assert x in multiset(ys);
      var k :| 0 <= k < |ys| && ys[k] == x;
      var rest := ys[..k] + ys[k + 1..];
      assert ys == ys[..k] + [x] + ys[k + 1..];
      assert xs == [x] + xs[1..];
      assert multiset(ys) == multiset(rest) + multiset{x};
      assert multiset(xs) == multiset{x} + multiset(xs[1..]);
      forall y ensures multiset(xs[1..])[y] <= multiset(rest)[y] {
        assert multiset(xs)[y] <= multiset(ys)[y];
      }
      assert multiset(xs[1..]) <= multiset(rest);
      ApplySubMultiset(f, xs[1..], rest);
      ApplyConcat(f, ys[..k] + [x], ys[k + 1..]);
      ApplyConcat(f, ys[..k], [x]);
      ApplyConcat(f, ys[..k], ys[k + 1..]);
      ApplyConcat(f, [x], xs[1..]);
    }
  }

  /** Converting a permutation of rows gives a permutation of converted rows. */
  lemma ApplyPermutation<A, B>(f: A -> B, xs: seq<A>, ys: seq<A>)
    requires multiset(xs) == multiset(ys)
    ensures multiset(Apply(f, xs)) == multiset(Apply(f, ys))
  {
    ApplySubMultiset(f, xs, ys);
    ApplySubMultiset(f, ys, xs);
  }
}
