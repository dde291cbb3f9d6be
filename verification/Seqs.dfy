/** Mapping every element of a sequence to a list and joining the lists: filters, unions, joins. */
module Seqs {

  function FlatMap<A, B>(f: A -> seq<B>, s: seq<A>): seq<B> {
    if s == [] then [] else FlatMap(f, s[..|s| - 1]) + f(s[|s| - 1])
  }

  lemma {:induction false} FlatMapAppends<A, B>(f: A -> seq<B>, s: seq<A>, t: seq<A>)
    ensures FlatMap(f, s + t) == FlatMap(f, s) + FlatMap(f, t)
  {
    if t == [] {
      assert s + t == s;
    } else {
      assert (s + t)[..|s + t| - 1] == s + t[..|t| - 1];
      FlatMapAppends(f, s, t[..|t| - 1]);
    }
  }

  lemma FlatMapOne<A, B>(f: A -> seq<B>, x: A)
    ensures FlatMap(f, [x]) == f(x) && FlatMap(f, []) == []
  {
    assert [x][..0] == [];
  }

  /** Two ways of mapping twice that agree element by element. */
  lemma {:induction false} FlatMapTwice<A, B, C, D>(f: B -> seq<D>, g: A -> seq<B>,
                                                    f': C -> seq<D>, g': A -> seq<C>, s: seq<A>)
    requires forall x | x in s :: FlatMap(f, g(x)) == FlatMap(f', g'(x))
    ensures FlatMap(f, FlatMap(g, s)) == FlatMap(f', FlatMap(g', s))
  {
    if s != [] {
      var n := |s| - 1;
      FlatMapTwice(f, g, f', g', s[..n]);
      FlatMapAppends(f, FlatMap(g, s[..n]), g(s[n]));
      FlatMapAppends(f', FlatMap(g', s[..n]), g'(s[n]));
    }
  }

  lemma {:induction false} FlatMapTwiceNothing<A, B, C>(f: B -> seq<C>, g: A -> seq<B>, s: seq<A>)
    requires forall x | x in s :: FlatMap(f, g(x)) == []
    ensures FlatMap(f, FlatMap(g, s)) == []
  {
    if s != [] {
      var n := |s| - 1;
      FlatMapTwiceNothing(f, g, s[..n]);
      FlatMapAppends(f, FlatMap(g, s[..n]), g(s[n]));
    }
  }

  /** Only the values of the function on the elements matter. */
  lemma {:induction false} FlatMapAgrees<A, B>(f: A -> seq<B>, g: A -> seq<B>, s: seq<A>)
    requires forall x | x in s :: f(x) == g(x)
    ensures FlatMap(f, s) == FlatMap(g, s)
  {
    if s != [] {
      FlatMapAgrees(f, g, s[..|s| - 1]);
    }
  }

  lemma SplitAt<A>(s: seq<A>, x: A) returns (a: seq<A>, b: seq<A>)
    requires x in s
    ensures s == a + [x] + b
    ensures multiset(a + b) == multiset(s) - multiset{x}
  {
    var i :| 0 <= i < |s| && s[i] == x;
    a, b := s[..i], s[i + 1..];
  }

  /** Reordering the input, and the list of each element, only reorders the output. */
  lemma {:induction false} FlatMapPermutes<A, B>(f: A -> seq<B>, g: A -> seq<B>, s: seq<A>, t: seq<A>)
    requires multiset(s) == multiset(t)
    requires forall x | x in s :: multiset(f(x)) == multiset(g(x))
    ensures multiset(FlatMap(f, s)) == multiset(FlatMap(g, t))
    decreases |s|
  {
    if s == [] {
      assert multiset(t) == multiset{};
    } else {
      var x := s[|s| - 1];
      assert s == s[..|s| - 1] + [x];
      assert x in multiset(t);
      var a, b := SplitAt(t, x);
      assert multiset(s[..|s| - 1]) == multiset(s) - multiset{x};
      FlatMapPermutes(f, g, s[..|s| - 1], a + b);
      FlatMapAppends(g, a, b);
      FlatMapAppends(g, a, [x]);
      FlatMapAppends(g, a + [x], b);
      assert FlatMap(g, [x]) == FlatMap(g, []) + g(x);
    }
  }

  ghost predicate Distinct<A>(s: seq<A>) {
    forall j, k | 0 <= j < k < |s| :: s[j] != s[k]
  }

  lemma {:induction false} DistinctCounts<A>(s: seq<A>, x: A)
    requires Distinct(s)
    ensures multiset(s)[x] <= 1
  {
    if s != [] {
      var n := |s| - 1;
      assert s == s[..n] + [s[n]];
      DistinctCounts(s[..n], x);
      if s[n] == x {
        assert x !in s[..n];
      }
    }
  }

  lemma PermutationIsDistinct<A>(s: seq<A>, t: seq<A>)
    requires Distinct(s) && multiset(s) == multiset(t)
    ensures Distinct(t)
  {
    if j, k :| 0 <= j < k < |t| && t[j] == t[k] {
      assert t == t[..j] + [t[j]] + t[j + 1..k] + [t[k]] + t[k + 1..];
      assert multiset(t)[t[j]] >= 2;
      DistinctCounts(s, t[j]);
    }
  }

  /** When the list of one element grows, the whole grows by as much. */
  lemma {:induction false} FlatMapGrows<A, B>(f: A -> seq<B>, g: A -> seq<B>, s: seq<A>, x: A, more: seq<B>)
    requires Distinct(s) && x in s && g(x) == f(x) + more
    requires forall y | y in s && y != x :: g(y) == f(y)
    ensures multiset(FlatMap(g, s)) == multiset(FlatMap(f, s)) + multiset(more)
  {
    var n := |s| - 1;
    assert s == s[..n] + [s[n]];
    if s[n] == x {
      FlatMapAgrees(f, g, s[..n]);
    } else {
      FlatMapGrows(f, g, s[..n], x, more);
    }
  }

  /** Elements without output can be left out. */
  lemma {:induction false} FlatMapNothing<A, B>(f: A -> seq<B>, s: seq<A>)
    requires forall x | x in s :: f(x) == []
    ensures FlatMap(f, s) == []
  {
    if s != [] {
      FlatMapNothing(f, s[..|s| - 1]);
    }
  }

  lemma {:induction false} FlatMapMember<A, B>(f: A -> seq<B>, s: seq<A>, y: B)
    ensures y in FlatMap(f, s) <==> exists x | x in s :: y in f(x)
  {
    if s != [] {
      FlatMapMember(f, s[..|s| - 1], y);
      assert s == s[..|s| - 1] + [s[|s| - 1]];
    }
  }

  // ----- Lists that grow one by one -------------------------------------------------

  function Flatten<B>(ss: seq<seq<B>>): seq<B> {
    if ss == [] then [] else Flatten(ss[..|ss| - 1]) + ss[|ss| - 1]
  }

  lemma {:induction false} FlattenGrows<B>(ss: seq<seq<B>>, i: nat, more: seq<B>)
    requires i < |ss|
    ensures multiset(Flatten(ss[i := ss[i] + more])) == multiset(Flatten(ss)) + multiset(more)
  {
    var n := |ss| - 1;
    var ss' := ss[i := ss[i] + more];
    assert Flatten(ss') == Flatten(ss'[..n]) + ss'[n];
    if i < n {
      assert ss'[..n] == ss[..n][i := ss[..n][i] + more];
      FlattenGrows(ss[..n], i, more);
    } else {
      assert ss'[..n] == ss[..n];
    }
  }

  lemma {:induction false} FlattenNothing<B>(ss: seq<seq<B>>)
    requires forall i | 0 <= i < |ss| :: ss[i] == []
    ensures Flatten(ss) == []
  {
    if ss != [] {
      FlattenNothing(ss[..|ss| - 1]);
    }
  }

  /** A map whose lists are at hand is their concatenation; a list of shorter lists is no longer. */
  lemma {:induction false} FlattenIsFlatMap<A, B>(f: A -> seq<B>, s: seq<A>, ss: seq<seq<B>>)
    requires |s| == |ss| && forall i | 0 <= i < |s| :: ss[i] == f(s[i])
    ensures Flatten(ss) == FlatMap(f, s)
  {
    if s != [] {
      FlattenIsFlatMap(f, s[..|s| - 1], ss[..|s| - 1]);
    }
  }

  lemma {:induction false} FlattenIsShorter<A, B>(f: A -> seq<B>, s: seq<A>, ss: seq<seq<B>>)
    requires |s| == |ss| && forall i | 0 <= i < |s| :: |ss[i]| <= |f(s[i])|
    ensures |Flatten(ss)| <= |FlatMap(f, s)|
  {
    if s != [] {
      FlattenIsShorter(f, s[..|s| - 1], ss[..|s| - 1]);
    }
  }
}
