/**
 * `Array.prototype.filter` and the "order-preserving subsequence" relation
 * that filtering and `slice(0, n)` both produce.
 */
module Seqs {
  import opened Wrappers

  /** `s.filter(keep)`: the elements `keep` accepts, in their original order. */
  function Filter<T>(s: seq<T>, keep: T -> bool): (r: seq<T>)
    ensures |r| <= |s|
    ensures forall i | 0 <= i < |r| :: keep(r[i]) && r[i] in s
    ensures forall x | x in s && keep(x) :: x in r
  {
    if s == [] then []
    else Filter(s[..|s| - 1], keep) + (if keep(s[|s| - 1]) then [s[|s| - 1]] else [])
  }

  /** An element survives filtering exactly when it is present and accepted. */
  lemma FilterMember<T>(s: seq<T>, keep: T -> bool, x: T)
    ensures x in Filter(s, keep) <==> x in s && keep(x)
  {
    var r := Filter(s, keep);
    if x in r {
      var k :| 0 <= k < |r| && r[k] == x;
    }
  }

  /** Filtering leaves nothing exactly when no element is accepted. */
  lemma FilterEmpty<T>(s: seq<T>, keep: T -> bool)
    ensures Filter(s, keep) == [] <==> forall x | x in s :: !keep(x)
  {
    var r := Filter(s, keep);
    if r != [] {
      assert keep(r[0]) && r[0] in s;
    }
  }

  /** `a` is `b` with some elements deleted and the rest kept in order. */
  predicate Subseq<T(==)>(a: seq<T>, b: seq<T>)
    decreases |b|
  {
    if a == [] then true
    else if b == [] then false
    else if a[|a| - 1] == b[|b| - 1] then Subseq(a[..|a| - 1], b[..|b| - 1])
    else Subseq(a, b[..|b| - 1])
  }

  lemma {:induction false} SubseqDropLast<T>(a: seq<T>, b: seq<T>)
    requires a != [] && Subseq(a, b)
    ensures Subseq(a[..|a| - 1], b)
    decreases |b|, 1
  {
    var a' := a[..|a| - 1];
    if a' != [] {
      if a[|a| - 1] != b[|b| - 1] {
        SubseqDropLast(a, b[..|b| - 1]);
      }
      SubseqExtend(a', b);
    }
  }

  /** A subsequence of `b` without its last element is a subsequence of `b`. */
  lemma {:induction false} SubseqExtend<T>(a: seq<T>, b: seq<T>)
    requires b != [] && Subseq(a, b[..|b| - 1])
    ensures Subseq(a, b)
    decreases |b|, 0
  {
    if a != [] && a[|a| - 1] == b[|b| - 1] {
      SubseqDropLast(a, b[..|b| - 1]);
    }
  }

  lemma {:induction false} SubseqTrans<T>(a: seq<T>, b: seq<T>, c: seq<T>)
    requires Subseq(a, b) && Subseq(b, c)
    ensures Subseq(a, c)
    decreases |c|
  {
    if a != [] {
      var b', c' := b[..|b| - 1], c[..|c| - 1];
      if b[|b| - 1] == c[|c| - 1] {
        if a[|a| - 1] == b[|b| - 1] {
          SubseqTrans(a[..|a| - 1], b', c');
        } else {
          SubseqTrans(a, b', c');
          SubseqExtend(a, c);
        }
      } else {
        SubseqTrans(a, b, c');
        SubseqExtend(a, c);
      }
    }
  }

  lemma {:induction false} SubseqRefl<T>(s: seq<T>)
    ensures Subseq(s, s)
    decreases |s|
  {
    if s != [] {
      SubseqRefl(s[..|s| - 1]);
    }
  }

  /** Filtering keeps every accepted element as often as it occurs, and no other. */
  lemma {:induction false} FilterCount<T>(s: seq<T>, keep: T -> bool)
    ensures forall x :: multiset(Filter(s, keep))[x] == if keep(x) then multiset(s)[x] else 0
    decreases |s|
  {
    if s != [] {
      var init := s[..|s| - 1];
      FilterCount(init, keep);
      assert s == init + [s[|s| - 1]];
    }
  }

  lemma {:induction false} FilterSubseq<T>(s: seq<T>, keep: T -> bool)
    ensures Subseq(Filter(s, keep), s)
    decreases |s|
  {
    if s != [] {
      var init := s[..|s| - 1];
      FilterSubseq(init, keep);
      if keep(s[|s| - 1]) {
        assert Filter(s, keep)[..|Filter(s, keep)| - 1] == Filter(init, keep);
      } else {
        assert Filter(s, keep) == Filter(init, keep);
        SubseqExtend(Filter(s, keep), s);
      }
    }
  }

  /** A prefix is a subsequence. */
  lemma {:induction false} PrefixSubseq<T>(s: seq<T>, k: nat)
    requires k <= |s|
    ensures Subseq(s[..k], s)
    decreases |s|
  {
    if k == |s| {
      assert s[..k] == s;
      SubseqRefl(s);
    } else {
      assert s[..|s| - 1][..k] == s[..k];
      PrefixSubseq(s[..|s| - 1], k);
      SubseqExtend(s[..k], s);
    }
  }

  /** Filtering by `f` and then by `g` is filtering by any `h` that accepts what both accept. */
  lemma {:induction false} FilterFilter<T>(s: seq<T>, f: T -> bool, g: T -> bool, h: T -> bool)
    requires forall x | x in s :: h(x) == (f(x) && g(x))
    ensures Filter(Filter(s, f), g) == Filter(s, h)
    decreases |s|
  {
    if s != [] {
      var init := s[..|s| - 1];
      assert forall x | x in init :: x in s;
      FilterFilter(init, f, g, h);
      var fs := Filter(s, f);
      if f(s[|s| - 1]) {
        assert fs[..|fs| - 1] == Filter(init, f);
      } else {
        assert fs == Filter(init, f);
      }
    }
  }

  /** Filtering with a predicate that accepts everything changes nothing. */
  lemma {:induction false} FilterAll<T>(s: seq<T>, keep: T -> bool)
    requires forall x | x in s :: keep(x)
    ensures Filter(s, keep) == s
    decreases |s|
  {
    if s != [] {
      FilterAll(s[..|s| - 1], keep);
      assert s[..|s| - 1] + [s[|s| - 1]] == s;
    }
  }

  /** Filtering depends only on what the predicate says about the elements present. */
  lemma {:induction false} FilterExt<T>(s: seq<T>, f: T -> bool, g: T -> bool)
    requires forall x | x in s :: f(x) == g(x)
    ensures Filter(s, f) == Filter(s, g)
    decreases |s|
  {
    if s != [] {
      assert forall x | x in s[..|s| - 1] :: x in s;
      FilterExt(s[..|s| - 1], f, g);
    }
  }

  /** `s.findIndex(keep)`, with None for -1. */
  function FindIndex<T>(s: seq<T>, keep: T -> bool): (r: Option<nat>)
    ensures r.Some? ==> r.value < |s| && keep(s[r.value])
    ensures r.Some? ==> forall j | 0 <= j < r.value :: !keep(s[j])
    ensures r.None? <==> forall j | 0 <= j < |s| :: !keep(s[j])
  {
    if s == [] then None
    else if keep(s[0]) then Some(0)
    else match FindIndex(s[1..], keep)
      case None => None
      case Some(i) => Some(i + 1)
  }

  /** `s.find(keep)`: the first element `keep` accepts. */
  function Find<T>(s: seq<T>, keep: T -> bool): (r: Option<T>)
    ensures r.Some? ==> r.value in s && keep(r.value)
    ensures r.None? <==> forall x | x in s :: !keep(x)
  {
    match FindIndex(s, keep)
    case None => None
    case Some(i) => Some(s[i])
  }

  /** The element `Find` returns is the first accepted one. */
  lemma FindIsFirst<T>(s: seq<T>, keep: T -> bool)
    requires Find(s, keep).Some?
    ensures exists i | 0 <= i < |s| :: s[i] == Find(s, keep).value && forall j | 0 <= j < i :: !keep(s[j])
  {
    var i := FindIndex(s, keep).value;
    assert s[i] == Find(s, keep).value;
  }
}
