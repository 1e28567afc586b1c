/** Sequence helpers that stand for the list comprehensions of the source:
    `[x for x in s if p(x)]` is `Filter(s, p)`. */
module Seqs {
  import opened Wrappers

  /** Dropping the head of `[x] + t` leaves `t`. */
  lemma {:induction false} DropCons<T>(x: T, t: seq<T>)
    ensures ([x] + t)[1..] == t
  {
  }

  /** Taking all but the last of `t + [x]` leaves `t`. */
  lemma {:induction false} TakeSnoc<T>(t: seq<T>, x: T)
    ensures (t + [x])[..|t|] == t
  {
  }

  /** A sequence is what comes before index `i`, its element there, and
      what comes after. */
  lemma {:induction false} CutAt<T>(x: seq<T>, i: nat)
    requires i < |x|
    ensures x == x[..i] + [x[i]] + x[i + 1..]
    ensures x[i + 1..] == [] || x[i + 1..][|x[i + 1..]| - 1] == x[|x| - 1]
  {
  }

  lemma {:induction false} Regroup<T>(r: seq<T>, x1: seq<T>, m: seq<T>, x2: seq<T>)
    ensures r + x1 + m + x2 == r + (x1 + m + x2)
    ensures x1 + m + x2 == x1 + (m + x2)
  {
  }

  /** Concatenation is associative. */
  lemma {:induction false} ConcatAssoc<T>(a: seq<T>, b: seq<T>, c: seq<T>)
    ensures a + (b + c) == (a + b) + c
  {
  }

  /** No element occurs twice. */
  predicate Distinct<T(==)>(s: seq<T>) {
    forall i, j :: 0 <= i < j < |s| ==> s[i] != s[j]
  }

  /** A duplicate-free sequence has as many elements as its set. */
  lemma {:induction false} DistinctCard<T>(s: seq<T>)
    requires Distinct(s)
    ensures |set x | x in s| == |s|
    decreases |s|
  {
    if s != [] {
      var init, last := s[..|s| - 1], s[|s| - 1];
      assert Distinct(init);
      DistinctCard(init);
      assert last !in init;
      assert (set x | x in s) == (set x | x in init) + {last};
    }
  }

  /** The elements of `s` that satisfy `p`, in their original order. */
  function Filter<T>(s: seq<T>, p: T -> bool): (r: seq<T>)
    ensures |r| <= |s|
    ensures forall x :: x in r ==> x in s && p(x)
  {
    if s == [] then []
    else (if p(s[0]) then [s[0]] else []) + Filter(s[1..], p)
  }

  /** The negation of a predicate. */
  function Not<T>(p: T -> bool): T -> bool {
    x => !p(x)
  }

  /** `a` is an order-preserving sub-list of `b`. */
  predicate IsSubseq<T(==)>(a: seq<T>, b: seq<T>)
    decreases |b|
  {
    a == [] || (b != [] && ((a[0] == b[0] && IsSubseq(a[1..], b[1..])) || IsSubseq(a, b[1..])))
  }

  lemma {:induction false} FilterIsSubseq<T>(s: seq<T>, p: T -> bool)
    ensures IsSubseq(Filter(s, p), s)
    decreases |s|
  {
    if s != [] {
      FilterIsSubseq(s[1..], p);
      var r := Filter(s, p);
      if p(s[0]) {
        assert r == [s[0]] + Filter(s[1..], p);
        assert r[1..] == Filter(s[1..], p);
      } else {
        assert r == Filter(s[1..], p);
      }
    }
  }

  /** A sub-list of a sub-list of `c` is a sub-list of `c`. */
  lemma {:induction false} IsSubseqTrans<T>(a: seq<T>, b: seq<T>, c: seq<T>)
    requires IsSubseq(a, b) && IsSubseq(b, c)
    ensures IsSubseq(a, c)
    decreases |c|
  {
    if a != [] {
      if IsSubseq(b, c[1..]) {
        IsSubseqTrans(a, b, c[1..]);
      } else if a[0] == b[0] && IsSubseq(a[1..], b[1..]) {
        IsSubseqTrans(a[1..], b[1..], c[1..]);
      } else {
        IsSubseqTrans(a, b[1..], c[1..]);
      }
    }
  }

  /** Elements that satisfy `p` and those that do not together make up `s`. */
  lemma {:induction false} FilterSplitsMultiset<T>(s: seq<T>, p: T -> bool)
    ensures multiset(Filter(s, p)) + multiset(Filter(s, Not(p))) == multiset(s)
    decreases |s|
  {
    if s != [] {
      FilterSplitsMultiset(s[1..], p);
      assert s == [s[0]] + s[1..];
    }
  }

  lemma {:induction false} FilterSnoc<T>(s: seq<T>, x: T, p: T -> bool)
    ensures Filter(s + [x], p) == Filter(s, p) + (if p(x) then [x] else [])
    decreases |s|
  {
    if s == [] {
      assert [x][1..] == [];
    } else {
      assert (s + [x])[1..] == s[1..] + [x];
      FilterSnoc(s[1..], x, p);
    }
  }

  /** `FilterSnoc` for a sequence split before its last element. */
  lemma {:induction false} FilterLast<T>(s: seq<T>, p: T -> bool)
    requires s != []
    ensures Filter(s, p) == Filter(s[..|s| - 1], p) + (if p(s[|s| - 1]) then [s[|s| - 1]] else [])
  {
    assert s == s[..|s| - 1] + [s[|s| - 1]];
    FilterSnoc(s[..|s| - 1], s[|s| - 1], p);
  }

  lemma {:induction false} FilterKeepsAll<T>(s: seq<T>, p: T -> bool)
    requires forall k :: 0 <= k < |s| ==> p(s[k])
    ensures Filter(s, p) == s
    decreases |s|
  {
    if s != [] {
      FilterKeepsAll(s[1..], p);
    }
  }

  lemma {:induction false} FilterDropsAll<T>(s: seq<T>, p: T -> bool)
    requires forall k :: 0 <= k < |s| ==> !p(s[k])
    ensures Filter(s, p) == []
    decreases |s|
  {
    if s != [] {
      FilterDropsAll(s[1..], p);
    }
  }

  /** Filtering twice is filtering once by the conjunction. */
  lemma {:induction false} FilterTwice<T>(s: seq<T>, p: T -> bool, q: T -> bool, both: T -> bool)
    requires forall x :: both(x) == (p(x) && q(x))
    ensures Filter(Filter(s, p), q) == Filter(s, both)
    decreases |s|
  {
    if s != [] {
      FilterTwice(s[1..], p, q, both);
      var t := Filter(s[1..], p);
      assert Filter(s, both) == (if both(s[0]) then [s[0]] else []) + Filter(s[1..], both);
      if p(s[0]) {
        var u := [s[0]] + t;
        assert Filter(s, p) == u;
        assert u[0] == s[0] && u[1..] == t;
        assert Filter(u, q) == (if q(s[0]) then [s[0]] else []) + Filter(t, q);
      } else {
        assert Filter(s, p) == t;
      }
    }
  }

  /** Filtering by predicates that agree on `s` gives the same result. */
  lemma {:induction false} FilterCongruent<T>(s: seq<T>, p: T -> bool, q: T -> bool)
    requires forall k :: 0 <= k < |s| ==> p(s[k]) == q(s[k])
    ensures Filter(s, p) == Filter(s, q)
    decreases |s|
  {
    if s != [] {
      FilterCongruent(s[1..], p, q);
    }
  }

  /** The elements kept are exactly the elements of `s` that satisfy `p`. */
  lemma {:induction false} FilterMembers<T>(s: seq<T>, p: T -> bool, x: T)
    ensures x in Filter(s, p) <==> x in s && p(x)
    decreases |s|
  {
    if s != [] {
      FilterMembers(s[1..], p, x);
      assert s == [s[0]] + s[1..];
    }
  }

  /** Filtering a duplicate-free sequence keeps it duplicate-free. */
  lemma {:induction false} FilterDistinct<T>(s: seq<T>, p: T -> bool)
    requires Distinct(s)
    ensures Distinct(Filter(s, p))
    decreases |s|
  {
    if s != [] {
      var t := Filter(s[1..], p);
      assert Distinct(s[1..]);
      FilterDistinct(s[1..], p);
      if p(s[0]) {
        assert s[0] !in s[1..];
        FilterMembers(s[1..], p, s[0]);
        var r := [s[0]] + t;
        forall i, j | 0 <= i < j < |r| ensures r[i] != r[j] {
          if i == 0 {
            assert r[j] == t[j - 1] && r[j] in t;
          } else {
            assert r[i] == t[i - 1] && r[j] == t[j - 1];
          }
        }
      }
    }
  }

  /** An element that satisfies `p` is kept. */
  lemma {:induction false} FilterKeepsElement<T>(l: seq<T>, p: T -> bool, i: nat)
    requires i < |l| && p(l[i])
    ensures l[i] in Filter(l, p)
    decreases i
  {
    if i > 0 {
      FilterKeepsElement(l[1..], p, i - 1);
    }
  }

  /** The first element kept is the first element of `s` that satisfies `p`. */
  lemma {:induction false} FilterHead<T>(s: seq<T>, p: T -> bool)
    requires Filter(s, p) != []
    ensures exists i :: 0 <= i < |s| && p(s[i]) && Filter(s, p)[0] == s[i] &&
                        forall j :: 0 <= j < i ==> !p(s[j])
    decreases |s|
  {
    if !p(s[0]) {
      FilterHead(s[1..], p);
      var i :| 0 <= i < |s[1..]| && p(s[1..][i]) && Filter(s[1..], p)[0] == s[1..][i] &&
               forall j :: 0 <= j < i ==> !p(s[1..][j]);
      assert p(s[i + 1]) && Filter(s, p)[0] == s[i + 1];
      assert forall j :: 0 <= j < i + 1 ==> !p(s[j]) by {
        forall j | 0 <= j < i + 1 ensures !p(s[j]) {
          if j > 0 { assert s[j] == s[1..][j - 1]; }
        }
      }
    } else {
      assert Filter(s, p)[0] == s[0];
    }
  }

  /** The first index of `s` whose element satisfies `p`, if any. */
  function FirstIndex<T>(s: seq<T>, p: T -> bool): (r: Option<nat>)
    ensures r.Some? ==> r.value < |s| && p(s[r.value]) && forall j :: 0 <= j < r.value ==> !p(s[j])
    ensures r.None? ==> forall j :: 0 <= j < |s| ==> !p(s[j])
    decreases |s|
  {
    if s == [] then None
    else if p(s[0]) then Some(0)
    else match FirstIndex(s[1..], p)
      case None => None
      case Some(i) => Some(i + 1)
  }

  /** Searches of two equally long sequences whose predicates agree
      position by position find the same index. */
  lemma {:induction false} FirstIndexAgree<A, B>(s: seq<A>, t: seq<B>, p: A -> bool, q: B -> bool)
    requires |s| == |t| && forall i :: 0 <= i < |s| ==> p(s[i]) == q(t[i])
    ensures FirstIndex(s, p) == FirstIndex(t, q)
    decreases |s|
  {
    if s != [] && !p(s[0]) {
      FirstIndexAgree(s[1..], t[1..], p, q);
    }
  }

  /** Searching a sequence of three. */
  lemma {:induction false} FirstIndexOfThree<T>(a: T, b: T, c: T, p: T -> bool)
    ensures FirstIndex([a, b, c], p) ==
      if p(a) then Some(0) else if p(b) then Some(1) else if p(c) then Some(2) else None
  {
    var s := [a, b, c];
    assert s[1..] == [b, c] && s[1..][1..] == [c] && s[1..][1..][1..] == [];
    assert FirstIndex([c], p) == if p(c) then Some(0) else None;
    assert FirstIndex([b, c], p) == if p(b) then Some(0) else if p(c) then Some(1) else None;
  }

  /** Searching a sequence extended by one element. */
  lemma {:induction false} FirstIndexSnoc<T>(s: seq<T>, x: T, p: T -> bool)
    ensures FirstIndex(s + [x], p) ==
      if FirstIndex(s, p).Some? then FirstIndex(s, p) else if p(x) then Some(|s|) else None
    decreases |s|
  {
    if s != [] {
      assert (s + [x])[1..] == s[1..] + [x];
      FirstIndexSnoc(s[1..], x, p);
    } else {
      assert (s + [x])[1..] == [];
    }
  }
}
