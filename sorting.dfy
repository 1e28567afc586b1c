/** Python's `sorted(l, key=k)` and `sorted(l, key=k, reverse=True)`.

    Both are stable: elements whose keys compare equal keep their original
    relative order, also when `reverse=True`. The keys the core sorts by are
    integers (times, ids, elo values) and strings (uuids), compared the way
    Python compares them; a mix of the two never arises in a sort that
    succeeds (Python raises TypeError), so the order between the two kinds
    is arbitrary here. */
module Sorting {
  import opened Seqs

  datatype SortKey = Num(n: int) | Text(t: string)

  /** Python's `<=` on `str`: lexicographic by code point. */
  predicate LexLe(a: string, b: string)
    decreases |a|
  {
    a == [] || (b != [] && (a[0] < b[0] || (a[0] == b[0] && LexLe(a[1..], b[1..]))))
  }

  lemma {:induction false} LexLeTotal(a: string, b: string)
    ensures LexLe(a, b) || LexLe(b, a)
    decreases |a|
  {
    if a != [] && b != [] && a[0] == b[0] {
      LexLeTotal(a[1..], b[1..]);
    }
  }

  lemma {:induction false} LexLeTransitive(a: string, b: string, c: string)
    requires LexLe(a, b) && LexLe(b, c)
    ensures LexLe(a, c)
    decreases |a|
  {
    if a != [] && b != [] && c != [] && a[0] == b[0] && b[0] == c[0] {
      LexLeTransitive(a[1..], b[1..], c[1..]);
    }
  }

  lemma {:induction false} LexLeAntisymmetric(a: string, b: string)
    requires LexLe(a, b) && LexLe(b, a)
    ensures a == b
    decreases |a|
  {
    if a != [] {
      LexLeAntisymmetric(a[1..], b[1..]);
      assert a == [a[0]] + a[1..] && b == [b[0]] + b[1..];
    }
  }

  predicate KeyLe(a: SortKey, b: SortKey) {
    match (a, b)
    case (Num(x), Num(y)) => x <= y
    case (Text(x), Text(y)) => LexLe(x, y)
    case (Num(_), Text(_)) => true
    case (Text(_), Num(_)) => false
  }

  /** The order a sort puts keys in: ascending, or descending for `reverse=True`. */
  predicate Before(a: SortKey, b: SortKey, desc: bool) {
    if desc then KeyLe(b, a) else KeyLe(a, b)
  }

  lemma {:induction false} BeforeReflexive(a: SortKey, desc: bool)
    ensures Before(a, a, desc)
  {
    if a.Text? {
      LexLeTotal(a.t, a.t);
    }
  }

  lemma {:induction false} BeforeTotal(a: SortKey, b: SortKey, desc: bool)
    ensures Before(a, b, desc) || Before(b, a, desc)
  {
    if a.Text? && b.Text? {
      LexLeTotal(a.t, b.t);
    }
  }

  lemma {:induction false} BeforeTransitive(a: SortKey, b: SortKey, c: SortKey, desc: bool)
    requires Before(a, b, desc) && Before(b, c, desc)
    ensures Before(a, c, desc)
  {
    if a.Text? && b.Text? && c.Text? {
      if desc {
        LexLeTransitive(c.t, b.t, a.t);
      } else {
        LexLeTransitive(a.t, b.t, c.t);
      }
    }
  }

  predicate SortedBy<T>(s: seq<T>, key: T -> SortKey, desc: bool) {
    forall i, j :: 0 <= i < j < |s| ==> Before(key(s[i]), key(s[j]), desc)
  }

  /** Inserts `x` after every element of `r` that may precede it, that is,
      after the elements with an equal key too: this is what keeps the sort
      stable. */
  function Insert<T>(x: T, r: seq<T>, key: T -> SortKey, desc: bool): (res: seq<T>)
    ensures multiset(res) == multiset(r) + multiset{x}
    ensures |res| == |r| + 1
    decreases |r|
  {
    if r == [] then [x]
    else if Before(key(r[0]), key(x), desc) then
      assert r == [r[0]] + r[1..];
      [r[0]] + Insert(x, r[1..], key, desc)
    else [x] + r
  }

  /** `sorted(s, key=key, reverse=desc)`, as a stable insertion sort. */
  function Sort<T>(s: seq<T>, key: T -> SortKey, desc: bool): (r: seq<T>)
    ensures multiset(r) == multiset(s)
    ensures |r| == |s|
    decreases |s|
  {
    if s == [] then []
    else
      assert s == s[..|s| - 1] + [s[|s| - 1]];
      Insert(s[|s| - 1], Sort(s[..|s| - 1], key, desc), key, desc)
  }

  lemma {:induction false} InsertSorted<T>(x: T, r: seq<T>, key: T -> SortKey, desc: bool)
    requires SortedBy(r, key, desc)
    ensures SortedBy(Insert(x, r, key, desc), key, desc)
    decreases |r|
  {
    if r != [] && Before(key(r[0]), key(x), desc) {
      InsertSorted(x, r[1..], key, desc);
      var tail := Insert(x, r[1..], key, desc);
      var res := [r[0]] + tail;
      forall j | 0 < j < |res| ensures Before(key(res[0]), key(res[j]), desc) {
        var y := tail[j - 1];
        assert y in multiset(tail);
        assert y == x || y in r[1..];
        if y != x {
          var k :| 0 <= k < |r[1..]| && r[1..][k] == y;
          assert r[k + 1] == y;
        }
      }
    } else if r != [] {
      BeforeTotal(key(r[0]), key(x), desc);
      forall j | 0 <= j < |r| ensures Before(key(x), key(r[j]), desc) {
        if j > 0 {
          BeforeTransitive(key(x), key(r[0]), key(r[j]), desc);
        }
      }
    }
  }

  /** The sort orders its result by key. */
  lemma {:induction false} SortIsSorted<T>(s: seq<T>, key: T -> SortKey, desc: bool)
    ensures SortedBy(Sort(s, key, desc), key, desc)
    decreases |s|
  {
    if s != [] {
      SortIsSorted(s[..|s| - 1], key, desc);
      InsertSorted(s[|s| - 1], Sort(s[..|s| - 1], key, desc), key, desc);
    }
  }

  /** In a sorted sequence, nothing after an element that cannot precede `x`
      can precede it either. */
  lemma {:induction false} SortedTailAfter<T>(x: T, r: seq<T>, key: T -> SortKey, desc: bool)
    requires SortedBy(r, key, desc)
    requires r != [] && !Before(key(r[0]), key(x), desc)
    ensures forall j :: 0 <= j < |r| ==> !Before(key(r[j]), key(x), desc)
  {
    forall j | 0 <= j < |r| ensures !Before(key(r[j]), key(x), desc) {
      if Before(key(r[j]), key(x), desc) {
        BeforeTransitive(key(r[0]), key(r[j]), key(x), desc);
      }
    }
  }

  lemma {:induction false} InsertStable<T>(x: T, r: seq<T>, key: T -> SortKey, desc: bool, same: T -> bool, k: SortKey)
    requires SortedBy(r, key, desc)
    requires forall y :: same(y) == (key(y) == k)
    ensures Filter(Insert(x, r, key, desc), same) == Filter(r, same) + (if same(x) then [x] else [])
    decreases |r|
  {
    if r == [] {
    } else if Before(key(r[0]), key(x), desc) {
      SortedByTail(r, key, desc);
      InsertStable(x, r[1..], key, desc, same, k);
      InsertPast(x, r, key, desc, same);
      var h, t, e := if same(r[0]) then [r[0]] else [], Filter(r[1..], same), if same(x) then [x] else [];
      ConcatAssoc(h, t, e);
    } else {
      InsertInFront(x, r, key, desc, same, k);
    }
  }

  /** The tail of a sorted sequence is sorted. */
  lemma {:induction false} SortedByTail<T>(r: seq<T>, key: T -> SortKey, desc: bool)
    requires r != [] && SortedBy(r, key, desc)
    ensures SortedBy(r[1..], key, desc)
  {
  }

  /** When `x` goes after the head, filtering the insertion keeps (or drops)
      the head and then filters the insertion into the tail. */
  lemma {:induction false} InsertPast<T>(x: T, r: seq<T>, key: T -> SortKey, desc: bool, same: T -> bool)
    requires r != [] && Before(key(r[0]), key(x), desc)
    ensures Filter(Insert(x, r, key, desc), same) ==
            (if same(r[0]) then [r[0]] else []) + Filter(Insert(x, r[1..], key, desc), same)
    ensures Filter(r, same) == (if same(r[0]) then [r[0]] else []) + Filter(r[1..], same)
  {
    var res := Insert(x, r, key, desc);
    assert res[0] == r[0] && res[1..] == Insert(x, r[1..], key, desc);
  }

  lemma {:induction false} InsertInFront<T>(x: T, r: seq<T>, key: T -> SortKey, desc: bool, same: T -> bool, k: SortKey)
    requires SortedBy(r, key, desc)
    requires forall y :: same(y) == (key(y) == k)
    requires r != [] && !Before(key(r[0]), key(x), desc)
    ensures Filter([x] + r, same) == Filter(r, same) + (if same(x) then [x] else [])
  {
    SortedTailAfter(x, r, key, desc);
    assert ([x] + r)[0] == x && ([x] + r)[1..] == r;
    if same(x) {
      BeforeReflexive(key(x), desc);
      assert forall j :: 0 <= j < |r| ==> !same(r[j]);
      FilterDropsAll(r, same);
    }
  }

  /** Sorting a non-empty sequence inserts its last element into the sorted
      rest. */
  lemma {:induction false} SortSnoc<T>(s: seq<T>, key: T -> SortKey, desc: bool)
    requires s != []
    ensures Sort(s, key, desc) == Insert(s[|s| - 1], Sort(s[..|s| - 1], key, desc), key, desc)
  {
  }

  /** The sort is stable: the elements with any one key keep their order. */
  lemma {:induction false} SortIsStable<T>(s: seq<T>, key: T -> SortKey, desc: bool, same: T -> bool, k: SortKey)
    requires forall y :: same(y) == (key(y) == k)
    ensures Filter(Sort(s, key, desc), same) == Filter(s, same)
    decreases |s|
  {
    if s != [] {
      var init, last := s[..|s| - 1], s[|s| - 1];
      var sorted := Sort(init, key, desc);
      SortSnoc(s, key, desc);
      SortIsStable(init, key, desc, same, k);
      SortIsSorted(init, key, desc);
      InsertStable(last, sorted, key, desc, same, k);
      FilterLast(s, same);
    }
  }

  /** Sorting an already sorted sequence changes nothing. */
  lemma {:induction false} SortOfSorted<T>(s: seq<T>, key: T -> SortKey, desc: bool)
    requires SortedBy(s, key, desc)
    ensures Sort(s, key, desc) == s
    decreases |s|
  {
    if s != [] {
      var init, last := s[..|s| - 1], s[|s| - 1];
      SortSnoc(s, key, desc);
      SortedInitLast(s, key, desc);
      SortOfSorted(init, key, desc);
      InsertAtEnd(last, init, key, desc);
    }
  }

  /** A sorted sequence is its sorted front followed by an element that
      every element of the front may precede. */
  lemma {:induction false} SortedInitLast<T>(s: seq<T>, key: T -> SortKey, desc: bool)
    requires s != [] && SortedBy(s, key, desc)
    ensures SortedBy(s[..|s| - 1], key, desc)
    ensures forall j :: 0 <= j < |s| - 1 ==> Before(key(s[j]), key(s[|s| - 1]), desc)
    ensures s[..|s| - 1] + [s[|s| - 1]] == s
  {
  }

  lemma {:induction false} InsertAtEnd<T>(x: T, r: seq<T>, key: T -> SortKey, desc: bool)
    requires forall j :: 0 <= j < |r| ==> Before(key(r[j]), key(x), desc)
    ensures Insert(x, r, key, desc) == r + [x]
    decreases |r|
  {
    if r != [] {
      InsertAtEnd(x, r[1..], key, desc);
      assert r == [r[0]] + r[1..];
    }
  }

  /** The key of a string sorted by itself. */
  function TextKey(s: string): SortKey {
    Text(s)
  }

  /** The head of an ascending sequence of strings comes before every
      element of it. */
  lemma {:induction false} SortedHeadLeast(a: seq<string>, x: string)
    requires SortedBy(a, TextKey, false) && x in a
    ensures LexLe(a[0], x)
  {
    var i :| 0 <= i < |a| && a[i] == x;
    if i > 0 {
      assert Before(TextKey(a[0]), TextKey(a[i]), false);
    } else {
      LexLeTotal(x, x);
    }
  }

  /** Two ascending sequences of strings with the same elements are equal:
      a sorted order of strings is unique. */
  lemma {:induction false} SortedStringsUnique(a: seq<string>, b: seq<string>)
    requires SortedBy(a, TextKey, false) && SortedBy(b, TextKey, false)
    requires multiset(a) == multiset(b)
    ensures a == b
    decreases |a|
  {
    if a != [] {
      assert a[0] == b[0] by {
        assert |b| == |multiset(b)| == |a|;
        assert a[0] in multiset(b) && b[0] in multiset(a);
        SortedHeadLeast(a, b[0]);
        SortedHeadLeast(b, a[0]);
        LexLeAntisymmetric(a[0], b[0]);
      }
      SortedTail(a);
      SortedTail(b);
      SortedStringsUnique(a[1..], b[1..]);
    }
  }

  /** Dropping the head keeps a sequence sorted and takes the head out of its
      elements. */
  lemma {:induction false} SortedTail(a: seq<string>)
    requires SortedBy(a, TextKey, false) && a != []
    ensures SortedBy(a[1..], TextKey, false)
    ensures multiset(a[1..]) == multiset(a) - multiset{a[0]}
    ensures a == [a[0]] + a[1..]
  {
    assert a == [a[0]] + a[1..];
  }

  /** Sorting strings depends only on which strings there are, not on their
      order. */
  lemma {:induction false} SortStringsPermutation(a: seq<string>, b: seq<string>)
    requires multiset(a) == multiset(b)
    ensures Sort(a, TextKey, false) == Sort(b, TextKey, false)
  {
    SortIsSorted(a, TextKey, false);
    SortIsSorted(b, TextKey, false);
    SortedStringsUnique(Sort(a, TextKey, false), Sort(b, TextKey, false));
  }
}
