/**
 * Order-preserving filtering of sequences, the `Array.prototype.filter` that
 * every list in the site is narrowed with, and the sub-sequence relation
 * that states "in original relative order".
 */
module Seqs {

  /** `a` can be obtained from `b` by deleting elements, keeping the order of the rest. */
  predicate SubSeq<T(==)>(a: seq<T>, b: seq<T>)
    decreases |b|
  {
    if a == [] then true
    else if b == [] then false
    else if a[0] == b[0] then SubSeq(a[1..], b[1..])
    else SubSeq(a, b[1..])
  }

  /** The elements of `s` that satisfy `p`, in their original order. */
  function Filter<T>(s: seq<T>, p: T -> bool): (r: seq<T>)
    ensures |r| <= |s|
    ensures forall i :: 0 <= i < |r| ==> p(r[i])
    ensures forall x :: x in r ==> x in s
  {
    if s == [] then []
    else (if p(s[0]) then [s[0]] else []) + Filter(s[1..], p)
  }

  lemma {:induction false} FilterCons<T>(x: T, s: seq<T>, p: T -> bool)
    ensures Filter([x] + s, p) == (if p(x) then [x] else []) + Filter(s, p)
  {
    assert ([x] + s)[1..] == s;
  }

  /** Every element of `s` that satisfies `p` is kept. */
  lemma {:induction false} FilterKeeps<T>(s: seq<T>, p: T -> bool, x: T)
    ensures x in Filter(s, p) <==> x in s && p(x)
  {
    if s != [] {
      FilterKeeps(s[1..], p, x);
      assert s == [s[0]] + s[1..];
    }
  }

  /** Each value occurs in the result as often as in the input when it passes, and never otherwise. */
  lemma {:induction false} FilterMultiset<T>(s: seq<T>, p: T -> bool, x: T)
    ensures multiset(Filter(s, p))[x] == if p(x) then multiset(s)[x] else 0
  {
    if s != [] {
      var head := if p(s[0]) then [s[0]] else [];
      FilterMultiset(s[1..], p, x);
      assert s == [s[0]] + s[1..];
      assert multiset(s)[x] == multiset([s[0]])[x] + multiset(s[1..])[x];
      assert Filter(s, p) == head + Filter(s[1..], p);
      assert multiset(Filter(s, p))[x] == multiset(head)[x] + multiset(Filter(s[1..], p))[x];
    }
  }

  lemma {:induction false} SubSeqRefl<T>(s: seq<T>)
    ensures SubSeq(s, s)
  {
    if s != [] { SubSeqRefl(s[1..]); }
  }

  lemma {:induction false} SubSeqDrop<T>(a: seq<T>, x: T, b: seq<T>)
    requires SubSeq(a, b)
    ensures SubSeq(a, [x] + b)
    decreases |b|, 1
  {
    var xb := [x] + b;
    assert xb[1..] == b;
    if a != [] && a[0] == x {
      SubSeqTail(a, b);
    }
  }

  lemma {:induction false} SubSeqTail<T>(a: seq<T>, b: seq<T>)
    requires a != [] && SubSeq(a, b)
    ensures SubSeq(a[1..], b)
    decreases |b|, 0
  {
    if a[0] == b[0] {
      SubSeqDrop(a[1..], b[0], b[1..]);
      assert [b[0]] + b[1..] == b;
    } else {
      SubSeqTail(a, b[1..]);
      SubSeqDrop(a[1..], b[0], b[1..]);
      assert [b[0]] + b[1..] == b;
    }
  }

  /** The result of a filter is a sub-sequence of its input: order is preserved. */
  lemma {:induction false} FilterIsSubSeq<T>(s: seq<T>, p: T -> bool)
    ensures SubSeq(Filter(s, p), s)
  {
    if s != [] {
      FilterIsSubSeq(s[1..], p);
      var r := Filter(s, p);
      if p(s[0]) {
        assert r[0] == s[0] && r[1..] == Filter(s[1..], p);
      } else {
        assert r == Filter(s[1..], p);
        SubSeqDrop(r, s[0], s[1..]);
        assert [s[0]] + s[1..] == s;
      }
    }
  }

  /** A predicate that every element satisfies keeps the whole sequence. */
  lemma {:induction false} FilterAll<T>(s: seq<T>, p: T -> bool)
    requires forall x :: x in s ==> p(x)
    ensures Filter(s, p) == s
  {
    if s != [] {
      assert s[0] in s;
      assert forall x :: x in s[1..] ==> x in s;
      FilterAll(s[1..], p);
    }
  }

  /** A predicate that no element satisfies leaves nothing. */
  lemma {:induction false} FilterNone<T>(s: seq<T>, p: T -> bool)
    requires forall x :: x in s ==> !p(x)
    ensures Filter(s, p) == []
  {
    if s != [] {
      assert s[0] in s;
      assert forall x :: x in s[1..] ==> x in s;
      FilterNone(s[1..], p);
    }
  }

  /** Filtering with a stronger predicate keeps a sub-sequence of what the weaker one keeps. */
  lemma {:induction false} FilterMonotone<T>(s: seq<T>, p: T -> bool, q: T -> bool)
    requires forall x :: p(x) ==> q(x)
    ensures SubSeq(Filter(s, p), Filter(s, q))
    ensures |Filter(s, p)| <= |Filter(s, q)|
  {
    if s != [] {
      FilterMonotone(s[1..], p, q);
      var rp, rq := Filter(s, p), Filter(s, q);
      var tp, tq := Filter(s[1..], p), Filter(s[1..], q);
      if p(s[0]) {
        assert rp == [s[0]] + tp && rq == [s[0]] + tq;
        assert rp[1..] == tp && rq[1..] == tq;
      } else if q(s[0]) {
        assert rp == tp && rq == [s[0]] + tq;
        SubSeqDrop(tp, s[0], tq);
      } else {
        assert rp == tp && rq == tq;
      }
    }
  }

  /** Filtering twice with the same predicate is filtering once. */
  lemma {:induction false} FilterIdempotent<T>(s: seq<T>, p: T -> bool)
    ensures Filter(Filter(s, p), p) == Filter(s, p)
  {
    FilterAll(Filter(s, p), p);
  }

  /** Filtering distributes over concatenation. */
  lemma {:induction false} FilterAppend<T>(a: seq<T>, b: seq<T>, p: T -> bool)
    ensures Filter(a + b, p) == Filter(a, p) + Filter(b, p)
  {
    if a != [] {
      assert (a + b)[0] == a[0] && (a + b)[1..] == a[1..] + b;
      FilterAppend(a[1..], b, p);
      assert Filter(a + b, p) == (if p(a[0]) then [a[0]] else []) + Filter(a[1..] + b, p);
      assert Filter(a, p) == (if p(a[0]) then [a[0]] else []) + Filter(a[1..], p);
    } else {
      assert a + b == b;
    }
  }

  /** No value occurs twice. */
  predicate NoDup<T(==)>(s: seq<T>)
  {
    forall i, j :: 0 <= i < j < |s| ==> s[i] != s[j]
  }

  /** Filtering never introduces a duplicate. */
  lemma {:induction false} FilterNoDup<T>(s: seq<T>, p: T -> bool)
    requires NoDup(s)
    ensures NoDup(Filter(s, p))
  {
    if s != [] {
      assert NoDup(s[1..]) by {
        forall i, j | 0 <= i < j < |s[1..]| ensures s[1..][i] != s[1..][j] {
          assert s[1..][i] == s[i + 1] && s[1..][j] == s[j + 1];
        }
      }
      FilterNoDup(s[1..], p);
      var t := Filter(s[1..], p);
      if p(s[0]) {
        assert s[0] !in s[1..];
        FilterKeeps(s[1..], p, s[0]);
        var r := [s[0]] + t;
        forall i, j | 0 <= i < j < |r| ensures r[i] != r[j] {
          if i == 0 {
            assert r[j] == t[j - 1];
            assert t[j - 1] in t;
          } else {
            assert r[i] == t[i - 1] && r[j] == t[j - 1];
          }
        }
      }
    }
  }
}
