/** The stable sort by mean distance that ArithmeticMeanReranker.rerank performs with
    Python's `sorted(keys, key=mean)`. Python's sort is stable, so the result is the unique
    ordering by ascending key in which equal keys keep their input order; insertion sort
    produces exactly that ordering, and the lemmas below prove the three properties. */
module Sorting {

  /** A distinct path together with the mean of the distances collected for it. */
  datatype Scored = Scored(path: string, mean: real)

  function Paths(s: seq<Scored>): (r: seq<string>)
    ensures |r| == |s|
    ensures forall i :: 0 <= i < |s| ==> r[i] == s[i].path
  {
    seq(|s|, i requires 0 <= i < |s| => s[i].path)
  }

  predicate SortedByMean(s: seq<Scored>) {
    forall i, j :: 0 <= i < j < |s| ==> s[i].mean <= s[j].mean
  }

  predicate DistinctPaths(s: seq<Scored>) {
    forall i, j :: 0 <= i < j < |s| ==> s[i].path != s[j].path
  }

  /** `a` occurs in `s` at some position strictly before an occurrence of `b`. */
  ghost predicate Precedes(s: seq<Scored>, a: Scored, b: Scored) {
    exists i, j :: 0 <= i < j < |s| && s[i] == a && s[j] == b
  }

  /** Every two elements of `r` with equal means appear in `r` in the order they had in `s`. */
  ghost predicate StableWrt(r: seq<Scored>, s: seq<Scored>) {
    forall i, j :: 0 <= i < j < |r| && r[i].mean == r[j].mean ==> Precedes(s, r[i], r[j])
  }

  /** Places `x` in front of the first element whose mean is not smaller than its own. */
  function Insert(x: Scored, s: seq<Scored>): seq<Scored>
  {
    if s == [] then [x]
    else if x.mean <= s[0].mean then [x] + s
    else [s[0]] + Insert(x, s[1..])
  }

  function SortByMean(s: seq<Scored>): seq<Scored>
  {
    if s == [] then [] else Insert(s[0], SortByMean(s[1..]))
  }

  /** Where Insert puts its element: after the leading run of elements with a strictly
      smaller mean, before the first element whose mean is not smaller. */
  lemma {:induction false} InsertAt(x: Scored, s: seq<Scored>) returns (k: nat)
    ensures k <= |s|
    ensures Insert(x, s) == s[..k] + [x] + s[k..]
    ensures forall i :: 0 <= i < k ==> s[i].mean < x.mean
    ensures k < |s| ==> x.mean <= s[k].mean
  {
    if s == [] {
      k := 0;
    } else if x.mean <= s[0].mean {
      k := 0;
    } else {
      var k' := InsertAt(x, s[1..]);
      k := k' + 1;
      assert s[..k] == [s[0]] + s[1..][..k'];
      assert s[k..] == s[1..][k'..];
    }
  }

  lemma {:induction false} InsertKeepsSorted(x: Scored, s: seq<Scored>)
    requires SortedByMean(s)
    ensures SortedByMean(Insert(x, s))
  {
    var k := InsertAt(x, s);
    var r := Insert(x, s);
    forall i, j | 0 <= i < j < |r| ensures r[i].mean <= r[j].mean {
      SplicedAt(x, s, k, i);
      SplicedAt(x, s, k, j);
    }
  }

  lemma {:induction false} SortByMeanSorted(s: seq<Scored>)
    ensures SortedByMean(SortByMean(s))
  {
    if s != [] {
      SortByMeanSorted(s[1..]);
      InsertKeepsSorted(s[0], SortByMean(s[1..]));
    }
  }

  /** Insert adds exactly its element. */
  lemma {:induction false} InsertPermutes(x: Scored, s: seq<Scored>)
    ensures |Insert(x, s)| == |s| + 1
    ensures multiset(Insert(x, s)) == multiset(s) + multiset{x}
  {
    if s != [] && x.mean > s[0].mean {
      InsertPermutes(x, s[1..]);
      assert s == [s[0]] + s[1..];
    }
  }

  /** The sort is a permutation of its input. */
  lemma {:induction false} SortByMeanPermutes(s: seq<Scored>)
    ensures |SortByMean(s)| == |s|
    ensures multiset(SortByMean(s)) == multiset(s)
  {
    if s != [] {
      SortByMeanPermutes(s[1..]);
      InsertPermutes(s[0], SortByMean(s[1..]));
      assert s == [s[0]] + s[1..];
    }
  }

  /** An element of a permutation of `s` sits at some position of `s`. */
  lemma PermutedEntry(t: seq<Scored>, s: seq<Scored>, k: nat) returns (m: nat)
    requires multiset(t) == multiset(s) && k < |t|
    ensures m < |s| && s[m] == t[k]
  {
    assert t[k] in multiset(s);
    m :| 0 <= m < |s| && s[m] == t[k];
  }

  lemma PrecedesInTail(s: seq<Scored>, a: Scored, b: Scored)
    requires s != [] && Precedes(s[1..], a, b)
    ensures Precedes(s, a, b)
  {
    var i, j :| 0 <= i < j < |s[1..]| && s[1..][i] == a && s[1..][j] == b;
    assert s[i + 1] == a && s[j + 1] == b;
  }

  /** Elements with equal means keep the order they had in the input. */
  lemma {:induction false} SortByMeanStable(s: seq<Scored>)
    ensures StableWrt(SortByMean(s), s)
  {
    if s != [] {
      SortByMeanStable(s[1..]);
      SortByMeanPermutes(s[1..]);
      InsertStable(s[0], s[1..], SortByMean(s[1..]));
      assert s == [s[0]] + s[1..];
    }
  }

  lemma InsertStable(x: Scored, tail: seq<Scored>, rest: seq<Scored>)
    requires StableWrt(rest, tail) && multiset(rest) == multiset(tail)
    ensures StableWrt(Insert(x, rest), [x] + tail)
  {
    var k := InsertAt(x, rest);
    SplicedStable(x, tail, rest, k);
  }

  lemma SplicedStable(x: Scored, tail: seq<Scored>, rest: seq<Scored>, k: nat)
    requires StableWrt(rest, tail) && multiset(rest) == multiset(tail)
    requires k <= |rest| && forall i :: 0 <= i < k ==> rest[i].mean < x.mean
    ensures StableWrt(rest[..k] + [x] + rest[k..], [x] + tail)
  {
    var r := rest[..k] + [x] + rest[k..];
    forall i, j | 0 <= i < j < |r| && r[i].mean == r[j].mean
      ensures Precedes([x] + tail, r[i], r[j])
    {
      SplicedAt(x, rest, k, i);
      SplicedAt(x, rest, k, j);
      if i == k {
        InsertedPrecedes(x, tail, rest[j - 1]);
      } else {
        var i' := if i < k then i else i - 1;
        var j' := if j < k then j else j - 1;
        RestPrecedes(x, tail, rest, i', j');
      }
    }
  }

  lemma SplicedAt(x: Scored, rest: seq<Scored>, k: nat, i: nat)
    requires k <= |rest| && i <= |rest|
    ensures var r := rest[..k] + [x] + rest[k..];
      r[i] == if i < k then rest[i] else if i == k then x else rest[i - 1]
  {
  }

  lemma RestPrecedes(x: Scored, tail: seq<Scored>, rest: seq<Scored>, i: nat, j: nat)
    requires StableWrt(rest, tail)
    requires i < j < |rest| && rest[i].mean == rest[j].mean
    ensures Precedes([x] + tail, rest[i], rest[j])
  {
    var s := [x] + tail;
    assert s[1..] == tail;
    PrecedesInTail(s, rest[i], rest[j]);
  }

  lemma InsertedPrecedes(x: Scored, tail: seq<Scored>, y: Scored)
    requires y in multiset(tail)
    ensures Precedes([x] + tail, x, y)
  {
    var m :| 0 <= m < |tail| && tail[m] == y;
    var s := [x] + tail;
    assert s[0] == x && s[m + 1] == y;
  }

  /** Sorting a list of distinct paths leaves them distinct. */
  lemma {:induction false} SortByMeanKeepsDistinct(s: seq<Scored>)
    requires DistinctPaths(s)
    ensures DistinctPaths(SortByMean(s))
  {
    if s != [] {
      var x, tail := s[0], s[1..];
      DistinctPathsTail(s);
      SortByMeanKeepsDistinct(tail);
      SortByMeanPermutes(tail);
      var rest := SortByMean(tail);
      var k := InsertAt(x, rest);
      forall i | 0 <= i < |rest| ensures rest[i].path != x.path {
        HeadNotInTail(s, rest[i]);
      }
      SplicedDistinct(x, rest, k);
    }
  }

  lemma DistinctPathsTail(s: seq<Scored>)
    requires s != [] && DistinctPaths(s)
    ensures DistinctPaths(s[1..])
  {
    var tail := s[1..];
    forall i, j | 0 <= i < j < |tail| ensures tail[i].path != tail[j].path {
      assert tail[i] == s[i + 1] && tail[j] == s[j + 1];
    }
  }

  lemma HeadNotInTail(s: seq<Scored>, y: Scored)
    requires s != [] && DistinctPaths(s)
    requires y in multiset(s[1..])
    ensures y.path != s[0].path
  {
    var tail := s[1..];
    var m :| 0 <= m < |tail| && tail[m] == y;
    assert s[m + 1] == y;
  }

  lemma SplicedDistinct(x: Scored, rest: seq<Scored>, k: nat)
    requires DistinctPaths(rest) && k <= |rest|
    requires forall i :: 0 <= i < |rest| ==> rest[i].path != x.path
    ensures DistinctPaths(rest[..k] + [x] + rest[k..])
  {
    var r := rest[..k] + [x] + rest[k..];
    forall i, j | 0 <= i < j < |r| ensures r[i].path != r[j].path {
      SplicedAt(x, rest, k, i);
      SplicedAt(x, rest, k, j);
    }
  }
}
