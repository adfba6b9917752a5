/**
 * The ranking step of the bot's search: the Work.ua results followed by the
 * Robota.ua results, sorted in place with `sort(reverse=True)` (stable,
 * comparing with `Resume.__lt__` only), of which the first five are kept.
 */
module Ranking {
  import opened Models

  /** How many resumes the bot shows. */
  const TopCount: nat := 5

  function Min(a: nat, b: nat): nat { if a < b then a else b }

  /** Non-increasing filling percentage from left to right. */
  predicate SortedDesc(s: seq<Resume>) {
    forall i, j :: 0 <= i < j < |s| ==> !Less(s[i], s[j])
  }

  /** The resumes of `s` with filling percentage `v`, in their order in `s`. */
  function WithScore(s: seq<Resume>, v: int): seq<Resume> {
    if s == [] then []
    else (if s[0].fillingPercentage == v then [s[0]] else []) + WithScore(s[1..], v)
  }

  /**
   * Puts `x` in front of the first element that ranks below it, so that it
   * ends up after every element it ties with.
   */
  function Insert(x: Resume, t: seq<Resume>): seq<Resume> {
    if t == [] then [x]
    else if Less(t[0], x) then [x] + t
    else [t[0]] + Insert(x, t[1..])
  }

  /** The stable descending sort, as insertion of each element in input order. */
  function Sort(s: seq<Resume>): seq<Resume> {
    if s == [] then [] else Insert(s[|s| - 1], Sort(s[..|s| - 1]))
  }

  /** The bot's top results: the five best of the concatenated lists. */
  function Ranked(work: seq<Resume>, robota: seq<Resume>): seq<Resume> {
    var sorted := Sort(work + robota);
    sorted[..Min(TopCount, |sorted|)]
  }

  // ----- properties of the stable sort -----

  lemma {:induction false} WithScoreConcat(a: seq<Resume>, b: seq<Resume>, v: int)
    ensures WithScore(a + b, v) == WithScore(a, v) + WithScore(b, v)
  {
    if a == [] {
      assert a + b == b;
    } else {
      var head := if a[0].fillingPercentage == v then [a[0]] else [];
      assert (a + b)[0] == a[0];
      assert (a + b)[1..] == a[1..] + b;
      assert WithScore(a + b, v) == head + WithScore(a[1..] + b, v);
      assert WithScore(a, v) == head + WithScore(a[1..], v);
      WithScoreConcat(a[1..], b, v);
    }
  }

  lemma {:induction false} WithScoreMember(s: seq<Resume>, v: int, x: Resume)
    requires x in WithScore(s, v)
    ensures x in s && x.fillingPercentage == v
  {
    if s != [] && !(s[0].fillingPercentage == v && x == s[0]) {
      WithScoreMember(s[1..], v, x);
    }
  }

  lemma {:induction false} WithScoreAbsent(s: seq<Resume>, v: int)
    requires forall i :: 0 <= i < |s| ==> s[i].fillingPercentage != v
    ensures WithScore(s, v) == []
  {
    if s != [] { WithScoreAbsent(s[1..], v); }
  }

  /** No element of `s` ranks above `y`. */
  predicate AtMost(y: Resume, s: seq<Resume>) {
    forall k :: 0 <= k < |s| ==> !Less(y, s[k])
  }

  lemma {:induction false} InsertAtMost(y: Resume, x: Resume, t: seq<Resume>)
    requires AtMost(y, t) && !Less(y, x)
    ensures AtMost(y, Insert(x, t))
  {
    if t != [] && !Less(t[0], x) {
      InsertAtMost(y, x, t[1..]);
      assert Insert(x, t) == [t[0]] + Insert(x, t[1..]);
    }
  }

  lemma {:induction false} InsertPermutes(x: Resume, t: seq<Resume>)
    ensures multiset(Insert(x, t)) == multiset(t) + multiset{x}
  {
    if t != [] && !Less(t[0], x) {
      InsertPermutes(x, t[1..]);
      assert t == [t[0]] + t[1..];
      assert multiset(Insert(x, t)) == multiset{t[0]} + multiset(Insert(x, t[1..]));
    }
  }

  lemma {:induction false} InsertSorted(x: Resume, t: seq<Resume>)
    requires SortedDesc(t)
    ensures SortedDesc(Insert(x, t))
  {
    if t != [] && !Less(t[0], x) {
      var rest := Insert(x, t[1..]);
      assert SortedDesc(t[1..]);
      InsertSorted(x, t[1..]);
      assert AtMost(t[0], t[1..]) by {
        forall k | 0 <= k < |t[1..]| ensures !Less(t[0], t[1..][k]) {
          assert t[1..][k] == t[k + 1];
        }
      }
      InsertAtMost(t[0], x, t[1..]);
      var r := Insert(x, t);
      assert r == [t[0]] + rest;
      forall i, j | 0 <= i < j < |r| ensures !Less(r[i], r[j]) {
        if i > 0 {
          assert r[i] == rest[i - 1] && r[j] == rest[j - 1];
        } else {
          assert r[j] == rest[j - 1];
        }
      }
    }
  }

  lemma {:induction false} InsertWithScore(x: Resume, t: seq<Resume>, v: int)
    requires SortedDesc(t)
    ensures WithScore(Insert(x, t), v) ==
              if x.fillingPercentage == v then WithScore(t, v) + [x] else WithScore(t, v)
  {
    if t == [] {
    } else if Less(t[0], x) {
      assert ([x] + t)[1..] == t;
      if x.fillingPercentage == v { WithScoreAbsent(t, v); }
    } else {
      InsertWithScore(x, t[1..], v);
      var r := Insert(x, t);
      assert r[1..] == Insert(x, t[1..]);
    }
  }

  /**
   * The sort is a stable descending sort: the result is non-increasing, a
   * permutation of the input, and the resumes of each filling percentage
   * keep their input order.
   */
  lemma SortFacts(s: seq<Resume>)
    ensures SortedDesc(Sort(s))
    ensures multiset(Sort(s)) == multiset(s)
    ensures |Sort(s)| == |s|
    ensures forall v :: WithScore(Sort(s), v) == WithScore(s, v)
  {
    SortSorted(s);
    SortPermutes(s);
    SortKeepsScores(s);
    assert |Sort(s)| == |multiset(Sort(s))|;
  }

  lemma {:induction false} SortSorted(s: seq<Resume>)
    ensures SortedDesc(Sort(s))
  {
    if s != [] {
      SortSorted(s[..|s| - 1]);
      InsertSorted(s[|s| - 1], Sort(s[..|s| - 1]));
    }
  }

  lemma {:induction false} SortPermutes(s: seq<Resume>)
    ensures multiset(Sort(s)) == multiset(s)
  {
    if s != [] {
      var p, x := s[..|s| - 1], s[|s| - 1];
      assert s == p + [x];
      SortPermutes(p);
      InsertPermutes(x, Sort(p));
    }
  }

  lemma {:induction false} SortKeepsScores(s: seq<Resume>)
    ensures forall v :: WithScore(Sort(s), v) == WithScore(s, v)
  {
    if s != [] {
      var p, x := s[..|s| - 1], s[|s| - 1];
      assert s == p + [x];
      SortKeepsScores(p);
      SortSorted(p);
      forall v ensures WithScore(Sort(s), v) == WithScore(s, v) {
        InsertWithScore(x, Sort(p), v);
        WithScoreConcat(p, [x], v);
        assert [x][1..] == [];
      }
    }
  }

  lemma WithScoreOfHead(s: seq<Resume>)
    requires s != []
    ensures WithScore(s, s[0].fillingPercentage) != []
  {
  }

  lemma SortedHeadIsMax(t: seq<Resume>, x: Resume)
    requires SortedDesc(t) && x in t
    ensures x.fillingPercentage <= t[0].fillingPercentage
  {
    var i :| 0 <= i < |t| && t[i] == x;
    if i > 0 { assert !Less(t[0], t[i]); }
  }

  /** Two non-increasing sequences that agree on the resumes of every filling percentage are equal. */
  lemma {:induction false} SortedDeterminedByScores(t: seq<Resume>, u: seq<Resume>)
    requires SortedDesc(t) && SortedDesc(u)
    requires forall v :: WithScore(t, v) == WithScore(u, v)
    ensures t == u
    decreases |t| + |u|
  {
    if t == [] && u == [] {
    } else if t == [] {
      WithScoreOfHead(u);
      assert false;
    } else if u == [] {
      WithScoreOfHead(t);
      assert false;
    } else {
      SameHeads(t, u);
      SameTailScores(t, u);
      SortedTail(t);
      SortedTail(u);
      SortedDeterminedByScores(t[1..], u[1..]);
      assert t == [t[0]] + t[1..];
      assert u == [u[0]] + u[1..];
    }
  }

  lemma SortedTail(t: seq<Resume>)
    requires SortedDesc(t) && t != []
    ensures SortedDesc(t[1..])
  {
    forall i, j | 0 <= i < j < |t| - 1 ensures !Less(t[1..][i], t[1..][j]) {
      assert t[1..][i] == t[i + 1] && t[1..][j] == t[j + 1];
    }
  }

  /** Two non-empty non-increasing sequences that agree on every filling percentage start alike. */
  lemma SameHeads(t: seq<Resume>, u: seq<Resume>)
    requires SortedDesc(t) && SortedDesc(u) && t != [] && u != []
    requires forall v :: WithScore(t, v) == WithScore(u, v)
    ensures t[0] == u[0]
  {
    var m, m' := t[0].fillingPercentage, u[0].fillingPercentage;
    assert WithScore(t, m)[0] == t[0];
    assert WithScore(u, m')[0] == u[0];
    WithScoreMember(t, m', WithScore(u, m')[0]);
    WithScoreMember(u, m, WithScore(t, m)[0]);
    SortedHeadIsMax(t, u[0]);
    SortedHeadIsMax(u, t[0]);
    assert WithScore(t, m)[0] == WithScore(u, m)[0];
  }

  lemma SameTailScores(t: seq<Resume>, u: seq<Resume>)
    requires t != [] && u != [] && t[0] == u[0]
    requires forall v :: WithScore(t, v) == WithScore(u, v)
    ensures forall v :: WithScore(t[1..], v) == WithScore(u[1..], v)
  {
    forall v ensures WithScore(t[1..], v) == WithScore(u[1..], v) {
      var head := if t[0].fillingPercentage == v then [t[0]] else [];
      assert WithScore(t, v) == head + WithScore(t[1..], v);
      assert WithScore(u, v) == head + WithScore(u[1..], v);
      assert WithScore(t[1..], v) == WithScore(t, v)[|head|..];
      assert WithScore(u[1..], v) == WithScore(u, v)[|head|..];
    }
  }

  /**
   * Any stable descending sort of `s` gives `Sort(s)`: the result of Python's
   * Timsort is fixed by stability, whatever algorithm computes it.
   */
  lemma StableSortIsUnique(s: seq<Resume>, t: seq<Resume>)
    requires SortedDesc(t)
    requires forall v :: WithScore(t, v) == WithScore(s, v)
    ensures t == Sort(s)
  {
    SortFacts(s);
    SortedDeterminedByScores(t, Sort(s));
  }

  /**
   * What the bot's ranking promises: at most five resumes, taken from the
   * inputs, best first; nothing left out scores above anything kept; and
   * among equal scores the original order holds, so Work.ua resumes come
   * before Robota.ua ones.
   */
  lemma RankedFacts(work: seq<Resume>, robota: seq<Resume>)
    ensures |Ranked(work, robota)| == Min(TopCount, |work| + |robota|)
    ensures multiset(Ranked(work, robota)) <= multiset(work + robota)
    ensures SortedDesc(Ranked(work, robota))
    ensures var sorted := Sort(work + robota);
            var top := Ranked(work, robota);
            var dropped := sorted[|top|..];
            && multiset(top) + multiset(dropped) == multiset(work + robota)
            && forall i, j :: 0 <= i < |top| && 0 <= j < |dropped| ==> !Less(top[i], dropped[j])
    ensures forall v :: WithScore(Ranked(work, robota), v) <= WithScore(work, v) + WithScore(robota, v)
  {
    var s := work + robota;
    SortFacts(s);
    PrefixFacts(Sort(s), Min(TopCount, |Sort(s)|));
    forall v ensures WithScore(Sort(s), v) == WithScore(work, v) + WithScore(robota, v) {
      WithScoreConcat(work, robota, v);
    }
  }

  /** Cutting a non-increasing sequence at `n`: the part kept is sorted and ranks no lower than the part dropped. */
  lemma PrefixFacts(sorted: seq<Resume>, n: nat)
    requires SortedDesc(sorted) && n <= |sorted|
    ensures SortedDesc(sorted[..n])
    ensures multiset(sorted[..n]) + multiset(sorted[n..]) == multiset(sorted)
    ensures forall i, j :: 0 <= i < n && 0 <= j < |sorted| - n ==> !Less(sorted[..n][i], sorted[n..][j])
    ensures forall v :: WithScore(sorted[..n], v) <= WithScore(sorted, v)
  {
    var top, dropped := sorted[..n], sorted[n..];
    assert sorted == top + dropped;
    forall i, j | 0 <= i < n && 0 <= j < |sorted| - n ensures !Less(top[i], dropped[j]) {
      assert top[i] == sorted[i] && dropped[j] == sorted[n + j];
    }
    forall v ensures WithScore(top, v) <= WithScore(sorted, v) {
      WithScoreConcat(top, dropped, v);
    }
  }

  // ----- the in-place sort -----

  /** Inserting before position `j` of a sorted sequence, where `x` belongs. */
  lemma {:induction false} InsertAt(x: Resume, t: seq<Resume>, j: nat)
    requires SortedDesc(t) && j <= |t|
    requires forall k :: j <= k < |t| ==> Less(t[k], x)
    requires j > 0 ==> !Less(t[j - 1], x)
    ensures Insert(x, t) == t[..j] + [x] + t[j..]
  {
    if j > 0 {
      assert !Less(t[0], x) by { if j - 1 > 0 { assert !Less(t[0], t[j - 1]); } }
      assert SortedDesc(t[1..]);
      InsertAt(x, t[1..], j - 1);
      assert t[..j] == [t[0]] + t[1..][..j - 1];
      assert t[j..] == t[1..][j - 1..];
    }
  }

  /**
   * One step of the insertion sort: `a[i]` moves left past the elements of
   * the sorted prefix `a[..i]` that rank below it.
   */
  method InsertStep(a: array<Resume>, i: nat)
    requires i < a.Length && SortedDesc(a[..i])
    modifies a
    ensures a[..i + 1] == Insert(old(a[i]), old(a[..i]))
    ensures a[i + 1..] == old(a[i + 1..])
  {
    var x := a[i];
    ghost var sorted := a[..i];
    ghost var after := a[i + 1..];
    var j := ShiftRight(a, i);
    a[j] := x;
    InsertAt(x, sorted, j);
    ShiftedIsInserted(a[..], sorted, after, x, j);
  }

  /**
   * Moves the elements left of `a[i]` that rank below it one place to the
   * right, from the nearest on, and returns the gap left where `a[i]` goes.
   */
  method ShiftRight(a: array<Resume>, i: nat) returns (j: nat)
    requires i < a.Length
    modifies a
    ensures j <= i
    ensures forall k :: 0 <= k < j ==> a[k] == old(a[k])
    ensures forall k :: j < k <= i ==> a[k] == old(a[k - 1])
    ensures forall k :: j <= k < i ==> Less(old(a[k]), old(a[i]))
    ensures j > 0 ==> !Less(old(a[j - 1]), old(a[i]))
    ensures forall k :: i < k < a.Length ==> a[k] == old(a[k])
  {
    var x := a[i];
    j := i;
    while j > 0 && Less(a[j - 1], x)
      invariant 0 <= j <= i
      invariant forall k :: 0 <= k < j ==> a[k] == old(a[k])
      invariant forall k :: j < k <= i ==> a[k] == old(a[k - 1])
      invariant forall k :: j <= k < i ==> Less(old(a[k]), x)
      invariant forall k :: i < k < a.Length ==> a[k] == old(a[k])
    {
      a[j] := a[j - 1];
      j := j - 1;
    }
  }

  /** The array after the shift loop, read as a sequence: `x` at `j`, the prefix around it, the rest untouched. */
  lemma ShiftedIsInserted(cur: seq<Resume>, sorted: seq<Resume>, after: seq<Resume>, x: Resume, j: nat)
    requires j <= |sorted| < |cur| && |cur| == |sorted| + 1 + |after|
    requires forall k :: 0 <= k < j ==> cur[k] == sorted[k]
    requires cur[j] == x
    requires forall k :: j < k <= |sorted| ==> cur[k] == sorted[k - 1]
    requires forall k :: |sorted| < k < |cur| ==> cur[k] == after[k - |sorted| - 1]
    ensures cur[..|sorted| + 1] == sorted[..j] + [x] + sorted[j..]
    ensures cur[|sorted| + 1..] == after
  {
    var inserted := sorted[..j] + [x] + sorted[j..];
    forall k | 0 <= k <= |sorted| ensures cur[k] == inserted[k] {
      if k < j {
        assert inserted[k] == sorted[k];
      } else if k > j {
        assert inserted[k] == sorted[k - 1];
      }
    }
  }

  /** `combined_results.sort(reverse=True)`, as an insertion sort on the array. */
  method SortDescending(a: array<Resume>)
    modifies a
    ensures a[..] == Sort(old(a[..]))
  {
    ghost var input := a[..];
    var i := 0;
    while i < a.Length
      invariant 0 <= i <= a.Length
      invariant a[..i] == Sort(input[..i])
      invariant a[i..] == input[i..]
    {
      SortSorted(input[..i]);
      assert a[i] == input[i];
      InsertStep(a, i);
      assert input[..i + 1][..i] == input[..i];
      assert Sort(input[..i + 1]) == Insert(input[i], Sort(input[..i]));
      i := i + 1;
    }
    assert input[..a.Length] == input;
  }

  /** `combined_results = work + robota; combined_results.sort(reverse=True); combined_results[:5]`. */
  method Rank(work: seq<Resume>, robota: seq<Resume>) returns (top: seq<Resume>)
    ensures top == Ranked(work, robota)
  {
    var combined := work + robota;
    var a := new Resume[|combined|](i requires 0 <= i < |combined| => combined[i]);
    assert a[..] == combined;
    SortDescending(a);
    top := a[..Min(TopCount, a.Length)];
  }
}
