/** The array operations the application's lists are edited and queried with:
    `map` that replaces one index, `filter` that drops one index, `splice`
    that inserts, a move built from the two splices, `filter` by a
    predicate, and the window a query's offset and limit select. */
module Seqs {

  // ---------------------------------------------------------------------
  // Index-based edits
  // ---------------------------------------------------------------------

  /** `s.map((e, i) => i === index ? x : e)`. */
  function Updated<T>(s: seq<T>, index: int, x: T): (r: seq<T>)
    ensures |r| == |s|
    ensures forall i :: 0 <= i < |s| ==> r[i] == if i == index then x else s[i]
  {
    if s == [] then []
    else [if index == 0 then x else s[0]] + Updated(s[1..], index - 1, x)
  }

  /** `s.filter((_, i) => i !== index)`. */
  function RemovedAt<T>(s: seq<T>, index: int): (r: seq<T>)
    ensures 0 <= index < |s| ==> r == s[..index] + s[index + 1..]
    ensures !(0 <= index < |s|) ==> r == s
  {
    if s == [] then []
    else if index == 0 then s[1..]
    else
      var tail := RemovedAt(s[1..], index - 1);
      assert 0 < index < |s| ==> s[1..][..index - 1] == s[1..index] && s[1..][index..] == s[index + 1..];
      [s[0]] + tail
  }

  /** `s.splice(at, 0, x)` on a copy: an index past the end appends. */
  function Inserted<T>(s: seq<T>, at: nat, x: T): (r: seq<T>)
    ensures |r| == |s| + 1
    ensures r[InsertionPoint(s, at)] == x
    ensures RemovedAt(r, InsertionPoint(s, at)) == s
  {
    var p := InsertionPoint(s, at);
    var r := s[..p] + [x] + s[p..];
    assert r[..p] == s[..p] && r[p + 1..] == s[p..];
    r
  }

  function InsertionPoint<T>(s: seq<T>, at: nat): (p: nat)
    ensures p <= |s|
  {
    if at < |s| then at else |s|
  }

  // ---------------------------------------------------------------------
  // Moving one element
  // ---------------------------------------------------------------------

  /** Take the element at `from` out, then insert it at `to` in the shortened
      sequence. */
  function Moved<T>(s: seq<T>, from: nat, to: nat): (r: seq<T>)
    requires from < |s|
  {
    Inserted(RemovedAt(s, from), to, s[from])
  }

  /** Where a moved element lands: `to`, or the last index when `to` is past it. */
  function Landing<T>(s: seq<T>, to: nat): nat
    requires |s| > 0
  {
    if to < |s| - 1 then to else |s| - 1
  }

  /** A move keeps the length, puts the element at its landing index and
      leaves the other elements in their relative order. */
  lemma MovedShape<T>(s: seq<T>, from: nat, to: nat)
    requires from < |s|
    ensures |Moved(s, from, to)| == |s|
    ensures Moved(s, from, to)[Landing(s, to)] == s[from]
    ensures RemovedAt(Moved(s, from, to), Landing(s, to)) == RemovedAt(s, from)
  {
    assert InsertionPoint(RemovedAt(s, from), to) == Landing(s, to);
  }

  /** A move is a permutation. */
  lemma MovedPermutes<T>(s: seq<T>, from: nat, to: nat)
    requires from < |s|
    ensures multiset(Moved(s, from, to)) == multiset(s)
  {
    var rest := RemovedAt(s, from);
    var p := InsertionPoint(rest, to);
    var x := s[from];
    calc {
      multiset(s);
      { assert s == s[..from] + [x] + s[from + 1..]; }
      multiset(s[..from]) + multiset{x} + multiset(s[from + 1..]);
      multiset(rest) + multiset{x};
      { assert rest == rest[..p] + rest[p..]; }
      multiset(rest[..p]) + multiset{x} + multiset(rest[p..]);
      multiset(rest[..p] + [x] + rest[p..]);
    }
  }

  /** Moving the element back from where it landed restores the sequence. */
  lemma MovedBack<T>(s: seq<T>, from: nat, to: nat)
    requires from < |s|
    ensures Moved(Moved(s, from, to), Landing(s, to), from) == s
  {
    var m := Moved(s, from, to);
    MovedShape(s, from, to);
    var rest := RemovedAt(s, from);
    assert InsertionPoint(rest, from) == from;
    assert Moved(m, Landing(s, to), from) == rest[..from] + [s[from]] + rest[from..];
    assert rest[..from] == s[..from] && rest[from..] == s[from + 1..];
  }

  /** Dragging the first of four elements onto index 2. */
  lemma MovedExample()
    ensures Moved([10, 20, 30, 40], 0, 2) == [20, 30, 10, 40]
  {
    assert RemovedAt([10, 20, 30, 40], 0) == [20, 30, 40];
  }

  // ---------------------------------------------------------------------
  // Filtering and windows
  // ---------------------------------------------------------------------

  /** `s.filter(keep)`. */
  function Filter<T(!new)>(s: seq<T>, keep: T -> bool): (r: seq<T>)
    ensures |r| <= |s|
    ensures forall x :: x in r <==> x in s && keep(x)
  {
    if s == [] then []
    else if keep(s[0]) then [s[0]] + Filter(s[1..], keep)
    else Filter(s[1..], keep)
  }

  /** `a` is `b` with some elements left out, the rest in their order:
      `idx` says where each element of `a` sits in `b`. */
  ghost predicate Embeds<T>(idx: seq<nat>, a: seq<T>, b: seq<T>)
  {
    && |idx| == |a|
    && (forall i :: 0 <= i < |a| ==> idx[i] < |b| && a[i] == b[idx[i]])
    && (forall i, j :: 0 <= i < j < |idx| ==> idx[i] < idx[j])
  }

  ghost predicate IsSubsequence<T>(a: seq<T>, b: seq<T>)
  {
    exists idx :: Embeds(idx, a, b)
  }

  /** Indices into `s[1..]` moved to the same elements of `s`. */
  lemma ShiftedEmbeds<T>(idx: seq<nat>, a: seq<T>, s: seq<T>) returns (shifted: seq<nat>)
    requires s != [] && Embeds(idx, a, s[1..])
    ensures Embeds(shifted, a, s)
    ensures forall i :: 0 <= i < |shifted| ==> shifted[i] > 0
  {
    shifted := seq(|idx|, i requires 0 <= i < |idx| => idx[i] + 1);
    forall i | 0 <= i < |a|
      ensures shifted[i] < |s| && a[i] == s[shifted[i]]
    {
      assert s[1..][idx[i]] == s[idx[i] + 1];
    }
  }

  /** An embedding that avoids position 0 extends by the first element. */
  lemma ConsEmbeds<T>(idx: seq<nat>, a: seq<T>, s: seq<T>)
    requires s != [] && Embeds(idx, a, s)
    requires forall i :: 0 <= i < |idx| ==> idx[i] > 0
    ensures Embeds([0] + idx, [s[0]] + a, s)
  {
  }

  /** Filtering keeps the survivors in their original order: `idx` gives
      the position in `s` of each element `Filter` keeps. */
  lemma {:induction false} FilterIsSubsequence<T(!new)>(s: seq<T>, keep: T -> bool) returns (idx: seq<nat>)
    ensures Embeds(idx, Filter(s, keep), s)
  {
    if s == [] {
      return [];
    }
    var tail := FilterIsSubsequence(s[1..], keep);
    var shifted := ShiftedEmbeds(tail, Filter(s[1..], keep), s);
    if keep(s[0]) {
      ConsEmbeds(shifted, Filter(s[1..], keep), s);
      idx := [0] + shifted;
    } else {
      idx := shifted;
    }
  }

  lemma FilterSubsequence<T(!new)>(s: seq<T>, keep: T -> bool)
    ensures IsSubsequence(Filter(s, keep), s)
  {
    var idx := FilterIsSubsequence(s, keep);
  }

  lemma SubsequenceOfItself<T>(s: seq<T>)
    ensures IsSubsequence(s, s)
  {
    assert Embeds(seq(|s|, i requires 0 <= i < |s| => i), s, s);
  }

  /** A subsequence of a subsequence is a subsequence; it is never longer. */
  lemma SubsequenceTransitive<T>(a: seq<T>, b: seq<T>, c: seq<T>)
    requires IsSubsequence(a, b) && IsSubsequence(b, c)
    ensures IsSubsequence(a, c) && |a| <= |c|
  {
    var ab :| Embeds(ab, a, b);
    var bc :| Embeds(bc, b, c);
    var ac := seq(|ab|, i requires 0 <= i < |ab| => bc[ab[i]]);
    assert Embeds(ac, a, c);
    SubsequenceLength(ac, a, c);
  }

  lemma {:induction false} SubsequenceLength<T>(idx: seq<nat>, a: seq<T>, b: seq<T>)
    requires Embeds(idx, a, b)
    ensures |a| <= |b|
  {
    if |a| > 0 {
      IndexGrowth(idx, |b|);
    }
  }

  /** Strictly increasing indices below `n` are at most `n` many. */
  lemma {:induction false} IndexGrowth(idx: seq<nat>, n: nat)
    requires forall i :: 0 <= i < |idx| ==> idx[i] < n
    requires forall i, j :: 0 <= i < j < |idx| ==> idx[i] < idx[j]
    ensures |idx| <= n
  {
    if |idx| > 0 {
      var last := idx[|idx| - 1];
      IndexGrowth(idx[..|idx| - 1], last);
    }
  }

  /** Filtering with a predicate every element meets changes nothing. */
  lemma {:induction false} FilterAll<T(!new)>(s: seq<T>, keep: T -> bool)
    requires forall x :: x in s ==> keep(x)
    ensures Filter(s, keep) == s
  {
    if s != [] {
      FilterAll(s[1..], keep);
    }
  }

  /** Two filters in a row keep what both predicates accept. */
  lemma {:induction false} FilterFilter<T(!new)>(s: seq<T>, p: T -> bool, q: T -> bool)
    ensures Filter(Filter(s, p), q) == Filter(s, x => p(x) && q(x))
  {
    if s != [] {
      FilterFilter(s[1..], p, q);
      if p(s[0]) {
        assert Filter(s, p)[1..] == Filter(s[1..], p);
      }
    }
  }

  /** The page a query with an offset and a limit selects. */
  function Window<T>(s: seq<T>, offset: nat, limit: nat): (r: seq<T>)
    ensures |r| <= limit
    ensures offset >= |s| ==> r == []
    ensures forall i :: 0 <= i < |r| ==> offset + i < |s| && r[i] == s[offset + i]
    ensures offset + limit <= |s| ==> |r| == limit
  {
    var start := if offset < |s| then offset else |s|;
    var end := if offset + limit < |s| then offset + limit else |s|;
    s[start..end]
  }

  // ---------------------------------------------------------------------
  // Order and distinctness
  // ---------------------------------------------------------------------

  /** The sequence back to front. */
  function Reversed<T>(s: seq<T>): (r: seq<T>)
    ensures |r| == |s|
    ensures forall i :: 0 <= i < |s| ==> r[i] == s[|s| - 1 - i]
  {
    if s == [] then [] else Reversed(s[1..]) + [s[0]]
  }

  predicate Distinct<T(==)>(s: seq<T>)
  {
    forall i, j :: 0 <= i < j < |s| ==> s[i] != s[j]
  }

  lemma DistinctCons<T>(x: T, s: seq<T>)
    ensures Distinct([x] + s) <==> x !in s && Distinct(s)
  {
    var t := [x] + s;
    if x !in s && Distinct(s) {
      forall i, j | 0 <= i < j < |t| ensures t[i] != t[j] {
        if i > 0 {
          assert t[i] == s[i - 1] && t[j] == s[j - 1];
        }
      }
    }
    if Distinct(t) {
      forall i, j | 0 <= i < j < |s| ensures s[i] != s[j] {
        assert s[i] == t[i + 1] && s[j] == t[j + 1];
      }
      forall k | 0 <= k < |s| ensures s[k] != x {
        assert t[0] == x && s[k] == t[k + 1] && t[0] != t[k + 1];
      }
    }
  }

  /** Filtering keeps distinct elements distinct. */
  lemma {:induction false} FilterDistinct<T(!new)>(s: seq<T>, keep: T -> bool)
    requires Distinct(s)
    ensures Distinct(Filter(s, keep))
  {
    if s != [] {
      assert s == [s[0]] + s[1..];
      DistinctCons(s[0], s[1..]);
      FilterDistinct(s[1..], keep);
      if keep(s[0]) {
        DistinctCons(s[0], Filter(s[1..], keep));
      }
    }
  }

  /** Filtering commutes with reversal. */
  lemma {:induction false} FilterReversed<T(!new)>(s: seq<T>, keep: T -> bool)
    ensures Filter(Reversed(s), keep) == Reversed(Filter(s, keep))
  {
    if s != [] {
      FilterReversed(s[1..], keep);
      FilterSnoc(Reversed(s[1..]), s[0], keep);
      if keep(s[0]) {
        assert Filter(s, keep) == [s[0]] + Filter(s[1..], keep);
        assert Reversed(Filter(s, keep)) == Reversed(Filter(s[1..], keep)) + [s[0]] by {
          ReversedCons(s[0], Filter(s[1..], keep));
        }
      }
    }
  }

  lemma ReversedCons<T>(x: T, s: seq<T>)
    ensures Reversed([x] + s) == Reversed(s) + [x]
  {
    assert ([x] + s)[1..] == s;
  }

  lemma {:induction false} FilterSnoc<T(!new)>(s: seq<T>, x: T, keep: T -> bool)
    ensures Filter(s + [x], keep) == Filter(s, keep) + (if keep(x) then [x] else [])
  {
    if s == [] {
      assert s + [x] == [x];
    } else {
      assert (s + [x])[1..] == s[1..] + [x];
      FilterSnoc(s[1..], x, keep);
    }
  }
}
