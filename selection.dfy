/**
  k-winner-take-all selection (recalculate_winners).

  brain.cpp pairs every neuron with its activation as (activation, index),
  sorts the pairs with std::greater, keeps the first k and stores their
  indices in ascending order. Under that order neuron j precedes neuron i
  ("j beats i") when its activation is larger, or equal with a larger index.
  The neurons kept are therefore exactly those that fewer than k neurons
  beat; this module defines the winners that way, proves that there are k
  of them and that they are the only k-set every member of which beats every
  non-member, and computes them by counting.
 */
module Selection {
  import opened Synapses

  /** (acts[j], j) > (acts[i], i) in std::pair's order. */
  predicate Beats(acts: seq<real>, j: nat, i: nat)
    requires j < |acts| && i < |acts|
  {
    acts[j] > acts[i] || (acts[j] == acts[i] && j > i)
  }

  /** The neuron indices 0..n-1. */
  function Indices(n: nat): (r: set<nat>)
    ensures forall i: nat :: i in r <==> i < n
  {
    if n == 0 then {} else Indices(n - 1) + {n - 1}
  }

  /** The elements of a sequence. */
  function Elems<T>(s: seq<T>): set<T>
  {
    set x | x in s
  }

  /** The neurons that come before i in the descending sort. */
  function Beaters(acts: seq<real>, i: nat): set<nat>
    requires i < |acts|
  {
    set j: nat | j < |acts| && Beats(acts, j, i)
  }

  /** i's position in the descending sort of (activation, index) pairs. */
  function Rank(acts: seq<real>, i: nat): nat
    requires i < |acts|
  {
    |Beaters(acts, i)|
  }

  /** The neurons of [0, m) whose rank is below k, in ascending order. */
  function WinnersBelow(acts: seq<real>, k: nat, m: nat): (ws: seq<nat>)
    requires m <= |acts|
    ensures Ascending(ws)
    ensures forall t :: 0 <= t < |ws| ==> ws[t] < m
    ensures forall i: nat :: i in ws <==> i < m && Rank(acts, i) < k
  {
    if m == 0 then []
    else WinnersBelow(acts, k, m - 1) + (if Rank(acts, m - 1) < k then [m - 1] else [])
  }

  /** The winners recalculate_winners stores: the first k of the descending sort, ascending. */
  function TopK(acts: seq<real>, k: nat): seq<nat>
  {
    WinnersBelow(acts, k, |acts|)
  }

  /**
    A k-winner set as recalculate_winners promises it: k distinct neurons in ascending
    order, each of which beats every neuron left out.
   */
  predicate IsTopK(acts: seq<real>, ws: seq<nat>, k: nat)
  {
    && |ws| == k
    && Ascending(ws)
    && (forall t :: 0 <= t < |ws| ==> ws[t] < |acts|)
    && (forall i: nat, j: nat :: i in ws && j < |acts| && j !in ws && i < |acts| ==> Beats(acts, i, j))
  }

  // ---------------------------------------------------------------------------
  // Counting facts about finite sets
  // ---------------------------------------------------------------------------

  lemma {:induction false} IndicesSize(n: nat)
    ensures |Indices(n)| == n
  {
    if n > 0 {
      IndicesSize(n - 1);
      assert Indices(n) == Indices(n - 1) + {n - 1};
    }
  }

  lemma {:induction false} SubsetSize(a: set<nat>, b: set<nat>)
    requires a <= b
    ensures |a| <= |b|
    decreases a
  {
    if a != {} {
      var x :| x in a;
      SubsetSize(a - {x}, b - {x});
    }
  }

  lemma StrictSubsetSize(a: set<nat>, b: set<nat>)
    requires a < b
    ensures |a| < |b|
  {
    assert !(b <= a);
    var x :| x in b && x !in a;
    SubsetSize(a, b - {x});
  }

  lemma SameSizeSubset(a: set<nat>, b: set<nat>)
    requires a <= b && |a| == |b|
    ensures a == b
  {
    if a != b {
      StrictSubsetSize(a, b);
    }
  }

  /** An ascending sequence has as many elements as its set. */
  lemma {:induction false} AscendingSize(s: seq<nat>)
    requires Ascending(s)
    ensures |Elems(s)| == |s|
  {
    if s != [] {
      var init := s[..|s| - 1];
      AscendingSize(init);
      assert Elems(s) == Elems(init) + {s[|s| - 1]};
      assert s[|s| - 1] !in Elems(init);
    }
  }

  /** Two ascending sequences with the same elements are equal. */
  lemma {:induction false} AscendingUnique(a: seq<nat>, b: seq<nat>)
    requires Ascending(a) && Ascending(b) && Elems(a) == Elems(b)
    ensures a == b
    decreases |a|
  {
    AscendingSize(a);
    AscendingSize(b);
    if a != [] {
      assert a[0] in Elems(b) && b[0] in Elems(a);
      assert a[0] == b[0];
      assert Elems(a[1..]) == Elems(a) - {a[0]};
      assert Elems(b[1..]) == Elems(b) - {b[0]};
      AscendingUnique(a[1..], b[1..]);
      assert a == [a[0]] + a[1..] && b == [b[0]] + b[1..];
    }
  }

  // ---------------------------------------------------------------------------
  // Ranks
  // ---------------------------------------------------------------------------

  lemma RankBelow(acts: seq<real>, i: nat)
    requires i < |acts|
    ensures Rank(acts, i) < |acts|
  {
    assert Beaters(acts, i) <= Indices(|acts|) - {i};
    SubsetSize(Beaters(acts, i), Indices(|acts|) - {i});
    IndicesSize(|acts|);
  }

  /** A neuron that beats another has the smaller rank. */
  lemma RankOrder(acts: seq<real>, j: nat, i: nat)
    requires j < |acts| && i < |acts| && Beats(acts, j, i)
    ensures Rank(acts, j) < Rank(acts, i)
  {
    assert Beaters(acts, j) < Beaters(acts, i) by {
      assert j in Beaters(acts, i) && j !in Beaters(acts, j);
    }
    StrictSubsetSize(Beaters(acts, j), Beaters(acts, i));
  }

  function RankImage(acts: seq<real>, a: set<nat>): set<nat>
  {
    set i | i in a && i < |acts| :: Rank(acts, i)
  }

  lemma RankInjective(acts: seq<real>, x: nat, y: nat)
    requires x < |acts| && y < |acts| && x != y
    ensures Rank(acts, x) != Rank(acts, y)
  {
    if Beats(acts, y, x) {
      RankOrder(acts, y, x);
    } else {
      RankOrder(acts, x, y);
    }
  }

  /** Distinct neurons have distinct ranks, so ranking a set keeps its size. */
  lemma {:induction false} RankImageSize(acts: seq<real>, a: set<nat>)
    requires forall i :: i in a ==> i < |acts|
    ensures |RankImage(acts, a)| == |a|
    decreases a
  {
    if a == {} {
      assert RankImage(acts, a) == {};
    } else {
      var x :| x in a;
      var rest := a - {x};
      RankImageSize(acts, rest);
      assert RankImage(acts, a) == RankImage(acts, rest) + {Rank(acts, x)};
      assert Rank(acts, x) !in RankImage(acts, rest) by {
        forall y | y in rest
          ensures Rank(acts, y) != Rank(acts, x)
        {
          RankInjective(acts, x, y);
        }
      }
    }
  }

  /** Ranks run over exactly 0..n-1. */
  lemma RanksArePositions(acts: seq<real>)
    ensures RankImage(acts, Indices(|acts|)) == Indices(|acts|)
  {
    var n := |acts|;
    forall i | i in Indices(n)
      ensures Rank(acts, i) < n
    {
      RankBelow(acts, i);
    }
    RankImageSize(acts, Indices(n));
    IndicesSize(n);
    SameSizeSubset(RankImage(acts, Indices(n)), Indices(n));
  }

  // ---------------------------------------------------------------------------
  // The winners
  // ---------------------------------------------------------------------------

  /** Every rank below k belongs to some winner ... */
  lemma WinnerRanksCover(acts: seq<real>, k: nat, r: nat)
    requires k <= |acts| && r < k
    ensures r in RankImage(acts, Elems(TopK(acts, k)))
  {
    RanksArePositions(acts);
    assert r in Indices(|acts|);
    assert r in RankImage(acts, Indices(|acts|));
    var i :| i in Indices(|acts|) && i < |acts| && Rank(acts, i) == r;
    assert i in TopK(acts, k);
    assert i in Elems(TopK(acts, k));
  }

  /** ... and every winner's rank is below k. */
  lemma WinnerRanksBelow(acts: seq<real>, k: nat, r: nat)
    requires r in RankImage(acts, Elems(TopK(acts, k)))
    ensures r < k
  {
    var i :| i in Elems(TopK(acts, k)) && i < |acts| && Rank(acts, i) == r;
    assert i in TopK(acts, k);
  }

  /** The winners' ranks are exactly 0..k-1. */
  lemma WinnerRanks(acts: seq<real>, k: nat)
    requires k <= |acts|
    ensures RankImage(acts, Elems(TopK(acts, k))) == Indices(k)
  {
    forall r | r in Indices(k)
      ensures r in RankImage(acts, Elems(TopK(acts, k)))
    {
      WinnerRanksCover(acts, k, r);
    }
    forall r | r in RankImage(acts, Elems(TopK(acts, k)))
      ensures r in Indices(k)
    {
      WinnerRanksBelow(acts, k, r);
    }
  }

  /** With k <= n there are exactly k winners. */
  lemma TopKSize(acts: seq<real>, k: nat)
    requires k <= |acts|
    ensures |TopK(acts, k)| == k
  {
    var ws := TopK(acts, k);
    WinnerRanks(acts, k);
    RankImageSize(acts, Elems(ws));
    IndicesSize(k);
    AscendingSize(ws);
  }

  /** Every winner beats every neuron left out. */
  lemma TopKDominates(acts: seq<real>, k: nat, i: nat, j: nat)
    requires i < |acts| && j < |acts|
    requires i in TopK(acts, k) && j !in TopK(acts, k)
    ensures Beats(acts, i, j)
  {
    if Beats(acts, j, i) {
      RankOrder(acts, j, i);
    }
  }

  /** TopK is a k-winner set ... */
  lemma TopKIsTopK(acts: seq<real>, k: nat)
    requires k <= |acts|
    ensures IsTopK(acts, TopK(acts, k), k)
  {
    TopKSize(acts, k);
    forall i: nat, j: nat | i in TopK(acts, k) && j < |acts| && j !in TopK(acts, k) && i < |acts|
      ensures Beats(acts, i, j)
    {
      TopKDominates(acts, k, i, j);
    }
  }

  /** ... and the only one: ties and all, the selection is determined. */
  lemma TopKUnique(acts: seq<real>, ws: seq<nat>, k: nat)
    requires IsTopK(acts, ws, k)
    ensures ws == TopK(acts, k)
  {
    var n := |acts|;
    assert Elems(ws) <= Indices(n);
    AscendingSize(ws);
    SubsetSize(Elems(ws), Indices(n));
    IndicesSize(n);
    var top := TopK(acts, k);
    assert Elems(ws) <= Elems(top) by {
      forall i | i in Elems(ws)
        ensures i in Elems(top)
      {
        assert Beaters(acts, i) <= Elems(ws) - {i} by {
          forall j | j in Beaters(acts, i)
            ensures j in Elems(ws) - {i}
          {
            assert j !in ws ==> Beats(acts, i, j);
          }
        }
        SubsetSize(Beaters(acts, i), Elems(ws) - {i});
      }
    }
    TopKSize(acts, k);
    AscendingSize(top);
    SameSizeSubset(Elems(ws), Elems(top));
    AscendingUnique(ws, top);
  }

  /**
    recalculate_winners' selection: neuron i is kept when fewer than k
    (activation, index) pairs sort above its own.
   */
  method SelectWinners(acts: seq<real>, k: nat) returns (ws: seq<nat>)
    ensures ws == TopK(acts, k)
  {
    ws := [];
    for i := 0 to |acts|
      invariant ws == WinnersBelow(acts, k, i)
    {
      var above := CountAbove(acts, i);
      if above < k {
        ws := ws + [i];
      }
    }
  }

  /** The number of (activation, index) pairs that sort above neuron i's. */
  method CountAbove(acts: seq<real>, i: nat) returns (above: nat)
    requires i < |acts|
    ensures above == Rank(acts, i)
  {
    above := 0;
    for j := 0 to |acts|
      invariant above == |set b: nat | b < j && Beats(acts, b, i)|
    {
      ghost var seen := set b: nat | b < j && Beats(acts, b, i);
      if Beats(acts, j, i) {
        assert (set b: nat | b < j + 1 && Beats(acts, b, i)) == seen + {j};
        above := above + 1;
      } else {
        assert (set b: nat | b < j + 1 && Beats(acts, b, i)) == seen;
      }
    }
    assert (set b: nat | b < |acts| && Beats(acts, b, i)) == Beaters(acts, i);
  }
}
