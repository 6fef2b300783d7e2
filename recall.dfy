/**
  Recognition (read_assembly): count how many of the current winners each
  saved assembly shares, by a merge of two ascending lists, and answer the
  stimulus whose (count, name) pair is greatest in std::pair's order.
 */
module Recall {
  import opened Wrappers
  import opened Names
  import opened Synapses
  import opened Selection

  /** The neurons two index lists share. */
  function Common(a: seq<nat>, b: seq<nat>): set<nat>
  {
    Elems(a) * Elems(b)
  }

  function Overlap(a: seq<nat>, b: seq<nat>): nat
  {
    |Common(a, b)|
  }

  /**
    One step of the merge: when j is the first winner not below neurons[i],
    neurons[i] is shared exactly when winners[j] equals it.
   */
  lemma MergeStep(neurons: seq<nat>, winners: seq<nat>, i: nat, j: nat)
    requires Ascending(neurons) && Ascending(winners)
    requires i < |neurons| && j <= |winners|
    requires forall t :: 0 <= t < j ==> winners[t] < neurons[i]
    requires j < |winners| ==> neurons[i] <= winners[j]
    ensures |Elems(neurons[..i + 1]) * Elems(winners)| ==
      |Elems(neurons[..i]) * Elems(winners)| + (if j < |winners| && neurons[i] == winners[j] then 1 else 0)
  {
    var x := neurons[i];
    assert x in Elems(winners) <==> j < |winners| && winners[j] == x by {
      if x in Elems(winners) {
        var p :| 0 <= p < |winners| && winners[p] == x;
        assert p >= j;
        assert p == j;
      }
    }
    assert Elems(neurons[..i + 1]) == Elems(neurons[..i]) + {x} by {
      assert neurons[..i + 1] == neurons[..i] + [x];
    }
    assert x !in Elems(neurons[..i]);
    if j < |winners| && x == winners[j] {
      assert Elems(neurons[..i + 1]) * Elems(winners) == (Elems(neurons[..i]) * Elems(winners)) + {x};
    } else {
      assert Elems(neurons[..i + 1]) * Elems(winners) == Elems(neurons[..i]) * Elems(winners);
    }
  }

  /**
    The merge loop of read_assembly, with the bound check on `winners[j]`
    that brain.cpp omits: a saved neuron above every current winner counts
    as no match.
   */
  method CountCommon(neurons: seq<nat>, winners: seq<nat>) returns (common: nat)
    requires Ascending(neurons) && Ascending(winners)
    ensures common == Overlap(neurons, winners)
  {
    common := 0;
    var j := 0;
    for i := 0 to |neurons|
      invariant j <= |winners|
      invariant common == |Elems(neurons[..i]) * Elems(winners)|
      invariant i < |neurons| ==> forall t :: 0 <= t < j ==> winners[t] < neurons[i]
    {
      while j < |winners| && winners[j] < neurons[i]
        invariant j <= |winners|
        invariant forall t :: 0 <= t < j ==> winners[t] < neurons[i]
      {
        j := j + 1;
      }
      MergeStep(neurons, winners, i, j);
      if j < |winners| && neurons[i] == winners[j] {
        common := common + 1;
      }
    }
    assert neurons[..|neurons|] == neurons;
  }

  /**
    The merge loop as brain.cpp writes it compares neurons[i] with
    winners[j] once j has stopped; it reads past the end of `winners`
    exactly when some saved neuron lies above every current winner.
   */
  predicate ReadsPastEnd(neurons: seq<nat>, winners: seq<nat>)
  {
    |neurons| > 0 && (winners == [] || winners[|winners| - 1] < neurons[|neurons| - 1])
  }

  /**
    The loop of brain.cpp, run without the bound check; `pastEnd` records
    whether the comparison neurons[i] == winners[j] was ever made with
    j == |winners|, an out-of-range read whose value this model cannot know.
   */
  method CountCommonAsWritten(neurons: seq<nat>, winners: seq<nat>) returns (pastEnd: bool)
    requires Ascending(neurons) && Ascending(winners)
    ensures pastEnd <==> ReadsPastEnd(neurons, winners)
  {
    pastEnd := false;
    var j := 0;
    for i := 0 to |neurons|
      invariant j <= |winners|
      invariant i < |neurons| ==> forall t :: 0 <= t < j ==> winners[t] < neurons[i]
      invariant i > 0 ==> (j == |winners| <==> winners == [] || winners[|winners| - 1] < neurons[i - 1])
      invariant pastEnd <==> i > 0 && j == |winners|
    {
      while j < |winners| && winners[j] < neurons[i]
        invariant j <= |winners|
        invariant forall t :: 0 <= t < j ==> winners[t] < neurons[i]
      {
        j := j + 1;
      }
      if j == |winners| {
        pastEnd := true;
      }
    }
  }

  /** A concrete case: the current winners are {0} and the saved assembly is {1}. */
  lemma ReadsPastEndExample()
    ensures ReadsPastEnd([1], [0])
  {
  }

  /** s's (overlap, name) pair is at least t's in std::pair's order. */
  predicate AtLeast(saved: map<string, seq<nat>>, winners: seq<nat>, s: string, t: string)
    requires s in saved && t in saved
  {
    var os, ot := Overlap(saved[s], winners), Overlap(saved[t], winners);
    ot < os || (ot == os && (t == s || NameLess(t, s)))
  }

  /** s is the saved stimulus with the greatest overlap, ties going to the greatest name. */
  predicate IsBest(saved: map<string, seq<nat>>, winners: seq<nat>, s: string)
  {
    s in saved && forall t :: t in saved ==> AtLeast(saved, winners, s, t)
  }

  /** There is at most one best match. */
  lemma BestUnique(saved: map<string, seq<nat>>, winners: seq<nat>, s: string, t: string)
    requires IsBest(saved, winners, s) && IsBest(saved, winners, t)
    ensures s == t
  {
    assert AtLeast(saved, winners, s, t) && AtLeast(saved, winners, t, s);
    if s != t && NameLess(t, s) {
      NameLessAsymmetric(t, s);
    }
  }

  /**
    read_assembly over a saved-assembly map: the best match, or None when
    nothing was saved. Each step keeps max(best, (count, stimulus)), which
    replaces the best on a larger count or on an equal count with a larger name.
   */
  method BestMatch(saved: map<string, seq<nat>>, winners: seq<nat>) returns (best: Option<string>)
    requires forall s :: s in saved ==> Ascending(saved[s])
    requires Ascending(winners)
    ensures best.None? <==> saved == map[]
    ensures best.Some? ==> IsBest(saved, winners, best.value)
  {
    best := None;
    var bestCount := 0;
    var todo := saved.Keys;
    while todo != {}
      invariant todo <= saved.Keys
      invariant best.None? <==> todo == saved.Keys
      invariant best.Some? ==> best.value in saved && best.value !in todo
      invariant best.Some? ==> bestCount == Overlap(saved[best.value], winners)
      invariant best.Some? ==> forall t :: t in saved && t !in todo ==> AtLeast(saved, winners, best.value, t)
      decreases todo
    {
      var s :| s in todo;
      var common := CountCommon(saved[s], winners);
      if best.None? || bestCount < common || (bestCount == common && NameLess(best.value, s)) {
        if best.Some? {
          var b := best.value;
          forall t | t in saved && t !in todo
            ensures AtLeast(saved, winners, s, t)
          {
            assert AtLeast(saved, winners, b, t);
            if t != b && Overlap(saved[t], winners) == common {
              NameLessTransitive(t, b, s);
            } else if t == b {
              assert t != s;
            }
          }
        }
        best := Some(s);
        bestCount := common;
      } else {
        var b := best.value;
        assert b != s;
        if bestCount == common {
          NameLessTotal(b, s);
        }
        assert AtLeast(saved, winners, b, s);
      }
      todo := todo - {s};
    }
    if best.Some? {
      assert saved != map[];
    } else {
      assert saved.Keys == {};
    }
  }

  /**
    Recognition after saving: when the current winners are exactly what was
    saved under s, s reaches the largest overlap any assembly can have, and
    read_assembly answers s unless another assembly also holds every winner
    and has a greater name.
   */
  lemma RecallAfterSave(saved: map<string, seq<nat>>, winners: seq<nat>, s: string)
    requires s in saved && saved[s] == winners && Ascending(winners)
    requires forall t :: t in saved && t != s ==> Overlap(saved[t], winners) < |winners| || NameLess(t, s)
    ensures Overlap(saved[s], winners) == |winners|
    ensures forall t :: t in saved ==> Overlap(saved[t], winners) <= |winners|
    ensures IsBest(saved, winners, s)
  {
    AscendingSize(winners);
    assert Common(winners, winners) == Elems(winners);
    forall t | t in saved
      ensures Overlap(saved[t], winners) <= |winners|
    {
      SubsetSize(Common(saved[t], winners), Elems(winners));
    }
  }
}
