/**
  Sparse synapses between a source population and a destination area.

  An adjacency is one row per source neuron (or per stimulus line); a row is
  a list of (target neuron, weight) edges kept in ascending target order.
  This module holds the generator of fresh adjacencies, the accumulation of
  fired rows into a destination's activations, the lower_bound search on a
  row, and the multiplicative Hebbian update of a row.
 */
module Synapses {

  /** (target neuron index, synapse weight) */
  type Edge = (nat, real)
  type Row = seq<Edge>
  type Adjacency = seq<Row>

  /** One independent draw per (source neuron, target neuron): "is there an edge?". */
  type Coin = (nat, nat) -> bool

  /** Strictly ascending indices: winner lists, saved assemblies, firing lines. */
  predicate Ascending(s: seq<nat>)
  {
    forall a, b :: 0 <= a < b < |s| ==> s[a] < s[b]
  }

  /** A row in strictly ascending target order. */
  predicate RowSorted(row: Row)
  {
    forall a, b :: 0 <= a < b < |row| ==> row[a].0 < row[b].0
  }

  predicate RowsSorted(rows: Adjacency)
  {
    forall v :: 0 <= v < |rows| ==> RowSorted(rows[v])
  }

  /** Every target of the row is a neuron of a destination with m neurons. */
  predicate Fits(row: Row, m: nat)
  {
    forall e :: 0 <= e < |row| ==> row[e].0 < m
  }

  predicate RowsFit(rows: Adjacency, m: nat)
  {
    forall v :: 0 <= v < |rows| ==> Fits(rows[v], m)
  }

  predicate NonNegative(row: Row)
  {
    forall e :: 0 <= e < |row| ==> row[e].1 >= 0.0
  }

  predicate RowsNonNegative(rows: Adjacency)
  {
    forall v :: 0 <= v < |rows| ==> NonNegative(rows[v])
  }

  // ---------------------------------------------------------------------------
  // Generation (initialize_neurons)
  // ---------------------------------------------------------------------------

  /** Row i of a fresh adjacency over targets [0, m): the targets whose draw succeeded, weight 1. */
  function GeneratedRow(i: nat, m: nat, coin: Coin): Row
  {
    if m == 0 then []
    else GeneratedRow(i, m - 1, coin) + (if coin(i, m - 1) then [(m - 1, 1.0)] else [])
  }

  function Generated(n: nat, m: nat, coin: Coin): Adjacency
  {
    seq(n, i requires 0 <= i < n => GeneratedRow(i, m, coin))
  }

  /**
    A generated row is ascending, lies in [0, m), has unit weights, and holds
    an edge to j exactly when the draw for (i, j) succeeded.
   */
  lemma {:induction false} GeneratedRowShape(i: nat, m: nat, coin: Coin)
    ensures RowSorted(GeneratedRow(i, m, coin))
    ensures Fits(GeneratedRow(i, m, coin), m)
    ensures forall e :: 0 <= e < |GeneratedRow(i, m, coin)| ==> GeneratedRow(i, m, coin)[e].1 == 1.0
    ensures forall j :: 0 <= j < m ==> (coin(i, j) <==> (j, 1.0) in GeneratedRow(i, m, coin))
  {
    if m > 0 {
      GeneratedRowShape(i, m - 1, coin);
      var prev := GeneratedRow(i, m - 1, coin);
      var row := GeneratedRow(i, m, coin);
      assert row == prev + (if coin(i, m - 1) then [(m - 1, 1.0)] else []);
      forall j | 0 <= j < m
        ensures coin(i, j) <==> (j, 1.0) in row
      {
        if j < m - 1 {
          assert (j, 1.0) in row <==> (j, 1.0) in prev;
        }
      }
    }
  }

  /** A fresh adjacency: n rows, each ascending, in range, with unit weights. */
  lemma GeneratedShape(n: nat, m: nat, coin: Coin)
    ensures |Generated(n, m, coin)| == n
    ensures RowsSorted(Generated(n, m, coin)) && RowsFit(Generated(n, m, coin), m)
    ensures RowsNonNegative(Generated(n, m, coin))
  {
    forall i | 0 <= i < n
      ensures RowSorted(GeneratedRow(i, m, coin)) && Fits(GeneratedRow(i, m, coin), m)
      ensures NonNegative(GeneratedRow(i, m, coin))
    {
      GeneratedRowShape(i, m, coin);
    }
  }

  /** initialize_neurons: n empty rows, then one draw per (i, j) in row-major order. */
  method InitializeNeurons(n: nat, m: nat, coin: Coin) returns (res: Adjacency)
    ensures res == Generated(n, m, coin)
  {
    res := seq(n, _ => []);
    var i := 0;
    while i < n
      invariant 0 <= i <= n && |res| == n
      invariant forall r :: 0 <= r < i ==> res[r] == GeneratedRow(r, m, coin)
      invariant forall r :: i <= r < n ==> res[r] == []
    {
      var j := 0;
      while j < m
        invariant 0 <= j <= m && |res| == n
        invariant forall r :: 0 <= r < i ==> res[r] == GeneratedRow(r, m, coin)
        invariant res[i] == GeneratedRow(i, j, coin)
        invariant forall r :: i < r < n ==> res[r] == []
      {
        if coin(i, j) {
          res := res[i := res[i] + [(j, 1.0)]];
        }
        j := j + 1;
      }
      i := i + 1;
    }
  }

  /**
    The adjacency a source uses towards `dest`: the stored one if it exists,
    otherwise the one generated on first use (rows source rows, m targets).
   */
  function Connection(adj: map<string, Adjacency>, dest: string, rows: nat, m: nat, coin: Coin): Adjacency
  {
    if dest in adj then adj[dest] else Generated(rows, m, coin)
  }

  // ---------------------------------------------------------------------------
  // Accumulation (the loops of project_into)
  // ---------------------------------------------------------------------------

  /** The lines 0..k-1 of a stimulus, all of which fire. */
  function Range(k: nat): (r: seq<nat>)
    ensures |r| == k && Ascending(r)
    ensures forall v :: 0 <= v < k ==> r[v] == v
  {
    seq(k, v requires 0 <= v < k => v as nat)
  }

  predicate Fires(rows: Adjacency, firing: seq<nat>)
  {
    forall t :: 0 <= t < |firing| ==> firing[t] < |rows|
  }

  /** Add every edge weight of `row` into its target's accumulator, in row order. */
  function AddRow(acts: seq<real>, row: Row): (r: seq<real>)
    requires Fits(row, |acts|)
    ensures |r| == |acts|
    decreases |row|
  {
    if row == [] then acts
    else
      var prev := AddRow(acts, row[..|row| - 1]);
      var last := row[|row| - 1];
      prev[last.0 := prev[last.0] + last.1]
  }

  /** Add the rows of every firing source neuron, in firing order. */
  function Fire(acts: seq<real>, rows: Adjacency, firing: seq<nat>): (r: seq<real>)
    requires Fires(rows, firing) && RowsFit(rows, |acts|)
    ensures |r| == |acts|
    decreases |firing|
  {
    if firing == [] then acts
    else AddRow(Fire(acts, rows, firing[..|firing| - 1]), rows[firing[|firing| - 1]])
  }

  /** Total weight from `row` onto neuron u. */
  function RowWeight(row: Row, u: nat): real
    decreases |row|
  {
    if row == [] then 0.0
    else RowWeight(row[..|row| - 1], u) + (if row[|row| - 1].0 == u then row[|row| - 1].1 else 0.0)
  }

  /** Total weight from the firing neurons onto neuron u. */
  function Drive(rows: Adjacency, firing: seq<nat>, u: nat): real
    requires Fires(rows, firing)
    decreases |firing|
  {
    if firing == [] then 0.0
    else Drive(rows, firing[..|firing| - 1], u) + RowWeight(rows[firing[|firing| - 1]], u)
  }

  lemma {:induction false} AddRowAt(acts: seq<real>, row: Row, u: nat)
    requires Fits(row, |acts|) && u < |acts|
    ensures AddRow(acts, row)[u] == acts[u] + RowWeight(row, u)
    decreases |row|
  {
    if row != [] {
      AddRowAt(acts, row[..|row| - 1], u);
    }
  }

  /** After firing, each neuron holds its old activation plus all weight that reached it. */
  lemma {:induction false} FireAt(acts: seq<real>, rows: Adjacency, firing: seq<nat>, u: nat)
    requires Fires(rows, firing) && RowsFit(rows, |acts|) && u < |acts|
    ensures Fire(acts, rows, firing)[u] == acts[u] + Drive(rows, firing, u)
    decreases |firing|
  {
    if firing != [] {
      var prev := firing[..|firing| - 1];
      FireAt(acts, rows, prev, u);
      AddRowAt(Fire(acts, rows, prev), rows[firing[|firing| - 1]], u);
    }
  }

  /** The nested loops of project_into: for each firing neuron, for each of its edges, activations[u] += w. */
  method Accumulate(acts: seq<real>, rows: Adjacency, firing: seq<nat>) returns (r: seq<real>)
    requires Fires(rows, firing) && RowsFit(rows, |acts|)
    ensures r == Fire(acts, rows, firing)
  {
    r := acts;
    for t := 0 to |firing|
      invariant r == Fire(acts, rows, firing[..t])
    {
      var row := rows[firing[t]];
      for e := 0 to |row|
        invariant r == AddRow(Fire(acts, rows, firing[..t]), row[..e])
      {
        var target, weight := row[e].0, row[e].1;
        assert row[..e + 1][..e] == row[..e];
        r := r[target := r[target] + weight];
      }
      assert row[..|row|] == row;
      assert firing[..t + 1][..t] == firing[..t];
    }
    assert firing[..|firing|] == firing;
  }

  // ---------------------------------------------------------------------------
  // Plasticity (the loops of update_plasticities)
  // ---------------------------------------------------------------------------

  /** std::pair's operator< on (target, weight). */
  predicate PairLess(a: Edge, b: Edge)
  {
    a.0 < b.0 || (a.0 == b.0 && a.1 < b.1)
  }

  /** std::lower_bound of (w, 0) in a row: the first edge that is not below (w, 0). */
  method LowerBound(row: Row, w: nat) returns (i: nat)
    requires RowSorted(row)
    ensures i <= |row|
    ensures forall e :: 0 <= e < i ==> PairLess(row[e], (w, 0.0))
    ensures forall e :: i <= e < |row| ==> !PairLess(row[e], (w, 0.0))
  {
    var lo, hi := 0, |row|;
    while lo < hi
      invariant 0 <= lo <= hi <= |row|
      invariant forall e :: 0 <= e < lo ==> PairLess(row[e], (w, 0.0))
      invariant forall e :: hi <= e < |row| ==> !PairLess(row[e], (w, 0.0))
    {
      var mid := (lo + hi) / 2;
      if PairLess(row[mid], (w, 0.0)) {
        lo := mid + 1;
      } else {
        hi := mid;
      }
    }
    i := lo;
  }

  /**
    A row after one plasticity pass against the destination winners ws: an
    edge whose target won is multiplied by `factor` once. The search for
    (w, 0) passes over an edge whose weight is negative, so such an edge is
    left as it is.
   */
  function Reinforced(row: Row, ws: seq<nat>, factor: real): (r: Row)
    ensures |r| == |row|
    ensures forall e :: 0 <= e < |row| ==> r[e].0 == row[e].0
  {
    seq(|row|, e requires 0 <= e < |row| => ReinforcedEdge(row[e], ws, factor))
  }

  /** One edge after the pass: `it->second *= 1 + beta` when the search finds it. */
  function ReinforcedEdge(edge: Edge, ws: seq<nat>, factor: real): Edge
  {
    if edge.0 in ws && edge.1 >= 0.0 then (edge.0, Scaled(edge.1, factor)) else edge
  }

  /**
    The product `weight * (1 + beta)`. Naming it keeps the solver's
    non-linear real arithmetic out of the loop proof of ReinforceRow.
   */
  function Scaled(weight: real, factor: real): real
  {
    weight * factor
  }

  /** Rows of the firing neurons reinforced once each; the other rows untouched. */
  function ReinforcedRows(rows: Adjacency, firing: seq<nat>, ws: seq<nat>, factor: real): (r: Adjacency)
    ensures |r| == |rows|
  {
    seq(|rows|, v requires 0 <= v < |rows| => ReinforcedLine(rows, v, firing, ws, factor))
  }

  function ReinforcedLine(rows: Adjacency, v: nat, firing: seq<nat>, ws: seq<nat>, factor: real): Row
    requires v < |rows|
  {
    if v in firing then Reinforced(rows[v], ws, factor) else rows[v]
  }

  /** `t` successive plasticity passes, as when one destination is listed t times for one source. */
  function ReinforcedTimes(rows: Adjacency, firing: seq<nat>, ws: seq<nat>, factor: real, t: nat): (r: Adjacency)
    ensures |r| == |rows|
  {
    if t == 0 then rows else ReinforcedRows(ReinforcedTimes(rows, firing, ws, factor, t - 1), firing, ws, factor)
  }

  /** For each winner: lower_bound, and if the edge to it is there, multiply its weight. */
  method ReinforceRow(row: Row, ws: seq<nat>, factor: real) returns (r: Row)
    requires RowSorted(row) && Ascending(ws)
    ensures r == Reinforced(row, ws, factor)
  {
    r := row;
    for t := 0 to |ws|
      invariant r == Reinforced(row, ws[..t], factor)
    {
      var w := ws[t];
      assert w !in ws[..t];
      assert forall e :: 0 <= e < |row| ==> r[e] == Reinforced(row, ws[..t], factor)[e];
      assert RowSorted(r);
      var i := LowerBound(r, w);
      ghost var before := r;
      if i < |r| && r[i].0 == w {
        r := r[i := (w, Scaled(r[i].1, factor))];
      }
      assert ws[..t + 1] == ws[..t] + [w];
      forall e | 0 <= e < |row|
        ensures r[e] == Reinforced(row, ws[..t + 1], factor)[e]
      {
        assert before[e] == ReinforcedEdge(row[e], ws[..t], factor);
        assert Reinforced(row, ws[..t + 1], factor)[e] == ReinforcedEdge(row[e], ws[..t + 1], factor);
        assert before[e].0 == row[e].0;
        if row[e].0 == w {
          assert before[e] == row[e];
          if row[e].1 >= 0.0 {
            assert !PairLess(before[e], (w, 0.0));
            assert e == i;
            assert ws[..t + 1][t] == w;
            assert r[e] == ReinforcedEdge(row[e], ws[..t + 1], factor);
          } else {
            assert PairLess(before[e], (w, 0.0));
            assert e < i;
            assert r[e] == row[e];
            assert r[e] == ReinforcedEdge(row[e], ws[..t + 1], factor);
          }
        } else {
          assert (row[e].0 in ws[..t + 1]) == (row[e].0 in ws[..t]);
          assert ReinforcedEdge(row[e], ws[..t + 1], factor) == ReinforcedEdge(row[e], ws[..t], factor);
          if e == i {
            assert before[i].0 != w;
          }
          assert r[e] == before[e];
          assert r[e] == ReinforcedEdge(row[e], ws[..t + 1], factor);
        }
      }
    }
    assert ws[..|ws|] == ws;
  }

  /** update_plasticities on one adjacency: every firing row against the destination winners. */
  method ReinforceRows(rows: Adjacency, firing: seq<nat>, ws: seq<nat>, factor: real) returns (r: Adjacency)
    requires RowsSorted(rows) && Fires(rows, firing) && Ascending(firing) && Ascending(ws)
    ensures r == ReinforcedRows(rows, firing, ws, factor)
  {
    r := rows;
    for t := 0 to |firing|
      invariant r == ReinforcedRows(rows, firing[..t], ws, factor)
    {
      var v := firing[t];
      assert v !in firing[..t];
      assert r[v] == rows[v];
      var row := ReinforceRow(r[v], ws, factor);
      r := r[v := row];
      assert firing[..t + 1] == firing[..t] + [v];
    }
    assert firing[..|firing|] == firing;
  }

  /**
    With non-negative weights, one pass multiplies exactly the edges whose
    target won, once each; targets and row lengths never change.
   */
  lemma ReinforcedExactlyWinners(row: Row, ws: seq<nat>, factor: real)
    requires NonNegative(row)
    ensures forall e :: 0 <= e < |row| ==>
      Reinforced(row, ws, factor)[e] == (row[e].0, if row[e].0 in ws then row[e].1 * factor else row[e].1)
  {
    forall e | 0 <= e < |row|
      ensures Reinforced(row, ws, factor)[e] == (row[e].0, if row[e].0 in ws then row[e].1 * factor else row[e].1)
    {
      assert Reinforced(row, ws, factor)[e] == ReinforcedEdge(row[e], ws, factor);
    }
  }

  /** A pass keeps a row ascending, in range and (for factor >= 0) non-negative. */
  lemma ReinforcedKeepsInvariants(rows: Adjacency, firing: seq<nat>, ws: seq<nat>, factor: real, m: nat)
    requires RowsSorted(rows) && RowsFit(rows, m)
    ensures RowsSorted(ReinforcedRows(rows, firing, ws, factor))
    ensures RowsFit(ReinforcedRows(rows, firing, ws, factor), m)
    ensures factor >= 0.0 && RowsNonNegative(rows) ==> RowsNonNegative(ReinforcedRows(rows, firing, ws, factor))
  {
  }

  lemma {:induction false} ReinforcedTimesKeepsInvariants(rows: Adjacency, firing: seq<nat>, ws: seq<nat>, factor: real, t: nat, m: nat)
    requires RowsSorted(rows) && RowsFit(rows, m)
    ensures RowsSorted(ReinforcedTimes(rows, firing, ws, factor, t))
    ensures RowsFit(ReinforcedTimes(rows, firing, ws, factor, t), m)
    ensures factor >= 0.0 && RowsNonNegative(rows) ==> RowsNonNegative(ReinforcedTimes(rows, firing, ws, factor, t))
  {
    if t > 0 {
      ReinforcedTimesKeepsInvariants(rows, firing, ws, factor, t - 1, m);
      ReinforcedKeepsInvariants(ReinforcedTimes(rows, firing, ws, factor, t - 1), firing, ws, factor, m);
    }
  }

  /**
    Monotonic reinforcement: with beta > 0, an edge of positive weight from a
    firing neuron to a winner strictly grows; every other edge keeps its weight.
   */
  lemma ReinforcementMonotone(rows: Adjacency, firing: seq<nat>, ws: seq<nat>, beta: real, v: nat, e: nat)
    requires beta > 0.0 && v < |rows| && e < |rows[v]| && rows[v][e].1 > 0.0
    ensures var r := ReinforcedRows(rows, firing, ws, 1.0 + beta);
      (v in firing && rows[v][e].0 in ws ==> r[v][e].1 > rows[v][e].1) &&
      (!(v in firing && rows[v][e].0 in ws) ==> r[v][e] == rows[v][e])
  {
  }
}
