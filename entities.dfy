/**
  The two kinds of entity the engine keeps: a Stimulus (k neurons that all
  fire whenever it is projected) and an Area (n neurons of which k win each
  round). Both own their outgoing synapses, keyed by the destination area's
  name, and a per-destination plasticity override.
 */
module Entities {
  import opened Wrappers
  import opened Synapses
  import opened Selection
  import opened Recall

  /** get_beta: the override set for `dest`, else the default. */
  function BetaFor(custom: map<string, real>, fallback: real, dest: string): real
  {
    if dest in custom then custom[dest] else fallback
  }

  /** n activations, all zero. */
  function Zeros(n: nat): seq<real>
  {
    seq(n, _ => 0.0)
  }

  /** Every adjacency kept by a source with `rows` neurons has one sorted row per neuron. */
  predicate AdjOk(adj: map<string, Adjacency>, rows: nat)
  {
    forall d :: d in adj ==> |adj[d]| == rows && RowsSorted(adj[d])
  }

  /** A winner list: strictly ascending neuron indices of an n-neuron area. */
  predicate WinnersOk(ws: seq<nat>, n: nat)
  {
    Ascending(ws) && forall t :: 0 <= t < |ws| ==> ws[t] < n
  }

  /** Every saved assembly is a winner list of exactly k neurons. */
  predicate SavedOk(saved: map<string, seq<nat>>, n: nat, k: nat)
  {
    forall s :: s in saved ==> |saved[s]| == k && WinnersOk(saved[s], n)
  }

  class Stimulus {
    const name: string
    const k: nat
    var defaultBeta: real
    var customBetas: map<string, real>
    /** Synapses to each destination area, created on first projection. */
    var adj: map<string, Adjacency>

    predicate Valid()
      reads this
    {
      AdjOk(adj, k)
    }

    constructor (name: string, k: nat, defaultBeta: real)
      ensures this.name == name && this.k == k && this.defaultBeta == defaultBeta
      ensures customBetas == map[] && adj == map[]
      ensures Valid()
    {
      this.name := name;
      this.k := k;
      this.defaultBeta := defaultBeta;
      customBetas := map[];
      adj := map[];
    }

    function GetBeta(dest: string): (r: real)
      reads this
      ensures dest in customBetas ==> r == customBetas[dest]
      ensures dest !in customBetas ==> r == defaultBeta
    {
      BetaFor(customBetas, defaultBeta, dest)
    }

    /** After set_beta, get_beta answers the new value for `dest` and the old one elsewhere. */
    method SetBeta(dest: string, beta: real)
      modifies this`customBetas
      ensures GetBeta(dest) == beta
      ensures forall other :: other != dest ==> GetBeta(other) == old(GetBeta(other))
      ensures customBetas == old(customBetas)[dest := beta]
    {
      customBetas := customBetas[dest := beta];
    }

    /**
      Fire all k neurons into `dest`: synapses to it are generated only if
      none exist yet, then every edge's weight is added to its target.
     */
    method ProjectInto(dest: Area, coin: Coin)
      requires Valid() && dest.Valid()
      requires dest.name in adj ==> RowsFit(adj[dest.name], dest.n)
      modifies this`adj, dest`activations
      ensures adj == old(adj)[dest.name := Connection(old(adj), dest.name, k, dest.n, coin)]
      ensures RowsFit(adj[dest.name], dest.n)
      ensures dest.activations == Fire(old(dest.activations), adj[dest.name], Range(k))
      ensures Valid() && dest.Valid()
    {
      if dest.name !in adj {
        var generated := InitializeNeurons(k, dest.n, coin);
        GeneratedShape(k, dest.n, coin);
        adj := adj[dest.name := generated];
      }
      var rows := adj[dest.name];
      dest.activations := Accumulate(dest.activations, rows, Range(k));
    }

    /**
      Hebbian step: every synapse from this stimulus to one of dest's current
      winners has its weight multiplied by 1 + beta.
     */
    method UpdatePlasticities(dest: Area)
      requires Valid() && dest.Valid()
      requires dest.name in adj && RowsFit(adj[dest.name], dest.n)
      modifies this`adj
      ensures adj == old(adj)[dest.name := ReinforcedRows(old(adj)[dest.name], Range(k), dest.winners, 1.0 + GetBeta(dest.name))]
      ensures RowsFit(adj[dest.name], dest.n)
      ensures 1.0 + GetBeta(dest.name) >= 0.0 && RowsNonNegative(old(adj)[dest.name]) ==> RowsNonNegative(adj[dest.name])
      ensures Valid()
    {
      var before := adj[dest.name];
      var rows := ReinforceRows(before, Range(k), dest.winners, 1.0 + GetBeta(dest.name));
      ReinforcedKeepsInvariants(before, Range(k), dest.winners, 1.0 + GetBeta(dest.name), dest.n);
      adj := adj[dest.name := rows];
    }
  }

  class Area {
    const name: string
    const n: nat
    const k: nat
    var defaultBeta: real
    var customBetas: map<string, real>
    /** Synapses to each destination area, created on first projection. */
    var adj: map<string, Adjacency>
    /** The winners recorded for each stimulus by save_assembly. */
    var saved: map<string, seq<nat>>
    var winners: seq<nat>
    var activations: seq<real>

    predicate Valid()
      reads this
    {
      |activations| == n && WinnersOk(winners, n) && AdjOk(adj, n) && SavedOk(saved, n, k)
    }

    constructor (name: string, n: nat, k: nat, defaultBeta: real)
      ensures this.name == name && this.n == n && this.k == k && this.defaultBeta == defaultBeta
      ensures customBetas == map[] && adj == map[] && saved == map[]
      ensures winners == [] && activations == Zeros(n)
      ensures Valid()
    {
      this.name := name;
      this.n := n;
      this.k := k;
      this.defaultBeta := defaultBeta;
      customBetas := map[];
      adj := map[];
      saved := map[];
      winners := [];
      activations := Zeros(n);
    }

    function GetBeta(dest: string): (r: real)
      reads this
      ensures dest in customBetas ==> r == customBetas[dest]
      ensures dest !in customBetas ==> r == defaultBeta
    {
      BetaFor(customBetas, defaultBeta, dest)
    }

    /** After set_beta, get_beta answers the new value for `dest` and the old one elsewhere. */
    method SetBeta(dest: string, beta: real)
      modifies this`customBetas
      ensures GetBeta(dest) == beta
      ensures forall other :: other != dest ==> GetBeta(other) == old(GetBeta(other))
      ensures customBetas == old(customBetas)[dest := beta]
    {
      customBetas := customBetas[dest := beta];
    }

    /**
      Fire this area's current winners into `dest` (which may be this area
      itself): synapses are generated only if none exist yet, then every
      edge of a winner's row is added to its target. Winners are untouched.
     */
    method ProjectInto(dest: Area, coin: Coin)
      requires Valid() && dest.Valid()
      requires dest.name in adj ==> RowsFit(adj[dest.name], dest.n)
      modifies this`adj, dest`activations
      ensures adj == old(adj)[dest.name := Connection(old(adj), dest.name, n, dest.n, coin)]
      ensures RowsFit(adj[dest.name], dest.n)
      ensures dest.activations == Fire(old(dest.activations), adj[dest.name], winners)
      ensures winners == old(winners) && dest.winners == old(dest.winners)
      ensures Valid() && dest.Valid()
    {
      if dest.name !in adj {
        var generated := InitializeNeurons(n, dest.n, coin);
        GeneratedShape(n, dest.n, coin);
        adj := adj[dest.name := generated];
      }
      var rows := adj[dest.name];
      dest.activations := Accumulate(dest.activations, rows, winners);
    }

    method ResetActivations()
      requires Valid()
      modifies this`activations
      ensures activations == Zeros(n)
      ensures Valid()
    {
      activations := Zeros(n);
    }

    /**
      The k neurons whose (activation, index) pairs sort highest, kept in
      ascending index order; the selection in brain.cpp needs k <= n.
     */
    method RecalculateWinners()
      requires Valid() && k <= n
      modifies this`winners
      ensures winners == TopK(activations, k)
      ensures IsTopK(activations, winners, k)
      ensures Valid()
    {
      winners := SelectWinners(activations, k);
      TopKIsTopK(activations, k);
    }

    /**
      Fire `stim` alone into this area from zero, take the winners and
      record them under the stimulus's name, replacing any earlier record.
      No weight changes.
     */
    method SaveAssembly(stim: Stimulus, coin: Coin)
      requires Valid() && stim.Valid() && k <= n
      requires name in stim.adj ==> RowsFit(stim.adj[name], n)
      modifies this`activations, this`winners, this`saved, stim`adj
      ensures stim.adj == old(stim.adj)[name := Connection(old(stim.adj), name, stim.k, n, coin)]
      ensures RowsFit(stim.adj[name], n)
      ensures activations == Fire(Zeros(n), stim.adj[name], Range(stim.k))
      ensures winners == TopK(activations, k)
      ensures saved == old(saved)[stim.name := winners]
      ensures Valid() && stim.Valid()
    {
      ResetActivations();
      stim.ProjectInto(this, coin);
      RecalculateWinners();
      saved := saved[stim.name := winners];
    }

    /** The saved stimulus whose assembly best overlaps the current winners, if any was saved. */
    method ReadAssembly() returns (best: Option<string>)
      requires Valid()
      ensures best.None? <==> saved == map[]
      ensures best.Some? ==> IsBest(saved, winners, best.value)
    {
      best := BestMatch(saved, winners);
    }

    /**
      Hebbian step: for each of this area's current winners, every synapse
      to one of dest's current winners has its weight multiplied by 1 + beta.
     */
    method UpdatePlasticities(dest: Area)
      requires Valid() && dest.Valid()
      requires dest.name in adj && RowsFit(adj[dest.name], dest.n)
      modifies this`adj
      ensures adj == old(adj)[dest.name := ReinforcedRows(old(adj)[dest.name], winners, dest.winners, 1.0 + GetBeta(dest.name))]
      ensures RowsFit(adj[dest.name], dest.n)
      ensures 1.0 + GetBeta(dest.name) >= 0.0 && RowsNonNegative(old(adj)[dest.name]) ==> RowsNonNegative(adj[dest.name])
      ensures Valid()
    {
      var before := adj[dest.name];
      var rows := ReinforceRows(before, winners, dest.winners, 1.0 + GetBeta(dest.name));
      ReinforcedKeepsInvariants(before, winners, dest.winners, 1.0 + GetBeta(dest.name), dest.n);
      adj := adj[dest.name := rows];
    }
  }
}
