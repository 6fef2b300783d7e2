/**
  One synchronized projection round (Brain::project) stated on values: the
  state every entity carries into the round, and the five phases applied to
  it in order (reset each destination once, fire every stimulus pair, fire
  every area pair, pick winners once per destination, reinforce every pair).
 */
module Round {
  import opened Synapses
  import opened Selection
  import opened Entities

  /** What a round reads but never changes, per area. */
  datatype AreaShape = AreaShape(n: nat, k: nat, custom: map<string, real>, fallback: real)

  /** What a round reads but never changes, per stimulus. */
  datatype StimShape = StimShape(k: nat, custom: map<string, real>, fallback: real)

  datatype Layout = Layout(areas: map<string, AreaShape>, stims: map<string, StimShape>)

  /** What a round changes: activations, winners and synapses, by entity name. */
  datatype World = World(
    acts: map<string, seq<real>>,
    wins: map<string, seq<nat>>,
    areaAdj: map<string, map<string, Adjacency>>,
    stimAdj: map<string, map<string, Adjacency>>)

  /** Every synapse map points at known areas, with targets inside them. */
  predicate FitsAreas(adj: map<string, Adjacency>, L: Layout)
  {
    forall d :: d in adj ==> d in L.areas && RowsFit(adj[d], L.areas[d].n)
  }

  /** An area's activations, winners and outgoing synapses, as brain.hpp describes them. */
  predicate AreaOk(L: Layout, a: string, acts: seq<real>, wins: seq<nat>, adj: map<string, Adjacency>)
    requires a in L.areas
  {
    |acts| == L.areas[a].n && WinnersOk(wins, L.areas[a].n) && AdjOk(adj, L.areas[a].n) && FitsAreas(adj, L)
  }

  /** A stimulus's outgoing synapses: k sorted rows per destination, targets inside it. */
  predicate StimOk(L: Layout, s: string, adj: map<string, Adjacency>)
    requires s in L.stims
  {
    AdjOk(adj, L.stims[s].k) && FitsAreas(adj, L)
  }

  /** The invariants brain.hpp states for every entity, over the whole registry. */
  predicate WorldOk(w: World, L: Layout)
  {
    && Keyed(w, L)
    && (forall a :: a in L.areas ==> AreaOk(L, a, w.acts[a], w.wins[a], w.areaAdj[a]))
    && (forall s :: s in L.stims ==> StimOk(L, s, w.stimAdj[s]))
  }

  /** The synapses a source uses toward d: the existing ones, or freshly generated ones. */
  lemma ConnectionOk(adj: map<string, Adjacency>, L: Layout, d: string, rows: nat, coin: Coin)
    requires AdjOk(adj, rows) && FitsAreas(adj, L) && d in L.areas
    ensures var conn := Connection(adj, d, rows, L.areas[d].n, coin);
      |conn| == rows && RowsSorted(conn) && RowsFit(conn, L.areas[d].n)
  {
    GeneratedShape(rows, L.areas[d].n, coin);
  }

  /** Storing d's synapses keeps an adjacency well-formed. */
  lemma AdjUpdateOk(adj: map<string, Adjacency>, L: Layout, d: string, rows: nat, conn: Adjacency)
    requires AdjOk(adj, rows) && FitsAreas(adj, L) && d in L.areas
    requires |conn| == rows && RowsSorted(conn) && RowsFit(conn, L.areas[d].n)
    ensures AdjOk(adj[d := conn], rows) && FitsAreas(adj[d := conn], L)
  {
  }

  lemma ActsUpdateOk(w: World, L: Layout, d: string, acts: seq<real>)
    requires WorldOk(w, L) && d in L.areas && |acts| == L.areas[d].n
    ensures WorldOk(w.(acts := w.acts[d := acts]), L)
  {
    var r := w.(acts := w.acts[d := acts]);
    forall a | a in L.areas
      ensures AreaOk(L, a, r.acts[a], r.wins[a], r.areaAdj[a])
    {
      assert AreaOk(L, a, w.acts[a], w.wins[a], w.areaAdj[a]);
    }
  }

  lemma AreaAdjUpdateOk(w: World, L: Layout, a: string, adj: map<string, Adjacency>)
    requires WorldOk(w, L) && a in L.areas
    requires AdjOk(adj, L.areas[a].n) && FitsAreas(adj, L)
    ensures WorldOk(w.(areaAdj := w.areaAdj[a := adj]), L)
  {
    var r := w.(areaAdj := w.areaAdj[a := adj]);
    forall x | x in L.areas
      ensures AreaOk(L, x, r.acts[x], r.wins[x], r.areaAdj[x])
    {
      assert AreaOk(L, x, w.acts[x], w.wins[x], w.areaAdj[x]);
    }
  }

  lemma StimAdjUpdateOk(w: World, L: Layout, s: string, adj: map<string, Adjacency>)
    requires WorldOk(w, L) && s in L.stims && StimOk(L, s, adj)
    ensures WorldOk(w.(stimAdj := w.stimAdj[s := adj]), L)
  {
  }

  lemma WinsUpdateOk(w: World, L: Layout, d: string, wins: seq<nat>)
    requires WorldOk(w, L) && d in L.areas && WinnersOk(wins, L.areas[d].n)
    ensures WorldOk(w.(wins := w.wins[d := wins]), L)
  {
    var r := w.(wins := w.wins[d := wins]);
    forall a | a in L.areas
      ensures AreaOk(L, a, r.acts[a], r.wins[a], r.areaAdj[a])
    {
      assert AreaOk(L, a, w.acts[a], w.wins[a], w.areaAdj[a]);
    }
  }

  /** The registry's names: one entry per area and per stimulus in each part of the state. */
  predicate Keyed(w: World, L: Layout)
  {
    && w.acts.Keys == L.areas.Keys
    && w.wins.Keys == L.areas.Keys
    && w.areaAdj.Keys == L.areas.Keys
    && w.stimAdj.Keys == L.stims.Keys
  }

  /** Every (source, destination) pair names a registered source and area. */
  predicate Known(pairs: seq<(string, string)>, sources: set<string>, L: Layout)
  {
    forall t :: 0 <= t < |pairs| ==> pairs[t].0 in sources && pairs[t].1 in L.areas
  }

  lemma KnownPrefix(pairs: seq<(string, string)>, m: nat, sources: set<string>, L: Layout)
    requires Known(pairs, sources, L) && m <= |pairs|
    ensures Known(pairs[..m], sources, L)
  {
    assert forall t :: 0 <= t < m ==> pairs[..m][t] == pairs[t];
  }

  /** The destination names a round resets and recomputes, each once. */
  function Destinations(stimPairs: seq<(string, string)>, areaPairs: seq<(string, string)>): set<string>
  {
    (set t | 0 <= t < |stimPairs| :: stimPairs[t].1) + (set t | 0 <= t < |areaPairs| :: areaPairs[t].1)
  }

  /**
    The activations after `firing` fires through `rows`. In a well-formed
    registry every firing index has a row and every target lies inside the
    destination (ProjectKeepsWorld), so the second branch is never taken.
   */
  function Feed(acts: seq<real>, rows: Adjacency, firing: seq<nat>): seq<real>
  {
    if Fires(rows, firing) && RowsFit(rows, |acts|) then Fire(acts, rows, firing) else acts
  }

  lemma ElemsSnoc(s: seq<string>, t: nat)
    requires t < |s|
    ensures Elems(s[..t + 1]) == Elems(s[..t]) + {s[t]}
  {
    assert s[..t + 1] == s[..t] + [s[t]];
  }

  /** Each destination's activations become n zeros. */
  function ResetActs(acts: map<string, seq<real>>, L: Layout, dests: set<string>): (r: map<string, seq<real>>)
    requires acts.Keys == L.areas.Keys
    ensures r.Keys == acts.Keys
  {
    map a | a in acts :: if a in dests then Zeros(L.areas[a].n) else acts[a]
  }

  /** Resetting one more destination. */
  lemma ResetActsStep(acts: map<string, seq<real>>, L: Layout, dests: set<string>, d: string)
    requires acts.Keys == L.areas.Keys && d in L.areas
    ensures ResetActs(acts, L, dests + {d}) == ResetActs(acts, L, dests)[d := Zeros(L.areas[d].n)]
  {
  }

  /** Resetting the destinations of a list one at a time. */
  lemma ResetActsSnoc(acts: map<string, seq<real>>, L: Layout, dests: seq<string>, t: nat)
    requires acts.Keys == L.areas.Keys && t < |dests| && dests[t] in L.areas
    ensures ResetActs(acts, L, Elems(dests[..t + 1])) == ResetActs(acts, L, Elems(dests[..t]))[dests[t] := Zeros(L.areas[dests[t]].n)]
  {
    ElemsSnoc(dests, t);
    ResetActsStep(acts, L, Elems(dests[..t]), dests[t]);
  }

  /** Phase 1: each destination's activations become n zeros. */
  function Reset(w: World, L: Layout, dests: set<string>): (r: World)
    requires Keyed(w, L)
    ensures Keyed(r, L)
    ensures r.wins == w.wins && r.areaAdj == w.areaAdj && r.stimAdj == w.stimAdj
  {
    w.(acts := ResetActs(w.acts, L, dests))
  }

  /** stim.project_into(dest): connect once, then add every row of the stimulus. */
  function StimProject(w: World, L: Layout, s: string, d: string, coin: Coin): (r: World)
    requires Keyed(w, L) && s in L.stims && d in L.areas
    ensures Keyed(r, L)
    ensures r.wins == w.wins && r.areaAdj == w.areaAdj
    ensures forall a :: a in L.areas && a != d ==> r.acts[a] == w.acts[a]
    ensures forall x :: x in L.stims && x != s ==> r.stimAdj[x] == w.stimAdj[x]
    ensures r.stimAdj[s].Keys == w.stimAdj[s].Keys + {d}
    ensures forall e :: e in w.stimAdj[s] ==> r.stimAdj[s][e] == w.stimAdj[s][e]
  {
    var conn := Connection(w.stimAdj[s], d, L.stims[s].k, L.areas[d].n, coin);
    w.(stimAdj := w.stimAdj[s := w.stimAdj[s][d := conn]],
       acts := w.acts[d := Feed(w.acts[d], conn, Range(L.stims[s].k))])
  }

  /** source.project_into(dest): connect once, then add the rows of the source's winners. */
  function AreaProject(w: World, L: Layout, a: string, d: string, coin: Coin): (r: World)
    requires Keyed(w, L) && a in L.areas && d in L.areas
    ensures Keyed(r, L)
    ensures r.wins == w.wins && r.stimAdj == w.stimAdj
    ensures forall x :: x in L.areas && x != d ==> r.acts[x] == w.acts[x]
    ensures forall x :: x in L.areas && x != a ==> r.areaAdj[x] == w.areaAdj[x]
    ensures r.areaAdj[a].Keys == w.areaAdj[a].Keys + {d}
    ensures forall e :: e in w.areaAdj[a] ==> r.areaAdj[a][e] == w.areaAdj[a][e]
  {
    var conn := Connection(w.areaAdj[a], d, L.areas[a].n, L.areas[d].n, coin);
    w.(areaAdj := w.areaAdj[a := w.areaAdj[a][d := conn]],
       acts := w.acts[d := Feed(w.acts[d], conn, w.wins[a])])
  }

  /** Phase 2: every stimulus pair, in request order. */
  function StimPhase(w: World, L: Layout, pairs: seq<(string, string)>, coins: (string, string) -> Coin): (r: World)
    requires Keyed(w, L) && Known(pairs, L.stims.Keys, L)
    ensures Keyed(r, L)
    ensures r.wins == w.wins && r.areaAdj == w.areaAdj
    decreases |pairs|
  {
    if pairs == [] then w
    else
      var last := pairs[|pairs| - 1];
      KnownPrefix(pairs, |pairs| - 1, L.stims.Keys, L);
      StimProject(StimPhase(w, L, pairs[..|pairs| - 1], coins), L, last.0, last.1, coins(last.0, last.1))
  }

  /**
    A stimulus step whose synapses have a row per firing neuron and targets
    inside the destination feeds it exactly as the synapses fire.
   */
  lemma StimProjectFires(w: World, L: Layout, s: string, d: string, coin: Coin, adj: map<string, Adjacency>, fired: seq<real>)
    requires Keyed(w, L) && s in L.stims && d in L.areas
    requires adj == w.stimAdj[s][d := Connection(w.stimAdj[s], d, L.stims[s].k, L.areas[d].n, coin)]
    requires |adj[d]| == L.stims[s].k && RowsFit(adj[d], |w.acts[d]|)
    requires fired == Fire(w.acts[d], adj[d], Range(L.stims[s].k))
    ensures StimProject(w, L, s, d, coin).acts == w.acts[d := fired]
    ensures StimProject(w, L, s, d, coin).stimAdj == w.stimAdj[s := adj]
  {
  }

  /** Phase 2 over one more pair is one more step. */
  lemma StimPhaseSnoc(w: World, L: Layout, pairs: seq<(string, string)>, t: nat, coins: (string, string) -> Coin)
    requires Keyed(w, L) && Known(pairs, L.stims.Keys, L) && t < |pairs|
    ensures Known(pairs[..t], L.stims.Keys, L) && Known(pairs[..t + 1], L.stims.Keys, L)
    ensures StimPhase(w, L, pairs[..t + 1], coins) ==
      StimProject(StimPhase(w, L, pairs[..t], coins), L, pairs[t].0, pairs[t].1, coins(pairs[t].0, pairs[t].1))
  {
    KnownPrefix(pairs, t, L.stims.Keys, L);
    KnownPrefix(pairs, t + 1, L.stims.Keys, L);
    assert pairs[..t + 1][..t] == pairs[..t];
  }

  /**
    An area step whose synapses have a row per firing winner and targets
    inside the destination feeds it exactly as the synapses fire.
   */
  lemma AreaProjectFires(w: World, L: Layout, a: string, d: string, coin: Coin, adj: map<string, Adjacency>, fired: seq<real>)
    requires Keyed(w, L) && a in L.areas && d in L.areas
    requires adj == w.areaAdj[a][d := Connection(w.areaAdj[a], d, L.areas[a].n, L.areas[d].n, coin)]
    requires Fires(adj[d], w.wins[a]) && RowsFit(adj[d], |w.acts[d]|)
    requires fired == Fire(w.acts[d], adj[d], w.wins[a])
    ensures AreaProject(w, L, a, d, coin).acts == w.acts[d := fired]
    ensures AreaProject(w, L, a, d, coin).areaAdj == w.areaAdj[a := adj]
  {
  }

  /** Phase 3 over one more pair is one more step. */
  lemma AreaPhaseSnoc(w: World, L: Layout, pairs: seq<(string, string)>, t: nat, coins: (string, string) -> Coin)
    requires Keyed(w, L) && Known(pairs, L.areas.Keys, L) && t < |pairs|
    ensures Known(pairs[..t], L.areas.Keys, L) && Known(pairs[..t + 1], L.areas.Keys, L)
    ensures AreaPhase(w, L, pairs[..t + 1], coins) ==
      AreaProject(AreaPhase(w, L, pairs[..t], coins), L, pairs[t].0, pairs[t].1, coins(pairs[t].0, pairs[t].1))
  {
    KnownPrefix(pairs, t, L.areas.Keys, L);
    KnownPrefix(pairs, t + 1, L.areas.Keys, L);
    assert pairs[..t + 1][..t] == pairs[..t];
  }

  /** Phase 3: every area pair, in request order, each source firing the winners it had before the round. */
  function AreaPhase(w: World, L: Layout, pairs: seq<(string, string)>, coins: (string, string) -> Coin): (r: World)
    requires Keyed(w, L) && Known(pairs, L.areas.Keys, L)
    ensures Keyed(r, L)
    ensures r.wins == w.wins && r.stimAdj == w.stimAdj
    decreases |pairs|
  {
    if pairs == [] then w
    else
      var last := pairs[|pairs| - 1];
      KnownPrefix(pairs, |pairs| - 1, L.areas.Keys, L);
      AreaProject(AreaPhase(w, L, pairs[..|pairs| - 1], coins), L, last.0, last.1, coins(last.0, last.1))
  }

  /** Phase 4: each destination's winners become its top k. */
  function Recompute(w: World, L: Layout, dests: set<string>): (r: World)
    requires Keyed(w, L)
    ensures Keyed(r, L)
    ensures r.acts == w.acts && r.areaAdj == w.areaAdj && r.stimAdj == w.stimAdj
    ensures forall a :: a in L.areas && a !in dests ==> r.wins[a] == w.wins[a]
  {
    w.(wins := map a | a in w.wins :: if a in dests then TopK(w.acts[a], L.areas[a].k) else w.wins[a])
  }

  /** Choosing the winners of a list's destinations one at a time. */
  lemma RecomputeSnoc(w: World, L: Layout, dests: seq<string>, t: nat)
    requires Keyed(w, L) && t < |dests| && dests[t] in L.areas
    ensures Recompute(w, L, Elems(dests[..t + 1])).wins ==
      Recompute(w, L, Elems(dests[..t])).wins[dests[t] := TopK(w.acts[dests[t]], L.areas[dests[t]].k)]
  {
    ElemsSnoc(dests, t);
  }

  /** The factor 1 + beta a source applies toward destination d. */
  function Factor(custom: map<string, real>, fallback: real, d: string): real
  {
    1.0 + BetaFor(custom, fallback, d)
  }

  /**
    stim.update_plasticities(dest): reinforce every row of the stimulus
    toward dest's winners. brain.cpp:75 needs the synapses to exist; within a
    round they always do (FiredConnected), and otherwise nothing changes here.
   */
  function StimReinforce(w: World, L: Layout, s: string, d: string): (r: World)
    requires Keyed(w, L) && s in L.stims && d in L.areas
    ensures Keyed(r, L)
    ensures r.acts == w.acts && r.wins == w.wins && r.areaAdj == w.areaAdj
    ensures forall x :: x in L.stims && x != s ==> r.stimAdj[x] == w.stimAdj[x]
    ensures r.stimAdj[s].Keys == w.stimAdj[s].Keys
    ensures forall e :: e in w.stimAdj[s] && e != d ==> r.stimAdj[s][e] == w.stimAdj[s][e]
    ensures d in w.stimAdj[s] ==> |r.stimAdj[s][d]| == |w.stimAdj[s][d]|
  {
    if d !in w.stimAdj[s] then w
    else
      var shape := L.stims[s];
      var rows := ReinforcedRows(w.stimAdj[s][d], Range(shape.k), w.wins[d], Factor(shape.custom, shape.fallback, d));
      w.(stimAdj := w.stimAdj[s := w.stimAdj[s][d := rows]])
  }

  /** A stimulus reinforcement replaces the stimulus's synapses toward d by the reinforced rows. */
  lemma StimReinforceIs(w: World, L: Layout, s: string, d: string, adj: map<string, Adjacency>)
    requires Keyed(w, L) && s in L.stims && d in L.areas && d in w.stimAdj[s]
    requires adj == w.stimAdj[s][d := ReinforcedRows(w.stimAdj[s][d], Range(L.stims[s].k), w.wins[d],
                                                     Factor(L.stims[s].custom, L.stims[s].fallback, d))]
    ensures StimReinforce(w, L, s, d).stimAdj == w.stimAdj[s := adj]
  {
  }

  /** source.update_plasticities(dest): reinforce the rows of the source's current winners. */
  function AreaReinforce(w: World, L: Layout, a: string, d: string): (r: World)
    requires Keyed(w, L) && a in L.areas && d in L.areas
    ensures Keyed(r, L)
    ensures r.acts == w.acts && r.wins == w.wins && r.stimAdj == w.stimAdj
    ensures forall x :: x in L.areas && x != a ==> r.areaAdj[x] == w.areaAdj[x]
    ensures r.areaAdj[a].Keys == w.areaAdj[a].Keys
    ensures forall e :: e in w.areaAdj[a] && e != d ==> r.areaAdj[a][e] == w.areaAdj[a][e]
    ensures d in w.areaAdj[a] ==> |r.areaAdj[a][d]| == |w.areaAdj[a][d]|
  {
    if d !in w.areaAdj[a] then w
    else
      var shape := L.areas[a];
      var rows := ReinforcedRows(w.areaAdj[a][d], w.wins[a], w.wins[d], Factor(shape.custom, shape.fallback, d));
      w.(areaAdj := w.areaAdj[a := w.areaAdj[a][d := rows]])
  }

  /** An area reinforcement replaces the source's synapses toward d by the reinforced rows. */
  lemma AreaReinforceIs(w: World, L: Layout, a: string, d: string, adj: map<string, Adjacency>)
    requires Keyed(w, L) && a in L.areas && d in L.areas && d in w.areaAdj[a]
    requires adj == w.areaAdj[a][d := ReinforcedRows(w.areaAdj[a][d], w.wins[a], w.wins[d],
                                                     Factor(L.areas[a].custom, L.areas[a].fallback, d))]
    ensures AreaReinforce(w, L, a, d).areaAdj == w.areaAdj[a := adj]
  {
  }

  /** Phase 5a: every stimulus pair is reinforced, in request order. */
  function StimReinforcePhase(w: World, L: Layout, pairs: seq<(string, string)>): (r: World)
    requires Keyed(w, L) && Known(pairs, L.stims.Keys, L)
    ensures Keyed(r, L)
    ensures r.acts == w.acts && r.wins == w.wins && r.areaAdj == w.areaAdj
    decreases |pairs|
  {
    if pairs == [] then w
    else
      var last := pairs[|pairs| - 1];
      KnownPrefix(pairs, |pairs| - 1, L.stims.Keys, L);
      StimReinforce(StimReinforcePhase(w, L, pairs[..|pairs| - 1]), L, last.0, last.1)
  }

  /** Phase 5a over one more pair is one more step. */
  lemma StimReinforceSnoc(w: World, L: Layout, pairs: seq<(string, string)>, t: nat)
    requires Keyed(w, L) && Known(pairs, L.stims.Keys, L) && t < |pairs|
    ensures Known(pairs[..t], L.stims.Keys, L) && Known(pairs[..t + 1], L.stims.Keys, L)
    ensures StimReinforcePhase(w, L, pairs[..t + 1]) == StimReinforce(StimReinforcePhase(w, L, pairs[..t]), L, pairs[t].0, pairs[t].1)
  {
    KnownPrefix(pairs, t, L.stims.Keys, L);
    KnownPrefix(pairs, t + 1, L.stims.Keys, L);
    assert pairs[..t + 1][..t] == pairs[..t];
  }

  /** Phase 5b: every area pair is reinforced, in request order, from the sources' new winners. */
  function AreaReinforcePhase(w: World, L: Layout, pairs: seq<(string, string)>): (r: World)
    requires Keyed(w, L) && Known(pairs, L.areas.Keys, L)
    ensures Keyed(r, L)
    ensures r.acts == w.acts && r.wins == w.wins && r.stimAdj == w.stimAdj
    decreases |pairs|
  {
    if pairs == [] then w
    else
      var last := pairs[|pairs| - 1];
      KnownPrefix(pairs, |pairs| - 1, L.areas.Keys, L);
      AreaReinforce(AreaReinforcePhase(w, L, pairs[..|pairs| - 1]), L, last.0, last.1)
  }

  /** Phase 5b over one more pair is one more step. */
  lemma AreaReinforceSnoc(w: World, L: Layout, pairs: seq<(string, string)>, t: nat)
    requires Keyed(w, L) && Known(pairs, L.areas.Keys, L) && t < |pairs|
    ensures Known(pairs[..t], L.areas.Keys, L) && Known(pairs[..t + 1], L.areas.Keys, L)
    ensures AreaReinforcePhase(w, L, pairs[..t + 1]) == AreaReinforce(AreaReinforcePhase(w, L, pairs[..t]), L, pairs[t].0, pairs[t].1)
  {
    KnownPrefix(pairs, t, L.areas.Keys, L);
    KnownPrefix(pairs, t + 1, L.areas.Keys, L);
    assert pairs[..t + 1][..t] == pairs[..t];
  }

  /** Every destination of a round is a registered area. */
  lemma DestinationsKnown(stimPairs: seq<(string, string)>, areaPairs: seq<(string, string)>, L: Layout)
    requires Known(stimPairs, L.stims.Keys, L) && Known(areaPairs, L.areas.Keys, L)
    ensures forall d :: d in Destinations(stimPairs, areaPairs) ==> d in L.areas
  {
  }

  /** The state after accumulation: reset, then every stimulus pair, then every area pair. */
  function Fired(w: World, L: Layout, stimPairs: seq<(string, string)>, areaPairs: seq<(string, string)>,
                 stimCoins: (string, string) -> Coin, areaCoins: (string, string) -> Coin): (r: World)
    requires Keyed(w, L) && Known(stimPairs, L.stims.Keys, L) && Known(areaPairs, L.areas.Keys, L)
    ensures Keyed(r, L)
    ensures r.wins == w.wins
  {
    var reset := Reset(w, L, Destinations(stimPairs, areaPairs));
    AreaPhase(StimPhase(reset, L, stimPairs, stimCoins), L, areaPairs, areaCoins)
  }

  /** The whole round. */
  function Project(w: World, L: Layout, stimPairs: seq<(string, string)>, areaPairs: seq<(string, string)>,
                   stimCoins: (string, string) -> Coin, areaCoins: (string, string) -> Coin): (r: World)
    requires Keyed(w, L) && Known(stimPairs, L.stims.Keys, L) && Known(areaPairs, L.areas.Keys, L)
    ensures Keyed(r, L)
    ensures r.acts == Fired(w, L, stimPairs, areaPairs, stimCoins, areaCoins).acts
    ensures forall a :: a in L.areas && a !in Destinations(stimPairs, areaPairs) ==> r.wins[a] == w.wins[a]
  {
    var fired := Fired(w, L, stimPairs, areaPairs, stimCoins, areaCoins);
    var chosen := Recompute(fired, L, Destinations(stimPairs, areaPairs));
    AreaReinforcePhase(StimReinforcePhase(chosen, L, stimPairs), L, areaPairs)
  }

  /** Every pair's destination is already connected from its source. */
  predicate Connected(pairs: seq<(string, string)>, adj: map<string, map<string, Adjacency>>)
  {
    forall p :: p in pairs ==> p.0 in adj && p.1 in adj[p.0]
  }

  // The registry invariants hold after every step and phase of a round.

  lemma ResetOk(w: World, L: Layout, dests: set<string>)
    requires WorldOk(w, L)
    ensures WorldOk(Reset(w, L, dests), L)
  {
    var r := Reset(w, L, dests);
    forall a | a in L.areas
      ensures AreaOk(L, a, r.acts[a], r.wins[a], r.areaAdj[a])
    {
      assert AreaOk(L, a, w.acts[a], w.wins[a], w.areaAdj[a]);
    }
  }

  lemma RecomputeOk(w: World, L: Layout, dests: set<string>)
    requires WorldOk(w, L)
    ensures WorldOk(Recompute(w, L, dests), L)
  {
    var r := Recompute(w, L, dests);
    forall a | a in L.areas
      ensures AreaOk(L, a, r.acts[a], r.wins[a], r.areaAdj[a])
    {
      assert AreaOk(L, a, w.acts[a], w.wins[a], w.areaAdj[a]);
    }
  }

  /** A stimulus step fires through synapses that fit, and keeps the invariants. */
  lemma StimProjectOk(w: World, L: Layout, s: string, d: string, coin: Coin)
    requires WorldOk(w, L) && s in L.stims && d in L.areas
    ensures var conn := Connection(w.stimAdj[s], d, L.stims[s].k, L.areas[d].n, coin);
      Fires(conn, Range(L.stims[s].k)) && RowsFit(conn, |w.acts[d]|)
    ensures WorldOk(StimProject(w, L, s, d, coin), L)
  {
    var k := L.stims[s].k;
    var conn := Connection(w.stimAdj[s], d, k, L.areas[d].n, coin);
    assert StimOk(L, s, w.stimAdj[s]) && AreaOk(L, d, w.acts[d], w.wins[d], w.areaAdj[d]);
    ConnectionOk(w.stimAdj[s], L, d, k, coin);
    AdjUpdateOk(w.stimAdj[s], L, d, k, conn);
    var fired := w.(acts := w.acts[d := Fire(w.acts[d], conn, Range(k))]);
    ActsUpdateOk(w, L, d, fired.acts[d]);
    StimAdjUpdateOk(fired, L, s, w.stimAdj[s][d := conn]);
  }

  /** An area step fires through synapses that fit, and keeps the invariants. */
  lemma AreaProjectOk(w: World, L: Layout, a: string, d: string, coin: Coin)
    requires WorldOk(w, L) && a in L.areas && d in L.areas
    ensures var conn := Connection(w.areaAdj[a], d, L.areas[a].n, L.areas[d].n, coin);
      Fires(conn, w.wins[a]) && RowsFit(conn, |w.acts[d]|)
    ensures WorldOk(AreaProject(w, L, a, d, coin), L)
  {
    var n := L.areas[a].n;
    var conn := Connection(w.areaAdj[a], d, n, L.areas[d].n, coin);
    assert AreaOk(L, a, w.acts[a], w.wins[a], w.areaAdj[a]) && AreaOk(L, d, w.acts[d], w.wins[d], w.areaAdj[d]);
    ConnectionOk(w.areaAdj[a], L, d, n, coin);
    AdjUpdateOk(w.areaAdj[a], L, d, n, conn);
    var fired := w.(acts := w.acts[d := Fire(w.acts[d], conn, w.wins[a])]);
    ActsUpdateOk(w, L, d, fired.acts[d]);
    AreaAdjUpdateOk(fired, L, a, w.areaAdj[a][d := conn]);
  }

  lemma StimReinforceOk(w: World, L: Layout, s: string, d: string)
    requires WorldOk(w, L) && s in L.stims && d in L.areas
    ensures WorldOk(StimReinforce(w, L, s, d), L)
  {
    if d in w.stimAdj[s] {
      var shape := L.stims[s];
      var factor := Factor(shape.custom, shape.fallback, d);
      var rows := w.stimAdj[s][d];
      assert StimOk(L, s, w.stimAdj[s]);
      ReinforcedKeepsInvariants(rows, Range(shape.k), w.wins[d], factor, L.areas[d].n);
      var next := ReinforcedRows(rows, Range(shape.k), w.wins[d], factor);
      AdjUpdateOk(w.stimAdj[s], L, d, shape.k, next);
      StimAdjUpdateOk(w, L, s, w.stimAdj[s][d := next]);
    }
  }

  lemma AreaReinforceOk(w: World, L: Layout, a: string, d: string)
    requires WorldOk(w, L) && a in L.areas && d in L.areas
    ensures WorldOk(AreaReinforce(w, L, a, d), L)
  {
    if d in w.areaAdj[a] {
      var shape := L.areas[a];
      var factor := Factor(shape.custom, shape.fallback, d);
      var rows := w.areaAdj[a][d];
      assert AreaOk(L, a, w.acts[a], w.wins[a], w.areaAdj[a]);
      ReinforcedKeepsInvariants(rows, w.wins[a], w.wins[d], factor, L.areas[d].n);
      var next := ReinforcedRows(rows, w.wins[a], w.wins[d], factor);
      AdjUpdateOk(w.areaAdj[a], L, d, shape.n, next);
      AreaAdjUpdateOk(w, L, a, w.areaAdj[a][d := next]);
    }
  }

  /** A step connects its pair and drops no synapses. */
  lemma StimProjectConnects(w: World, L: Layout, s: string, d: string, coin: Coin)
    requires Keyed(w, L) && s in L.stims && d in L.areas
    ensures forall x :: x in L.stims ==> w.stimAdj[x].Keys <= StimProject(w, L, s, d, coin).stimAdj[x].Keys
    ensures d in StimProject(w, L, s, d, coin).stimAdj[s]
  {
  }

  /** Phase 2 keeps the invariants. */
  lemma {:induction false} StimPhaseOk(w: World, L: Layout, pairs: seq<(string, string)>, coins: (string, string) -> Coin)
    requires WorldOk(w, L) && Known(pairs, L.stims.Keys, L)
    ensures WorldOk(StimPhase(w, L, pairs, coins), L)
    decreases |pairs|
  {
    if pairs != [] {
      var last := pairs[|pairs| - 1];
      KnownPrefix(pairs, |pairs| - 1, L.stims.Keys, L);
      StimPhaseOk(w, L, pairs[..|pairs| - 1], coins);
      StimProjectOk(StimPhase(w, L, pairs[..|pairs| - 1], coins), L, last.0, last.1, coins(last.0, last.1));
    }
  }

  /** Phase 2 only adds synapses, and leaves every listed source connected to its destinations. */
  lemma {:induction false} StimPhaseConnects(w: World, L: Layout, pairs: seq<(string, string)>, coins: (string, string) -> Coin)
    requires Keyed(w, L) && Known(pairs, L.stims.Keys, L)
    ensures forall x :: x in L.stims ==> w.stimAdj[x].Keys <= StimPhase(w, L, pairs, coins).stimAdj[x].Keys
    ensures Connected(pairs, StimPhase(w, L, pairs, coins).stimAdj)
    decreases |pairs|
  {
    if pairs != [] {
      var init := pairs[..|pairs| - 1];
      var last := pairs[|pairs| - 1];
      KnownPrefix(pairs, |pairs| - 1, L.stims.Keys, L);
      StimPhaseConnects(w, L, init, coins);
      var prev := StimPhase(w, L, init, coins);
      StimProjectConnects(prev, L, last.0, last.1, coins(last.0, last.1));
      var next := StimPhase(w, L, pairs, coins);
      assert next == StimProject(prev, L, last.0, last.1, coins(last.0, last.1));
      forall p | p in pairs
        ensures p.0 in next.stimAdj && p.1 in next.stimAdj[p.0]
      {
        var i :| 0 <= i < |pairs| && pairs[i] == p;
        if i < |init| {
          assert init[i] == p;
        }
      }
    }
  }


  /** A step connects its pair and drops no synapses. */
  lemma AreaProjectConnects(w: World, L: Layout, a: string, d: string, coin: Coin)
    requires Keyed(w, L) && a in L.areas && d in L.areas
    ensures forall x :: x in L.areas ==> w.areaAdj[x].Keys <= AreaProject(w, L, a, d, coin).areaAdj[x].Keys
    ensures d in AreaProject(w, L, a, d, coin).areaAdj[a]
  {
  }

  /** Phase 3 keeps the invariants. */
  lemma {:induction false} AreaPhaseOk(w: World, L: Layout, pairs: seq<(string, string)>, coins: (string, string) -> Coin)
    requires WorldOk(w, L) && Known(pairs, L.areas.Keys, L)
    ensures WorldOk(AreaPhase(w, L, pairs, coins), L)
    decreases |pairs|
  {
    if pairs != [] {
      var last := pairs[|pairs| - 1];
      KnownPrefix(pairs, |pairs| - 1, L.areas.Keys, L);
      AreaPhaseOk(w, L, pairs[..|pairs| - 1], coins);
      AreaProjectOk(AreaPhase(w, L, pairs[..|pairs| - 1], coins), L, last.0, last.1, coins(last.0, last.1));
    }
  }

  /** Phase 3 only adds synapses, and leaves every listed source connected to its destinations. */
  lemma {:induction false} AreaPhaseConnects(w: World, L: Layout, pairs: seq<(string, string)>, coins: (string, string) -> Coin)
    requires Keyed(w, L) && Known(pairs, L.areas.Keys, L)
    ensures forall x :: x in L.areas ==> w.areaAdj[x].Keys <= AreaPhase(w, L, pairs, coins).areaAdj[x].Keys
    ensures Connected(pairs, AreaPhase(w, L, pairs, coins).areaAdj)
    decreases |pairs|
  {
    if pairs != [] {
      var init := pairs[..|pairs| - 1];
      var last := pairs[|pairs| - 1];
      KnownPrefix(pairs, |pairs| - 1, L.areas.Keys, L);
      AreaPhaseConnects(w, L, init, coins);
      var prev := AreaPhase(w, L, init, coins);
      AreaProjectConnects(prev, L, last.0, last.1, coins(last.0, last.1));
      var next := AreaPhase(w, L, pairs, coins);
      assert next == AreaProject(prev, L, last.0, last.1, coins(last.0, last.1));
      forall p | p in pairs
        ensures p.0 in next.areaAdj && p.1 in next.areaAdj[p.0]
      {
        var i :| 0 <= i < |pairs| && pairs[i] == p;
        if i < |init| {
          assert init[i] == p;
        }
      }
    }
  }


  lemma {:induction false} StimReinforcePhaseOk(w: World, L: Layout, pairs: seq<(string, string)>)
    requires WorldOk(w, L) && Known(pairs, L.stims.Keys, L)
    ensures WorldOk(StimReinforcePhase(w, L, pairs), L)
    decreases |pairs|
  {
    if pairs != [] {
      var last := pairs[|pairs| - 1];
      KnownPrefix(pairs, |pairs| - 1, L.stims.Keys, L);
      StimReinforcePhaseOk(w, L, pairs[..|pairs| - 1]);
      StimReinforceOk(StimReinforcePhase(w, L, pairs[..|pairs| - 1]), L, last.0, last.1);
    }
  }

  lemma {:induction false} AreaReinforcePhaseOk(w: World, L: Layout, pairs: seq<(string, string)>)
    requires WorldOk(w, L) && Known(pairs, L.areas.Keys, L)
    ensures WorldOk(AreaReinforcePhase(w, L, pairs), L)
    decreases |pairs|
  {
    if pairs != [] {
      var last := pairs[|pairs| - 1];
      KnownPrefix(pairs, |pairs| - 1, L.areas.Keys, L);
      AreaReinforcePhaseOk(w, L, pairs[..|pairs| - 1]);
      AreaReinforceOk(AreaReinforcePhase(w, L, pairs[..|pairs| - 1]), L, last.0, last.1);
    }
  }

  /** Plasticity changes weights only: no synapse map gains or loses a destination. */
  lemma {:induction false} StimReinforcePhaseKeeps(w: World, L: Layout, pairs: seq<(string, string)>)
    requires Keyed(w, L) && Known(pairs, L.stims.Keys, L)
    ensures forall x :: x in L.stims ==> StimReinforcePhase(w, L, pairs).stimAdj[x].Keys == w.stimAdj[x].Keys
    decreases |pairs|
  {
    if pairs != [] {
      KnownPrefix(pairs, |pairs| - 1, L.stims.Keys, L);
      StimReinforcePhaseKeeps(w, L, pairs[..|pairs| - 1]);
    }
  }

  /** Plasticity changes weights only: no synapse map gains or loses a destination. */
  lemma {:induction false} AreaReinforcePhaseKeeps(w: World, L: Layout, pairs: seq<(string, string)>)
    requires Keyed(w, L) && Known(pairs, L.areas.Keys, L)
    ensures forall x :: x in L.areas ==> AreaReinforcePhase(w, L, pairs).areaAdj[x].Keys == w.areaAdj[x].Keys
    decreases |pairs|
  {
    if pairs != [] {
      KnownPrefix(pairs, |pairs| - 1, L.areas.Keys, L);
      AreaReinforcePhaseKeeps(w, L, pairs[..|pairs| - 1]);
    }
  }

  /** After accumulation every requested pair is connected, so plasticity always finds its synapses. */
  lemma FiredConnected(w: World, L: Layout, stimPairs: seq<(string, string)>, areaPairs: seq<(string, string)>,
                       stimCoins: (string, string) -> Coin, areaCoins: (string, string) -> Coin)
    requires WorldOk(w, L) && Known(stimPairs, L.stims.Keys, L) && Known(areaPairs, L.areas.Keys, L)
    ensures WorldOk(Fired(w, L, stimPairs, areaPairs, stimCoins, areaCoins), L)
    ensures Connected(stimPairs, Fired(w, L, stimPairs, areaPairs, stimCoins, areaCoins).stimAdj)
    ensures Connected(areaPairs, Fired(w, L, stimPairs, areaPairs, stimCoins, areaCoins).areaAdj)
  {
    var reset := Reset(w, L, Destinations(stimPairs, areaPairs));
    ResetOk(w, L, Destinations(stimPairs, areaPairs));
    StimPhaseOk(reset, L, stimPairs, stimCoins);
    StimPhaseConnects(reset, L, stimPairs, stimCoins);
    AreaPhaseOk(StimPhase(reset, L, stimPairs, stimCoins), L, areaPairs, areaCoins);
    AreaPhaseConnects(StimPhase(reset, L, stimPairs, stimCoins), L, areaPairs, areaCoins);
  }

  /**
    A round keeps every invariant brain.hpp states: activations of length n,
    ascending in-range winners, one sorted in-range row per source neuron.
   */
  lemma ProjectKeepsWorld(w: World, L: Layout, stimPairs: seq<(string, string)>, areaPairs: seq<(string, string)>,
                          stimCoins: (string, string) -> Coin, areaCoins: (string, string) -> Coin)
    requires WorldOk(w, L) && Known(stimPairs, L.stims.Keys, L) && Known(areaPairs, L.areas.Keys, L)
    ensures WorldOk(Project(w, L, stimPairs, areaPairs, stimCoins, areaCoins), L)
  {
    var fired := Fired(w, L, stimPairs, areaPairs, stimCoins, areaCoins);
    FiredConnected(w, L, stimPairs, areaPairs, stimCoins, areaCoins);
    var chosen := Recompute(fired, L, Destinations(stimPairs, areaPairs));
    RecomputeOk(fired, L, Destinations(stimPairs, areaPairs));
    StimReinforcePhaseOk(chosen, L, stimPairs);
    AreaReinforcePhaseOk(StimReinforcePhase(chosen, L, stimPairs), L, areaPairs);
  }

  /** No stimulus pair aimed elsewhere touches area a's activations. */
  lemma {:induction false} StimPhaseIdle(w: World, L: Layout, pairs: seq<(string, string)>, coins: (string, string) -> Coin, a: string)
    requires Keyed(w, L) && Known(pairs, L.stims.Keys, L) && a in L.areas
    requires forall t :: 0 <= t < |pairs| ==> pairs[t].1 != a
    ensures StimPhase(w, L, pairs, coins).acts[a] == w.acts[a]
    decreases |pairs|
  {
    if pairs != [] {
      var init := pairs[..|pairs| - 1];
      KnownPrefix(pairs, |pairs| - 1, L.stims.Keys, L);
      assert forall t :: 0 <= t < |init| ==> init[t] == pairs[t];
      StimPhaseIdle(w, L, init, coins, a);
    }
  }

  /** No area pair aimed elsewhere touches area a's activations. */
  lemma {:induction false} AreaPhaseIdle(w: World, L: Layout, pairs: seq<(string, string)>, coins: (string, string) -> Coin, a: string)
    requires Keyed(w, L) && Known(pairs, L.areas.Keys, L) && a in L.areas
    requires forall t :: 0 <= t < |pairs| ==> pairs[t].1 != a
    ensures AreaPhase(w, L, pairs, coins).acts[a] == w.acts[a]
    decreases |pairs|
  {
    if pairs != [] {
      var init := pairs[..|pairs| - 1];
      KnownPrefix(pairs, |pairs| - 1, L.areas.Keys, L);
      assert forall t :: 0 <= t < |init| ==> init[t] == pairs[t];
      AreaPhaseIdle(w, L, init, coins, a);
    }
  }

  /**
    An area that no pair names as destination leaves the round with the
    activations and winners it entered with, even when it fires as a source.
   */
  lemma ProjectKeepsIdle(w: World, L: Layout, stimPairs: seq<(string, string)>, areaPairs: seq<(string, string)>,
                         stimCoins: (string, string) -> Coin, areaCoins: (string, string) -> Coin, a: string)
    requires Keyed(w, L) && Known(stimPairs, L.stims.Keys, L) && Known(areaPairs, L.areas.Keys, L)
    requires a in L.areas && a !in Destinations(stimPairs, areaPairs)
    ensures Project(w, L, stimPairs, areaPairs, stimCoins, areaCoins).acts[a] == w.acts[a]
    ensures Project(w, L, stimPairs, areaPairs, stimCoins, areaCoins).wins[a] == w.wins[a]
  {
    var dests := Destinations(stimPairs, areaPairs);
    var reset := Reset(w, L, dests);
    forall t | 0 <= t < |stimPairs| ensures stimPairs[t].1 != a {
      assert stimPairs[t].1 in dests;
    }
    forall t | 0 <= t < |areaPairs| ensures areaPairs[t].1 != a {
      assert areaPairs[t].1 in dests;
    }
    StimPhaseIdle(reset, L, stimPairs, stimCoins, a);
    AreaPhaseIdle(StimPhase(reset, L, stimPairs, stimCoins), L, areaPairs, areaCoins, a);
  }

  /**
    Every destination leaves the round holding the k winners of the
    activations accumulated during it: k ascending indices, each beating every
    neuron left out, ties going to the higher index.
   */
  lemma ProjectWinners(w: World, L: Layout, stimPairs: seq<(string, string)>, areaPairs: seq<(string, string)>,
                       stimCoins: (string, string) -> Coin, areaCoins: (string, string) -> Coin, d: string)
    requires WorldOk(w, L) && Known(stimPairs, L.stims.Keys, L) && Known(areaPairs, L.areas.Keys, L)
    requires d in Destinations(stimPairs, areaPairs) && L.areas[d].k <= L.areas[d].n
    ensures IsTopK(Fired(w, L, stimPairs, areaPairs, stimCoins, areaCoins).acts[d],
                   Project(w, L, stimPairs, areaPairs, stimCoins, areaCoins).wins[d], L.areas[d].k)
  {
    DestinationsKnown(stimPairs, areaPairs, L);
    var fired := Fired(w, L, stimPairs, areaPairs, stimCoins, areaCoins);
    FiredConnected(w, L, stimPairs, areaPairs, stimCoins, areaCoins);
    assert AreaOk(L, d, fired.acts[d], fired.wins[d], fired.areaAdj[d]);
    TopKIsTopK(fired.acts[d], L.areas[d].k);
  }

  /**
    A destination listed twice for one stimulus is reinforced twice: the
    round does not deduplicate plasticity.
   */
  lemma StimListedTwice(w: World, L: Layout, s: string, d: string)
    requires Keyed(w, L) && s in L.stims && d in L.areas && d in w.stimAdj[s]
    ensures Known([(s, d), (s, d)], L.stims.Keys, L)
    ensures d in StimReinforcePhase(w, L, [(s, d), (s, d)]).stimAdj[s]
    ensures StimReinforcePhase(w, L, [(s, d), (s, d)]).stimAdj[s][d] ==
      ReinforcedTimes(w.stimAdj[s][d], Range(L.stims[s].k), w.wins[d], Factor(L.stims[s].custom, L.stims[s].fallback, d), 2)
  {
    var pairs := [(s, d), (s, d)];
    assert pairs[..1] == [(s, d)] && pairs[..1][..0] == [];
    var factor := Factor(L.stims[s].custom, L.stims[s].fallback, d);
    var once := StimReinforce(w, L, s, d);
    assert StimReinforcePhase(w, L, pairs[..1]) == once;
    assert once.stimAdj[s][d] == ReinforcedTimes(w.stimAdj[s][d], Range(L.stims[s].k), w.wins[d], factor, 1);
  }

  /** The same holds for an area pair listed twice. */
  lemma AreaListedTwice(w: World, L: Layout, a: string, d: string)
    requires Keyed(w, L) && a in L.areas && d in L.areas && d in w.areaAdj[a]
    ensures Known([(a, d), (a, d)], L.areas.Keys, L)
    ensures d in AreaReinforcePhase(w, L, [(a, d), (a, d)]).areaAdj[a]
    ensures AreaReinforcePhase(w, L, [(a, d), (a, d)]).areaAdj[a][d] ==
      ReinforcedTimes(w.areaAdj[a][d], w.wins[a], w.wins[d], Factor(L.areas[a].custom, L.areas[a].fallback, d), 2)
  {
    var pairs := [(a, d), (a, d)];
    assert pairs[..1] == [(a, d)] && pairs[..1][..0] == [];
    var factor := Factor(L.areas[a].custom, L.areas[a].fallback, d);
    var once := AreaReinforce(w, L, a, d);
    assert AreaReinforcePhase(w, L, pairs[..1]) == once;
    assert once.areaAdj[a][d] == ReinforcedTimes(w.areaAdj[a][d], w.wins[a], w.wins[d], factor, 1);
  }

  // Non-negative weights: what the lower_bound search on (w, 0) relies on.

  /** Every weight from every source to every destination is non-negative. */
  predicate AdjNonNegative(adj: map<string, map<string, Adjacency>>)
  {
    forall x, d :: x in adj && d in adj[x] ==> RowsNonNegative(adj[x][d])
  }

  /** Every synapse weight in the state is non-negative. */
  predicate WeightsNonNegative(w: World)
  {
    AdjNonNegative(w.areaAdj) && AdjNonNegative(w.stimAdj)
  }

  lemma StoreNonNegative(adj: map<string, map<string, Adjacency>>, x: string, d: string, rows: Adjacency)
    requires AdjNonNegative(adj) && x in adj && RowsNonNegative(rows)
    ensures AdjNonNegative(adj[x := adj[x][d := rows]])
  {
  }

  /** A default beta and every override are at least -1, so every factor 1 + beta is at least 0. */
  predicate BetasAtLeastMinusOne(custom: map<string, real>, fallback: real)
  {
    fallback >= -1.0 && forall d :: d in custom ==> custom[d] >= -1.0
  }

  /** Every entity's plasticity factors are non-negative. */
  predicate FactorsNonNegative(L: Layout)
  {
    && (forall a :: a in L.areas ==> BetasAtLeastMinusOne(L.areas[a].custom, L.areas[a].fallback))
    && (forall s :: s in L.stims ==> BetasAtLeastMinusOne(L.stims[s].custom, L.stims[s].fallback))
  }

  /** A stimulus step keeps weights non-negative: existing synapses are kept, fresh ones weigh 1. */
  lemma StimProjectNonNegative(w: World, L: Layout, s: string, d: string, coin: Coin)
    requires Keyed(w, L) && s in L.stims && d in L.areas && WeightsNonNegative(w)
    ensures WeightsNonNegative(StimProject(w, L, s, d, coin))
  {
    GeneratedShape(L.stims[s].k, L.areas[d].n, coin);
  }

  /** An area step keeps weights non-negative: existing synapses are kept, fresh ones weigh 1. */
  lemma AreaProjectNonNegative(w: World, L: Layout, a: string, d: string, coin: Coin)
    requires Keyed(w, L) && a in L.areas && d in L.areas && WeightsNonNegative(w)
    ensures WeightsNonNegative(AreaProject(w, L, a, d, coin))
  {
    GeneratedShape(L.areas[a].n, L.areas[d].n, coin);
  }

  /** A stimulus plasticity step with a non-negative factor keeps weights non-negative. */
  lemma StimReinforceNonNegative(w: World, L: Layout, s: string, d: string)
    requires Keyed(w, L) && s in L.stims && d in L.areas && WeightsNonNegative(w) && FactorsNonNegative(L)
    ensures WeightsNonNegative(StimReinforce(w, L, s, d))
  {
    if d in w.stimAdj[s] {
      var shape := L.stims[s];
      assert BetasAtLeastMinusOne(shape.custom, shape.fallback);
      var rows := w.stimAdj[s][d];
      var r := ReinforcedRows(rows, Range(shape.k), w.wins[d], Factor(shape.custom, shape.fallback, d));
      assert RowsNonNegative(rows);
      assert RowsNonNegative(r) by {
        forall v | 0 <= v < |r| ensures NonNegative(r[v]) {
          assert NonNegative(rows[v]);
        }
      }
      StoreNonNegative(w.stimAdj, s, d, r);
    }
  }

  /** An area plasticity step with a non-negative factor keeps weights non-negative. */
  lemma AreaReinforceNonNegative(w: World, L: Layout, a: string, d: string)
    requires Keyed(w, L) && a in L.areas && d in L.areas && WeightsNonNegative(w) && FactorsNonNegative(L)
    ensures WeightsNonNegative(AreaReinforce(w, L, a, d))
  {
    if d in w.areaAdj[a] {
      var shape := L.areas[a];
      assert BetasAtLeastMinusOne(shape.custom, shape.fallback);
      var rows := w.areaAdj[a][d];
      var r := ReinforcedRows(rows, w.wins[a], w.wins[d], Factor(shape.custom, shape.fallback, d));
      assert RowsNonNegative(rows);
      assert RowsNonNegative(r) by {
        forall v | 0 <= v < |r| ensures NonNegative(r[v]) {
          assert NonNegative(rows[v]);
        }
      }
      StoreNonNegative(w.areaAdj, a, d, r);
    }
  }

  lemma {:induction false} StimPhaseNonNegative(w: World, L: Layout, pairs: seq<(string, string)>, coins: (string, string) -> Coin)
    requires Keyed(w, L) && Known(pairs, L.stims.Keys, L) && WeightsNonNegative(w)
    ensures WeightsNonNegative(StimPhase(w, L, pairs, coins))
    decreases |pairs|
  {
    if pairs != [] {
      var last := pairs[|pairs| - 1];
      KnownPrefix(pairs, |pairs| - 1, L.stims.Keys, L);
      StimPhaseNonNegative(w, L, pairs[..|pairs| - 1], coins);
      StimProjectNonNegative(StimPhase(w, L, pairs[..|pairs| - 1], coins), L, last.0, last.1, coins(last.0, last.1));
    }
  }

  lemma {:induction false} AreaPhaseNonNegative(w: World, L: Layout, pairs: seq<(string, string)>, coins: (string, string) -> Coin)
    requires Keyed(w, L) && Known(pairs, L.areas.Keys, L) && WeightsNonNegative(w)
    ensures WeightsNonNegative(AreaPhase(w, L, pairs, coins))
    decreases |pairs|
  {
    if pairs != [] {
      var last := pairs[|pairs| - 1];
      KnownPrefix(pairs, |pairs| - 1, L.areas.Keys, L);
      AreaPhaseNonNegative(w, L, pairs[..|pairs| - 1], coins);
      AreaProjectNonNegative(AreaPhase(w, L, pairs[..|pairs| - 1], coins), L, last.0, last.1, coins(last.0, last.1));
    }
  }

  lemma {:induction false} StimReinforcePhaseNonNegative(w: World, L: Layout, pairs: seq<(string, string)>)
    requires Keyed(w, L) && Known(pairs, L.stims.Keys, L) && WeightsNonNegative(w) && FactorsNonNegative(L)
    ensures WeightsNonNegative(StimReinforcePhase(w, L, pairs))
    decreases |pairs|
  {
    if pairs != [] {
      var last := pairs[|pairs| - 1];
      KnownPrefix(pairs, |pairs| - 1, L.stims.Keys, L);
      StimReinforcePhaseNonNegative(w, L, pairs[..|pairs| - 1]);
      StimReinforceNonNegative(StimReinforcePhase(w, L, pairs[..|pairs| - 1]), L, last.0, last.1);
    }
  }

  lemma {:induction false} AreaReinforcePhaseNonNegative(w: World, L: Layout, pairs: seq<(string, string)>)
    requires Keyed(w, L) && Known(pairs, L.areas.Keys, L) && WeightsNonNegative(w) && FactorsNonNegative(L)
    ensures WeightsNonNegative(AreaReinforcePhase(w, L, pairs))
    decreases |pairs|
  {
    if pairs != [] {
      var last := pairs[|pairs| - 1];
      KnownPrefix(pairs, |pairs| - 1, L.areas.Keys, L);
      AreaReinforcePhaseNonNegative(w, L, pairs[..|pairs| - 1]);
      AreaReinforceNonNegative(AreaReinforcePhase(w, L, pairs[..|pairs| - 1]), L, last.0, last.1);
    }
  }

  /**
    A round with every beta at least -1 keeps every weight non-negative, so
    the exact-once plasticity statement (ReinforcedExactlyWinners) applies to
    every synapse in every later round.
   */
  lemma ProjectKeepsNonNegative(w: World, L: Layout, stimPairs: seq<(string, string)>, areaPairs: seq<(string, string)>,
                                stimCoins: (string, string) -> Coin, areaCoins: (string, string) -> Coin)
    requires Keyed(w, L) && Known(stimPairs, L.stims.Keys, L) && Known(areaPairs, L.areas.Keys, L)
    requires WeightsNonNegative(w) && FactorsNonNegative(L)
    ensures WeightsNonNegative(Project(w, L, stimPairs, areaPairs, stimCoins, areaCoins))
  {
    var dests := Destinations(stimPairs, areaPairs);
    var reset := Reset(w, L, dests);
    StimPhaseNonNegative(reset, L, stimPairs, stimCoins);
    var stimFired := StimPhase(reset, L, stimPairs, stimCoins);
    AreaPhaseNonNegative(stimFired, L, areaPairs, areaCoins);
    var chosen := Recompute(Fired(w, L, stimPairs, areaPairs, stimCoins, areaCoins), L, dests);
    StimReinforcePhaseNonNegative(chosen, L, stimPairs);
    AreaReinforcePhaseNonNegative(StimReinforcePhase(chosen, L, stimPairs), L, areaPairs);
  }
}
