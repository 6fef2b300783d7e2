/**
  The registry (class Brain): at most one area and one stimulus per name,
  and the synchronized projection round that drives them.
 */
module Registry {
  import opened Wrappers
  import opened Names
  import opened Synapses
  import opened Selection
  import opened Entities
  import opened Round

  /** A projection request as a std::map iterates it: sources in ascending name order. */
  predicate RequestOrdered(req: seq<(string, seq<string>)>)
  {
    forall i, j :: 0 <= i < j < |req| ==> NameLess(req[i].0, req[j].0)
  }

  /** Every source and every destination of a request is registered. */
  predicate Resolvable(req: seq<(string, seq<string>)>, sources: set<string>, areaNames: set<string>)
  {
    forall i :: 0 <= i < |req| ==>
      req[i].0 in sources && forall j :: 0 <= j < |req[i].1| ==> req[i].1[j] in areaNames
  }

  /** One source with each of its destinations, in list order. */
  function Fan(src: string, dests: seq<string>): seq<(string, string)>
  {
    seq(|dests|, j requires 0 <= j < |dests| => (src, dests[j]))
  }

  /** The (source, destination) pairs of a request, in the order the round visits them. */
  function Pairs(req: seq<(string, seq<string>)>): seq<(string, string)>
    decreases |req|
  {
    if req == [] then [] else Pairs(req[..|req| - 1]) + Fan(req[|req| - 1].0, req[|req| - 1].1)
  }

  /** A request whose names all resolve yields pairs of registered names, and only those. */
  lemma {:induction false} ResolvableKnown(req: seq<(string, seq<string>)>, sources: set<string>, L: Layout)
    requires Resolvable(req, sources, L.areas.Keys)
    ensures Known(Pairs(req), sources, L)
    decreases |req|
  {
    if req != [] {
      var init := req[..|req| - 1];
      assert Resolvable(init, sources, L.areas.Keys) by {
        forall i | 0 <= i < |init|
          ensures init[i] == req[i]
        {
        }
      }
      ResolvableKnown(init, sources, L);
      var fan := Fan(req[|req| - 1].0, req[|req| - 1].1);
      var pairs := Pairs(req);
      assert pairs == Pairs(init) + fan;
      forall t | 0 <= t < |pairs|
        ensures pairs[t].0 in sources && pairs[t].1 in L.areas
      {
        if t >= |Pairs(init)| {
          assert pairs[t] == fan[t - |Pairs(init)|];
        } else {
          assert pairs[t] == Pairs(init)[t];
        }
      }
    }
  }

  /**
    The destination list of a round: every destination named by any pair,
    sorted by name with repeats removed, so that each is reset and
    recomputed exactly once.
   */
  method CollectDestinations(stimPairs: seq<(string, string)>, areaPairs: seq<(string, string)>) returns (dests: seq<string>)
    ensures NamesAscending(dests)
    ensures forall x :: x in dests <==> x in Destinations(stimPairs, areaPairs)
  {
    var all := stimPairs + areaPairs;
    dests := [];
    for t := 0 to |all|
      invariant NamesAscending(dests)
      invariant forall x :: x in dests <==> exists u :: 0 <= u < t && all[u].1 == x
    {
      InsertAscending(dests, all[t].1);
      dests := Insert(dests, all[t].1);
    }
    forall x
      ensures x in dests <==> x in Destinations(stimPairs, areaPairs)
    {
      if x in Destinations(stimPairs, areaPairs) {
        if exists u :: 0 <= u < |stimPairs| && stimPairs[u].1 == x {
          var u :| 0 <= u < |stimPairs| && stimPairs[u].1 == x;
          assert all[u].1 == x;
        } else {
          var u :| 0 <= u < |areaPairs| && areaPairs[u].1 == x;
          assert all[|stimPairs| + u].1 == x;
        }
      }
      if x in dests {
        var u :| 0 <= u < |all| && all[u].1 == x;
        if u < |stimPairs| {
          assert stimPairs[u].1 == x;
        } else {
          assert areaPairs[u - |stimPairs|].1 == x;
        }
      }
    }
  }

  /** Every synapse map points at registered areas, with targets inside them. */
  predicate Fitting(areas: map<string, Area>, adj: map<string, Adjacency>)
  {
    forall d :: d in adj ==> d in areas && RowsFit(adj[d], areas[d].n)
  }
  class Brain {
    var areas: map<string, Area>
    var stimuli: map<string, Stimulus>
    /** The objects the registry owns: what its predicates read and its rounds change. */
    ghost var areaObjs: set<Area>
    ghost var stimObjs: set<Stimulus>

    /** Every registered entity is one of the registry's own objects. */
    ghost predicate Registered()
      reads this
    {
      && (forall a :: a in areas ==> areas[a] in areaObjs)
      && (forall s :: s in stimuli ==> stimuli[s] in stimObjs)
    }

    /** The area registered under a is named a, keeps its invariants and points at registered areas. */
    ghost predicate AreaFine(a: string)
      reads this, if a in areas then {areas[a]} else {}
    {
      a in areas && areas[a].name == a && areas[a].Valid() && Fitting(areas, areas[a].adj)
    }

    /** The stimulus registered under s is named s, keeps its invariants and points at registered areas. */
    ghost predicate StimFine(s: string)
      reads this, if s in stimuli then {stimuli[s]} else {}
    {
      s in stimuli && stimuli[s].name == s && stimuli[s].Valid() && Fitting(areas, stimuli[s].adj)
    }

    /**
      Each entity is registered under its own name and keeps its
      invariants, and every synapse map points at registered areas with
      targets inside them.
     */
    ghost predicate Valid()
      reads this, areaObjs, stimObjs
    {
      && Registered()
      && (forall a {:trigger AreaFine(a)} :: a in areas ==> AreaFine(a))
      && (forall s {:trigger StimFine(s)} :: s in stimuli ==> StimFine(s))
    }

    /** What a round reads: sizes and plasticity parameters, by name. */
    function Shape(): Layout
      requires Registered()
      reads this, areaObjs`customBetas, areaObjs`defaultBeta
      reads stimObjs`customBetas, stimObjs`defaultBeta
    {
      Layout(
        map a | a in areas :: AreaShape(areas[a].n, areas[a].k, areas[a].customBetas, areas[a].defaultBeta),
        map s | s in stimuli :: StimShape(stimuli[s].k, stimuli[s].customBetas, stimuli[s].defaultBeta))
    }

    /** What a round changes. */
    function Snapshot(): World
      requires Registered()
      reads this, areaObjs`activations, areaObjs`winners, areaObjs`adj, stimObjs`adj
    {
      World(
        map a | a in areas :: areas[a].activations,
        map a | a in areas :: areas[a].winners,
        map a | a in areas :: areas[a].adj,
        map s | s in stimuli :: stimuli[s].adj)
    }

    /** A valid registry satisfies the invariants the round is proved to keep. */
    lemma ValidWorld()
      requires Valid()
      ensures WorldOk(Snapshot(), Shape())
    {
      var w, L := Snapshot(), Shape();
      forall a | a in L.areas
        ensures AreaOk(L, a, w.acts[a], w.wins[a], w.areaAdj[a])
      {
        assert AreaFine(a);
      }
      forall s | s in L.stims
        ensures StimOk(L, s, w.stimAdj[s])
      {
        assert StimFine(s);
      }
    }

    constructor ()
      ensures areas == map[] && stimuli == map[]
      ensures areaObjs == {} && stimObjs == {}
      ensures Valid()
    {
      areas := map[];
      stimuli := map[];
      areaObjs := {};
      stimObjs := {};
    }

    function GetArea(name: string): (r: Option<Area>)
      reads this
      ensures r.Some? <==> name in areas
      ensures r.Some? ==> r.value == areas[name]
    {
      if name in areas then Some(areas[name]) else None
    }

    function GetStimulus(name: string): (r: Option<Stimulus>)
      reads this
      ensures r.Some? <==> name in stimuli
      ensures r.Some? ==> r.value == stimuli[name]
    {
      if name in stimuli then Some(stimuli[name]) else None
    }

    /**
      add_area: a new name registers a fresh area; a taken name changes
      nothing and answers the area already registered under it.
     */
    method AddArea(name: string, n: nat, k: nat, defaultBeta: real) returns (area: Area)
      requires Valid()
      modifies this
      ensures Valid()
      ensures GetArea(name) == Some(area)
      ensures stimuli == old(stimuli) && stimObjs == old(stimObjs)
      ensures areaObjs == old(areaObjs) + (if name in old(areas) then {} else {area})
      ensures name in old(areas) ==> areas == old(areas)
      ensures name !in old(areas) ==> areas == old(areas)[name := area] && fresh(area)
      ensures name !in old(areas) ==>
        area.n == n && area.k == k && area.defaultBeta == defaultBeta && area.customBetas == map[] &&
        area.adj == map[] && area.saved == map[] && area.winners == [] && area.activations == Zeros(n)
    {
      if name in areas {
        area := areas[name];
      } else {
        area := new Area(name, n, k, defaultBeta);
        areas := areas[name := area];
        areaObjs := areaObjs + {area};
        forall a | a in areas
          ensures AreaFine(a)
        {
          if a != name {
            assert old(AreaFine(a));
          }
        }
        forall s | s in stimuli
          ensures StimFine(s)
        {
          assert old(StimFine(s));
        }
      }
    }

    /**
      add_stimulus: a new name registers a fresh stimulus; a taken name
      changes nothing and answers the stimulus already registered under it.
     */
    method AddStimulus(name: string, k: nat, defaultBeta: real) returns (stim: Stimulus)
      requires Valid()
      modifies this
      ensures Valid()
      ensures GetStimulus(name) == Some(stim)
      ensures areas == old(areas) && areaObjs == old(areaObjs)
      ensures stimObjs == old(stimObjs) + (if name in old(stimuli) then {} else {stim})
      ensures name in old(stimuli) ==> stimuli == old(stimuli)
      ensures name !in old(stimuli) ==> stimuli == old(stimuli)[name := stim] && fresh(stim)
      ensures name !in old(stimuli) ==>
        stim.k == k && stim.defaultBeta == defaultBeta && stim.customBetas == map[] && stim.adj == map[]
    {
      if name in stimuli {
        stim := stimuli[name];
      } else {
        stim := new Stimulus(name, k, defaultBeta);
        stimuli := stimuli[name := stim];
        stimObjs := stimObjs + {stim};
        forall a | a in areas
          ensures AreaFine(a)
        {
          assert old(AreaFine(a));
        }
        forall s | s in stimuli
          ensures StimFine(s)
        {
          if s != name {
            assert old(StimFine(s));
          }
        }
      }
    }

    /** L records every registered entity's size and plasticity parameters. */
    ghost predicate Describes(L: Layout)
      requires Registered()
      reads this, areaObjs`customBetas, areaObjs`defaultBeta, stimObjs`customBetas, stimObjs`defaultBeta
    {
      && L.areas.Keys == areas.Keys && L.stims.Keys == stimuli.Keys
      && (forall a :: a in areas ==> AreaShapeAt(L, a))
      && (forall s :: s in stimuli ==> StimShapeAt(L, s))
    }

    /** Area a's entry in L records its sizes and plasticity settings. */
    ghost predicate AreaShapeAt(L: Layout, a: string)
      reads this, (if a in areas then {areas[a]} else {})`customBetas, (if a in areas then {areas[a]} else {})`defaultBeta
    {
      a in areas && a in L.areas ==>
        L.areas[a] == AreaShape(areas[a].n, areas[a].k, areas[a].customBetas, areas[a].defaultBeta)
    }

    /** Stimulus s's entry in L records its size and plasticity settings. */
    ghost predicate StimShapeAt(L: Layout, s: string)
      reads this, (if s in stimuli then {stimuli[s]} else {})`customBetas, (if s in stimuli then {stimuli[s]} else {})`defaultBeta
    {
      s in stimuli && s in L.stims ==>
        L.stims[s] == StimShape(stimuli[s].k, stimuli[s].customBetas, stimuli[s].defaultBeta)
    }

    /** Area a's activations are the ones acts records for it. */
    ghost predicate ActsAt(acts: map<string, seq<real>>, a: string)
      reads this, (if a in areas then {areas[a]} else {})`activations
    {
      a in areas && a in acts && areas[a].activations == acts[a]
    }

    /** Area a's winners are the ones wins records for it. */
    ghost predicate WinsAt(wins: map<string, seq<nat>>, a: string)
      reads this, (if a in areas then {areas[a]} else {})`winners
    {
      a in areas && a in wins && areas[a].winners == wins[a]
    }

    /** Area a's synapses are the ones areaAdj records for it. */
    ghost predicate AreaAdjAt(areaAdj: map<string, map<string, Adjacency>>, a: string)
      reads this, (if a in areas then {areas[a]} else {})`adj
    {
      a in areas && a in areaAdj && areas[a].adj == areaAdj[a]
    }

    /** Stimulus s's synapses are the ones stimAdj records for it. */
    ghost predicate StimAdjAt(stimAdj: map<string, map<string, Adjacency>>, s: string)
      reads this, (if s in stimuli then {stimuli[s]} else {})`adj
    {
      s in stimuli && s in stimAdj && stimuli[s].adj == stimAdj[s]
    }

    /** Every area's activations are the ones acts records for it. */
    ghost predicate ActsHeld(acts: map<string, seq<real>>)
      requires Registered()
      reads this, areaObjs`activations
    {
      forall a {:trigger ActsAt(acts, a)} :: a in areas ==> ActsAt(acts, a)
    }

    /** Every area's winners are the ones wins records for it. */
    ghost predicate WinsHeld(wins: map<string, seq<nat>>)
      requires Registered()
      reads this, areaObjs`winners
    {
      forall a {:trigger WinsAt(wins, a)} :: a in areas ==> WinsAt(wins, a)
    }

    /** Every area's synapses are the ones areaAdj records for it. */
    ghost predicate AreaAdjHeld(areaAdj: map<string, map<string, Adjacency>>)
      requires Registered()
      reads this, areaObjs`adj
    {
      forall a {:trigger AreaAdjAt(areaAdj, a)} :: a in areas ==> AreaAdjAt(areaAdj, a)
    }

    /** Every stimulus's synapses are the ones stimAdj records for it. */
    ghost predicate StimAdjHeld(stimAdj: map<string, map<string, Adjacency>>)
      requires Registered()
      reads this, stimObjs`adj
    {
      forall s {:trigger StimAdjAt(stimAdj, s)} :: s in stimuli ==> StimAdjAt(stimAdj, s)
    }

    /**
      The registry is valid, L records its shapes and w records, entity by
      entity, exactly what it holds.
     */
    ghost predicate Holds(w: World, L: Layout)
      reads this, areaObjs, stimObjs
    {
      && Valid() && Describes(L) && Keyed(w, L)
      && ActsHeld(w.acts) && WinsHeld(w.wins) && AreaAdjHeld(w.areaAdj) && StimAdjHeld(w.stimAdj)
    }

    /** reset_activations on one registered area. */
    method ResetOne(ghost acts: map<string, seq<real>>, ghost n: nat, d: string, area: Area)
      requires Valid() && d in areas && areas[d] == area && area.n == n && ActsHeld(acts)
      modifies area`activations
      ensures Valid()
      ensures ActsHeld(acts[d := Zeros(n)])
    {
      assert AreaFine(d);
      area.ResetActivations();
      forall a | a in areas
        ensures AreaFine(a) && ActsAt(acts[d := Zeros(n)], a)
      {
        assert old(AreaFine(a)) && old(ActsAt(acts, a));
      }
      forall s | s in stimuli
        ensures StimFine(s)
      {
        assert old(StimFine(s));
      }
    }

    /** Phase 1: each listed destination is reset, once. */
    method ResetPhase(ghost w: World, ghost L: Layout, dests: seq<string>)
      requires Valid() && Describes(L) && Keyed(w, L) && ActsHeld(w.acts)
      requires forall t :: 0 <= t < |dests| ==> dests[t] in areas
      modifies areaObjs`activations
      ensures Valid()
      ensures ActsHeld(ResetActs(w.acts, L, Elems(dests)))
    {
      forall a | a in areas
        ensures ActsAt(ResetActs(w.acts, L, Elems(dests[..0])), a)
      {
        assert ActsAt(w.acts, a);
      }
      for t := 0 to |dests|
        invariant Valid()
        invariant ActsHeld(ResetActs(w.acts, L, Elems(dests[..t])))
      {
        var d := dests[t];
        ResetOne(ResetActs(w.acts, L, Elems(dests[..t])), L.areas[d].n, d, areas[d]);
        ResetActsSnoc(w.acts, L, dests, t);
      }
      assert dests[..|dests|] == dests;
    }

    /**
      stim.project_into(dest) for one registered pair: only dest's
      activations and stim's synapses toward dest change.
     */
    method StimFireStep(ghost w: World, s: string, stim: Stimulus, d: string, dest: Area, coin: Coin)
      requires Valid() && s in stimuli && stimuli[s] == stim && d in areas && areas[d] == dest
      requires ActsHeld(w.acts) && StimAdjHeld(w.stimAdj) && s in w.stimAdj && d in w.acts
      modifies stim`adj, dest`activations
      ensures Valid()
      ensures ActsHeld(w.acts[d := dest.activations]) && StimAdjHeld(w.stimAdj[s := stim.adj])
      ensures stim.adj == w.stimAdj[s][d := Connection(w.stimAdj[s], d, stim.k, dest.n, coin)]
      ensures |stim.adj[d]| == stim.k && RowsFit(stim.adj[d], dest.n) && |w.acts[d]| == dest.n
      ensures dest.activations == Fire(w.acts[d], stim.adj[d], Range(stim.k))
    {
      assert AreaFine(d) && StimFine(s) && ActsAt(w.acts, d) && StimAdjAt(w.stimAdj, s);
      stim.ProjectInto(dest, coin);
      forall a | a in areas
        ensures AreaFine(a) && ActsAt(w.acts[d := dest.activations], a)
      {
        assert old(AreaFine(a)) && old(ActsAt(w.acts, a));
      }
      forall x | x in stimuli
        ensures StimFine(x) && StimAdjAt(w.stimAdj[s := stim.adj], x)
      {
        assert old(StimFine(x)) && old(StimAdjAt(w.stimAdj, x));
      }
    }

    /**
      A registry that held w before a stimulus step from s into d holds the
      round's stimulus step afterwards.
     */
    lemma StimStepHeld(w: World, L: Layout, s: string, d: string, coin: Coin, acts: map<string, seq<real>>, adj: map<string, map<string, Adjacency>>)
      requires Registered() && Keyed(w, L) && s in L.stims && d in L.areas && s in stimuli && d in areas
      requires L.stims[s].k == stimuli[s].k && L.areas[d].n == areas[d].n
      requires acts == w.acts[d := areas[d].activations] && adj == w.stimAdj[s := stimuli[s].adj]
      requires stimuli[s].adj == w.stimAdj[s][d := Connection(w.stimAdj[s], d, stimuli[s].k, areas[d].n, coin)]
      requires |stimuli[s].adj[d]| == stimuli[s].k && RowsFit(stimuli[s].adj[d], areas[d].n) && |w.acts[d]| == areas[d].n
      requires areas[d].activations == Fire(w.acts[d], stimuli[s].adj[d], Range(stimuli[s].k))
      ensures StimProject(w, L, s, d, coin).acts == acts
      ensures StimProject(w, L, s, d, coin).stimAdj == adj
    {
      StimProjectFires(w, L, s, d, coin, stimuli[s].adj, areas[d].activations);
    }

    /** The round's stimulus step, carried out on the registered entities. */
    method StimFire(ghost w: World, ghost L: Layout, s: string, stim: Stimulus, d: string, dest: Area, coin: Coin)
      requires Valid() && s in stimuli && stimuli[s] == stim && d in areas && areas[d] == dest
      requires Describes(L) && Keyed(w, L) && ActsHeld(w.acts) && StimAdjHeld(w.stimAdj)
      modifies stim`adj, dest`activations
      ensures Valid() && Describes(L)
      ensures ActsHeld(StimProject(w, L, s, d, coin).acts)
      ensures StimAdjHeld(StimProject(w, L, s, d, coin).stimAdj)
    {
      assert StimShapeAt(L, s) && AreaShapeAt(L, d);
      StimFireStep(w, s, stim, d, dest, coin);
      forall x | x in areas
        ensures AreaShapeAt(L, x)
      {
        assert old(AreaShapeAt(L, x));
      }
      forall x | x in stimuli
        ensures StimShapeAt(L, x)
      {
        assert old(StimShapeAt(L, x));
      }
      StimStepHeld(w, L, s, d, coin, w.acts[d := dest.activations], w.stimAdj[s := stim.adj]);
    }

    /** Phase 2: every stimulus pair fires, in request order. */
    method StimFirePhase(ghost w: World, ghost L: Layout, pairs: seq<(string, string)>, coins: (string, string) -> Coin)
      requires Valid() && Describes(L) && Keyed(w, L) && Known(pairs, L.stims.Keys, L)
      requires ActsHeld(w.acts) && StimAdjHeld(w.stimAdj)
      modifies stimObjs`adj, areaObjs`activations
      ensures Valid()
      ensures ActsHeld(StimPhase(w, L, pairs, coins).acts)
      ensures StimAdjHeld(StimPhase(w, L, pairs, coins).stimAdj)
    {
      for t := 0 to |pairs|
        invariant Valid() && Describes(L)
        invariant Known(pairs[..t], L.stims.Keys, L)
        invariant ActsHeld(StimPhase(w, L, pairs[..t], coins).acts)
        invariant StimAdjHeld(StimPhase(w, L, pairs[..t], coins).stimAdj)
      {
        var (s, d) := pairs[t];
        StimPhaseSnoc(w, L, pairs, t, coins);
        StimFire(StimPhase(w, L, pairs[..t], coins), L, s, stimuli[s], d, areas[d], coins(s, d));
      }
      assert pairs[..|pairs|] == pairs;
    }

    /**
      source.project_into(dest) for one registered pair (dest may be the
      source itself): only dest's activations and the source's synapses
      toward dest change, and the source fires the winners it already had.
     */
    method AreaFireStep(ghost w: World, a: string, src: Area, d: string, dest: Area, coin: Coin)
      requires Valid() && a in areas && areas[a] == src && d in areas && areas[d] == dest
      requires ActsHeld(w.acts) && WinsHeld(w.wins) && AreaAdjHeld(w.areaAdj)
      requires a in w.areaAdj && a in w.wins && d in w.acts
      modifies src`adj, dest`activations
      ensures Valid()
      ensures ActsHeld(w.acts[d := dest.activations]) && WinsHeld(w.wins) && AreaAdjHeld(w.areaAdj[a := src.adj])
      ensures src.adj == w.areaAdj[a][d := Connection(w.areaAdj[a], d, src.n, dest.n, coin)]
      ensures Fires(src.adj[d], w.wins[a]) && RowsFit(src.adj[d], dest.n) && |w.acts[d]| == dest.n
      ensures dest.activations == Fire(w.acts[d], src.adj[d], w.wins[a])
    {
      assert AreaFine(d) && AreaFine(a) && ActsAt(w.acts, d) && WinsAt(w.wins, a) && AreaAdjAt(w.areaAdj, a);
      src.ProjectInto(dest, coin);
      forall x | x in areas
        ensures AreaFine(x) && ActsAt(w.acts[d := dest.activations], x)
        ensures WinsAt(w.wins, x) && AreaAdjAt(w.areaAdj[a := src.adj], x)
      {
        assert old(AreaFine(x)) && old(ActsAt(w.acts, x)) && old(WinsAt(w.wins, x)) && old(AreaAdjAt(w.areaAdj, x));
      }
      forall x | x in stimuli
        ensures StimFine(x)
      {
        assert old(StimFine(x));
      }
    }

    /**
      A registry that held w before an area step from a into d holds the
      round's area step afterwards.
     */
    lemma AreaStepHeld(w: World, L: Layout, a: string, d: string, coin: Coin, acts: map<string, seq<real>>, adj: map<string, map<string, Adjacency>>)
      requires Registered() && Keyed(w, L) && a in L.areas && d in L.areas && a in areas && d in areas
      requires L.areas[a].n == areas[a].n && L.areas[d].n == areas[d].n
      requires acts == w.acts[d := areas[d].activations] && adj == w.areaAdj[a := areas[a].adj]
      requires areas[a].adj == w.areaAdj[a][d := Connection(w.areaAdj[a], d, areas[a].n, areas[d].n, coin)]
      requires Fires(areas[a].adj[d], w.wins[a]) && RowsFit(areas[a].adj[d], areas[d].n) && |w.acts[d]| == areas[d].n
      requires areas[d].activations == Fire(w.acts[d], areas[a].adj[d], w.wins[a])
      ensures AreaProject(w, L, a, d, coin).acts == acts
      ensures AreaProject(w, L, a, d, coin).areaAdj == adj
    {
      AreaProjectFires(w, L, a, d, coin, areas[a].adj, areas[d].activations);
    }

    /** The round's area step, carried out on the registered entities. */
    method AreaFire(ghost w: World, ghost L: Layout, a: string, src: Area, d: string, dest: Area, coin: Coin)
      requires Valid() && a in areas && areas[a] == src && d in areas && areas[d] == dest
      requires Describes(L) && Keyed(w, L) && ActsHeld(w.acts) && WinsHeld(w.wins) && AreaAdjHeld(w.areaAdj)
      modifies src`adj, dest`activations
      ensures Valid() && Describes(L)
      ensures ActsHeld(AreaProject(w, L, a, d, coin).acts) && WinsHeld(w.wins)
      ensures AreaAdjHeld(AreaProject(w, L, a, d, coin).areaAdj)
    {
      assert AreaShapeAt(L, a) && AreaShapeAt(L, d);
      AreaFireStep(w, a, src, d, dest, coin);
      forall x | x in areas
        ensures AreaShapeAt(L, x)
      {
        assert old(AreaShapeAt(L, x));
      }
      forall x | x in stimuli
        ensures StimShapeAt(L, x)
      {
        assert old(StimShapeAt(L, x));
      }
      AreaStepHeld(w, L, a, d, coin, w.acts[d := dest.activations], w.areaAdj[a := src.adj]);
    }

    /** Phase 3: every area pair fires, in request order. */
    method AreaFirePhase(ghost w: World, ghost L: Layout, pairs: seq<(string, string)>, coins: (string, string) -> Coin)
      requires Valid() && Describes(L) && Keyed(w, L) && Known(pairs, L.areas.Keys, L)
      requires ActsHeld(w.acts) && WinsHeld(w.wins) && AreaAdjHeld(w.areaAdj)
      modifies areaObjs`adj, areaObjs`activations
      ensures Valid()
      ensures ActsHeld(AreaPhase(w, L, pairs, coins).acts)
      ensures AreaAdjHeld(AreaPhase(w, L, pairs, coins).areaAdj)
    {
      for t := 0 to |pairs|
        invariant Valid() && Describes(L) && WinsHeld(w.wins)
        invariant Known(pairs[..t], L.areas.Keys, L)
        invariant ActsHeld(AreaPhase(w, L, pairs[..t], coins).acts)
        invariant AreaAdjHeld(AreaPhase(w, L, pairs[..t], coins).areaAdj)
      {
        var (a, d) := pairs[t];
        AreaPhaseSnoc(w, L, pairs, t, coins);
        AreaFire(AreaPhase(w, L, pairs[..t], coins), L, a, areas[a], d, areas[d], coins(a, d));
      }
      assert pairs[..|pairs|] == pairs;
    }

    /** recalculate_winners on one registered destination; every activation stays as it was. */
    method RecomputeOne(ghost acts: map<string, seq<real>>, ghost wins: map<string, seq<nat>>, d: string, area: Area)
      requires Valid() && d in areas && areas[d] == area && area.k <= area.n
      requires ActsHeld(acts) && WinsHeld(wins) && d in acts
      modifies area`winners
      ensures Valid() && ActsHeld(acts)
      ensures WinsHeld(wins[d := TopK(acts[d], area.k)])
    {
      assert AreaFine(d) && ActsAt(acts, d);
      area.RecalculateWinners();
      forall x | x in areas
        ensures AreaFine(x) && ActsAt(acts, x) && WinsAt(wins[d := TopK(acts[d], area.k)], x)
      {
        assert old(AreaFine(x)) && old(ActsAt(acts, x)) && old(WinsAt(wins, x));
      }
      forall x | x in stimuli
        ensures StimFine(x)
      {
        assert old(StimFine(x));
      }
    }

    /** Phase 4: each destination of the list picks its winners from its accumulated activations. */
    method RecomputePhase(ghost w: World, ghost L: Layout, dests: seq<string>)
      requires Valid() && Describes(L) && Keyed(w, L) && ActsHeld(w.acts) && WinsHeld(w.wins)
      requires forall t :: 0 <= t < |dests| ==> dests[t] in areas && areas[dests[t]].k <= areas[dests[t]].n
      modifies areaObjs`winners
      ensures Valid() && ActsHeld(w.acts)
      ensures WinsHeld(Recompute(w, L, Elems(dests)).wins)
    {
      forall a | a in areas
        ensures WinsAt(Recompute(w, L, Elems(dests[..0])).wins, a)
      {
        assert WinsAt(w.wins, a);
      }
      for t := 0 to |dests|
        invariant Valid() && ActsHeld(w.acts)
        invariant WinsHeld(Recompute(w, L, Elems(dests[..t])).wins)
      {
        var d := dests[t];
        RecomputeOne(w.acts, Recompute(w, L, Elems(dests[..t])).wins, d, areas[d]);
        RecomputeSnoc(w, L, dests, t);
      }
      assert dests[..|dests|] == dests;
    }

    /** stim.update_plasticities(dest) for one registered pair whose synapses exist. */
    method StimLearnStep(ghost w: World, s: string, stim: Stimulus, d: string, dest: Area)
      requires Valid() && s in stimuli && stimuli[s] == stim && d in areas && areas[d] == dest
      requires WinsHeld(w.wins) && StimAdjHeld(w.stimAdj) && d in stim.adj
      modifies stim`adj
      ensures Valid() && WinsHeld(w.wins) && StimAdjHeld(w.stimAdj[s := stim.adj])
      ensures dest.name == d
      ensures stim.adj == old(stim.adj)[dest.name := ReinforcedRows(old(stim.adj)[dest.name], Range(stim.k), dest.winners, 1.0 + stim.GetBeta(dest.name))]
    {
      assert AreaFine(d) && StimFine(s) && WinsAt(w.wins, d) && StimAdjAt(w.stimAdj, s);
      stim.UpdatePlasticities(dest);
      forall x | x in areas
        ensures AreaFine(x) && WinsAt(w.wins, x)
      {
        assert old(AreaFine(x)) && old(WinsAt(w.wins, x));
      }
      forall x | x in stimuli
        ensures StimFine(x) && StimAdjAt(w.stimAdj[s := stim.adj], x)
      {
        assert old(StimFine(x)) && old(StimAdjAt(w.stimAdj, x));
      }
    }

    /** The round's stimulus reinforcement, carried out on the registered entities. */
    method StimLearn(ghost w: World, ghost L: Layout, s: string, stim: Stimulus, d: string, dest: Area)
      requires Valid() && s in stimuli && stimuli[s] == stim && d in areas && areas[d] == dest
      requires Describes(L) && Keyed(w, L) && WinsHeld(w.wins) && StimAdjHeld(w.stimAdj) && d in stim.adj
      modifies stim`adj
      ensures Valid() && Describes(L) && WinsHeld(w.wins)
      ensures StimAdjHeld(StimReinforce(w, L, s, d).stimAdj)
    {
      assert StimAdjAt(w.stimAdj, s) && WinsAt(w.wins, d) && StimShapeAt(L, s);
      StimLearnStep(w, s, stim, d, dest);
      forall x | x in areas
        ensures AreaShapeAt(L, x)
      {
        assert old(AreaShapeAt(L, x));
      }
      forall x | x in stimuli
        ensures StimShapeAt(L, x)
      {
        assert old(StimShapeAt(L, x));
      }
      assert WinsAt(w.wins, d);
      StimReinforceIs(w, L, s, d, stim.adj);
    }

    /** Phase 5a: every stimulus pair is reinforced, in request order. */
    method StimLearnPhase(ghost w: World, ghost L: Layout, pairs: seq<(string, string)>)
      requires Valid() && Describes(L) && Keyed(w, L) && Known(pairs, L.stims.Keys, L)
      requires Connected(pairs, w.stimAdj) && WinsHeld(w.wins) && StimAdjHeld(w.stimAdj)
      modifies stimObjs`adj
      ensures Valid() && WinsHeld(w.wins)
      ensures StimAdjHeld(StimReinforcePhase(w, L, pairs).stimAdj)
    {
      for t := 0 to |pairs|
        invariant Valid() && Describes(L) && WinsHeld(w.wins)
        invariant Known(pairs[..t], L.stims.Keys, L)
        invariant StimAdjHeld(StimReinforcePhase(w, L, pairs[..t]).stimAdj)
      {
        StimLearnAt(w, L, pairs, t);
      }
      assert pairs[..|pairs|] == pairs;
    }

    /** One iteration of phase 5a: the pair at position t is reinforced. */
    method StimLearnAt(ghost w: World, ghost L: Layout, pairs: seq<(string, string)>, t: nat)
      requires Valid() && Describes(L) && Keyed(w, L) && Known(pairs, L.stims.Keys, L) && t < |pairs|
      requires Connected(pairs, w.stimAdj) && WinsHeld(w.wins)
      requires Known(pairs[..t], L.stims.Keys, L) && StimAdjHeld(StimReinforcePhase(w, L, pairs[..t]).stimAdj)
      modifies stimObjs`adj
      ensures Valid() && Describes(L) && WinsHeld(w.wins)
      ensures Known(pairs[..t + 1], L.stims.Keys, L) && StimAdjHeld(StimReinforcePhase(w, L, pairs[..t + 1]).stimAdj)
    {
      var (s, d) := pairs[t];
      StimReinforceSnoc(w, L, pairs, t);
      var before := StimReinforcePhase(w, L, pairs[..t]);
      StimReinforcePhaseKeeps(w, L, pairs[..t]);
      assert pairs[t] in pairs && StimAdjAt(before.stimAdj, s);
      StimLearn(before, L, s, stimuli[s], d, areas[d]);
    }

    /** source.update_plasticities(dest) for one registered pair whose synapses exist (dest may be the source). */
    method AreaLearnStep(ghost w: World, a: string, src: Area, d: string, dest: Area)
      requires Valid() && a in areas && areas[a] == src && d in areas && areas[d] == dest
      requires WinsHeld(w.wins) && AreaAdjHeld(w.areaAdj) && d in src.adj
      modifies src`adj
      ensures Valid() && WinsHeld(w.wins) && AreaAdjHeld(w.areaAdj[a := src.adj])
      ensures dest.name == d
      ensures src.adj == old(src.adj)[dest.name := ReinforcedRows(old(src.adj)[dest.name], src.winners, dest.winners, 1.0 + src.GetBeta(dest.name))]
    {
      assert AreaFine(d) && AreaFine(a) && WinsAt(w.wins, d) && WinsAt(w.wins, a) && AreaAdjAt(w.areaAdj, a);
      src.UpdatePlasticities(dest);
      forall x | x in areas
        ensures AreaFine(x) && WinsAt(w.wins, x) && AreaAdjAt(w.areaAdj[a := src.adj], x)
      {
        assert old(AreaFine(x)) && old(WinsAt(w.wins, x)) && old(AreaAdjAt(w.areaAdj, x));
      }
      forall x | x in stimuli
        ensures StimFine(x)
      {
        assert old(StimFine(x));
      }
    }

    /** The round's area reinforcement, carried out on the registered entities. */
    method AreaLearn(ghost w: World, ghost L: Layout, a: string, src: Area, d: string, dest: Area)
      requires Valid() && a in areas && areas[a] == src && d in areas && areas[d] == dest
      requires Describes(L) && Keyed(w, L) && WinsHeld(w.wins) && AreaAdjHeld(w.areaAdj) && d in src.adj
      modifies src`adj
      ensures Valid() && Describes(L) && WinsHeld(w.wins)
      ensures AreaAdjHeld(AreaReinforce(w, L, a, d).areaAdj)
    {
      assert AreaAdjAt(w.areaAdj, a) && WinsAt(w.wins, a) && WinsAt(w.wins, d) && AreaShapeAt(L, a);
      AreaLearnStep(w, a, src, d, dest);
      forall x | x in areas
        ensures AreaShapeAt(L, x)
      {
        assert old(AreaShapeAt(L, x));
      }
      forall x | x in stimuli
        ensures StimShapeAt(L, x)
      {
        assert old(StimShapeAt(L, x));
      }
      assert WinsAt(w.wins, a) && WinsAt(w.wins, d);
      AreaReinforceIs(w, L, a, d, src.adj);
    }

    /** Phase 5b: every area pair is reinforced, in request order. */
    method AreaLearnPhase(ghost w: World, ghost L: Layout, pairs: seq<(string, string)>)
      requires Valid() && Describes(L) && Keyed(w, L) && Known(pairs, L.areas.Keys, L)
      requires Connected(pairs, w.areaAdj) && WinsHeld(w.wins) && AreaAdjHeld(w.areaAdj)
      modifies areaObjs`adj
      ensures Valid() && WinsHeld(w.wins)
      ensures AreaAdjHeld(AreaReinforcePhase(w, L, pairs).areaAdj)
    {
      for t := 0 to |pairs|
        invariant Valid() && Describes(L) && WinsHeld(w.wins)
        invariant Known(pairs[..t], L.areas.Keys, L)
        invariant AreaAdjHeld(AreaReinforcePhase(w, L, pairs[..t]).areaAdj)
      {
        AreaLearnAt(w, L, pairs, t);
      }
      assert pairs[..|pairs|] == pairs;
    }

    /** One iteration of phase 5b: the pair at position t is reinforced. */
    method AreaLearnAt(ghost w: World, ghost L: Layout, pairs: seq<(string, string)>, t: nat)
      requires Valid() && Describes(L) && Keyed(w, L) && Known(pairs, L.areas.Keys, L) && t < |pairs|
      requires Connected(pairs, w.areaAdj) && WinsHeld(w.wins)
      requires Known(pairs[..t], L.areas.Keys, L) && AreaAdjHeld(AreaReinforcePhase(w, L, pairs[..t]).areaAdj)
      modifies areaObjs`adj
      ensures Valid() && Describes(L) && WinsHeld(w.wins)
      ensures Known(pairs[..t + 1], L.areas.Keys, L) && AreaAdjHeld(AreaReinforcePhase(w, L, pairs[..t + 1]).areaAdj)
    {
      var (a, d) := pairs[t];
      AreaReinforceSnoc(w, L, pairs, t);
      var before := AreaReinforcePhase(w, L, pairs[..t]);
      AreaReinforcePhaseKeeps(w, L, pairs[..t]);
      assert pairs[t] in pairs && AreaAdjAt(before.areaAdj, a);
      AreaLearn(before, L, a, areas[a], d, areas[d]);
    }

    /** Phase 1 on a registry that holds w: afterwards it holds the reset world. */
    method PhaseReset(ghost w: World, ghost L: Layout, dests: seq<string>)
      requires Holds(w, L)
      requires forall t :: 0 <= t < |dests| ==> dests[t] in areas
      modifies areaObjs`activations
      ensures Holds(Reset(w, L, Elems(dests)), L)
    {
      ResetPhase(w, L, dests);
      forall a | a in areas
        ensures WinsAt(w.wins, a) && AreaAdjAt(w.areaAdj, a) && AreaShapeAt(L, a)
      {
        assert old(WinsAt(w.wins, a)) && old(AreaAdjAt(w.areaAdj, a)) && old(AreaShapeAt(L, a));
      }
      forall x | x in stimuli
        ensures StimAdjAt(w.stimAdj, x) && StimShapeAt(L, x)
      {
        assert old(StimAdjAt(w.stimAdj, x)) && old(StimShapeAt(L, x));
      }
    }

    /** Phase 2 on a registry that holds w. */
    method PhaseStimFire(ghost w: World, ghost L: Layout, pairs: seq<(string, string)>, coins: (string, string) -> Coin)
      requires Holds(w, L) && Known(pairs, L.stims.Keys, L)
      modifies stimObjs`adj, areaObjs`activations
      ensures Holds(StimPhase(w, L, pairs, coins), L)
    {
      StimFirePhase(w, L, pairs, coins);
      forall a | a in areas
        ensures WinsAt(w.wins, a) && AreaAdjAt(w.areaAdj, a) && AreaShapeAt(L, a)
      {
        assert old(WinsAt(w.wins, a)) && old(AreaAdjAt(w.areaAdj, a)) && old(AreaShapeAt(L, a));
      }
      forall x | x in stimuli
        ensures StimShapeAt(L, x)
      {
        assert old(StimShapeAt(L, x));
      }
    }

    /** Phase 3 on a registry that holds w. */
    method PhaseAreaFire(ghost w: World, ghost L: Layout, pairs: seq<(string, string)>, coins: (string, string) -> Coin)
      requires Holds(w, L) && Known(pairs, L.areas.Keys, L)
      modifies areaObjs`adj, areaObjs`activations
      ensures Holds(AreaPhase(w, L, pairs, coins), L)
    {
      AreaFirePhase(w, L, pairs, coins);
      forall a | a in areas
        ensures AreaShapeAt(L, a)
      {
        assert old(AreaShapeAt(L, a));
      }
      forall x | x in stimuli
        ensures StimAdjAt(w.stimAdj, x) && StimShapeAt(L, x)
      {
        assert old(StimAdjAt(w.stimAdj, x)) && old(StimShapeAt(L, x));
      }
    }

    /** Phase 4 on a registry that holds w. */
    method PhaseRecompute(ghost w: World, ghost L: Layout, dests: seq<string>)
      requires Holds(w, L)
      requires forall t :: 0 <= t < |dests| ==> dests[t] in L.areas && L.areas[dests[t]].k <= L.areas[dests[t]].n
      modifies areaObjs`winners
      ensures Holds(Recompute(w, L, Elems(dests)), L)
    {
      forall t | 0 <= t < |dests|
        ensures dests[t] in areas && areas[dests[t]].k <= areas[dests[t]].n
      {
        assert AreaShapeAt(L, dests[t]);
      }
      RecomputePhase(w, L, dests);
      forall a | a in areas
        ensures AreaAdjAt(w.areaAdj, a) && AreaShapeAt(L, a)
      {
        assert old(AreaAdjAt(w.areaAdj, a)) && old(AreaShapeAt(L, a));
      }
      forall x | x in stimuli
        ensures StimAdjAt(w.stimAdj, x) && StimShapeAt(L, x)
      {
        assert old(StimAdjAt(w.stimAdj, x)) && old(StimShapeAt(L, x));
      }
    }

    /** Phase 5a on a registry that holds w. */
    method PhaseStimLearn(ghost w: World, ghost L: Layout, pairs: seq<(string, string)>)
      requires Holds(w, L) && Known(pairs, L.stims.Keys, L) && Connected(pairs, w.stimAdj)
      modifies stimObjs`adj
      ensures Holds(StimReinforcePhase(w, L, pairs), L)
    {
      StimLearnPhase(w, L, pairs);
      forall a | a in areas
        ensures ActsAt(w.acts, a) && AreaAdjAt(w.areaAdj, a) && AreaShapeAt(L, a)
      {
        assert old(ActsAt(w.acts, a)) && old(AreaAdjAt(w.areaAdj, a)) && old(AreaShapeAt(L, a));
      }
      forall x | x in stimuli
        ensures StimShapeAt(L, x)
      {
        assert old(StimShapeAt(L, x));
      }
    }

    /** Phase 5b on a registry that holds w. */
    method PhaseAreaLearn(ghost w: World, ghost L: Layout, pairs: seq<(string, string)>)
      requires Holds(w, L) && Known(pairs, L.areas.Keys, L) && Connected(pairs, w.areaAdj)
      modifies areaObjs`adj
      ensures Holds(AreaReinforcePhase(w, L, pairs), L)
    {
      AreaLearnPhase(w, L, pairs);
      forall a | a in areas
        ensures ActsAt(w.acts, a) && AreaShapeAt(L, a)
      {
        assert old(ActsAt(w.acts, a)) && old(AreaShapeAt(L, a));
      }
      forall x | x in stimuli
        ensures StimAdjAt(w.stimAdj, x) && StimShapeAt(L, x)
      {
        assert old(StimAdjAt(w.stimAdj, x)) && old(StimShapeAt(L, x));
      }
    }

    /** A valid registry holds its own snapshot, described by its own shape. */
    lemma SnapshotHeld()
      requires Valid()
      ensures Holds(Snapshot(), Shape())
    {
      var w, L := Snapshot(), Shape();
      forall a | a in areas
        ensures AreaShapeAt(L, a) && ActsAt(w.acts, a) && WinsAt(w.wins, a) && AreaAdjAt(w.areaAdj, a)
      {
      }
      forall s | s in stimuli
        ensures StimShapeAt(L, s) && StimAdjAt(w.stimAdj, s)
      {
      }
    }

    /** A world the registry holds in every part is its snapshot. */
    lemma HeldSnapshot(w: World, L: Layout)
      requires Holds(w, L)
      ensures Snapshot() == w
    {
      var v := Snapshot();
      forall a | a in areas
        ensures v.acts[a] == w.acts[a] && v.wins[a] == w.wins[a] && v.areaAdj[a] == w.areaAdj[a]
      {
        assert ActsAt(w.acts, a) && WinsAt(w.wins, a) && AreaAdjAt(w.areaAdj, a);
      }
      forall s | s in stimuli
        ensures v.stimAdj[s] == w.stimAdj[s]
      {
        assert StimAdjAt(w.stimAdj, s);
      }
    }

    /** A layout that describes the registry is its shape. */
    lemma DescribedShape(L: Layout)
      requires Registered() && Describes(L)
      ensures Shape() == L
    {
      var m := Shape();
      forall a | a in areas
        ensures m.areas[a] == L.areas[a]
      {
        assert AreaShapeAt(L, a);
      }
      forall x | x in stimuli
        ensures m.stims[x] == L.stims[x]
      {
        assert StimShapeAt(L, x);
      }
    }

    /** The round Brain::project performs, stated on the registry's current snapshot. */
    ghost function Planned(stimReq: seq<(string, seq<string>)>, areaReq: seq<(string, seq<string>)>,
                           stimCoins: (string, string) -> Coin, areaCoins: (string, string) -> Coin): World
      requires Valid()
      requires Resolvable(stimReq, stimuli.Keys, areas.Keys) && Resolvable(areaReq, areas.Keys, areas.Keys)
      reads this, areaObjs, stimObjs
    {
      SnapshotHeld();
      ResolvableKnown(stimReq, stimuli.Keys, Shape());
      ResolvableKnown(areaReq, areas.Keys, Shape());
      Round.Project(Snapshot(), Shape(), Pairs(stimReq), Pairs(areaReq), stimCoins, areaCoins)
    }

    /** Every destination of a request is an area whose selection is defined (k <= n). */
    predicate Selectable(stimReq: seq<(string, seq<string>)>, areaReq: seq<(string, seq<string>)>)
      reads this, areaObjs
    {
      forall d :: d in Destinations(Pairs(stimReq), Pairs(areaReq)) ==> d in areas && areas[d].k <= areas[d].n
    }

    /**
      Brain::project: one synchronized round. The registered entities end
      in exactly the state the round's value-level definition gives, the
      shapes are untouched, and every invariant still holds.
     */
    method Project(stimReq: seq<(string, seq<string>)>, areaReq: seq<(string, seq<string>)>,
                   stimCoins: (string, string) -> Coin, areaCoins: (string, string) -> Coin)
      requires Valid() && RequestOrdered(stimReq) && RequestOrdered(areaReq)
      requires Resolvable(stimReq, stimuli.Keys, areas.Keys) && Resolvable(areaReq, areas.Keys, areas.Keys)
      requires Selectable(stimReq, areaReq)
      modifies areaObjs`activations, areaObjs`winners, areaObjs`adj, stimObjs`adj
      ensures Valid()
      ensures Shape() == old(Shape())
      ensures Snapshot() == old(Planned(stimReq, areaReq, stimCoins, areaCoins))
    {
      var stimPairs, areaPairs := Pairs(stimReq), Pairs(areaReq);
      var dests := CollectDestinations(stimPairs, areaPairs);
      ghost var w0, L := Snapshot(), Shape();
      SnapshotHeld();
      ValidWorld();
      ResolvableKnown(stimReq, stimuli.Keys, L);
      ResolvableKnown(areaReq, areas.Keys, L);
      ghost var planned := Planned(stimReq, areaReq, stimCoins, areaCoins);
      assert planned == Round.Project(w0, L, stimPairs, areaPairs, stimCoins, areaCoins);
      forall d | d in Destinations(stimPairs, areaPairs)
        ensures d in L.areas && L.areas[d].k <= L.areas[d].n
      {
      }
      Run(w0, L, stimPairs, areaPairs, dests, stimCoins, areaCoins);
      HeldSnapshot(planned, L);
      DescribedShape(L);
    }

    /**
      The round on a registry that holds w: its accumulation, then its
      selection and learning.
     */
    method Run(ghost w: World, ghost L: Layout, stimPairs: seq<(string, string)>, areaPairs: seq<(string, string)>,
               dests: seq<string>, stimCoins: (string, string) -> Coin, areaCoins: (string, string) -> Coin)
      requires Holds(w, L) && WorldOk(w, L)
      requires Known(stimPairs, L.stims.Keys, L) && Known(areaPairs, L.areas.Keys, L)
      requires forall x :: x in dests <==> x in Destinations(stimPairs, areaPairs)
      requires forall d :: d in Destinations(stimPairs, areaPairs) ==> d in L.areas && L.areas[d].k <= L.areas[d].n
      modifies areaObjs`activations, areaObjs`winners, areaObjs`adj, stimObjs`adj
      ensures Holds(Round.Project(w, L, stimPairs, areaPairs, stimCoins, areaCoins), L)
    {
      assert Elems(dests) == Destinations(stimPairs, areaPairs);
      FiredConnected(w, L, stimPairs, areaPairs, stimCoins, areaCoins);
      Accumulate(w, L, stimPairs, areaPairs, dests, stimCoins, areaCoins);
      Learn(Fired(w, L, stimPairs, areaPairs, stimCoins, areaCoins), L, stimPairs, areaPairs, dests);
    }

    /** Phases 1 to 3: reset each destination, fire every stimulus pair, then every area pair. */
    method Accumulate(ghost w: World, ghost L: Layout, stimPairs: seq<(string, string)>, areaPairs: seq<(string, string)>,
                      dests: seq<string>, stimCoins: (string, string) -> Coin, areaCoins: (string, string) -> Coin)
      requires Holds(w, L) && Known(stimPairs, L.stims.Keys, L) && Known(areaPairs, L.areas.Keys, L)
      requires Elems(dests) == Destinations(stimPairs, areaPairs)
      modifies areaObjs`activations, areaObjs`adj, stimObjs`adj
      ensures Holds(Fired(w, L, stimPairs, areaPairs, stimCoins, areaCoins), L)
    {
      DestinationsKnown(stimPairs, areaPairs, L);
      forall t | 0 <= t < |dests|
        ensures dests[t] in areas
      {
        assert dests[t] in Elems(dests);
      }
      ghost var w1 := Reset(w, L, Elems(dests));
      PhaseReset(w, L, dests);
      ghost var w2 := StimPhase(w1, L, stimPairs, stimCoins);
      PhaseStimFire(w1, L, stimPairs, stimCoins);
      PhaseAreaFire(w2, L, areaPairs, areaCoins);
    }

    /** Phases 4 and 5: pick each destination's winners, reinforce every stimulus pair, then every area pair. */
    method Learn(ghost w: World, ghost L: Layout, stimPairs: seq<(string, string)>, areaPairs: seq<(string, string)>, dests: seq<string>)
      requires Holds(w, L) && Known(stimPairs, L.stims.Keys, L) && Known(areaPairs, L.areas.Keys, L)
      requires Connected(stimPairs, w.stimAdj) && Connected(areaPairs, w.areaAdj)
      requires forall t :: 0 <= t < |dests| ==> dests[t] in L.areas && L.areas[dests[t]].k <= L.areas[dests[t]].n
      modifies areaObjs`winners, areaObjs`adj, stimObjs`adj
      ensures Holds(AreaReinforcePhase(StimReinforcePhase(Recompute(w, L, Elems(dests)), L, stimPairs), L, areaPairs), L)
    {
      ghost var w4 := Recompute(w, L, Elems(dests));
      PhaseRecompute(w, L, dests);
      ghost var w5 := StimReinforcePhase(w4, L, stimPairs);
      PhaseStimLearn(w4, L, stimPairs);
      PhaseAreaLearn(w5, L, areaPairs);
    }
  }
}
