# Neural assemblies engine, modelled in Dafny

This project models the simulation engine of a small "neural assemblies"
brain simulator (brain.cpp and its class layout in brain.hpp). The engine keeps
named **areas** of `n` neurons, of which `k` win each round. It also keeps named
**stimuli** of `k` neurons that always fire. Sparse weighted synapses run from
every source to each destination area it has been projected into. A round of
`Brain::project` works in five phases:

1. reset every destination once;
2. accumulate the firing of every (stimulus, area) pair;
3. accumulate the firing of every (area, area) pair, each source firing the
   winners it had before the round;
4. pick the top `k` winners of every destination once;
5. apply the multiplicative Hebbian update `w *= 1 + beta` to every synapse
   from a firing neuron to a destination winner.

The model is split into modules:

- `Synapses` covers the adjacency generator, accumulation, `lower_bound` and
  the plasticity pass.
- `Selection` covers k-winner-take-all, stated through ranks.
- `Recall` covers the overlap count and the best-match argmax of
  `read_assembly`.
- `Names` covers the `std::string` order used by every `std::map`.
- `Entities` holds the classes `Stimulus` and `Area`, with the fields the
  engine mutates.
- `Round` states one round on values, phase by phase, and proves what a round
  keeps and changes.
- `Registry` holds the class `Brain` (the name → entity maps) and the
  imperative `Project`. `Project` is proved to leave the registry exactly in the
  state that `Round.Project` computes.

Random draws are an oracle `coin(i, j)`, passed in as a parameter. Weights and
activations are exact `real`s.

## Model

| member | source | states |
|---|---|---|
| Synapses.InitializeNeurons | brain.cpp:28-40 | The generator's nested loop yields exactly the adjacency `Generated(n, m, coin)`: n rows, where row i holds the edges (j, 1) for each target j whose draw succeeded, in draw order. |
| Synapses.GeneratedRowShape | brain.cpp:30-36 | Each generated row is strictly ascending by target and every target lies in [0, m). Every weight is 1, and j is a target exactly when coin(i, j) holds. |
| Synapses.GeneratedShape | brain.cpp:28-40 | A generated adjacency has exactly n rows. Each row is sorted and in range with non-negative weights, which are the invariants brain.hpp:45 relies on. |
| Synapses.Accumulate | brain.cpp:63-70 | The loop adding `w` into `activations[u]` for every edge of every firing row computes `Fire`, the activations after the firing. |
| Synapses.FireAt | brain.cpp:63-70 | After firing, neuron u holds its old activation plus the total weight reaching it from the firing rows. |
| Synapses.AddRowAt | brain.cpp:64-69 | Adding one row raises u by exactly the weight of that row's edges that target u. |
| Synapses.LowerBound | brain.cpp:82-83 | The binary search returns the split point of a sorted row. Every edge before it is below (w, 0) in pair order, and none from it on is. |
| Synapses.Reinforced | brain.cpp:78-87 | A plasticity pass over a row keeps its length and every target index. |
| Synapses.ReinforceRow | brain.cpp:80-87 | Searching once per destination winner and multiplying the edge that is found computes `Reinforced`, one pass over the row. |
| Synapses.ReinforceRows | brain.cpp:77-88 | Doing that for every firing row computes `ReinforcedRows`: the firing rows are reinforced and all other rows are untouched. |
| Synapses.ReinforcedExactlyWinners | brain.cpp:80-87 | With non-negative weights, each edge to a winner is multiplied by the factor exactly once. Every other edge and every target are unchanged. |
| Synapses.ReinforcedKeepsInvariants | brain.cpp:73-89 | A pass keeps rows sorted and in range, and keeps them non-negative when 1 + beta >= 0. |
| Synapses.ReinforcedTimesKeepsInvariants | brain.cpp:277-294 | The same holds for any number of passes, as when a destination is listed several times. |
| Synapses.ReinforcementMonotone | brain.cpp:85 | With beta > 0, a positive edge from a firing neuron to a winner strictly grows, and every other edge stays as it was. |
| Selection.WinnersBelow | brain.cpp:135-146 | The winners among the first m neurons are ascending and in range. They are exactly the neurons whose rank in the descending (activation, index) sort is below k. |
| Selection.CountAbove | brain.cpp:136-140 | Counting the (activation, index) pairs above neuron i yields i's position in the descending sort. |
| Selection.SelectWinners | brain.cpp:135-146 | The selection computes `TopK`, the first k of the descending sort, stored in ascending order. |
| Selection.RankOrder | brain.cpp:140 | A neuron that beats another under `greater<>` on (activation, index) sorts before it, so ties go to the higher index. |
| Selection.RankInjective | brain.cpp:140 | No two neurons share a position in the sort. |
| Selection.TopKSize | brain.cpp:142-144 | With k <= n there are exactly k winners. |
| Selection.TopKDominates | brain.cpp:140-144 | Every winner beats every neuron left out. |
| Selection.TopKIsTopK | brain.cpp:135-146 | `TopK` is a k-winner set: k distinct ascending in-range indices, each beating every non-winner. |
| Selection.TopKUnique | brain.cpp:135-146 | Any k-winner set equals `TopK`, so the selection is fully determined, ties included. |
| Recall.MergeStep | brain.cpp:160-167 | One step of the sorted merge adds one to the count exactly when the current saved neuron is a winner. |
| Recall.CountCommon | brain.cpp:158-167 | The merge count (with the bound check on `j`) equals the size of the intersection of the two ascending lists. |
| Recall.CountCommonAsWritten | brain.cpp:159-167 | The merge as written reads `winners[j]` at `j == winners.size()` exactly when some saved neuron lies above every current winner. |
| Recall.ReadsPastEndExample | brain.cpp:164 | Winners {0} with a saved assembly {1} trigger that out-of-range read. |
| Recall.BestUnique | brain.cpp:168 | At most one saved stimulus is best under the (overlap, name) order. |
| Recall.BestMatch | brain.cpp:155-171 | The answer is none exactly when nothing is saved. Otherwise it is the saved stimulus with the greatest overlap, ties going to the greatest name. |
| Recall.RecallAfterSave | brain.cpp:148-171 | If the current winners are exactly the assembly saved for s, that assembly has full overlap. s is then recalled unless another stimulus with a greater name also overlaps fully. |
| Names.NameLessIrreflexive | brain.cpp:95-97 | No name sorts before itself under `std::string`'s `<`. |
| Names.NameLessAsymmetric | brain.cpp:95-97 | Two names are never ordered both ways. |
| Names.NameLessTransitive | brain.cpp:95-97 | The name order is transitive. |
| Names.NameLessTotal | brain.cpp:192-198 | Two distinct names are always ordered, so entities are identified by name alone. |
| Names.InsertAscending | brain.cpp:252-255 | Inserting a name keeps the list strictly ascending (sorted, with no repeats). The result holds exactly the old names plus the new one. |
| Entities.Stimulus.constructor | brain.cpp:42 | A new stimulus has its name, k and default beta, with no overrides and no synapses. |
| Entities.Stimulus.SetBeta | brain.cpp:44-54 | After `set_beta(d, b)`, `get_beta(d)` is b and every other destination's beta is unchanged. |
| Entities.Stimulus.ProjectInto | brain.cpp:56-71 | Synapses to the destination are generated only if none exist; existing ones are kept unchanged. All k rows then fire into the destination's activations, and nothing else changes. |
| Entities.Stimulus.GetBeta | brain.cpp:48-54 | `get_beta(d)` answers the override stored for d when there is one, and the default beta otherwise. |
| Entities.Stimulus.UpdatePlasticities | brain.cpp:73-89 | Every row is reinforced toward the destination's current winners with factor 1 + `get_beta(dest)`. Rows stay sorted and in range, and stay non-negative when 1 + beta >= 0. |
| Entities.Area.constructor | brain.cpp:99 | A new area has n zero activations, no winners, no synapses, no overrides and no saved assemblies. |
| Entities.Area.SetBeta | brain.cpp:101-111 | After `set_beta(d, b)`, `get_beta(d)` is b and every other destination's beta is unchanged. |
| Entities.Area.GetBeta | brain.cpp:105-111 | `get_beta(d)` answers the override stored for d when there is one, and the default beta otherwise. |
| Entities.Area.ProjectInto | brain.cpp:113-129 | Synapses are generated only if none exist. Only the current winners' rows fire. Both areas' winners are untouched, even when the area projects into itself. |
| Entities.Area.ResetActivations | brain.cpp:131-133 | Activations become n zeros, so they always have length n. |
| Entities.Area.RecalculateWinners | brain.cpp:135-146 | With k <= n, the winners become the unique k-winner set of the activations, ascending. |
| Entities.Area.SaveAssembly | brain.cpp:148-153 | The area is reset, the stimulus alone fires into it and the winners are recomputed. Those winners are stored under the stimulus, overwriting any earlier entry. Weights are not updated. |
| Entities.Area.ReadAssembly | brain.cpp:155-171 | Returns nothing exactly when nothing is saved. Otherwise returns the best-overlapping saved stimulus, ties going to the greatest name. |
| Entities.Area.UpdatePlasticities | brain.cpp:173-190 | The rows of the area's winners at call time are reinforced toward the destination's winners. Rows stay sorted and in range, and stay non-negative when 1 + beta >= 0. |
| Round.Reset | brain.cpp:257-259 | The reset phase changes no winners and no synapses. |
| Round.StimProject | brain.cpp:56-71 | One `stim.project_into(dest)`: the stimulus gains synapses to dest and keeps every synapse it had unchanged. Only dest's activations change. No winners, no area synapses and no other stimulus change. |
| Round.AreaProject | brain.cpp:113-129 | One `area.project_into(dest)`: the source gains synapses to dest and keeps every synapse it had unchanged. Only dest's activations change. No winners, no stimulus synapses and no other area change. |
| Round.StimPhase | brain.cpp:261-265 | Stimulus firing changes no winners and no area-to-area synapses. |
| Round.AreaPhase | brain.cpp:266-270 | Area firing changes no winners and no stimulus synapses. |
| Round.Fired | brain.cpp:257-270 | Accumulation finishes with every winner list as it was before the round, so phase 3 fires the old winners. |
| Round.Recompute | brain.cpp:272-274 | Recomputation changes winners only, and only those of the destinations. |
| Round.Project | brain.cpp:237-295 | After a round the activations are those accumulated in phases 1-3, because plasticity never touches them. An area that is not a destination keeps its winners. |
| Round.StimReinforce | brain.cpp:73-89 | One `stim.update_plasticities(dest)` changes only that stimulus's synapses to dest, keeping their row count. Activations, winners, other destinations and other sources are unchanged. |
| Round.AreaReinforce | brain.cpp:173-190 | One `area.update_plasticities(dest)` changes only that area's synapses to dest, keeping their row count. Activations, winners, other destinations and other sources are unchanged. |
| Round.StimReinforcePhase | brain.cpp:277-284 | Stimulus plasticity changes stimulus synapses only. |
| Round.AreaReinforcePhase | brain.cpp:287-294 | Area plasticity changes area synapses only. |
| Round.ResetOk | brain.cpp:257-259 | Resetting keeps the per-area and per-stimulus invariants: activations of length n, ascending in-range winners, and one sorted in-range row per source neuron. The saved assemblies (brain.hpp:47-48) are outside the round state; `Brain.Valid` keeps them. |
| Round.RecomputeOk | brain.cpp:272-274 | Recomputation keeps the invariants: every new winner list is ascending and in range. |
| Round.StimProjectOk | brain.cpp:56-71 | The synapses a stimulus fires through, existing or fresh, have a row for each of its k neurons, with targets inside the destination, so `activations[u] += w` stays in range. The step keeps the invariants. |
| Round.StimProjectConnects | brain.cpp:57-59 | A stimulus step connects its pair and never removes synapses. |
| Round.AreaProjectOk | brain.cpp:113-129 | The synapses an area fires through have a row for each of its winners, with targets inside the destination. The step keeps the invariants. |
| Round.AreaProjectConnects | brain.cpp:115-117 | An area step connects its pair and never removes synapses. |
| Round.StimReinforceOk | brain.cpp:73-89 | One stimulus plasticity step keeps the invariants. |
| Round.AreaReinforceOk | brain.cpp:173-190 | One area plasticity step keeps the invariants. |
| Round.StimPhaseOk | brain.cpp:261-265 | The whole stimulus firing phase keeps the invariants. |
| Round.AreaPhaseOk | brain.cpp:266-270 | The whole area firing phase keeps the invariants. |
| Round.StimPhaseConnects | brain.cpp:261-265 | After stimulus firing, every requested stimulus pair has synapses. |
| Round.AreaPhaseConnects | brain.cpp:266-270 | After area firing, every requested area pair has synapses. |
| Round.StimReinforcePhaseOk | brain.cpp:277-284 | Stimulus plasticity keeps the invariants. |
| Round.AreaReinforcePhaseOk | brain.cpp:287-294 | Area plasticity keeps the invariants. |
| Round.StimReinforcePhaseKeeps | brain.cpp:277-284 | Plasticity never adds or removes a destination's synapses. |
| Round.AreaReinforcePhaseKeeps | brain.cpp:287-294 | Plasticity never adds or removes a destination's synapses. |
| Round.FiredConnected | brain.cpp:257-294 | After accumulation the invariants hold and every requested pair is connected, so the plasticity lookups at brain.cpp:75 and 176 always find their synapses. |
| Round.ProjectKeepsWorld | brain.cpp:237-295 | A whole round keeps the per-area and per-stimulus invariants: activations of length n, ascending in-range winners, and one sorted in-range row per source neuron. The saved assemblies (brain.hpp:47-48) are outside the round state; `Brain.Valid` keeps them. |
| Round.StimPhaseIdle | brain.cpp:261-265 | Stimulus pairs aimed at other areas leave an area's activations unchanged. |
| Round.AreaPhaseIdle | brain.cpp:266-270 | Area pairs aimed at other areas leave an area's activations unchanged. |
| Round.ProjectKeepsIdle | brain.cpp:237-295 | An area that is not a destination keeps its activations and its winners through the round, even when it fires as a source. |
| Round.ProjectWinners | brain.cpp:272-274 | Every destination's final winners are the k-winner set of the activations accumulated in the round. |
| Round.StimListedTwice | brain.cpp:277-284 | A destination listed twice for one stimulus is reinforced twice; plasticity is not deduplicated. |
| Round.AreaListedTwice | brain.cpp:287-294 | A destination listed twice for one source area is likewise reinforced twice. |
| Round.StimProjectNonNegative | brain.cpp:56-71 | A stimulus firing step keeps every weight non-negative: kept synapses are unchanged and fresh ones weigh 1. |
| Round.AreaProjectNonNegative | brain.cpp:113-129 | An area firing step keeps every weight non-negative. |
| Round.StimReinforceNonNegative | brain.cpp:73-89 | A stimulus plasticity step keeps every weight non-negative when every beta is at least -1. |
| Round.AreaReinforceNonNegative | brain.cpp:173-190 | An area plasticity step keeps every weight non-negative when every beta is at least -1. |
| Round.StimPhaseNonNegative | brain.cpp:261-265 | The stimulus firing phase keeps every weight non-negative. |
| Round.AreaPhaseNonNegative | brain.cpp:266-270 | The area firing phase keeps every weight non-negative. |
| Round.StimReinforcePhaseNonNegative | brain.cpp:277-284 | Stimulus plasticity keeps every weight non-negative when every beta is at least -1. |
| Round.AreaReinforcePhaseNonNegative | brain.cpp:287-294 | Area plasticity keeps every weight non-negative when every beta is at least -1. |
| Round.ProjectKeepsNonNegative | brain.cpp:237-295 | When every beta is at least -1, a round keeps every weight non-negative. `ReinforcedExactlyWinners` then applies in every later round. |
| Registry.ResolvableKnown | brain.cpp:216-235 | A request whose names all resolve yields only (source, destination) pairs of registered names. |
| Registry.CollectDestinations | brain.cpp:240-255 | The destination list holds each destination named by any pair, sorted by name and without repeats. |
| Registry.Brain.constructor | brain.hpp:77-89 | A new brain has no areas and no stimuli, and satisfies the registry invariant. |
| Registry.Brain.ValidWorld | brain.hpp:45-58 | A valid registry satisfies the invariants that every round is proved to keep. |
| Registry.Brain.GetArea | brain.cpp:200-202 | `get_area(name)` answers an area exactly when the name is registered, and then the one registered under it. |
| Registry.Brain.GetStimulus | brain.cpp:208-210 | `get_stimulus(name)` answers a stimulus exactly when the name is registered, and then the one registered under it. |
| Registry.Brain.AddArea | brain.cpp:204-206 | A new name registers a fresh area, which `get_area` then answers. A taken name changes nothing and answers the area already registered. |
| Registry.Brain.AddStimulus | brain.cpp:212-214 | The same holds for stimuli: a new name registers a fresh stimulus; a taken name changes nothing and answers the existing one. |
| Registry.Brain.ResetPhase | brain.cpp:257-259 | Resetting each listed destination once leaves the registry's activations as `Round.Reset` computes them. |
| Registry.Brain.StimFirePhase | brain.cpp:261-265 | Firing every stimulus pair in order leaves the activations and stimulus synapses as `Round.StimPhase` computes them. |
| Registry.Brain.AreaFirePhase | brain.cpp:266-270 | Firing every area pair in order leaves the activations and area synapses as `Round.AreaPhase` computes them. |
| Registry.Brain.RecomputePhase | brain.cpp:272-274 | Recomputing each destination once leaves the winners as `Round.Recompute` computes them. |
| Registry.Brain.StimLearnPhase | brain.cpp:277-284 | Stimulus plasticity over every pair leaves the stimulus synapses as `Round.StimReinforcePhase` computes them. |
| Registry.Brain.AreaLearnPhase | brain.cpp:287-294 | Area plasticity over every pair, reading the sources' new winners, leaves the area synapses as `Round.AreaReinforcePhase` computes them. |
| Registry.Brain.PhaseReset | brain.cpp:257-259 | After phase 1 the registry holds the `Round.Reset` state. |
| Registry.Brain.PhaseStimFire | brain.cpp:261-265 | After phase 2 the registry holds the `Round.StimPhase` state. |
| Registry.Brain.PhaseAreaFire | brain.cpp:266-270 | After phase 3 the registry holds the `Round.AreaPhase` state. |
| Registry.Brain.PhaseRecompute | brain.cpp:272-274 | After phase 4 the registry holds the `Round.Recompute` state. |
| Registry.Brain.PhaseStimLearn | brain.cpp:277-284 | After phase 5a the registry holds the `Round.StimReinforcePhase` state. |
| Registry.Brain.PhaseAreaLearn | brain.cpp:287-294 | After phase 5b the registry holds the `Round.AreaReinforcePhase` state. |
| Registry.Brain.Accumulate | brain.cpp:240-270 | Reset, stimulus firing and area firing leave the registry in the `Round.Fired` state. |
| Registry.Brain.Learn | brain.cpp:272-294 | Recomputation and both plasticity phases complete the round. |
| Registry.Brain.Run | brain.cpp:237-295 | The phased loops leave the registry in the `Round.Project` state. |
| Registry.Brain.Project | brain.cpp:216-295 | The round keeps the registry valid and changes no sizes or betas. Afterwards the registry holds `Round.Project` applied to its old state, so every property proved of `Round.Project` holds of it. |

## Left out

- Random numbers: the Mersenne Twister, `random_device` and the probability
  `p` (brain.cpp:19-23) are replaced by a coin oracle `coin(i, j)` per
  generation. `Brain.Project` takes one coin per (source, destination) name pair.
- Floating point: `float`/`double` weights and activations are exact `real`s,
  so rounding and ties caused by rounding are not modelled.
- Negative weights are modelled as the code treats them: `lower_bound` on
  (w, 0) steps past an edge with a negative weight, so such an edge is never
  reinforced. The exact-once statement (`ReinforcedExactlyWinners`)
  therefore assumes non-negative weights. Every generated row has them, and
  `ProjectKeepsNonNegative` shows that rounds keep them while every beta is
  at least -1.
- The `NULL_AREA` / `NULL_STIM` sentinels (brain.cpp:25-26, 255) and the
  copy-assignment into `NULL_STIM` through `pair<int, Stimulus&>`
  (brain.cpp:168): `read_assembly` answers `Option<string>`, the name of the
  best match.
- `reference_wrapper` and `less<Area>` keys: everything is keyed by name.
  This is the identity that `operator==`/`operator<` at brain.cpp:91-97 and 192-198 give.
- Undefined behaviour becomes a precondition:
  - `get_area`/`get_stimulus` on a missing name is `Resolvable` on `Brain.Project`;
  - `adj.find(area)->second` before any projection is a precondition of `UpdatePlasticities`;
  - `indexed_activations[i]` with k > n is `k <= n` on `RecalculateWinners` and `Brain.Selectable`.
- `GetArea`/`GetStimulus` answer `Option` instead of dereferencing a missing
  entry.
- `std::sort` in `recalculate_winners` is replaced by rank counting, which
  selects the same set. `TopKUnique` shows that set is the only k-winner set.
- The two `project` overloads are one `Brain.Project`:
  - the string maps arrive as name-sorted lists (`RequestOrdered`), as a
    `std::map` iterates them;
  - their nested loops are flattened into one list of (source, destination)
    pairs in the same order.
- `Brain.Project` models `std::sort` plus `std::unique` on the destinations
  with `CollectDestinations`, a sorted insertion without repeats. The
  resulting name list is the same.
- The area `project_into` copies its adjacency (brain.cpp:119) where the
  stimulus one takes a reference. Both only read the synapses, so the model
  does not distinguish them.
- The `p` fields of `Stimulus` and `Area` are not modelled: they only feed
  the random generator.
- analogy_demo.cpp is not part of this model. It is orchestration: CSV
  reading, a training curriculum, a `shuffle` and a console prompt loop.

## Findings

| source | as written | input that shows it | evidently intended | confidence | as-written member | corrected member |
|---|---|---|---|---|---|---|
| brain.cpp:164 | `if (neurons[i] == winners[j])` runs after the inner loop without checking `j < winners.size()`, reading one past the end of `winners` | winners = [0], saved assembly = [1]: the inner loop stops at j = 1 and `winners[1]` is read | compare only while `j < winners.size()`; the count is then the intersection size | not executed | Recall.CountCommonAsWritten, Recall.ReadsPastEndExample | Recall.CountCommon |

Notes on the code versus its description:

- `recalculate_winners` sorts (activation, index) pairs with `greater<>`, so
  among equal activations the higher index wins. The model follows the code.
- brain.cpp needs k <= n to select k winners. The model states this as a
  precondition rather than reproducing the out-of-range read.
