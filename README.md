# Quest graph engine of the text adventure

This project models the quest-graph engine of a branching text adventure and
proves properties of the model. It covers:

- the `QG_Event`, `QG_EventPool` and `QG_Quest` classes, which drive the story;
- the integer logic of `QG_QuestUIHandler.DrawQuest`, which decides what of a
  quest's graph is shown.

A **quest** is a graph of **pools**. A pool holds **events**. Each ending
label of an event names a destination pool; the model assumes that this pool
belongs to the same quest (the C# code does not check it, see "Left out"). An
empty pool is an ending of the quest. A quest is itself an event, so a pool can hold a
**sub-quest**.

The quest keeps:

- a queue of pools to visit;
- the pools and events currently in flight;
- the sub-quest currently being played, if any.

The quest has two entry points:

- `NextEvent` hands out the next event. It recurses into sub-quests.
- `EventUpdate` records the ending the player chose. It queues the
  destination pool, and it finishes the quest when that pool is empty.

## How the model is built

**Arena.** Events and pools live in an arena and are named by their index (`graph.dfy`).

- A quest is named by the index of the event it is.
- An event's kind is `Ordinary` or `Nested(start, eventPools, level)`.
- The authored data never changes. It is a `Graph` value:
  - for each event: its `endings`, its `endingEventPools`, its kind, its callback handle, and its `home` quest;
  - for each pool: its `pool` list and the quest that owns it.

**Run-time state.** The fields the C# code updates in place are the
`seq`-typed fields of the class `QuestEngine.World` (`engine.dfy`):

- events: `ending` and `quest`;
- pools: `used`, `connUsed`, `activeEvents` and `wave`;
- quests: `poolsQueue`, `currentPools`, `currentEvents` and `currentSubQuest`.

Each C# method is a `World` method with `modifies` clauses. Its contract is
stated by a predicate over two snapshots of the state (`State()`):

- `Advanced` for `NextEvent`;
- `Updated` for `EventUpdate`;
- `PoolReset` for `QG_EventPool.Init`, together with `PoolReach`, the set of
  fields that `Init` writes (and `QuestReach` for `QG_Quest.init`); outside
  that set nothing changes (`Untouched`).

**Termination.** The C# recursion into sub-quests has no termination
measure. The model adds one: the authored nesting `level`, which
`QuestGraph.Wf` requires to decrease strictly from a quest to the quests its
pools hold.

**The queue scan as written.** The scan in `NextEvent` removes the entry at
index `i` with `RemoveAt(i)` and then increments `i`. So it inspects the
original queue positions 0, 2, 4, …. The entries at odd positions stay
queued. Every rejected entry is removed:

- a finished sub-quest;
- a sub-quest whose `NextEvent` yields nothing.

`Lists.ScanRemoved` describes the queue after `j` such removals, and
`QuestEngine.Dispatched` describes the whole scan. The model follows the
code here, not the intuition of a scan over every entry.

**Empty pools and stickiness.** An empty pool found by the scan ends the
quest and stays queued. When that pool is at the head of the queue, every
following `NextEvent` returns nothing again (`EndingIsSticky`). When the scan
first rejected some entries, the odd-position entries move up, so a later
call may still serve one of them.

**Two walk-throughs.** `scenarios.dfy` plays one flat sample quest;
`nested.dfy` plays a quest `R` holding a sub-quest `S`: `R`'s `NextEvent`
hands out `S`'s event, and finishing `S` replays `S` in `R` with its first
ending label.

**The drawing** (`layout.dfy`) works on the same `World`:

- It walks the sub-quest chain (`Layers`).
- It runs the breadth-first wave search over the pool graph (`Bfs`, `WaveMap`).
  A pool's wave is its distance from the start pool.
- It determines `activeNodeDist`.
- It classifies each pool as nearby, bordering, faraway or hidden.
- It draws one line per distinct destination, and a star where two or more
  edges lead to the same destination.

The C# code reads `questToDraw.startPool`. The field the quest declares is
`start`, and the model reads that field.

## Model

| member | source | states |
|---|---|---|
| `Lists.RemoveAt` | Textadventure/Assets/Scripts/QGSystem/QG_Quest.cs:166 | removing index `i` shortens the queue by one and shifts every later entry down by one, keeping the earlier ones |
| `Lists.FindIndex` | Textadventure/Assets/Scripts/QGSystem/QG_Quest.cs:114 | -1 exactly when the label is absent; otherwise the first position holding it |
| `Lists.RemoveFirst` | Textadventure/Assets/Scripts/QGSystem/QG_Quest.cs:99-108 | `List.Remove` shortens the list by one exactly when the element is present, and leaves it unchanged when absent |
| `Lists.RemoveFirstIsRemoveAt` | Textadventure/Assets/Scripts/QGSystem/QG_Quest.cs:99-108 | on an element that is present, `List.Remove` removes exactly the position `FindIndex` finds |
| `Lists.RemoveFirstMultiset` | Textadventure/Assets/Scripts/QGSystem/QG_Quest.cs:99-108 | `List.Remove` takes away one copy of the element and nothing else |
| `Lists.ScanRemovedStep` | Textadventure/Assets/Scripts/QGSystem/QG_Quest.cs:152-166 | at loop index `j` the scan looks at original position `2j`, and `RemoveAt(j)` there gives the queue after `j + 1` removals |
| `Lists.ScanRemovedKeeps` | Textadventure/Assets/Scripts/QGSystem/QG_Quest.cs:152-211 | the scan adds nothing to the queue; after `j` removals exactly `j` entries are gone, and the entries at odd original positions are still queued, in order |
| `QuestGraph.IsEnding` | Textadventure/Assets/Scripts/QGSystem/QG_EventPool.cs:53-57 | an ending pool (empty `pool` list) is a sink: no ending of any event leads out of it |
| `QuestGraph.TargetsInQuest` | Textadventure/Assets/Scripts/QGSystem/QG_Quest.cs:114-124 | under `Wf`, every ending of an event in a pool leads to a pool of that same quest, so the queued destination belongs to the quest |
| `QuestEngine.FindPool` | Textadventure/Assets/Scripts/QGSystem/QG_Quest.cs:103 | `currentPools.Find`: the first current pool containing the event; none exactly when no current pool contains it |
| `QuestEngine.Reinit` | Textadventure/Assets/Scripts/QGSystem/QG_Quest.cs:70-80 | after `init` the queue is `[start]`, no pools or events are current, and `currentSubQuest` is not reset |
| `QuestEngine.World.constructor` | Textadventure/Assets/Scripts/QGSystem/QG_Quest.cs:60-68 | the pools and events are persisted assets that may hold values from an earlier run, and only the new quest's own fields start at their defaults; it gets queue `[start]`, empty current lists, no sub-quest and an empty ending; `init` runs from those saved values over the whole tree (`QuestReset`): each of its pools is reset, each contained event is bound to its quest, and each contained quest is re-initialised with its own pools, level by level; everything outside `QuestReach` of the quest keeps its saved value, and so does every pool's `wave` |
| `QuestEngine.World.InitEvent` | Textadventure/Assets/Scripts/QGSystem/QG_Event.cs:24-28 | `init(q)` sets `quest := q` and `ending := ""` and changes nothing else, so it is idempotent and the event is unfinished afterwards |
| `QuestEngine.World.IsFinished` | Textadventure/Assets/Scripts/QGSystem/QG_Event.cs:36-39 | an event is finished exactly when its `ending` is non-empty |
| `QuestEngine.World.TryCallback` | Textadventure/Assets/Scripts/QGSystem/QG_Event.cs:30-34 | nothing happens without a callback; otherwise that callback is invoked exactly once |
| `QuestEngine.World.ClearConnections` | Textadventure/Assets/Scripts/QGSystem/QG_EventPool.cs:39-40 | every destination of the event is entered false in the pool's `connUsed`; all other keys and all other pools are left alone |
| `QuestEngine.World.IsActive` | Textadventure/Assets/Scripts/QGSystem/QG_EventPool.cs:48-51 | a pool is active exactly when it has a positive number of active events |
| `QuestEngine.World.InitPool` | Textadventure/Assets/Scripts/QGSystem/QG_EventPool.cs:30-45 | `PoolReset`: `used` and `activeEvents` are reset; every destination of a contained event is false in `connUsed`, other keys kept; every contained event is bound to the quest and unresolved; every contained quest is re-initialised with its own pools reset in turn, down to the innermost level; nothing outside `PoolReach` of the pool (the pool, its events, and what their `init` writes) changes |
| `QuestEngine.World.InitQuest` | Textadventure/Assets/Scripts/QGSystem/QG_Quest.cs:70-80 | `QuestReset`: the quest state becomes `Reinit` of the old one and every pool of `eventPools` is reset for this quest, recursively through the quests those pools hold; nothing outside `QuestReach` of the quest changes, in particular the quest's own event record |
| `QuestEngine.PoolResetTwice` | Textadventure/Assets/Scripts/QGSystem/QG_EventPool.cs:30-45 | resetting a pool twice, through all the levels below it, is resetting it once |
| `QuestEngine.QuestResetTwice` | Textadventure/Assets/Scripts/QGSystem/QG_Quest.cs:70-80 | re-initialising a quest twice is re-initialising it once |
| `QuestEngine.InitKeepsWaves` | Textadventure/Assets/Scripts/QGSystem/QG_EventPool.cs:26-45 | `init` of a quest, at every nested level, leaves every pool's `wave` as it was, so the search depth saved by an earlier drawing survives re-initialisation |
| `QuestEngine.PoolReachListed` | Textadventure/Assets/Scripts/QGSystem/QG_EventPool.cs:30-45 | what `Init` of a pool writes is the pool itself, one of its own events, or a slot `Listed` under a quest it holds |
| `QuestEngine.QuestReachListed` | Textadventure/Assets/Scripts/QGSystem/QG_Quest.cs:70-80 | what `init` of a quest writes is `Listed` under it: its own state; a pool listed by its own quest, where that quest is this one or `ListedInside` it; or the event or quest record of an event `ListedInside` it. `ListedInside` demands that the event and every quest on its way up sit in a pool their home quest lists, so nothing below an unlisted pool is ever written |
| `QuestEngine.InitKeepsUnlisted` | Textadventure/Assets/Scripts/QGSystem/QG_Quest.cs:70-80 | a change confined to what `init` writes leaves unchanged every pool that is not `Listed`, every event record that is not `ListedInside` the quest, the quest state of every other quest not `ListedInside` it, and so in particular every pool its quest does not list, every event held by no listed pool (with everything below them), every non-quest's quest state and everything outside the tree |
| `QuestEngine.World.NextEvent` | Textadventure/Assets/Scripts/QGSystem/QG_Quest.cs:128-214 | `Advanced`: the current sub-quest, if any, is asked first and its call is itself `Advanced` one level down; while it stays unfinished its answer is the answer and this quest's own state, ending and pools are unchanged; otherwise the field is cleared and the queue scan (`Dispatched`) runs in the same call; nothing above this quest's level changes |
| `QuestEngine.World.ResumeSubQuest` | Textadventure/Assets/Scripts/QGSystem/QG_Quest.cs:132-140 | the sub-quest's own `NextEvent` runs as `Advanced` says, from the state before the call, and its answer is `r`; `currentSubQuest` is cleared exactly when the sub-quest is finished afterwards; this quest's queue, lists, ending and pools are untouched |
| `QuestEngine.World.Dispatch` | Textadventure/Assets/Scripts/QGSystem/QG_Quest.cs:144-213 | the scan's outcome: an empty queue gives nothing and takes the first ending; positions 0, 2, 4, … are inspected; an empty pool there gives nothing, takes the first ending and stays queued; a served pool leaves the queue, gains one active event, and it and its event are appended to the current lists; an ordinary event is itself the answer, and a served quest was unfinished and answers with its own `NextEvent` result (`Advanced` one level down); a rejected pool is removed and held a quest that was finished, or whose `NextEvent` yielded nothing; exhaustion gives nothing |
| `QuestEngine.World.Scan` | Textadventure/Assets/Scripts/QGSystem/QG_Quest.cs:152-213 | on a non-empty queue, the loop over the entries at even original positions ends with the scan's outcome as in `Dispatch` |
| `QuestEngine.World.Round` | Textadventure/Assets/Scripts/QGSystem/QG_Quest.cs:152-211 | one turn of the loop either ends the scan with its outcome, or skips a non-empty pool holding a quest and leaves the queue with one more entry removed |
| `QuestEngine.World.EndScan` | Textadventure/Assets/Scripts/QGSystem/QG_Quest.cs:144-164 | an empty queue, or an empty pool at the inspected position, sets the quest's `ending` to `endings[0]` and yields nothing, leaving that pool queued |
| `QuestEngine.World.TryPool` | Textadventure/Assets/Scripts/QGSystem/QG_Quest.cs:155-210 | the inspected non-empty pool is removed; an ordinary event drawn from it is served; a drawn quest is served only when it is unfinished and its own `NextEvent` yields an event, which is then the answer; otherwise the round is a rejection of a finished quest or of one that answered nothing, and the scan goes on |
| `QuestEngine.World.TryDrawnQuest` | Textadventure/Assets/Scripts/QGSystem/QG_Quest.cs:174-199 | a drawn quest that is finished is rejected; an unfinished one is asked, rejected when it answers nothing and served otherwise, with the scan then complete |
| `QuestEngine.World.Unqueue` | Textadventure/Assets/Scripts/QGSystem/QG_Quest.cs:166 | `poolsQueue.RemoveAt(i)` and no other change |
| `QuestEngine.World.AskSubQuest` | Textadventure/Assets/Scripts/QGSystem/QG_Quest.cs:181 | the drawn sub-quest's `NextEvent` runs as `Advanced` says and `r` is its answer; nothing of the asking quest's own state changes |
| `QuestEngine.World.Serve` | Textadventure/Assets/Scripts/QGSystem/QG_Quest.cs:190-209 | the serving pool has exactly one more active event; the pool and the event are appended to `currentPools` and `currentEvents`; a quest becomes the current sub-quest |
| `QuestEngine.World.Resolve` | Textadventure/Assets/Scripts/QGSystem/QG_Quest.cs:99-124 | the state after resolving an own event, field by field: the event leaves `currentEvents`; its pool loses an active event, is `used`, and leaves `currentPools` iff none is left; the edge gets `connUsed[dest] = true`; `dest` is appended to the queue; an empty `dest` sets the quest's ending to `endings[0]` |
| `QuestEngine.ResolveEffect` | Textadventure/Assets/Scripts/QGSystem/QG_Quest.cs:99-124 | that assignment is `ResolvedAlone`: the resolution rules above hold and nothing else in the whole state changes |
| `QuestEngine.World.EventUpdate` | Textadventure/Assets/Scripts/QGSystem/QG_Quest.cs:82-125 | `Updated`: an own event is resolved as above; a foreign event goes to the current sub-quest, whose own update is `Updated` one level down; if that leaves the sub-quest unfinished, this quest's state, ending and pools are untouched; if it finishes it, the sub-quest itself is resolved here with its first ending label; no event's `quest` changes |
| `QuestEngine.World.HandOver` | Textadventure/Assets/Scripts/QGSystem/QG_Quest.cs:86-96 | the update of an event not bound to this quest: the current sub-quest is updated, and the sub-quest is resolved here with its first label exactly when that finished it |
| `QuestEngine.SubUpdated` | Textadventure/Assets/Scripts/QGSystem/QG_Quest.cs:86-91 | after the sub-quest's own update the outer quest's state, ending and pools are as they were, and when the sub-quest is unfinished that update, handed down, completes the outer `Updated` |
| `QuestEngine.UpdateReplayed` | Textadventure/Assets/Scripts/QGSystem/QG_Quest.cs:92-97 | a finished sub-quest, resolved in the outer quest with its first label, completes the delegated update |
| `QuestEngine.ReplayedFromStart` | Textadventure/Assets/Scripts/QGSystem/QG_Quest.cs:90-96 | when the delegated update finishes the sub-quest, the outer quest ends up resolved with the sub-quest and its first label exactly as if resolved straight from the state before the call |
| `QuestEngine.EndingIsSticky` | Textadventure/Assets/Scripts/QGSystem/QG_Quest.cs:159-164 | with no current sub-quest and an empty pool at the head of the queue, two successive `NextEvent` calls both yield nothing, leave the quest state unchanged and leave `ending == endings[0]` |
| `QuestLayout.Layers` | Textadventure/Assets/Scripts/QGSystem/QG_QuestUIHandler.cs:161-176 | the chain the walk visits is empty exactly when there is no base quest, and starts at the base quest |
| `QuestLayout.LayersShape` | Textadventure/Assets/Scripts/QGSystem/QG_QuestUIHandler.cs:161-176 | each layer is a quest and the current sub-quest of the one before; the last layer has none; levels strictly decrease, so the walk ends |
| `QuestLayout.LayerDepth` | Textadventure/Assets/Scripts/QGSystem/QG_QuestUIHandler.cs:165-171 | the selected depth is -1 or a position of the chain |
| `QuestLayout.QuestView.constructor` | Textadventure/Assets/Scripts/QGSystem/QG_QuestUIHandler.cs:54-59 | nothing is selected and `lastDepth` is 0 |
| `QuestLayout.QuestView.SelectLayer` | Textadventure/Assets/Scripts/QGSystem/QG_QuestUIHandler.cs:155-176 | with depth -1 the innermost quest is selected at depth `links followed`; otherwise the quest at exactly that depth; with no match `questToDraw` keeps its old value; one layer button per quest, active exactly for the selected depth |
| `QuestLayout.Adjacency` | Textadventure/Assets/Scripts/QGSystem/QG_QuestUIHandler.cs:211-219 | entry `p` of the adjacency table is the set of destinations of the endings of pool `p`'s events |
| `QuestLayout.Collect` | Textadventure/Assets/Scripts/QGSystem/QG_QuestUIHandler.cs:211-219 | the inner loops add to `newWave` exactly the destinations of the pool that are neither behind nor in the current wave |
| `QuestLayout.MarkWave` | Textadventure/Assets/Scripts/QGSystem/QG_QuestUIHandler.cs:202-222 | every pool of the wave gets `wave = waveCount` and no other pool changes; the new wave is the successors minus behind and wave; `activeNodeDist` becomes `waveCount` iff some pool of the wave is active |
| `QuestLayout.AssignWaves` | Textadventure/Assets/Scripts/QGSystem/QG_QuestUIHandler.cs:183-237 | the loop stops at the first empty wave; each placed pool's `wave` is its round of the search; `activeNodeDist` is the wave of the last active pool reached, or the number of waves when none is active |
| `QuestLayout.WaveMapValue` | Textadventure/Assets/Scripts/QGSystem/QG_QuestUIHandler.cs:204 | the wave written into a placed pool is the round in which it was in the wave |
| `QuestLayout.StartAtZero` | Textadventure/Assets/Scripts/QGSystem/QG_QuestUIHandler.cs:186-187 | the start pool gets wave 0 |
| `QuestLayout.WaveFromPrevious` | Textadventure/Assets/Scripts/QGSystem/QG_QuestUIHandler.cs:202-221 | every pool of wave `k + 1` is a destination of an ending of an event in a pool of wave `k` |
| `QuestLayout.WavesDisjoint` | Textadventure/Assets/Scripts/QGSystem/QG_QuestUIHandler.cs:215-229 | waves of different rounds share no pool |
| `QuestLayout.WaveIsDistance` | Textadventure/Assets/Scripts/QGSystem/QG_QuestUIHandler.cs:215-229 | a pool is in wave `k` iff it is reachable in `k` steps and not in fewer: its wave is its distance from the start pool |
| `QuestLayout.SearchComplete` | Textadventure/Assets/Scripts/QGSystem/QG_QuestUIHandler.cs:196-234 | once a wave is empty, every pool reachable from the start pool is behind, that is, it has been placed |
| `QuestLayout.RoundShrinks` | Textadventure/Assets/Scripts/QGSystem/QG_QuestUIHandler.cs:196-234 | each round with a non-empty wave strictly shrinks the set of pools not yet behind, so the search terminates |
| `QuestLayout.ActiveWave` | Textadventure/Assets/Scripts/QGSystem/QG_QuestUIHandler.cs:206-209 | the last round whose wave holds an active pool, or -1 when no such round exists |
| `QuestLayout.ActiveDist` | Textadventure/Assets/Scripts/QGSystem/QG_QuestUIHandler.cs:236-237 | `activeNodeDist` is the number of rounds, or a round whose wave holds an active pool |
| `QuestLayout.Shades` | Textadventure/Assets/Scripts/QGSystem/QG_QuestUIHandler.cs:249-266 | one shade per pool, and the random branch never draws the faraway count past 3 |
| `QuestLayout.ShadesMeaning` | Textadventure/Assets/Scripts/QGSystem/QG_QuestUIHandler.cs:254-266 | nearby iff `0 <= activeNodeDist - wave <= 2`; bordering iff the difference is -1; faraway only with a winning coin while fewer than 3 were drawn; hidden otherwise |
| `QuestLayout.FarawayCapped` | Textadventure/Assets/Scripts/QGSystem/QG_QuestUIHandler.cs:261-266 | at most 3 pools are drawn through the random branch, and a pool outside the near band whose coin came up is drawn whenever fewer than 3 were drawn before it |
| `QuestLayout.ShadePools` | Textadventure/Assets/Scripts/QGSystem/QG_QuestUIHandler.cs:249-266 | fails iff some pool of `eventPools` was never placed (the `nodePosRegistry` lookup throws), naming the first such pool; otherwise gives `Shades` of the pools' waves |
| `QuestLayout.FirstsSpec` | Textadventure/Assets/Scripts/QGSystem/QG_QuestUIHandler.cs:297-301 | the lines go to exactly the distinct destinations, each once |
| `QuestLayout.SecondsSpec` | Textadventure/Assets/Scripts/QGSystem/QG_QuestUIHandler.cs:302-306 | a star goes to a destination iff at least two edges lead there, and never twice |
| `QuestLayout.PoolEdges` | Textadventure/Assets/Scripts/QGSystem/QG_QuestUIHandler.cs:285-287 | the edges the nested loops visit lead exactly to the pool's destinations |
| `QuestLayout.Miss` | Textadventure/Assets/Scripts/QGSystem/QG_QuestUIHandler.cs:293-295 | no throw iff every visited destination has a position and a `connUsed` entry (and the source has a position when there is an edge); otherwise it names a missing lookup: an unplaced pool or a destination absent from `connUsed` |
| `QuestLayout.EdgeMarks` | Textadventure/Assets/Scripts/QGSystem/QG_QuestUIHandler.cs:285-309 | a pool beyond `activeNodeDist` draws nothing; otherwise the first missing lookup throws, or one line per distinct destination and one star per repeated one, each tagged with its `connUsed` flag |
| `QuestLayout.MarksLoopMeaning` | Textadventure/Assets/Scripts/QGSystem/QG_QuestUIHandler.cs:280-310 | the whole line loop succeeds iff no pool's lookups miss; then the marks of each pool are as above; on failure the error is the first pool's miss |
| `QuestLayout.OnlyConnectionsMiss` | Textadventure/Assets/Scripts/QGSystem/QG_QuestUIHandler.cs:293-295 | with every pool placed, only a destination missing from `connUsed` can make the loop throw, and with all destinations present it succeeds |
| `QuestLayout.DrawLines` | Textadventure/Assets/Scripts/QGSystem/QG_QuestUIHandler.cs:280-310 | the line loop yields exactly `MarksLoop`, whose meaning `MarksLoopMeaning` states |
| `QuestLayout.Coins` | Textadventure/Assets/Scripts/QGSystem/QG_QuestUIHandler.cs:262 | coin `i` is the outcome of the `Random.value` test for the `i`-th pool |
| `QuestLayout.DrawScene` | Textadventure/Assets/Scripts/QGSystem/QG_QuestUIHandler.cs:239-310 | shades, entry line (`0 <= activeNodeDist < 3`) and marks, or the first throw, as `Picture` defines them |
| `QuestLayout.DrawSelected` | Textadventure/Assets/Scripts/QGSystem/QG_QuestUIHandler.cs:183-310 | the search runs until its first empty wave, the waves are written into the pools, and the result is `Render` of the pools before the call |
| `QuestLayout.RenderReachable` | Textadventure/Assets/Scripts/QGSystem/QG_QuestUIHandler.cs:183-310 | when every pool of `eventPools` is reachable from the start pool, the only possible throw is a connection missing from `connUsed`, and with every destination there the scene is drawn |
| `QuestLayout.QuestView.DrawQuest` | Textadventure/Assets/Scripts/QGSystem/QG_QuestUIHandler.cs:143-347 | the layer is selected as in `SelectLayer`; no selected quest throws and leaves the pools alone; otherwise the waves are written and the scene is `Render`; the transition is none when the drawn quest is unchanged, otherwise a fade, or into or out of a sub-quest as the depth grew or shrank; `lastDepth` becomes the drawn depth, and is kept on a throw |
| `QuestLayout.QuestView.DrawLayer` | Textadventure/Assets/Scripts/QGSystem/QG_QuestUIHandler.cs:183-347 | once a quest is selected: the search runs until its first empty wave, the waves are written into the pools, and the scene, or the throw, is `Render` of the pools before the call; on a throw `lastDepth` is kept; otherwise `lastDepth` becomes the drawn depth and the transition is none for the same quest, a fade at the same depth, and into or out of a sub-quest as the depth grew or shrank |
| `QuestScenarios.ServesOnly` | Textadventure/Assets/Scripts/QGSystem/QG_Quest.cs:152-209 | with one queued pool whose one event is ordinary, `NextEvent` serves that event, empties the queue and makes the pool and event current |
| `QuestScenarios.EndsAtEmpty` | Textadventure/Assets/Scripts/QGSystem/QG_Quest.cs:160-164 | with only the empty pool queued, `NextEvent` yields nothing |
| `QuestScenarios.ResolvesOnly` | Textadventure/Assets/Scripts/QGSystem/QG_Quest.cs:99-124 | resolving the only current event queues its destination, empties the current lists, and finishes the quest when the destination is empty |
| `QuestScenarios.RightThenEnd` | Textadventure/Assets/Scripts/QGSystem/QG_Quest.cs:82-214 | on the sample quest, choosing "right" then "end" offers `e0`, then `e2`, finishes the quest, and the next `NextEvent` offers nothing |
| `QuestScenarios.LeftEndsAtOnce` | Textadventure/Assets/Scripts/QGSystem/QG_Quest.cs:119-164 | choosing "left" reaches the empty pool at once: the quest is finished and `NextEvent` offers nothing |
| `QuestScenarios.BuildUnlisted` | Textadventure/Assets/Scripts/QGSystem/QG_Quest.cs:60-80 | constructing a quest whose `eventPools` omits one of its pools leaves that pool and the event it holds at their field defaults |
| `QuestScenarios.BuildBelowUnlisted` | Textadventure/Assets/Scripts/QGSystem/QG_Quest.cs:60-80 | when the unlisted pool holds a sub-quest, that sub-quest, its own listed pool and the event there keep their field defaults as well |
| `NestedScenario.Constructed` | Textadventure/Assets/Scripts/QGSystem/QG_Quest.cs:60-80 | constructing the outer quest `R` also re-initialises its sub-quest `S`: both queue their start pools, `S` is bound to `R` and `S`'s event to `S` |
| `NestedScenario.SOffersX` | Textadventure/Assets/Scripts/QGSystem/QG_Quest.cs:152-209 | `S`, queueing only its start pool, offers its one event and makes it current |
| `NestedScenario.NotRejected` | Textadventure/Assets/Scripts/QGSystem/QG_Quest.cs:172-186 | an unfinished `S` that answers an event is never rejected by `R`'s scan |
| `NestedScenario.OfferedThroughS` | Textadventure/Assets/Scripts/QGSystem/QG_Quest.cs:172-198 | right after construction `R`'s `NextEvent` returns `S`'s event: `S` becomes `R`'s current sub-quest and both serving pools gain one active event |
| `NestedScenario.CanHandOver` | Textadventure/Assets/Scripts/QGSystem/QG_Quest.cs:86-124 | in that state the update of `S`'s event with "go" meets the model's preconditions |
| `NestedScenario.FinishingSReplaysIt` | Textadventure/Assets/Scripts/QGSystem/QG_Quest.cs:82-125 | ending `S`'s event with "go" finishes `S` ("won"), which is then resolved in `R` with "won" and finishes `R` ("done") |
| `NestedScenario.NothingAfter` | Textadventure/Assets/Scripts/QGSystem/QG_Quest.cs:132-164 | after that, `R`'s `NextEvent` clears the finished sub-quest and offers nothing |
| `NestedScenario.ThroughSubQuest` | Textadventure/Assets/Scripts/QGSystem/QG_Quest.cs:60-214 | the whole two-level walk-through on a concrete `World`: offered `S`'s event, `S` and `R` finished, nothing offered next |

## Left out

- `UnityEngine.Random.Range` (QG_Quest.cs:168) is a nondeterministic choice of an index into the pool. Every contract holds for any choice.
- `Random.value` (QG_QuestUIHandler.cs:262) is a coin function passed to `DrawQuest`.
- `QuestEngine.World.constructor`: the saved run-time values of the persisted pools and quests are required to satisfy `Consistent`: every queued or current pool of a quest is one of its own, and a current sub-quest is held by it. That is the arena invariant every operation keeps. Saved quest states that break it, for example after the graph was re-authored, are not modelled.
- `QuestEngine.World.EventUpdate`: the C# code throws on an unknown ending label (`FindIndex` gives -1) or an event that is in no current pool (`Find` gives null). It does so after part of the state was already changed. The model makes these cases preconditions (`CanUpdate`): the label is an ending, its position names an `endingEventPools` entry, and a current pool holds the event.
- `QuestEngine.World.EventUpdate`: when the event is handed to the current sub-quest, `CanUpdate` also requires that the sub-quest could be resolved in the outer quest with its first label, even when this update leaves it unfinished and the C# code never resolves it. Two inputs the C# code runs without a throw are therefore excluded: after `init`, which keeps `currentSubQuest` but empties `currentPools`, an update that does not finish the kept sub-quest; and a sub-quest whose first ending label has no `endingEventPools` entry, on an update that does not finish it. The precondition would otherwise depend on the outcome of the nested update.
- `QuestEngine.World.EventUpdate`: line 88 dereferences `currentSubQuest` without a null check for an event not bound to the quest. The model turns this into a precondition (`CanUpdate` requires a current sub-quest there) instead of modelling the `NullReferenceException`.
- The callback's effect is outside the model. `TryCallback` records which callback handle it invoked. `EventUpdate` never calls `TryCallback`, and neither does the model.
- `QuestGraph.Wf` makes assumptions on the authored graph that the C# code does not check:
  - `EventWf`: every destination in `endingEventPools` is a pool of the event's home quest (lines 115 and 124 of `QG_Quest.cs` would queue any pool);
  - `QuestWf`: every quest has at least one ending label (`endings[0]` at lines 95, 121, 147 and 162 of `QG_Quest.cs` throws on an empty list);
  - `PoolWf`: every event held by a pool has that pool's quest as its home.
  Graphs that break these are outside the model.
- The nesting `level` and each event's `home` quest are authored witnesses. The C# objects do not have them. `QuestGraph.Wf` requires single ownership of pools and strictly decreasing nesting. Cyclic quest nesting, which the C# code would loop on, is outside the model.
- 32-bit `int` overflow of `activeEvents`, `wave`, `waveCount` and `activeNodeDist` is not modelled: the model's integers are unbounded.
- Unity rendering is not modelled:
  - positions (`ComputeNodePositions`, `activeNodeOffset`, `nodePosRegistry` values), colours, `DrawPool`, `DrawLine`, `DrawArrowStar`, `DrawLayerButton`;
  - the `Fade` coroutine and `LayerSwitchAnimation`;
  - destroying child objects.
  A drawn node, line, star or button is reported as a value. The transition is reported as `Transition`.
- The `nodePosRegistry` position table is modelled only as the set of placed pools. A lookup of an unplaced pool is reported as `Unplaced`, where the C# code throws `KeyNotFoundException`. A missing `connUsed` key is reported as `UnknownConnection`, and a null `questToDraw` as `NoQuestToDraw`.
- `wavesAhead` (QG_QuestUIHandler.cs:183-184, 224-226) is never read, so it is not modelled.
- `HashSet` iteration order is not modelled. The wave loop's results (waves, `activeNodeDist`) do not depend on it. The model visits pools in an arbitrary order.
- `QuestScenarios.LeftEndsAtOnce`, `QuestScenarios.RightThenEnd` and the `NestedScenario` members check one sample graph each. They are not general laws.
- `Debug.Log`, `ToString`, `name`, `intensity` and the public overload `DrawQuest(quest, depth, fade)` are not modelled. That overload only adds fades around the modelled method.
- `GameManager.cs`, `UISignal.cs`, `QG_NodeUI.cs` and the authored event classes are not part of this model. A timed event is an ordinary event here.
