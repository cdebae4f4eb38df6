/** The quest-graph traversal engine: `QG_Event`, `QG_EventPool` and `QG_Quest`.
    Their run-time fields live in one arena object, `World`, indexed like the
    authored `Graph`; the methods of `World` are the methods of the three C#
    classes, with the receiver made an index. */
module QuestEngine {
  import opened Wrappers
  import opened Lists
  import opened QuestGraph

  /** Run-time fields of a `QG_Event`: `ending` ("" while unresolved) and `quest`. */
  datatype EventState = EventState(ending: string, quest: Option<EventId>)

  /** Run-time fields of a `QG_EventPool`. */
  datatype PoolState = PoolState(used: bool, connUsed: map<PoolId, bool>, activeEvents: int, wave: int)

  /** Run-time fields of a `QG_Quest`. */
  datatype QuestState = QuestState(
    poolsQueue: seq<PoolId>,
    currentPools: seq<PoolId>,
    currentEvents: seq<EventId>,
    currentSubQuest: Option<EventId>)

  /** A snapshot of every run-time field, used to relate states in contracts. */
  datatype Runtime = Runtime(events: seq<EventState>, pools: seq<PoolState>, quests: seq<QuestState>)

  ghost predicate Shaped(g: Graph, rt: Runtime) {
    |rt.events| == |g.events| && |rt.quests| == |g.events| && |rt.pools| == |g.pools|
  }

  /** Every pool in the list belongs to quest `q`. */
  ghost predicate OwnedBy(g: Graph, q: EventId, ps: seq<PoolId>) {
    forall i :: 0 <= i < |ps| ==> ps[i] < |g.pools| && g.pools[ps[i]].quest == q
  }

  /** What a quest's run-time fields always satisfy: its queue and its current
      pools are pools of its own graph, and a current sub-quest is a quest held
      in one of its pools. */
  ghost predicate QuestStateOk(g: Graph, q: EventId, st: QuestState) {
    && OwnedBy(g, q, st.poolsQueue)
    && OwnedBy(g, q, st.currentPools)
    && (st.currentSubQuest.Some? ==>
          var s := st.currentSubQuest.value;
          IsQuest(g, s) && g.events[s].home == q && s != q)
  }

  /** The table invariant of the arena: it is as long as the graph, and every
      quest state is well formed. */
  ghost predicate Consistent(g: Graph, rt: Runtime) {
    && Shaped(g, rt)
    && (forall x :: 0 <= x < |g.events| && IsQuest(g, x) ==> QuestStateOk(g, x, rt.quests[x]))
  }

  /** Changing quest `q`'s state to a well-formed one keeps the arena consistent. */
  lemma ConsistentUpdate(g: Graph, a: Runtime, b: Runtime, q: EventId)
    requires Consistent(g, a) && Shaped(g, b) && q < |g.events|
    requires forall x :: 0 <= x < |g.events| && x != q ==> b.quests[x] == a.quests[x]
    requires IsQuest(g, q) ==> QuestStateOk(g, q, b.quests[q])
    ensures Consistent(g, b)
  {
  }

  /** Removing from, or appending a pool of `q` to, a list of `q`'s pools keeps it `q`'s. */
  lemma OwnedByRemoveFirst(g: Graph, q: EventId, ps: seq<PoolId>, x: PoolId)
    requires OwnedBy(g, q, ps)
    ensures OwnedBy(g, q, RemoveFirst(ps, x))
  {
    RemoveFirstMultiset(ps, x);
    var r := RemoveFirst(ps, x);
    forall i | 0 <= i < |r|
      ensures r[i] < |g.pools| && g.pools[r[i]].quest == q
    {
      assert r[i] in multiset(r);
      assert r[i] in ps;
    }
  }

  lemma OwnedByAppend(g: Graph, q: EventId, ps: seq<PoolId>, d: PoolId)
    requires OwnedBy(g, q, ps) && d < |g.pools| && g.pools[d].quest == q
    ensures OwnedBy(g, q, ps + [d])
  {
  }

  lemma OwnedByRemoveAt(g: Graph, q: EventId, ps: seq<PoolId>, i: nat)
    requires OwnedBy(g, q, ps) && i < |ps|
    ensures OwnedBy(g, q, RemoveAt(ps, i))
  {
    var r := RemoveAt(ps, i);
    forall j | 0 <= j < |r|
      ensures r[j] < |g.pools| && g.pools[r[j]].quest == q
    {
      if j >= i {
        assert r[j] == ps[j + 1];
      }
    }
  }

  /** The facts a resolution in `q` relies on: the event is held by one of
      `q`'s pools, so it belongs to `q` and is not `q`, and its destinations
      are pools of `q`. */
  lemma ResolveStays(g: Graph, q: EventId, st: QuestState, ev: EventId, lab: string, P: PoolId)
    requires Wf(g) && IsQuest(g, q) && QuestStateOk(g, q, st) && Resolvable(g, st, ev, lab)
    requires P == FindPool(g, st.currentPools, ev).value
    ensures P < |g.pools| && g.pools[P].quest == q && ev in g.pools[P].pool
    ensures ev < |g.events| && g.events[ev].home == q && ev != q
    ensures forall j :: 0 <= j < |g.events[ev].endingEventPools| ==>
              g.events[ev].endingEventPools[j] < |g.pools| && g.pools[g.events[ev].endingEventPools[j]].quest == q
    ensures 0 <= FindIndex(g.events[ev].endings, lab) < |g.events[ev].endingEventPools|
    ensures OwnedBy(g, q, RemoveFirst(st.currentPools, P))
  {
    var k :| 0 <= k < |st.currentPools| && st.currentPools[k] == P;
    var pi :| 0 <= pi < |g.pools[P].pool| && g.pools[P].pool[pi] == ev;
    PoolMember(g, P, pi);
    assert EventWf(g, ev);
    OwnedByRemoveFirst(g, q, st.currentPools, P);
  }

  function FirstEnding(g: Graph, q: EventId): string
    requires Wf(g) && IsQuest(g, q)
  {
    assert EventWf(g, q);
    g.events[q].endings[0]
  }

  /** The pools of quest `q`'s `eventPools` list, and the events they hold (with `q`). */
  ghost function PoolSet(g: Graph, q: EventId): set<PoolId>
    requires IsQuest(g, q)
  {
    Elems(EventPools(g, q))
  }

  ghost function Elems(ps: seq<PoolId>): set<PoolId> {
    set p | p in ps
  }

  ghost function Members(g: Graph, p: PoolId): set<EventId>
    requires p < |g.pools|
  {
    set e | e in g.pools[p].pool
  }

  /** Quest `q` with the events held by the pools of `ps`. */
  ghost function Scope(g: Graph, q: EventId, ps: seq<PoolId>): set<EventId> {
    {q} + set p, e | p in ps && p < |g.pools| && e in g.pools[p].pool :: e
  }

  ghost function QuestEvents(g: Graph, q: EventId): set<EventId>
    requires IsQuest(g, q)
  {
    Scope(g, q, EventPools(g, q))
  }

  /** Everything at nesting level `t` or above is unchanged from `a` to `b`,
      except the pools in `pe` and the events (and their quest fields) in `ee`. */
  ghost predicate Frame(g: Graph, a: Runtime, b: Runtime, t: nat, pe: set<PoolId>, ee: set<EventId>)
    requires Wf(g) && Shaped(g, a)
  {
    && Shaped(g, b)
    && (forall y :: 0 <= y < |g.events| && t <= HomeLevel(g, y) && y !in ee ==>
          b.events[y] == a.events[y] && b.quests[y] == a.quests[y])
    && (forall p :: 0 <= p < |g.pools| && t <= PoolLevel(g, p) && p !in pe ==> b.pools[p] == a.pools[p])
  }

  /** The pools of quest `q` are the same in `a` and `b`. */
  ghost predicate SamePoolsOf(g: Graph, q: EventId, a: Runtime, b: Runtime)
    requires Shaped(g, a) && Shaped(g, b)
  {
    forall p :: 0 <= p < |g.pools| && g.pools[p].quest == q ==> b.pools[p] == a.pools[p]
  }

  /** No `quest` field changes. */
  ghost predicate KeepsOwners(g: Graph, a: Runtime, b: Runtime)
    requires Shaped(g, a) && Shaped(g, b)
  {
    forall y :: 0 <= y < |g.events| ==> b.events[y].quest == a.events[y].quest
  }

  /** What dispatching can change at all: the endings of quests, quest states,
      and the `activeEvents` counters of pools. */
  ghost predicate DispatchChangesOnly(g: Graph, a: Runtime, b: Runtime)
    requires Shaped(g, a) && Shaped(g, b)
  {
    && KeepsOwners(g, a, b)
    && (forall y :: 0 <= y < |g.events| && !IsQuest(g, y) ==> b.events[y] == a.events[y])
    && (forall p :: 0 <= p < |g.pools| ==> b.pools[p] == a.pools[p].(activeEvents := b.pools[p].activeEvents))
  }

  /** The events of `q`'s pools that were finished in `a` are untouched in `b`. */
  ghost predicate KeepsFinished(g: Graph, q: EventId, a: Runtime, b: Runtime)
    requires Shaped(g, a) && Shaped(g, b)
  {
    forall y :: 0 <= y < |g.events| && g.events[y].home == q && y != q && a.events[y].ending != "" ==>
      b.events[y] == a.events[y]
  }

  /** A call on a sub-quest `s` of `q` (its frame is everything from level
      `Level(s) + 1` up, bar `s`) leaves all of `q`'s own state alone. */
  lemma SubCall(g: Graph, a: Runtime, b: Runtime, c: Runtime, q: EventId, s: EventId)
    requires Wf(g) && Shaped(g, a) && Shaped(g, b) && IsQuest(g, q) && IsQuest(g, s)
    requires g.events[s].home == q && s != q
    requires Frame(g, a, b, Level(g, q) + 1, {}, {q})
    requires Frame(g, b, c, Level(g, s) + 1, {}, {s})
    ensures Frame(g, a, c, Level(g, q) + 1, {}, {q})
    ensures c.quests[q] == b.quests[q] && c.events[q] == b.events[q]
    ensures SamePoolsOf(g, q, b, c)
    ensures forall y :: 0 <= y < |g.events| && g.events[y].home == q && y != s ==>
              c.events[y] == b.events[y] && c.quests[y] == b.quests[y]
  {
    assert EventWf(g, s);
    QuestBelowHome(g, q);
    assert Level(g, s) < Level(g, q);
    forall p | 0 <= p < |g.pools| && g.pools[p].quest == q
      ensures c.pools[p] == b.pools[p]
    {
      assert PoolLevel(g, p) == Level(g, q);
    }
  }

  /** Every entry names a pool. */
  ghost predicate PoolIds(g: Graph, ps: seq<PoolId>) {
    forall i :: 0 <= i < |ps| ==> ps[i] < |g.pools|
  }

  /** `List.Find(p => p.pool.Contains(ev))` over the current pools: the first
      pool holding `ev`, or none. */
  function FindPool(g: Graph, cur: seq<PoolId>, ev: EventId): (r: Option<PoolId>)
    requires PoolIds(g, cur)
    ensures r.Some? ==> r.value in cur && ev in g.pools[r.value].pool
    ensures r.Some? ==> forall j :: 0 <= j < FindIndex(cur, r.value) ==> ev !in g.pools[cur[j]].pool
    ensures r.None? <==> forall j :: 0 <= j < |cur| ==> ev !in g.pools[cur[j]].pool
  {
    if cur == [] then None
    else if ev in g.pools[cur[0]].pool then Some(cur[0])
    else
      var r := FindPool(g, cur[1..], ev);
      assert forall j :: 0 <= j < |cur| - 1 ==> cur[1..][j] == cur[j + 1];
      r
  }

  /** What `EventUpdate` needs of an event resolved in quest state `st`: the
      label is one of its endings, its position names an `endingEventPools` entry, and
      one of the current pools holds it (otherwise `FindIndex` gives -1 or `Find`
      gives null and the C# code throws). */
  ghost predicate Resolvable(g: Graph, st: QuestState, ev: EventId, lab: string) {
    && ev < |g.events|
    && lab in g.events[ev].endings
    && FindIndex(g.events[ev].endings, lab) < |g.events[ev].endingEventPools|
    && PoolIds(g, st.currentPools)
    && FindPool(g, st.currentPools, ev).Some?
  }

  /** The caller's obligations for `EventUpdate(q, e, lab)`: either `e` is bound
      to `q` and resolvable there, or `q` has a (deeper) current sub-quest that
      can take the update and could itself be resolved in `q` by its first label. */
  ghost predicate CanUpdate(g: Graph, rt: Runtime, q: EventId, e: EventId, lab: string)
    requires Wf(g) && Shaped(g, rt)
    decreases Level(g, q)
  {
    && IsQuest(g, q)
    && e < |g.events|
    && if rt.events[e].quest == Some(q) then Resolvable(g, rt.quests[q], e, lab)
       else
         && rt.quests[q].currentSubQuest.Some?
         && var s := rt.quests[q].currentSubQuest.value;
         && IsQuest(g, s) && Level(g, s) < Level(g, q)
         && CanUpdate(g, rt, s, e, lab)
         && Resolvable(g, rt.quests[q], s, FirstEnding(g, s))
  }

  /** The effect of lines 99-124 of `EventUpdate` on quest `q`'s own state when
      `ev` is resolved with `lab`: `ev` leaves `currentEvents`, its pool `P`
      loses one active event, is marked used and leaves `currentPools` iff no
      active event is left, the edge to the destination is marked used, the
      destination is queued, and an empty destination ends the quest. */
  ghost predicate Resolved(g: Graph, q: EventId, ev: EventId, lab: string, a: Runtime, b: Runtime)
    requires Wf(g) && IsQuest(g, q) && Shaped(g, a) && Shaped(g, b)
    requires Resolvable(g, a.quests[q], ev, lab)
  {
    assert EventWf(g, ev);
    var st := a.quests[q];
    var P := FindPool(g, st.currentPools, ev).value;
    var dest := g.events[ev].endingEventPools[FindIndex(g.events[ev].endings, lab)];
    var left := a.pools[P].activeEvents - 1;
    && b.quests[q] == QuestState(
         st.poolsQueue + [dest],
         if left > 0 then st.currentPools else RemoveFirst(st.currentPools, P),
         RemoveFirst(st.currentEvents, ev),
         st.currentSubQuest)
    && b.pools[P] == PoolState(true, a.pools[P].connUsed[dest := true], left, a.pools[P].wave)
    && (forall p :: 0 <= p < |g.pools| && g.pools[p].quest == q && p != P ==> b.pools[p] == a.pools[p])
    && b.events[ev].ending == lab && b.events[ev].quest == a.events[ev].quest
    && b.events[q] == (if IsEnding(g, dest) then a.events[q].(ending := FirstEnding(g, q)) else a.events[q])
  }

  /** `Resolved`, and nothing else in the whole state changed. */
  ghost predicate ResolvedAlone(g: Graph, q: EventId, ev: EventId, lab: string, a: Runtime, b: Runtime)
    requires Wf(g) && IsQuest(g, q) && Shaped(g, a) && Shaped(g, b)
    requires Resolvable(g, a.quests[q], ev, lab)
  {
    var P := FindPool(g, a.quests[q].currentPools, ev).value;
    && Resolved(g, q, ev, lab, a, b)
    && (forall y :: 0 <= y < |g.events| && y != q && y != ev ==> b.events[y] == a.events[y])
    && (forall y :: 0 <= y < |g.events| && y != q ==> b.quests[y] == a.quests[y])
    && (forall p :: 0 <= p < |g.pools| && p != P ==> b.pools[p] == a.pools[p])
  }

  /** A pool the scan may pass over without serving: it is not empty and it
      holds a quest (an ordinary event drawn from a pool is always served). */
  ghost predicate Skippable(g: Graph, p: PoolId)
    requires Wf(g) && p < |g.pools|
  {
    && !IsEnding(g, p)
    && exists k :: 0 <= k < |g.pools[p].pool| && IsQuest(g, g.pools[p].pool[k])
  }

  /** One more skipped round of the scan. */
  lemma SkippedSnoc(g: Graph, Q: seq<PoolId>, i: nat)
    requires Wf(g) && 2 * i < |Q| && forall k :: 0 <= k < |Q| ==> Q[k] < |g.pools|
    requires forall t :: 0 <= t < i ==> Skippable(g, Q[2 * t])
    requires Skippable(g, Q[2 * i])
    ensures forall t :: 0 <= t < i + 1 ==> Skippable(g, Q[2 * t])
  {
  }

  /** A nested `NextEvent` call on a sub-quest: the states before and after,
      its answer, and how it went (its own `Trace`). */
  datatype Ask = Ask(pre: Runtime, post: Runtime, r: Option<EventId>, inner: Trace)

  /** A candidate `cand` drawn in a round of the scan that served nothing, the
      state `at` when it was drawn (after its pool left the queue), and the
      nested call it was asked, unless it was finished already. */
  datatype Reject = Reject(cand: EventId, at: Runtime, asked: Option<Ask>)

  /** How a `NextEvent` call went: the call on the current sub-quest, if there
      was one, the rejected candidates of the scan in order, the event drawn
      from the serving pool, and the call on it when it is a quest. */
  datatype Trace = Trace(resume: Option<Ask>, rejects: seq<Reject>, picked: EventId, served: Option<Ask>)

  /** From `x` to `y` nothing changed but quest `q`'s own event record and
      state and the pools `ps`. */
  ghost predicate OnlyQuest(g: Graph, q: EventId, ps: set<PoolId>, x: Runtime, y: Runtime) {
    && Shaped(g, x) && Shaped(g, y)
    && (forall z :: 0 <= z < |g.events| && z != q ==> y.events[z] == x.events[z] && y.quests[z] == x.quests[z])
    && (forall p :: 0 <= p < |g.pools| && p !in ps ==> y.pools[p] == x.pools[p])
  }

  /** `x` with quest `q`'s `currentSubQuest` cleared (line 136). */
  ghost function Cleared(x: Runtime, q: EventId): Runtime
    requires q < |x.quests|
  {
    x.(quests := x.quests[q := x.quests[q].(currentSubQuest := None)])
  }

  /** The state after rejected round `rj`. */
  ghost function After(rj: Reject): Runtime {
    if rj.asked.Some? then rj.asked.value.post else rj.at
  }

  /** The state before the rejected round `t` of a scan begun in `a`. */
  ghost function Before(a: Runtime, rjs: seq<Reject>, t: nat): Runtime
    requires t <= |rjs|
  {
    if t == 0 then a else After(rjs[t - 1])
  }

  /** The nested call `ask` was `NextEvent` on quest `s`, and went as `Advanced` says. */
  ghost predicate Answered(g: Graph, s: EventId, ask: Ask)
    requires Wf(g)
    decreases Level(g, s), 4
  {
    IsQuest(g, s) && Consistent(g, ask.pre) && Advanced(g, s, ask.pre, ask.post, ask.r, ask.inner)
  }

  /** A round of the scan of quest `q` on pool `P`, from state `x`, that
      served nothing (lines 166-186): only `q`'s queue changed when the
      candidate, a quest of `P`, was drawn, and it was either finished then
      (line 178) or unfinished and its own `NextEvent` returned nothing
      (lines 181-186). */
  ghost predicate RejectOk(g: Graph, q: EventId, P: PoolId, x: Runtime, rj: Reject)
    requires Wf(g) && P < |g.pools|
    decreases Level(g, q), 0
  {
    var c := rj.cand;
    && c in g.pools[P].pool && c < |g.events| && g.events[c].home == q && c != q && IsQuest(g, c)
    && OnlyQuest(g, q, {}, x, rj.at)
    && match rj.asked
       case None => rj.at.events[c].ending != ""
       case Some(ask) =>
         && ask.pre == rj.at && rj.at.events[c].ending == "" && ask.r == None
         && (assert EventWf(g, c); Answered(g, c, ask))
  }

  /** The rounds `rjs` of a scan of quest `q` begun in `a` over queue `Q`,
      each from the state the one before left. */
  ghost predicate Rejections(g: Graph, q: EventId, a: Runtime, Q: seq<PoolId>, rjs: seq<Reject>)
    requires Wf(g) && OwnedBy(g, q, Q)
    decreases Level(g, q), 1
  {
    forall t {:trigger Before(a, rjs, t)} :: 0 <= t < |rjs| ==> 2 * t < |Q| && RejectOk(g, q, Q[2 * t], Before(a, rjs, t), rjs[t])
  }

  /** The outcome of the pool-queue scan of `NextEvent` (lines 144-213) on
      quest `q`, begun in state `a`: `rjs` are the rounds that served nothing
      (see `RejectOk`), `picked` is the event drawn from the serving pool and
      `served` the call on it when it is a quest. The scan looks at the
      original queue positions 0, 2, 4, ...; an empty pool there ends the
      quest and stays queued; otherwise the pool is removed and either serves
      an event (which becomes active) or is rejected, and exhaustion yields
      nothing. A served quest was unfinished (lines 178-179) and its own event
      is the answer (lines 181, 198); an ordinary event is itself the answer
      (line 209). Besides, only `q`'s own state and the serving pool change
      after the last rejected round. */
  ghost predicate Dispatched(g: Graph, q: EventId, a: Runtime, b: Runtime,
                             r: Option<EventId>, rjs: seq<Reject>, picked: EventId, served: Option<Ask>)
    requires Wf(g) && IsQuest(g, q) && Shaped(g, a) && Shaped(g, b) && OwnedBy(g, q, a.quests[q].poolsQueue)
    decreases Level(g, q), 2
  {
    var st0 := a.quests[q];
    var Q := st0.poolsQueue;
    var st := b.quests[q];
    var n := |rjs|;
    if Q == [] then
      && r == None && rjs == [] && served == None && st == st0
      && b.events[q] == a.events[q].(ending := FirstEnding(g, q))
      && OnlyQuest(g, q, {}, a, b)
    else
      && 2 * n <= |Q| + 1
      && (forall t :: 0 <= t < n ==> Skippable(g, Q[2 * t]))
      && Rejections(g, q, a, Q, rjs)
      && var base := Before(a, rjs, n);
      && if 2 * n >= |Q| then
           && r == None && served == None && st == st0.(poolsQueue := ScanRemoved(Q, n))
           && b.events[q] == a.events[q]
           && SamePoolsOf(g, q, a, b) && OnlyQuest(g, q, {}, base, b)
         else if IsEnding(g, Q[2 * n]) then
           && r == None && served == None && st == st0.(poolsQueue := ScanRemoved(Q, n))
           && b.events[q] == a.events[q].(ending := FirstEnding(g, q))
           && SamePoolsOf(g, q, a, b) && OnlyQuest(g, q, {}, base, b)
         else
           var P := Q[2 * n];
           && picked in g.pools[P].pool && picked < |g.events| && g.events[picked].home == q && picked != q
           && r.Some?
           && (if IsQuest(g, picked) then
                 && served.Some?
                 && OnlyQuest(g, q, {}, base, served.value.pre)
                 && a.events[picked].ending == "" && served.value.pre.events[picked].ending == ""
                 && (assert EventWf(g, picked); Answered(g, picked, served.value))
                 && served.value.r == r
                 && OnlyQuest(g, q, {P}, served.value.post, b)
               else
                 && served == None && r == Some(picked)
                 && OnlyQuest(g, q, {P}, base, b))
           && st == QuestState(ScanRemoved(Q, n + 1), st0.currentPools + [P], st0.currentEvents + [picked],
                               if IsQuest(g, picked) then Some(picked) else st0.currentSubQuest)
           && b.events[q] == a.events[q]
           && b.pools[P] == a.pools[P].(activeEvents := a.pools[P].activeEvents + 1)
           && (forall p :: 0 <= p < |g.pools| && g.pools[p].quest == q && p != P ==> b.pools[p] == a.pools[p])
  }

  /** The promise of `NextEvent` on quest `q`, from `a` to `b`, going as `tr`
      says: nothing changes above `q`'s level but `q`, only what
      `DispatchChangesOnly` allows changes, and either there is no current
      sub-quest and the pool queue is scanned (see `Dispatched`), or the
      current sub-quest `s` is asked first (line 134, the same predicate one
      level down) without touching `q`'s state, ending or pools; if `s` is
      still unfinished, its answer is the answer and nothing else happens
      (lines 135-139), otherwise the field is cleared and the queue scanned in
      the same call. */
  ghost predicate Advanced(g: Graph, q: EventId, a: Runtime, b: Runtime, r: Option<EventId>, tr: Trace)
    requires Wf(g) && IsQuest(g, q) && Consistent(g, a)
    decreases Level(g, q), 3
  {
    && Frame(g, a, b, Level(g, q) + 1, {}, {q})
    && DispatchChangesOnly(g, a, b)
    && (assert QuestStateOk(g, q, a.quests[q]);
       var s := a.quests[q].currentSubQuest;
       if s.None? then
         && tr.resume.None?
         && Dispatched(g, q, a, b, r, tr.rejects, tr.picked, tr.served)
       else
         var ask := tr.resume;
         && ask.Some?
         && ask.value.pre == a
         && (assert EventWf(g, s.value); Answered(g, s.value, ask.value))
         && Consistent(g, ask.value.post)
         && ask.value.post.quests[q] == a.quests[q] && ask.value.post.events[q] == a.events[q]
         && SamePoolsOf(g, q, a, ask.value.post)
         && if ask.value.post.events[s.value].ending == "" then
              b == ask.value.post && r == ask.value.r
            else
              Dispatched(g, q, Cleared(ask.value.post, q), b, r, tr.rejects, tr.picked, tr.served))
  }

  /** The scan, begun after the current sub-quest (if any) finished and was
      cleared, completes the promise of `NextEvent`. */
  lemma ScanAdvances(g: Graph, q: EventId, a: Runtime, mid: Runtime, c: Runtime, r: Option<EventId>, tr: Trace)
    requires Wf(g) && IsQuest(g, q) && Consistent(g, a) && Consistent(g, mid)
    requires Frame(g, a, mid, Level(g, q) + 1, {}, {q}) && DispatchChangesOnly(g, a, mid)
    requires a.quests[q].currentSubQuest.None? ==> tr.resume.None? && mid == a
    requires a.quests[q].currentSubQuest.Some? ==>
      var s := a.quests[q].currentSubQuest.value;
      && tr.resume.Some? && tr.resume.value.pre == a && Answered(g, s, tr.resume.value)
      && Consistent(g, tr.resume.value.post)
      && tr.resume.value.post.quests[q] == a.quests[q] && tr.resume.value.post.events[q] == a.events[q]
      && SamePoolsOf(g, q, a, tr.resume.value.post)
      && tr.resume.value.post.events[s].ending != ""
      && mid == Cleared(tr.resume.value.post, q)
    requires ScanOutcome(g, q, mid, c, r, tr.rejects, tr.picked, tr.served)
    ensures Advanced(g, q, a, c, r, tr)
  {
    assert QuestStateOk(g, q, a.quests[q]);
  }

  /** With no current sub-quest and an empty pool at the head of the queue,
      `NextEvent` yields nothing, leaves `q`'s quest state as it was and ends
      `q` with its first label; so the next `NextEvent` does the same again. */
  lemma EndingIsSticky(g: Graph, q: EventId, a: Runtime, b: Runtime, c: Runtime,
                       r1: Option<EventId>, tr1: Trace, r2: Option<EventId>, tr2: Trace)
    requires Wf(g) && IsQuest(g, q) && Consistent(g, a) && Consistent(g, b)
    requires a.quests[q].currentSubQuest.None?
    requires |a.quests[q].poolsQueue| > 0 && QuestStateOk(g, q, a.quests[q])
    requires IsEnding(g, a.quests[q].poolsQueue[0])
    requires Advanced(g, q, a, b, r1, tr1)
    requires Advanced(g, q, b, c, r2, tr2)
    ensures r1 == None && b.quests[q] == a.quests[q] && b.events[q].ending == FirstEnding(g, q)
    ensures r2 == None && c.quests[q] == a.quests[q] && c.events[q].ending == FirstEnding(g, q)
  {
    var Q := a.quests[q].poolsQueue;
    assert !Skippable(g, Q[2 * 0]);
    assert Dispatched(g, q, a, b, r1, tr1.rejects, tr1.picked, tr1.served);
    assert |tr1.rejects| == 0;
    assert Dispatched(g, q, b, c, r2, tr2.rejects, tr2.picked, tr2.served);
  }

  /** What `QG_EventPool.Init(quest)` does to pool `p` (lines 30-45), down to
      the bottom of the nesting: `used` and `activeEvents` reset, every
      destination of every contained event entered in `connUsed` as false
      (other keys kept), every contained event bound to `quest` and
      unresolved, and every contained quest re-initialised with its own pools
      reset in turn (`QuestReset`). */
  ghost predicate PoolReset(g: Graph, quest: EventId, p: PoolId, a: Runtime, b: Runtime)
    requires Wf(g) && Shaped(g, a) && Shaped(g, b)
    decreases if p < |g.pools| then PoolLevel(g, p) else 0, 0
  {
    && p < |g.pools|
    && (assert PoolWf(g, p);
        var pl := g.pools[p].pool;
        && b.pools[p] == a.pools[p].(used := false, activeEvents := 0,
                                      connUsed := a.pools[p].connUsed + FalseMap(Targets(g, p)))
        && (forall i :: 0 <= i < |pl| ==> b.events[pl[i]] == EventState("", Some(quest)))
        && (forall i :: 0 <= i < |pl| && IsQuest(g, pl[i]) ==> QuestReset(g, pl[i], a, b)))
  }

  /** What `QG_Quest.init` (lines 70-80) does to quest `x`: its state becomes
      `Reinit` of the old one and every pool of its `eventPools` is reset for it. */
  ghost predicate QuestReset(g: Graph, x: EventId, a: Runtime, b: Runtime)
    requires Wf(g) && Shaped(g, a) && Shaped(g, b) && IsQuest(g, x)
    decreases Level(g, x), 1
  {
    assert EventWf(g, x);
    && b.quests[x] == Reinit(g, x, a.quests[x])
    && (forall j :: 0 <= j < |EventPools(g, x)| ==> PoolReset(g, x, EventPools(g, x)[j], a, b))
  }

  /** `y` is `x` itself or held somewhere inside it: the part of the arena
      that `x.init()` reaches. */
  ghost predicate InTree(g: Graph, y: EventId, x: EventId)
    requires Wf(g)
  {
    y == x || Inside(g, y, x)
  }

  /** Nothing outside quest `x`'s tree changed from `a` to `b`; in particular
      `x`'s own event record did not. */
  ghost predicate TreeFrame(g: Graph, a: Runtime, b: Runtime, x: EventId)
    requires Wf(g) && Shaped(g, a)
  {
    && Shaped(g, b)
    && (forall y :: 0 <= y < |g.events| && !Inside(g, y, x) ==> b.events[y] == a.events[y])
    && (forall y :: 0 <= y < |g.events| && !InTree(g, y, x) ==> b.quests[y] == a.quests[y])
    && (forall p :: 0 <= p < |g.pools| && !InTree(g, g.pools[p].quest, x) ==> b.pools[p] == a.pools[p])
  }

  /** `a` and `b` agree on everything in `x`'s tree that a reset of `x` reads or writes. */
  ghost predicate TreeAgree(g: Graph, a: Runtime, b: Runtime, x: EventId)
    requires Wf(g) && Shaped(g, a) && Shaped(g, b)
  {
    && (forall y :: 0 <= y < |g.events| && Inside(g, y, x) ==> b.events[y] == a.events[y])
    && (forall y :: 0 <= y < |g.events| && InTree(g, y, x) ==> b.quests[y] == a.quests[y])
    && (forall p :: 0 <= p < |g.pools| && InTree(g, g.pools[p].quest, x) ==> b.pools[p] == a.pools[p])
  }

  /** `a` and `b` agree on pool `p`, its events and their trees. */
  ghost predicate PoolAgree(g: Graph, a: Runtime, b: Runtime, p: PoolId)
    requires Wf(g) && Shaped(g, a) && Shaped(g, b)
  {
    && p < |g.pools|
    && b.pools[p] == a.pools[p]
    && (assert PoolWf(g, p);
        forall i :: 0 <= i < |g.pools[p].pool| ==>
          b.events[g.pools[p].pool[i]] == a.events[g.pools[p].pool[i]] && TreeAgree(g, a, b, g.pools[p].pool[i]))
  }

  /** `y` lies inside quest `q` under one of the events `es` of `q`'s pools. */
  ghost predicate Beneath(g: Graph, y: EventId, q: EventId, es: set<EventId>)
    requires Wf(g)
  {
    Inside(g, y, q) && Child(g, y, q) in es
  }

  /** From `a` to `b` nothing changed but the pools `ps` and what quest `q`
      holds under the events `es`. */
  ghost predicate BeneathFrame(g: Graph, a: Runtime, b: Runtime, q: EventId, es: set<EventId>, ps: set<PoolId>)
    requires Wf(g) && Shaped(g, a)
  {
    && Shaped(g, b)
    && (forall y :: 0 <= y < |g.events| && !Beneath(g, y, q, es) ==>
          b.events[y] == a.events[y] && b.quests[y] == a.quests[y])
    && (forall p :: 0 <= p < |g.pools| && p !in ps && !Beneath(g, g.pools[p].quest, q, es) ==>
          b.pools[p] == a.pools[p])
  }

  /** One run-time field group of the arena: an event record, a quest state or a pool. */
  datatype Slot = EventSlot(e: EventId) | QuestSlot(q: EventId) | PoolSlot(p: PoolId)

  /** What `QG_EventPool.Init` (lines 30-45) writes when it runs on pool `p`:
      the pool itself, the record of each event it holds, and what `init()`
      of each quest it holds writes. */
  ghost function PoolReach(g: Graph, p: PoolId): set<Slot>
    requires Wf(g) && p < |g.pools|
    decreases PoolLevel(g, p), 0
  {
    assert PoolWf(g, p);
    var pl := g.pools[p].pool;
    {PoolSlot(p)} + (set i | 0 <= i < |pl| :: EventSlot(pl[i]))
      + (set i, x | 0 <= i < |pl| && IsQuest(g, pl[i]) && x in QuestReach(g, pl[i]) :: x)
  }

  /** What `QG_Quest.init` (lines 70-80) writes when it runs on quest `q`:
      the quest's own state, and what `Init` of each pool of its `eventPools`
      list writes. */
  ghost function QuestReach(g: Graph, q: EventId): set<Slot>
    requires Wf(g) && IsQuest(g, q)
    decreases Level(g, q), 1
  {
    assert EventWf(g, q);
    var ps := EventPools(g, q);
    {QuestSlot(q)} + (set j, x | 0 <= j < |ps| && x in PoolReach(g, ps[j]) :: x)
  }

  /** From `a` to `b` nothing outside the slots `r` changed. */
  ghost predicate Untouched(g: Graph, a: Runtime, b: Runtime, r: set<Slot>)
    requires Shaped(g, a)
  {
    && Shaped(g, b)
    && (forall y :: 0 <= y < |g.events| && EventSlot(y) !in r ==> b.events[y] == a.events[y])
    && (forall y :: 0 <= y < |g.events| && QuestSlot(y) !in r ==> b.quests[y] == a.quests[y])
    && (forall p :: 0 <= p < |g.pools| && PoolSlot(p) !in r ==> b.pools[p] == a.pools[p])
  }

  /** A pool writes itself and its events, and everything a quest it holds writes. */
  lemma PoolReachHas(g: Graph, p: PoolId)
    requires Wf(g) && p < |g.pools|
    ensures PoolSlot(p) in PoolReach(g, p)
    ensures forall i :: 0 <= i < |g.pools[p].pool| ==>
              && EventSlot(g.pools[p].pool[i]) in PoolReach(g, p)
              && (IsQuest(g, g.pools[p].pool[i]) ==> QuestReach(g, g.pools[p].pool[i]) <= PoolReach(g, p))
  {
    assert PoolWf(g, p);
  }

  /** A quest writes its own state and everything its listed pools write. */
  lemma QuestReachHas(g: Graph, q: EventId)
    requires Wf(g) && IsQuest(g, q)
    ensures QuestSlot(q) in QuestReach(g, q)
    ensures forall j :: 0 <= j < |EventPools(g, q)| ==>
              EventPools(g, q)[j] < |g.pools| && PoolReach(g, EventPools(g, q)[j]) <= QuestReach(g, q)
  {
    assert EventWf(g, q);
  }

  lemma UntouchedTrans(g: Graph, a: Runtime, b: Runtime, c: Runtime, r1: set<Slot>, r2: set<Slot>, r: set<Slot>)
    requires Shaped(g, a) && Untouched(g, a, b, r1) && Untouched(g, b, c, r2) && r1 <= r && r2 <= r
    ensures Untouched(g, a, c, r)
  {
  }

  /** Event `y` sits in a pool listed in its home quest's `eventPools`. */
  ghost predicate InListedPool(g: Graph, y: EventId) {
    y < |g.events| && IsQuest(g, g.events[y].home) && y in QuestEvents(g, g.events[y].home)
  }

  /** `y` is nested in `s` through listed pools only: `y` and every quest on its
      way up to `s` sit in a pool their home quest lists. */
  ghost predicate ListedInside(g: Graph, y: EventId, s: EventId)
    requires Wf(g)
    decreases if y < |g.events| && Level(g, g.events[y].home) <= Level(g, s)
              then Level(g, s) - Level(g, g.events[y].home) else 0
  {
    && InListedPool(g, y)
    && var h := g.events[y].home;
    && h != y
    && (h == s ||
        (assert EventWf(g, y) && EventWf(g, h);
         g.events[h].home != h && Level(g, h) < Level(g, s) && ListedInside(g, h, s)))
  }

  lemma {:induction false} ListedInsideInside(g: Graph, y: EventId, s: EventId)
    requires Wf(g) && ListedInside(g, y, s)
    ensures Inside(g, y, s) && InListedPool(g, y)
    decreases if Level(g, g.events[y].home) <= Level(g, s)
              then Level(g, s) - Level(g, g.events[y].home) else 0
  {
    var h := g.events[y].home;
    if h != s {
      assert EventWf(g, y) && EventWf(g, h);
      ListedInsideInside(g, h, s);
    }
  }

  /** Listed nesting is transitive. */
  lemma {:induction false} ListedInsideTrans(g: Graph, y: EventId, x: EventId, s: EventId)
    requires Wf(g) && ListedInside(g, y, x) && ListedInside(g, x, s)
    ensures ListedInside(g, y, s)
    decreases Level(g, x) - Level(g, g.events[y].home)
  {
    var h := g.events[y].home;
    assert EventWf(g, y);
    ListedInsideInside(g, x, s);
    InsideLevel(g, x, s);
    if h != x {
      assert EventWf(g, h);
      ListedInsideInside(g, h, x);
      InsideLevel(g, h, x);
      ListedInsideTrans(g, h, x, s);
    }
  }

  /** Slot `s` lies in quest `x`'s tree and is reached through listed pools
      only: `x`'s own state, the event or quest record of an event listed-nested
      in `x`, or a pool listed by its own quest where that quest is `x` or is
      listed-nested in `x`. */
  ghost predicate Listed(g: Graph, x: EventId, s: Slot)
    requires Wf(g)
  {
    match s
    case EventSlot(y) => ListedInside(g, y, x)
    case QuestSlot(y) => y == x || (IsQuest(g, y) && ListedInside(g, y, x))
    case PoolSlot(p) =>
      && p < |g.pools|
      && var q := g.pools[p].quest;
      && IsQuest(g, q) && p in PoolSet(g, q) && (q == x || ListedInside(g, q, x))
  }

  /** What `Init` of pool `p` writes: pool `p` itself, an event it holds, or a
      slot `Listed` under a quest it holds. */
  ghost predicate ListedVia(g: Graph, p: PoolId, s: Slot)
    requires Wf(g) && p < |g.pools|
  {
    || s == PoolSlot(p)
    || exists i :: 0 <= i < |g.pools[p].pool| &&
         (s == EventSlot(g.pools[p].pool[i]) ||
          (IsQuest(g, g.pools[p].pool[i]) && Listed(g, g.pools[p].pool[i], s)))
  }

  /** What `Init` of pool `p` writes is the pool, its events, or reached from a
      quest it holds through listed pools only. */
  lemma {:induction false} PoolReachListed(g: Graph, p: PoolId, s: Slot)
    requires Wf(g) && p < |g.pools| && s in PoolReach(g, p)
    ensures ListedVia(g, p, s)
    decreases PoolLevel(g, p), 0
  {
    assert PoolWf(g, p);
    var pl := g.pools[p].pool;
    if s != PoolSlot(p) && s !in (set i | 0 <= i < |pl| :: EventSlot(pl[i])) {
      var i :| 0 <= i < |pl| && IsQuest(g, pl[i]) && s in QuestReach(g, pl[i]);
      PoolMember(g, p, i);
      QuestReachListed(g, pl[i], s);
    }
  }

  /** An event held by a listed pool of quest `x` is listed-nested in `x`. */
  lemma ListedMember(g: Graph, x: EventId, j: nat, i: nat)
    requires Wf(g) && IsQuest(g, x) && j < |EventPools(g, x)|
    requires EventPools(g, x)[j] < |g.pools| && i < |g.pools[EventPools(g, x)[j]].pool|
    requires g.pools[EventPools(g, x)[j]].quest == x
    ensures ListedInside(g, g.pools[EventPools(g, x)[j]].pool[i], x)
  {
    var ps := EventPools(g, x);
    var e := g.pools[ps[j]].pool[i];
    PoolMember(g, ps[j], i);
    assert ps[j] in ps && e in g.pools[ps[j]].pool;
    assert e in Scope(g, x, ps);
  }

  /** Whatever `init()` of quest `x` writes lies in `x`'s tree and is reached
      through listed pools only: nothing below a pool its quest does not list
      is ever written. */
  lemma {:induction false} QuestReachListed(g: Graph, x: EventId, s: Slot)
    requires Wf(g) && IsQuest(g, x) && s in QuestReach(g, x)
    ensures Listed(g, x, s)
    decreases Level(g, x), 1
  {
    assert EventWf(g, x);
    var ps := EventPools(g, x);
    if s != QuestSlot(x) {
      var j :| 0 <= j < |ps| && s in PoolReach(g, ps[j]);
      var p := ps[j];
      PoolReachListed(g, p, s);
      if s == PoolSlot(p) {
        assert p in Elems(ps);
      } else {
        var i :| 0 <= i < |g.pools[p].pool| &&
          (s == EventSlot(g.pools[p].pool[i]) ||
           (IsQuest(g, g.pools[p].pool[i]) && Listed(g, g.pools[p].pool[i], s)));
        var e := g.pools[p].pool[i];
        ListedMember(g, x, j, i);
        if s != EventSlot(e) {
          match s
          case EventSlot(y) => ListedInsideTrans(g, y, e, x);
          case QuestSlot(y) => if y != e { ListedInsideTrans(g, y, e, x); }
          case PoolSlot(p2) => if g.pools[p2].quest != e { ListedInsideTrans(g, g.pools[p2].quest, e, x); }
        }
      }
    }
  }

  /** `QG_EventPool.Init` never writes `wave`: a pool reached by resetting
      pool `p` keeps the wave it had. */
  lemma {:induction false} PoolResetKeepsWave(g: Graph, quest: EventId, p: PoolId, a: Runtime, b: Runtime, s: PoolId)
    requires Wf(g) && Shaped(g, a) && Shaped(g, b) && p < |g.pools| && s < |g.pools|
    requires PoolReset(g, quest, p, a, b) && PoolSlot(s) in PoolReach(g, p)
    ensures b.pools[s].wave == a.pools[s].wave
    decreases PoolLevel(g, p), 0
  {
    assert PoolWf(g, p);
    var pl := g.pools[p].pool;
    if s != p {
      var i :| 0 <= i < |pl| && IsQuest(g, pl[i]) && PoolSlot(s) in QuestReach(g, pl[i]);
      PoolMember(g, p, i);
      QuestResetKeepsWave(g, pl[i], a, b, s);
    }
  }

  lemma {:induction false} QuestResetKeepsWave(g: Graph, x: EventId, a: Runtime, b: Runtime, s: PoolId)
    requires Wf(g) && Shaped(g, a) && Shaped(g, b) && IsQuest(g, x) && s < |g.pools|
    requires QuestReset(g, x, a, b) && PoolSlot(s) in QuestReach(g, x)
    ensures b.pools[s].wave == a.pools[s].wave
    decreases Level(g, x), 1
  {
    assert EventWf(g, x);
    var ps := EventPools(g, x);
    var j :| 0 <= j < |ps| && PoolSlot(s) in PoolReach(g, ps[j]);
    PoolResetKeepsWave(g, x, ps[j], a, b, s);
  }

  /** `init()` of quest `x` leaves every pool's `wave` as it was: the search
      depth of an earlier drawing survives re-initialisation. */
  lemma InitKeepsWaves(g: Graph, x: EventId, a: Runtime, b: Runtime)
    requires Wf(g) && IsQuest(g, x) && Shaped(g, a) && Shaped(g, b)
    requires QuestReset(g, x, a, b) && Untouched(g, a, b, QuestReach(g, x))
    ensures forall p :: 0 <= p < |g.pools| ==> b.pools[p].wave == a.pools[p].wave
  {
    forall p | 0 <= p < |g.pools|
      ensures b.pools[p].wave == a.pools[p].wave
    {
      if PoolSlot(p) in QuestReach(g, x) {
        QuestResetKeepsWave(g, x, a, b, p);
      }
    }
  }

  /** Lines 72-76 of `QG_Quest.init` write only the quest's own state. */
  lemma ReinitUntouched(g: Graph, q: EventId, a: Runtime, a1: Runtime)
    requires Wf(g) && IsQuest(g, q) && Shaped(g, a)
    requires a1 == a.(quests := a.quests[q := Reinit(g, q, a.quests[q])])
    ensures Untouched(g, a, a1, QuestReach(g, q))
  {
    QuestReachHas(g, q);
  }

  /** One round of `QG_EventPool.Init` writes only what the pool reaches. */
  lemma MemberUntouched(g: Graph, quest: EventId, p: PoolId, a: Runtime, b: Runtime, m: Runtime, c: Runtime, i: nat)
    requires Wf(g) && p < |g.pools| && i < |g.pools[p].pool| && Shaped(g, a) && Shaped(g, b)
    requires Untouched(g, a, b, PoolReach(g, p)) && InitMember(g, quest, p, b, m, c, i)
    requires IsQuest(g, g.pools[p].pool[i]) ==> Untouched(g, m, c, QuestReach(g, g.pools[p].pool[i]))
    ensures Untouched(g, a, c, PoolReach(g, p))
  {
    PoolReachHas(g, p);
    var e := g.pools[p].pool[i];
    assert Untouched(g, b, m, PoolReach(g, p));
    if IsQuest(g, e) {
      UntouchedTrans(g, a, m, c, PoolReach(g, p), QuestReach(g, e), PoolReach(g, p));
    }
  }

  /** A change confined to what `init()` of `x` writes leaves alone every
      pool that is not listed by its quest, or whose quest is not `x` or
      listed-nested in `x`, every event not listed-nested in `x` (in
      particular one outside a listed pool, with everything below it), the
      quest state of every non-quest, and everything outside `x`'s tree. */
  lemma InitKeepsUnlisted(g: Graph, x: EventId, a: Runtime, b: Runtime)
    requires Wf(g) && IsQuest(g, x) && Shaped(g, a) && Untouched(g, a, b, QuestReach(g, x))
    ensures forall p :: 0 <= p < |g.pools| && !Listed(g, x, PoolSlot(p)) ==> b.pools[p] == a.pools[p]
    ensures forall y :: 0 <= y < |g.events| && !ListedInside(g, y, x) ==> b.events[y] == a.events[y]
    ensures forall y :: 0 <= y < |g.events| && y != x && !(IsQuest(g, y) && ListedInside(g, y, x)) ==>
              b.quests[y] == a.quests[y]
    ensures forall p :: 0 <= p < |g.pools| && !(IsQuest(g, g.pools[p].quest) && p in PoolSet(g, g.pools[p].quest)) ==>
              b.pools[p] == a.pools[p]
    ensures forall y :: 0 <= y < |g.events| && y != x && !InListedPool(g, y) ==>
              b.events[y] == a.events[y] && b.quests[y] == a.quests[y]
    ensures forall y :: 0 <= y < |g.events| && !IsQuest(g, y) ==> b.quests[y] == a.quests[y]
    ensures TreeFrame(g, a, b, x)
  {
    forall s | s in QuestReach(g, x)
      ensures Listed(g, x, s)
    {
      QuestReachListed(g, x, s);
    }
    forall y | 0 <= y < |g.events| && ListedInside(g, y, x)
      ensures Inside(g, y, x) && InListedPool(g, y)
    {
      ListedInsideInside(g, y, x);
    }
  }

  /** The quest state `QG_Quest.init` leaves: queue `[start]`, no current pools
      or events, and the current sub-quest kept. */
  function Reinit(g: Graph, q: EventId, st: QuestState): (r: QuestState)
    requires IsQuest(g, q)
    ensures r.poolsQueue == [Start(g, q)] && r.currentPools == [] && r.currentEvents == []
    ensures r.currentSubQuest == st.currentSubQuest
  {
    st.(poolsQueue := [Start(g, q)], currentPools := [], currentEvents := [])
  }

  function FalseMap(keys: set<PoolId>): (m: map<PoolId, bool>)
    ensures m.Keys == keys && forall k :: k in m ==> !m[k]
  {
    map k | k in keys :: false
  }

  /** Every run-time field as the fields' declarations leave it, before any `init`. */
  function Blank(g: Graph): (rt: Runtime)
    ensures Consistent(g, rt)
    ensures forall e :: 0 <= e < |g.events| ==>
              rt.events[e] == EventState("", None) && rt.quests[e] == QuestState([], [], [], None)
    ensures forall p :: 0 <= p < |g.pools| ==> rt.pools[p] == PoolState(false, map[], 0, 0)
  {
    Runtime(seq(|g.events|, _ => EventState("", None)),
            seq(|g.pools|, _ => PoolState(false, map[], 0, 0)),
            seq(|g.events|, _ => QuestState([], [], [], None)))
  }

  class World {
    const g: Graph
    var events: seq<EventState>
    var pools: seq<PoolState>
    var quests: seq<QuestState>
    /** The callbacks `TryCallback` has invoked, in order (the callback's effect
        itself is outside the model). */
    var fired: seq<nat>

    ghost function State(): Runtime
      reads this
    {
      Runtime(events, pools, quests)
    }

    ghost predicate Valid()
      reads this
    {
      Wf(g) && Consistent(g, State())
    }

    /** The `QG_Quest` constructor of quest `root` (lines 60-68) over authored
        graph `g`, whose pools and events are persisted assets holding the
        run-time values `assets` (which may be left over from an earlier run);
        `root` itself is the object being created, so its own fields are at
        their declared defaults. The constructor ends by calling `init`: `root`
        and everything it reaches is reset from `assets`, and everything else,
        together with every pool's `wave`, keeps its saved value. */
    constructor (g: Graph, root: EventId, assets: Runtime)
      requires Wf(g) && IsQuest(g, root) && Consistent(g, assets)
      requires assets.events[root] == EventState("", None)
      requires assets.quests[root] == QuestState([], [], [], None)
      ensures Valid() && this.g == g
      ensures quests[root] == QuestState([Start(g, root)], [], [], None)
      ensures events[root] == EventState("", None)
      ensures QuestReset(g, root, assets, State())
      ensures TreeFrame(g, assets, State(), root)
      ensures Untouched(g, assets, State(), QuestReach(g, root))
      ensures forall p :: 0 <= p < |g.pools| ==> pools[p].wave == assets.pools[p].wave
      ensures fired == []
    {
      this.g := g;
      events := assets.events;
      pools := assets.pools;
      quests := assets.quests;
      fired := [];
      new;
      InitQuest(root);
      InitKeepsWaves(g, root, assets, State());
    }

    /** `QG_Event.IsFinished()`. */
    predicate IsFinished(e: EventId): (r: bool)
      reads this
      requires e < |events|
      ensures r <==> State().events[e].ending != ""
    {
      events[e].ending != ""
    }

    /** `QG_Event.init(q)`: binds the event to `quest` and clears its ending;
        nothing else changes, so a second call with the same quest changes nothing. */
    method InitEvent(e: EventId, quest: EventId)
      requires Valid() && e < |g.events|
      modifies this`events
      ensures Valid()
      ensures events == old(events)[e := EventState("", Some(quest))]
      ensures !IsFinished(e)
    {
      events := events[e := EventState("", Some(quest))];
    }

    /** `QG_Event.TryCallback()`: runs the callback once if there is one. */
    method TryCallback(e: EventId)
      requires e < |g.events|
      modifies this`fired
      ensures fired == old(fired) + (if g.events[e].callback.Some? then [g.events[e].callback.value] else [])
    {
      if g.events[e].callback.Some? {
        fired := fired + [g.events[e].callback.value];
      }
    }

    // ------------------------------------------------------------ QG_EventPool

    /** `QG_EventPool.IsActive()`. */
    predicate IsActive(p: PoolId): (r: bool)
      reads this
      requires p < |pools|
      ensures r <==> State().pools[p].activeEvents > 0
    {
      pools[p].activeEvents > 0
    }

    /** `QG_EventPool.Init(quest)`; see `PoolReset`. Nothing changes but pool
        `p` and what its quest holds through `p`'s events. */
    method InitPool(p: PoolId, quest: EventId)
      requires Valid() && p < |g.pools|
      modifies this`events, this`pools, this`quests
      decreases PoolLevel(g, p), 1
      ensures Valid()
      ensures BeneathFrame(g, old(State()), State(), g.pools[p].quest, Members(g, p), {p})
      ensures PoolReset(g, quest, p, old(State()), State())
      ensures Untouched(g, old(State()), State(), PoolReach(g, p))
    {
      ghost var a := State();
      assert PoolWf(g, p);
      PoolReachHas(g, p);
      pools := pools[p := pools[p].(used := false, activeEvents := 0)];
      InitPoolStart(g, quest, p, a, State());
      var pl := g.pools[p].pool;
      var i := 0;
      while i < |pl|
        invariant 0 <= i <= |pl|
        invariant Valid()
        invariant InitPoolLoop(g, quest, p, a, State(), i)
        invariant Untouched(g, a, State(), PoolReach(g, p))
      {
        InitMemberOf(p, quest, i, a);
        i := i + 1;
      }
      InitPoolDone(g, quest, p, a, State());
      assert a == old(State());
    }

    /** One round of the loop of `QG_EventPool.Init` (lines 36-44), on the
        `i`-th event `e` of pool `p`: `e.Init(quest)`, the `connUsed` entries
        of its destinations, and `Init()` of `e` when it is a quest. */
    method InitMemberOf(p: PoolId, quest: EventId, i: nat, ghost a: Runtime)
      requires Valid() && p < |g.pools| && i < |g.pools[p].pool| && Shaped(g, a)
      requires InitPoolLoop(g, quest, p, a, State(), i)
      requires Untouched(g, a, State(), PoolReach(g, p))
      modifies this`events, this`pools, this`quests
      decreases PoolLevel(g, p), 0
      ensures Valid()
      ensures InitPoolLoop(g, quest, p, a, State(), i + 1)
      ensures Untouched(g, a, State(), PoolReach(g, p))
    {
      var e := g.pools[p].pool[i];
      PoolMember(g, p, i);
      ghost var b := State();
      InitEvent(e, quest);
      ClearConnections(p, e);
      ghost var m := State();
      if IsQuest(g, e) {
        InitQuest(e);
      }
      assert InitMember(g, quest, p, b, m, State(), i);
      InitPoolStep(g, quest, p, a, b, m, State(), i);
      MemberUntouched(g, quest, p, a, b, m, State(), i);
    }

    /** Lines 39-40 of `QG_EventPool.Init`: every pool an ending of `e` leads to
        is recorded in pool `p`'s `connUsed` as not yet used. */
    method ClearConnections(p: PoolId, e: EventId)
      requires Valid() && p < |g.pools| && e < |g.events|
      modifies this`pools
      ensures Valid()
      ensures pools == old(pools)[p := old(pools[p]).(connUsed := old(pools[p].connUsed) + FalseMap(Elems(g.events[e].endingEventPools)))]
    {
      ghost var before := pools;
      assert before[p].connUsed + FalseMap({}) == before[p].connUsed;
      var dests := g.events[e].endingEventPools;
      var j := 0;
      while j < |dests|
        invariant 0 <= j <= |dests|
        invariant pools == before[p := before[p].(connUsed := before[p].connUsed + FalseMap(set k | 0 <= k < j :: dests[k]))]
      {
        FalseMapStep(before[p].connUsed, set k | 0 <= k < j :: dests[k], dests[j]);
        assert (set k | 0 <= k < j + 1 :: dests[k]) == (set k | 0 <= k < j :: dests[k]) + {dests[j]};
        pools := pools[p := pools[p].(connUsed := pools[p].connUsed[dests[j] := false])];
        j := j + 1;
      }
      assert (set k | 0 <= k < j :: dests[k]) == Elems(dests);
    }

    // ---------------------------------------------------------------- QG_Quest

    /** `QG_Quest.init()` (lines 70-80): resets the queue to `[start]`, empties
        the current pools and events and initialises every pool of `eventPools`
        for this quest, which reaches everything nested in it (`QuestReset`).
        Nothing outside the quest's tree changes, nor its own `ending`, `quest`
        and `currentSubQuest`. */
    method InitQuest(q: EventId)
      requires Valid() && IsQuest(g, q)
      modifies this`events, this`pools, this`quests
      decreases Level(g, q), 3
      ensures Valid()
      ensures TreeFrame(g, old(State()), State(), q)
      ensures QuestReset(g, q, old(State()), State())
      ensures Untouched(g, old(State()), State(), QuestReach(g, q))
      ensures events[q] == old(events[q])
    {
      ghost var a := State();
      assert EventWf(g, q);
      quests := quests[q := Reinit(g, q, quests[q])];
      ghost var a1 := State();
      ReinitUntouched(g, q, a, a1);
      var ps := EventPools(g, q);
      var i := 0;
      while i < |ps|
        invariant 0 <= i <= |ps|
        invariant Valid()
        invariant BeneathFrame(g, a1, State(), q, Scope(g, q, ps[..i]), Elems(ps[..i]))
        invariant forall k :: 0 <= k < i ==> PoolReset(g, q, ps[k], a1, State())
        invariant Untouched(g, a, State(), QuestReach(g, q))
      {
        InitPoolOf(q, i, a, a1);
        i := i + 1;
      }
      assert ps[..i] == ps;
      InitQuestDone(g, q, a, a1, State());
    }

    /** One round of the loop of `QG_Quest.init()` (lines 76-79): the `i`-th
        pool of `eventPools` is initialised for `q`; the pools before it still
        read as reset. */
    method InitPoolOf(q: EventId, i: nat, ghost a: Runtime, ghost a1: Runtime)
      requires Valid() && IsQuest(g, q) && i < |EventPools(g, q)| && Shaped(g, a) && Shaped(g, a1)
      requires var ps := EventPools(g, q);
        && BeneathFrame(g, a1, State(), q, Scope(g, q, ps[..i]), Elems(ps[..i]))
        && forall k :: 0 <= k < i ==> PoolReset(g, q, ps[k], a1, State())
      requires Untouched(g, a, State(), QuestReach(g, q))
      modifies this`events, this`pools, this`quests
      decreases Level(g, q), 2
      ensures Valid()
      ensures var ps := EventPools(g, q);
        && BeneathFrame(g, a1, State(), q, Scope(g, q, ps[..i + 1]), Elems(ps[..i + 1]))
        && forall k :: 0 <= k < i + 1 ==> PoolReset(g, q, ps[k], a1, State())
      ensures Untouched(g, a, State(), QuestReach(g, q))
    {
      assert EventWf(g, q);
      var ps := EventPools(g, q);
      ghost var mid := State();
      InitPool(ps[i], q);
      InitPoolInQuest(g, a1, mid, State(), q, ps, i);
      QuestReachHas(g, q);
      UntouchedTrans(g, a, mid, State(), QuestReach(g, q), PoolReach(g, ps[i]), QuestReach(g, q));
    }

    /** `QG_Quest.NextEvent()` (lines 128-214); see `Advanced`. While a
        current sub-quest is still unfinished after its own `NextEvent`, that
        result is returned and this quest's state is unchanged; otherwise the
        field is cleared and the queue is scanned in the same call. */
    method NextEvent(q: EventId) returns (r: Option<EventId>, ghost tr: Trace)
      requires Valid() && IsQuest(g, q)
      modifies this`events, this`pools, this`quests
      decreases Level(g, q), 6
      ensures Valid()
      ensures Advanced(g, q, old(State()), State(), r, tr)
    {
      ghost var a := State();
      ghost var resume: Option<Ask> := None;
      if quests[q].currentSubQuest.Some? {
        var subEvent, cleared;
        ghost var ask;
        subEvent, cleared, ask := ResumeSubQuest(q);
        resume := Some(ask);
        if !cleared {
          assert a == old(State());
          assert QuestStateOk(g, q, a.quests[q]);
          return subEvent, Trace(resume, [], 0, None);
        }
      }
      ghost var mid := State();
      ghost var rjs, picked, served;
      r, rjs, picked, served := Dispatch(q);
      tr := Trace(resume, rjs, picked, served);
      ScanAdvances(g, q, a, mid, State(), r, tr);
      assert a == old(State());
    }

    /** Lines 132-140 of `NextEvent`: the current sub-quest `s` is asked for
        its next event (`ask`); when that leaves it finished the field is
        cleared (`cleared`), otherwise its event is the answer. Either way
        nothing else of `q` changes. */
    method ResumeSubQuest(q: EventId) returns (r: Option<EventId>, cleared: bool, ghost ask: Ask)
      requires Valid() && IsQuest(g, q) && quests[q].currentSubQuest.Some?
      modifies this`events, this`pools, this`quests
      decreases Level(g, q), 5
      ensures Valid()
      ensures Frame(g, old(State()), State(), Level(g, q) + 1, {}, {q})
      ensures DispatchChangesOnly(g, old(State()), State())
      ensures events[q] == old(events[q]) && SamePoolsOf(g, q, old(State()), State())
      ensures var s := old(quests[q].currentSubQuest.value);
        && s < |events|
        && ask.pre == old(State()) && Answered(g, s, ask) && r == ask.r && Consistent(g, ask.post)
        && ask.post.quests[q] == old(quests[q]) && ask.post.events[q] == old(events[q])
        && SamePoolsOf(g, q, old(State()), ask.post)
        && (cleared <==> ask.post.events[s].ending != "")
        && State() == if cleared then Cleared(ask.post, q) else ask.post
    {
      ghost var a := State();
      var s := quests[q].currentSubQuest.value;
      assert QuestStateOk(g, q, quests[q]);
      assert EventWf(g, s);
      ghost var inner;
      r, inner := NextEvent(s);
      ask := Ask(a, State(), r, inner);
      SubCall(g, a, a, State(), q, s);
      cleared := IsFinished(s);
      if cleared {
        ghost var b := State();
        quests := quests[q := quests[q].(currentSubQuest := None)];
        ConsistentUpdate(g, b, State(), q);
      }
      assert a == old(State());
    }

    /** Lines 144-213 of `NextEvent`: the scan of the pool queue. */
    method Dispatch(q: EventId) returns (r: Option<EventId>, ghost rjs: seq<Reject>, ghost picked: EventId, ghost served: Option<Ask>)
      requires Valid() && IsQuest(g, q)
      modifies this`events, this`pools, this`quests
      decreases Level(g, q), 5
      ensures Valid()
      ensures ScanOutcome(g, q, old(State()), State(), r, rjs, picked, served)
    {
      assert QuestStateOk(g, q, quests[q]);
      if |quests[q].poolsQueue| == 0 {
        EndScan(q, 0, State(), []);
        r, rjs, picked, served := None, [], 0, None;
      } else {
        r, rjs, picked, served := Scan(q, State());
      }
    }

    /** Lines 152-213 of `NextEvent` on a non-empty queue: the rounds on the
        entries at even original positions, until one ends the scan or the
        queue runs out. */
    method Scan(q: EventId, ghost a: Runtime) returns (r: Option<EventId>, ghost rjs: seq<Reject>, ghost picked: EventId, ghost served: Option<Ask>)
      requires Valid() && IsQuest(g, q) && State() == a && |a.quests[q].poolsQueue| > 0
      modifies this`events, this`pools, this`quests
      decreases Level(g, q), 4
      ensures Valid()
      ensures ScanOutcome(g, q, a, State(), r, rjs, picked, served)
    {
      assert QuestStateOk(g, q, quests[q]);
      var st := quests[q];
      ghost var Q := st.poolsQueue;
      assert OwnedBy(g, q, Q);
      rjs := [];
      var i := 0;
      var done := false;
      while i < |quests[q].poolsQueue|
        invariant !done && Valid()
        invariant 2 * i <= |Q| + 1
        invariant quests[q] == st.(poolsQueue := ScanRemoved(Q, i))
        invariant forall t :: 0 <= t < i ==> Skippable(g, Q[2 * t])
        invariant Scanning(g, q, a, State())
        invariant |rjs| == i && Rejections(g, q, a, Q, rjs) && State() == Before(a, rjs, i)
        decreases |Q| - 2 * i
      {
        ScanRemovedLength(Q, i);
        ghost var rj;
        done, r, picked, rj, served := Round(q, i, a, rjs);
        if done {
          break;
        }
        rjs := rjs + [rj];
        i := i + 1;
      }
      if !done {
        ScanRemovedLength(Q, i);
        ScanExhausted(g, q, a, State(), i, rjs);
        r, picked, served := None, 0, None;
      }
    }

    /** One turn of the loop of lines 152-211 of `NextEvent`, on the queue
        entry at index `i`, after the rounds `rjs`: an empty pool there ends
        the scan (`EndScan`), a pool that serves ends it too (`TryPool`);
        otherwise the entry was rejected (`rj`) and the scan goes on at index
        `i + 1`. */
    method Round(q: EventId, i: nat, ghost a: Runtime, ghost rjs: seq<Reject>)
      returns (done: bool, r: Option<EventId>, ghost picked: EventId, ghost rj: Reject, ghost served: Option<Ask>)
      requires Valid() && IsQuest(g, q) && Consistent(g, a) && QuestStateOk(g, q, a.quests[q])
      requires var Q := a.quests[q].poolsQueue;
        && 2 * i < |Q|
        && (forall t :: 0 <= t < i ==> Skippable(g, Q[2 * t]))
        && quests[q] == a.quests[q].(poolsQueue := ScanRemoved(Q, i))
        && |rjs| == i && Rejections(g, q, a, Q, rjs) && State() == Before(a, rjs, i)
      requires Scanning(g, q, a, State())
      modifies this`events, this`pools, this`quests
      decreases Level(g, q), 3
      ensures Valid()
      ensures done ==> ScanOutcome(g, q, a, State(), r, rjs, picked, served)
      ensures !done ==> var Q := a.quests[q].poolsQueue;
        && Scanning(g, q, a, State())
        && (forall t :: 0 <= t < i + 1 ==> Skippable(g, Q[2 * t]))
        && quests[q] == a.quests[q].(poolsQueue := ScanRemoved(Q, i + 1))
        && Rejections(g, q, a, Q, rjs + [rj]) && State() == Before(a, rjs + [rj], i + 1)
    {
      ghost var Q := a.quests[q].poolsQueue;
      ScanRemovedLength(Q, i);
      ScanRemovedStep(Q, i);
      var nextPool := quests[q].poolsQueue[i];
      if |g.pools[nextPool].pool| == 0 {
        EndScan(q, i, a, rjs);
        return true, None, 0, Reject(0, a, None), None;
      }
      r, picked, rj, served := TryPool(q, i, a, rjs);
      done := r.Some?;
      if !done {
        SkippedSnoc(g, Q, i);
        RejectionsSnoc(g, q, a, Q, rjs, rj);
      }
    }

    /** Lines 144-149 and 160-164 of `NextEvent`: with the queue empty, or
        the pool at original position `2i` empty, `q` takes its first ending
        label and the scan stops with nothing. */
    method EndScan(q: EventId, i: nat, ghost a: Runtime, ghost rjs: seq<Reject>)
      requires Valid() && IsQuest(g, q) && Consistent(g, a) && Scanning(g, q, a, State())
      requires var st := a.quests[q]; var Q := st.poolsQueue;
        && QuestStateOk(g, q, st)
        && quests[q] == st.(poolsQueue := ScanRemoved(Q, i))
        && (Q == [] ==> i == 0 && rjs == [] && State() == a)
        && (Q != [] ==> 2 * i < |Q| && IsEnding(g, Q[2 * i]))
        && (forall t :: 0 <= t < i ==> Skippable(g, Q[2 * t]))
        && |rjs| == i && Rejections(g, q, a, Q, rjs) && State() == Before(a, rjs, i)
      modifies this`events
      ensures Valid()
      ensures ScanOutcome(g, q, a, State(), None, rjs, 0, None)
    {
      ghost var b := State();
      events := events[q := events[q].(ending := FirstEnding(g, q))];
      if |a.quests[q].poolsQueue| == 0 {
        ScanEmpty(g, q, a, State());
      } else {
        ScanHitsEnding(g, q, a, b, State(), i, rjs);
      }
    }

    /** One round of the scan in `NextEvent` (lines 155-210), on the queue
        entry at index `i`, whose pool is not empty: the entry is removed and
        an event of the pool is drawn. An ordinary event is served, a quest is
        handled by `TryDrawnQuest`. When nothing is served the scan goes on. */
    method TryPool(q: EventId, i: nat, ghost a: Runtime, ghost rjs: seq<Reject>)
      returns (r: Option<EventId>, ghost picked: EventId, ghost rj: Reject, ghost served: Option<Ask>)
      requires Valid() && IsQuest(g, q) && Consistent(g, a) && QuestStateOk(g, q, a.quests[q])
      requires var Q := a.quests[q].poolsQueue;
        && 2 * i < |Q| && !IsEnding(g, Q[2 * i])
        && (forall t :: 0 <= t < i ==> Skippable(g, Q[2 * t]))
        && quests[q] == a.quests[q].(poolsQueue := ScanRemoved(Q, i))
        && |rjs| == i && Rejections(g, q, a, Q, rjs) && State() == Before(a, rjs, i)
      requires Scanning(g, q, a, State())
      modifies this`events, this`pools, this`quests
      decreases Level(g, q), 2
      ensures Valid()
      ensures r.Some? ==> ScanOutcome(g, q, a, State(), r, rjs, picked, served)
      ensures r.None? ==> Scanning(g, q, a, State())
      ensures r.None? ==> Skippable(g, a.quests[q].poolsQueue[2 * i])
      ensures r.None? ==> quests[q] == a.quests[q].(poolsQueue := ScanRemoved(a.quests[q].poolsQueue, i + 1))
      ensures r.None? ==> RejectOk(g, q, a.quests[q].poolsQueue[2 * i], Before(a, rjs, i), rj) && State() == After(rj)
    {
      ghost var Q := a.quests[q].poolsQueue;
      ScanRemovedStep(Q, i);
      var nextPool := quests[q].poolsQueue[i];
      assert nextPool == Q[2 * i];
      Unqueue(q, i, a);
      assert quests[q] == a.quests[q].(poolsQueue := ScanRemoved(Q, i + 1));
      var k :| 0 <= k < |g.pools[nextPool].pool|;
      var nextEvent := g.pools[nextPool].pool[k];
      PoolMember(g, nextPool, k);
      picked := nextEvent;
      if IsQuest(g, nextEvent) {
        assert Skippable(g, nextPool);
        r, rj, served := TryDrawnQuest(q, i, a, rjs, nextPool, nextEvent);
      } else {
        r := Some(nextEvent);
        rj, served := Reject(0, a, None), None;
        Serve(q, nextPool, nextEvent, r, a, i, rjs, served);
      }
    }

    /** Lines 174-199 of `NextEvent`: the quest `e` drawn from pool `P` at
        round `i` is rejected (`rj`) when finished; otherwise it is asked for
        its next event, and served when it answers one, rejected when not. */
    method TryDrawnQuest(q: EventId, i: nat, ghost a: Runtime, ghost rjs: seq<Reject>, P: PoolId, e: EventId)
      returns (r: Option<EventId>, ghost rj: Reject, ghost served: Option<Ask>)
      requires Valid() && IsQuest(g, q) && Consistent(g, a) && QuestStateOk(g, q, a.quests[q])
      requires var Q := a.quests[q].poolsQueue;
        && 2 * i < |Q| && P == Q[2 * i]
        && (forall t :: 0 <= t < i ==> Skippable(g, Q[2 * t]))
        && |rjs| == i && Rejections(g, q, a, Q, rjs)
        && OnlyQuest(g, q, {}, Before(a, rjs, i), State())
        && quests[q] == a.quests[q].(poolsQueue := ScanRemoved(Q, i + 1))
      requires e in g.pools[P].pool && IsQuest(g, e) && g.events[e].home == q && e != q
      requires Scanning(g, q, a, State())
      modifies this`events, this`pools, this`quests
      decreases Level(g, q), 1
      ensures Valid()
      ensures r.Some? ==> ScanOutcome(g, q, a, State(), r, rjs, e, served)
      ensures r.None? ==> Scanning(g, q, a, State()) && quests[q] == old(quests[q])
      ensures r.None? ==> RejectOk(g, q, P, Before(a, rjs, i), rj) && State() == After(rj)
    {
      ghost var at := State();
      if IsFinished(e) {
        return None, Reject(e, at, None), None;
      }
      ghost var ask;
      r, ask := AskSubQuest(q, e, a);
      if r.None? {
        return r, Reject(e, at, Some(ask)), None;
      }
      rj, served := Reject(0, a, None), Some(ask);
      Serve(q, P, e, r, a, i, rjs, served);
    }

    /** `poolsQueue.RemoveAt(i)` on quest `q` during the scan. */
    method Unqueue(q: EventId, i: nat, ghost a: Runtime)
      requires Valid() && IsQuest(g, q) && i < |quests[q].poolsQueue|
      requires Shaped(g, a) && Scanning(g, q, a, State())
      modifies this`quests
      ensures Valid() && Scanning(g, q, a, State())
      ensures quests == old(quests)[q := old(quests[q]).(poolsQueue := RemoveAt(old(quests[q].poolsQueue), i))]
    {
      ghost var b := State();
      assert QuestStateOk(g, q, quests[q]);
      OwnedByRemoveAt(g, q, quests[q].poolsQueue, i);
      quests := quests[q := quests[q].(poolsQueue := RemoveAt(quests[q].poolsQueue, i))];
      ConsistentUpdate(g, b, State(), q);
      ScanningQuestUpdate(g, q, a, b, State());
    }

    /** Line 181 of `NextEvent`: an unfinished quest `s` drawn from one of
        `q`'s pools is asked for its next event (`ask`, whose answer is `r`);
        nothing at `q`'s level changes. */
    method AskSubQuest(q: EventId, s: EventId, ghost a: Runtime) returns (r: Option<EventId>, ghost ask: Ask)
      requires Valid() && IsQuest(g, q) && IsQuest(g, s) && g.events[s].home == q && s != q
      requires !IsFinished(s) && Shaped(g, a) && Scanning(g, q, a, State())
      modifies this`events, this`pools, this`quests
      decreases Level(g, q), 0
      ensures Valid() && Scanning(g, q, a, State()) && quests[q] == old(quests[q])
      ensures ask == Ask(old(State()), State(), r, ask.inner) && Answered(g, s, ask)
      ensures Advanced(g, s, old(State()), State(), r, ask.inner)
    {
      assert EventWf(g, s);
      ghost var mid := State();
      ghost var inner;
      r, inner := NextEvent(s);
      ask := Ask(mid, State(), r, inner);
      ScanningSubCall(g, q, a, mid, State(), s);
    }

    /** Lines 193-199 and 204-209 of `NextEvent`: pool `P`, drawn at round `i`
        of the scan after the rounds `rjs`, serves `e` (through `r`, the
        answer of the call `served` on `e` when `e` is a quest): `P` has one
        more active event, and `P` and `e` are current (and `e` the current
        sub-quest when it is one). This ends the scan. */
    method Serve(q: EventId, P: PoolId, e: EventId, r: Option<EventId>, ghost a: Runtime, ghost i: nat,
                 ghost rjs: seq<Reject>, ghost served: Option<Ask>)
      requires Valid() && IsQuest(g, q) && Consistent(g, a)
      requires var st := a.quests[q]; var Q := st.poolsQueue;
        && QuestStateOk(g, q, st)
        && 2 * i < |Q| && P == Q[2 * i]
        && (forall t :: 0 <= t < i ==> Skippable(g, Q[2 * t]))
        && |rjs| == i && Rejections(g, q, a, Q, rjs)
        && e in g.pools[P].pool
        && e < |g.events| && g.events[e].home == q && (IsQuest(g, e) ==> e != q)
        && r.Some?
        && (if IsQuest(g, e) then
              && served.Some? && OnlyQuest(g, q, {}, Before(a, rjs, i), served.value.pre)
              && a.events[e].ending == "" && served.value.pre.events[e].ending == "" && Answered(g, e, served.value)
              && served.value.r == r && served.value.post == State()
            else served == None && r == Some(e) && OnlyQuest(g, q, {}, Before(a, rjs, i), State()))
        && Scanning(g, q, a, State())
        && quests[q] == st.(poolsQueue := ScanRemoved(Q, i + 1))
      modifies this`pools, this`quests
      ensures Valid()
      ensures ScanOutcome(g, q, a, State(), r, rjs, e, served)
    {
      ghost var b := State();
      var st := quests[q];
      pools := pools[P := pools[P].(activeEvents := pools[P].activeEvents + 1)];
      quests := quests[q := st.(currentSubQuest := if IsQuest(g, e) then Some(e) else st.currentSubQuest,
                                currentPools := st.currentPools + [P],
                                currentEvents := st.currentEvents + [e])];
      ScanServes(g, q, a, b, State(), i, P, e, r, rjs, served);
    }

    /** Lines 99-124 of `EventUpdate`: resolve `ev`, one of this quest's own
        events, with `lab`; see `Resolved`. */
    method Resolve(q: EventId, ev: EventId, lab: string)
      requires Wf(g) && IsQuest(g, q) && Shaped(g, State())
      requires QuestStateOk(g, q, quests[q]) && Resolvable(g, quests[q], ev, lab)
      modifies this`events, this`pools, this`quests
      ensures var P := FindPool(g, old(quests[q]).currentPools, ev).value;
              var dest := g.events[ev].endingEventPools[FindIndex(g.events[ev].endings, lab)];
              P < |g.pools| && dest < |g.pools| && ResolveAssigns(g, q, ev, lab, P, dest, old(State()), State())
    {
      ghost var a := State();
      var st := quests[q];
      var pool := FindPool(g, st.currentPools, ev).value;
      ResolveStays(g, q, st, ev, lab, pool);
      var left := pools[pool].activeEvents - 1;
      var currentPools := st.currentPools;
      if left <= 0 {
        currentPools := RemoveFirst(currentPools, pool);
      }
      var newPool := g.events[ev].endingEventPools[FindIndex(g.events[ev].endings, lab)];
      var newPools := pools[pool := PoolState(true, pools[pool].connUsed[newPool := true], left, pools[pool].wave)];
      var newEvents := events[ev := events[ev].(ending := lab)];
      if |g.pools[newPool].pool| == 0 {
        newEvents := newEvents[q := newEvents[q].(ending := FirstEnding(g, q))];
      }
      var newQuests := quests[q := QuestState(st.poolsQueue + [newPool], currentPools,
                                              RemoveFirst(st.currentEvents, ev), st.currentSubQuest)];
      ghost var b := Runtime(newEvents, newPools, newQuests);
      assert ResolveAssigns(g, q, ev, lab, pool, newPool, a, b);
      pools, events, quests := newPools, newEvents, newQuests;
      assert State() == b;
      assert a == old(State());
      assert pool == FindPool(g, old(quests[q]).currentPools, ev).value;
    }

    /** `QG_Quest.EventUpdate(event, ending)` (lines 82-125); see `Updated`. An
        event bound to another quest is handed to the current sub-quest; if
        that finishes, the sub-quest itself is resolved here with its first
        ending label, otherwise this quest's own state is untouched. */
    method EventUpdate(q: EventId, e: EventId, lab: string) returns (ghost t: UpdateTrace)
      requires Valid() && IsQuest(g, q) && e < |g.events| && CanUpdate(g, State(), q, e, lab)
      modifies this`events, this`pools, this`quests
      decreases Level(g, q), 1
      ensures Valid()
      ensures Updated(g, q, e, lab, old(State()), State(), t)
    {
      if events[e].quest != Some(q) {
        t := HandOver(q, e, lab);
      } else {
        ghost var a := State();
        Resolve(q, e, lab);
        ResolveEffect(g, q, e, lab, a, State());
        ResolveFrame(g, q, e, lab, a, State());
        t := Own;
      }
    }

    /** Lines 86-96 of `EventUpdate`: `e` is not bound to `q`, so it is handed
        to the current sub-quest `s`; when that leaves `s` finished, `s` is
        resolved here with its first ending label. */
    method HandOver(q: EventId, e: EventId, lab: string) returns (ghost t: UpdateTrace)
      requires Valid() && IsQuest(g, q) && e < |g.events| && CanUpdate(g, State(), q, e, lab)
      requires events[e].quest != Some(q)
      modifies this`events, this`pools, this`quests
      decreases Level(g, q), 0
      ensures Valid()
      ensures Updated(g, q, e, lab, old(State()), State(), t)
    {
      ghost var a := State();
      var s := quests[q].currentSubQuest.value;
      assert QuestStateOk(g, q, quests[q]);
      assert EventWf(g, s);
      ghost var inner := EventUpdate(s, e, lab);
      ghost var mid := State();
      SubUpdated(g, q, e, lab, a, mid, inner);
      if !IsFinished(s) {
        t := Handed(mid, inner, false);
      } else {
        Resolve(q, s, FirstEnding(g, s));
        ResolveEffect(g, q, s, FirstEnding(g, s), mid, State());
        UpdateReplayed(g, q, e, lab, a, mid, State(), inner);
        t := Handed(mid, inner, true);
      }
      assert a == old(State());
    }
  }

  lemma FalseMapStep(m: map<PoolId, bool>, keys: set<PoolId>, d: PoolId)
    ensures (m + FalseMap(keys))[d := false] == m + FalseMap(keys + {d})
  {
  }

  lemma FalseMapUnion(m: map<PoolId, bool>, keys: set<PoolId>, more: set<PoolId>)
    ensures (m + FalseMap(keys)) + FalseMap(more) == m + FalseMap(keys + more)
  {
  }

  /** The pools of `ps[..i + 1]` hold everything the pools of `ps[..i]` hold, and pool `ps[i]`'s events. */
  lemma ScopeGrows(g: Graph, q: EventId, ps: seq<PoolId>, i: nat)
    requires i < |ps| && ps[i] < |g.pools|
    ensures Scope(g, q, ps[..i]) <= Scope(g, q, ps[..i + 1])
    ensures Members(g, ps[i]) <= Scope(g, q, ps[..i + 1])
    ensures Elems(ps[..i + 1]) == Elems(ps[..i]) + {ps[i]}
  {
    assert ps[..i + 1] == ps[..i] + [ps[i]];
    forall y | y in Scope(g, q, ps[..i]) && y != q
      ensures y in Scope(g, q, ps[..i + 1])
    {
      var p :| p in ps[..i] && p < |g.pools| && y in g.pools[p].pool;
      assert p in ps[..i + 1];
    }
    forall y | y in Members(g, ps[i])
      ensures y in Scope(g, q, ps[..i + 1])
    {
      assert ps[i] in ps[..i + 1];
    }
  }

  /** What holds throughout the scan of quest `q` begun in state `a`: nothing
      of `q`'s level or above changed except `q`'s queue, `q`'s pools are
      untouched, and finished events of `q`'s pools stay as they were. */
  ghost predicate Scanning(g: Graph, q: EventId, a: Runtime, b: Runtime)
    requires Wf(g) && IsQuest(g, q) && Shaped(g, a)
  {
    && Frame(g, a, b, Level(g, q) + 1, {}, {q})
    && b.events[q] == a.events[q]
    && SamePoolsOf(g, q, a, b)
    && DispatchChangesOnly(g, a, b)
    && KeepsFinished(g, q, a, b)
  }

  lemma OwnedBySubset(g: Graph, q: EventId, s: seq<PoolId>, t: seq<PoolId>)
    requires OwnedBy(g, q, s) && forall x :: x in t ==> x in s
    ensures OwnedBy(g, q, t)
  {
    forall j | 0 <= j < |t|
      ensures t[j] < |g.pools| && g.pools[t[j]].quest == q
    {
      assert t[j] in t;
      var k :| 0 <= k < |s| && s[k] == t[j];
    }
  }

  /** Changing only `q`'s own quest state keeps the scan invariant. */
  lemma ScanningQuestUpdate(g: Graph, q: EventId, a: Runtime, b: Runtime, c: Runtime)
    requires Wf(g) && IsQuest(g, q) && Shaped(g, a) && Shaped(g, b) && Scanning(g, q, a, b)
    requires c.events == b.events && c.pools == b.pools && |c.quests| == |b.quests|
    requires forall y :: 0 <= y < |c.quests| && y != q ==> c.quests[y] == b.quests[y]
    ensures Scanning(g, q, a, c)
  {
  }

  /** A nested `NextEvent` on an unfinished quest `s` of one of `q`'s pools keeps the scan invariant. */
  lemma ScanningSubCall(g: Graph, q: EventId, a: Runtime, b: Runtime, c: Runtime, s: EventId)
    requires Wf(g) && IsQuest(g, q) && IsQuest(g, s) && Shaped(g, a) && Shaped(g, b)
    requires g.events[s].home == q && s != q && b.events[s].ending == ""
    requires Scanning(g, q, a, b)
    requires Frame(g, b, c, Level(g, s) + 1, {}, {s})
    requires DispatchChangesOnly(g, b, c)
    ensures Scanning(g, q, a, c)
    ensures c.quests[q] == b.quests[q]
  {
    SubCall(g, a, b, c, q, s);
  }

  /** Everything the scan of quest `q` promises, from state `a` to state `b`:
      the outcome `Dispatched` describes, within `Frame` of `q`'s level, changing
      only what `DispatchChangesOnly` allows and keeping finished events as they were. */
  ghost predicate ScanOutcome(g: Graph, q: EventId, a: Runtime, b: Runtime,
                              r: Option<EventId>, rjs: seq<Reject>, picked: EventId, served: Option<Ask>)
    requires Wf(g) && IsQuest(g, q) && Consistent(g, a)
  {
    && Consistent(g, b)
    && Frame(g, a, b, Level(g, q) + 1, {}, {q})
    && DispatchChangesOnly(g, a, b)
    && KeepsFinished(g, q, a, b)
    && (assert QuestStateOk(g, q, a.quests[q]); Dispatched(g, q, a, b, r, rjs, picked, served))
  }

  /** One more rejected round of the scan. */
  lemma RejectionsSnoc(g: Graph, q: EventId, a: Runtime, Q: seq<PoolId>, rjs: seq<Reject>, rj: Reject)
    requires Wf(g) && OwnedBy(g, q, Q) && Rejections(g, q, a, Q, rjs) && 2 * |rjs| < |Q|
    requires RejectOk(g, q, Q[2 * |rjs|], Before(a, rjs, |rjs|), rj)
    ensures Rejections(g, q, a, Q, rjs + [rj]) && Before(a, rjs + [rj], |rjs| + 1) == After(rj)
  {
    var rjs' := rjs + [rj];
    forall t | 0 <= t < |rjs'|
      ensures 2 * t < |Q| && RejectOk(g, q, Q[2 * t], Before(a, rjs', t), rjs'[t])
    {
      assert Before(a, rjs', t) == Before(a, rjs, t);
    }
  }

  /** An empty queue: `q` takes its first ending label and nothing else changes. */
  lemma ScanEmpty(g: Graph, q: EventId, a: Runtime, c: Runtime)
    requires Wf(g) && IsQuest(g, q) && Consistent(g, a) && a.quests[q].poolsQueue == []
    requires c == a.(events := a.events[q := a.events[q].(ending := FirstEnding(g, q))])
    ensures ScanOutcome(g, q, a, c, None, [], 0, None)
  {
  }

  /** The scan reaching an empty pool at original position `2i` after the
      rounds `rjs`: `q` takes its first ending label, the pool stays queued,
      and nothing else changes. */
  lemma ScanHitsEnding(g: Graph, q: EventId, a: Runtime, b: Runtime, c: Runtime, i: nat, rjs: seq<Reject>)
    requires Wf(g) && IsQuest(g, q) && Consistent(g, a) && Consistent(g, b) && Scanning(g, q, a, b)
    requires var st := a.quests[q]; var Q := st.poolsQueue;
      && QuestStateOk(g, q, st)
      && 2 * i < |Q| && IsEnding(g, Q[2 * i])
      && (forall t :: 0 <= t < i ==> Skippable(g, Q[2 * t]))
      && |rjs| == i && Rejections(g, q, a, Q, rjs) && b == Before(a, rjs, i)
      && b.quests[q] == st.(poolsQueue := ScanRemoved(Q, i))
    requires c == b.(events := b.events[q := b.events[q].(ending := FirstEnding(g, q))])
    ensures ScanOutcome(g, q, a, c, None, rjs, 0, None)
  {
  }

  /** The scan running off the end of the queue: nothing served, nothing ended. */
  lemma ScanExhausted(g: Graph, q: EventId, a: Runtime, b: Runtime, i: nat, rjs: seq<Reject>)
    requires Wf(g) && IsQuest(g, q) && Consistent(g, a) && Consistent(g, b) && Scanning(g, q, a, b)
    requires var st := a.quests[q]; var Q := st.poolsQueue;
      && QuestStateOk(g, q, st)
      && |Q| > 0 && |Q| <= 2 * i <= |Q| + 1
      && (forall t :: 0 <= t < i ==> Skippable(g, Q[2 * t]))
      && |rjs| == i && Rejections(g, q, a, Q, rjs) && b == Before(a, rjs, i)
      && b.quests[q] == st.(poolsQueue := ScanRemoved(Q, i))
    ensures ScanOutcome(g, q, a, b, None, rjs, 0, None)
  {
  }

  /** The scan serving event `e` from pool `Q[2i]` after the rounds `rjs`:
      the outcome `Dispatched` describes. */
  lemma ScanServes(g: Graph, q: EventId, a: Runtime, b: Runtime, c: Runtime, i: nat, P: PoolId, e: EventId,
                   r: Option<EventId>, rjs: seq<Reject>, served: Option<Ask>)
    requires Wf(g) && IsQuest(g, q) && Consistent(g, a) && Consistent(g, b)
    requires var st := a.quests[q]; var Q := st.poolsQueue;
      && QuestStateOk(g, q, st)
      && 2 * i < |Q| && P == Q[2 * i]
      && (forall t :: 0 <= t < i ==> Skippable(g, Q[2 * t]))
      && |rjs| == i && Rejections(g, q, a, Q, rjs)
      && e in g.pools[P].pool
      && e < |g.events| && g.events[e].home == q && (IsQuest(g, e) ==> e != q)
      && r.Some?
      && (if IsQuest(g, e) then
            && served.Some? && OnlyQuest(g, q, {}, Before(a, rjs, i), served.value.pre)
            && a.events[e].ending == "" && served.value.pre.events[e].ending == "" && Answered(g, e, served.value)
            && served.value.r == r && served.value.post == b
          else served == None && r == Some(e) && OnlyQuest(g, q, {}, Before(a, rjs, i), b))
      && Scanning(g, q, a, b)
      && b.quests[q] == st.(poolsQueue := ScanRemoved(Q, i + 1))
      && c.events == b.events
      && c.pools == b.pools[P := b.pools[P].(activeEvents := b.pools[P].activeEvents + 1)]
      && c.quests == b.quests[q := b.quests[q].(
           currentSubQuest := if IsQuest(g, e) then Some(e) else b.quests[q].currentSubQuest,
           currentPools := b.quests[q].currentPools + [P],
           currentEvents := b.quests[q].currentEvents + [e])]
    ensures ScanOutcome(g, q, a, c, r, rjs, e, served)
  {
    assert P < |g.pools| && g.pools[P].quest == q;
    assert PoolLevel(g, P) == Level(g, q);
    assert c.quests[q].currentSubQuest.Some? ==> IsQuest(g, c.quests[q].currentSubQuest.value);
    ConsistentUpdate(g, b, c, q);
  }

  /** The assignments of lines 99-124 of `EventUpdate` resolving `ev` with
      `lab` in quest `q`, as a relation between the states before and after. */
  ghost predicate ResolveAssigns(g: Graph, q: EventId, ev: EventId, lab: string, P: PoolId, dest: PoolId, a: Runtime, b: Runtime)
    requires Wf(g) && IsQuest(g, q) && Shaped(g, a) && ev < |g.events| && P < |g.pools| && dest < |g.pools|
  {
    var st := a.quests[q];
    var left := a.pools[P].activeEvents - 1;
    var e1 := a.events[ev := a.events[ev].(ending := lab)];
    && b.pools == a.pools[P := PoolState(true, a.pools[P].connUsed[dest := true], left, a.pools[P].wave)]
    && b.events == (if |g.pools[dest].pool| == 0 then e1[q := e1[q].(ending := FirstEnding(g, q))] else e1)
    && b.quests == a.quests[q := QuestState(st.poolsQueue + [dest],
                                if left <= 0 then RemoveFirst(st.currentPools, P) else st.currentPools,
                                RemoveFirst(st.currentEvents, ev), st.currentSubQuest)]
  }

  /** The new state `Resolve` builds is the one `ResolvedAlone` describes, and consistent. */
  lemma ResolveEffect(g: Graph, q: EventId, ev: EventId, lab: string, a: Runtime, b: Runtime)
    requires Wf(g) && IsQuest(g, q) && Consistent(g, a) && Resolvable(g, a.quests[q], ev, lab)
    requires var P := FindPool(g, a.quests[q].currentPools, ev).value;
             var dest := g.events[ev].endingEventPools[FindIndex(g.events[ev].endings, lab)];
             P < |g.pools| && dest < |g.pools| && ResolveAssigns(g, q, ev, lab, P, dest, a, b)
    ensures Consistent(g, b)
    ensures ResolvedAlone(g, q, ev, lab, a, b)
  {
    var P := FindPool(g, a.quests[q].currentPools, ev).value;
    var dest := g.events[ev].endingEventPools[FindIndex(g.events[ev].endings, lab)];
    ResolveConsistent(g, q, ev, lab, P, dest, a, b);
    ResolveOwn(g, q, ev, lab, P, dest, a, b);
  }

  lemma ResolveConsistent(g: Graph, q: EventId, ev: EventId, lab: string, P: PoolId, dest: PoolId, a: Runtime, b: Runtime)
    requires Wf(g) && IsQuest(g, q) && Consistent(g, a) && Resolvable(g, a.quests[q], ev, lab)
    requires P < |g.pools| && P == FindPool(g, a.quests[q].currentPools, ev).value
    requires 0 <= FindIndex(g.events[ev].endings, lab) < |g.events[ev].endingEventPools|
    requires dest < |g.pools| && dest == g.events[ev].endingEventPools[FindIndex(g.events[ev].endings, lab)]
    requires ResolveAssigns(g, q, ev, lab, P, dest, a, b)
    ensures Consistent(g, b)
  {
    ResolvedQuestOk(g, q, ev, lab, P, dest, a, b);
    ConsistentUpdate(g, a, b, q);
  }

  /** The quest state `Resolve` leaves behind is well formed, and no other quest's changes. */
  lemma ResolvedQuestOk(g: Graph, q: EventId, ev: EventId, lab: string, P: PoolId, dest: PoolId, a: Runtime, b: Runtime)
    requires Wf(g) && IsQuest(g, q) && Consistent(g, a) && Resolvable(g, a.quests[q], ev, lab)
    requires P < |g.pools| && P == FindPool(g, a.quests[q].currentPools, ev).value
    requires 0 <= FindIndex(g.events[ev].endings, lab) < |g.events[ev].endingEventPools|
    requires dest < |g.pools| && dest == g.events[ev].endingEventPools[FindIndex(g.events[ev].endings, lab)]
    requires ResolveAssigns(g, q, ev, lab, P, dest, a, b)
    ensures Shaped(g, b) && QuestStateOk(g, q, b.quests[q])
    ensures forall x :: 0 <= x < |g.events| && x != q ==> b.quests[x] == a.quests[x]
  {
    var st := a.quests[q];
    assert QuestStateOk(g, q, st);
    ResolveStays(g, q, st, ev, lab, P);
    OwnedByAppend(g, q, st.poolsQueue, dest);
    var nst := b.quests[q];
    assert nst.poolsQueue == st.poolsQueue + [dest] && nst.currentSubQuest == st.currentSubQuest;
    assert nst.currentPools == st.currentPools || nst.currentPools == RemoveFirst(st.currentPools, P);
  }

  lemma ResolveOwn(g: Graph, q: EventId, ev: EventId, lab: string, P: PoolId, dest: PoolId, a: Runtime, b: Runtime)
    requires Wf(g) && IsQuest(g, q) && Consistent(g, a) && Resolvable(g, a.quests[q], ev, lab)
    requires P < |g.pools| && P == FindPool(g, a.quests[q].currentPools, ev).value
    requires 0 <= FindIndex(g.events[ev].endings, lab) < |g.events[ev].endingEventPools|
    requires dest < |g.pools| && dest == g.events[ev].endingEventPools[FindIndex(g.events[ev].endings, lab)]
    requires ResolveAssigns(g, q, ev, lab, P, dest, a, b)
    ensures Shaped(g, b)
    ensures ResolvedAlone(g, q, ev, lab, a, b)
  {
    var st := a.quests[q];
    assert QuestStateOk(g, q, st);
    ResolveStays(g, q, st, ev, lab, P);
    ResolveOwnPool(g, q, ev, lab, P, dest, a, b);
    ResolveOwnEvents(g, q, ev, lab, P, dest, a, b);
    var left := a.pools[P].activeEvents - 1;
    assert b.quests[q] == QuestState(st.poolsQueue + [dest],
                                     if left > 0 then st.currentPools else RemoveFirst(st.currentPools, P),
                                     RemoveFirst(st.currentEvents, ev), st.currentSubQuest);
    assert Resolved(g, q, ev, lab, a, b);
  }

  /** The event side of `Resolved`: `ev` takes `lab`, `q` its first label when
      `dest` is empty, and no other event changes. */
  lemma ResolveOwnEvents(g: Graph, q: EventId, ev: EventId, lab: string, P: PoolId, dest: PoolId, a: Runtime, b: Runtime)
    requires Wf(g) && IsQuest(g, q) && Shaped(g, a) && ev < |g.events| && ev != q
    requires P < |g.pools| && dest < |g.pools| && ResolveAssigns(g, q, ev, lab, P, dest, a, b)
    ensures b.events[ev].ending == lab && b.events[ev].quest == a.events[ev].quest
    ensures b.events[q] == (if IsEnding(g, dest) then a.events[q].(ending := FirstEnding(g, q)) else a.events[q])
    ensures forall y :: 0 <= y < |g.events| && y != q && y != ev ==> b.events[y] == a.events[y]
  {
  }

  /** The pool side of `Resolved`: only `P` changes among the pools. */
  lemma ResolveOwnPool(g: Graph, q: EventId, ev: EventId, lab: string, P: PoolId, dest: PoolId, a: Runtime, b: Runtime)
    requires Wf(g) && IsQuest(g, q) && Consistent(g, a) && Resolvable(g, a.quests[q], ev, lab)
    requires P < |g.pools| && P == FindPool(g, a.quests[q].currentPools, ev).value
    requires 0 <= FindIndex(g.events[ev].endings, lab) < |g.events[ev].endingEventPools|
    requires dest < |g.pools| && dest == g.events[ev].endingEventPools[FindIndex(g.events[ev].endings, lab)]
    requires ResolveAssigns(g, q, ev, lab, P, dest, a, b)
    ensures Shaped(g, b)
    ensures forall p :: 0 <= p < |g.pools| && p != P ==> b.pools[p] == a.pools[p]
    ensures b.pools[P] == PoolState(true, a.pools[P].connUsed[dest := true], a.pools[P].activeEvents - 1, a.pools[P].wave)
  {
  }

  /** How an `EventUpdate` call went: the event was the quest's own, or it
      was handed to the current sub-quest, reaching state `mid` there with
      `inner` describing that call, and the sub-quest was then `replayed` here
      or not. */
  datatype UpdateTrace = Own | Handed(mid: Runtime, inner: UpdateTrace, replayed: bool)

  /** The promise of `EventUpdate(q, e, lab)` from `a` to `b` along `t`:
      nothing changes above `q`'s level but `q`, no `quest` field changes, and
      either `e` was `q`'s own and is resolved (`ResolvedAlone`), or it was
      handed to the current sub-quest `s` (lines 86-88), which is updated in
      turn (the same predicate, one level down) without touching `q`'s state,
      ending or pools; if `s` came out finished it is resolved here with its
      first label and nothing else changes (lines 90-96), otherwise the call
      ends there (line 91). */
  ghost predicate Updated(g: Graph, q: EventId, e: EventId, lab: string, a: Runtime, b: Runtime, t: UpdateTrace)
    requires Wf(g) && IsQuest(g, q) && Consistent(g, a) && e < |g.events| && CanUpdate(g, a, q, e, lab)
    decreases Level(g, q)
  {
    && Frame(g, a, b, Level(g, q) + 1, {}, {q})
    && KeepsOwners(g, a, b)
    && if a.events[e].quest == Some(q) then
         t == Own && ResolvedAlone(g, q, e, lab, a, b)
       else
         var s := a.quests[q].currentSubQuest.value;
         && t.Handed?
         && Shaped(g, t.mid)
         && Updated(g, s, e, lab, a, t.mid, t.inner)
         && t.mid.quests[q] == a.quests[q] && t.mid.events[q] == a.events[q] && SamePoolsOf(g, q, a, t.mid)
         && (t.replayed <==> t.mid.events[s].ending != "")
         && (t.replayed ==> ResolvedAlone(g, q, s, FirstEnding(g, s), t.mid, b))
         && (!t.replayed ==> b == t.mid)
  }

  /** After the update handed to sub-quest `s`, `q`'s own state is untouched,
      `s` can still be resolved in `q`, and if `s` is unfinished the update is done. */
  lemma SubUpdated(g: Graph, q: EventId, e: EventId, lab: string, a: Runtime, c: Runtime, inner: UpdateTrace)
    requires Wf(g) && IsQuest(g, q) && Consistent(g, a) && e < |g.events| && CanUpdate(g, a, q, e, lab)
    requires a.events[e].quest != Some(q)
    requires var s := a.quests[q].currentSubQuest.value;
      Updated(g, s, e, lab, a, c, inner)
    ensures var s := a.quests[q].currentSubQuest.value;
      && Shaped(g, c)
      && c.quests[q] == a.quests[q] && c.events[q] == a.events[q] && SamePoolsOf(g, q, a, c)
      && c.events[s].quest == a.events[s].quest
      && Frame(g, a, c, Level(g, q) + 1, {}, {q})
      && KeepsOwners(g, a, c)
      && (c.events[s].ending == "" ==> Updated(g, q, e, lab, a, c, Handed(c, inner, false)))
  {
    var s := a.quests[q].currentSubQuest.value;
    assert QuestStateOk(g, q, a.quests[q]);
    SubCall(g, a, a, c, q, s);
  }

  /** A finished sub-quest resolved in `q` completes the delegated update. */
  lemma UpdateReplayed(g: Graph, q: EventId, e: EventId, lab: string, a: Runtime, b: Runtime, c: Runtime, inner: UpdateTrace)
    requires Wf(g) && IsQuest(g, q) && Consistent(g, a) && e < |g.events| && CanUpdate(g, a, q, e, lab)
    requires a.events[e].quest != Some(q)
    requires var s := a.quests[q].currentSubQuest.value;
      && Consistent(g, b) && Shaped(g, c)
      && Updated(g, s, e, lab, a, b, inner)
      && b.quests[q] == a.quests[q] && b.events[q] == a.events[q] && SamePoolsOf(g, q, a, b)
      && b.events[s].ending != ""
      && Frame(g, a, b, Level(g, q) + 1, {}, {q})
      && KeepsOwners(g, a, b)
      && ResolvedAlone(g, q, s, FirstEnding(g, s), b, c)
    ensures Updated(g, q, e, lab, a, c, Handed(b, inner, true))
  {
    var s := a.quests[q].currentSubQuest.value;
    assert QuestStateOk(g, q, a.quests[q]);
    ResolveFrame(g, q, s, FirstEnding(g, s), b, c);
  }

  /** A replayed update resolves the sub-quest in `q` as if straight from the
      state before the call: the delegated part changed nothing `Resolved`
      looks at. */
  lemma {:induction false} ReplayedFromStart(g: Graph, q: EventId, e: EventId, lab: string, a: Runtime, b: Runtime, t: UpdateTrace)
    requires Wf(g) && IsQuest(g, q) && Consistent(g, a) && e < |g.events| && CanUpdate(g, a, q, e, lab)
    requires a.events[e].quest != Some(q) && Updated(g, q, e, lab, a, b, t) && t.Handed? && t.replayed
    ensures Resolved(g, q, a.quests[q].currentSubQuest.value, FirstEnding(g, a.quests[q].currentSubQuest.value), a, b)
  {
    var s := a.quests[q].currentSubQuest.value;
    assert QuestStateOk(g, q, a.quests[q]);
    SubUpdated(g, q, e, lab, a, t.mid, t.inner);
    ReplayTransfer(g, q, s, a, t.mid, b);
  }

  /** The replayed resolution of the sub-quest, measured from the state before
      the delegated update (which only changed deeper levels and `s` itself). */
  lemma ReplayTransfer(g: Graph, q: EventId, s: EventId, a: Runtime, b: Runtime, c: Runtime)
    requires Wf(g) && IsQuest(g, q) && IsQuest(g, s) && Shaped(g, a) && Shaped(g, b) && Shaped(g, c)
    requires QuestStateOk(g, q, a.quests[q])
    requires b.quests[q] == a.quests[q] && b.events[q] == a.events[q] && SamePoolsOf(g, q, a, b)
    requires b.events[s].quest == a.events[s].quest
    requires Resolvable(g, a.quests[q], s, FirstEnding(g, s))
    requires Resolved(g, q, s, FirstEnding(g, s), b, c)
    ensures Resolved(g, q, s, FirstEnding(g, s), a, c)
  {
    var P := FindPool(g, a.quests[q].currentPools, s).value;
    assert b.pools[P] == a.pools[P];
  }

  /** A resolution inside quest `q` stays within `q`'s level, and rebinding
      never happens. */
  lemma ResolveFrame(g: Graph, q: EventId, ev: EventId, lab: string, a: Runtime, b: Runtime)
    requires Wf(g) && IsQuest(g, q) && Shaped(g, a) && Shaped(g, b)
    requires QuestStateOk(g, q, a.quests[q]) && Resolvable(g, a.quests[q], ev, lab)
    requires ResolvedAlone(g, q, ev, lab, a, b)
    ensures Frame(g, a, b, Level(g, q) + 1, {}, {q})
    ensures KeepsOwners(g, a, b)
  {
    var P := FindPool(g, a.quests[q].currentPools, ev).value;
    var j :| 0 <= j < |g.pools[P].pool| && g.pools[P].pool[j] == ev;
    PoolMember(g, P, j);
  }
  // ------------------------------------------------------------ resets, by tree

  /** An event `x` of quest `q`'s pools holds neither `q` nor itself. */
  lemma HeldApart(g: Graph, q: EventId, x: EventId)
    requires Wf(g) && x < |g.events| && g.events[x].home == q && x != q
    ensures !InTree(g, q, x) && !Inside(g, x, x)
  {
    assert EventWf(g, x);
    if Inside(g, q, x) {
      InsideLevel(g, q, x);
    }
    if Inside(g, x, x) {
      InsideLevel(g, x, x);
    }
  }

  /** Agreement on `x`'s tree gives agreement on each pool of `x`. */
  lemma TreeAgreePool(g: Graph, a: Runtime, b: Runtime, x: EventId, P: PoolId)
    requires Wf(g) && Shaped(g, a) && Shaped(g, b) && P < |g.pools| && g.pools[P].quest == x
    requires TreeAgree(g, a, b, x)
    ensures PoolAgree(g, a, b, P)
  {
    assert PoolWf(g, P);
    var pl := g.pools[P].pool;
    forall i | 0 <= i < |pl|
      ensures b.events[pl[i]] == a.events[pl[i]] && TreeAgree(g, a, b, pl[i])
    {
      var y := pl[i];
      PoolMember(g, P, i);
      assert y != x;
      UnderChild(g, x, y, y);
      forall z | 0 <= z < |g.events| && InTree(g, z, y)
        ensures Inside(g, z, x)
      {
        UnderChild(g, x, y, z);
      }
    }
  }

  /** Agreement, chained and turned round. */
  lemma TreeAgreeChain(g: Graph, a: Runtime, b: Runtime, c: Runtime, x: EventId)
    requires Wf(g) && Shaped(g, a) && Shaped(g, b) && Shaped(g, c)
    requires TreeAgree(g, a, b, x) && TreeAgree(g, b, c, x)
    ensures TreeAgree(g, c, a, x)
  {
  }

  /** A pool's reset reads and writes only the pool, its events and their trees. */
  lemma {:induction false} PoolResetLocal(g: Graph, quest: EventId, p: PoolId, a: Runtime, b: Runtime, a2: Runtime, b2: Runtime)
    requires Wf(g) && Shaped(g, a) && Shaped(g, b) && Shaped(g, a2) && Shaped(g, b2) && p < |g.pools|
    requires PoolReset(g, quest, p, a, b) && PoolAgree(g, a, a2, p) && PoolAgree(g, b, b2, p)
    ensures PoolReset(g, quest, p, a2, b2)
    decreases PoolLevel(g, p), 0
  {
    assert PoolWf(g, p);
    var pl := g.pools[p].pool;
    forall i | 0 <= i < |pl| && IsQuest(g, pl[i])
      ensures QuestReset(g, pl[i], a2, b2)
    {
      QuestResetLocal(g, pl[i], a, b, a2, b2);
    }
  }

  /** A quest's reset reads and writes only the quest's tree. */
  lemma {:induction false} QuestResetLocal(g: Graph, x: EventId, a: Runtime, b: Runtime, a2: Runtime, b2: Runtime)
    requires Wf(g) && Shaped(g, a) && Shaped(g, b) && Shaped(g, a2) && Shaped(g, b2) && IsQuest(g, x)
    requires QuestReset(g, x, a, b) && TreeAgree(g, a, a2, x) && TreeAgree(g, b, b2, x)
    ensures QuestReset(g, x, a2, b2)
    decreases Level(g, x), 1
  {
    assert EventWf(g, x);
    var ps := EventPools(g, x);
    forall j | 0 <= j < |ps|
      ensures PoolReset(g, x, ps[j], a2, b2)
    {
      TreeAgreePool(g, a, a2, x, ps[j]);
      TreeAgreePool(g, b, b2, x, ps[j]);
      PoolResetLocal(g, x, ps[j], a, b, a2, b2);
    }
  }

  /** Resetting a pool twice is resetting it once. */
  lemma {:induction false} PoolResetTwice(g: Graph, quest: EventId, p: PoolId, a: Runtime, b: Runtime, c: Runtime)
    requires Wf(g) && Shaped(g, a) && Shaped(g, b) && Shaped(g, c) && p < |g.pools|
    requires PoolReset(g, quest, p, a, b) && PoolReset(g, quest, p, b, c)
    ensures PoolReset(g, quest, p, a, c)
    decreases PoolLevel(g, p), 0
  {
    assert PoolWf(g, p);
    var pl := g.pools[p].pool;
    FalseMapUnion(a.pools[p].connUsed, Targets(g, p), Targets(g, p));
    assert Targets(g, p) + Targets(g, p) == Targets(g, p);
    forall i | 0 <= i < |pl| && IsQuest(g, pl[i])
      ensures QuestReset(g, pl[i], a, c)
    {
      QuestResetTwice(g, pl[i], a, b, c);
    }
  }

  /** Re-initialising a quest twice is re-initialising it once. */
  lemma {:induction false} QuestResetTwice(g: Graph, x: EventId, a: Runtime, b: Runtime, c: Runtime)
    requires Wf(g) && Shaped(g, a) && Shaped(g, b) && Shaped(g, c) && IsQuest(g, x)
    requires QuestReset(g, x, a, b) && QuestReset(g, x, b, c)
    ensures QuestReset(g, x, a, c)
    decreases Level(g, x), 1
  {
    assert EventWf(g, x);
    var ps := EventPools(g, x);
    forall j | 0 <= j < |ps|
      ensures PoolReset(g, x, ps[j], a, c)
    {
      PoolResetTwice(g, x, ps[j], a, b, c);
    }
  }

  /** What quest `q` holds under an event `y` outside `es` is untouched by a
      change confined to `es` and to pools `ps` of `q`. */
  lemma ApartAgree(g: Graph, b: Runtime, c: Runtime, q: EventId, es: set<EventId>, ps: set<PoolId>, y: EventId)
    requires Wf(g) && Shaped(g, b) && BeneathFrame(g, b, c, q, es, ps)
    requires forall x :: x in ps && x < |g.pools| ==> g.pools[x].quest == q
    requires y < |g.events| && g.events[y].home == q && y != q && y !in es
    ensures c.events[y] == b.events[y] && TreeAgree(g, b, c, y) && TreeAgree(g, c, b, y)
  {
    HeldApart(g, q, y);
    UnderChild(g, q, y, y);
    forall z | 0 <= z < |g.events| && InTree(g, z, y)
      ensures !Beneath(g, z, q, es)
    {
      UnderChild(g, q, y, z);
    }
  }

  lemma ElemsSnoc(s: seq<nat>, i: nat)
    requires i < |s|
    ensures Elems(s[..i + 1]) == Elems(s[..i]) + {s[i]}
  {
    assert s[..i + 1] == s[..i] + [s[i]];
  }

  /** The loop of `QG_EventPool.Init` after `i` of the events of pool `p`:
      only `p` and what `p`'s quest holds under the events handled so far have
      changed; `p`'s flags are reset and the destinations of the events handled
      so far are in its `connUsed` as false; those events are bound to `quest`
      and unresolved, and the quests among them reset. */
  ghost predicate InitPoolLoop(g: Graph, quest: EventId, p: PoolId, a: Runtime, b: Runtime, i: nat)
    requires Wf(g) && p < |g.pools| && i <= |g.pools[p].pool| && Shaped(g, a)
  {
    assert PoolWf(g, p);
    var pl := g.pools[p].pool;
    && BeneathFrame(g, a, b, g.pools[p].quest, Elems(pl[..i]), {p})
    && b.pools[p] == a.pools[p].(used := false, activeEvents := 0,
                                  connUsed := a.pools[p].connUsed + FalseMap(TargetsOf(g, pl[..i])))
    && (forall j :: 0 <= j < i ==> b.events[pl[j]] == EventState("", Some(quest)))
    && (forall j :: 0 <= j < i && IsQuest(g, pl[j]) ==> QuestReset(g, pl[j], a, b))
  }

  lemma InitPoolStart(g: Graph, quest: EventId, p: PoolId, a: Runtime, b: Runtime)
    requires Wf(g) && p < |g.pools| && Shaped(g, a)
    requires b == a.(pools := a.pools[p := a.pools[p].(used := false, activeEvents := 0)])
    ensures InitPoolLoop(g, quest, p, a, b, 0)
  {
    assert PoolWf(g, p);
    var pl := g.pools[p].pool;
    assert pl[..0] == [];
    assert TargetsOf(g, pl[..0]) == {};
    assert a.pools[p].connUsed + FalseMap({}) == a.pools[p].connUsed;
  }

  /** One round of the loop of `QG_EventPool.Init` on event `e = pl[i]` of
      pool `p`, from `b`: `m` is the state after `e.Init(quest)` and the
      `connUsed` entries, `c` the state after the nested quest's `Init()` (if
      `e` is one), which resets `e`'s tree and touches nothing else. */
  ghost predicate InitMember(g: Graph, quest: EventId, p: PoolId, b: Runtime, m: Runtime, c: Runtime, i: nat)
    requires Wf(g) && p < |g.pools| && i < |g.pools[p].pool| && Shaped(g, b)
  {
    var e := g.pools[p].pool[i];
    && e < |g.events|
    && m == b.(events := b.events[e := EventState("", Some(quest))],
               pools := b.pools[p := b.pools[p].(connUsed := b.pools[p].connUsed + FalseMap(Elems(g.events[e].endingEventPools)))])
    && (if IsQuest(g, e) then TreeFrame(g, m, c, e) && QuestReset(g, e, m, c) else c == m)
  }

  /** A round changes only pool `p` and what `p`'s quest holds under `e`. */
  lemma InitMemberFrame(g: Graph, quest: EventId, p: PoolId, b: Runtime, m: Runtime, c: Runtime, i: nat)
    requires Wf(g) && p < |g.pools| && i < |g.pools[p].pool| && Shaped(g, b)
    requires InitMember(g, quest, p, b, m, c, i)
    ensures BeneathFrame(g, b, c, g.pools[p].quest, {g.pools[p].pool[i]}, {p})
    ensures c.pools[p] == m.pools[p] && c.events[g.pools[p].pool[i]] == m.events[g.pools[p].pool[i]]
  {
    var q := g.pools[p].quest;
    var e := g.pools[p].pool[i];
    PoolMember(g, p, i);
    assert PoolWf(g, p);
    HeldApart(g, q, e);
    UnderChild(g, q, e, e);
    forall y | 0 <= y < |g.events| && !Beneath(g, y, q, {e})
      ensures c.events[y] == b.events[y] && c.quests[y] == b.quests[y]
    {
      UnderChild(g, q, e, y);
    }
    forall x | 0 <= x < |g.pools| && x !in {p} && !Beneath(g, g.pools[x].quest, q, {e})
      ensures c.pools[x] == b.pools[x]
    {
      assert PoolWf(g, x);
      UnderChild(g, q, e, g.pools[x].quest);
    }
  }

  /** Two changes confined under `es1`, `ps1` and `es2`, `ps2` together are
      confined under the unions. */
  lemma BeneathCompose(g: Graph, a: Runtime, b: Runtime, c: Runtime, q: EventId,
                       es1: set<EventId>, ps1: set<PoolId>, es2: set<EventId>, ps2: set<PoolId>)
    requires Wf(g) && Shaped(g, a) && Shaped(g, b)
    requires BeneathFrame(g, a, b, q, es1, ps1) && BeneathFrame(g, b, c, q, es2, ps2)
    ensures BeneathFrame(g, a, c, q, es1 + es2, ps1 + ps2)
  {
  }

  /** The round keeps the reset of the quests handled before `e`, and resets `e` if it is one. */
  lemma InitMemberResets(g: Graph, quest: EventId, p: PoolId, a: Runtime, b: Runtime, m: Runtime, c: Runtime, i: nat)
    requires Wf(g) && p < |g.pools| && i < |g.pools[p].pool| && Shaped(g, a) && Shaped(g, b)
    requires InitPoolLoop(g, quest, p, a, b, i)
    requires InitMember(g, quest, p, b, m, c, i)
    ensures Shaped(g, c)
    ensures forall j :: 0 <= j < i + 1 && IsQuest(g, g.pools[p].pool[j]) ==>
              QuestReset(g, g.pools[p].pool[j], a, c)
  {
    assert PoolWf(g, p);
    var q := g.pools[p].quest;
    var pl := g.pools[p].pool;
    var e := pl[i];
    PoolMember(g, p, i);
    HeldApart(g, q, e);
    InitMemberFrame(g, quest, p, b, m, c, i);
    forall j | 0 <= j < i + 1 && IsQuest(g, pl[j])
      ensures QuestReset(g, pl[j], a, c)
    {
      PoolMember(g, p, j);
      if pl[j] != e {
        ApartAgree(g, b, c, q, {e}, {p}, pl[j]);
        QuestResetLocal(g, pl[j], a, b, a, c);
      } else {
        InitMemberResetsSelf(g, quest, p, a, b, m, c, i);
      }
    }
  }

  /** The quest `e` handled in the round reads as reset from the state before the loop. */
  lemma InitMemberResetsSelf(g: Graph, quest: EventId, p: PoolId, a: Runtime, b: Runtime, m: Runtime, c: Runtime, i: nat)
    requires Wf(g) && p < |g.pools| && i < |g.pools[p].pool| && Shaped(g, a) && Shaped(g, b) && Shaped(g, c)
    requires IsQuest(g, g.pools[p].pool[i])
    requires InitPoolLoop(g, quest, p, a, b, i)
    requires InitMember(g, quest, p, b, m, c, i)
    ensures QuestReset(g, g.pools[p].pool[i], a, c)
  {
    assert PoolWf(g, p);
    var q := g.pools[p].quest;
    var pl := g.pools[p].pool;
    var e := pl[i];
    PoolMember(g, p, i);
    HeldApart(g, q, e);
    assert TreeAgree(g, b, m, e);
    if e in pl[..i] {
      var j' :| 0 <= j' < i && pl[..i][j'] == e;
      QuestResetLocal(g, e, a, b, a, m);
      QuestResetTwice(g, e, a, m, c);
    } else {
      assert e !in Elems(pl[..i]);
      ApartAgree(g, a, b, q, Elems(pl[..i]), {p}, e);
      TreeAgreeChain(g, a, b, m, e);
      QuestResetLocal(g, e, m, c, a, c);
    }
  }

  lemma InitPoolStep(g: Graph, quest: EventId, p: PoolId, a: Runtime, b: Runtime, m: Runtime, c: Runtime, i: nat)
    requires Wf(g) && p < |g.pools| && i < |g.pools[p].pool| && Shaped(g, a) && Shaped(g, b)
    requires InitPoolLoop(g, quest, p, a, b, i)
    requires InitMember(g, quest, p, b, m, c, i)
    ensures InitPoolLoop(g, quest, p, a, c, i + 1)
  {
    assert PoolWf(g, p);
    InitStepFrame(g, quest, p, a, b, m, c, i);
    InitStepPool(g, quest, p, a, b, m, c, i);
    InitStepEvents(g, quest, p, a, b, m, c, i);
    InitMemberResets(g, quest, p, a, b, m, c, i);
  }

  /** The frame part of `InitPoolLoop` after one more round. */
  lemma InitStepFrame(g: Graph, quest: EventId, p: PoolId, a: Runtime, b: Runtime, m: Runtime, c: Runtime, i: nat)
    requires Wf(g) && p < |g.pools| && i < |g.pools[p].pool| && Shaped(g, a) && Shaped(g, b)
    requires InitPoolLoop(g, quest, p, a, b, i)
    requires InitMember(g, quest, p, b, m, c, i)
    ensures BeneathFrame(g, a, c, g.pools[p].quest, Elems(g.pools[p].pool[..i + 1]), {p})
  {
    var pl := g.pools[p].pool;
    InitMemberFrame(g, quest, p, b, m, c, i);
    ElemsSnoc(pl, i);
    BeneathCompose(g, a, b, c, g.pools[p].quest, Elems(pl[..i]), {p}, {pl[i]}, {p});
  }

  /** The pool part of `InitPoolLoop` after one more round. */
  lemma InitStepPool(g: Graph, quest: EventId, p: PoolId, a: Runtime, b: Runtime, m: Runtime, c: Runtime, i: nat)
    requires Wf(g) && p < |g.pools| && PoolWf(g, p) && i < |g.pools[p].pool| && Shaped(g, a) && Shaped(g, b)
    requires InitPoolLoop(g, quest, p, a, b, i)
    requires InitMember(g, quest, p, b, m, c, i)
    ensures c.pools[p] == a.pools[p].(used := false, activeEvents := 0,
                                      connUsed := a.pools[p].connUsed + FalseMap(TargetsOf(g, g.pools[p].pool[..i + 1])))
  {
    assert PoolWf(g, p);
    var pl := g.pools[p].pool;
    var e := pl[i];
    InitMemberFrame(g, quest, p, b, m, c, i);
    assert pl[..i + 1] == pl[..i] + [e];
    TargetsOfSnoc(g, pl[..i], e);
    FalseMapUnion(a.pools[p].connUsed, TargetsOf(g, pl[..i]), Elems(g.events[e].endingEventPools));
  }

  /** The event part of `InitPoolLoop` after one more round. */
  lemma InitStepEvents(g: Graph, quest: EventId, p: PoolId, a: Runtime, b: Runtime, m: Runtime, c: Runtime, i: nat)
    requires Wf(g) && p < |g.pools| && PoolWf(g, p) && i < |g.pools[p].pool| && Shaped(g, a) && Shaped(g, b)
    requires InitPoolLoop(g, quest, p, a, b, i)
    requires InitMember(g, quest, p, b, m, c, i)
    ensures forall j :: 0 <= j < i + 1 ==> c.events[g.pools[p].pool[j]] == EventState("", Some(quest))
  {
    assert PoolWf(g, p);
    var q := g.pools[p].quest;
    var pl := g.pools[p].pool;
    var e := pl[i];
    PoolMember(g, p, i);
    InitMemberFrame(g, quest, p, b, m, c, i);
    forall j | 0 <= j < i && pl[j] != e
      ensures c.events[pl[j]] == b.events[pl[j]]
    {
      PoolMember(g, p, j);
      ApartAgree(g, b, c, q, {e}, {p}, pl[j]);
    }
  }

  /** When the loop has gone through all of pool `p`, the pool is reset. */
  lemma InitPoolDone(g: Graph, quest: EventId, p: PoolId, a: Runtime, c: Runtime)
    requires Wf(g) && p < |g.pools| && Shaped(g, a) && Shaped(g, c)
    requires InitPoolLoop(g, quest, p, a, c, |g.pools[p].pool|)
    ensures BeneathFrame(g, a, c, g.pools[p].quest, Members(g, p), {p})
    ensures PoolReset(g, quest, p, a, c)
  {
    assert PoolWf(g, p);
    var pl := g.pools[p].pool;
    assert pl[..|pl|] == pl;
    assert Elems(pl) == Members(g, p);
  }

  /** A pool of `q` reset before stays reset after another pool of `q` (or the
      same one again) is reset: what the two share was reset twice, the rest
      was not touched. */
  lemma ResetStable(g: Graph, q: EventId, P: PoolId, P2: PoolId, a: Runtime, b: Runtime, c: Runtime)
    requires Wf(g) && P < |g.pools| && P2 < |g.pools|
    requires g.pools[P].quest == q && g.pools[P2].quest == q
    requires Shaped(g, a) && Shaped(g, b)
    requires PoolReset(g, q, P, a, b)
    requires BeneathFrame(g, b, c, q, Members(g, P2), {P2})
    requires PoolReset(g, q, P2, b, c)
    ensures PoolReset(g, q, P, a, c)
  {
    assert PoolWf(g, P);
    assert PoolWf(g, P2);
    if P == P2 {
      PoolResetTwice(g, q, P, a, b, c);
    } else {
      var pl := g.pools[P].pool;
      if Inside(g, q, q) {
        InsideLevel(g, q, q);
      }
      forall t | 0 <= t < |pl|
        ensures c.events[pl[t]] == EventState("", Some(q))
        ensures IsQuest(g, pl[t]) ==> QuestReset(g, pl[t], a, c)
      {
        var y := pl[t];
        PoolMember(g, P, t);
        if y in Members(g, P2) {
          var t2 :| 0 <= t2 < |g.pools[P2].pool| && g.pools[P2].pool[t2] == y;
          if IsQuest(g, y) {
            QuestResetTwice(g, y, a, b, c);
          }
        } else {
          ApartAgree(g, b, c, q, Members(g, P2), {P2}, y);
          if IsQuest(g, y) {
            QuestResetLocal(g, y, a, b, a, c);
          }
        }
      }
    }
  }

  /** The first reset of a pool of `q` in the loop, measured from the state
      before the loop: what it shares with the pools before was reset twice,
      the rest was not touched before. */
  lemma ResetFresh(g: Graph, q: EventId, ps: seq<PoolId>, i: nat, a: Runtime, b: Runtime, c: Runtime)
    requires Wf(g) && IsQuest(g, q) && ps == EventPools(g, q) && i < |ps| && ps[i] !in ps[..i]
    requires Shaped(g, a) && Shaped(g, b) && Shaped(g, c)
    requires BeneathFrame(g, a, b, q, Scope(g, q, ps[..i]), Elems(ps[..i]))
    requires forall k :: 0 <= k < i ==> PoolReset(g, q, ps[k], a, b)
    requires PoolReset(g, q, ps[i], b, c)
    ensures PoolReset(g, q, ps[i], a, c)
  {
    assert EventWf(g, q);
    var P := ps[i];
    assert PoolWf(g, P);
    var pl := g.pools[P].pool;
    if Inside(g, q, q) {
      InsideLevel(g, q, q);
    }
    forall x | x in Elems(ps[..i]) && x < |g.pools|
      ensures g.pools[x].quest == q
    {
      var k :| 0 <= k < i && ps[..i][k] == x;
    }
    forall t | 0 <= t < |pl| && IsQuest(g, pl[t])
      ensures QuestReset(g, pl[t], a, c)
    {
      ResetFreshMember(g, q, ps, i, a, b, c, t);
    }
  }

  /** The quest at position `t` of the freshly reset pool reads as reset from the state before the loop. */
  lemma ResetFreshMember(g: Graph, q: EventId, ps: seq<PoolId>, i: nat, a: Runtime, b: Runtime, c: Runtime, t: nat)
    requires Wf(g) && IsQuest(g, q) && ps == EventPools(g, q) && i < |ps|
    requires ps[i] < |g.pools| && g.pools[ps[i]].quest == q
    requires t < |g.pools[ps[i]].pool| && IsQuest(g, g.pools[ps[i]].pool[t])
    requires Shaped(g, a) && Shaped(g, b) && Shaped(g, c)
    requires forall x :: x in Elems(ps[..i]) && x < |g.pools| ==> g.pools[x].quest == q
    requires BeneathFrame(g, a, b, q, Scope(g, q, ps[..i]), Elems(ps[..i]))
    requires forall k :: 0 <= k < i ==> PoolReset(g, q, ps[k], a, b)
    requires QuestReset(g, g.pools[ps[i]].pool[t], b, c)
    ensures QuestReset(g, g.pools[ps[i]].pool[t], a, c)
  {
    var P := ps[i];
    var y := g.pools[P].pool[t];
    PoolMember(g, P, t);
    if y in Scope(g, q, ps[..i]) {
      var p' :| p' in ps[..i] && p' < |g.pools| && y in g.pools[p'].pool;
      var k :| 0 <= k < i && ps[..i][k] == p';
      var j :| 0 <= j < |g.pools[p'].pool| && g.pools[p'].pool[j] == y;
      assert PoolReset(g, q, ps[k], a, b);
      assert PoolWf(g, p');
      QuestResetTwice(g, y, a, b, c);
    } else {
      ApartAgree(g, a, b, q, Scope(g, q, ps[..i]), Elems(ps[..i]), y);
      QuestResetLocal(g, y, b, c, a, c);
    }
  }

  /** After `InitPool` of the `i`-th pool of `q`, every pool of `q` handled so
      far still reads as reset, and only those pools and what `q` holds under
      their events have changed. */
  lemma InitPoolInQuest(g: Graph, a: Runtime, b: Runtime, c: Runtime, q: EventId, ps: seq<PoolId>, i: nat)
    requires Wf(g) && IsQuest(g, q) && ps == EventPools(g, q) && i < |ps|
    requires Shaped(g, a) && Shaped(g, b)
    requires BeneathFrame(g, a, b, q, Scope(g, q, ps[..i]), Elems(ps[..i]))
    requires forall k :: 0 <= k < i ==> PoolReset(g, q, ps[k], a, b)
    requires ps[i] < |g.pools| && g.pools[ps[i]].quest == q
    requires BeneathFrame(g, b, c, q, Members(g, ps[i]), {ps[i]})
    requires PoolReset(g, q, ps[i], b, c)
    ensures BeneathFrame(g, a, c, q, Scope(g, q, ps[..i + 1]), Elems(ps[..i + 1]))
    ensures forall k :: 0 <= k < i + 1 ==> PoolReset(g, q, ps[k], a, c)
  {
    assert EventWf(g, q);
    ScopeGrows(g, q, ps, i);
    BeneathCompose(g, a, b, c, q, Scope(g, q, ps[..i]), Elems(ps[..i]), Members(g, ps[i]), {ps[i]});
    forall k | 0 <= k < i + 1
      ensures PoolReset(g, q, ps[k], a, c)
    {
      ResetKept(g, a, b, c, q, ps, i, k);
    }
  }

  /** The `k`-th pool of `q`, for `k <= i`, reads as reset after the `i`-th is. */
  lemma ResetKept(g: Graph, a: Runtime, b: Runtime, c: Runtime, q: EventId, ps: seq<PoolId>, i: nat, k: nat)
    requires Wf(g) && IsQuest(g, q) && ps == EventPools(g, q) && k <= i < |ps|
    requires Shaped(g, a) && Shaped(g, b) && Shaped(g, c)
    requires BeneathFrame(g, a, b, q, Scope(g, q, ps[..i]), Elems(ps[..i]))
    requires forall k :: 0 <= k < i ==> PoolReset(g, q, ps[k], a, b)
    requires ps[i] < |g.pools| && g.pools[ps[i]].quest == q
    requires BeneathFrame(g, b, c, q, Members(g, ps[i]), {ps[i]})
    requires PoolReset(g, q, ps[i], b, c)
    ensures PoolReset(g, q, ps[k], a, c)
  {
    assert EventWf(g, q);
    if k < i {
      ResetStable(g, q, ps[k], ps[i], a, b, c);
    } else if ps[i] in ps[..i] {
      var k' :| 0 <= k' < i && ps[..i][k'] == ps[i];
      ResetStable(g, q, ps[k'], ps[i], a, b, c);
    } else {
      ResetFresh(g, q, ps, i, a, b, c);
    }
  }

  /** The reset of `q`'s pools turns into `QuestReset` of `q` from the state
      before the quest state was re-initialised, and nothing outside `q`'s
      tree has changed. */
  lemma InitQuestDone(g: Graph, q: EventId, a: Runtime, a1: Runtime, c: Runtime)
    requires Wf(g) && IsQuest(g, q) && Shaped(g, a)
    requires a1 == a.(quests := a.quests[q := Reinit(g, q, a.quests[q])])
    requires BeneathFrame(g, a1, c, q, Scope(g, q, EventPools(g, q)), Elems(EventPools(g, q)))
    requires forall k :: 0 <= k < |EventPools(g, q)| ==> PoolReset(g, q, EventPools(g, q)[k], a1, c)
    ensures TreeFrame(g, a, c, q) && QuestReset(g, q, a, c) && c.events[q] == a.events[q]
  {
    assert EventWf(g, q);
    var ps := EventPools(g, q);
    if Inside(g, q, q) {
      InsideLevel(g, q, q);
    }
    forall x | x in Elems(ps)
      ensures x < |g.pools| && g.pools[x].quest == q
    {
      var k :| 0 <= k < |ps| && ps[k] == x;
    }
    forall k | 0 <= k < |ps|
      ensures PoolReset(g, q, ps[k], a, c)
    {
      ReinitKeepsPool(g, q, ps[k], a, a1, c);
    }
  }

  /** Re-initialising `q`'s own state does not touch what pool `P` of `q`
      holds, so a reset of `P` measured from after it reads the same from before. */
  lemma ReinitKeepsPool(g: Graph, q: EventId, P: PoolId, a: Runtime, a1: Runtime, c: Runtime)
    requires Wf(g) && IsQuest(g, q) && Shaped(g, a) && Shaped(g, c)
    requires a1 == a.(quests := a.quests[q := Reinit(g, q, a.quests[q])])
    requires P < |g.pools| && g.pools[P].quest == q && PoolReset(g, q, P, a1, c)
    ensures PoolReset(g, q, P, a, c)
  {
    if Inside(g, q, q) {
      InsideLevel(g, q, q);
    }
    assert PoolWf(g, P);
    forall t | 0 <= t < |g.pools[P].pool|
      ensures TreeAgree(g, a1, a, g.pools[P].pool[t])
    {
      PoolMember(g, P, t);
      HeldApart(g, q, g.pools[P].pool[t]);
    }
    assert PoolAgree(g, a1, a, P);
    PoolResetLocal(g, q, P, a1, c, a, c);
  }
}
