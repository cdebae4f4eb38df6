/** The authored, never-mutated part of a quest graph: which events sit in
    which pool, where each ending of an event leads, and which events are whole
    quests of their own. Events and pools live in an arena and are named by
    their index; a quest is named by the index of the event it is. */
module QuestGraph {
  import opened Wrappers

  type EventId = nat
  type PoolId = nat

  /** The run-time `is QG_Quest` test, made a tag. A nested quest carries its
      start pool and its `eventPools` list, and a nesting `level`: the authored
      witness that quests nest without cycles (the code itself never checks this). */
  datatype Kind = Ordinary | Nested(start: PoolId, eventPools: seq<PoolId>, level: nat)

  /** The static fields of a `QG_Event`: `endings`, `endingEventPools` (paired by
      position), its kind, the handle of its `callback` (if any), and `home`, the
      quest whose pools hold it. */
  datatype EventInfo = EventInfo(
    endings: seq<string>,
    endingEventPools: seq<PoolId>,
    kind: Kind,
    callback: Option<nat>,
    home: EventId)

  /** The static part of a `QG_EventPool`: its `pool` list, and the quest whose
      graph it belongs to. */
  datatype PoolInfo = PoolInfo(pool: seq<EventId>, quest: EventId)

  datatype Graph = Graph(events: seq<EventInfo>, pools: seq<PoolInfo>)

  predicate IsQuest(g: Graph, e: EventId) {
    e < |g.events| && g.events[e].kind.Nested?
  }

  /** Nesting level of a quest (0 for anything else). */
  function Level(g: Graph, e: EventId): nat {
    if IsQuest(g, e) then g.events[e].kind.level else 0
  }

  /** Level of the quest an event belongs to. */
  function HomeLevel(g: Graph, e: EventId): nat
    requires e < |g.events|
  {
    Level(g, g.events[e].home)
  }

  /** Level of the quest a pool belongs to. */
  function PoolLevel(g: Graph, p: PoolId): nat
    requires p < |g.pools|
  {
    Level(g, g.pools[p].quest)
  }

  function Start(g: Graph, q: EventId): PoolId
    requires IsQuest(g, q)
  {
    g.events[q].kind.start
  }

  function EventPools(g: Graph, q: EventId): seq<PoolId>
    requires IsQuest(g, q)
  {
    g.events[q].kind.eventPools
  }

  /** A quest's graph: its start pool and its pools belong to it, it has at
      least one ending label (the code always reads `endings[0]`), and it is
      either not inside any pool (a top-level quest is its own home) or one
      level below the quest that holds it. */
  ghost predicate QuestWf(g: Graph, q: EventId)
    requires IsQuest(g, q)
  {
    var k := g.events[q].kind;
    && k.start < |g.pools| && g.pools[k.start].quest == q
    && (forall i :: 0 <= i < |k.eventPools| ==> k.eventPools[i] < |g.pools| && g.pools[k.eventPools[i]].quest == q)
    && |g.events[q].endings| > 0
    && (g.events[q].home == q || Level(g, q) < HomeLevel(g, q))
  }

  /** Every ending of an event leads to a pool of the event's own quest. */
  ghost predicate EventWf(g: Graph, e: EventId)
    requires e < |g.events|
  {
    var info := g.events[e];
    && IsQuest(g, info.home)
    && (forall j :: 0 <= j < |info.endingEventPools| ==>
          info.endingEventPools[j] < |g.pools| && g.pools[info.endingEventPools[j]].quest == info.home)
    && (IsQuest(g, e) ==> QuestWf(g, e))
  }

  /** A pool belongs to one quest, holds only events of that quest, and any
      quest it holds is strictly deeper. */
  ghost predicate PoolWf(g: Graph, p: PoolId)
    requires p < |g.pools|
  {
    var info := g.pools[p];
    && IsQuest(g, info.quest)
    && (forall i :: 0 <= i < |info.pool| ==>
          info.pool[i] < |g.events| && g.events[info.pool[i]].home == info.quest)
    && (forall i :: 0 <= i < |info.pool| && IsQuest(g, info.pool[i]) ==>
          Level(g, info.pool[i]) < Level(g, info.quest))
  }

  ghost predicate Wf(g: Graph) {
    && (forall e :: 0 <= e < |g.events| ==> EventWf(g, e))
    && (forall p :: 0 <= p < |g.pools| ==> PoolWf(g, p))
  }

  /** The events a pool holds are events of the pool's quest, and a quest held
      there is strictly below that quest, so it is not the quest itself. */
  lemma PoolMember(g: Graph, p: PoolId, i: nat)
    requires Wf(g) && p < |g.pools| && i < |g.pools[p].pool|
    ensures g.pools[p].pool[i] < |g.events|
    ensures g.events[g.pools[p].pool[i]].home == g.pools[p].quest
    ensures IsQuest(g, g.pools[p].pool[i]) ==>
              Level(g, g.pools[p].pool[i]) < PoolLevel(g, p) && g.pools[p].pool[i] != g.pools[p].quest
  {
    assert PoolWf(g, p);
  }

  /** A quest never sits below its own level: its home is itself or strictly above. */
  lemma QuestBelowHome(g: Graph, q: EventId)
    requires Wf(g) && IsQuest(g, q)
    ensures Level(g, q) <= HomeLevel(g, q)
  {
    assert EventWf(g, q);
  }

  /** Event `y` is held by a pool of quest `s`, directly or inside quests
      nested there: following `home` links up from `y` reaches `s`. */
  ghost predicate Inside(g: Graph, y: EventId, s: EventId)
    requires Wf(g)
    decreases if y < |g.events| && Level(g, g.events[y].home) <= Level(g, s)
              then Level(g, s) - Level(g, g.events[y].home) else 0
  {
    && y < |g.events|
    && var h := g.events[y].home;
    && h != y
    && (h == s ||
        (assert EventWf(g, y) && EventWf(g, h);
         g.events[h].home != h && Level(g, h) < Level(g, s) && Inside(g, h, s)))
  }

  /** The event held directly by a pool of `s` on the way up from `y` to `s`. */
  ghost function Child(g: Graph, y: EventId, s: EventId): (c: EventId)
    requires Wf(g) && Inside(g, y, s)
    ensures c < |g.events| && g.events[c].home == s
    decreases if Level(g, g.events[y].home) <= Level(g, s)
              then Level(g, s) - Level(g, g.events[y].home) else 0
  {
    var h := g.events[y].home;
    if h == s then y else (assert EventWf(g, y) && EventWf(g, h); Child(g, h, s))
  }

  /** Only a quest holds anything; whatever it holds sits no higher than it,
      and a quest it holds strictly lower, so nothing is inside itself. */
  lemma InsideLevel(g: Graph, y: EventId, s: EventId)
    requires Wf(g) && Inside(g, y, s)
    ensures IsQuest(g, s) && HomeLevel(g, y) <= Level(g, s) && y != s
    ensures IsQuest(g, y) ==> Level(g, y) < Level(g, s)
  {
    assert EventWf(g, y);
  }

  /** Nesting is transitive, and on the way up to `s` it passes the same child of `s`. */
  lemma {:induction false} InsideTrans(g: Graph, y: EventId, x: EventId, s: EventId)
    requires Wf(g) && Inside(g, y, x) && Inside(g, x, s)
    ensures Inside(g, y, s) && Child(g, y, s) == Child(g, x, s)
    decreases if Level(g, g.events[y].home) <= Level(g, x)
              then Level(g, x) - Level(g, g.events[y].home) else 0
  {
    var h := g.events[y].home;
    assert EventWf(g, y);
    InsideLevel(g, x, s);
    if h != x {
      assert EventWf(g, h);
      InsideLevel(g, h, x);
      InsideTrans(g, h, x, s);
    }
  }

  /** An event inside `s` is the child of `s` on its way up, or inside that child. */
  lemma {:induction false} InsideChild(g: Graph, y: EventId, s: EventId)
    requires Wf(g) && Inside(g, y, s)
    ensures y == Child(g, y, s) || Inside(g, y, Child(g, y, s))
    decreases if Level(g, g.events[y].home) <= Level(g, s)
              then Level(g, s) - Level(g, g.events[y].home) else 0
  {
    var h := g.events[y].home;
    if h != s {
      assert EventWf(g, y) && EventWf(g, h);
      InsideChild(g, h, s);
      var c := Child(g, h, s);
      if h != c {
        InsideLevel(g, h, c);
      }
    }
  }

  /** What quest `q` holds through event `x` (an event whose home is `q`) is
      exactly what lies inside `q` with `x` as the child on the way up. */
  lemma UnderChild(g: Graph, q: EventId, x: EventId, y: EventId)
    requires Wf(g) && x < |g.events| && g.events[x].home == q && x != q
    ensures (y == x || Inside(g, y, x)) <==> (Inside(g, y, q) && Child(g, y, q) == x)
  {
    assert Inside(g, x, q);
    if Inside(g, y, x) {
      InsideTrans(g, y, x, q);
    }
    if Inside(g, y, q) && Child(g, y, q) == x {
      InsideChild(g, y, q);
    }
  }

  /** The destination pools of the endings of a sequence of events. */
  function TargetsOf(g: Graph, evs: seq<EventId>): set<PoolId>
    requires forall i :: 0 <= i < |evs| ==> evs[i] < |g.events|
  {
    set d | d in EdgesOf(g, evs)
  }

  /** One more event adds exactly its own destinations. */
  lemma TargetsOfSnoc(g: Graph, evs: seq<EventId>, e: EventId)
    requires (forall i :: 0 <= i < |evs| ==> evs[i] < |g.events|) && e < |g.events|
    ensures TargetsOf(g, evs + [e]) == TargetsOf(g, evs) + (set d | d in g.events[e].endingEventPools)
  {
    assert (evs + [e])[..|evs|] == evs;
    assert EdgesOf(g, evs + [e]) == EdgesOf(g, evs) + g.events[e].endingEventPools;
  }

  /** The destination pools of every ending of every event in pool `p`. */
  function Targets(g: Graph, p: PoolId): set<PoolId>
    requires Wf(g) && p < |g.pools|
  {
    assert PoolWf(g, p);
    TargetsOf(g, g.pools[p].pool)
  }

  /** `QG_EventPool.IsEnding()`: an empty pool. Such a pool is a sink of the
      graph: no ending of any event leads out of it. */
  predicate IsEnding(g: Graph, p: PoolId): (r: bool)
    requires Wf(g) && p < |g.pools|
    ensures r ==> Targets(g, p) == {}
  {
    |g.pools[p].pool| == 0
  }

  /** The edges out of a sequence of events, in the order `foreach event / foreach
      ending` visits them (with repetitions). */
  function EdgesOf(g: Graph, evs: seq<EventId>): seq<PoolId>
    requires forall i :: 0 <= i < |evs| ==> evs[i] < |g.events|
  {
    if evs == [] then []
    else EdgesOf(g, evs[..|evs| - 1]) + g.events[evs[|evs| - 1]].endingEventPools
  }

  /** An edge out of a sequence of events is an ending of one of its events. */
  lemma {:induction false} EdgesOfMember(g: Graph, evs: seq<EventId>, d: PoolId)
    requires forall i :: 0 <= i < |evs| ==> evs[i] < |g.events|
    requires d in EdgesOf(g, evs)
    ensures exists i, j :: 0 <= i < |evs| && 0 <= j < |g.events[evs[i]].endingEventPools| &&
                           g.events[evs[i]].endingEventPools[j] == d
  {
    var init := evs[..|evs| - 1];
    var last := evs[|evs| - 1];
    if d in EdgesOf(g, init) {
      EdgesOfMember(g, init, d);
      var i, j :| 0 <= i < |init| && 0 <= j < |g.events[init[i]].endingEventPools| &&
                  g.events[init[i]].endingEventPools[j] == d;
      assert evs[i] == init[i];
    } else {
      var j :| 0 <= j < |g.events[last].endingEventPools| && g.events[last].endingEventPools[j] == d;
    }
  }

  /** The edges out of a prefix are edges out of the whole sequence. */
  lemma {:induction false} EdgesOfPrefix(g: Graph, evs: seq<EventId>, i: nat)
    requires forall k :: 0 <= k < |evs| ==> evs[k] < |g.events|
    requires i <= |evs|
    ensures forall d :: d in EdgesOf(g, evs[..i]) ==> d in EdgesOf(g, evs)
  {
    if i < |evs| {
      var init := evs[..|evs| - 1];
      assert init[..i] == evs[..i];
      EdgesOfPrefix(g, init, i);
    } else {
      assert evs[..i] == evs;
    }
  }

  /** Every ending of an event of pool `p` leads to a pool of `p`'s own quest. */
  lemma TargetsInQuest(g: Graph, p: PoolId)
    requires Wf(g) && p < |g.pools|
    ensures forall d :: d in Targets(g, p) ==> d < |g.pools| && g.pools[d].quest == g.pools[p].quest
  {
    assert PoolWf(g, p);
    var pl := g.pools[p].pool;
    forall d | d in Targets(g, p)
      ensures d < |g.pools| && g.pools[d].quest == g.pools[p].quest
    {
      EdgesOfMember(g, pl, d);
      var i, j :| 0 <= i < |pl| && 0 <= j < |g.events[pl[i]].endingEventPools| &&
                  g.events[pl[i]].endingEventPools[j] == d;
      assert EventWf(g, pl[i]);
    }
  }
}
