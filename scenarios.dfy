/** Two walk-throughs of a small quest, driven through the engine's own
    contracts: the quest starts at pool `P0 = {e0}`; `e0`'s endings "left" and
    "right" lead to the empty pool `P1` and to `P2 = {e2}`; the only ending of
    `e2`, "end", leads to `P1`. Reaching the empty pool finishes the quest. */
module QuestScenarios {
  import opened Wrappers
  import opened QuestGraph
  import opened Lists
  import opened QuestEngine

  const Q: EventId := 0
  const E0: EventId := 1
  const E2: EventId := 2
  const P0: PoolId := 0
  const P1: PoolId := 1
  const P2: PoolId := 2

  /** The authored graph of the walk-throughs; `Q` is a top-level quest. */
  const G: Graph :=
    Graph([EventInfo(["done"], [], Nested(P0, [P0, P1, P2], 1), None, Q),
           EventInfo(["left", "right"], [P1, P2], Ordinary, None, Q),
           EventInfo(["end"], [P1], Ordinary, None, Q)],
          [PoolInfo([E0], Q), PoolInfo([], Q), PoolInfo([E2], Q)])

  lemma SampleWf()
    ensures Wf(G) && IsQuest(G, Q) && EventPools(G, Q) == [P0, P1, P2]
  {
    assert EventWf(G, Q) && EventWf(G, E0) && EventWf(G, E2);
    assert PoolWf(G, P0) && PoolWf(G, P1) && PoolWf(G, P2);
  }

  /** Where each ending of the walk-throughs leads. */
  lemma Destinations()
    ensures G.events[E0].endingEventPools[FindIndex(G.events[E0].endings, "left")] == P1
    ensures G.events[E0].endingEventPools[FindIndex(G.events[E0].endings, "right")] == P2
    ensures G.events[E2].endingEventPools[FindIndex(G.events[E2].endings, "end")] == P1
  {
    assert G.events[E0].endings[1..] == ["right"];
  }

  /** What construction leaves: both events bound to `Q` and unfinished, and
      no active events in their pools. */
  lemma Constructed(rt: Runtime)
    requires Wf(G) && IsQuest(G, Q) && EventPools(G, Q) == [P0, P1, P2] && Shaped(G, rt)
    requires QuestReset(G, Q, Blank(G), rt)
    ensures rt.events[E0] == EventState("", Some(Q)) && rt.events[E2] == EventState("", Some(Q))
    ensures rt.pools[P0].activeEvents == 0 && rt.pools[P2].activeEvents == 0
  {
    assert PoolReset(G, Q, EventPools(G, Q)[0], Blank(G), rt);
    assert PoolReset(G, Q, EventPools(G, Q)[2], Blank(G), rt);
  }

  /** `NextEvent` on a queue holding just a pool whose one event `e` is
      ordinary: `e` is served and becomes current, and can then be resolved
      with its ending `lab`. */
  lemma ServesOnly(a: Runtime, b: Runtime, P: PoolId, e: EventId, lab: string, other: PoolId,
                   r: Option<EventId>, tr: Trace)
    requires Wf(G) && IsQuest(G, Q) && Consistent(G, a)
    requires P < |G.pools| && G.pools[P].pool == [e] && e < |G.events| && !IsQuest(G, e)
    requires lab in G.events[e].endings && |G.events[e].endings| == |G.events[e].endingEventPools|
    requires a.quests[Q].poolsQueue == [P] && a.quests[Q].currentSubQuest == None
    requires a.events[e].quest == Some(Q) && other < |G.pools| && other != P
    requires Advanced(G, Q, a, b, r, tr)
    ensures r == Some(e)
    ensures b.quests[Q] == QuestState([], a.quests[Q].currentPools + [P], a.quests[Q].currentEvents + [e], None)
    ensures b.pools[P].activeEvents == a.pools[P].activeEvents + 1
    ensures b.pools[other] == a.pools[other]
    ensures b.events[Q] == a.events[Q] && b.events[E0] == a.events[E0] && b.events[E2] == a.events[E2]
    ensures Shaped(G, b) && (a.quests[Q].currentPools == [] ==> CanUpdate(G, b, Q, e, lab))
  {
    assert a.quests[Q].poolsQueue[2 * 0] == P && !Skippable(G, P);
    assert Dispatched(G, Q, a, b, r, tr.rejects, tr.picked, tr.served);
  }

  /** `NextEvent` on a queue holding only the empty pool: nothing is served. */
  lemma EndsAtEmpty(a: Runtime, b: Runtime, r: Option<EventId>, tr: Trace)
    requires Wf(G) && IsQuest(G, Q) && Consistent(G, a)
    requires a.quests[Q].poolsQueue == [P1] && a.quests[Q].currentSubQuest == None
    requires Advanced(G, Q, a, b, r, tr)
    ensures r == None
  {
    assert !Skippable(G, P1);
  }

  /** `EventUpdate(Q, e, lab)` on `Q`'s own event `e`, the one active event of
      `P`, the only current pool: `P` is no longer current, the destination is
      queued, and an empty destination finishes `Q`. */
  lemma ResolvesOnly(a: Runtime, b: Runtime, P: PoolId, e: EventId, lab: string, other: PoolId, y: EventId, t: UpdateTrace)
    requires Wf(G) && IsQuest(G, Q) && Consistent(G, a) && e < |G.events| && CanUpdate(G, a, Q, e, lab)
    requires a.events[e].quest == Some(Q) && a.quests[Q].currentPools == [P] && a.quests[Q].currentEvents == [e]
    requires P < |G.pools| && a.pools[P].activeEvents == 1
    requires other < |G.pools| && other != P && y < |G.events| && y != Q && y != e
    requires Updated(G, Q, e, lab, a, b, t)
    ensures var dest := G.events[e].endingEventPools[FindIndex(G.events[e].endings, lab)];
      && b.quests[Q] == QuestState(a.quests[Q].poolsQueue + [dest], [], [], a.quests[Q].currentSubQuest)
      && b.events[Q] == (if IsEnding(G, dest) then a.events[Q].(ending := "done") else a.events[Q])
    ensures b.events[e].quest == Some(Q)
    ensures b.events[y] == a.events[y] && b.pools[other] == a.pools[other]
  {
    assert FindPool(G, [P], e) == Some(P);
    assert RemoveFirst([P], P) == [] && RemoveFirst([e], e) == [];
  }

  /** A fresh world over `G`: `Q` queues its start pool, and its events are
      bound to it, unfinished, with no active events. */
  method Build() returns (w: World)
    ensures fresh(w) && w.Valid() && w.g == G && Wf(G) && IsQuest(G, Q)
    ensures w.quests[Q] == QuestState([P0], [], [], None) && w.events[Q] == EventState("", None)
    ensures w.events[E0] == EventState("", Some(Q)) && w.events[E2] == EventState("", Some(Q))
    ensures w.pools[P0].activeEvents == 0 && w.pools[P2].activeEvents == 0
  {
    SampleWf();
    w := new World(G, Q, Blank(G));
    Constructed(w.State());
  }

  /** The player asks `Q` for an event while only pool `P`, whose one event
      `e` is ordinary, is queued: `e` is offered and becomes current. */
  method Draw(w: World, P: PoolId, e: EventId, lab: string, other: PoolId) returns (r: Option<EventId>)
    requires w.Valid() && w.g == G && Wf(G) && IsQuest(G, Q)
    requires P < |G.pools| && G.pools[P].pool == [e] && e < |G.events| && !IsQuest(G, e)
    requires lab in G.events[e].endings && |G.events[e].endings| == |G.events[e].endingEventPools|
    requires w.quests[Q] == QuestState([P], [], [], None) && w.events[e].quest == Some(Q)
    requires other < |G.pools| && other != P
    modifies w`events, w`pools, w`quests
    ensures w.Valid() && r == Some(e)
    ensures w.quests[Q] == QuestState([], [P], [e], None) && CanUpdate(G, w.State(), Q, e, lab)
    ensures w.pools[P].activeEvents == old(w.pools[P].activeEvents) + 1 && w.pools[other] == old(w.pools[other])
    ensures w.events[Q] == old(w.events[Q]) && w.events[E0] == old(w.events[E0]) && w.events[E2] == old(w.events[E2])
  {
    ghost var s := w.State();
    ghost var tr;
    r, tr := w.NextEvent(Q);
    ServesOnly(s, w.State(), P, e, lab, other, r, tr);
  }

  /** The player ends the current event `e` of `Q` with `lab`: its
      destination is queued alone, and an empty destination ends `Q`. */
  method Choose(w: World, P: PoolId, e: EventId, lab: string, other: PoolId, y: EventId)
    requires w.Valid() && w.g == G && Wf(G) && IsQuest(G, Q) && e < |G.events|
    requires CanUpdate(G, w.State(), Q, e, lab)
    requires w.events[e].quest == Some(Q) && w.quests[Q] == QuestState([], [P], [e], None)
    requires P < |G.pools| && w.pools[P].activeEvents == 1
    requires other < |G.pools| && other != P && y < |G.events| && y != Q && y != e
    modifies w`events, w`pools, w`quests
    ensures w.Valid()
    ensures var dest := G.events[e].endingEventPools[FindIndex(G.events[e].endings, lab)];
      && w.quests[Q] == QuestState([dest], [], [], None)
      && w.events[Q] == (if IsEnding(G, dest) then old(w.events[Q]).(ending := "done") else old(w.events[Q]))
    ensures w.events[y] == old(w.events[y]) && w.pools[other] == old(w.pools[other])
  {
    ghost var s := w.State();
    ghost var t := w.EventUpdate(Q, e, lab);
    ResolvesOnly(s, w.State(), P, e, lab, other, y, t);
  }

  /** The player asks `Q` for an event while only the empty pool is queued:
      nothing is offered. */
  method Close(w: World) returns (r: Option<EventId>)
    requires w.Valid() && w.g == G && Wf(G) && IsQuest(G, Q)
    requires w.quests[Q] == QuestState([P1], [], [], None)
    modifies w`events, w`pools, w`quests
    ensures r == None
  {
    ghost var s := w.State();
    ghost var tr;
    r, tr := w.NextEvent(Q);
    EndsAtEmpty(s, w.State(), r, tr);
  }

  /** "right" then "end": `NextEvent` offers `e0`, then `e2`; resolving `e2`
      reaches the empty pool, which finishes the quest, and the next
      `NextEvent` offers nothing. */
  method RightThenEnd() returns (first: Option<EventId>, second: Option<EventId>, finished: bool, last: Option<EventId>)
    ensures first == Some(E0) && second == Some(E2) && finished && last == None
  {
    var w := Build();
    Destinations();
    first := Draw(w, P0, E0, "right", P2);
    Choose(w, P0, E0, "right", P2, E2);
    second := Draw(w, P2, E2, "end", P0);
    Choose(w, P2, E2, "end", P0, E0);
    finished := w.IsFinished(Q);
    last := Close(w);
  }

  /** "left": resolving `e0` reaches the empty pool at once, so the quest is
      finished after that single update and `NextEvent` offers nothing. */
  method LeftEndsAtOnce() returns (first: Option<EventId>, finished: bool, next: Option<EventId>)
    ensures first == Some(E0) && finished && next == None
  {
    var w := Build();
    Destinations();
    first := Draw(w, P0, E0, "left", P2);
    Choose(w, P0, E0, "left", P2, E2);
    finished := w.IsFinished(Q);
    next := Close(w);
  }

  /** A quest `Q` whose `eventPools` lists only its start pool `P0`, while a
      second pool `P1` of `Q` holds the ordinary event `E0`: `init` never
      reaches `P1` or `E0`. */
  const Unlisted: Graph :=
    Graph([EventInfo(["done"], [], Nested(P0, [P0], 1), None, Q),
           EventInfo(["go"], [P0], Ordinary, None, Q)],
          [PoolInfo([], Q), PoolInfo([E0], Q)])

  /** In that graph `P1` is unlisted and `E0` sits in no listed pool. */
  lemma UnlistedFacts()
    ensures Wf(Unlisted) && IsQuest(Unlisted, Q)
    ensures P1 !in PoolSet(Unlisted, Q) && !InListedPool(Unlisted, E0)
  {
    assert EventWf(Unlisted, Q) && EventWf(Unlisted, E0);
    assert PoolWf(Unlisted, P0) && PoolWf(Unlisted, P1);
    assert P1 !in PoolSet(Unlisted, Q) by { assert EventPools(Unlisted, Q) == [P0]; }
    assert !InListedPool(Unlisted, E0) by {
      assert QuestEvents(Unlisted, Q) == {Q} by { assert EventPools(Unlisted, Q) == [P0]; }
    }
  }

  /** Constructing `Q` over that graph leaves `P1` and `E0` as the field
      declarations leave them. */
  method BuildUnlisted() returns (w: World)
    ensures w.g == Unlisted && |w.pools| == 2 && |w.events| == 2 && |w.quests| == 2
    ensures w.pools[P1] == PoolState(false, map[], 0, 0)
    ensures w.events[E0] == EventState("", None)
    ensures w.quests[Q] == QuestState([P0], [], [], None)
  {
    UnlistedFacts();
    w := new World(Unlisted, Q, Blank(Unlisted));
    InitKeepsUnlisted(Unlisted, Q, Blank(Unlisted), w.State());
  }

  /** `Q` lists only its empty start pool `P0`; its unlisted pool `P1` holds
      the sub-quest `E0`, whose own listed pool `P2` holds the ordinary event
      `E2`. */
  const BelowUnlisted: Graph :=
    Graph([EventInfo(["done"], [], Nested(P0, [P0], 2), None, Q),
           EventInfo(["won"], [], Nested(P2, [P2], 1), None, Q),
           EventInfo(["go"], [], Ordinary, None, E0)],
          [PoolInfo([], Q), PoolInfo([E0], Q), PoolInfo([E2], E0)])

  /** In that graph nothing below `P1` is listed-nested in `Q`. */
  lemma BelowUnlistedFacts()
    ensures Wf(BelowUnlisted) && IsQuest(BelowUnlisted, Q)
    ensures !Listed(BelowUnlisted, Q, PoolSlot(P1)) && !Listed(BelowUnlisted, Q, PoolSlot(P2))
    ensures !ListedInside(BelowUnlisted, E0, Q) && !ListedInside(BelowUnlisted, E2, Q)
  {
    assert EventWf(BelowUnlisted, Q) && EventWf(BelowUnlisted, E0) && EventWf(BelowUnlisted, E2);
    assert PoolWf(BelowUnlisted, P0) && PoolWf(BelowUnlisted, P1) && PoolWf(BelowUnlisted, P2);
    assert P1 !in PoolSet(BelowUnlisted, Q) by { assert EventPools(BelowUnlisted, Q) == [P0]; }
    assert !InListedPool(BelowUnlisted, E0) by {
      assert QuestEvents(BelowUnlisted, Q) == {Q} by { assert EventPools(BelowUnlisted, Q) == [P0]; }
    }
  }

  /** Constructing `Q` over that graph reaches neither `P1` nor anything below
      it: the sub-quest `E0`, its pool `P2` and the event `E2` keep the field
      defaults, although `P2` is listed by its own quest. */
  method BuildBelowUnlisted() returns (w: World)
    ensures w.g == BelowUnlisted && |w.pools| == 3 && |w.events| == 3 && |w.quests| == 3
    ensures w.pools[P1] == PoolState(false, map[], 0, 0) && w.pools[P2] == PoolState(false, map[], 0, 0)
    ensures w.events[E0] == EventState("", None) && w.events[E2] == EventState("", None)
    ensures w.quests[E0] == QuestState([], [], [], None)
    ensures w.quests[Q] == QuestState([P0], [], [], None)
  {
    BelowUnlistedFacts();
    w := new World(BelowUnlisted, Q, Blank(BelowUnlisted));
    InitKeepsUnlisted(BelowUnlisted, Q, Blank(BelowUnlisted), w.State());
  }
}
