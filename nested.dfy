/** A walk-through of a quest inside a quest, driven through the engine's own
    contracts: the top-level quest `R` starts at pool `R0 = {S}`, where `S` is
    a quest whose only ending, "won", leads to the empty pool `R1`; `S` starts
    at pool `S0 = {X}`, and the only ending of the ordinary event `X`, "go",
    leads to the empty pool `S1`. Asking `R` for an event asks `S`, which
    offers `X`; ending `X` finishes `S`, which `R` then resolves with its
    first label, and that finishes `R`. */
module NestedScenario {
  import opened Wrappers
  import opened QuestGraph
  import opened Lists
  import opened QuestEngine

  const R: EventId := 0
  const S: EventId := 1
  const X: EventId := 2
  const R0: PoolId := 0
  const R1: PoolId := 1
  const S0: PoolId := 2
  const S1: PoolId := 3

  /** The authored graph; `R` is a top-level quest one level above `S`. */
  const G: Graph :=
    Graph([EventInfo(["done"], [], Nested(R0, [R0, R1], 2), None, R),
           EventInfo(["won"], [R1], Nested(S0, [S0, S1], 1), None, R),
           EventInfo(["go"], [S1], Ordinary, None, S)],
          [PoolInfo([S], R), PoolInfo([], R), PoolInfo([X], S), PoolInfo([], S)])

  lemma NestedWf()
    ensures Wf(G) && IsQuest(G, R) && IsQuest(G, S) && !IsQuest(G, X)
    ensures EventPools(G, R) == [R0, R1] && EventPools(G, S) == [S0, S1]
    ensures FirstEnding(G, R) == "done" && FirstEnding(G, S) == "won"
  {
    assert EventWf(G, R) && EventWf(G, S) && EventWf(G, X);
    assert PoolWf(G, R0) && PoolWf(G, R1) && PoolWf(G, S0) && PoolWf(G, S1);
  }

  /** Construction of `R` resets `S` too: both queue their start pools, `S`
      is bound to `R` and `X` to `S`, both unfinished. */
  lemma Constructed(rt: Runtime)
    requires Wf(G) && IsQuest(G, R) && IsQuest(G, S) && EventPools(G, R) == [R0, R1] && EventPools(G, S) == [S0, S1]
    requires Shaped(G, rt) && QuestReset(G, R, Blank(G), rt)
    ensures rt.quests[R] == QuestState([R0], [], [], None) && rt.quests[S] == QuestState([S0], [], [], None)
    ensures rt.events[S] == EventState("", Some(R)) && rt.events[X] == EventState("", Some(S))
    ensures rt.pools[R0].activeEvents == 0 && rt.pools[S0].activeEvents == 0
  {
    assert PoolReset(G, R, EventPools(G, R)[0], Blank(G), rt);
    assert G.pools[R0].pool[0] == S;
    assert QuestReset(G, S, Blank(G), rt);
    assert PoolReset(G, S, EventPools(G, S)[0], Blank(G), rt);
  }

  /** `NextEvent` on `S` while it queues just `S0` and has no sub-quest: `X`
      is served, and besides `S`'s own state only `S0` changes. */
  lemma SOffersX(pre: Runtime, post: Runtime, r: Option<EventId>, tr: Trace)
    requires Wf(G) && IsQuest(G, S) && Consistent(G, pre)
    requires pre.quests[S] == QuestState([S0], [], [], None)
    requires Advanced(G, S, pre, post, r, tr)
    ensures r == Some(X)
    ensures post.quests[S] == QuestState([], [S0], [X], None)
    ensures post.pools[S0] == pre.pools[S0].(activeEvents := pre.pools[S0].activeEvents + 1)
    ensures OnlyQuest(G, S, {S0}, pre, post)
    ensures post.events[S] == pre.events[S]
  {
    assert !Skippable(G, S0);
    assert G.pools[S0].pool == [X];
    assert Dispatched(G, S, pre, post, r, tr.rejects, tr.picked, tr.served);
    assert !Skippable(G, pre.quests[S].poolsQueue[2 * 0]);
  }

  /** The scan of `R` cannot pass over `S`: it is unfinished, and asked it
      answers `X`, not nothing. */
  lemma NotRejected(a: Runtime, rjs: seq<Reject>)
    requires Wf(G) && IsQuest(G, R) && IsQuest(G, S) && Consistent(G, a)
    requires a.quests[R].poolsQueue == [R0] && a.quests[S] == QuestState([S0], [], [], None)
    requires a.events[S].ending == ""
    requires |rjs| <= 1 && Rejections(G, R, a, [R0], rjs)
    ensures rjs == []
  {
    if |rjs| == 1 {
      var rj := rjs[0];
      assert RejectOk(G, R, [R0][2 * 0], Before(a, rjs, 0), rj);
      assert G.pools[R0].pool == [S];
      assert rj.cand == S && rj.at.quests[S] == a.quests[S] && rj.at.events[S] == a.events[S];
      if rj.asked.Some? {
        assert Answered(G, S, rj.asked.value);
        SOffersX(rj.at, rj.asked.value.post, rj.asked.value.r, rj.asked.value.inner);
      }
      assert false;
    }
  }

  /** `NextEvent` on `R` right after construction: the scan draws `S`, which
      is unfinished, asks it, and `S`'s answer `X` is the answer; `S` becomes
      `R`'s current sub-quest and `X` is current in `S`. */
  lemma OfferedThroughS(a: Runtime, b: Runtime, r: Option<EventId>, tr: Trace)
    requires Wf(G) && IsQuest(G, R) && IsQuest(G, S) && Consistent(G, a)
    requires a.quests[R] == QuestState([R0], [], [], None) && a.quests[S] == QuestState([S0], [], [], None)
    requires a.events[S].ending == ""
    requires Advanced(G, R, a, b, r, tr)
    ensures r == Some(X)
    ensures b.quests[R] == QuestState([], [R0], [S], Some(S))
    ensures b.quests[S] == QuestState([], [S0], [X], None)
    ensures b.pools[R0].activeEvents == a.pools[R0].activeEvents + 1
    ensures b.pools[S0].activeEvents == a.pools[S0].activeEvents + 1
    ensures b.events[R] == a.events[R] && b.events[S] == a.events[S] && b.events[X] == a.events[X]
  {
    assert G.pools[R0].pool == [S];
    assert Dispatched(G, R, a, b, r, tr.rejects, tr.picked, tr.served);
    NotRejected(a, tr.rejects);
    assert tr.picked == S;
    var ask := tr.served.value;
    assert ask.pre.quests[S] == a.quests[S];
    SOffersX(ask.pre, ask.post, ask.r, ask.inner);
  }

  /** In the state `OfferedThroughS` leaves, `R` may be told that `X` ended
      with "go": `X` is not `R`'s own, so the update goes to `S`, where `X`
      is current, and `S` is current in `R`. */
  lemma CanHandOver(b: Runtime)
    requires Wf(G) && IsQuest(G, R) && IsQuest(G, S) && Shaped(G, b) && FirstEnding(G, S) == "won"
    requires b.quests[R] == QuestState([], [R0], [S], Some(S)) && b.quests[S] == QuestState([], [S0], [X], None)
    requires b.events[X].quest == Some(S)
    ensures CanUpdate(G, b, R, X, "go")
  {
    assert FindPool(G, [S0], X) == Some(S0);
    assert FindPool(G, [R0], S) == Some(R0);
    assert CanUpdate(G, b, S, X, "go");
  }

  /** `EventUpdate(R, X, "go")`: `S` resolves `X` and reaches its empty pool,
      so it finishes with "won"; `R` then replays `S` with that first label,
      which leads to `R`'s empty pool and finishes `R`. */
  lemma FinishingSReplaysIt(b: Runtime, c: Runtime, t: UpdateTrace)
    requires Wf(G) && IsQuest(G, R) && IsQuest(G, S) && Consistent(G, b)
    requires FirstEnding(G, R) == "done" && FirstEnding(G, S) == "won"
    requires b.quests[R] == QuestState([], [R0], [S], Some(S)) && b.quests[S] == QuestState([], [S0], [X], None)
    requires b.events[X].quest == Some(S) && b.events[S].quest == Some(R)
    requires b.pools[R0].activeEvents == 1 && b.pools[S0].activeEvents == 1
    requires CanUpdate(G, b, R, X, "go") && Updated(G, R, X, "go", b, c, t)
    ensures t.Handed? && t.inner == Own && t.replayed
    ensures c.events[X].ending == "go" && c.events[S].ending == "won" && c.events[R].ending == "done"
    ensures c.quests[S] == QuestState([S1], [], [], None)
    ensures c.quests[R] == QuestState([R1], [], [], Some(S))
    ensures c.pools[R0].activeEvents == 0 && c.pools[S0].activeEvents == 0
  {
    assert FindPool(G, [S0], X) == Some(S0);
    assert FindPool(G, [R0], S) == Some(R0);
    assert RemoveFirst([S0], S0) == [] && RemoveFirst([X], X) == [];
    assert RemoveFirst([R0], R0) == [] && RemoveFirst([S], S) == [];
    assert G.events[X].endingEventPools[FindIndex(G.events[X].endings, "go")] == S1;
    assert G.events[S].endingEventPools[FindIndex(G.events[S].endings, "won")] == R1;
    var mid := t.mid;
    assert ResolvedAlone(G, S, X, "go", b, mid);
    assert mid.events[S].ending == "won";
    assert mid.pools[R0] == b.pools[R0];
  }

  /** Asking `R` again after that: the sub-quest `S` is asked first, finds its
      empty pool and stays finished, so `R` clears it, reaches its own empty
      pool and offers nothing. */
  lemma NothingAfter(c: Runtime, d: Runtime, r: Option<EventId>, tr: Trace)
    requires Wf(G) && IsQuest(G, R) && IsQuest(G, S) && Consistent(G, c)
    requires FirstEnding(G, S) == "won"
    requires c.quests[S] == QuestState([S1], [], [], None) && c.quests[R] == QuestState([R1], [], [], Some(S))
    requires Advanced(G, R, c, d, r, tr)
    ensures r == None
  {
    var ask := tr.resume.value;
    assert !Skippable(G, S1) && !Skippable(G, R1);
    assert Answered(G, S, ask) && ask.pre == c;
    assert Advanced(G, S, ask.pre, ask.post, ask.r, ask.inner);
    assert Dispatched(G, S, ask.pre, ask.post, ask.r, ask.inner.rejects, ask.inner.picked, ask.inner.served);
    assert !Skippable(G, c.quests[S].poolsQueue[2 * 0]);
    assert IsEnding(G, S1);
  }

  /** A fresh world over `G` rooted at `R`. */
  method Build() returns (w: World)
    ensures fresh(w) && w.Valid() && w.g == G && Wf(G) && IsQuest(G, R) && IsQuest(G, S)
    ensures FirstEnding(G, R) == "done" && FirstEnding(G, S) == "won"
    ensures w.quests[R] == QuestState([R0], [], [], None) && w.quests[S] == QuestState([S0], [], [], None)
    ensures w.events[S] == EventState("", Some(R)) && w.events[X] == EventState("", Some(S))
    ensures w.pools[R0].activeEvents == 0 && w.pools[S0].activeEvents == 0
  {
    NestedWf();
    w := new World(G, R, Blank(G));
    Constructed(w.State());
  }

  /** The player asks `R` for an event right after construction: `S`'s event
      `X` is offered, through `S`. */
  method Offer(w: World) returns (r: Option<EventId>)
    requires w.Valid() && w.g == G && Wf(G) && IsQuest(G, R) && IsQuest(G, S)
    requires w.quests[R] == QuestState([R0], [], [], None) && w.quests[S] == QuestState([S0], [], [], None)
    requires w.events[S] == EventState("", Some(R)) && w.events[X].quest == Some(S)
    requires w.pools[R0].activeEvents == 0 && w.pools[S0].activeEvents == 0
    modifies w`events, w`pools, w`quests
    ensures w.Valid() && r == Some(X)
    ensures w.quests[R] == QuestState([], [R0], [S], Some(S)) && w.quests[S] == QuestState([], [S0], [X], None)
    ensures w.events[S].quest == Some(R) && w.events[X].quest == Some(S)
    ensures w.pools[R0].activeEvents == 1 && w.pools[S0].activeEvents == 1
  {
    ghost var a := w.State();
    ghost var tr;
    r, tr := w.NextEvent(R);
    OfferedThroughS(a, w.State(), r, tr);
  }

  /** The player ends `X` with "go", telling `R`: `S` and then `R` finish. */
  method Finish(w: World)
    requires w.Valid() && w.g == G && Wf(G) && IsQuest(G, R) && IsQuest(G, S)
    requires FirstEnding(G, R) == "done" && FirstEnding(G, S) == "won"
    requires w.quests[R] == QuestState([], [R0], [S], Some(S)) && w.quests[S] == QuestState([], [S0], [X], None)
    requires w.events[S].quest == Some(R) && w.events[X].quest == Some(S)
    requires w.pools[R0].activeEvents == 1 && w.pools[S0].activeEvents == 1
    modifies w`events, w`pools, w`quests
    ensures w.Valid()
    ensures w.events[X].ending == "go" && w.events[S].ending == "won" && w.events[R].ending == "done"
    ensures w.quests[S] == QuestState([S1], [], [], None) && w.quests[R] == QuestState([R1], [], [], Some(S))
  {
    ghost var b := w.State();
    CanHandOver(b);
    ghost var t := w.EventUpdate(R, X, "go");
    FinishingSReplaysIt(b, w.State(), t);
  }

  /** The player asks `R` again once both are finished: nothing is offered. */
  method Again(w: World) returns (r: Option<EventId>)
    requires w.Valid() && w.g == G && Wf(G) && IsQuest(G, R) && IsQuest(G, S) && FirstEnding(G, S) == "won"
    requires w.quests[S] == QuestState([S1], [], [], None) && w.quests[R] == QuestState([R1], [], [], Some(S))
    modifies w`events, w`pools, w`quests
    ensures r == None
  {
    ghost var c := w.State();
    ghost var tr;
    r, tr := w.NextEvent(R);
    NothingAfter(c, w.State(), r, tr);
  }

  /** The whole walk-through: `R` offers `S`'s event `X`; ending it with "go"
      finishes `S` and, by the replay, `R`; after that `R` offers nothing. */
  method ThroughSubQuest() returns (offered: Option<EventId>, subFinished: bool, finished: bool, next: Option<EventId>)
    ensures offered == Some(X) && subFinished && finished && next == None
  {
    var w := Build();
    offered := Offer(w);
    Finish(w);
    subFinished := w.IsFinished(S);
    finished := w.IsFinished(R);
    next := Again(w);
  }
}
