/** The integer logic of `QG_QuestUIHandler.DrawQuest`: which layer of the
    sub-quest chain is drawn, the breadth-first "waves" of the drawn quest's
    pool graph (written into each pool's `wave`), the distance of the active
    node, which pools are drawn near or far, and which connections get a line
    and which a star. Positions, colours and every Unity object are not part
    of it: a drawn node, line or star is reported as a value. */
module QuestLayout {
  import opened Wrappers
  import opened QuestGraph
  import opened QuestEngine

  // ------------------------------------------------------------ layer walk

  /** The quest `cur`, its current sub-quest, that one's, and so on down to
      the innermost quest, which has none: the quests the loop of lines
      161-176 visits. The chain is finite because every current sub-quest is
      nested strictly deeper. */
  ghost function Layers(g: Graph, rt: Runtime, cur: Option<EventId>): (c: seq<EventId>)
    requires Wf(g) && Consistent(g, rt) && (cur.Some? ==> IsQuest(g, cur.value))
    decreases if cur.Some? then Level(g, cur.value) + 1 else 0
    ensures cur.None? <==> c == []
    ensures cur.Some? ==> c[0] == cur.value
  {
    match cur
    case None => []
    case Some(q) =>
      assert QuestStateOk(g, q, rt.quests[q]);
      var next := rt.quests[q].currentSubQuest;
      if next.Some? then assert EventWf(g, next.value); [q] + Layers(g, rt, next)
      else [q]
  }

  /** Every layer is a quest, each is the current sub-quest of the one
      before, the last has none, and the levels strictly decrease. */
  lemma {:induction false} LayersShape(g: Graph, rt: Runtime, cur: Option<EventId>)
    requires Wf(g) && Consistent(g, rt) && (cur.Some? ==> IsQuest(g, cur.value))
    decreases if cur.Some? then Level(g, cur.value) + 1 else 0
    ensures var c := Layers(g, rt, cur);
      && (forall i :: 0 <= i < |c| ==> IsQuest(g, c[i]) && c[i] < |rt.quests|)
      && (forall i :: 0 <= i < |c| - 1 ==> rt.quests[c[i]].currentSubQuest == Some(c[i + 1]))
      && (c != [] ==> rt.quests[c[|c| - 1]].currentSubQuest == None)
      && (forall i :: 0 <= i < |c| - 1 ==> Level(g, c[i + 1]) < Level(g, c[i]))
  {
    if cur.Some? {
      var q := cur.value;
      assert QuestStateOk(g, q, rt.quests[q]);
      var next := rt.quests[q].currentSubQuest;
      if next.Some? {
        assert EventWf(g, next.value);
        LayersShape(g, rt, next);
        var c := Layers(g, rt, cur);
        assert c == [q] + Layers(g, rt, next);
        assert forall i :: 0 < i < |c| ==> c[i] == Layers(g, rt, next)[i - 1];
      }
    }
  }

  /** One step down the chain: the quest at position `k` is `cur`, the rest of
      the chain starts at its current sub-quest, and it is the innermost
      exactly when it has none. */
  lemma LayersStep(g: Graph, rt: Runtime, cur: Option<EventId>, chain: seq<EventId>, k: nat)
    requires Wf(g) && Consistent(g, rt) && cur.Some? && IsQuest(g, cur.value)
    requires k <= |chain| && Layers(g, rt, cur) == chain[k..]
    ensures k < |chain| && chain[k] == cur.value && cur.value < |rt.quests|
    ensures rt.quests[cur.value].currentSubQuest.Some? ==> IsQuest(g, rt.quests[cur.value].currentSubQuest.value)
    ensures Layers(g, rt, rt.quests[cur.value].currentSubQuest) == chain[k + 1..]
    ensures rt.quests[cur.value].currentSubQuest.None? <==> k == |chain| - 1
  {
    var q := cur.value;
    assert QuestStateOk(g, q, rt.quests[q]);
    var next := rt.quests[q].currentSubQuest;
    if next.Some? {
      assert EventWf(g, next.value);
    }
    assert chain[k + 1..] == chain[k..][1..];
  }

  /** The position in the chain `c` that lines 165-171 select for the
      requested `depth`: the innermost quest for -1, the quest `depth` links
      down when the chain is that long, and -1 (nothing selected) otherwise. */
  function LayerDepth(c: seq<EventId>, depth: int): (d: int)
    ensures -1 <= d < |c|
  {
    if depth == -1 then |c| - 1 else if 0 <= depth < |c| then depth else -1
  }

  /** What `DrawQuest` reports. */
  datatype Shade = Nearby | Bordering | Faraway | Hidden
  datatype Mark = Mark(to: PoolId, used: bool)
  /** The lines and the stars drawn from one pool. */
  datatype Marks = Marks(lines: seq<Mark>, stars: seq<Mark>)
  /** The layer-change effect of lines 318-345: none when the drawn quest
      did not change, otherwise a fade, preceded by the switch animation
      into a sub-quest or out of it when the drawn depth changed too. */
  datatype Transition = Stay | FadeIn | IntoSubQuest | OutOfSubQuest
  /** What is drawn of one quest: the active node's distance, whether the
      entry line to the start pool is drawn, a shade per pool of
      `eventPools`, and the marks drawn from each of those pools. */
  datatype Scene = Scene(activeNodeDist: int, entryLine: bool, shades: seq<Shade>, marks: seq<Marks>)
  /** One layer button per quest of the chain (true for the drawn one), the
      drawn depth, the drawn quest's scene, and the transition. */
  datatype Drawing = Drawing(buttons: seq<bool>, depth: int, scene: Scene, transition: Transition)
  /** The ways `DrawQuest` throws: nothing to draw (`questToDraw` is null), a
      pool of `eventPools` that the search never placed (the `nodePosRegistry`
      lookup), or a connection missing from a pool's `connUsed`. */
  datatype DrawError = NoQuestToDraw | Unplaced(pool: PoolId) | UnknownConnection(from: PoolId, to: PoolId)

  // ------------------------------------------------------- wave search

  /** The pool graph as an adjacency table: entry `p` holds the pools that
      the endings of the events of pool `p` lead to. */
  ghost function Adjacency(g: Graph): (adj: seq<set<PoolId>>)
    requires Wf(g)
    ensures |adj| == |g.pools| && forall p :: 0 <= p < |g.pools| ==> adj[p] == Targets(g, p)
  {
    seq(|g.pools|, p requires 0 <= p < |g.pools| => Targets(g, p))
  }

  /** No edge leaves the table. */
  ghost predicate Closed(adj: seq<set<PoolId>>) {
    forall p :: 0 <= p < |adj| ==> adj[p] <= Below(|adj|)
  }

  lemma AdjacencyClosed(g: Graph)
    requires Wf(g)
    ensures Closed(Adjacency(g))
  {
    forall p | 0 <= p < |g.pools|
      ensures Adjacency(g)[p] <= Below(|g.pools|)
    {
      TargetsInQuest(g, p);
    }
  }

  ghost function Below(n: nat): (r: set<nat>)
    ensures forall p: int :: p in r <==> 0 <= p < n
  {
    if n == 0 then {} else Below(n - 1) + {n - 1}
  }

  /** The pools the pools in `s` lead to. */
  ghost function Succ(adj: seq<set<PoolId>>, s: set<PoolId>): set<PoolId> {
    set p, d | p in s && p < |adj| && d in adj[p] :: d
  }

  /** The pools at most `k` steps away from `start`. */
  ghost function Within(adj: seq<set<PoolId>>, start: PoolId, k: nat): set<PoolId> {
    if k == 0 then {start} else Within(adj, start, k - 1) + Succ(adj, Within(adj, start, k - 1))
  }

  /** The sets `wave` and `wavesBehind` of the search when `waveCount` is `k`. */
  datatype Search = Search(wave: set<PoolId>, behind: set<PoolId>)

  /** The search of lines 186-234: wave 0 is the start pool, wave `k + 1` is
      every pool wave `k` leads to that is neither in wave `k` nor behind it. */
  ghost function Bfs(adj: seq<set<PoolId>>, start: PoolId, k: nat): Search {
    if k == 0 then Search({start}, {})
    else
      var s := Bfs(adj, start, k - 1);
      Search(Succ(adj, s.wave) - s.behind - s.wave, s.behind + s.wave)
  }

  /** The `wave` each pool is given: the index of the wave it appeared in,
      for every pool behind wave `k`. */
  ghost function WaveMap(adj: seq<set<PoolId>>, start: PoolId, k: nat): (m: map<PoolId, nat>)
    ensures m.Keys == Bfs(adj, start, k).behind
  {
    if k == 0 then map[]
    else
      var s := Bfs(adj, start, k - 1);
      assert Bfs(adj, start, k).behind == s.behind + s.wave;
      WaveMap(adj, start, k - 1) + Constant(s.wave, k - 1)
  }

  /** A pool placed before wave `k` carries the index of the wave it was found in. */
  lemma {:induction false} WaveMapValue(adj: seq<set<PoolId>>, start: PoolId, k: nat, p: PoolId)
    requires p in WaveMap(adj, start, k)
    ensures WaveMap(adj, start, k)[p] < k && p in Bfs(adj, start, WaveMap(adj, start, k)[p]).wave
  {
    var last := Bfs(adj, start, k - 1).wave;
    assert WaveMap(adj, start, k) == WaveMap(adj, start, k - 1) + Constant(last, k - 1);
    if p !in last {
      WaveMapValue(adj, start, k - 1, p);
    }
  }

  /** The map sending every element of `s` to `v`. */
  ghost function Constant(s: set<PoolId>, v: nat): (m: map<PoolId, nat>)
    ensures m.Keys == s && forall p :: p in m ==> m[p] == v
  {
    map p | p in s :: v
  }

  /** The pool table with the `wave` of every pool in `m` set to `m`'s value. */
  ghost function WithWaves(ps: seq<PoolState>, m: map<PoolId, nat>): (r: seq<PoolState>)
    ensures |r| == |ps|
    ensures forall p :: 0 <= p < |ps| ==> r[p] == if p in m then ps[p].(wave := m[p]) else ps[p]
  {
    seq(|ps|, p requires 0 <= p < |ps| => if p in m then ps[p].(wave := m[p]) else ps[p])
  }

  ghost predicate Active(ps: seq<PoolState>, p: PoolId) {
    p < |ps| && ps[p].activeEvents > 0
  }

  /** The last of the first `n` waves that holds an active pool, or -1. */
  ghost function ActiveWave(adj: seq<set<PoolId>>, ps: seq<PoolState>, start: PoolId, n: nat): (d: int)
    ensures -1 <= d < n
    ensures d >= 0 ==> exists p :: p in Bfs(adj, start, d).wave && Active(ps, p)
    ensures forall k, p :: d < k < n && p in Bfs(adj, start, k).wave ==> !Active(ps, p)
  {
    if n == 0 then -1
    else if AnyActive(ps, Bfs(adj, start, n - 1).wave) then n - 1
    else ActiveWave(adj, ps, start, n - 1)
  }

  lemma SuccUnion(adj: seq<set<PoolId>>, a: set<PoolId>, b: set<PoolId>)
    ensures Succ(adj, a + b) == Succ(adj, a) + Succ(adj, b)
  {
  }

  lemma SuccInRange(adj: seq<set<PoolId>>, s: set<PoolId>)
    requires Closed(adj)
    ensures Succ(adj, s) <= Below(|adj|)
  {
    forall d | d in Succ(adj, s)
      ensures d in Below(|adj|)
    {
      var p :| p in s && p < |adj| && d in adj[p];
    }
  }

  /** Pools within `j` steps are within any `k >= j` steps. */
  lemma {:induction false} WithinGrows(adj: seq<set<PoolId>>, start: PoolId, j: nat, k: nat)
    requires j <= k
    ensures Within(adj, start, j) <= Within(adj, start, k)
    decreases k - j
  {
    if j < k {
      WithinGrows(adj, start, j, k - 1);
    }
  }

  /** A larger set leads to at least as much. */
  lemma SuccMono(adj: seq<set<PoolId>>, a: set<PoolId>, b: set<PoolId>)
    requires a <= b
    ensures Succ(adj, a) <= Succ(adj, b)
  {
    forall d | d in Succ(adj, a)
      ensures d in Succ(adj, b)
    {
      var p :| p in a && p < |adj| && d in adj[p];
      assert p in b;
    }
  }

  /** The search is a breadth-first search: what is behind wave `k` together
      with wave `k` is everything within `k` steps, and what is behind it is
      everything within `k - 1` steps. */
  lemma {:induction false} BfsWithin(adj: seq<set<PoolId>>, start: PoolId, k: nat)
    ensures Bfs(adj, start, k).behind + Bfs(adj, start, k).wave == Within(adj, start, k)
    ensures k == 0 ==> Bfs(adj, start, k).behind == {}
    ensures k > 0 ==> Bfs(adj, start, k).behind == Within(adj, start, k - 1)
  {
    if k > 0 {
      BfsWithin(adj, start, k - 1);
      BfsStep(adj, start, k);
    }
  }

  /** One round of `BfsWithin`, from what holds of round `k - 1`. */
  lemma BfsStep(adj: seq<set<PoolId>>, start: PoolId, k: nat)
    requires k > 0
    requires Bfs(adj, start, k - 1).behind + Bfs(adj, start, k - 1).wave == Within(adj, start, k - 1)
    requires k == 1 ==> Bfs(adj, start, k - 1).behind == {}
    requires k > 1 ==> Bfs(adj, start, k - 1).behind == Within(adj, start, k - 2)
    ensures Bfs(adj, start, k).behind + Bfs(adj, start, k).wave == Within(adj, start, k)
    ensures Bfs(adj, start, k).behind == Within(adj, start, k - 1)
  {
    var s := Bfs(adj, start, k - 1);
    var w := Within(adj, start, k - 1);
    SuccUnion(adj, s.behind, s.wave);
    if k > 1 {
      var w2 := Within(adj, start, k - 2);
      assert w == w2 + Succ(adj, w2);
      Absorb(w2, Succ(adj, w2));
    } else {
      SuccEmpty(adj);
    }
    NewWave(w, s.behind, s.wave, Succ(adj, s.behind), Succ(adj, s.wave));
    var t := Bfs(adj, start, k);
    assert t.behind == s.behind + s.wave && t.wave == Succ(adj, s.wave) - s.behind - s.wave;
    assert Within(adj, start, k) == w + Succ(adj, w);
  }

  lemma Absorb(a: set<PoolId>, b: set<PoolId>)
    ensures b <= a + b
  {
  }

  lemma SuccEmpty(adj: seq<set<PoolId>>)
    ensures Succ(adj, {}) == {}
  {
  }

  /** The set algebra of one round: what is behind (`b`) and the wave (`x`)
      make up `w`; adding what the wave leads to, less `w`, adds what all of
      `w` leads to when what `b` leads to is already in `w`. */
  lemma NewWave(w: set<PoolId>, b: set<PoolId>, x: set<PoolId>, sb: set<PoolId>, sx: set<PoolId>)
    requires b + x == w && sb <= w
    ensures (b + x) + (sx - b - x) == w + (sb + sx)
  {
  }

  /** Besides, a wave never meets what is behind it, and no pool outside the
      table is ever reached. */
  lemma {:induction false} BfsShape(adj: seq<set<PoolId>>, start: PoolId, k: nat)
    requires Closed(adj) && start < |adj|
    ensures Bfs(adj, start, k).behind + Bfs(adj, start, k).wave == Within(adj, start, k)
    ensures k == 0 ==> Bfs(adj, start, k).behind == {}
    ensures k > 0 ==> Bfs(adj, start, k).behind == Within(adj, start, k - 1)
    ensures Bfs(adj, start, k).behind * Bfs(adj, start, k).wave == {}
    ensures Bfs(adj, start, k).wave <= Below(|adj|) && Bfs(adj, start, k).behind <= Below(|adj|)
  {
    if k > 0 {
      BfsShape(adj, start, k - 1);
      ShapeStep(adj, start, k);
    }
    BfsWithin(adj, start, k);
  }

  /** One round of `BfsShape`: the new wave leaves out what is now behind
      it, and both stay inside the table when the previous round did. */
  lemma ShapeStep(adj: seq<set<PoolId>>, start: PoolId, k: nat)
    requires Closed(adj) && k > 0
    requires Bfs(adj, start, k - 1).wave <= Below(|adj|) && Bfs(adj, start, k - 1).behind <= Below(|adj|)
    ensures Bfs(adj, start, k).behind * Bfs(adj, start, k).wave == {}
    ensures Bfs(adj, start, k).wave <= Below(|adj|) && Bfs(adj, start, k).behind <= Below(|adj|)
  {
    var s := Bfs(adj, start, k - 1);
    SuccInRange(adj, s.wave);
    var t := Bfs(adj, start, k);
    assert t.behind == s.behind + s.wave && t.wave == Succ(adj, s.wave) - s.behind - s.wave;
  }

  /** A pool is in wave `k` exactly when it is `k` steps away from the start
      pool and no fewer: its `wave` is its distance. */
  lemma WaveIsDistance(adj: seq<set<PoolId>>, start: PoolId, k: nat, p: PoolId)
    requires Closed(adj) && start < |adj|
    ensures p in Bfs(adj, start, k).wave <==> p in Within(adj, start, k) && (k == 0 || p !in Within(adj, start, k - 1))
  {
    BfsShape(adj, start, k);
  }

  /** Once the search has run, the start pool carries wave 0: it is wave 0,
      and a pool sits in one wave only. */
  lemma StartAtZero(adj: seq<set<PoolId>>, start: PoolId, n: nat)
    requires Closed(adj) && start < |adj| && n > 0
    ensures start in WaveMap(adj, start, n) && WaveMap(adj, start, n)[start] == 0
  {
    BfsWithin(adj, start, n);
    WithinGrows(adj, start, 0, n - 1);
    WaveMapValue(adj, start, n, start);
    var v := WaveMap(adj, start, n)[start];
    WaveIsDistance(adj, start, v, start);
    StartEverywhere(adj, start);
  }

  /** The start pool is within any number of steps of itself. */
  lemma StartEverywhere(adj: seq<set<PoolId>>, start: PoolId)
    ensures forall k: nat :: start in Within(adj, start, k)
  {
    forall k: nat
      ensures start in Within(adj, start, k)
    {
      WithinGrows(adj, start, 0, k);
    }
  }

  /** Distinct waves never share a pool. */
  lemma WavesDisjoint(adj: seq<set<PoolId>>, start: PoolId, j: nat, k: nat)
    requires j < k
    ensures Bfs(adj, start, j).wave * Bfs(adj, start, k).wave == {}
  {
    WaveBehind(adj, start, j, k);
    var s, b := Bfs(adj, start, k - 1), Bfs(adj, start, k);
    assert b.behind == s.behind + s.wave && b.wave == Succ(adj, s.wave) - s.behind - s.wave;
    LeavesOut(Bfs(adj, start, j).wave, s.behind, s.wave, Succ(adj, s.wave));
  }

  /** Every wave is behind every later round of the search. */
  lemma {:induction false} WaveBehind(adj: seq<set<PoolId>>, start: PoolId, j: nat, k: nat)
    requires j < k
    ensures Bfs(adj, start, j).wave <= Bfs(adj, start, k).behind
  {
    var s := Bfs(adj, start, k - 1);
    assert Bfs(adj, start, k).behind == s.behind + s.wave;
    if j < k - 1 {
      WaveBehind(adj, start, j, k - 1);
      SubsetUnion(Bfs(adj, start, j).wave, s.behind, s.wave);
    }
  }

  lemma SubsetUnion(x: set<PoolId>, b: set<PoolId>, w: set<PoolId>)
    requires x <= b
    ensures x <= b + w
  {
  }

  /** What lies inside `b + w` is not in a set from which `b` and `w` were taken away. */
  lemma LeavesOut(x: set<PoolId>, b: set<PoolId>, w: set<PoolId>, y: set<PoolId>)
    requires x <= b + w
    ensures x * (y - b - w) == {}
  {
  }

  /** Every pool of wave `k + 1` is where an ending of an event of a pool of
      wave `k` leads. */
  lemma WaveFromPrevious(g: Graph, start: PoolId, k: nat, d: PoolId)
    requires Wf(g) && d in Bfs(Adjacency(g), start, k + 1).wave
    ensures exists p, i, j :: p in Bfs(Adjacency(g), start, k).wave && p < |g.pools| && 0 <= i < |g.pools[p].pool| &&
              g.pools[p].pool[i] < |g.events| && 0 <= j < |g.events[g.pools[p].pool[i]].endingEventPools| &&
              g.events[g.pools[p].pool[i]].endingEventPools[j] == d
  {
    var adj := Adjacency(g);
    var p :| p in Bfs(adj, start, k).wave && p < |adj| && d in adj[p];
    assert PoolWf(g, p);
    EdgesOfMember(g, g.pools[p].pool, d);
  }

  /** Nothing of `x` outside `a` and `b` means `x` lies within them. */
  lemma DiffEmpty(x: set<PoolId>, a: set<PoolId>, b: set<PoolId>)
    requires x - a - b == {}
    ensures x <= a + b
  {
    forall d | d in x
      ensures d in a + b
    {
      assert d !in x - a - b;
    }
  }

  /** Once a wave is empty, nothing behind it leads anywhere else. */
  lemma SearchClosed(adj: seq<set<PoolId>>, start: PoolId, n: nat)
    requires Bfs(adj, start, n).wave == {}
    ensures Succ(adj, Bfs(adj, start, n).behind) <= Bfs(adj, start, n).behind
  {
    if n > 0 {
      var s := Bfs(adj, start, n - 1);
      var b := Bfs(adj, start, n).behind;
      BfsWithin(adj, start, n - 1);
      assert b == s.behind + s.wave;
      DiffEmpty(Succ(adj, s.wave), s.behind, s.wave);
      SuccUnion(adj, s.behind, s.wave);
      if n == 1 {
        assert Succ(adj, s.behind) == {};
      } else {
        assert Succ(adj, s.behind) <= Within(adj, start, n - 1);
      }
    }
  }

  /** Once a wave is empty, everything reachable is behind it: the search
      has placed every pool that can be reached. */
  lemma {:induction false} SearchComplete(adj: seq<set<PoolId>>, start: PoolId, n: nat, m: nat)
    requires Bfs(adj, start, n).wave == {}
    ensures Within(adj, start, m) <= Bfs(adj, start, n).behind
  {
    if m < n {
      BehindHolds(adj, start, n, m);
    } else {
      SearchClosed(adj, start, n);
      SearchComplete(adj, start, n, m - 1);
      CompleteStep(adj, start, m, Bfs(adj, start, n).behind);
    }
  }

  /** Pools fewer than `n` steps away are behind wave `n`. */
  lemma {:induction false} BehindHolds(adj: seq<set<PoolId>>, start: PoolId, n: nat, m: nat)
    requires m < n
    ensures Within(adj, start, m) <= Bfs(adj, start, n).behind
  {
    BehindIs(adj, start, n);
    WithinInside(adj, start, n, m, Bfs(adj, start, n).behind);
  }

  /** Pools fewer than `n` steps away lie in whatever set `b` is the pools
      `n - 1` steps away. */
  lemma {:induction false} WithinInside(adj: seq<set<PoolId>>, start: PoolId, n: nat, m: nat, b: set<PoolId>)
    requires m < n && b == Within(adj, start, n - 1)
    ensures Within(adj, start, m) <= b
  {
    WithinGrows(adj, start, m, n - 1);
  }

  /** What is behind wave `n > 0` is everything within `n - 1` steps. */
  lemma {:induction false} BehindIs(adj: seq<set<PoolId>>, start: PoolId, n: nat)
    requires n > 0
    ensures Bfs(adj, start, n).behind == Within(adj, start, n - 1)
  {
    BfsWithin(adj, start, n);
  }

  /** Pools within `m - 1` steps inside a set closed under `Succ`: so are
      the pools within `m` steps. */
  lemma CompleteStep(adj: seq<set<PoolId>>, start: PoolId, m: nat, b: set<PoolId>)
    requires m > 0 && Within(adj, start, m - 1) <= b && Succ(adj, b) <= b
    ensures Within(adj, start, m) <= b
  {
    var w := Within(adj, start, m - 1);
    SuccMono(adj, w, b);
    assert Within(adj, start, m) == w + Succ(adj, w);
  }

  /** Once the search is over, every pool the start pool reaches has been
      given a `wave`. */
  lemma WaveMapReaches(adj: seq<set<PoolId>>, start: PoolId, n: nat)
    requires Closed(adj) && start < |adj| && Bfs(adj, start, n).wave == {}
    ensures forall m: nat, p :: p in Within(adj, start, m) ==> p in WaveMap(adj, start, n)
  {
    forall m: nat
      ensures Within(adj, start, m) <= Bfs(adj, start, n).behind
    {
      SearchComplete(adj, start, n, m);
    }
  }

  /** A non-empty wave leaves fewer pools that are not yet behind. */
  lemma RoundShrinks(adj: seq<set<PoolId>>, start: PoolId, k: nat)
    requires Closed(adj) && start < |adj| && Bfs(adj, start, k).wave != {}
    ensures Below(|adj|) - Bfs(adj, start, k + 1).behind < Below(|adj|) - Bfs(adj, start, k).behind
  {
    BfsShape(adj, start, k);
    var s := Bfs(adj, start, k);
    assert Bfs(adj, start, k + 1).behind == s.behind + s.wave;
    var x :| x in s.wave;
    assert x in Below(|adj|) - s.behind;
  }

  /** A pool's set of destinations grows by the destinations of each pool added. */
  lemma SuccStep(adj: seq<set<PoolId>>, s: set<PoolId>, p: PoolId)
    requires p < |adj|
    ensures Succ(adj, s + {p}) == Succ(adj, s) + adj[p]
  {
    SuccUnion(adj, s, {p});
    forall d | d in adj[p]
      ensures d in Succ(adj, {p})
    {
      assert p in {p};
    }
  }

  /** Setting the `wave`s of one more set of pools. */
  lemma WithWavesUnion(ps: seq<PoolState>, m1: map<PoolId, nat>, m2: map<PoolId, nat>)
    ensures WithWaves(WithWaves(ps, m1), m2) == WithWaves(ps, m1 + m2)
  {
  }

  /** Setting the `wave` of one more pool. */
  lemma WithWavesStep(ps: seq<PoolState>, s: set<PoolId>, v: nat, p: PoolId)
    requires p < |ps|
    ensures WithWaves(ps, Constant(s, v))[p := WithWaves(ps, Constant(s, v))[p].(wave := v)] ==
            WithWaves(ps, Constant(s + {p}, v))
  {
  }

  /** Some pool of `s` is active. */
  ghost predicate AnyActive(ps: seq<PoolState>, s: set<PoolId>) {
    exists p :: p in s && Active(ps, p)
  }

  lemma AnyActiveStep(ps: seq<PoolState>, s: set<PoolId>, p: PoolId)
    ensures AnyActive(ps, s + {p}) == (AnyActive(ps, s) || Active(ps, p))
  {
  }

  /** One round of the search, from wave `k` to wave `k + 1`: the pool table,
      the next wave and `activeNodeDist` after a round are the ones wave
      `k + 1` prescribes (`ps` and `d0` are the pool table and the distance
      before the round, `d` the distance after it), and fewer pools are left
      that are not behind. */
  lemma WaveRound(adj: seq<set<PoolId>>, P: seq<PoolState>, start: PoolId, k: nat, k1: nat,
                  wave: set<PoolId>, behind: set<PoolId>, ps: seq<PoolState>, newWave: set<PoolId>, d0: int, d: int)
    requires Closed(adj) && start < |adj| && k1 == k + 1
    requires Bfs(adj, start, k) == Search(wave, behind) && wave != {}
    requires ps == WithWaves(P, WaveMap(adj, start, k)) && d0 == ActiveWave(adj, P, start, k)
    requires newWave == Succ(adj, wave) - behind - wave
    requires d == if AnyActive(ps, wave) then k else d0
    ensures Bfs(adj, start, k1) == Search(newWave, behind + wave)
    ensures WithWaves(ps, Constant(wave, k)) == WithWaves(P, WaveMap(adj, start, k1))
    ensures d == ActiveWave(adj, P, start, k1)
    ensures Below(|adj|) - (behind + wave) < Below(|adj|) - behind
  {
    RoundShrinks(adj, start, k);
    AnyActiveWithWaves(P, WaveMap(adj, start, k), wave);
    WithWavesUnion(P, WaveMap(adj, start, k), Constant(wave, k));
    assert WaveMap(adj, start, k1) == WaveMap(adj, start, k) + Constant(wave, k);
  }

  /** Writing `wave`s never changes whether a pool is active. */
  lemma AnyActiveWithWaves(ps: seq<PoolState>, m: map<PoolId, nat>, s: set<PoolId>)
    ensures AnyActive(WithWaves(ps, m), s) == AnyActive(ps, s)
  {
    if AnyActive(ps, s) {
      var p :| p in s && Active(ps, p);
      ActiveWithWaves(ps, m, p);
    }
    if AnyActive(WithWaves(ps, m), s) {
      var p :| p in s && Active(WithWaves(ps, m), p);
      ActiveWithWaves(ps, m, p);
    }
  }


  lemma ActiveWithWaves(ps: seq<PoolState>, m: map<PoolId, nat>, p: PoolId)
    ensures Active(WithWaves(ps, m), p) == Active(ps, p)
  {
  }

  // ---------------------------------------------------------- node shading

  /** Lines 254-266 for one pool at distance `dist - wave` from the active
      node, with `coin` the outcome of the random test and `drawn` the
      faraway pools drawn at random so far. */
  function Classify(dist: int, wave: int, coin: bool, drawn: nat): Shade {
    if 0 <= dist - wave <= 2 then Nearby
    else if dist - wave == -1 then Bordering
    else if coin && drawn < 3 then Faraway
    else Hidden
  }

  function CountFar(s: seq<Shade>): nat {
    if s == [] then 0 else (if s[0] == Faraway then 1 else 0) + CountFar(s[1..])
  }

  /** The shades of pools with the given `wave`s, in order, starting with
      `drawn` faraway pools already drawn; never more than three are drawn at
      random altogether. */
  function Shades(dist: int, waves: seq<int>, coins: seq<bool>, drawn: nat): (s: seq<Shade>)
    requires |coins| == |waves|
    ensures |s| == |waves|
    ensures drawn + CountFar(s) <= if drawn < 3 then 3 else drawn
  {
    if waves == [] then []
    else
      var s0 := Classify(dist, waves[0], coins[0], drawn);
      [s0] + Shades(dist, waves[1..], coins[1..], drawn + if s0 == Faraway then 1 else 0)
  }

  /** The `wave` fields of the pools `ps`. */
  function Waves(pools: seq<PoolState>, ps: seq<PoolId>): (w: seq<int>)
    requires forall i :: 0 <= i < |ps| ==> ps[i] < |pools|
    ensures |w| == |ps| && forall i :: 0 <= i < |ps| ==> w[i] == pools[ps[i]].wave
  {
    seq(|ps|, i requires 0 <= i < |ps| => pools[ps[i]].wave)
  }

  /** A pool is nearby iff it is 0 to 2 waves behind the active node,
      bordering iff it is one wave ahead, and otherwise drawn far away only
      when its coin came up, or hidden. */
  lemma ShadesMeaning(dist: int, waves: seq<int>, coins: seq<bool>)
    requires |coins| == |waves|
    ensures forall i :: 0 <= i < |waves| ==> (Shades(dist, waves, coins, 0)[i] == Nearby <==> 0 <= dist - waves[i] <= 2)
    ensures forall i :: 0 <= i < |waves| ==> (Shades(dist, waves, coins, 0)[i] == Bordering <==> dist - waves[i] == -1)
    ensures forall i :: 0 <= i < |waves| && Shades(dist, waves, coins, 0)[i] == Faraway ==>
              coins[i] && !(-1 <= dist - waves[i] <= 2)
    ensures forall i :: 0 <= i < |waves| && Shades(dist, waves, coins, 0)[i] == Hidden ==> !(-1 <= dist - waves[i] <= 2)
  {
    forall i | 0 <= i < |waves|
      ensures Shades(dist, waves, coins, 0)[i] == Classify(dist, waves[i], coins[i], CountFar(Shades(dist, waves, coins, 0)[..i]))
    {
      ShadesAt(dist, waves, coins, 0, i);
    }
  }

  /** A pool whose coin came up is drawn at random unless three have been. */
  lemma FarawayCapped(dist: int, waves: seq<int>, coins: seq<bool>)
    requires |coins| == |waves|
    ensures CountFar(Shades(dist, waves, coins, 0)) <= 3
    ensures forall i ::
              (0 <= i < |waves| && coins[i] && !(-1 <= dist - waves[i] <= 2) && CountFar(Shades(dist, waves, coins, 0)[..i]) < 3)
              ==> Shades(dist, waves, coins, 0)[i] == Faraway
  {
    forall i | 0 <= i < |waves| && coins[i] && !(-1 <= dist - waves[i] <= 2) &&
               CountFar(Shades(dist, waves, coins, 0)[..i]) < 3
      ensures Shades(dist, waves, coins, 0)[i] == Faraway
    {
      ShadesAt(dist, waves, coins, 0, i);
    }
  }

  lemma {:induction false} CountFarSnoc(s: seq<Shade>, x: Shade)
    ensures CountFar(s + [x]) == CountFar(s) + if x == Faraway then 1 else 0
  {
    if s != [] {
      assert (s + [x])[1..] == s[1..] + [x];
      CountFarSnoc(s[1..], x);
    }
  }

  /** Pool `i` is classified with the number of faraway pools before it. */
  lemma {:induction false} ShadesAt(dist: int, waves: seq<int>, coins: seq<bool>, drawn: nat, i: nat)
    requires |coins| == |waves| && i < |waves|
    ensures Shades(dist, waves, coins, drawn)[i] ==
              Classify(dist, waves[i], coins[i], drawn + CountFar(Shades(dist, waves, coins, drawn)[..i]))
  {
    var s := Shades(dist, waves, coins, drawn);
    if i > 0 {
      var s0 := Classify(dist, waves[0], coins[0], drawn);
      var d1 := drawn + if s0 == Faraway then 1 else 0;
      ShadesAt(dist, waves[1..], coins[1..], d1, i - 1);
      assert s[..i] == [s0] + Shades(dist, waves[1..], coins[1..], d1)[..i - 1];
    }
  }

  // ------------------------------------------------------- lines and stars

  /** The distinct elements of `s` by first occurrence: the `outPools` list. */
  function Firsts(s: seq<PoolId>): seq<PoolId> {
    if s == [] then []
    else
      var f := Firsts(s[..|s| - 1]);
      if s[|s| - 1] in f then f else f + [s[|s| - 1]]
  }

  /** The elements of `s` in the order of their second occurrence: the
      `starred` list. */
  function Seconds(s: seq<PoolId>): seq<PoolId> {
    if s == [] then []
    else
      var init := s[..|s| - 1];
      var x := s[|s| - 1];
      var st := Seconds(init);
      if x !in Firsts(init) || x in st then st else st + [x]
  }

  /** Each destination gets one line, and no line is drawn twice. */
  lemma {:induction false} FirstsSpec(s: seq<PoolId>)
    ensures forall x :: x in Firsts(s) <==> x in s
    ensures forall i, j :: 0 <= i < j < |Firsts(s)| ==> Firsts(s)[i] != Firsts(s)[j]
  {
    if s != [] {
      FirstsSpec(s[..|s| - 1]);
      assert s == s[..|s| - 1] + [s[|s| - 1]];
    }
  }

  /** A destination gets a star iff at least two edges lead to it, and never
      more than one. */
  lemma {:induction false} SecondsSpec(s: seq<PoolId>)
    ensures forall x :: x in Seconds(s) <==> multiset(s)[x] >= 2
    ensures forall x :: x in Seconds(s) ==> x in s
    ensures forall i, j :: 0 <= i < j < |Seconds(s)| ==> Seconds(s)[i] != Seconds(s)[j]
  {
    if s != [] {
      var init := s[..|s| - 1];
      var x := s[|s| - 1];
      SecondsSpec(init);
      FirstsSpec(init);
      assert s == init + [x];
      assert multiset(s) == multiset(init) + multiset{x};
    }
  }

  /** Each position marked with its destination's `connUsed` entry. */
  function Tag(ds: seq<PoolId>, cu: map<PoolId, bool>): (r: seq<Mark>)
    requires forall i :: 0 <= i < |ds| ==> ds[i] in cu
    ensures |r| == |ds| && forall i :: 0 <= i < |ds| ==> r[i] == Mark(ds[i], cu[ds[i]])
  {
    seq(|ds|, i requires 0 <= i < |ds| => Mark(ds[i], cu[ds[i]]))
  }

  /** The lines and stars drawn for the edge list `e` of a pool with
      `connUsed` table `cu`: a line per distinct destination, in the order the
      destinations first appear, and a star per destination reached a second
      time, each marked with whether the connection was used. */
  ghost function MarksOf(e: seq<PoolId>, cu: map<PoolId, bool>): Marks
    requires forall d :: d in e ==> d in cu
  {
    FirstsSpec(e);
    SecondsSpec(e);
    Marks(Tag(Firsts(e), cu), Tag(Seconds(e), cu))
  }

  /** The edges out of pool `p`, in the order lines 285-287 visit them:
      exactly the destinations of `p`. */
  ghost function PoolEdges(g: Graph, p: PoolId): (e: seq<PoolId>)
    requires Wf(g) && p < |g.pools|
    ensures forall d :: d in e <==> d in Targets(g, p)
  {
    assert PoolWf(g, p);
    EdgesOf(g, g.pools[p].pool)
  }

  /** The first of the lookups of lines 293-295 that throws, along the edges
      `e` out of pool `p1`: `p1` or the destination missing from
      `nodePosRegistry` (the pools `placed`), or the destination missing from
      `p1.connUsed`. */
  function Miss(p1: PoolId, e: seq<PoolId>, placed: set<PoolId>, cu: map<PoolId, bool>): (r: Option<DrawError>)
    ensures r.None? <==> (e == [] || p1 in placed) && forall i :: 0 <= i < |e| ==> e[i] in placed && e[i] in cu
    ensures r.Some? ==>
              || (r.value == Unplaced(p1) && p1 !in placed)
              || (exists i :: 0 <= i < |e| && r.value == Unplaced(e[i]) && e[i] !in placed)
              || (exists i :: 0 <= i < |e| && r.value == UnknownConnection(p1, e[i]) && e[i] !in cu)
  {
    if e == [] then None
    else
      var r0 := Miss(p1, e[..|e| - 1], placed, cu);
      var d := e[|e| - 1];
      if r0.Some? then r0
      else if p1 !in placed then Some(Unplaced(p1))
      else if d !in placed then Some(Unplaced(d))
      else if d !in cu then Some(UnknownConnection(p1, d))
      else None
  }

  /** The state of lines 282-306 after the edges `done`: no lookup has
      thrown, `outPools` and `starred` are the destinations seen once and
      twice, and the lines and stars drawn are those destinations, marked. */
  ghost predicate MarksSoFar(p1: PoolId, done: seq<PoolId>, placed: set<PoolId>, cu: map<PoolId, bool>,
                             outPools: seq<PoolId>, starred: seq<PoolId>, lines: seq<Mark>, stars: seq<Mark>)
  {
    && Miss(p1, done, placed, cu).None?
    && outPools == Firsts(done) && starred == Seconds(done)
    && (forall d :: d in done ==> d in cu)
    && (forall k :: 0 <= k < |outPools| ==> outPools[k] in cu)
    && (forall k :: 0 <= k < |starred| ==> starred[k] in cu)
    && lines == Tag(outPools, cu) && stars == Tag(starred, cu)
  }

  /** Visiting one more edge, to `p2`, when its lookups succeed. */
  lemma MarksStep(p1: PoolId, done: seq<PoolId>, p2: PoolId, placed: set<PoolId>, cu: map<PoolId, bool>,
                  outPools: seq<PoolId>, starred: seq<PoolId>, lines: seq<Mark>, stars: seq<Mark>)
    requires MarksSoFar(p1, done, placed, cu, outPools, starred, lines, stars)
    requires p1 in placed && p2 in placed && p2 in cu
    ensures p2 !in outPools ==>
              MarksSoFar(p1, done + [p2], placed, cu, outPools + [p2], starred, lines + [Mark(p2, cu[p2])], stars)
    ensures p2 in outPools && p2 !in starred ==>
              MarksSoFar(p1, done + [p2], placed, cu, outPools, starred + [p2], lines, stars + [Mark(p2, cu[p2])])
    ensures p2 in outPools && p2 in starred ==>
              MarksSoFar(p1, done + [p2], placed, cu, outPools, starred, lines, stars)
  {
    MissSnoc(p1, done, p2, placed, cu);
    FirstsSnoc(done, p2);
    SecondsSnoc(done, p2);
    TagSnoc(outPools, p2, cu);
    TagSnoc(starred, p2, cu);
  }

  /** One more edge whose lookups succeed throws nothing. */
  lemma MissSnoc(p1: PoolId, done: seq<PoolId>, p2: PoolId, placed: set<PoolId>, cu: map<PoolId, bool>)
    requires Miss(p1, done, placed, cu).None? && p1 in placed && p2 in placed && p2 in cu
    ensures Miss(p1, done + [p2], placed, cu).None?
  {
    assert (done + [p2])[..|done|] == done;
  }

  /** One more edge adds its destination to `outPools` unless it is there. */
  lemma FirstsSnoc(s: seq<PoolId>, x: PoolId)
    ensures Firsts(s + [x]) == if x in Firsts(s) then Firsts(s) else Firsts(s) + [x]
  {
    assert (s + [x])[..|s|] == s;
  }

  /** One more edge adds its destination to `starred` when it is in
      `outPools` already and not yet starred. */
  lemma SecondsSnoc(s: seq<PoolId>, x: PoolId)
    ensures Seconds(s + [x]) == if x !in Firsts(s) || x in Seconds(s) then Seconds(s) else Seconds(s) + [x]
  {
    assert (s + [x])[..|s|] == s;
  }

  /** Marking one more destination appends its mark. */
  lemma TagSnoc(ds: seq<PoolId>, d: PoolId, cu: map<PoolId, bool>)
    requires (forall i :: 0 <= i < |ds| ==> ds[i] in cu) && d in cu
    ensures Tag(ds + [d], cu) == Tag(ds, cu) + [Mark(d, cu[d])]
  {
  }

  /** Visiting one more edge, to `p2`, when one of its lookups throws. */
  lemma MissStep(p1: PoolId, done: seq<PoolId>, p2: PoolId, placed: set<PoolId>, cu: map<PoolId, bool>)
    requires Miss(p1, done, placed, cu).None?
    requires p1 !in placed || p2 !in placed || p2 !in cu
    ensures Miss(p1, done + [p2], placed, cu) ==
              Some(if p1 !in placed then Unplaced(p1) else if p2 !in placed then Unplaced(p2) else UnknownConnection(p1, p2))
  {
    var next := done + [p2];
    assert next[..|next| - 1] == done;
  }

  /** Moving one element from what is left to what is done keeps a prefix a prefix. */
  lemma PrefixSnoc(done: seq<PoolId>, rest: seq<PoolId>, e: seq<PoolId>)
    requires done + rest <= e && rest != []
    ensures done + [rest[0]] <= e
    ensures (done + [rest[0]]) + rest[1..] == done + rest
  {
    assert (done + [rest[0]]) + rest[1..] == done + rest;
  }

  /** After the last edge, what has been drawn is `MarksOf`. */
  lemma MarksAll(p1: PoolId, e: seq<PoolId>, placed: set<PoolId>, cu: map<PoolId, bool>,
                 outPools: seq<PoolId>, starred: seq<PoolId>, lines: seq<Mark>, stars: seq<Mark>)
    requires MarksSoFar(p1, e, placed, cu, outPools, starred, lines, stars)
    ensures Marks(lines, stars) == MarksOf(e, cu)
  {
    FirstsSpec(e);
    SecondsSpec(e);
  }

  /** Once a lookup has thrown, later edges do not matter. */
  lemma {:induction false} MissPrefix(p1: PoolId, a: seq<PoolId>, e: seq<PoolId>, placed: set<PoolId>, cu: map<PoolId, bool>)
    requires a <= e && Miss(p1, a, placed, cu).Some?
    ensures Miss(p1, e, placed, cu) == Miss(p1, a, placed, cu)
    decreases |e|
  {
    if |a| < |e| {
      assert a <= e[..|e| - 1];
      MissPrefix(p1, a, e[..|e| - 1], placed, cu);
    } else {
      assert a == e;
    }
  }

  /** The edges of the first `i` events are where the edges of all of them start. */
  lemma {:induction false} EdgesOfIsPrefix(g: Graph, evs: seq<EventId>, i: nat)
    requires forall k :: 0 <= k < |evs| ==> evs[k] < |g.events|
    requires i <= |evs|
    ensures EdgesOf(g, evs[..i]) <= EdgesOf(g, evs)
  {
    if i < |evs| {
      var init := evs[..|evs| - 1];
      assert init[..i] == evs[..i];
      EdgesOfIsPrefix(g, init, i);
    } else {
      assert evs[..i] == evs;
    }
  }

  /** Every connection out of a placed pool ends at a placed pool once the
      search is complete, so for a pool whose `connUsed` knows all its
      destinations none of the lookups of lines 293-295 throws. */
  lemma NoMiss(g: Graph, p1: PoolId, placed: set<PoolId>, cu: map<PoolId, bool>)
    requires Wf(g) && p1 < |g.pools| && p1 in placed
    requires Succ(Adjacency(g), placed) <= placed && Targets(g, p1) <= cu.Keys
    ensures Miss(p1, PoolEdges(g, p1), placed, cu) == None
  {
    var e := PoolEdges(g, p1);
    forall i | 0 <= i < |e|
      ensures e[i] in placed && e[i] in cu
    {
      assert e[i] in Adjacency(g)[p1];
      assert e[i] in Succ(Adjacency(g), placed);
    }
  }

  // ------------------------------------------------------------ the drawing

  /** Lines 211-220 for one pool `p` of the current wave: every destination of
      `p`'s events that is neither behind nor in the current wave joins
      `newWave`. */
  method Collect(g: Graph, p: PoolId, behind: set<PoolId>, wave: set<PoolId>, newWave: set<PoolId>)
    returns (r: set<PoolId>)
    requires Wf(g) && p < |g.pools|
    ensures r == newWave + (Targets(g, p) - behind - wave)
  {
    assert PoolWf(g, p);
    var pl := g.pools[p].pool;
    r := newWave;
    var i := 0;
    while i < |pl|
      invariant 0 <= i <= |pl|
      invariant r == newWave + (TargetsOf(g, pl[..i]) - behind - wave)
    {
      var ends := g.events[pl[i]].endingEventPools;
      var j := 0;
      while j < |ends|
        invariant 0 <= j <= |ends|
        invariant r == newWave + (TargetsOf(g, pl[..i]) - behind - wave) + ((set d | d in ends[..j]) - behind - wave)
      {
        if ends[j] !in behind && ends[j] !in wave {
          r := r + {ends[j]};
        }
        assert ends[..j + 1] == ends[..j] + [ends[j]];
        j := j + 1;
      }
      assert ends[..j] == ends;
      assert pl[..i + 1] == pl[..i] + [pl[i]];
      TargetsOfSnoc(g, pl[..i], pl[i]);
      i := i + 1;
    }
    assert pl[..i] == pl;
  }

  /** Lines 202-222 for one wave: every pool of `wave` gets `wave =
      waveCount`, `activeNodeDist` becomes `waveCount` if one of them is
      active, and the next wave is every destination of the wave that is
      neither behind nor in it. */
  method MarkWave(w: World, wave: set<PoolId>, behind: set<PoolId>, waveCount: nat, dist: int)
    returns (newWave: set<PoolId>, activeNodeDist: int)
    requires Wf(w.g) && |w.pools| == |w.g.pools| && wave <= Below(|w.g.pools|)
    modifies w`pools
    ensures w.pools == WithWaves(old(w.pools), Constant(wave, waveCount))
    ensures newWave == Succ(Adjacency(w.g), wave) - behind - wave
    ensures activeNodeDist == if AnyActive(old(w.pools), wave) then waveCount else dist
  {
    ghost var P := w.pools;
    ghost var adj := Adjacency(w.g);
    newWave := {};
    activeNodeDist := dist;
    var done: set<PoolId> := {};
    assert w.pools == WithWaves(P, Constant(done, waveCount));
    while wave - done != {}
      invariant done <= wave && |w.pools| == |P|
      invariant w.pools == WithWaves(P, Constant(done, waveCount))
      invariant newWave == Succ(adj, done) - behind - wave
      invariant activeNodeDist == if AnyActive(P, done) then waveCount else dist
      decreases wave - done
    {
      var pool :| pool in wave - done;
      WithWavesStep(P, done, waveCount, pool);
      w.pools := w.pools[pool := w.pools[pool].(wave := waveCount)];
      ActiveWithWaves(P, Constant(done, waveCount), pool);
      AnyActiveStep(P, done, pool);
      if w.IsActive(pool) {
        activeNodeDist := waveCount;
      }
      newWave := Collect(w.g, pool, behind, wave, newWave);
      SuccStep(adj, done, pool);
      assert adj[pool] == Targets(w.g, pool);
      assert newWave == (Succ(adj, done) + adj[pool]) - behind - wave;
      done := done + {pool};
    }
  }

  /** Lines 183-237: the breadth-first search from quest `q`'s start pool.
      It runs one round per non-empty wave, gives every pool it reaches the
      index of the wave it was found in (and changes nothing else), places
      exactly the pools it reaches, and reports as `activeNodeDist` the last
      wave holding an active pool, or the number of waves when none does. */
  method AssignWaves(w: World, q: EventId) returns (activeNodeDist: int, waveCount: nat, placed: set<PoolId>)
    requires Wf(w.g) && IsQuest(w.g, q) && |w.pools| == |w.g.pools|
    modifies w`pools
    ensures QuestWf(w.g, q)
    ensures Bfs(Adjacency(w.g), Start(w.g, q), waveCount).wave == {}
    ensures forall k :: 0 <= k < waveCount ==> Bfs(Adjacency(w.g), Start(w.g, q), k).wave != {}
    ensures placed == Bfs(Adjacency(w.g), Start(w.g, q), waveCount).behind
    ensures w.pools == WithWaves(old(w.pools), WaveMap(Adjacency(w.g), Start(w.g, q), waveCount))
    ensures activeNodeDist == if ActiveWave(Adjacency(w.g), old(w.pools), Start(w.g, q), waveCount) == -1 then waveCount
                              else ActiveWave(Adjacency(w.g), old(w.pools), Start(w.g, q), waveCount)
  {
    assert EventWf(w.g, q);
    ghost var P := w.pools;
    ghost var adj := Adjacency(w.g);
    AdjacencyClosed(w.g);
    var start := w.g.events[q].kind.start;
    var wave: set<PoolId> := {start};
    var wavesBehind: set<PoolId> := {};
    waveCount := 0;
    activeNodeDist := -1;
    while wave != {}
      invariant |w.pools| == |P|
      invariant Bfs(adj, start, waveCount) == Search(wave, wavesBehind)
      invariant w.pools == WithWaves(P, WaveMap(adj, start, waveCount))
      invariant activeNodeDist == ActiveWave(adj, P, start, waveCount)
      invariant forall k :: 0 <= k < waveCount ==> Bfs(adj, start, k).wave != {}
      decreases Below(|adj|) - wavesBehind
    {
      BfsShape(adj, start, waveCount);
      ghost var ps, k, d0, wave0, behind0 := w.pools, waveCount, activeNodeDist, wave, wavesBehind;
      var newWave, d := MarkWave(w, wave, wavesBehind, waveCount, activeNodeDist);
      activeNodeDist := d;
      wavesBehind := wavesBehind + wave;
      wave := newWave;
      waveCount := waveCount + 1;
      WaveRound(adj, P, start, k, waveCount, wave0, behind0, ps, newWave, d0, d);
      assert Bfs(adj, start, k) == Search(wave0, behind0);
      forall j | 0 <= j < waveCount
        ensures Bfs(adj, start, j).wave != {}
      {
        if j == k {
          assert wave0 != {};
        }
      }
    }
    if activeNodeDist == -1 {
      activeNodeDist := waveCount;
    }
    placed := wavesBehind;
  }

  /** Lines 254-266 for one pool: its shade, and the count of faraway pools
      drawn at random, which grows exactly when this one is one of them. */
  method ShadeOne(activeNodeDist: int, wave: int, coin: bool, farawayDrawn: nat) returns (s: Shade, drawn: nat)
    ensures s == Classify(activeNodeDist, wave, coin, farawayDrawn)
    ensures drawn == farawayDrawn + if s == Faraway then 1 else 0
  {
    drawn := farawayDrawn;
    if 0 <= activeNodeDist - wave && activeNodeDist - wave <= 2 {
      s := Nearby;
    } else if -1 == activeNodeDist - wave {
      s := Bordering;
    } else if coin && !(farawayDrawn >= 3) {
      s := Faraway;
      drawn := farawayDrawn + 1;
    } else {
      s := Hidden;
    }
  }

  /** One more shade extends the prefix of the shades drawn so far. */
  lemma ShadesSnoc(all: seq<Shade>, i: nat, shades: seq<Shade>, s: Shade)
    requires i < |all| && shades == all[..i] && s == all[i]
    ensures shades + [s] == all[..i + 1]
  {
    assert all[..i + 1] == all[..i] + [all[i]];
  }

  /** Lines 249-266: the shade of every pool of `eventPools` in turn, where
      `coins[i]` is the outcome of the random test for the `i`-th pool.
      Looking up a pool the search never placed throws, at the first such pool. */
  method ShadePools(pools: seq<PoolState>, ps: seq<PoolId>, activeNodeDist: int, placed: set<PoolId>, coins: seq<bool>)
    returns (r: Result<seq<Shade>, DrawError>)
    requires forall i :: 0 <= i < |ps| ==> ps[i] < |pools|
    requires |coins| == |ps|
    ensures r.Failure? <==> exists i :: 0 <= i < |ps| && ps[i] !in placed
    ensures r.Failure? ==> exists i :: 0 <= i < |ps| && ps[i] !in placed && r.error == Unplaced(ps[i]) &&
                                       forall j :: 0 <= j < i ==> ps[j] in placed
    ensures r.Success? ==> r.value == Shades(activeNodeDist, Waves(pools, ps), coins, 0)
  {
    ghost var all := Shades(activeNodeDist, Waves(pools, ps), coins, 0);
    var shades: seq<Shade> := [];
    var farawayDrawn := 0;
    var i := 0;
    while i < |ps|
      invariant 0 <= i <= |ps|
      invariant forall j :: 0 <= j < i ==> ps[j] in placed
      invariant shades == all[..i] && farawayDrawn == CountFar(shades)
    {
      var p := ps[i];
      if p !in placed {
        return Failure(Unplaced(p));
      }
      var wave := pools[p].wave;
      var s;
      s, farawayDrawn := ShadeOne(activeNodeDist, wave, coins[i], farawayDrawn);
      assert wave == Waves(pools, ps)[i];
      ShadesAt(activeNodeDist, Waves(pools, ps), coins, 0, i);
      ShadesSnoc(all, i, shades, s);
      CountFarSnoc(shades, s);
      shades := shades + [s];
      i := i + 1;
    }
    assert all[..|all|] == all;
    return Success(shades);
  }

  /** Lines 292-305 for the edge from `p1` to `p2`, after the edges `done`:
      either one of its lookups throws, or the destination is drawn as a line
      on its first visit and as a star on its second. */
  method VisitEdge(p1: PoolId, p2: PoolId, placed: set<PoolId>, cu: map<PoolId, bool>, ghost done: seq<PoolId>,
                   outPools: seq<PoolId>, starred: seq<PoolId>, lines: seq<Mark>, stars: seq<Mark>)
    returns (miss: Option<DrawError>, outPools': seq<PoolId>, starred': seq<PoolId>, lines': seq<Mark>, stars': seq<Mark>)
    requires MarksSoFar(p1, done, placed, cu, outPools, starred, lines, stars)
    ensures miss == Miss(p1, done + [p2], placed, cu)
    ensures miss.None? ==> MarksSoFar(p1, done + [p2], placed, cu, outPools', starred', lines', stars')
  {
    outPools', starred', lines', stars' := outPools, starred, lines, stars;
    if p1 !in placed || p2 !in placed || p2 !in cu {
      MissStep(p1, done, p2, placed, cu);
      if p1 !in placed {
        miss := Some(Unplaced(p1));
      } else if p2 !in placed {
        miss := Some(Unplaced(p2));
      } else {
        miss := Some(UnknownConnection(p1, p2));
      }
      return;
    }
    MarksStep(p1, done, p2, placed, cu, outPools, starred, lines, stars);
    var next := done + [p2];
    assert next[..|next| - 1] == done;
    miss := None;
    var used := cu[p2];
    if p2 !in outPools {
      outPools' := outPools + [p2];
      lines' := lines + [Mark(p2, used)];
    } else if p2 !in starred {
      starred' := starred + [p2];
      stars' := stars + [Mark(p2, used)];
    }
  }

  /** Lines 287-306 for the edges `ends` out of one event of pool `p1`, after
      the edges `done` of the whole list `e`: nothing is drawn when `p1` lies
      beyond the active node; otherwise each edge is visited in turn, and a
      lookup that throws is the first of the whole list. */
  method VisitEnds(p1: PoolId, st: PoolState, activeNodeDist: int, placed: set<PoolId>, ghost e: seq<PoolId>,
                   ghost done: seq<PoolId>, ends: seq<PoolId>,
                   outPools: seq<PoolId>, starred: seq<PoolId>, lines: seq<Mark>, stars: seq<Mark>)
    returns (miss: Option<DrawError>, outPools': seq<PoolId>, starred': seq<PoolId>, lines': seq<Mark>, stars': seq<Mark>)
    requires done + ends <= e
    requires activeNodeDist - st.wave < 0 ==> lines == [] && stars == []
    requires activeNodeDist - st.wave >= 0 ==> MarksSoFar(p1, done, placed, st.connUsed, outPools, starred, lines, stars)
    ensures miss.Some? ==> activeNodeDist - st.wave >= 0 && miss == Miss(p1, e, placed, st.connUsed)
    ensures miss.None? && activeNodeDist - st.wave < 0 ==> lines' == [] && stars' == []
    ensures miss.None? && activeNodeDist - st.wave >= 0 ==>
              MarksSoFar(p1, done + ends, placed, st.connUsed, outPools', starred', lines', stars')
  {
    outPools', starred', lines', stars' := outPools, starred, lines, stars;
    ghost var seen := done;
    var j := 0;
    while j < |ends|
      invariant 0 <= j <= |ends|
      invariant seen + ends[j..] == done + ends && seen + ends[j..] <= e
      invariant activeNodeDist - st.wave < 0 ==> lines' == [] && stars' == []
      invariant activeNodeDist - st.wave >= 0 ==> MarksSoFar(p1, seen, placed, st.connUsed, outPools', starred', lines', stars')
    {
      var p2 := ends[j];
      PrefixSnoc(seen, ends[j..], e);
      assert ends[j..][1..] == ends[j + 1..];
      if activeNodeDist - st.wave >= 0 {
        miss, outPools', starred', lines', stars' := VisitEdge(p1, p2, placed, st.connUsed, seen, outPools', starred', lines', stars');
        if miss.Some? {
          MissPrefix(p1, seen + [p2], e, placed, st.connUsed);
          return;
        }
      }
      seen := seen + [p2];
      j := j + 1;
    }
    assert ends[j..] == [];
    assert seen == done + ends;
    miss := None;
  }

  /** Lines 285-306 for one pool `p1` with run-time state `st`: when `p1` is
      no further than the active node, every edge out of it is visited in
      order; the first visit of a destination draws a line, the second a
      star, later ones nothing. A failing lookup throws (see `Miss`). */
  method EdgeMarks(g: Graph, p1: PoolId, st: PoolState, activeNodeDist: int, placed: set<PoolId>)
    returns (r: Result<Marks, DrawError>)
    requires Wf(g) && p1 < |g.pools|
    ensures activeNodeDist - st.wave < 0 ==> r == Success(Marks([], []))
    ensures activeNodeDist - st.wave >= 0 && Miss(p1, PoolEdges(g, p1), placed, st.connUsed).Some? ==>
              r == Failure(Miss(p1, PoolEdges(g, p1), placed, st.connUsed).value)
    ensures activeNodeDist - st.wave >= 0 && Miss(p1, PoolEdges(g, p1), placed, st.connUsed).None? ==>
              r == Success(MarksOf(PoolEdges(g, p1), st.connUsed))
  {
    assert PoolWf(g, p1);
    var pl := g.pools[p1].pool;
    ghost var e := PoolEdges(g, p1);
    ghost var cu := st.connUsed;
    assert e == EdgesOf(g, pl);
    var outPools: seq<PoolId> := [];
    var starred: seq<PoolId> := [];
    var lines: seq<Mark> := [];
    var stars: seq<Mark> := [];
    ghost var done: seq<PoolId> := [];
    var i := 0;
    while i < |pl|
      invariant 0 <= i <= |pl|
      invariant done == EdgesOf(g, pl[..i]) && done <= e
      invariant activeNodeDist - st.wave < 0 ==> lines == [] && stars == []
      invariant activeNodeDist - st.wave >= 0 ==> MarksSoFar(p1, done, placed, cu, outPools, starred, lines, stars)
    {
      var ends := g.events[pl[i]].endingEventPools;
      EdgesOfIsPrefix(g, pl, i + 1);
      assert pl[..i + 1][..i] == pl[..i];
      assert EdgesOf(g, pl[..i + 1]) == done + ends;
      var miss;
      miss, outPools, starred, lines, stars :=
        VisitEnds(p1, st, activeNodeDist, placed, e, done, ends, outPools, starred, lines, stars);
      if miss.Some? {
        return Failure(miss.value);
      }
      done := done + ends;
      i := i + 1;
    }
    assert pl[..i] == pl;
    if activeNodeDist - st.wave >= 0 {
      MarksAll(p1, e, placed, cu, outPools, starred, lines, stars);
    }
    return Success(Marks(lines, stars));
  }

  /** What lines 282-305 draw from pool `p1` whose state is `st`: nothing when
      `p1` lies beyond the active node, otherwise its lines and stars, unless a
      lookup throws first. */
  ghost function PoolMarks(g: Graph, st: PoolState, activeNodeDist: int, p1: PoolId, placed: set<PoolId>)
    : Result<Marks, DrawError>
    requires Wf(g) && p1 < |g.pools|
  {
    if activeNodeDist - st.wave < 0 then Success(Marks([], []))
    else
      var m := Miss(p1, PoolEdges(g, p1), placed, st.connUsed);
      if m.Some? then Failure(m.value) else Success(MarksOf(PoolEdges(g, p1), st.connUsed))
  }

  /** Lines 280-306: the marks of every pool of `eps` in order, or the first
      lookup that throws. */
  ghost function MarksLoop(g: Graph, ps: seq<PoolState>, eps: seq<PoolId>, activeNodeDist: int, placed: set<PoolId>)
    : (r: Result<seq<Marks>, DrawError>)
    requires Wf(g) && forall i :: 0 <= i < |eps| ==> eps[i] < |g.pools| && eps[i] < |ps|
    ensures r.Success? ==> |r.value| == |eps|
  {
    if eps == [] then Success([])
    else
      var init := MarksLoop(g, ps, eps[..|eps| - 1], activeNodeDist, placed);
      var p1 := eps[|eps| - 1];
      var m := PoolMarks(g, ps[p1], activeNodeDist, p1, placed);
      if init.Failure? then init
      else if m.Failure? then Failure(m.error)
      else Success(init.value + [m.value])
  }

  /** A prefix that throws makes the whole loop throw the same. */
  lemma {:induction false} MarksLoopPrefix(g: Graph, ps: seq<PoolState>, eps: seq<PoolId>, n: nat,
                                           activeNodeDist: int, placed: set<PoolId>)
    requires Wf(g) && forall i :: 0 <= i < |eps| ==> eps[i] < |g.pools| && eps[i] < |ps|
    requires n <= |eps| && MarksLoop(g, ps, eps[..n], activeNodeDist, placed).Failure?
    ensures MarksLoop(g, ps, eps, activeNodeDist, placed) == MarksLoop(g, ps, eps[..n], activeNodeDist, placed)
    decreases |eps| - n
  {
    if n < |eps| {
      var init := eps[..|eps| - 1];
      assert init[..n] == eps[..n];
      MarksLoopPrefix(g, ps, init, n, activeNodeDist, placed);
    } else {
      assert eps[..n] == eps;
    }
  }

  /** The loop succeeds exactly when every pool's marks do, it then lists
      them in order, and when it throws, it throws the error of the first
      pool whose marks fail. */
  lemma {:induction false} MarksLoopMeaning(g: Graph, ps: seq<PoolState>, eps: seq<PoolId>,
                                            activeNodeDist: int, placed: set<PoolId>)
    requires Wf(g) && forall i :: 0 <= i < |eps| ==> eps[i] < |g.pools| && eps[i] < |ps|
    ensures MarksLoop(g, ps, eps, activeNodeDist, placed).Success? <==>
              forall i :: 0 <= i < |eps| ==> PoolMarks(g, ps[eps[i]], activeNodeDist, eps[i], placed).Success?
    ensures MarksLoop(g, ps, eps, activeNodeDist, placed).Success? ==>
              forall i :: 0 <= i < |eps| ==>
                MarksLoop(g, ps, eps, activeNodeDist, placed).value[i] == PoolMarks(g, ps[eps[i]], activeNodeDist, eps[i], placed).value
    ensures MarksLoop(g, ps, eps, activeNodeDist, placed).Failure? ==>
              exists i :: 0 <= i < |eps| &&
                PoolMarks(g, ps[eps[i]], activeNodeDist, eps[i], placed) == Failure(MarksLoop(g, ps, eps, activeNodeDist, placed).error) &&
                forall j :: 0 <= j < i ==> PoolMarks(g, ps[eps[j]], activeNodeDist, eps[j], placed).Success?
  {
    if MarksLoop(g, ps, eps, activeNodeDist, placed).Success? {
      MarksLoopLists(g, ps, eps, activeNodeDist, placed);
    }
    if forall i :: 0 <= i < |eps| ==> PoolMarks(g, ps[eps[i]], activeNodeDist, eps[i], placed).Success? {
      MarksLoopAllSucceed(g, ps, eps, activeNodeDist, placed);
    }
    MarksLoopFails(g, ps, eps, activeNodeDist, placed);
  }

  /** A loop that succeeds lists every pool's marks, in order. */
  lemma {:induction false} MarksLoopLists(g: Graph, ps: seq<PoolState>, eps: seq<PoolId>,
                                          activeNodeDist: int, placed: set<PoolId>)
    requires Wf(g) && forall i :: 0 <= i < |eps| ==> eps[i] < |g.pools| && eps[i] < |ps|
    requires MarksLoop(g, ps, eps, activeNodeDist, placed).Success?
    ensures forall i :: 0 <= i < |eps| ==>
              && PoolMarks(g, ps[eps[i]], activeNodeDist, eps[i], placed).Success?
              && MarksLoop(g, ps, eps, activeNodeDist, placed).value[i] == PoolMarks(g, ps[eps[i]], activeNodeDist, eps[i], placed).value
  {
    if eps != [] {
      var n := |eps| - 1;
      var init := eps[..n];
      var before := MarksLoop(g, ps, init, activeNodeDist, placed);
      var m := PoolMarks(g, ps[eps[n]], activeNodeDist, eps[n], placed);
      assert before.Success? && m.Success?;
      MarksLoopLists(g, ps, init, activeNodeDist, placed);
      var all := before.value + [m.value];
      assert MarksLoop(g, ps, eps, activeNodeDist, placed).value == all;
      forall i | 0 <= i < |eps|
        ensures PoolMarks(g, ps[eps[i]], activeNodeDist, eps[i], placed).Success? && all[i] == PoolMarks(g, ps[eps[i]], activeNodeDist, eps[i], placed).value
      {
        if i < n {
          assert init[i] == eps[i] && all[i] == before.value[i];
        }
      }
    }
  }

  /** When every pool's marks succeed, so does the loop. */
  lemma {:induction false} MarksLoopAllSucceed(g: Graph, ps: seq<PoolState>, eps: seq<PoolId>,
                                               activeNodeDist: int, placed: set<PoolId>)
    requires Wf(g) && forall i :: 0 <= i < |eps| ==> eps[i] < |g.pools| && eps[i] < |ps|
    requires forall i :: 0 <= i < |eps| ==> PoolMarks(g, ps[eps[i]], activeNodeDist, eps[i], placed).Success?
    ensures MarksLoop(g, ps, eps, activeNodeDist, placed).Success?
  {
    if eps != [] {
      var n := |eps| - 1;
      var init := eps[..n];
      forall i | 0 <= i < n
        ensures PoolMarks(g, ps[init[i]], activeNodeDist, init[i], placed).Success?
      {
        assert init[i] == eps[i];
      }
      MarksLoopAllSucceed(g, ps, init, activeNodeDist, placed);
      assert PoolMarks(g, ps[eps[n]], activeNodeDist, eps[n], placed).Success?;
    }
  }

  /** A loop that throws throws the error of the first pool whose marks fail. */
  lemma {:induction false} MarksLoopFails(g: Graph, ps: seq<PoolState>, eps: seq<PoolId>,
                                          activeNodeDist: int, placed: set<PoolId>)
    requires Wf(g) && forall i :: 0 <= i < |eps| ==> eps[i] < |g.pools| && eps[i] < |ps|
    ensures MarksLoop(g, ps, eps, activeNodeDist, placed).Failure? ==>
              exists i :: 0 <= i < |eps| &&
                PoolMarks(g, ps[eps[i]], activeNodeDist, eps[i], placed) == Failure(MarksLoop(g, ps, eps, activeNodeDist, placed).error) &&
                forall j :: 0 <= j < i ==> PoolMarks(g, ps[eps[j]], activeNodeDist, eps[j], placed).Success?
  {
    if eps != [] {
      var n := |eps| - 1;
      var init, p1 := eps[..n], eps[n];
      var before := MarksLoop(g, ps, init, activeNodeDist, placed);
      var m := PoolMarks(g, ps[p1], activeNodeDist, p1, placed);
      if before.Failure? {
        MarksLoopFails(g, ps, init, activeNodeDist, placed);
        assert MarksLoop(g, ps, eps, activeNodeDist, placed) == before;
        var i :| 0 <= i < n && PoolMarks(g, ps[init[i]], activeNodeDist, init[i], placed) == Failure(before.error) &&
                 forall j :: 0 <= j < i ==> PoolMarks(g, ps[init[j]], activeNodeDist, init[j], placed).Success?;
        assert forall j :: 0 <= j <= i ==> init[j] == eps[j];
      } else if m.Failure? {
        MarksLoopLists(g, ps, init, activeNodeDist, placed);
        assert MarksLoop(g, ps, eps, activeNodeDist, placed) == Failure(m.error);
        assert forall j :: 0 <= j < n ==> init[j] == eps[j];
        assert PoolMarks(g, ps[eps[n]], activeNodeDist, eps[n], placed) == m;
      }
    }
  }

  /** Once every pool of `eps` is placed and nothing placed leads anywhere
      unplaced, the only lookup that can still throw is a connection missing
      from `connUsed`; when every destination is there, none throws. */
  lemma OnlyConnectionsMiss(g: Graph, ps: seq<PoolState>, eps: seq<PoolId>, activeNodeDist: int, placed: set<PoolId>)
    requires Wf(g) && forall i :: 0 <= i < |eps| ==> eps[i] < |g.pools| && eps[i] < |ps|
    requires (forall i :: 0 <= i < |eps| ==> eps[i] in placed) && Succ(Adjacency(g), placed) <= placed
    ensures MarksLoop(g, ps, eps, activeNodeDist, placed).Failure? ==>
              MarksLoop(g, ps, eps, activeNodeDist, placed).error.UnknownConnection?
    ensures (forall i :: 0 <= i < |eps| ==> Targets(g, eps[i]) <= ps[eps[i]].connUsed.Keys) ==>
              MarksLoop(g, ps, eps, activeNodeDist, placed).Success?
  {
    MarksLoopMeaning(g, ps, eps, activeNodeDist, placed);
    forall i | 0 <= i < |eps|
      ensures PoolMarks(g, ps[eps[i]], activeNodeDist, eps[i], placed).Failure? ==>
                PoolMarks(g, ps[eps[i]], activeNodeDist, eps[i], placed).error.UnknownConnection?
      ensures Targets(g, eps[i]) <= ps[eps[i]].connUsed.Keys ==> PoolMarks(g, ps[eps[i]], activeNodeDist, eps[i], placed).Success?
    {
      var p1 := eps[i];
      var e := PoolEdges(g, p1);
      forall k | 0 <= k < |e|
        ensures e[k] in placed
      {
        assert e[k] in Adjacency(g)[p1];
        assert e[k] in Succ(Adjacency(g), placed);
      }
      if Targets(g, p1) <= ps[p1].connUsed.Keys {
        NoMiss(g, p1, placed, ps[p1].connUsed);
      }
    }
  }

  /** Lines 280-306, pool by pool. */
  method DrawLines(g: Graph, ps: seq<PoolState>, eps: seq<PoolId>, activeNodeDist: int, placed: set<PoolId>)
    returns (r: Result<seq<Marks>, DrawError>)
    requires Wf(g) && forall i :: 0 <= i < |eps| ==> eps[i] < |g.pools| && eps[i] < |ps|
    ensures r == MarksLoop(g, ps, eps, activeNodeDist, placed)
  {
    var acc: seq<Marks> := [];
    var i := 0;
    while i < |eps|
      invariant 0 <= i <= |eps|
      invariant MarksLoop(g, ps, eps[..i], activeNodeDist, placed) == Success(acc)
    {
      var p1 := eps[i];
      var m := EdgeMarks(g, p1, ps[p1], activeNodeDist, placed);
      assert eps[..i + 1][..i] == eps[..i];
      if m.Failure? {
        MarksLoopPrefix(g, ps, eps, i + 1, activeNodeDist, placed);
        return Failure(m.error);
      }
      acc := acc + [m.value];
      i := i + 1;
    }
    assert eps[..i] == eps;
    return Success(acc);
  }

  /** The distance `activeNodeDist` holds after line 237: the last wave with
      an active pool, or the number of waves when there is none. */
  ghost function ActiveDist(adj: seq<set<PoolId>>, ps: seq<PoolState>, start: PoolId, n: nat): (d: int)
    ensures d == n || (0 <= d < n && exists p :: p in Bfs(adj, start, d).wave && Active(ps, p))
  {
    var a := ActiveWave(adj, ps, start, n);
    if a == -1 then n else a
  }

  /** The first `n` outcomes of the `Random.value` test. */
  function Coins(coin: nat -> bool, n: nat): (c: seq<bool>)
    ensures |c| == n && forall i :: 0 <= i < n ==> c[i] == coin(i)
  {
    seq(n, i requires 0 <= i < n => coin(i))
  }

  /** The position of the first element of `s` outside `placed`, or `|s|`. */
  function FirstOutside(s: seq<PoolId>, placed: set<PoolId>): (i: nat)
    ensures i <= |s| && (forall j :: 0 <= j < i ==> s[j] in placed) && (i < |s| ==> s[i] !in placed)
  {
    if s == [] || s[0] !in placed then 0 else 1 + FirstOutside(s[1..], placed)
  }

  /** What lines 238-306 draw of the pools `eps` once the search has
      placed the pools `placed`, over the pool table `ps`: a throw at the
      first pool of `eps` left unplaced, or the marks' first throw, or the
      scene. */
  ghost function Picture(g: Graph, ps: seq<PoolState>, eps: seq<PoolId>, dist: int, placed: set<PoolId>, coins: seq<bool>)
    : Result<Scene, DrawError>
    requires Wf(g) && (forall i :: 0 <= i < |eps| ==> eps[i] < |g.pools| && eps[i] < |ps|) && |coins| == |eps|
  {
    var first := FirstOutside(eps, placed);
    if first < |eps| then Failure(Unplaced(eps[first]))
    else
      var ms := MarksLoop(g, ps, eps, dist, placed);
      if ms.Failure? then Failure(ms.error)
      else Success(Scene(dist, 0 <= dist < 3, Shades(dist, Waves(ps, eps), coins, 0), ms.value))
  }

  /** What lines 183-306 make of quest `q` over the pool table `ps0`: the
      waves of the first `n` rounds written into the pools, and the picture
      of `eventPools` drawn from them. */
  ghost function Render(g: Graph, ps0: seq<PoolState>, q: EventId, n: nat, coin: nat -> bool): Result<Scene, DrawError>
    requires Wf(g) && IsQuest(g, q) && QuestWf(g, q) && |ps0| == |g.pools|
  {
    Picture(g, WithWaves(ps0, WaveMap(Adjacency(g), Start(g, q), n)), EventPools(g, q),
            ActiveDist(Adjacency(g), ps0, Start(g, q), n), Bfs(Adjacency(g), Start(g, q), n).behind,
            Coins(coin, |EventPools(g, q)|))
  }

  /** When every pool of `eventPools` can be reached from the start pool,
      drawing never misses a position: once the search is over, the only
      possible throw is a connection missing from `connUsed`, and with every
      destination there the scene is drawn. */
  lemma RenderReachable(g: Graph, ps0: seq<PoolState>, q: EventId, n: nat, coin: nat -> bool)
    requires Wf(g) && IsQuest(g, q) && QuestWf(g, q) && |ps0| == |g.pools|
    requires Bfs(Adjacency(g), Start(g, q), n).wave == {}
    requires forall i :: 0 <= i < |EventPools(g, q)| ==> exists m: nat :: EventPools(g, q)[i] in Within(Adjacency(g), Start(g, q), m)
    ensures Render(g, ps0, q, n, coin).Failure? ==> Render(g, ps0, q, n, coin).error.UnknownConnection?
    ensures (forall i :: 0 <= i < |EventPools(g, q)| ==>
               Targets(g, EventPools(g, q)[i]) <= ps0[EventPools(g, q)[i]].connUsed.Keys) ==>
              Render(g, ps0, q, n, coin).Success?
  {
    var adj := Adjacency(g);
    var start := Start(g, q);
    AdjacencyClosed(g);
    var ps := WithWaves(ps0, WaveMap(adj, start, n));
    var placed := Bfs(adj, start, n).behind;
    var eps := EventPools(g, q);
    SearchClosed(adj, start, n);
    WaveMapReaches(adj, start, n);
    forall i | 0 <= i < |eps|
      ensures eps[i] in placed
    {
      var m: nat :| eps[i] in Within(adj, start, m);
    }
    OnlyConnectionsMiss(g, ps, eps, ActiveDist(adj, ps0, start, n), placed);
    forall i | 0 <= i < |eps|
      ensures ps[eps[i]].connUsed == ps0[eps[i]].connUsed
    {
    }
  }

  /** Lines 238-306: shade the pools `eps`, then draw their lines and stars. */
  method DrawScene(g: Graph, ps: seq<PoolState>, eps: seq<PoolId>, activeNodeDist: int, placed: set<PoolId>, coins: seq<bool>)
    returns (r: Result<Scene, DrawError>)
    requires Wf(g) && (forall i :: 0 <= i < |eps| ==> eps[i] < |g.pools| && eps[i] < |ps|) && |coins| == |eps|
    ensures r == Picture(g, ps, eps, activeNodeDist, placed, coins)
  {
    var shaded := ShadePools(ps, eps, activeNodeDist, placed, coins);
    if shaded.Failure? {
      return Failure(shaded.error);
    }
    var entryLine := 0 <= activeNodeDist && activeNodeDist < 3;
    var marks := DrawLines(g, ps, eps, activeNodeDist, placed);
    if marks.Failure? {
      return Failure(marks.error);
    }
    return Success(Scene(activeNodeDist, entryLine, shaded.value, marks.value));
  }

  /** Lines 183-306 once `questToDraw` is `q`. */
  method DrawSelected(w: World, q: EventId, coin: nat -> bool) returns (r: Result<Scene, DrawError>, ghost rounds: nat)
    requires Wf(w.g) && IsQuest(w.g, q) && |w.pools| == |w.g.pools|
    modifies w`pools
    ensures QuestWf(w.g, q)
    ensures Bfs(Adjacency(w.g), Start(w.g, q), rounds).wave == {}
    ensures forall k :: 0 <= k < rounds ==> Bfs(Adjacency(w.g), Start(w.g, q), k).wave != {}
    ensures w.pools == WithWaves(old(w.pools), WaveMap(Adjacency(w.g), Start(w.g, q), rounds))
    ensures r == Render(w.g, old(w.pools), q, rounds, coin)
  {
    var activeNodeDist, waveCount, placed := AssignWaves(w, q);
    rounds := waveCount;
    var eps := EventPools(w.g, q);
    r := DrawScene(w.g, w.pools, eps, activeNodeDist, placed, Coins(coin, |eps|));
  }

  /** The part of `QG_QuestUIHandler` the drawing keeps between calls. */
  class QuestView {
    var questToDraw: Option<EventId>
    var lastDepth: int

    /** Lines 54 and 59: nothing drawn yet, last depth 0. */
    constructor ()
      ensures questToDraw == None && lastDepth == 0
    {
      questToDraw := None;
      lastDepth := 0;
    }

    /** Lines 155-176: walk the sub-quest chain from `base`, select the layer
        `depth` asks for (the innermost for -1), and draw one layer button per
        quest of the chain. When no layer matches, the quest drawn last stays
        selected. */
    method SelectLayer(w: World, base: Option<EventId>, depth: int)
      returns (drawDepth: int, buttons: seq<bool>, ghost chain: seq<EventId>)
      requires w.Valid() && (base.Some? ==> IsQuest(w.g, base.value))
      modifies this`questToDraw
      ensures chain == Layers(w.g, w.State(), base)
      ensures drawDepth == LayerDepth(chain, depth)
      ensures questToDraw == if drawDepth >= 0 then Some(chain[drawDepth]) else old(questToDraw)
      ensures |buttons| == |chain| && forall i :: 0 <= i < |chain| ==> (buttons[i] <==> i == drawDepth)
    {
      ghost var g, rt := w.g, w.State();
      chain := Layers(g, rt, base);
      var cur := base;
      var depthCounter := 0;
      drawDepth := -1;
      buttons := [];
      while cur.Some?
        invariant 0 <= depthCounter <= |chain|
        invariant cur.Some? ==> IsQuest(g, cur.value)
        invariant Layers(g, rt, cur) == chain[depthCounter..]
        invariant drawDepth == if depth == -1 then (if depthCounter == |chain| then |chain| - 1 else -1)
                               else if 0 <= depth < depthCounter then depth else -1
        invariant questToDraw == if drawDepth >= 0 then Some(chain[drawDepth]) else old(questToDraw)
        invariant |buttons| == depthCounter
        invariant forall i :: 0 <= i < depthCounter ==> (buttons[i] <==> i == LayerDepth(chain, depth))
        decreases |chain| - depthCounter
      {
        var q := cur.value;
        LayersStep(g, rt, cur, chain, depthCounter);
        var isActive := false;
        if (depth == -1 && w.quests[q].currentSubQuest.None?) || (depth != -1 && depthCounter == depth) {
          questToDraw := cur;
          drawDepth := depthCounter;
          isActive := true;
        }
        buttons := buttons + [isActive];
        cur := w.quests[q].currentSubQuest;
        depthCounter := depthCounter + 1;
      }
      assert Layers(g, rt, cur) == [];
    }

    /** Lines 143-347 without what only concerns Unity objects: select the
        layer, draw the selected quest's scene (with coin `i` standing for the
        `Random.value` test of the `i`-th pool of `eventPools`), pick the
        transition, and remember the drawn depth. A throw leaves `lastDepth`
        as it was. */
    method DrawQuest(w: World, base: Option<EventId>, depth: int, coin: nat -> bool)
      returns (r: Result<Drawing, DrawError>, ghost chain: seq<EventId>, ghost rounds: nat)
      requires w.Valid() && (base.Some? ==> IsQuest(w.g, base.value))
      requires questToDraw.Some? ==> IsQuest(w.g, questToDraw.value)
      modifies this, w`pools
      ensures w.Valid()
      ensures chain == Layers(w.g, old(w.State()), base)
      ensures questToDraw == if LayerDepth(chain, depth) >= 0 then Some(chain[LayerDepth(chain, depth)]) else old(questToDraw)
      ensures questToDraw.None? ==> r == Failure(NoQuestToDraw) && w.pools == old(w.pools)
      ensures questToDraw.Some? ==> IsQuest(w.g, questToDraw.value) && QuestWf(w.g, questToDraw.value)
      ensures questToDraw.Some? ==>
                && Bfs(Adjacency(w.g), Start(w.g, questToDraw.value), rounds).wave == {}
                && (forall k :: 0 <= k < rounds ==> Bfs(Adjacency(w.g), Start(w.g, questToDraw.value), k).wave != {})
                && w.pools == WithWaves(old(w.pools), WaveMap(Adjacency(w.g), Start(w.g, questToDraw.value), rounds))
      ensures questToDraw.Some? ==>
                && (r.Failure? <==> Render(w.g, old(w.pools), questToDraw.value, rounds, coin).Failure?)
                && (r.Failure? ==> r.error == Render(w.g, old(w.pools), questToDraw.value, rounds, coin).error)
                && (r.Success? ==> r.value.scene == Render(w.g, old(w.pools), questToDraw.value, rounds, coin).value)
      ensures r.Success? ==>
                && r.value.depth == LayerDepth(chain, depth) && lastDepth == r.value.depth
                && |r.value.buttons| == |chain| && (forall i :: 0 <= i < |chain| ==> (r.value.buttons[i] <==> i == r.value.depth))
                && r.value.transition == if old(questToDraw) == questToDraw then Stay
                                         else if r.value.depth == old(lastDepth) then FadeIn
                                         else if r.value.depth > old(lastDepth) then IntoSubQuest
                                         else OutOfSubQuest
      ensures r.Failure? ==> lastDepth == old(lastDepth)
    {
      var previousQuestToDraw := questToDraw;
      var drawDepth, buttons;
      drawDepth, buttons, chain := SelectLayer(w, base, depth);
      LayersShape(w.g, w.State(), base);
      rounds := 0;
      if questToDraw.None? {
        return Failure(NoQuestToDraw), chain, rounds;
      }
      r, rounds := DrawLayer(w, questToDraw.value, coin, drawDepth, buttons, previousQuestToDraw);
    }

    /** Lines 183-347 once the layer `q` at depth `drawDepth` is selected: the
        scene is drawn, and if it does not throw, the transition is chosen by
        how the selection moved from `previousQuestToDraw` and `lastDepth`
        becomes `drawDepth`. */
    method DrawLayer(w: World, q: EventId, coin: nat -> bool, drawDepth: int, buttons: seq<bool>,
                     previousQuestToDraw: Option<EventId>)
      returns (r: Result<Drawing, DrawError>, ghost rounds: nat)
      requires w.Valid() && IsQuest(w.g, q)
      modifies this`lastDepth, w`pools
      ensures w.Valid() && QuestWf(w.g, q)
      ensures Bfs(Adjacency(w.g), Start(w.g, q), rounds).wave == {}
      ensures forall k :: 0 <= k < rounds ==> Bfs(Adjacency(w.g), Start(w.g, q), k).wave != {}
      ensures w.pools == WithWaves(old(w.pools), WaveMap(Adjacency(w.g), Start(w.g, q), rounds))
      ensures r.Failure? <==> Render(w.g, old(w.pools), q, rounds, coin).Failure?
      ensures r.Failure? ==> r.error == Render(w.g, old(w.pools), q, rounds, coin).error && lastDepth == old(lastDepth)
      ensures r.Success? ==>
                && r.value.scene == Render(w.g, old(w.pools), q, rounds, coin).value
                && r.value.depth == drawDepth && r.value.buttons == buttons && lastDepth == drawDepth
                && r.value.transition == if previousQuestToDraw == Some(q) then Stay
                                         else if drawDepth == old(lastDepth) then FadeIn
                                         else if drawDepth > old(lastDepth) then IntoSubQuest
                                         else OutOfSubQuest
    {
      assert EventWf(w.g, q);
      ghost var before := w.State();
      var scene;
      scene, rounds := DrawSelected(w, q, coin);
      assert Consistent(w.g, w.State()) by {
        assert w.quests == before.quests && |w.pools| == |before.pools|;
      }
      if scene.Failure? {
        return Failure(scene.error), rounds;
      }
      var transition := if previousQuestToDraw == Some(q) then Stay
                        else if drawDepth != lastDepth then (if drawDepth > lastDepth then IntoSubQuest else OutOfSubQuest)
                        else FadeIn;
      lastDepth := drawDepth;
      r := Success(Drawing(buttons, drawDepth, scene.value, transition));
    }
  }
}
