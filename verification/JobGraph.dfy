/** The graph of a meta-job (src/master/job_manager.cpp:608-675): edges from adjacency chains, the
    depth-first cycle check and the dependency counters. */
module JobGraph {
  import opened Ordering

  /** A dependency: `head` waits for `tail`. */
  datatype Edge = Edge(tail: nat, head: nat)

  // ---- chains ----

  function ChainEdges(c: seq<nat>): (r: seq<Edge>)
    ensures |r| == if |c| == 0 then 0 else |c| - 1
    ensures forall i | 0 <= i < |r| :: r[i] == Edge(c[i], c[i + 1])
  {
    if |c| < 2 then [] else ChainEdges(c[..|c| - 1]) + [Edge(c[|c| - 2], c[|c| - 1])]
  }

  function AllEdges(chains: seq<seq<nat>>): seq<Edge> {
    if chains == [] then [] else AllEdges(chains[..|chains| - 1]) + ChainEdges(chains[|chains| - 1])
  }

  // ---- paths and cycles ----

  ghost predicate Path(edges: seq<Edge>, p: seq<nat>) {
    |p| >= 1 && forall i | 0 <= i < |p| - 1 :: Edge(p[i], p[i + 1]) in edges
  }

  ghost predicate IsCycle(edges: seq<Edge>, p: seq<nat>) {
    |p| >= 2 && Path(edges, p) && p[0] == p[|p| - 1]
  }

  ghost predicate Cyclic(edges: seq<Edge>) {
    exists p :: IsCycle(edges, p)
  }

  ghost predicate Within(edges: seq<Edge>, n: nat) {
    forall e | e in edges :: e.tail < n && e.head < n
  }

  /** A numbering that every edge lowers. */
  ghost predicate Ranks(edges: seq<Edge>, rank: map<nat, int>) {
    forall e | e in edges :: e.tail in rank && e.head in rank && rank[e.head] < rank[e.tail]
  }

  lemma {:induction false} PathDescends(edges: seq<Edge>, rank: map<nat, int>, p: seq<nat>)
    requires Ranks(edges, rank) && Path(edges, p) && |p| >= 2
    ensures p[0] in rank && p[|p| - 1] in rank && rank[p[|p| - 1]] < rank[p[0]]
    decreases |p|
  {
    assert Edge(p[0], p[1]) in edges;
    if |p| > 2 {
      var q := p[1..];
      assert Path(edges, q) by {
        forall i | 0 <= i < |q| - 1 ensures Edge(q[i], q[i + 1]) in edges {
          assert Edge(p[i + 1], p[i + 2]) in edges;
        }
      }
      PathDescends(edges, rank, q);
    }
  }

  lemma RankedIsAcyclic(edges: seq<Edge>, rank: map<nat, int>)
    requires Ranks(edges, rank)
    ensures !Cyclic(edges)
  {
    forall p ensures !IsCycle(edges, p) {
      if IsCycle(edges, p) {
        PathDescends(edges, rank, p);
        assert false;
      }
    }
  }

  // ---- an acyclic graph has a first vertex in every set ----

  ghost predicate IsFirst(edges: seq<Edge>, u: set<nat>, v: nat) {
    v in u && forall e | e in edges && e.head == v :: e.tail !in u
  }

  /** Walking against the edges inside `u`, either a first vertex is met or the walk closes. */
  lemma {:induction false} WalkBack(edges: seq<Edge>, u: set<nat>, p: seq<nat>)
    requires Path(edges, p) && !Cyclic(edges) && SetOf(p) <= u && NoDuplicates(p)
    ensures exists v :: IsFirst(edges, u, v)
    decreases u - SetOf(p)
  {
    var v := p[0];
    assert v in SetOf(p);
    if e :| e in edges && e.head == v && e.tail in u {
      var q := [e.tail] + p;
      forall i | 0 <= i < |q| - 1 ensures Edge(q[i], q[i + 1]) in edges {
        if i > 0 {
          assert Edge(p[i - 1], p[i]) in edges;
        }
      }
      if e.tail in p {
        var k :| 0 <= k < |p| && p[k] == e.tail;
        Closed(edges, q, k + 1);
      }
      assert e.tail in SetOf(q) && SetOf(q) == SetOf(p) + {e.tail};
      WalkBack(edges, u, q);
    } else {
      assert IsFirst(edges, u, v);
    }
  }

  lemma Closed(edges: seq<Edge>, q: seq<nat>, k: nat)
    requires Path(edges, q) && 1 <= k < |q| && q[k] == q[0]
    ensures Cyclic(edges)
  {
    var c := q[..k + 1];
    forall i | 0 <= i < |c| - 1 ensures Edge(c[i], c[i + 1]) in edges {
      assert Edge(q[i], q[i + 1]) in edges;
    }
    assert IsCycle(edges, c);
  }

  lemma FirstExists(edges: seq<Edge>, u: set<nat>)
    requires !Cyclic(edges) && u != {}
    ensures exists v :: IsFirst(edges, u, v)
  {
    var x :| x in u;
    assert SetOf([x]) == {x};
    WalkBack(edges, u, [x]);
  }

  // ---- the depth-first search ----

  datatype Color = White | Gray | Black

  /** No back edge so far: a finished vertex has only finished successors, which it outranks. */
  ghost predicate Settled(edges: seq<Edge>, done: seq<nat>) {
    forall e, i | e in edges && 0 <= i < |done| && done[i] == e.tail :: e.head in done[..i]
  }

  /** `stack` lists the vertices being visited, a path of the graph, and `done` the finished ones in
      the order in which they were finished. */
  ghost predicate SearchOk(edges: seq<Edge>, n: nat, color: seq<Color>, hasCycle: bool, done: seq<nat>, stack: seq<nat>) {
    && Within(edges, n) && |color| == n
    && (forall v: nat :: v in stack <==> v < n && color[v] == Gray)
    && (forall v: nat :: v in done <==> v < n && color[v] == Black)
    && (stack != [] ==> Path(edges, stack))
    && (hasCycle ==> Cyclic(edges))
    && (!hasCycle ==> Settled(edges, done))
  }

  lemma Enter(edges: seq<Edge>, n: nat, color: seq<Color>, hasCycle: bool, done: seq<nat>, stack: seq<nat>, v: nat)
    requires SearchOk(edges, n, color, hasCycle, done, stack) && v < n && color[v] == White
    requires stack != [] ==> Edge(stack[|stack| - 1], v) in edges
    ensures SearchOk(edges, n, color[v := Gray], hasCycle, done, stack + [v])
  {
    hide Settled, Cyclic;
    var path := stack + [v];
    forall i | 0 <= i < |path| - 1 ensures Edge(path[i], path[i + 1]) in edges {
      if i < |stack| - 1 {
        assert Edge(stack[i], stack[i + 1]) in edges;
      }
    }
  }

  lemma Leave(edges: seq<Edge>, n: nat, color: seq<Color>, hasCycle: bool, done: seq<nat>, stack: seq<nat>, v: nat)
    requires SearchOk(edges, n, color, hasCycle, done, stack + [v]) && v < n && color[v] == Gray && v !in stack
    requires !hasCycle ==> forall k | 0 <= k < |edges| && edges[k].tail == v :: edges[k].head in done
    ensures SearchOk(edges, n, color[v := Black], hasCycle, done + [v], stack)
  {
    hide Cyclic;
    var path, done1 := stack + [v], done + [v];
    assert forall x :: x in path <==> x in stack || x == v;
    assert stack != [] ==> Path(edges, stack) by {
      forall i | 0 <= i < |stack| - 1 ensures Edge(stack[i], stack[i + 1]) in edges {
        assert Edge(path[i], path[i + 1]) in edges;
      }
    }
    if !hasCycle {
      forall e, i | e in edges && 0 <= i < |done1| && done1[i] == e.tail ensures e.head in done1[..i] {
        if i < |done| {
          assert done[i] == e.tail && done1[..i] == done[..i];
        } else {
          assert done1[..i] == done;
        }
      }
    }
  }

  class CycleDetector {
    const edges: seq<Edge>
    const n: nat
    var color: seq<Color>
    var hasCycle: bool
    ghost var done: seq<nat>

    constructor (edges: seq<Edge>, n: nat)
      requires Within(edges, n)
      ensures this.edges == edges && this.n == n && Valid([]) && !hasCycle
    {
      this.edges, this.n, this.hasCycle, this.done := edges, n, false, [];
      this.color := seq(n, _ => White);
    }

    ghost predicate Valid(stack: seq<nat>)
      reads this
    {
      SearchOk(edges, n, color, hasCycle, done, stack)
    }

    ghost function Whites(): set<nat>
      reads this
      requires |color| == n
    {
      set v: nat | v < n && color[v] == White
    }

    /** `depth_first_visit` with the `back_edge` event of `cycle_detector`. */
    method Visit(v: nat, ghost stack: seq<nat>)
      requires Valid(stack) && v < n && color[v] == White
      requires stack != [] ==> Edge(stack[|stack| - 1], v) in edges
      modifies this
      ensures Valid(stack) && color[v] == Black && (old(hasCycle) ==> hasCycle)
      ensures forall x | 0 <= x < n && old(color)[x] != White :: color[x] == old(color)[x]
      decreases Whites()
    {
      hide Settled, Cyclic, Path;
      Enter(edges, n, color, hasCycle, done, stack, v);
      ghost var path := stack + [v];
      color := color[v := Gray];
      var i := 0;
      while i < |edges|
        invariant 0 <= i <= |edges|
        invariant Valid(path) && (old(hasCycle) ==> hasCycle)
        invariant color[v] == Gray
        invariant forall x | 0 <= x < n && old(color)[x] != White :: color[x] == old(color)[x]
        invariant !hasCycle ==> forall k | 0 <= k < i && edges[k].tail == v :: edges[k].head in done
      {
        var w := edges[i].head;
        assert edges[i] in edges;
        if edges[i].tail == v {
          if color[w] == White {
            assert v in old(Whites()) && v !in Whites();
            Visit(w, path);
          } else if color[w] == Gray {
            ghost var k :| 0 <= k < |path| && path[k] == w;
            BackEdge(edges, path, k);
            hasCycle := true;
          }
        }
        i := i + 1;
      }
      Leave(edges, n, color, hasCycle, done, stack, v);
      color, done := color[v := Black], done + [v];
    }

    /** `depth_first_search` from every vertex that is still white. */
    method Search()
      requires Valid([]) && !hasCycle
      modifies this
      ensures hasCycle <==> Cyclic(edges)
    {
      hide Settled, Cyclic;
      var v := 0;
      while v < n
        invariant v <= n && Valid([])
        invariant forall x | 0 <= x < v :: color[x] != White
      {
        if color[v] == White {
          Visit(v, []);
        }
        v := v + 1;
      }
      if !hasCycle {
        SettledIsAcyclic(edges, n, done);
      }
    }
  }

  lemma BackEdge(edges: seq<Edge>, path: seq<nat>, k: nat)
    requires Path(edges, path) && k < |path| && Edge(path[|path| - 1], path[k]) in edges
    ensures Cyclic(edges)
  {
    var c := path[k..] + [path[k]];
    forall i | 0 <= i < |c| - 1 ensures Edge(c[i], c[i + 1]) in edges {
      if i < |c| - 2 {
        assert Edge(path[k + i], path[k + i + 1]) in edges;
      }
    }
    assert IsCycle(edges, c);
  }

  /** The place at which a vertex was first finished. */
  ghost function Place(done: seq<nat>, v: nat): (i: nat)
    requires v in done
    ensures i < |done| && done[i] == v && v !in done[..i]
  {
    if done[0] == v then 0 else 1 + Place(done[1..], v)
  }

  /** When every vertex is finished and no back edge was met, the finishing order ranks the graph. */
  lemma SettledIsAcyclic(edges: seq<Edge>, n: nat, done: seq<nat>)
    requires Within(edges, n) && Settled(edges, done) && forall v: nat | v < n :: v in done
    ensures !Cyclic(edges)
  {
    var rank: map<nat, int> := map v: nat | v in SetOf(done) :: Place(done, v);
    forall e | e in edges ensures e.tail in rank && e.head in rank && rank[e.head] < rank[e.tail] {
      var i := Place(done, e.tail);
      assert e.head in done[..i];
      PlaceWithin(done, e.head, i);
    }
    RankedIsAcyclic(edges, rank);
  }

  lemma {:induction false} PlaceWithin(done: seq<nat>, v: nat, i: nat)
    requires i <= |done| && v in done[..i]
    ensures v in done && Place(done, v) < i
  {
    var k :| 0 <= k < i && done[k] == v;
    var p := Place(done, v);
    assert forall m | 0 <= m < p :: done[..p][m] == done[m];
  }

  // ---- dependency counters ----

  /** The number of edges into `v`, parallel ones included, that come from a vertex of `u`. */
  function InCount(edges: seq<Edge>, v: nat, u: set<nat>): nat {
    if edges == [] then 0 else
      var e := edges[|edges| - 1];
      InCount(edges[..|edges| - 1], v, u) + if e.head == v && e.tail in u then 1 else 0
  }

  lemma {:induction false} InCountZero(edges: seq<Edge>, v: nat, u: set<nat>)
    ensures InCount(edges, v, u) == 0 <==> forall e | e in edges && e.head == v :: e.tail !in u
    decreases |edges|
  {
    if edges != [] {
      InCountZero(edges[..|edges| - 1], v, u);
      assert edges == edges[..|edges| - 1] + [edges[|edges| - 1]];
    }
  }

  // ---- the graph in terms of its chains ----

  /** In chain `c`, `w` stands right behind `v` at place `i`. */
  predicate LinkAt(c: seq<nat>, i: int, v: nat, w: nat) {
    1 <= i < |c| && c[i - 1] == v && c[i] == w
  }

  /** Somewhere in a chain `w` stands right behind `v`. */
  ghost predicate Follows(chains: seq<seq<nat>>, v: nat, w: nat) {
    exists k, i :: 0 <= k < |chains| && LinkAt(chains[k], i, v, w)
  }

  /** A walk along the chains that comes back to where it began. */
  ghost predicate Loops(chains: seq<seq<nat>>, p: seq<nat>) {
    |p| >= 2 && p[0] == p[|p| - 1] && forall i | 0 <= i < |p| - 1 :: Follows(chains, p[i], p[i + 1])
  }

  /** The graph is accepted: every chain names at least two jobs and no job waits for itself. */
  ghost predicate Accepted(chains: seq<seq<nat>>) {
    (forall c | c in chains :: |c| >= 2) && forall p :: !Loops(chains, p)
  }

  /** The places in a chain, behind the first one, that hold `v`. */
  function Places(c: seq<nat>, v: nat): set<nat> {
    set i | 1 <= i < |c| && c[i] == v
  }

  /** The same in all chains, each place with the number of its chain. */
  function Entries(chains: seq<seq<nat>>, v: nat): set<(nat, nat)> {
    set k, i | 0 <= k < |chains| && i in Places(chains[k], v) :: (k, i)
  }

  /** The places of a chain of length `n` behind the first one. */
  function Behind(n: nat): set<nat> {
    Below(n) - {0}
  }

  /** All places behind the first one of a chain. */
  function Links(chains: seq<seq<nat>>): set<(nat, nat)> {
    set k, i | 0 <= k < |chains| && i in Behind(|chains[k]|) :: (k, i)
  }

  lemma {:induction false} EdgeFollows(chains: seq<seq<nat>>, e: Edge)
    ensures e in AllEdges(chains) <==> Follows(chains, e.tail, e.head)
    decreases |chains|
  {
    if chains != [] {
      hide LinkAt, ChainEdges, Follows;
      var n := |chains| - 1;
      EdgeFollows(chains[..n], e);
      ChainEdge(chains[n], e);
      FollowsMore(chains, e.tail, e.head);
    } else {
      hide LinkAt;
    }
  }

  lemma FollowsMore(chains: seq<seq<nat>>, v: nat, w: nat)
    requires chains != []
    ensures var n := |chains| - 1;
            Follows(chains, v, w) <==> Follows(chains[..n], v, w) || exists i :: LinkAt(chains[n], i, v, w)
  {
    hide LinkAt;
    var n := |chains| - 1;
    var p := chains[..n];
    if k, i :| 0 <= k < n && LinkAt(p[k], i, v, w) {
      assert LinkAt(chains[k], i, v, w);
    }
    if k, i :| 0 <= k < n && LinkAt(chains[k], i, v, w) {
      assert LinkAt(p[k], i, v, w);
    }
  }

  lemma ChainEdge(c: seq<nat>, e: Edge)
    ensures e in ChainEdges(c) <==> exists i :: LinkAt(c, i, e.tail, e.head)
  {
    forall i | LinkAt(c, i, e.tail, e.head) ensures e in ChainEdges(c) {
      ChainEdgeAt(c, i - 1);
    }
    forall m: nat | m < |ChainEdges(c)| && ChainEdges(c)[m] == e ensures LinkAt(c, m + 1, e.tail, e.head) {
      ChainEdgeAt(c, m);
    }
    hide ChainEdges, LinkAt;
  }

  lemma ChainEdgeAt(c: seq<nat>, m: nat)
    requires m + 1 < |c| || m < |ChainEdges(c)|
    ensures m + 1 < |c| && m < |ChainEdges(c)| && ChainEdges(c)[m] == Edge(c[m], c[m + 1])
  {
  }

  /** The walks that close along the chains are the cycles of the graph. */
  lemma LoopsAreCycles(chains: seq<seq<nat>>)
    ensures Cyclic(AllEdges(chains)) <==> exists p :: Loops(chains, p)
  {
    forall p ensures IsCycle(AllEdges(chains), p) <==> Loops(chains, p) {
      forall i | 0 <= i < |p| - 1 ensures Edge(p[i], p[i + 1]) in AllEdges(chains) <==> Follows(chains, p[i], p[i + 1]) {
        EdgeFollows(chains, Edge(p[i], p[i + 1]));
      }
    }
  }

  lemma {:induction false} InCountAppended(a: seq<Edge>, b: seq<Edge>, v: nat, u: set<nat>)
    ensures InCount(a + b, v, u) == InCount(a, v, u) + InCount(b, v, u)
    decreases |b|
  {
    if b == [] {
      assert a + b == a;
    } else {
      assert (a + b)[..|a + b| - 1] == a + b[..|b| - 1];
      InCountAppended(a, b[..|b| - 1], v, u);
    }
  }

  lemma InCountLast(edges: seq<Edge>, v: nat, u: set<nat>)
    requires edges != []
    ensures var e := edges[|edges| - 1];
            InCount(edges, v, u) == InCount(edges[..|edges| - 1], v, u) + if e.head == v && e.tail in u then 1 else 0
  {
  }

  lemma ChainPrefix(c: seq<nat>)
    requires |c| >= 2
    ensures var n := |c| - 1;
            && ChainEdges(c) != [] && ChainEdges(c)[..|ChainEdges(c)| - 1] == ChainEdges(c[..n])
            && ChainEdges(c)[|ChainEdges(c)| - 1] == Edge(c[n - 1], c[n])
  {
  }

  lemma PlacesMore(c: seq<nat>, v: nat)
    requires |c| >= 2
    ensures var n := |c| - 1;
            |Places(c, v)| == |Places(c[..n], v)| + if c[n] == v then 1 else 0
  {
    var n := |c| - 1;
    assert Places(c, v) == Places(c[..n], v) + if c[n] == v then {n} else {};
  }

  lemma ShortChain(c: seq<nat>, v: nat, u: set<nat>)
    requires |c| < 2
    ensures InCount(ChainEdges(c), v, u) == 0 && Places(c, v) == {}
  {
  }

  lemma {:induction false} ChainCount(c: seq<nat>, v: nat, u: set<nat>)
    requires forall x | x in c :: x in u
    ensures InCount(ChainEdges(c), v, u) == |Places(c, v)|
    decreases |c|
  {
    hide InCount, ChainEdges, Places;
    if |c| < 2 {
      ShortChain(c, v, u);
    } else {
      var n := |c| - 1;
      var p := c[..n];
      ChainCount(p, v, u);
      InCountLast(ChainEdges(c), v, u);
      ChainPrefix(c);
      assert c[n - 1] in c;
      PlacesMore(c, v);
    }
  }

  function Column(n: nat, s: set<nat>): set<(nat, nat)> {
    set i | i in s :: (n, i)
  }

  lemma {:induction false} ColumnSize(n: nat, s: set<nat>)
    ensures |Column(n, s)| == |s|
    decreases s
  {
    if s == {} {
      assert Column(n, s) == {};
    } else {
      var x :| x in s;
      ColumnSize(n, s - {x});
      assert Column(n, s) == Column(n, s - {x}) + {(n, x)};
    }
  }

  lemma EntriesMore(chains: seq<seq<nat>>, v: nat)
    requires chains != []
    ensures var n := |chains| - 1;
            && Entries(chains, v) == Entries(chains[..n], v) + Column(n, Places(chains[n], v))
            && Entries(chains[..n], v) !! Column(n, Places(chains[n], v))
  {
    hide Places;
    var n := |chains| - 1;
    forall k | 0 <= k < n ensures chains[..n][k] == chains[k] {
    }
  }

  /** Each counter is the number of places, behind the first of a chain, that name the job. */
  lemma {:induction false} EntriesCounted(chains: seq<seq<nat>>, v: nat, u: set<nat>)
    requires forall c, x | c in chains && x in c :: x in u
    ensures InCount(AllEdges(chains), v, u) == |Entries(chains, v)|
    decreases |chains|
  {
    hide InCount, ChainEdges, Entries, Places, Column;
    if chains == [] {
      NothingCounted(v, u);
    } else {
      var n := |chains| - 1;
      var p, c := chains[..n], chains[n];
      assert c in chains;
      EntriesCounted(p, v, u);
      ChainCount(c, v, u);
      InCountAppended(AllEdges(p), ChainEdges(c), v, u);
      ColumnSize(n, Places(c, v));
      EntriesMore(chains, v);
    }
  }

  lemma NothingCounted(v: nat, u: set<nat>)
    ensures InCount([], v, u) == 0 && Entries([], v) == {}
  {
  }

  lemma LinksMore(chains: seq<seq<nat>>)
    requires chains != []
    ensures var n := |chains| - 1;
            && Links(chains) == Links(chains[..n]) + Column(n, Behind(|chains[n]|))
            && Links(chains[..n]) !! Column(n, Behind(|chains[n]|))
  {
    hide Behind;
    var n := |chains| - 1;
    forall k | 0 <= k < n ensures chains[..n][k] == chains[k] {
    }
  }

  lemma BehindSize(n: nat)
    ensures |Behind(n)| == if n == 0 then 0 else n - 1
  {
  }

  /** There is one edge for each place behind the first of a chain. */
  lemma {:induction false} LinksCounted(chains: seq<seq<nat>>)
    ensures |AllEdges(chains)| == |Links(chains)|
    decreases |chains|
  {
    hide Links, Behind, Column, ChainEdges;
    if chains == [] {
      NoLinks();
    } else {
      var n := |chains| - 1;
      LinksCounted(chains[..n]);
      BehindSize(|chains[n]|);
      ColumnSize(n, Behind(|chains[n]|));
      LinksMore(chains);
    }
  }

  lemma NoLinks()
    ensures Links([]) == {}
  {
  }

  lemma {:induction false} ChainsWithin(chains: seq<seq<nat>>, n: nat)
    requires forall c, v | c in chains && v in c :: v < n
    ensures Within(AllEdges(chains), n)
    decreases |chains|
  {
    if chains != [] {
      var p, c := chains[..|chains| - 1], chains[|chains| - 1];
      ChainsWithin(p, n);
      forall e | e in AllEdges(chains) ensures e.tail < n && e.head < n {
        if e in ChainEdges(c) {
          var i :| 0 <= i < |ChainEdges(c)| && ChainEdges(c)[i] == e;
          assert c[i] in c && c[i + 1] in c;
        }
      }
    }
  }

  lemma AllEdgesMore(chains: seq<seq<nat>>, i: nat)
    requires i < |chains|
    ensures AllEdges(chains[..i + 1]) == AllEdges(chains[..i]) + ChainEdges(chains[i])
  {
    assert chains[..i + 1][..i] == chains[..i];
  }

  /** The inner loop: an edge for each pair of neighbours in the chain. */
  method AddChain(before: seq<Edge>, c: seq<nat>) returns (edges: seq<Edge>)
    requires |c| >= 2
    ensures edges == before + ChainEdges(c)
  {
    edges := before;
    var k := 1;
    while k < |c|
      invariant 1 <= k <= |c| && edges == before + ChainEdges(c[..k])
    {
      assert c[..k + 1][..k] == c[..k];
      edges := edges + [Edge(c[k - 1], c[k])];
      k := k + 1;
    }
    assert c[..k] == c;
  }

  /** The loops over the chains: an edge for each pair of neighbours, unless a chain is too short. */
  method AddEdges(chains: seq<seq<nat>>) returns (ok: bool, edges: seq<Edge>)
    ensures ok <==> forall c | c in chains :: |c| >= 2
    ensures edges == if ok then AllEdges(chains) else []
  {
    edges := [];
    var i := 0;
    while i < |chains|
      invariant 0 <= i <= |chains| && edges == AllEdges(chains[..i])
      invariant forall k | 0 <= k < i :: |chains[k]| >= 2
    {
      hide AllEdges, ChainEdges;
      var c := chains[i];
      if |c| < 2 {
        assert c in chains;
        return false, [];
      }
      AllEdgesMore(chains, i);
      edges := AddChain(edges, c);
      i := i + 1;
    }
    assert chains[..i] == chains;
    ok := true;
  }

  /** `PrepareJobGraph` for `n` jobs whose chains are given by their indices: it accepts exactly the
      acyclic graphs of proper chains and counts for every job the edges that lead to it. */
  method PrepareJobGraph(chains: seq<seq<nat>>, n: nat) returns (ok: bool, edges: seq<Edge>, depends: seq<nat>)
    requires forall c, v | c in chains && v in c :: v < n
    ensures ok <==> Accepted(chains)
    ensures ok ==> edges == AllEdges(chains) && |edges| == |Links(chains)|
    ensures ok ==> forall e :: e in edges <==> Follows(chains, e.tail, e.head)
    ensures ok ==> |depends| == n && forall v | 0 <= v < n :: depends[v] == |Entries(chains, v)|
  {
    hide Cyclic, InCount, Follows, Loops, Links, Entries, AllEdges;
    depends := [];
    ok, edges := AddEdges(chains);
    LoopsAreCycles(chains);
    if !ok {
      return;
    }
    ChainsWithin(chains, n);
    LinksCounted(chains);
    var search := new CycleDetector(edges, n);
    search.Search();
    if search.hasCycle {
      return false, [], [];
    }
    ok := true;
    depends := InDegrees(edges, n);
    forall e ensures e in edges <==> Follows(chains, e.tail, e.head) {
      EdgeFollows(chains, e);
    }
    forall v | 0 <= v < n ensures depends[v] == |Entries(chains, v)| {
      EntriesCounted(chains, v, Below(n));
    }
  }

  method InDegrees(edges: seq<Edge>, n: nat) returns (depends: seq<nat>)
    requires Within(edges, n)
    ensures |depends| == n && forall v | 0 <= v < n :: depends[v] == InCount(edges, v, Below(n))
  {
    depends := seq(n, _ => 0);
    var i := 0;
    while i < |edges|
      invariant 0 <= i <= |edges| && |depends| == n
      invariant forall v | 0 <= v < n :: depends[v] == InCount(edges[..i], v, Below(n))
    {
      assert edges[..i + 1][..i] == edges[..i] && edges[i] in edges;
      var w := edges[i].head;
      depends := depends[w := depends[w] + 1];
      i := i + 1;
    }
    assert edges[..i] == edges;
  }
}
