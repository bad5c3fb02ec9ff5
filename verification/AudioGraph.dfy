/** The client's logical audio routing graph: nodes joined by normal and bypass
    links, kept free of cycles by a breadth-first search on every insertion. */
module AudioGraph {

  datatype Option<+T> = None | Some(value: T)

  datatype NodeKind = Source | Processor | Mixer | Sink
  datatype LinkKind = Normal | Bypass
  datatype Health = Stopped | Starting | Healthy | Failed

  datatype Node = Node(id: string, kind: NodeKind, health: Health, route: char)
  datatype Edge = Edge(src: nat, dst: nat, kind: LinkKind, channels: nat)

  /** The whole state of a graph as a value. */
  datatype State = State(nodes: seq<Node>, edges: seq<Edge>)

  const MAX_NODES: nat := 256
  const MAX_EDGES: nat := 512
  const MAX_ID: nat := 64
  const STEREO: nat := 3

  // ---------------------------------------------------------------- paths

  ghost predicate Linked(edges: seq<Edge>, u: nat, v: nat) {
    exists e :: e in edges && e.src == u && e.dst == v
  }

  ghost predicate IsPath(edges: seq<Edge>, p: seq<nat>) {
    |p| > 0 && forall i :: 0 <= i < |p| - 1 ==> Linked(edges, p[i], p[i + 1])
  }

  ghost predicate Joins(edges: seq<Edge>, p: seq<nat>, u: nat, v: nat) {
    IsPath(edges, p) && p[0] == u && p[|p| - 1] == v
  }

  ghost predicate Reachable(edges: seq<Edge>, u: nat, v: nat) {
    exists p :: Joins(edges, p, u, v)
  }

  /** No path with at least one step comes back to where it started. */
  ghost predicate Acyclic(edges: seq<Edge>) {
    forall p :: IsPath(edges, p) && |p| > 1 ==> p[0] != p[|p| - 1]
  }

  lemma ReachableStep(edges: seq<Edge>, u: nat, e: Edge)
    requires Reachable(edges, u, e.src) && e in edges
    ensures Reachable(edges, u, e.dst)
  {
    var p :| Joins(edges, p, u, e.src);
    var q := p + [e.dst];
    assert Linked(edges, e.src, e.dst);
    assert Joins(edges, q, u, e.dst);
  }

  /** A set that holds the first vertex of a path and is closed under links holds the last one. */
  lemma {:induction false} PathStaysInside(edges: seq<Edge>, p: seq<nat>, inside: set<nat>)
    requires IsPath(edges, p) && p[0] in inside
    requires forall e :: e in edges && e.src in inside ==> e.dst in inside
    ensures p[|p| - 1] in inside
    decreases |p|
  {
    if |p| > 1 {
      assert Linked(edges, p[0], p[1]);
      assert p[1..][0] == p[1];
      forall i | 0 <= i < |p[1..]| - 1 ensures Linked(edges, p[1..][i], p[1..][i + 1]) {
        assert Linked(edges, p[i + 1], p[i + 1 + 1]);
      }
      PathStaysInside(edges, p[1..], inside);
    }
  }

  lemma {:induction false} DistinctBelow(s: seq<nat>, n: nat)
    requires forall i :: 0 <= i < |s| ==> s[i] < n
    requires forall i, j :: 0 <= i < j < |s| ==> s[i] != s[j]
    ensures |s| <= n
    decreases n
  {
    if |s| > 0 {
      assert s[0] < n;
      if n - 1 in s {
        var k :| 0 <= k < |s| && s[k] == n - 1;
        var t := s[..k] + s[k + 1..];
        forall i | 0 <= i < |t| ensures t[i] < n - 1 {
          assert t[i] == if i < k then s[i] else s[i + 1];
        }
        DistinctBelow(t, n - 1);
      } else {
        forall i | 0 <= i < |s| ensures s[i] < n - 1 {
          assert s[i] in s;
        }
        DistinctBelow(s, n - 1);
      }
    }
  }

  /** Along a path of an acyclic graph no vertex repeats, so a path is no longer than the vertex count. */
  lemma PathBound(edges: seq<Edge>, p: seq<nat>, n: nat)
    requires Acyclic(edges) && IsPath(edges, p)
    requires forall i :: 0 <= i < |p| ==> p[i] < n
    ensures |p| <= n
  {
    forall i, j | 0 <= i < j < |p| ensures p[i] != p[j] {
      var q := p[i..j + 1];
      forall k | 0 <= k < |q| - 1 ensures Linked(edges, q[k], q[k + 1]) {
        assert Linked(edges, p[i + k], p[i + k + 1]);
      }
      assert IsPath(edges, q);
    }
    DistinctBelow(p, n);
  }

  /** Adding a link between different nodes keeps an acyclic graph acyclic exactly when its head did not reach its tail. */
  lemma LinkClosesCycle(edges: seq<Edge>, e: Edge)
    requires Acyclic(edges) && e.src != e.dst
    ensures Acyclic(edges + [e]) <==> !Reachable(edges, e.dst, e.src)
  {
    var extended := edges + [e];
    if Reachable(edges, e.dst, e.src) {
      var p :| Joins(edges, p, e.dst, e.src);
      var q := [e.src] + p;
      assert e in extended;
      forall i | 0 <= i < |q| - 1 ensures Linked(extended, q[i], q[i + 1]) {
        if i > 0 {
          assert Linked(edges, p[i - 1], p[i]);
        }
      }
      assert IsPath(extended, q) && q[0] == q[|q| - 1];
    } else {
      forall p | IsPath(extended, p) && |p| > 1 ensures p[0] != p[|p| - 1] {
        if p[0] == p[|p| - 1] {
          CycleUsesNewLink(edges, e, p);
          assert false;
        }
      }
    }
  }

  lemma ReachableTransitive(edges: seq<Edge>, u: nat, v: nat, w: nat)
    requires Reachable(edges, u, v) && Reachable(edges, v, w)
    ensures Reachable(edges, u, w)
  {
    var p :| Joins(edges, p, u, v);
    var q :| Joins(edges, q, v, w);
    var r := p + q[1..];
    forall i | 0 <= i < |r| - 1 ensures Linked(edges, r[i], r[i + 1]) {
      if i < |p| - 1 {
        assert Linked(edges, p[i], p[i + 1]);
      } else {
        var k := i - (|p| - 1);
        assert Linked(edges, q[k], q[k + 1]);
      }
    }
    assert Joins(edges, r, u, w);
  }

  /** A path over old links and one new link either avoids the new link, or reaches its tail
      and leaves its head over old links only. */
  lemma {:induction false} PathSplitsAtNewLink(edges: seq<Edge>, e: Edge, p: seq<nat>)
    requires IsPath(edges + [e], p)
    ensures IsPath(edges, p)
         || (Reachable(edges, p[0], e.src) && Reachable(edges, e.dst, p[|p| - 1]))
    decreases |p|
  {
    if |p| > 1 {
      var rest := p[1..];
      assert Linked(edges + [e], p[0], p[1]);
      forall i | 0 <= i < |rest| - 1 ensures Linked(edges + [e], rest[i], rest[i + 1]) {
        assert Linked(edges + [e], p[i + 1], p[i + 1 + 1]);
      }
      PathSplitsAtNewLink(edges, e, rest);
      if Linked(edges, p[0], p[1]) {
        if IsPath(edges, rest) {
          forall i | 0 <= i < |p| - 1 ensures Linked(edges, p[i], p[i + 1]) {
            if i > 0 {
              assert Linked(edges, rest[i - 1], rest[i]);
            }
          }
        } else {
          assert Joins(edges, [p[0], p[1]], p[0], p[1]);
          ReachableTransitive(edges, p[0], p[1], e.src);
        }
      } else {
        assert p[0] == e.src && p[1] == e.dst;
        assert Joins(edges, [p[0]], p[0], e.src);
        if IsPath(edges, rest) {
          assert Joins(edges, rest, e.dst, p[|p| - 1]);
        }
      }
    }
  }

  lemma CycleUsesNewLink(edges: seq<Edge>, e: Edge, p: seq<nat>)
    requires Acyclic(edges)
    requires IsPath(edges + [e], p) && |p| > 1 && p[0] == p[|p| - 1]
    ensures Reachable(edges, e.dst, e.src)
  {
    PathSplitsAtNewLink(edges, e, p);
    ReachableTransitive(edges, e.dst, p[0], e.src);
  }

  // ---------------------------------------------------------------- the abstract graph

  ghost predicate WellFormed(g: State) {
    && |g.nodes| <= MAX_NODES && |g.edges| <= MAX_EDGES
    && (forall i :: 0 <= i < |g.nodes| ==> 0 < |g.nodes[i].id| < MAX_ID)
    && (forall i, j :: 0 <= i < j < |g.nodes| ==> g.nodes[i].id != g.nodes[j].id)
    && (forall e :: e in g.edges ==> EdgeFits(g.nodes, e))
    && (forall i, j :: 0 <= i < j < |g.edges| ==> !SameInput(g.nodes, g.edges[i], g.edges[j]))
    && Acyclic(g.edges)
  }

  predicate EdgeFits(nodes: seq<Node>, e: Edge) {
    && e.src < |nodes| && e.dst < |nodes| && e.src != e.dst
    && nodes[e.src].kind != Sink && nodes[e.dst].kind != Source
    && 0 < e.channels <= STEREO
  }

  /** Two links that the arbitration of inputs could not tell apart. */
  predicate SameInput(nodes: seq<Node>, e: Edge, f: Edge) {
    && e.dst == f.dst && e.kind == f.kind
    && (e.src == f.src || (e.dst < |nodes| && nodes[e.dst].kind != Mixer))
  }

  function IndexOf(nodes: seq<Node>, id: string): (r: Option<nat>)
    ensures r.Some? ==> r.value < |nodes| && nodes[r.value].id == id
    ensures r.None? ==> forall i :: 0 <= i < |nodes| ==> nodes[i].id != id
  {
    if nodes == [] then None
    else if nodes[0].id == id then Some(0)
    else
      match IndexOf(nodes[1..], id)
      case None => None
      case Some(i) => assert nodes[1..][i] == nodes[i + 1]; Some(i + 1)
  }

  predicate NodeAccepted(g: State, id: string) {
    0 < |id| < MAX_ID && IndexOf(g.nodes, id).None? && |g.nodes| < MAX_NODES
  }

  /** Every reason to refuse a link, apart from the search for a cycle. */
  predicate LinkPlausible(g: State, a: Option<nat>, b: Option<nat>, kind: LinkKind, channels: nat) {
    && a.Some? && b.Some? && a.value != b.value
    && a.value < |g.nodes| && b.value < |g.nodes|
    && 0 < channels <= STEREO && |g.edges| < MAX_EDGES
    && g.nodes[a.value].kind != Sink && g.nodes[b.value].kind != Source
    && forall e :: e in g.edges ==> !SameInput(g.nodes, e, Edge(a.value, b.value, kind, channels))
  }

  /** A link is accepted when nothing else speaks against it and the graph it leads to has no cycle. */
  ghost predicate LinkAccepted(g: State, src: string, dst: string, kind: LinkKind, channels: nat) {
    var a, b := IndexOf(g.nodes, src), IndexOf(g.nodes, dst);
    LinkPlausible(g, a, b, kind, channels) && Acyclic(g.edges + [Edge(a.value, b.value, kind, channels)])
  }

  datatype Op =
    | AddNode(id: string, kind: NodeKind)
    | AddLink(src: string, dst: string, link: LinkKind, channels: nat)
    | SetHealth(name: string, health: Health)
    | SetRoute(target: string, route: char)

  ghost function Apply(g: State, op: Op): State {
    match op
    case AddNode(id, kind) =>
      if NodeAccepted(g, id) then g.(nodes := g.nodes + [Node(id, kind, Stopped, '\0')]) else g
    case AddLink(src, dst, kind, channels) =>
      if LinkAccepted(g, src, dst, kind, channels) then
        g.(edges := g.edges + [Edge(IndexOf(g.nodes, src).value, IndexOf(g.nodes, dst).value, kind, channels)])
      else g
    case SetHealth(id, health) =>
      (match IndexOf(g.nodes, id)
       case None => g
       case Some(i) => g.(nodes := g.nodes[i := g.nodes[i].(health := health)]))
    case SetRoute(id, route) =>
      (match IndexOf(g.nodes, id)
       case None => g
       case Some(i) =>
         if route in "LRSM\0" then g.(nodes := g.nodes[i := g.nodes[i].(route := route)]) else g)
  }

  /** A new node stands at the end, stopped and without route, under a new name of at most 63 bytes. */
  lemma NodeAdded(g: State, id: string, kind: NodeKind)
    ensures Apply(g, AddNode(id, kind)) ==
            if 0 < |id| <= 63 && |g.nodes| < 256 && (forall i :: 0 <= i < |g.nodes| ==> g.nodes[i].id != id)
            then g.(nodes := g.nodes + [Node(id, kind, Stopped, '\0')]) else g
  {
  }

  /** Health and route are set for the node of that name and no other, routes to one of four letters or none. */
  lemma MarksSet(g: State, i: nat, health: Health, route: char)
    requires WellFormed(g) && i < |g.nodes|
    ensures var n := g.nodes[i];
            && Apply(g, SetHealth(n.id, health)) == g.(nodes := g.nodes[i := Node(n.id, n.kind, health, n.route)])
            && Apply(g, SetRoute(n.id, route)) ==
               if route in {'L', 'R', 'S', 'M', '\0'} then g.(nodes := g.nodes[i := Node(n.id, n.kind, n.health, route)]) else g
  {
    assert IndexOf(g.nodes, g.nodes[i].id) == Some(i);
    assert "LRSM\0"[0] == 'L' && "LRSM\0"[1] == 'R' && "LRSM\0"[2] == 'S' && "LRSM\0"[3] == 'M' && "LRSM\0"[4] == '\0';
  }

  /** A link between two nodes is added exactly if there is room, it does not leave a sink or enter a source, carries at
      least one of two channels, closes no cycle, and competes with no other link of its kind. */
  lemma LinkAddedIff(g: State, u: nat, v: nat, kind: LinkKind, channels: nat)
    requires WellFormed(g) && u < |g.nodes| && v < |g.nodes|
    ensures Apply(g, AddLink(g.nodes[u].id, g.nodes[v].id, kind, channels)) ==
            if && u != v && |g.edges| < 512 && 1 <= channels <= 3
               && g.nodes[u].kind != Sink && g.nodes[v].kind != Source && !Reachable(g.edges, v, u)
               && forall e :: e in g.edges && e.dst == v && e.kind == kind ==> g.nodes[v].kind == Mixer && e.src != u
            then g.(edges := g.edges + [Edge(u, v, kind, channels)]) else g
  {
    assert IndexOf(g.nodes, g.nodes[u].id) == Some(u) && IndexOf(g.nodes, g.nodes[v].id) == Some(v);
    if u != v {
      LinkClosesCycle(g.edges, Edge(u, v, kind, channels));
    }
  }

  ghost function Run(g: State, ops: seq<Op>): State
    decreases |ops|
  {
    if ops == [] then g else Run(Apply(g, ops[0]), ops[1..])
  }

  lemma NodeKeepsWellFormed(g: State, node: Node)
    requires WellFormed(g) && NodeAccepted(g, node.id)
    ensures WellFormed(g.(nodes := g.nodes + [node]))
  {
    var h := g.(nodes := g.nodes + [node]);
    forall e | e in h.edges ensures EdgeFits(h.nodes, e) {
      assert EdgeFits(g.nodes, e);
    }
    forall i, j | 0 <= i < j < |h.edges| ensures !SameInput(h.nodes, h.edges[i], h.edges[j]) {
      assert EdgeFits(g.nodes, g.edges[i]) && !SameInput(g.nodes, g.edges[i], g.edges[j]);
    }
  }

  lemma MarkKeepsWellFormed(g: State, i: nat, node: Node)
    requires WellFormed(g) && i < |g.nodes|
    requires node.id == g.nodes[i].id && node.kind == g.nodes[i].kind
    ensures WellFormed(g.(nodes := g.nodes[i := node]))
  {
    var h := g.(nodes := g.nodes[i := node]);
    forall e | e in h.edges ensures EdgeFits(h.nodes, e) {
      assert EdgeFits(g.nodes, e);
    }
    forall i, j | 0 <= i < j < |h.edges| ensures !SameInput(h.nodes, h.edges[i], h.edges[j]) {
      assert !SameInput(g.nodes, g.edges[i], g.edges[j]);
    }
  }

  lemma LinkKeepsWellFormed(g: State, link: Edge)
    requires WellFormed(g) && Acyclic(g.edges + [link])
    requires LinkPlausible(g, Some(link.src), Some(link.dst), link.kind, link.channels)
    ensures WellFormed(g.(edges := g.edges + [link]))
  {
    var h := g.(edges := g.edges + [link]);
    assert EdgeFits(g.nodes, link);
    forall i, j | 0 <= i < j < |h.edges| ensures !SameInput(h.nodes, h.edges[i], h.edges[j]) {
      assert h.edges[i] == g.edges[i] && g.edges[i] in g.edges;
    }
  }

  lemma StepKeepsWellFormed(g: State, op: Op)
    requires WellFormed(g)
    ensures WellFormed(Apply(g, op))
  {
    match op
    case AddNode(id, kind) =>
      if NodeAccepted(g, id) { NodeKeepsWellFormed(g, Node(id, kind, Stopped, '\0')); }
    case AddLink(src, dst, kind, channels) =>
      var a, b := IndexOf(g.nodes, src), IndexOf(g.nodes, dst);
      if LinkPlausible(g, a, b, kind, channels) && Acyclic(g.edges + [Edge(a.value, b.value, kind, channels)]) {
        LinkKeepsWellFormed(g, Edge(a.value, b.value, kind, channels));
      }
    case SetHealth(id, health) =>
      var i := IndexOf(g.nodes, id);
      if i.Some? { MarkKeepsWellFormed(g, i.value, g.nodes[i.value].(health := health)); }
    case SetRoute(id, route) =>
      var i := IndexOf(g.nodes, id);
      if i.Some? { MarkKeepsWellFormed(g, i.value, g.nodes[i.value].(route := route)); }
  }

  /** Whatever is added, refused or marked, in any order, the graph never has a cycle,
      over normal and bypass links together, and inputs never collide. */
  lemma {:induction false} EveryRunWellFormed(g: State, ops: seq<Op>)
    requires WellFormed(g)
    ensures WellFormed(Run(g, ops))
    decreases |ops|
  {
    if ops != [] {
      StepKeepsWellFormed(g, ops[0]);
      EveryRunWellFormed(Apply(g, ops[0]), ops[1..]);
    }
  }

  // ---------------------------------------------------------------- input arbitration

  /** The source of the last link of the given kind into a node. */
  function LastSource(edges: seq<Edge>, dst: nat, kind: LinkKind): (r: Option<nat>)
    ensures r.Some? ==> exists e :: e in edges && e.src == r.value && e.dst == dst && e.kind == kind
    ensures r.None? ==> forall e :: e in edges ==> e.dst != dst || e.kind != kind
  {
    if edges == [] then None
    else
      var last := edges[|edges| - 1];
      assert edges == edges[..|edges| - 1] + [last];
      if last.dst == dst && last.kind == kind then assert last in edges; Some(last.src)
      else LastSource(edges[..|edges| - 1], dst, kind)
  }

  function Select(nodes: seq<Node>, normal: Option<nat>, fallback: Option<nat>): Option<nat>
    requires normal.Some? ==> normal.value < |nodes|
    requires fallback.Some? ==> fallback.value < |nodes|
  {
    if normal.Some? && nodes[normal.value].health != Failed then normal
    else if normal.Some? && fallback.Some? && nodes[fallback.value].health == Healthy then fallback
    else None
  }

  function Input(g: State, dst: string): Option<nat>
    requires forall e :: e in g.edges ==> EdgeFits(g.nodes, e)
  {
    match IndexOf(g.nodes, dst)
    case None => None
    case Some(i) =>
      if g.nodes[i].kind == Mixer then None
      else
        var normal, fallback := LastSource(g.edges, i, Normal), LastSource(g.edges, i, Bypass);
        assert normal.Some? ==> exists e :: e in g.edges && e.src == normal.value && EdgeFits(g.nodes, e);
        assert fallback.Some? ==> exists e :: e in g.edges && e.src == fallback.value && EdgeFits(g.nodes, e);
        Select(g.nodes, normal, fallback)
  }

  ghost predicate Feeds(g: State, u: nat, v: nat, kind: LinkKind) {
    exists e :: e in g.edges && e.src == u && e.dst == v && e.kind == kind
  }

  /** The last source of a kind is the only one, unless the node is a mixer. */
  lemma OneSource(g: State, u: nat, v: nat, kind: LinkKind)
    requires WellFormed(g) && v < |g.nodes| && g.nodes[v].kind != Mixer
    ensures LastSource(g.edges, v, kind) == Some(u) <==> Feeds(g, u, v, kind)
  {
    var last := LastSource(g.edges, v, kind);
    if Feeds(g, u, v, kind) {
      var e :| e in g.edges && e.src == u && e.dst == v && e.kind == kind;
      var f :| f in g.edges && f.src == last.value && f.dst == v && f.kind == kind;
      var i :| 0 <= i < |g.edges| && g.edges[i] == e;
      var j :| 0 <= j < |g.edges| && g.edges[j] == f;
      assert SameInput(g.nodes, e, f) && SameInput(g.nodes, f, e);
      assert i == j;
    }
  }

  /** A single-input node hears its normal source unless that has failed, and only then a healthy bypass;
      a mixer, and a node with neither, hears no selected input. */
  lemma InputMeaning(g: State, v: nat, u: nat)
    requires WellFormed(g) && v < |g.nodes|
    ensures Input(g, g.nodes[v].id) == Some(u) <==>
              && g.nodes[v].kind != Mixer && u < |g.nodes|
              && ((Feeds(g, u, v, Normal) && g.nodes[u].health != Failed)
                  || (Feeds(g, u, v, Bypass) && g.nodes[u].health == Healthy
                      && exists w: nat :: w < |g.nodes| && Feeds(g, w, v, Normal) && g.nodes[w].health == Failed))
  {
    assert IndexOf(g.nodes, g.nodes[v].id) == Some(v);
    if g.nodes[v].kind != Mixer {
      forall w: nat, kind: LinkKind ensures LastSource(g.edges, v, kind) == Some(w) <==> Feeds(g, w, v, kind) {
        OneSource(g, w, v, kind);
      }
      assert forall w: nat, kind: LinkKind :: Feeds(g, w, v, kind) ==> w < |g.nodes| by {
        assert forall e :: e in g.edges ==> EdgeFits(g.nodes, e);
      }
    }
  }

  lemma InputIsLinked(g: State, v: nat, u: nat)
    requires WellFormed(g) && v < |g.nodes| && Input(g, g.nodes[v].id) == Some(u)
    ensures Linked(g.edges, u, v)
  {
    InputMeaning(g, v, u);
    assert Feeds(g, u, v, Normal) || Feeds(g, u, v, Bypass);
  }

  /** A chain of nodes, each followed by its selected input. */
  ghost predicate InputChain(g: State, chain: seq<nat>)
    requires WellFormed(g)
  {
    && |chain| > 0
    && (forall i :: 0 <= i < |chain| ==> chain[i] < |g.nodes|)
    && (forall i :: 0 <= i < |chain| - 1 ==> Input(g, g.nodes[chain[i]].id) == Some(chain[i + 1]))
  }

  function Reversed(s: seq<nat>): (r: seq<nat>)
    ensures |r| == |s| && forall i :: 0 <= i < |s| ==> r[i] == s[|s| - 1 - i]
  {
    seq(|s|, i requires 0 <= i < |s| => s[|s| - 1 - i])
  }

  lemma InputChainIsPath(g: State, chain: seq<nat>)
    requires WellFormed(g) && InputChain(g, chain)
    ensures IsPath(g.edges, Reversed(chain))
  {
    var p := Reversed(chain);
    forall i | 0 <= i < |p| - 1 ensures Linked(g.edges, p[i], p[i + 1]) {
      var k := |chain| - 2 - i;
      assert Input(g, g.nodes[chain[k]].id) == Some(chain[k + 1]);
      InputIsLinked(g, chain[k], chain[k + 1]);
    }
  }

  /** Following selected inputs upstream ends within as many nodes as the graph has, whatever the health of its nodes. */
  lemma InputChainEnds(g: State, chain: seq<nat>)
    requires WellFormed(g) && InputChain(g, chain)
    ensures |chain| <= |g.nodes|
  {
    InputChainIsPath(g, chain);
    PathBound(g.edges, Reversed(chain), |g.nodes|);
  }

  // ---------------------------------------------------------------- the search

  /** What a search has found: the queue lists the visited nodes once each, all of them reachable. */
  ghost predicate Searched(edges: seq<Edge>, start: nat, queue: seq<nat>, visited: seq<bool>) {
    && |visited| == MAX_NODES
    && (forall i :: 0 <= i < |queue| ==> queue[i] < MAX_NODES && visited[queue[i]])
    && (forall i :: 0 <= i < |queue| ==> Reachable(edges, start, queue[i]))
    && (forall i, j :: 0 <= i < j < |queue| ==> queue[i] != queue[j])
    && (forall v: nat :: v < MAX_NODES && visited[v] ==> v in queue)
  }

  ghost predicate Covers(before: seq<bool>, after: seq<bool>) {
    |before| <= |after| && forall v :: 0 <= v < |before| && before[v] ==> after[v]
  }

  /** All successors of the given nodes have been visited. */
  ghost predicate Expanded(edges: seq<Edge>, done: seq<nat>, visited: seq<bool>)
    requires |visited| == MAX_NODES
  {
    forall e :: e in edges && e.src in done ==> e.dst < MAX_NODES && visited[e.dst]
  }

  /** An unvisited node still fits into the queue, because the queued ones are all different. */
  lemma EnqueueKeepsSearched(edges: seq<Edge>, start: nat, queue: seq<nat>, visited: seq<bool>, e: Edge)
    requires Searched(edges, start, queue, visited)
    requires e in edges && e.dst < MAX_NODES && !visited[e.dst] && e.src in queue
    ensures |queue| < MAX_NODES
    ensures Searched(edges, start, queue + [e.dst], visited[e.dst := true])
  {
    ReachableStep(edges, start, e);
    var q := queue + [e.dst];
    forall i, j | 0 <= i < j < |q| ensures q[i] != q[j] {
      if j == |queue| {
        assert visited[queue[i]];
      }
    }
    DistinctBelow(q, MAX_NODES);
  }

  /** A search that ran dry without meeting the target proves there is no path to it. */
  lemma DryMeansUnreachable(edges: seq<Edge>, start: nat, target: nat, queue: seq<nat>, visited: seq<bool>)
    requires Searched(edges, start, queue, visited) && Expanded(edges, queue, visited)
    requires start in queue && target !in queue
    ensures !Reachable(edges, start, target)
  {
    if Reachable(edges, start, target) {
      var p :| Joins(edges, p, start, target);
      PathStaysInside(edges, p, set v | v in queue);
      assert false;
    }
  }

  // ---------------------------------------------------------------- the graph object

  /** The growing node and edge arrays of the graph. */
  class Graph {
    var nodes: seq<Node>
    var edges: seq<Edge>

    ghost function View(): State
      reads this
    {
      State(nodes, edges)
    }

    ghost predicate Valid()
      reads this
    {
      WellFormed(View())
    }

    constructor ()
      ensures Valid() && View() == State([], [])
    {
      nodes, edges := [], [];
      new;
      assert forall p :: IsPath(edges, p) && |p| > 1 ==> Linked(edges, p[0], p[0 + 1]);
    }

    method Lookup(id: string) returns (r: Option<nat>)
      ensures r == IndexOf(nodes, id)
    {
      var i := 0;
      while i < |nodes|
        invariant 0 <= i <= |nodes|
        invariant IndexOf(nodes, id) == match IndexOf(nodes[i..], id) case None => None case Some(k) => Some(i + k)
      {
        assert nodes[i..][0] == nodes[i] && nodes[i..][1..] == nodes[i + 1..];
        if nodes[i].id == id {
          return Some(i);
        }
        i := i + 1;
      }
      return None;
    }

    method AddNode(id: string, kind: NodeKind) returns (ok: bool)
      requires Valid()
      modifies this
      ensures Valid() && View() == Apply(old(View()), Op.AddNode(id, kind))
      ensures ok <==> NodeAccepted(old(View()), id)
    {
      StepKeepsWellFormed(View(), Op.AddNode(id, kind));
      var found := Lookup(id);
      if |id| == 0 || |id| >= MAX_ID || found.Some? || |nodes| >= MAX_NODES {
        return false;
      }
      nodes := nodes + [Node(id, kind, Stopped, '\0')];
      return true;
    }

    /** The breadth-first search; its queue has room for every node because no node enters it twice. */
    method Reaches(start: nat, target: nat) returns (found: bool)
      requires start < |nodes| <= MAX_NODES
      requires forall e :: e in edges ==> EdgeFits(nodes, e)
      ensures found <==> Reachable(edges, start, target)
    {
      var visited := new bool[MAX_NODES](_ => false);
      var queue := new nat[MAX_NODES](_ => 0);
      var head, tail := 0, 1;
      queue[0] := start;
      visited[start] := true;
      assert Joins(edges, [start], start, start);
      assert queue[..tail] == [start];
      while head < tail
        invariant 0 <= head <= tail <= MAX_NODES
        invariant Searched(edges, start, queue[..tail], visited[..])
        invariant Expanded(edges, queue[..head], visited[..])
        invariant start in queue[..tail] && target !in queue[..head]
        decreases MAX_NODES - head
      {
        var current := queue[head];
        if current == target {
          assert Reachable(edges, start, queue[..tail][head]);
          return true;
        }
        ghost var done := queue[..head];
        tail := VisitSuccessors(visited, queue, start, current, tail);
        assert queue[..head] == done;
        assert queue[..head + 1] == done + [current];
        head := head + 1;
      }
      DryMeansUnreachable(edges, start, target, queue[..tail], visited[..]);
      return false;
    }

    /** Queues the successors of a queued node that were not visited before. */
    method VisitSuccessors(visited: array<bool>, queue: array<nat>, ghost start: nat, current: nat, tail: nat)
      returns (end: nat)
      requires visited as object != queue && visited.Length == queue.Length == MAX_NODES && tail <= MAX_NODES
      requires |nodes| <= MAX_NODES && forall e :: e in edges ==> EdgeFits(nodes, e)
      requires Searched(edges, start, queue[..tail], visited[..]) && current in queue[..tail]
      modifies visited, queue
      ensures tail <= end <= MAX_NODES && queue[..tail] == old(queue[..tail])
      ensures Searched(edges, start, queue[..end], visited[..])
      ensures Expanded(edges, [current], visited[..]) && Covers(old(visited[..]), visited[..])
    {
      end := tail;
      ghost var known := queue[..tail];
      for i := 0 to |edges|
        invariant tail <= end <= MAX_NODES && queue[..tail] == known
        invariant Searched(edges, start, queue[..end], visited[..])
        invariant Expanded(edges[..i], [current], visited[..]) && Covers(old(visited[..]), visited[..])
      {
        var e := edges[i];
        assert EdgeFits(nodes, e) && edges[..i + 1] == edges[..i] + [e];
        if e.src == current && !visited[e.dst] {
          assert queue[..end][..tail] == known;
          EnqueueKeepsSearched(edges, start, queue[..end], visited[..], e);
          Enqueue(visited, queue, e.dst, end);
          end := end + 1;
        }
      }
      assert edges[..|edges|] == edges;
    }

    method Enqueue(visited: array<bool>, queue: array<nat>, v: nat, end: nat)
      requires visited as object != queue && visited.Length == queue.Length == MAX_NODES
      requires v < MAX_NODES && end < MAX_NODES
      modifies visited, queue
      ensures visited[..] == old(visited[..])[v := true]
      ensures queue[..end + 1] == old(queue[..end]) + [v] && queue[..end] == old(queue[..end])
    {
      visited[v] := true;
      queue[end] := v;
    }

    method AddChannelLink(src: string, dst: string, kind: LinkKind, channels: nat) returns (ok: bool)
      requires Valid()
      modifies this
      ensures Valid() && View() == Apply(old(View()), AddLink(src, dst, kind, channels))
      ensures ok <==> LinkAccepted(old(View()), src, dst, kind, channels)
    {
      StepKeepsWellFormed(View(), AddLink(src, dst, kind, channels));
      var a := Lookup(src);
      var b := Lookup(dst);
      if a.None? || b.None? || a == b || channels == 0 || channels > STEREO || |edges| >= MAX_EDGES {
        return false;
      }
      var to := nodes[b.value];
      if nodes[a.value].kind == Sink || to.kind == Source {
        return false;
      }
      var link := Edge(a.value, b.value, kind, channels);
      LinkClosesCycle(edges, link);
      var cycle := Reaches(b.value, a.value);
      if cycle {
        return false;
      }
      var taken := InputTaken(link);
      if taken {
        return false;
      }
      edges := edges + [link];
      return true;
    }

    /** Inputs have separate normal and bypass arbitration, and only mixers take two of a kind. */
    method InputTaken(link: Edge) returns (taken: bool)
      requires link.dst < |nodes|
      ensures taken <==> exists e :: e in edges && SameInput(nodes, e, link)
    {
      for i := 0 to |edges|
        invariant forall e :: e in edges[..i] ==> !SameInput(nodes, e, link)
      {
        var e := edges[i];
        if (e.src == link.src && e.dst == link.dst && e.kind == link.kind)
           || (nodes[link.dst].kind != Mixer && e.dst == link.dst && e.kind == link.kind) {
          assert SameInput(nodes, e, link);
          return true;
        }
      }
      return false;
    }

    method SetHealth(id: string, health: Health) returns (ok: bool)
      requires Valid()
      modifies this
      ensures Valid() && View() == Apply(old(View()), Op.SetHealth(id, health))
      ensures ok <==> IndexOf(old(nodes), id).Some?
    {
      StepKeepsWellFormed(View(), Op.SetHealth(id, health));
      var index := Lookup(id);
      if index.None? {
        return false;
      }
      nodes := nodes[index.value := nodes[index.value].(health := health)];
      return true;
    }

    /** An empty route passes as well: the search for it in the list of letters finds the list's own end. */
    method SetRoute(id: string, route: char) returns (ok: bool)
      requires Valid()
      modifies this
      ensures Valid() && View() == Apply(old(View()), Op.SetRoute(id, route))
      ensures ok <==> IndexOf(old(nodes), id).Some? && route in "LRSM\0"
    {
      StepKeepsWellFormed(View(), Op.SetRoute(id, route));
      var index := Lookup(id);
      if index.None? || route !in "LRSM\0" {
        return false;
      }
      nodes := nodes[index.value := nodes[index.value].(route := route)];
      return true;
    }

    method SelectedInput(dst: string) returns (id: Option<string>)
      requires forall e :: e in edges ==> EdgeFits(nodes, e)
      ensures id == match Input(View(), dst) case None => None case Some(u) => Some(nodes[u].id)
    {
      var index := Lookup(dst);
      if index.None? || nodes[index.value].kind == Mixer {
        return None;
      }
      var normal, fallback: Option<nat> := None, None;
      for i := 0 to |edges|
        invariant normal == LastSource(edges[..i], index.value, Normal)
        invariant fallback == LastSource(edges[..i], index.value, Bypass)
      {
        var e := edges[i];
        assert edges[..i + 1][..i] == edges[..i];
        if e.dst == index.value {
          if e.kind == Normal {
            normal := Some(e.src);
          } else {
            fallback := Some(e.src);
          }
        }
      }
      assert edges[..|edges|] == edges;
      if normal.Some? && nodes[normal.value].health != Failed {
        return Some(nodes[normal.value].id);
      }
      if normal.Some? && nodes[normal.value].health == Failed
         && fallback.Some? && nodes[fallback.value].health == Healthy {
        return Some(nodes[fallback.value].id);
      }
      return None;
    }
  }
}
