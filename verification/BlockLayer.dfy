/**
  The graph operations of qemu/block.c as a whole: each edits the graph inside a
  transaction, refreshes permissions in one topological pass, and commits or
  rolls back.  Throughout, the graph stays acyclic and every reference is
  accounted for.
*/
module BlockLayer {
  import opened Options
  import opened BlockGraph
  import opened GraphTransaction
  import opened GraphWalks
  import opened Permissions

  /** A driver without .bdrv_child_perm has no children. */
  predicate DriversFit(d: Drivers, g: Graph) {
    forall e :: e in g.edges && g.edges[e].parent.Bds? && g.edges[e].bs.Some? ==>
      d.hasDriver(g.edges[e].parent.node) ==> d.hasChildPerm(g.edges[e].parent.node)
  }

  lemma OnlyPermsTrans(g: Graph, h: Graph, k: Graph, a: set<EdgeId>, b: set<EdgeId>)
    requires OnlyPermsChange(g, h, a) && OnlyPermsChange(h, k, b)
    ensures OnlyPermsChange(g, k, a + b)
  {
  }

  /** An acyclic graph has no edge from a node to itself. */
  lemma NotOwnChild(g: Graph, n: Node)
    requires Acyclic(g)
    ensures Children(g, n) !! Parents(g, n)
  {
    if e :| e in Children(g, n) && e in Parents(g, n) {
      assert Child(g, n, n);
      NoWayBack(g, n, n);
      ReachSelf(g, n);
    }
  }

  /** Freeing detached edges changes nothing that permissions or walks look at. */
  ghost predicate FreesOnlyDetached(g: Graph, h: Graph) {
    && h.nodes == g.nodes && h.edges.Keys <= g.edges.Keys
    && (forall e :: e in h.edges ==> h.edges[e] == g.edges[e])
    && (forall e :: e in g.edges && g.edges[e].bs.Some? ==> e in h.edges)
  }

  /**
    The frame of every operation: `h` is `g` but for permissions of edges that nodes below
    `roots` own, and for detached edges that have been freed.
  */
  ghost predicate Refreshed(g: Graph, h: Graph, roots: set<Node>) {
    && h.nodes == g.nodes && h.edges.Keys <= g.edges.Keys
    && (forall e :: e in g.edges && g.edges[e].bs.Some? ==> e in h.edges)
    && (forall e :: e in h.edges ==> h.edges[e] == g.edges[e] || RefreshedEdge(g, g.edges[e], h.edges[e], roots))
  }

  ghost predicate RefreshedEdge(g: Graph, was: Edge, now: Edge, roots: set<Node>) {
    && now == was.(perm := now.perm, shared := now.shared)
    && was.parent.Bds? && exists r :: r in roots && Reach(g, r, was.parent.node)
  }

  /** A refresh of the permissions below `roots`, then freeing. */
  lemma RefreshedByBoth(g: Graph, k: Graph, h: Graph, roots: seq<Node>)
    requires OnlyPermsChange(g, k, k.edges.Keys) && FreesOnlyDetached(k, h)
    requires forall e :: e in k.edges && k.edges[e] != g.edges[e] ==>
      && k.edges[e].parent.Bds?
      && exists i :: 0 <= i < |roots| && Reach(g, roots[i], k.edges[e].parent.node)
    ensures Refreshed(g, h, Elements(roots))
  {
    forall e | e in h.edges && h.edges[e] != g.edges[e]
      ensures RefreshedEdge(g, g.edges[e], h.edges[e], Elements(roots))
    {
      var i :| 0 <= i < |roots| && Reach(g, roots[i], k.edges[e].parent.node);
      assert roots[i] in Elements(roots);
    }
  }

  function Linked(g: Graph, e: EdgeId, edge: Edge): Graph {
    g.(edges := g.edges[e := edge])
  }

  /** Which permissions a new edge was given at first does not matter for the frame. */
  lemma RefreshedOwn(g: Graph, e: EdgeId, edge: Edge, h: Graph, roots: set<Node>)
    requires Refreshed(Linked(g, e, edge), h, roots) && edge.bs.Some?
    ensures e in h.edges && Refreshed(Linked(g, e, h.edges[e]), h, roots)
    ensures h.edges[e] == edge.(perm := h.edges[e].perm, shared := h.edges[e].shared)
  {
    var a, b := Linked(g, e, edge), Linked(g, e, h.edges[e]);
    SameChildren(a, b, e);
    forall c | c in h.edges && h.edges[c] != b.edges[c] ensures RefreshedEdge(b, b.edges[c], h.edges[c], roots) {
      assert RefreshedEdge(a, a.edges[c], h.edges[c], roots);
      var r :| r in roots && Reach(a, r, a.edges[c].parent.node);
      ReachSame(a, b, r, a.edges[c].parent.node);
    }
  }

  lemma SameChildren(a: Graph, b: Graph, e: EdgeId)
    requires a.nodes == b.nodes && a.edges.Keys == b.edges.Keys && e in a.edges
    requires forall c :: c in a.edges ==> b.edges[c].parent == a.edges[c].parent && b.edges[c].bs == a.edges[c].bs
    ensures forall x, y :: Child(b, x, y) <==> Child(a, x, y)
  {
    forall x: Node, y: Node ensures Child(b, x, y) <==> Child(a, x, y) {
      if Child(a, x, y) {
        var c :| c in a.edges && a.edges[c].parent == Bds(x) && a.edges[c].bs == Some(y);
        assert c in b.edges && b.edges[c].parent == Bds(x) && b.edges[c].bs == Some(y);
      }
      if Child(b, x, y) {
        var c :| c in b.edges && b.edges[c].parent == Bds(x) && b.edges[c].bs == Some(y);
        assert c in a.edges && a.edges[c].parent == Bds(x) && a.edges[c].bs == Some(y);
      }
    }
  }

  lemma FreeingKeeps(d: Drivers, g: Graph, h: Graph)
    requires FreesOnlyDetached(g, h)
    ensures forall a, b :: Child(h, a, b) <==> Child(g, a, b)
    ensures forall n :: Children(h, n) == Children(g, n) && Parents(h, n) == Parents(g, n)
    ensures forall n :: Settled(d, g, n) ==> Settled(d, h, n)
    ensures Acyclic(g) ==> Acyclic(h)
    ensures DriversFit(d, g) ==> DriversFit(d, h)
  {
    forall a: Node, b: Node ensures Child(h, a, b) <==> Child(g, a, b) {
      if Child(g, a, b) {
        var e :| e in g.edges && g.edges[e].parent == Bds(a) && g.edges[e].bs == Some(b);
        assert e in h.edges && h.edges[e].parent == Bds(a) && h.edges[e].bs == Some(b);
      }
      if Child(h, a, b) {
        var e :| e in h.edges && h.edges[e].parent == Bds(a) && h.edges[e].bs == Some(b);
        assert e in g.edges;
      }
    }
    forall n: Node ensures Children(h, n) == Children(g, n) && Parents(h, n) == Parents(g, n) {}
    forall n: Node | Settled(d, g, n) ensures Settled(d, h, n) {
      FreeingKeepsSettled(d, g, h, n);
    }
    if Acyclic(g) { AcyclicAfterDropping(g, h); }
  }

  lemma FreeingKeepsSettled(d: Drivers, g: Graph, h: Graph, n: Node)
    requires FreesOnlyDetached(g, h) && Settled(d, g, n)
    ensures Settled(d, h, n)
  {
    assert Children(h, n) == Children(g, n) && Parents(h, n) == Parents(g, n);
    assert CumulativePerm(h, n) == CumulativePerm(g, n);
    assert CumulativeShared(h, n) == CumulativeShared(g, n);
  }

  /** bdrv_attach_child_common accepts the edge. */
  predicate MayLink(d: Drivers, edge: Edge)
    requires edge.bs.Some?
  {
    !(d.inactive(edge.bs.value) && !(edge.perm <= {ConsistentRead})) && d.contextFits(edge.parent, edge.bs.value)
  }

  /** The edge that bdrv_attach_child makes. */
  function NewEdge(d: Drivers, g: Graph, parent: Node, child: Node, role: nat): Edge {
    var (p, s) := ChildPerm(d, parent, None, role, child, CumulativePerm(g, parent), CumulativeShared(g, parent));
    Edge(Bds(parent), Some(child), role, p, s, false)
  }

  /** When bdrv_attach_child_noperm accepts it: no cycle, no active parent of an inactive node, and the rest. */
  ghost predicate MayAttach(d: Drivers, g: Graph, parent: Node, child: Node, role: nat) {
    !Reach(g, child, parent) && !(d.inactive(child) && !d.inactive(parent)) && MayLink(d, NewEdge(d, g, parent, child, role))
  }

  /** The new edge is there, everything below its parent is settled, and nothing else has changed. */
  ghost predicate Attached(d: Drivers, g: Graph, h: Graph, parent: Node, child: Node, e: EdgeId) {
    && e in h.edges && h.edges[e].parent == Bds(parent) && h.edges[e].bs == Some(child)
    && Refreshed(Linked(g, e, h.edges[e]), h, {parent})
    && SettledBelow(d, h, parent)
  }

  /** The new node is on top of the old one, whose movable parents have moved up; nothing else has changed. */
  ghost predicate Appended(d: Drivers, g: Graph, h: Graph, bsNew: Node, bsTop: Node, e: EdgeId) {
    && e in h.edges && h.edges[e].parent == Bds(bsNew) && h.edges[e].bs == Some(bsTop)
    && Refreshed(AllRedirected(Linked(g, e, h.edges[e]), bsTop, bsNew), h, {bsNew})
    && SettledBelow(d, h, bsNew)
  }

  /** The graph without the link of edge `c`; the edge itself is freed on commit. */
  function Unlinked(g: Graph, c: Option<EdgeId>): Graph
    requires c.Some? ==> c.value in g.edges
  {
    if c.Some? then Linked(g, c.value, g.edges[c.value].(bs := None)) else g
  }

  /** The graph with the backing link changed, before any permissions follow. */
  function Backed(d: Drivers, g: Graph, bs: Node, current: Option<EdgeId>, backing: Option<Node>, role: nat, e: EdgeId): Graph
    requires current.Some? ==> current.value in g.edges
  {
    var h := Unlinked(g, current);
    if backing.Some? then Linked(h, e, NewEdge(d, h, bs, backing.value, role)) else h
  }

  /** When a backing file may be set: the link is not frozen, the driver takes one, and it can be attached. */
  ghost predicate MaySetBacking(d: Drivers, g: Graph, bs: Node, current: Option<EdgeId>, backing: Option<Node>, role: nat)
    requires current.Some? ==> current.value in g.edges
  {
    && d.hasDriver(bs) && d.supportsBacking(bs)
    && (current.Some? ==> !g.edges[current.value].frozen)
    && (backing.Some? ==> MayAttach(d, Unlinked(g, current), bs, backing.value, role))
  }

  /** The child edges of the listed nodes. */
  function OwnedBy(g: Graph, list: seq<Node>): set<EdgeId> {
    set e | e in g.edges && g.edges[e].parent.Bds? && g.edges[e].parent.node in list
  }

  /** The whole subtree of `n` is settled. */
  ghost predicate SettledBelow(d: Drivers, g: Graph, n: Node) {
    forall m :: m in g.nodes && Reach(g, n, m) ==> Settled(d, g, m)
  }

  lemma ReachSame(g: Graph, h: Graph, a: Node, b: Node)
    requires forall x, y :: Child(h, x, y) <==> Child(g, x, y)
    ensures Reach(h, a, b) <==> Reach(g, a, b)
  {
    if Reach(g, a, b) {
      var n: nat :| Steps(g, a, b, n);
      StepsMonotone(g, h, a, b, n);
    }
    if Reach(h, a, b) {
      var n: nat :| Steps(h, a, b, n);
      StepsMonotone(h, g, a, b, n);
    }
  }

  lemma FreeingKeepsBelow(d: Drivers, g: Graph, h: Graph, n: Node)
    requires FreesOnlyDetached(g, h) && SettledBelow(d, g, n)
    ensures SettledBelow(d, h, n)
  {
    FreeingKeeps(d, g, h);
    forall m | m in h.nodes && Reach(h, n, m) ensures Settled(d, h, m) {
      ReachSame(g, h, n, m);
    }
  }

  /** Adding the edge `e` from `parent` adds at most that pair. */
  lemma AttachShape(d: Drivers, g: Graph, e: EdgeId, edge: Edge)
    requires Acyclic(g) && DriversFit(d, g) && e !in g.edges && edge.bs.Some?
    requires edge.parent.Bds? ==> !Reach(g, edge.bs.value, edge.parent.node) && d.hasChildPerm(edge.parent.node)
    ensures var h := g.(edges := g.edges[e := edge]); Acyclic(h) && DriversFit(d, h)
  {
    var h := g.(edges := g.edges[e := edge]);
    var q := edge.bs.value;
    if edge.parent.Bds? {
      forall a: Node, b: Node | Child(h, a, b) ensures Child(g, a, b) || (a == edge.parent.node && b == q) {
        var x :| x in h.edges && h.edges[x].parent == Bds(a) && h.edges[x].bs == Some(b);
        if x != e { assert x in g.edges && g.edges[x].parent == Bds(a) && g.edges[x].bs == Some(b); }
      }
      AcyclicAfterAdding(g, h, edge.parent.node, q);
    } else {
      forall a: Node, b: Node | Child(h, a, b) ensures Child(g, a, b) {
        var x :| x in h.edges && h.edges[x].parent == Bds(a) && h.edges[x].bs == Some(b);
        assert x in g.edges && g.edges[x].parent == Bds(a) && g.edges[x].bs == Some(b);
      }
      AcyclicAfterDropping(g, h);
    }
  }

  /** Redirecting the edge `e` of an acyclic graph. */
  lemma MoveShape(d: Drivers, g: Graph, e: EdgeId, newBs: Option<Node>)
    requires Acyclic(g) && DriversFit(d, g) && e in g.edges && g.edges[e].bs.Some?
    requires g.edges[e].parent.Bds? && newBs.Some? ==> !Reach(g, newBs.value, g.edges[e].parent.node)
    ensures var h := g.(edges := g.edges[e := g.edges[e].(bs := newBs)]); Acyclic(h) && DriversFit(d, h)
  {
    var edge := g.edges[e].(bs := newBs);
    var h := g.(edges := g.edges[e := edge]);
    if edge.parent.Bds? && newBs.Some? {
      forall a: Node, b: Node | Child(h, a, b) ensures Child(g, a, b) || (a == edge.parent.node && b == newBs.value) {
        var x :| x in h.edges && h.edges[x].parent == Bds(a) && h.edges[x].bs == Some(b);
        if x != e { assert x in g.edges && g.edges[x].parent == Bds(a) && g.edges[x].bs == Some(b); }
      }
      AcyclicAfterAdding(g, h, edge.parent.node, newBs.value);
    } else {
      forall a: Node, b: Node | Child(h, a, b) ensures Child(g, a, b) {
        var x :| x in h.edges && h.edges[x].parent == Bds(a) && h.edges[x].bs == Some(b);
        assert x in g.edges && g.edges[x].parent == Bds(a) && g.edges[x].bs == Some(b);
      }
      AcyclicAfterDropping(g, h);
    }
  }

  /** A reference held outside becomes a scheduled unref. */
  lemma ScheduleConserves(s: Store, recs: seq<Record>, external: Node -> int, n: Node)
    requires Conserved(s, recs, external)
    ensures Conserved(ScheduleUnref(s, Some(n)), recs, OneLess(external, n))
  {
    var t := ScheduleUnref(s, Some(n));
    forall m | m in t.g.nodes
      ensures t.refs[m] == |Parents(t.g, m)| + HeldBy(recs, m) + t.scheduled[m] + OneLess(external, n)(m)
    {
      assert s.refs[m] == |Parents(s.g, m)| + HeldBy(recs, m) + s.scheduled[m] + external(m);
    }
  }

  /** An edge is freed and its reference scheduled to be dropped. */
  lemma FreeConserves(s: Store, c: EdgeId, external: Node -> int)
    requires Conserved(s, [], external) && c in s.g.edges
    ensures Conserved(ScheduleUnref(s.(g := s.g.(edges := s.g.edges - {c})), s.g.edges[c].bs), [], external)
  {
    var t := ScheduleUnref(s.(g := s.g.(edges := s.g.edges - {c})), s.g.edges[c].bs);
    forall n | n in t.g.nodes
      ensures t.refs[n] == |Parents(t.g, n)| + HeldBy([], n) + t.scheduled[n] + external(n)
    {
      ParentsAfterFree(s.g, c, n);
    }
  }

  lemma FreeShape(d: Drivers, g: Graph, c: EdgeId)
    requires Acyclic(g) && DriversFit(d, g)
    ensures var h := g.(edges := g.edges - {c}); Acyclic(h) && DriversFit(d, h)
  {
    var h := g.(edges := g.edges - {c});
    forall a: Node, b: Node | Child(h, a, b) ensures Child(g, a, b) {
      var e :| e in h.edges && h.edges[e].parent == Bds(a) && h.edges[e].bs == Some(b);
      assert e in g.edges && g.edges[e].parent == Bds(a) && g.edges[e].bs == Some(b);
    }
    AcyclicAfterDropping(g, h);
  }

  function OneLess(external: Node -> int, n: Node): Node -> int {
    (m: Node) => external(m) - (if m == n then 1 else 0)
  }

  /** Is the edge to be redirected to `to`, in the graph as it was before any was? */
  ghost predicate Movable(g: Graph, c: EdgeId, to: Node) {
    c in g.edges && g.edges[c].parent != Root(true) && !EdgeBelow(g, c, to)
  }

  /** The edges of `done` that are movable point to `to` now; nothing else changed. */
  ghost predicate Redirected(g: Graph, h: Graph, done: set<EdgeId>, to: Node) {
    && h.nodes == g.nodes && h.edges.Keys == g.edges.Keys
    && forall e :: e in g.edges ==>
         h.edges[e] == if e in done && Movable(g, e, to) then g.edges[e].(bs := Some(to)) else g.edges[e]
  }

  /**
    Redirecting movable edges leaves the subtree of `to` alone, so the test that
    is made anew for each edge answers as it would have at the start.
  */
  lemma {:induction false} RedirectKeepsSteps(g: Graph, h: Graph, done: set<EdgeId>, to: Node, a: Node, b: Node, n: nat)
    requires Redirected(g, h, done, to) && Reach(g, to, a)
    requires forall e :: e in done ==> e in g.edges && g.edges[e].bs.Some?
    ensures Steps(h, a, b, n) <==> Steps(g, a, b, n)
    decreases n
  {
    if n > 0 {
      forall x: Node ensures Child(h, a, x) <==> Child(g, a, x) {
        RedirectKeepsChild(g, h, done, to, a, x);
      }
      forall x: Node | Child(g, a, x) ensures Steps(h, x, b, n - 1) <==> Steps(g, x, b, n - 1) {
        ReachChild(g, a, x);
        ReachTransitive(g, to, a, x);
        RedirectKeepsSteps(g, h, done, to, x, b, n - 1);
      }
    }
  }

  lemma RedirectKeepsChild(g: Graph, h: Graph, done: set<EdgeId>, to: Node, a: Node, x: Node)
    requires Redirected(g, h, done, to) && Reach(g, to, a)
    requires forall e :: e in done ==> e in g.edges && g.edges[e].bs.Some?
    ensures Child(h, a, x) <==> Child(g, a, x)
  {
    if Child(g, a, x) {
      var e :| e in g.edges && g.edges[e].parent == Bds(a) && g.edges[e].bs == Some(x);
      assert EdgeBelow(g, e, to);
      assert e in h.edges && h.edges[e].parent == Bds(a) && h.edges[e].bs == Some(x);
    }
    if Child(h, a, x) {
      var e :| e in h.edges && h.edges[e].parent == Bds(a) && h.edges[e].bs == Some(x);
      assert e in done ==> EdgeBelow(g, e, to);
      assert e in g.edges && g.edges[e].parent == Bds(a) && g.edges[e].bs == Some(x);
    }
  }

  lemma RedirectKeepsReach(g: Graph, h: Graph, done: set<EdgeId>, to: Node, b: Node)
    requires Redirected(g, h, done, to)
    requires forall e :: e in done ==> e in g.edges && g.edges[e].bs.Some?
    ensures Reach(h, to, b) <==> Reach(g, to, b)
  {
    ReachSelf(g, to);
    if Reach(h, to, b) {
      var n: nat :| Steps(h, to, b, n);
      RedirectKeepsSteps(g, h, done, to, to, b, n);
    }
    if Reach(g, to, b) {
      var n: nat :| Steps(g, to, b, n);
      RedirectKeepsSteps(g, h, done, to, to, b, n);
    }
  }

  /** Of the parents of `from`, those in `done` have been dealt with and those in `todo` have not. */
  ghost predicate Redirecting(g: Graph, h: Graph, from: Node, to: Node, autoSkip: bool,
                              todo: set<EdgeId>, done: set<EdgeId>)
  {
    && todo !! done && todo + done == Parents(g, from)
    && to in h.nodes && Redirected(g, h, done, to)
    && forall c :: c in done ==> MayMove(g, c, to, autoSkip)
  }

  /** The loop of bdrv_replace_node_noperm passes an edge. */
  ghost predicate MayMove(g: Graph, c: EdgeId, to: Node, autoSkip: bool) {
    c in g.edges && if Movable(g, c, to) then !g.edges[c].frozen else autoSkip
  }

  /** And every parent of `from`: what may move is not frozen, and nothing else is to be moved. */
  ghost predicate MayRedirect(g: Graph, from: Node, to: Node, autoSkip: bool) {
    forall c :: c in Parents(g, from) ==> MayMove(g, c, to, autoSkip)
  }

  lemma RedirectSkip(g: Graph, h: Graph, from: Node, to: Node, autoSkip: bool, todo: set<EdgeId>, done: set<EdgeId>, c: EdgeId)
    requires Redirecting(g, h, from, to, autoSkip, todo, done) && c in todo && !Movable(g, c, to)
    ensures autoSkip ==> Redirecting(g, h, from, to, autoSkip, todo - {c}, done + {c})
  {
  }

  lemma RedirectStep(g: Graph, h: Graph, from: Node, to: Node, autoSkip: bool, todo: set<EdgeId>, done: set<EdgeId>, c: EdgeId)
    requires Redirecting(g, h, from, to, autoSkip, todo, done) && c in todo && Movable(g, c, to) && c in h.edges
    requires !h.edges[c].frozen
    ensures Redirecting(g, h.(edges := h.edges[c := h.edges[c].(bs := Some(to))]), from, to, autoSkip, todo - {c}, done + {c})
  {
  }

  /** Exactly the movable parents of `from` have moved to `to`, and nothing else is different. */
  ghost function AllRedirected(g: Graph, from: Node, to: Node): Graph {
    g.(edges := map e | e in g.edges ::
         if g.edges[e].bs == Some(from) && Movable(g, e, to) then g.edges[e].(bs := Some(to)) else g.edges[e])
  }

  /** The new edge and the redirected ones, before any permissions follow. */
  ghost function OnTop(d: Drivers, g: Graph, bsNew: Node, bsTop: Node, role: nat, e: EdgeId): Graph {
    AllRedirected(Linked(g, e, NewEdge(d, g, bsNew, bsTop, role)), bsTop, bsNew)
  }

  /** When the new node can be put there: it may have the old one as a child, and the parents can move. */
  ghost predicate MayAppend(d: Drivers, g: Graph, bsNew: Node, bsTop: Node, role: nat, e: EdgeId) {
    && MayAttach(d, g, bsNew, bsTop, role)
    && MayRedirect(Linked(g, e, NewEdge(d, g, bsNew, bsTop, role)), bsTop, bsNew, true)
  }

  lemma RedirectedIsAll(g: Graph, h: Graph, from: Node, to: Node, autoSkip: bool)
    requires Redirecting(g, h, from, to, autoSkip, {}, Parents(g, from))
    ensures h == AllRedirected(g, from, to)
  {
    assert h.edges == AllRedirected(g, from, to).edges;
  }

  /** Whether an edge is movable depends on the ends of edges only. */
  lemma MovableOwn(a: Graph, b: Graph, e: EdgeId, to: Node, c: EdgeId)
    requires a.nodes == b.nodes && a.edges.Keys == b.edges.Keys && e in a.edges && c in a.edges
    requires forall x :: x in a.edges ==> b.edges[x].parent == a.edges[x].parent && b.edges[x].bs == a.edges[x].bs
    ensures Movable(b, c, to) <==> Movable(a, c, to)
  {
    SameChildren(a, b, e);
    if a.edges[c].parent.Bds? {
      ReachSame(a, b, to, a.edges[c].parent.node);
    }
  }

  /** Two ways to give the new edge its permissions redirect the same edges. */
  lemma RedirectedOwn(g: Graph, e: EdgeId, edge: Edge, from: Node, to: Node, perm: set<Perm>, shared: set<Perm>)
    requires e !in g.edges && edge.parent == Bds(to) && edge.bs == Some(from)
    ensures var a, b := Linked(g, e, edge), Linked(g, e, edge.(perm := perm, shared := shared));
      AllRedirected(b, from, to) == Linked(AllRedirected(a, from, to), e, edge.(perm := perm, shared := shared))
  {
    var a, b := Linked(g, e, edge), Linked(g, e, edge.(perm := perm, shared := shared));
    ReachSelf(b, to);
    assert !Movable(b, e, to);
    forall c | c in a.edges ensures Movable(b, c, to) <==> Movable(a, c, to) {
      MovableOwn(a, b, e, to, c);
    }
  }

  lemma NewEdgeStays(g: Graph, e: EdgeId, edge: Edge, from: Node, to: Node)
    requires edge.parent == Bds(to) && edge.bs == Some(from)
    ensures var k := AllRedirected(Linked(g, e, edge), from, to); k == Linked(k, e, edge)
  {
    var a := Linked(g, e, edge);
    ReachSelf(a, to);
    assert !Movable(a, e, to);
    var k := AllRedirected(a, from, to);
    assert k.edges == k.edges[e := edge];
  }

  /** The edges `es` of `n` carry what its driver computes. */
  predicate Follow(d: Drivers, g: Graph, n: Node, es: set<EdgeId>, perm: set<Perm>, shared: set<Perm>) {
    forall e :: e in es ==>
      && e in g.edges && g.edges[e].bs.Some?
      && (g.edges[e].perm, g.edges[e].shared) ==
           ChildPerm(d, n, Some(e), g.edges[e].role, g.edges[e].bs.value, perm, shared)
  }

  predicate Split(all: set<EdgeId>, todo: set<EdgeId>, done: set<EdgeId>) {
    todo + done == all && todo !! done
  }

  lemma OneDone(all: set<EdgeId>, todo: set<EdgeId>, done: set<EdgeId>, c: EdgeId)
    requires Split(all, todo, done) && c in todo
    ensures Split(all, todo - {c}, done + {c}) && todo - {c} < todo
  {
  }

  lemma AllFollow(d: Drivers, g0: Graph, g: Graph, n: Node, done: set<EdgeId>, perm: set<Perm>, shared: set<Perm>)
    requires OnlyPermsChange(g0, g, done) && Follow(d, g, n, done, perm, shared) && done == Children(g0, n)
    ensures ChildrenFollow(d, g, n, perm, shared)
  {
    SameLists(g0, g, done, n);
  }

  lemma FollowOneMore(d: Drivers, g0: Graph, g: Graph, h: Graph, n: Node, done: set<EdgeId>, c: EdgeId,
                      perm: set<Perm>, shared: set<Perm>)
    requires OnlyPermsChange(g0, g, done) && Follow(d, g, n, done, perm, shared) && c !in done
    requires OnlyPermsChange(g, h, {c}) && c in h.edges && h.edges[c].bs.Some?
    requires (h.edges[c].perm, h.edges[c].shared) ==
      ChildPerm(d, n, Some(c), h.edges[c].role, h.edges[c].bs.value, perm, shared)
    ensures OnlyPermsChange(g0, h, done + {c}) && Follow(d, h, n, done + {c}, perm, shared)
  {
    OnlyPermsTrans(g0, g, h, done, {c});
  }

  // ------------------------------------------------------------------
  // When refreshing permissions fails, no permissions would do

  /** The edges whose permissions a refresh of `list` determines. */
  function Driven(d: Drivers, g: Graph, list: seq<Node>): set<EdgeId> {
    set e | e in g.edges && g.edges[e].parent.Bds? && g.edges[e].parent.node in list && d.hasDriver(g.edges[e].parent.node)
  }

  /** `h` gives those edges permissions that settle every listed node. */
  ghost predicate Settles(d: Drivers, g: Graph, h: Graph, list: seq<Node>) {
    OnlyPermsChange(g, h, Driven(d, g, list)) && forall n :: n in list ==> Settled(d, h, n)
  }

  /** The first `i` nodes own the same permissions in both. */
  ghost predicate Agree(g: Graph, h: Graph, list: seq<Node>, i: nat) {
    forall j, e :: 0 <= j < i && j < |list| && e in Children(g, list[j]) ==> e in h.edges && h.edges[e] == g.edges[e]
  }

  /** Nodes before it decide what a listed node sees of its parents. */
  lemma AgreeAbove(d: Drivers, g0: Graph, g: Graph, h: Graph, list: seq<Node>, i: nat)
    requires OnlyPermsChange(g0, g, Driven(d, g0, list)) && OnlyPermsChange(g0, h, Driven(d, g0, list))
    requires Topological(g, list) && i < |list| && Agree(g, h, list, i)
    ensures OnlyPermsChange(g, h, g.edges.Keys) && Parents(h, list[i]) == Parents(g, list[i])
    ensures Conflict(h, list[i]) <==> Conflict(g, list[i])
    ensures CumulativePerm(h, list[i]) == CumulativePerm(g, list[i])
    ensures CumulativeShared(h, list[i]) == CumulativeShared(g, list[i])
  {
    var n := list[i];
    forall e | e in Parents(g, n) ensures h.edges[e] == g.edges[e] {
      if e in Driven(d, g0, list) {
        var k :| 0 <= k < |list| && list[k] == g.edges[e].parent.node;
        assert e in Children(g, list[k]);
        assert n in list[k + 1..];
        assert k < i;
      }
    }
    SameParents(g, h, n);
  }

  /** So they also decide what it passes on. */
  lemma AgreeNext(d: Drivers, g0: Graph, g: Graph, k: Graph, h: Graph, list: seq<Node>, i: nat)
    requires OnlyPermsChange(g0, g, Driven(d, g0, list)) && Settles(d, g0, h, list) && Acyclic(g)
    requires Topological(g, list) && i < |list| && Agree(g, h, list, i)
    requires OnlyPermsChange(g, k, Children(g, list[i]))
    requires if d.hasDriver(list[i])
      then ChildrenFollow(d, k, list[i], CumulativePerm(k, list[i]), CumulativeShared(k, list[i])) else k == g
    ensures Agree(k, h, list, i + 1)
  {
    var n := list[i];
    AgreeAbove(d, g0, g, h, list, i);
    NotOwnChild(g, n);
    CumulativeFrame(g, k, n, Children(g, n));
    assert Settled(d, h, n);
    forall j, e | 0 <= j < i + 1 && j < |list| && e in Children(k, list[j]) ensures e in h.edges && h.edges[e] == k.edges[e] {
      assert e in Children(g, list[j]);
      if j == i {
        AgreeOwn(d, g0, g, k, h, list, n, e);
      } else {
        assert e !in Children(g, n);
      }
    }
  }

  lemma AgreeOwn(d: Drivers, g0: Graph, g: Graph, k: Graph, h: Graph, list: seq<Node>, n: Node, e: EdgeId)
    requires OnlyPermsChange(g0, g, Driven(d, g0, list)) && OnlyPermsChange(g0, h, Driven(d, g0, list))
    requires OnlyPermsChange(g, k, Children(g, n)) && e in Children(k, n)
    requires CumulativePerm(h, n) == CumulativePerm(k, n) && CumulativeShared(h, n) == CumulativeShared(k, n)
    requires if d.hasDriver(n)
      then ChildrenFollow(d, k, n, CumulativePerm(k, n), CumulativeShared(k, n))
        && ChildrenFollow(d, h, n, CumulativePerm(h, n), CumulativeShared(h, n))
      else k == g
    ensures e in h.edges && h.edges[e] == k.edges[e]
  {
    if d.hasDriver(n) {
      assert e in Children(h, n);
    } else {
      assert e !in Driven(d, g0, list);
    }
  }

  /** Whoever settles the list agrees with what the pass has done so far. */
  ghost predicate Determined(d: Drivers, g0: Graph, g: Graph, list: seq<Node>, i: nat) {
    && OnlyPermsChange(g0, g, Driven(d, g0, list))
    && forall h :: Settles(d, g0, h, list) ==> Agree(g, h, list, i)
  }

  lemma DeterminedNext(d: Drivers, g0: Graph, g: Graph, k: Graph, list: seq<Node>, i: nat)
    requires Determined(d, g0, g, list, i) && Acyclic(g) && Topological(g, list) && i < |list|
    requires OnlyPermsChange(g, k, Children(g, list[i]))
    requires if d.hasDriver(list[i])
      then ChildrenFollow(d, k, list[i], CumulativePerm(k, list[i]), CumulativeShared(k, list[i])) else k == g
    ensures Determined(d, g0, k, list, i + 1)
  {
    forall h | Settles(d, g0, h, list) ensures Agree(k, h, list, i + 1) {
      AgreeNext(d, g0, g, k, h, list, i);
    }
    if d.hasDriver(list[i]) {
      assert Children(g, list[i]) <= Driven(d, g0, list);
      OnlyPermsTrans(g0, g, k, Driven(d, g0, list), Children(g, list[i]));
      assert Driven(d, g0, list) + Children(g, list[i]) == Driven(d, g0, list);
    }
  }

  /** Some node of the list cannot be settled. */
  lemma NobodySettles(d: Drivers, g0: Graph, g: Graph, h: Graph, list: seq<Node>, i: nat)
    requires OnlyPermsChange(g0, g, Driven(d, g0, list)) && Topological(g, list) && i < |list|
    requires Settles(d, g0, h, list) ==> Agree(g, h, list, i)
    requires Conflict(g, list[i]) || !NodeChecks(d, list[i], CumulativePerm(g, list[i]), CumulativeShared(g, list[i]))
    ensures !Settles(d, g0, h, list)
  {
    assert list[i] in list;
    if Settles(d, g0, h, list) {
      AgreeAbove(d, g0, g, h, list, i);
    }
  }

  /** `h` settles everything below `roots`, changing only permissions that their subtrees determine. */
  ghost predicate SettlesBelow(d: Drivers, g: Graph, h: Graph, roots: seq<Node>) {
    && OnlyPermsChange(g, h, g.edges.Keys)
    && (forall e :: e in g.edges && h.edges[e] != g.edges[e] ==>
          && g.edges[e].parent.Bds? && d.hasDriver(g.edges[e].parent.node)
          && exists i :: 0 <= i < |roots| && Reach(g, roots[i], g.edges[e].parent.node))
    && (forall i :: 0 <= i < |roots| ==> SettledBelow(d, h, roots[i]))
  }

  /** No permissions below `roots` would do. */
  ghost predicate Hopeless(d: Drivers, g: Graph, roots: seq<Node>) {
    forall h :: !SettlesBelow(d, g, h, roots)
  }

  lemma SettlesBelowIsSettles(d: Drivers, g: Graph, h: Graph, roots: seq<Node>, list: seq<Node>)
    requires WellFormed(g) && SettlesBelow(d, g, h, roots)
    requires forall n :: n in list <==> n in g.nodes && exists i :: 0 <= i < |roots| && Reach(g, roots[i], n)
    ensures Settles(d, g, h, list)
  {
    SameShape(g, h, g.edges.Keys);
    forall n | n in list ensures Settled(d, h, n) {
      var i :| 0 <= i < |roots| && Reach(g, roots[i], n);
      ReachSame(g, h, roots[i], n);
      assert SettledBelow(d, h, roots[i]);
    }
    forall e | e in g.edges && h.edges[e] != g.edges[e] ensures e in Driven(d, g, list) {
      assert g.edges[e].parent.node in list;
    }
  }

  /** Only child edges of the list have changed since `g0`, and the first `i` nodes are settled. */
  ghost predicate SettledUpTo(d: Drivers, g0: Graph, g: Graph, list: seq<Node>, i: nat) {
    && i <= |list|
    && OnlyPermsChange(g0, g, OwnedBy(g0, list)) && Topological(g, list)
    && forall j :: 0 <= j < i ==> Settled(d, g, list[j])
  }

  /** The permissions asked for are set and all is settled below, or they cannot be, and success means loosening. */
  ghost predicate TrySetPermResult(d: Drivers, s: Store, t: Store, c: EdgeId, perm: set<Perm>, shared: set<Perm>, ok: bool)
    requires c in s.g.edges && s.g.edges[c].bs.Some?
  {
    || (t.g == s.g && Same(t, s) && (ok <==> perm <= s.g.edges[c].perm && s.g.edges[c].shared <= shared)
        && Hopeless(d, Linked(s.g, c, s.g.edges[c].(perm := perm, shared := shared)), [s.g.edges[c].bs.value]))
    || (ok && c in t.g.edges && t.g.edges[c] == s.g.edges[c].(perm := perm, shared := shared)
        && SettledBelow(d, t.g, s.g.edges[c].bs.value)
        && Refreshed(Linked(s.g, c, t.g.edges[c]), t.g, {s.g.edges[c].bs.value}))
  }

  /** Every attached edge has the ends it had. */
  predicate SameEnds(g: Graph, h: Graph) {
    && h.nodes == g.nodes && h.edges.Keys <= g.edges.Keys
    && (forall e :: e in h.edges ==> h.edges[e].parent == g.edges[e].parent && h.edges[e].bs == g.edges[e].bs)
    && (forall e :: e in g.edges && g.edges[e].bs.Some? ==> e in h.edges)
  }

  class BlockLayer {
    const drivers: Drivers
    var store: Store
    var tran: seq<Record>          // the open transaction, most recent record first
    ghost var base: Store          // the store when it was opened
    ghost var external: Node -> int  // references held outside the graph

    ghost predicate Valid()
      reads this
    {
      && Open(store, tran, base, external)
      && Acyclic(store.g) && DriversFit(drivers, store.g)
      && Acyclic(base.g) && DriversFit(drivers, base.g)
    }

    /** No transaction is open. */
    ghost predicate Idle()
      reads this
    {
      Valid() && tran == [] && base == store
    }

    constructor (d: Drivers, s: Store, ghost ext: Node -> int)
      requires Conserved(s, [], ext) && Acyclic(s.g) && DriversFit(d, s.g)
      ensures Idle() && drivers == d && store == s && external == ext
    {
      drivers, store, tran, base, external := d, s, [], s, ext;
    }

    // ----------------------------------------------------------------
    // Permissions

    /** bdrv_child_set_perm */
    method ChildSetPerm(e: EdgeId, perm: set<Perm>, shared: set<Perm>)
      requires Valid() && e in store.g.edges
      modifies `store, `tran
      ensures Valid()
      ensures store == WithEdge(old(store), e, old(store).g.edges[e].(perm := perm, shared := shared))
      ensures OnlyPermsChange(old(store).g, store.g, {e})
    {
      ghost var edit := EditPerm(e, perm, shared);
      ApplyKeepsOpen(store, tran, edit, base, external);
      var (s, r) := DoSetPerm(store, e, perm, shared);
      SameShape(store.g, s.g, {e});
      store, tran := s, [r] + tran;
    }

    /** bdrv_node_refresh_perm */
    method NodeRefreshPerm(n: Node) returns (ok: bool)
      requires Valid()
      modifies `store, `tran
      ensures Valid() && store == old(store).(g := store.g)
      ensures OnlyPermsChange(old(store).g, store.g, Children(old(store).g, n))
      ensures ok ==>
        && NodeChecks(drivers, n, CumulativePerm(store.g, n), CumulativeShared(store.g, n))
        && (drivers.hasDriver(n) ==>
              ChildrenFollow(drivers, store.g, n, CumulativePerm(store.g, n), CumulativeShared(store.g, n)))
      ensures !drivers.hasDriver(n) ==> store == old(store)
      ensures !ok ==> store == old(store) && !NodeChecks(drivers, n, CumulativePerm(store.g, n), CumulativeShared(store.g, n))
    {
      var perm, shared := GetCumulativePerm(store.g, n);
      // what is read-only cannot be written to
      if Writes(perm) && !drivers.writable(n) {
        return false;
      }
      if Writes(perm) && Resize !in perm && !drivers.aligned(n) {
        return false;
      }
      if !drivers.hasDriver(n) {
        return true;
      }
      if !drivers.checkPerm(n, perm, shared) {
        return false;
      }
      ApplyKeepsOpen(store, tran, EditDriver(n), base, external);
      tran := [DriverSetPerm(n)] + tran;
      SetChildPerms(n, perm, shared);
      NotOwnChild(old(store).g, n);
      CumulativeFrame(old(store).g, store.g, n, Children(old(store).g, n));
      return true;
    }

    /** The loop of bdrv_node_refresh_perm over the children. */
    method SetChildPerms(n: Node, perm: set<Perm>, shared: set<Perm>)
      requires Valid()
      modifies `store, `tran
      ensures Valid() && store == old(store).(g := store.g)
      ensures OnlyPermsChange(old(store).g, store.g, Children(old(store).g, n))
      ensures ChildrenFollow(drivers, store.g, n, perm, shared)
    {
      ghost var g0 := store.g;
      ghost var all := Children(store.g, n);
      var todo := Children(store.g, n);
      ghost var done: set<EdgeId> := {};
      while todo != {}
        invariant Split(all, todo, done)
        invariant Valid() && store == old(store).(g := store.g)
        invariant OnlyPermsChange(g0, store.g, done) && Follow(drivers, store.g, n, done, perm, shared)
        decreases todo
      {
        var c :| c in todo;
        SetOneChildPerm(n, c, perm, shared, g0, done);
        OneDone(all, todo, done, c);
        todo, done := todo - {c}, done + {c};
      }
      assert done == all;
      AllFollow(drivers, g0, store.g, n, done, perm, shared);
    }

    method SetOneChildPerm(n: Node, c: EdgeId, perm: set<Perm>, shared: set<Perm>, ghost g0: Graph, ghost done: set<EdgeId>)
      requires Valid() && c in Children(g0, n) && c !in done
      requires OnlyPermsChange(g0, store.g, done) && Follow(drivers, store.g, n, done, perm, shared)
      modifies `store, `tran
      ensures Valid() && store == old(store).(g := store.g)
      ensures OnlyPermsChange(g0, store.g, done + {c}) && Follow(drivers, store.g, n, done + {c}, perm, shared)
    {
      ghost var before := store.g;
      var edge := store.g.edges[c];
      var (p, s) := ChildPerm(drivers, n, Some(c), edge.role, edge.bs.value, perm, shared);
      ChildSetPerm(c, p, s);
      FollowOneMore(drivers, g0, before, store.g, n, done, c, perm, shared);
    }

    /**
      bdrv_do_refresh_perms: one pass over a topologically sorted list settles every node on it;
      it fails only if no permissions of their child edges would.
    */
    method DoRefreshPerms(list: seq<Node>) returns (ok: bool)
      requires Valid() && Topological(store.g, list)
      modifies `store, `tran
      ensures Valid() && store == old(store).(g := store.g)
      ensures OnlyPermsChange(old(store).g, store.g, OwnedBy(old(store).g, list))
      ensures ok ==> forall n :: n in list ==> Settled(drivers, store.g, n)
      ensures !ok ==> forall h :: !Settles(drivers, old(store).g, h, list)
    {
      ghost var g0 := store.g;
      for i := 0 to |list|
        invariant Valid() && store == old(store).(g := store.g)
        invariant SettledUpTo(drivers, g0, store.g, list, i)
        invariant Determined(drivers, g0, store.g, list, i)
      {
        ok := RefreshOne(list, i, g0);
        if !ok {
          return false;
        }
      }
      ok := true;
    }

    /** One round of bdrv_do_refresh_perms. */
    method RefreshOne(list: seq<Node>, i: nat, ghost g0: Graph) returns (ok: bool)
      requires Valid() && i < |list|
      requires SettledUpTo(drivers, g0, store.g, list, i) && Determined(drivers, g0, store.g, list, i)
      modifies `store, `tran
      ensures Valid() && store == old(store).(g := store.g)
      ensures SettledUpTo(drivers, g0, store.g, list, if ok then i + 1 else i)
      ensures ok ==> Determined(drivers, g0, store.g, list, i + 1)
      ensures !ok ==> forall h :: !Settles(drivers, g0, h, list)
    {
      var bs := list[i];
      ghost var before := store.g;
      var conflict := ParentPermsConflict(store.g, bs);
      ok := false;
      if !conflict {
        ok := NodeRefreshPerm(bs);
        SettleNext(g0, before, store.g, list, i);
      }
      if ok {
        DeterminedNext(drivers, g0, before, store.g, list, i);
      } else {
        forall h ensures !Settles(drivers, g0, h, list) {
          NobodySettles(drivers, g0, before, h, list, i);
        }
      }
    }

    /** Refreshing the node at `i` settles it and leaves the nodes before it settled. */
    lemma SettleNext(g0: Graph, g: Graph, h: Graph, list: seq<Node>, i: nat)
      requires i < |list| && SettledUpTo(drivers, g0, g, list, i) && Acyclic(g)
      requires OnlyPermsChange(g, h, Children(g, list[i])) && !Conflict(g, list[i])
      ensures SettledUpTo(drivers, g0, h, list, i)
      ensures
        && NodeChecks(drivers, list[i], CumulativePerm(h, list[i]), CumulativeShared(h, list[i]))
        && (drivers.hasDriver(list[i]) ==>
              ChildrenFollow(drivers, h, list[i], CumulativePerm(h, list[i]), CumulativeShared(h, list[i])))
        ==> SettledUpTo(drivers, g0, h, list, i + 1)
    {
      SettleNextShape(g0, g, h, list, i);
      NotOwnChild(g, list[i]);
      CumulativeFrame(g, h, list[i], Children(g, list[i]));
      SettledStay(g, h, list, i);
    }

    lemma SettleNextShape(g0: Graph, g: Graph, h: Graph, list: seq<Node>, i: nat)
      requires i < |list| && OnlyPermsChange(g0, g, OwnedBy(g0, list)) && Topological(g, list)
      requires OnlyPermsChange(g, h, Children(g, list[i]))
      ensures OnlyPermsChange(g0, h, OwnedBy(g0, list)) && Topological(h, list)
    {
      var bs := list[i];
      forall n: Node ensures Children(h, n) == Children(g, n) { SameLists(g, h, Children(g, bs), n); }
      assert Children(g, bs) <= OwnedBy(g0, list);
      OnlyPermsTrans(g0, g, h, OwnedBy(g0, list), Children(g, bs));
      assert OwnedBy(g0, list) + Children(g, bs) == OwnedBy(g0, list);
    }

    /** Refreshing the node at `i` leaves the nodes before it settled. */
    lemma SettledStay(g: Graph, h: Graph, list: seq<Node>, i: nat)
      requires i < |list| && Topological(g, list) && OnlyPermsChange(g, h, Children(g, list[i]))
      requires forall j :: 0 <= j < i ==> Settled(drivers, g, list[j])
      ensures forall j :: 0 <= j < i ==> Settled(drivers, h, list[j])
    {
      forall j | 0 <= j < i ensures Settled(drivers, h, list[j]) {
        forall e | e in Children(g, list[i]) ensures e !in Parents(g, list[j]) && e !in Children(g, list[j]) {
          assert g.edges[e].bs.value in list[i + 1..];
        }
        SettledFrame(drivers, g, h, list[j], Children(g, list[i]));
      }
    }
  
    /** bdrv_list_refresh_perms, and with one root bdrv_refresh_perms inside a transaction. */
    method RefreshPerms(roots: seq<Node>) returns (ok: bool)
      requires Valid() && forall i :: 0 <= i < |roots| ==> roots[i] in store.g.nodes
      modifies `store, `tran
      ensures Valid() && store == old(store).(g := store.g)
      ensures OnlyPermsChange(old(store).g, store.g, store.g.edges.Keys)
      ensures forall e :: e in store.g.edges && store.g.edges[e] != old(store).g.edges[e] ==>
        && store.g.edges[e].parent.Bds?
        && exists i :: 0 <= i < |roots| && Reach(old(store).g, roots[i], store.g.edges[e].parent.node)
      ensures ok ==> forall i :: 0 <= i < |roots| ==> SettledBelow(drivers, store.g, roots[i])
      ensures !ok ==> Hopeless(drivers, old(store).g, roots)
    {
      ghost var g0 := store.g;
      var list := SortSubtrees(store.g, roots);
      ok := DoRefreshPerms(list);
      SameShape(g0, store.g, OwnedBy(g0, list));
      if !ok {
        forall h ensures !SettlesBelow(drivers, g0, h, roots) {
          if SettlesBelow(drivers, g0, h, roots) {
            SettlesBelowIsSettles(drivers, g0, h, roots, list);
          }
        }
      } else {
        forall i, m | 0 <= i < |roots| && m in store.g.nodes && Reach(store.g, roots[i], m)
          ensures Settled(drivers, store.g, m)
        {
          ReachSame(g0, store.g, roots[i], m);
          assert m in list;
        }
      }
    }

    // ----------------------------------------------------------------
    // Ending a transaction

    /** tran_abort */
    method AbortTran()
      requires Valid()
      modifies this
      ensures Idle() && store.g == old(base).g && Same(store, old(base)) && external == old(external)
    {
      while tran != []
        invariant UndoesTo(store, tran, base) && Conserved(store, tran, external)
        invariant base == old(base) && external == old(external)
        decreases |tran|
      {
        AbortOneConserves(store, tran, external);
        store, tran := AbortOne(store, tran[0]), tran[1..];
      }
      base := store;
    }

    /** tran_commit */
    method CommitTran()
      requires Valid()
      modifies this
      ensures Idle() && FreesOnlyDetached(old(store).g, store.g) && store.refs == old(store).refs
      ensures external == old(external)
    {
      while tran != []
        invariant Conserved(store, tran, external) && RemovedStayDetached(store, tran)
        invariant FreesOnlyDetached(old(store).g, store.g) && store.refs == old(store).refs
        invariant external == old(external)
        decreases |tran|
      {
        CommitOneConserves(store, tran, external);
        store, tran := CommitOne(store, tran[0]), tran[1..];
      }
      FreeingKeeps(drivers, old(store).g, store.g);
      base := store;
    }

    /** tran_finalize */
    method Finalize(ok: bool)
      requires Valid()
      modifies this
      ensures Idle() && external == old(external)
      ensures ok ==> FreesOnlyDetached(old(store).g, store.g)
      ensures !ok ==> store.g == old(base).g && Same(store, old(base))
    {
      if ok { CommitTran(); } else { AbortTran(); }
    }

    /**
      The end of every operation: unless it has failed already, refresh the permissions below
      `roots`; then commit or abort.
    */
    method RefreshAndFinalize(edited: bool, roots: seq<Node>) returns (ok: bool)
      requires Valid() && forall i :: 0 <= i < |roots| ==> roots[i] in store.g.nodes
      modifies this
      ensures Idle() && external == old(external)
      ensures ok ==> edited && Refreshed(old(store).g, store.g, Elements(roots))
      ensures ok ==> forall i :: 0 <= i < |roots| ==> SettledBelow(drivers, store.g, roots[i])
      ensures !ok ==> store.g == old(base).g && Same(store, old(base))
      ensures edited && !ok ==> Hopeless(drivers, old(store).g, roots)
    {
      ok := edited;
      if ok {
        ok := RefreshPerms(roots);
      }
      ghost var g := store.g;
      Finalize(ok);
      if ok {
        RefreshedByBoth(old(store).g, g, store.g, roots);
        forall i | 0 <= i < |roots| ensures SettledBelow(drivers, store.g, roots[i]) {
          FreeingKeepsBelow(drivers, g, store.g, roots[i]);
        }
      }
    }

    /** bdrv_child_try_set_perm; a failure to loosen is hidden from the caller. */
    method ChildTrySetPerm(c: EdgeId, perm: set<Perm>, shared: set<Perm>) returns (ok: bool)
      requires Idle() && c in store.g.edges && store.g.edges[c].bs.Some?
      modifies this
      ensures Idle() && external == old(external)
      ensures TrySetPermResult(drivers, old(store), store, c, perm, shared, ok)
    {
      var bs := store.g.edges[c].bs.value;
      ChildSetPerm(c, perm, shared);
      ghost var g1 := store.g;
      EdgeAboveUntouched(store.g, c, bs);
      ok := RefreshAndFinalize(true, [bs]);
      assert [bs][0] == bs && Elements([bs]) == {bs};
      if ok {
        AboveNotRefreshed(g1, store.g, c, bs);
      } else {
        ok := perm <= store.g.edges[c].perm && store.g.edges[c].shared <= shared;
      }
    }

    lemma AboveNotRefreshed(g: Graph, h: Graph, c: EdgeId, bs: Node)
      requires Refreshed(g, h, {bs}) && c in g.edges && g.edges[c].bs.Some?
      requires g.edges[c].parent.Bds? ==> !Reach(g, bs, g.edges[c].parent.node)
      ensures c in h.edges && h.edges[c] == g.edges[c]
    {
    }

    /** An edge to `bs` does not belong to the subtree of `bs`. */
    lemma EdgeAboveUntouched(g: Graph, c: EdgeId, bs: Node)
      requires Acyclic(g) && c in g.edges && g.edges[c].bs == Some(bs)
      ensures g.edges[c].parent.Bds? ==> !Reach(g, bs, g.edges[c].parent.node)
    {
      if g.edges[c].parent.Bds? {
        assert Child(g, g.edges[c].parent.node, bs);
        NoWayBack(g, g.edges[c].parent.node, bs);
      }
    }
  
    // ----------------------------------------------------------------
    // Attaching and detaching

    /**
      bdrv_attach_child_common for a parent that may take `child`; `e` is the
      newly allocated edge.  An inactive node gives no more than consistent reads,
      and both ends have to come into one AioContext.
    */
    method AttachCommon(e: EdgeId, edge: Edge) returns (ok: bool)
      requires Valid() && e !in store.g.edges && edge.bs.Some? && edge.bs.value in store.g.nodes && !edge.frozen
      requires edge.parent.Bds? ==>
        && edge.parent.node in store.g.nodes && drivers.hasChildPerm(edge.parent.node)
        && !Reach(store.g, edge.bs.value, edge.parent.node)
      modifies `store, `tran
      ensures Valid()
      ensures ok <==> MayLink(drivers, edge)
      ensures ok ==> store.g == old(store).g.(edges := old(store).g.edges[e := edge])
      ensures !ok ==> store == old(store) && tran == old(tran)
    {
      if drivers.inactive(edge.bs.value) && !(edge.perm <= {ConsistentRead}) {
        return false;
      }
      // otherwise one end is moved to the AioContext of the other
      if !drivers.contextFits(edge.parent, edge.bs.value) {
        return false;
      }
      ApplyKeepsOpen(store, tran, EditAttach(e, edge), base, external);
      AttachShape(drivers, store.g, e, edge);
      var (s, r) := DoAttach(store, e, edge);
      store, tran := s, [r] + tran;
      return true;
    }

    /** bdrv_attach_child_noperm */
    method AttachChildNoperm(parent: Node, child: Node, role: nat, e: EdgeId) returns (ok: bool)
      requires Valid() && e !in store.g.edges && parent in store.g.nodes && child in store.g.nodes
      requires drivers.hasDriver(parent) && drivers.hasChildPerm(parent)
      modifies `store, `tran
      ensures Valid()
      ensures ok <==> MayAttach(drivers, old(store).g, parent, child, role)
      ensures ok ==> store.g == Linked(old(store).g, e, NewEdge(drivers, old(store).g, parent, child, role))
      ensures !ok ==> store == old(store) && tran == old(tran)
    {
      if RecurseHasChild(store.g, child, parent) {
        return false;
      }
      if drivers.inactive(child) && !drivers.inactive(parent) {
        return false;
      }
      var perm, shared := GetCumulativePerm(store.g, parent);
      var (p, s) := ChildPerm(drivers, parent, None, role, child, perm, shared);
      ok := AttachCommon(e, Edge(Bds(parent), Some(child), role, p, s, false));
    }

    /** The caller gives up its reference to `n`. */
    method DropCallerRef(n: Node)
      requires Idle()
      modifies this
      ensures Idle() && store.g == old(store).g && external == OneLess(old(external), n)
    {
      ScheduleConserves(store, tran, external, n);
      store := ScheduleUnref(store, Some(n));
      base := store;
      external := OneLess(external, n);
    }

    /**
      bdrv_attach_child.  It takes the caller's reference to `child` in any case:
      the edge has one of its own.
    */
    method AttachChild(parent: Node, child: Node, role: nat, e: EdgeId) returns (ok: bool)
      requires Idle() && e !in store.g.edges && parent in store.g.nodes && child in store.g.nodes
      requires drivers.hasDriver(parent) && drivers.hasChildPerm(parent)
      modifies this
      ensures Idle() && external == OneLess(old(external), child)
      ensures ok ==> MayAttach(drivers, old(store).g, parent, child, role)
      ensures ok ==> Attached(drivers, old(store).g, store.g, parent, child, e)
      ensures !ok ==> store.g == old(store).g
      ensures !ok && MayAttach(drivers, old(store).g, parent, child, role) ==>
        Hopeless(drivers, Linked(old(store).g, e, NewEdge(drivers, old(store).g, parent, child, role)), [parent])
    {
      ok := AttachAndRefresh(parent, child, role, e);
      DropCallerRef(child);
    }

    method AttachAndRefresh(parent: Node, child: Node, role: nat, e: EdgeId) returns (ok: bool)
      requires Idle() && e !in store.g.edges && parent in store.g.nodes && child in store.g.nodes
      requires drivers.hasDriver(parent) && drivers.hasChildPerm(parent)
      modifies this
      ensures Idle() && external == old(external)
      ensures ok ==> MayAttach(drivers, old(store).g, parent, child, role)
      ensures ok ==> Attached(drivers, old(store).g, store.g, parent, child, e)
      ensures !ok ==> store.g == old(store).g
      ensures !ok && MayAttach(drivers, old(store).g, parent, child, role) ==>
        Hopeless(drivers, Linked(old(store).g, e, NewEdge(drivers, old(store).g, parent, child, role)), [parent])
    {
      ok := AttachChildNoperm(parent, child, role, e);
      var roots := [parent];
      ghost var h := store.g;
      ok := RefreshAndFinalize(ok, roots);
      if ok {
        OwnAttached(old(store).g, h, store.g, parent, child, role, e, roots);
      }
    }

    lemma OwnAttached(g: Graph, h: Graph, h': Graph, parent: Node, child: Node, role: nat, e: EdgeId, roots: seq<Node>)
      requires roots == [parent] && h == Linked(g, e, NewEdge(drivers, g, parent, child, role))
      requires Refreshed(h, h', Elements(roots))
      requires forall i :: 0 <= i < |roots| ==> SettledBelow(drivers, h', roots[i])
      ensures Attached(drivers, g, h', parent, child, e)
    {
      assert roots[0] == parent && Elements(roots) == {parent};
      RefreshedOwn(g, e, NewEdge(drivers, g, parent, child, role), h', {parent});
    }

    /** bdrv_root_attach_child, for a parent outside the graph. */
    method RootAttachChild(child: Node, stayAtNode: bool, role: nat, perm: set<Perm>, shared: set<Perm>, e: EdgeId)
      returns (ok: bool)
      requires Idle() && e !in store.g.edges && child in store.g.nodes
      modifies this
      ensures Idle() && external == OneLess(old(external), child)
      ensures ok ==>
        && e in store.g.edges
        && store.g.edges[e] == Edge(Root(stayAtNode), Some(child), role, perm, shared, false)
        && Refreshed(Linked(old(store).g, e, store.g.edges[e]), store.g, {child})
        && SettledBelow(drivers, store.g, child)
      ensures !ok ==> store.g == old(store).g
      ensures
        var edge := Edge(Root(stayAtNode), Some(child), role, perm, shared, false);
        if ok then MayLink(drivers, edge)
        else MayLink(drivers, edge) ==> Hopeless(drivers, Linked(old(store).g, e, edge), [child])
    {
      ok := AttachFromOutside(e, Edge(Root(stayAtNode), Some(child), role, perm, shared, false), child);
      DropCallerRef(child);
    }

    method AttachFromOutside(e: EdgeId, edge: Edge, child: Node) returns (ok: bool)
      requires Idle() && e !in store.g.edges && child in store.g.nodes
      requires edge.parent.Root? && edge.bs == Some(child) && !edge.frozen
      modifies this
      ensures Idle() && external == old(external)
      ensures ok ==> e in store.g.edges && store.g.edges[e] == edge && SettledBelow(drivers, store.g, child)
      ensures ok ==> Refreshed(Linked(old(store).g, e, edge), store.g, {child}) && MayLink(drivers, edge)
      ensures !ok ==> store.g == old(store).g
      ensures !ok && MayLink(drivers, edge) ==> Hopeless(drivers, Linked(old(store).g, e, edge), [child])
    {
      ok := AttachCommon(e, edge);
      var roots := [child];
      ok := RefreshAndFinalize(ok, roots);
      if ok {
        OutsideUntouched(old(store).g, store.g, e, edge, child, roots);
      }
    }

    lemma OutsideUntouched(g: Graph, h: Graph, e: EdgeId, edge: Edge, child: Node, roots: seq<Node>)
      requires Refreshed(Linked(g, e, edge), h, Elements(roots)) && roots == [child]
      requires edge.parent.Root? && edge.bs == Some(child)
      requires forall i :: 0 <= i < |roots| ==> SettledBelow(drivers, h, roots[i])
      ensures Refreshed(Linked(g, e, edge), h, {child}) && e in h.edges && h.edges[e] == edge
      ensures SettledBelow(drivers, h, child)
    {
      assert roots[0] == child && Elements(roots) == {child};
      AboveNotRefreshed(Linked(g, e, edge), h, e, child);
    }

    /** bdrv_refresh_perms without a transaction of the caller's: errors leave things as they were. */
    method RefreshAlone(bs: Node) returns (ok: bool)
      requires Idle() && bs in store.g.nodes
      modifies this
      ensures Idle() && external == old(external)
      ensures SameEnds(old(store).g, store.g)
      ensures ok ==> SettledBelow(drivers, store.g, bs) && Refreshed(old(store).g, store.g, {bs})
      ensures !ok ==> store.g == old(store).g && Hopeless(drivers, old(store).g, [bs])
    {
      ok := RefreshAndFinalize(true, [bs]);
      assert [bs][0] == bs && Elements([bs]) == {bs};
    }

    /**
      bdrv_root_unref_child.  The edge's reference becomes a scheduled unref.  The
      permission update below is ignored if it fails, which leaves the rest as it was and
      happens only if no permissions would do.
    */
    method RootUnrefChild(c: EdgeId)
      requires Idle() && c in store.g.edges && !store.g.edges[c].frozen
      modifies this
      ensures Idle() && external == old(external)
      ensures c !in store.g.edges
      ensures
        var g := old(store).g.(edges := old(store).g.edges - {c});
        var bs := old(store).g.edges[c].bs;
        && SameEnds(g, store.g)
        && (bs.None? ==> store.g == g)
        && (bs.Some? ==>
              || (SettledBelow(drivers, store.g, bs.value) && Refreshed(g, store.g, {bs.value}))
              || (store.g == g && Hopeless(drivers, g, [bs.value])))
    {
      var bs := store.g.edges[c].bs;
      FreeConserves(store, c, external);
      FreeShape(drivers, store.g, c);
      store := ScheduleUnref(store.(g := store.g.(edges := store.g.edges - {c})), bs);
      base := store;
      if bs.Some? {
        var _ := RefreshAlone(bs.value);
      }
    }

    /** bdrv_replace_child_tran */
    method ReplaceChildTran(c: EdgeId, newBs: Option<Node>)
      requires Valid() && Allowed(store, EditReplace(c, newBs))
      requires store.g.edges[c].parent.Bds? && newBs.Some? ==> !Reach(store.g, newBs.value, store.g.edges[c].parent.node)
      modifies `store, `tran
      ensures Valid()
      ensures store.g == old(store).g.(edges := old(store).g.edges[c := old(store).g.edges[c].(bs := newBs)])
    {
      ApplyKeepsOpen(store, tran, EditReplace(c, newBs), base, external);
      MoveShape(drivers, store.g, c, newBs);
      var (s, r) := DoReplaceChild(store, c, newBs);
      store, tran := s, [r] + tran;
    }

    /** bdrv_remove_child, for an edge that still has its node. */
    method RemoveChildTran(c: EdgeId)
      requires Valid() && Allowed(store, EditRemove(c))
      modifies `store, `tran
      ensures Valid() && RemoveChild(c) in tran
      ensures store.g == old(store).g.(edges := old(store).g.edges[c := old(store).g.edges[c].(bs := None)])
    {
      ApplyKeepsOpen(store, tran, EditRemove(c), base, external);
      MoveShape(drivers, store.g, c, None);
      var (s, r) := DoReplaceChild(store, c, None);
      store, tran := s, [RemoveChild(c), r] + tran;
      assert tran[0] == RemoveChild(c);
    }

    /** bdrv_replace_node_noperm: redirect the parents of `from` to `to`. */
    method ReplaceNodeNoperm(from: Node, to: Node, autoSkip: bool) returns (ok: bool)
      requires Valid() && to in store.g.nodes && from != to
      modifies `store, `tran
      ensures Valid()
      ensures ok <==> MayRedirect(old(store).g, from, to, autoSkip)
      ensures ok ==> Redirecting(old(store).g, store.g, from, to, autoSkip, {}, Parents(old(store).g, from))
    {
      ghost var g0 := store.g;
      var todo := Parents(store.g, from);
      ghost var done: set<EdgeId> := {};
      while todo != {}
        invariant Valid()
        invariant Redirecting(g0, store.g, from, to, autoSkip, todo, done)
        decreases todo
      {
        var c :| c in todo;
        ok := RedirectOne(c, from, to, autoSkip, g0, todo, done);
        todo := todo - {c};
        done := done + {c};
        if !ok {
          return false;
        }
      }
      return true;
    }

    /** One round of the loop of bdrv_replace_node_noperm. */
    method RedirectOne(c: EdgeId, from: Node, to: Node, autoSkip: bool,
                       ghost g0: Graph, ghost todo: set<EdgeId>, ghost done: set<EdgeId>)
      returns (ok: bool)
      requires Valid() && to in store.g.nodes && from != to && c in todo
      requires Redirecting(g0, store.g, from, to, autoSkip, todo, done)
      modifies `store, `tran
      ensures Valid() && to in store.g.nodes
      ensures ok ==> Redirecting(g0, store.g, from, to, autoSkip, todo - {c}, done + {c})
      ensures ok <==> MayMove(g0, c, to, autoSkip)
    {
      var update := ShouldUpdateChild(store.g, c, to);
      MovableStill(g0, store.g, done, c, to);
      if !update {
        RedirectSkip(g0, store.g, from, to, autoSkip, todo, done, c);
        return autoSkip;
      }
      if store.g.edges[c].frozen {
        return false;
      }
      RedirectStep(g0, store.g, from, to, autoSkip, todo, done, c);
      ReplaceChildTran(c, Some(to));
      return true;
    }

    /** Whether an edge may be redirected does not depend on the edges redirected before it. */
    lemma MovableStill(g: Graph, h: Graph, done: set<EdgeId>, c: EdgeId, to: Node)
      requires Redirected(g, h, done, to) && c in g.edges && c !in done
      requires forall e :: e in done ==> e in g.edges && g.edges[e].bs.Some?
      ensures Movable(h, c, to) <==> Movable(g, c, to)
    {
      if g.edges[c].parent.Bds? {
        RedirectKeepsReach(g, h, done, to, g.edges[c].parent.node);
      }
    }

    /** bdrv_replace_node_common */
    method ReplaceNode(from: Node, to: Node, autoSkip: bool) returns (ok: bool)
      requires Idle() && from in store.g.nodes && to in store.g.nodes && from != to
      modifies this
      ensures Idle() && external == old(external)
      ensures ok ==> MayRedirect(old(store).g, from, to, autoSkip)
      ensures ok ==> Refreshed(AllRedirected(old(store).g, from, to), store.g, {from, to})
      ensures ok ==> SettledBelow(drivers, store.g, from) && SettledBelow(drivers, store.g, to)
      ensures !ok ==> store.g == old(store).g
      ensures !ok && MayRedirect(old(store).g, from, to, autoSkip) ==>
        Hopeless(drivers, AllRedirected(old(store).g, from, to), [from, to])
    {
      ok := ReplaceNodeNoperm(from, to, autoSkip);
      if ok {
        RedirectedIsAll(old(store).g, store.g, from, to, autoSkip);
      }
      var roots := if ok then [from, to] else [];
      ok := RefreshAndFinalize(ok, roots);
      if ok {
        assert roots[0] == from && roots[1] == to && Elements(roots) == {from, to};
      }
    }

    /** bdrv_append up to the permission update. */
    method AppendNoperm(bsNew: Node, bsTop: Node, role: nat, e: EdgeId) returns (ok: bool)
      requires Valid() && bsNew in store.g.nodes && bsTop in store.g.nodes && e !in store.g.edges
      requires drivers.hasDriver(bsNew) && drivers.hasChildPerm(bsNew)
      modifies `store, `tran
      ensures Valid()
      ensures ok <==> MayAppend(drivers, old(store).g, bsNew, bsTop, role, e)
      ensures ok ==> store.g == OnTop(drivers, old(store).g, bsNew, bsTop, role, e)
    {
      ok := AttachChildNoperm(bsNew, bsTop, role, e);
      if !ok {
        return;
      }
      ghost var g1 := store.g;
      ReachSelf(old(store).g, bsNew);
      ok := ReplaceNodeNoperm(bsTop, bsNew, true);
      if ok {
        RedirectedIsAll(g1, store.g, bsTop, bsNew, true);
      }
    }

    /**
      bdrv_append: put `bsNew` on top of `bsTop`; `e` is the edge allocated for its backing child.
      Every parent of `bsTop` that is not below `bsNew` moves up, unless it is a job.
    */
    method Append(bsNew: Node, bsTop: Node, role: nat, e: EdgeId) returns (ok: bool)
      requires Idle() && bsNew in store.g.nodes && bsTop in store.g.nodes && e !in store.g.edges
      requires drivers.hasDriver(bsNew) && drivers.hasChildPerm(bsNew)
      modifies this
      ensures Idle() && external == old(external)
      ensures ok ==> MayAppend(drivers, old(store).g, bsNew, bsTop, role, e)
      ensures ok ==> Appended(drivers, old(store).g, store.g, bsNew, bsTop, e)
      ensures !ok ==> store.g == old(store).g
      ensures !ok && MayAppend(drivers, old(store).g, bsNew, bsTop, role, e) ==>
        Hopeless(drivers, OnTop(drivers, old(store).g, bsNew, bsTop, role, e), [bsNew])
    {
      ok := AppendNoperm(bsNew, bsTop, role, e);
      var roots := if ok then [bsNew] else [];
      ghost var h := store.g;
      ok := RefreshAndFinalize(ok, roots);
      if ok {
        AppendedAll(old(store).g, h, store.g, bsNew, bsTop, role, e, roots);
      }
    }

    lemma AppendedAll(g: Graph, h: Graph, h': Graph, bsNew: Node, bsTop: Node, role: nat, e: EdgeId, roots: seq<Node>)
      requires e !in g.edges && h == OnTop(drivers, g, bsNew, bsTop, role, e) && roots == [bsNew]
      requires Refreshed(h, h', Elements(roots))
      requires forall i :: 0 <= i < |roots| ==> SettledBelow(drivers, h', roots[i])
      ensures Appended(drivers, g, h', bsNew, bsTop, e)
    {
      assert roots[0] == bsNew && Elements(roots) == {bsNew};
      AppendedFrame(g, e, NewEdge(drivers, g, bsNew, bsTop, role), bsNew, bsTop, h');
    }

    lemma AppendedFrame(g: Graph, e: EdgeId, edge: Edge, bsNew: Node, bsTop: Node, h: Graph)
      requires e !in g.edges && edge.parent == Bds(bsNew) && edge.bs == Some(bsTop)
      requires Refreshed(AllRedirected(Linked(g, e, edge), bsTop, bsNew), h, {bsNew})
      ensures e in h.edges && h.edges[e] == edge.(perm := h.edges[e].perm, shared := h.edges[e].shared)
      ensures Refreshed(AllRedirected(Linked(g, e, h.edges[e]), bsTop, bsNew), h, {bsNew})
    {
      var k := AllRedirected(Linked(g, e, edge), bsTop, bsNew);
      NewEdgeStays(g, e, edge, bsTop, bsNew);
      RefreshedOwn(k, e, edge, h, {bsNew});
      RedirectedOwn(g, e, edge, bsTop, bsNew, h.edges[e].perm, h.edges[e].shared);
    }

    /**
      bdrv_set_backing_hd; `current` is the backing edge that `bs` has now, and
      `e` the edge allocated for the new one.
    */
    method SetBacking(bs: Node, current: Option<EdgeId>, backing: Option<Node>, role: nat, e: EdgeId) returns (ok: bool)
      requires Idle() && bs in store.g.nodes && e !in store.g.edges && (backing.Some? ==> backing.value in store.g.nodes)
      requires drivers.hasDriver(bs) ==> drivers.hasChildPerm(bs)
      requires current.Some? ==> current.value in Children(store.g, bs)
      modifies this
      ensures Idle() && external == old(external)
      ensures ok ==> MaySetBacking(drivers, old(store).g, bs, current, backing, role) && SettledBelow(drivers, store.g, bs)
      ensures ok ==> backing.Some? ==>
        e in store.g.edges && store.g.edges[e].parent == Bds(bs) && store.g.edges[e].bs == backing
      ensures ok ==>
        var g := Unlinked(old(store).g, current);
        Refreshed(if backing.Some? then Linked(g, e, store.g.edges[e]) else g, store.g, {bs})
      ensures !ok ==> store.g == old(store).g
      ensures !ok && MaySetBacking(drivers, old(store).g, bs, current, backing, role) ==>
        Hopeless(drivers, Backed(drivers, old(store).g, bs, current, backing, role, e), [bs])
    {
      ok := SetBackingNoperm(bs, current, backing, role, e);
      var roots := if ok then [bs] else [];
      ok := RefreshAndFinalize(ok, roots);
      if ok {
        assert roots[0] == bs && Elements(roots) == {bs};
        if backing.Some? {
          ghost var g := Unlinked(old(store).g, current);
          RefreshedOwn(g, e, NewEdge(drivers, g, bs, backing.value, role), store.g, {bs});
        }
      }
    }

    /** bdrv_set_file_or_backing_noperm for the backing link */
    method SetBackingNoperm(bs: Node, current: Option<EdgeId>, backing: Option<Node>, role: nat, e: EdgeId)
      returns (ok: bool)
      requires Valid() && bs in store.g.nodes && e !in store.g.edges && (backing.Some? ==> backing.value in store.g.nodes)
      requires drivers.hasDriver(bs) ==> drivers.hasChildPerm(bs)
      requires current.Some? ==> current.value in Children(store.g, bs)
      modifies `store, `tran
      ensures Valid()
      ensures ok <==> MaySetBacking(drivers, old(store).g, bs, current, backing, role)
      ensures ok ==> store.g == Backed(drivers, old(store).g, bs, current, backing, role, e)
    {
      if !drivers.hasDriver(bs) {
        return false;
      }
      if current.Some? && store.g.edges[current.value].frozen {
        return false;
      }
      if !drivers.supportsBacking(bs) {
        return false;
      }
      if current.Some? {
        RemoveChildTran(current.value);
      }
      if backing.None? {
        return true;
      }
      ok := AttachChildNoperm(bs, backing.value, role, e);
    }
  }
}
