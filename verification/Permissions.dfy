/**
  Permissions of the block graph (qemu/block.c): what a node's parents ask of it
  together, what its driver then asks of its children, and when that is consistent.
*/
module Permissions {
  import opened Options
  import opened BlockGraph

  /**
    What the block layer asks of drivers and images.  `childPerm` is the
    driver's .bdrv_child_perm (called without an edge while attaching), and
    `checkPerm` its .bdrv_check_perm.  `writable` is the answer after the reopen
    queue at hand, and `aligned` tells whether the image size is a multiple of the
    request alignment.  `contextFits` tells whether the two ends of an edge can be
    brought into one AioContext.
  */
  datatype Drivers = Drivers(
    hasDriver: Node -> bool,
    hasChildPerm: Node -> bool,
    childPerm: (Node, Option<EdgeId>, nat, set<Perm>, set<Perm>) -> (set<Perm>, set<Perm>),
    checkPerm: (Node, set<Perm>, set<Perm>) -> bool,
    writable: Node -> bool,
    aligned: Node -> bool,
    forceShare: Node -> bool,
    inactive: Node -> bool,
    supportsBacking: Node -> bool,
    contextFits: (Parent, Node) -> bool)

  /** What the parents of `n` require together, and what they all share. */
  function CumulativePerm(g: Graph, n: Node): set<Perm> {
    set p | p in ALL_PERMS && exists e :: e in Parents(g, n) && p in g.edges[e].perm
  }

  function CumulativeShared(g: Graph, n: Node): set<Perm> {
    set p | p in ALL_PERMS && forall e :: e in Parents(g, n) ==> p in g.edges[e].shared
  }

  /** Two parents of `n`, one of which needs what the other does not share. */
  predicate Conflict(g: Graph, n: Node) {
    exists a, b :: a in Parents(g, n) && b in Parents(g, n) && a != b && !(g.edges[b].perm <= g.edges[a].shared)
  }

  /** bdrv_child_perm */
  function ChildPerm(d: Drivers, n: Node, e: Option<EdgeId>, role: nat, child: Node, perm: set<Perm>, shared: set<Perm>)
    : (set<Perm>, set<Perm>)
  {
    var (p, s) := d.childPerm(n, e, role, perm, shared);
    (p, if d.forceShare(child) then ALL_PERMS else s)
  }

  /** A writer of either kind is among the parents. */
  predicate Writes(perm: set<Perm>) {
    Write in perm || WriteUnchanged in perm
  }

  /** The checks that bdrv_node_refresh_perm makes of the node itself. */
  predicate NodeChecks(d: Drivers, n: Node, perm: set<Perm>, shared: set<Perm>) {
    && (Writes(perm) ==> d.writable(n))
    && (Writes(perm) && Resize !in perm ==> d.aligned(n))
    && (d.hasDriver(n) ==> d.checkPerm(n, perm, shared))
  }

  /** The child edges of `n` carry what its driver computes from `perm` and `shared`. */
  predicate ChildrenFollow(d: Drivers, g: Graph, n: Node, perm: set<Perm>, shared: set<Perm>) {
    forall e :: e in Children(g, n) ==>
      (g.edges[e].perm, g.edges[e].shared) ==
        ChildPerm(d, n, Some(e), g.edges[e].role, g.edges[e].bs.value, perm, shared)
  }

  /** Everything that is promised of one node. */
  predicate Settled(d: Drivers, g: Graph, n: Node) {
    && !Conflict(g, n)
    && NodeChecks(d, n, CumulativePerm(g, n), CumulativeShared(g, n))
    && (d.hasDriver(n) ==> ChildrenFollow(d, g, n, CumulativePerm(g, n), CumulativeShared(g, n)))
  }

  /** Only permissions differ, and only on edges that `touched` allows. */
  ghost predicate OnlyPermsChange(g: Graph, h: Graph, touched: set<EdgeId>) {
    && h.nodes == g.nodes && h.edges.Keys == g.edges.Keys
    && forall e :: e in g.edges ==>
         && h.edges[e] == g.edges[e].(perm := h.edges[e].perm, shared := h.edges[e].shared)
         && (e !in touched ==> h.edges[e] == g.edges[e])
  }

  /** Being settled depends only on the edges at the node. */
  lemma SettledFrame(d: Drivers, g: Graph, h: Graph, n: Node, touched: set<EdgeId>)
    requires OnlyPermsChange(g, h, touched) && Settled(d, g, n)
    requires touched !! Parents(g, n) && touched !! Children(g, n)
    ensures Settled(d, h, n)
  {
    CumulativeFrame(g, h, n, touched);
    assert Children(h, n) == Children(g, n);
  }

  lemma CumulativeFrame(g: Graph, h: Graph, n: Node, touched: set<EdgeId>)
    requires OnlyPermsChange(g, h, touched) && touched !! Parents(g, n)
    ensures Parents(h, n) == Parents(g, n) && (Conflict(h, n) <==> Conflict(g, n))
    ensures CumulativePerm(h, n) == CumulativePerm(g, n) && CumulativeShared(h, n) == CumulativeShared(g, n)
  {
    assert Parents(h, n) == Parents(g, n);
    assert forall e :: e in Parents(g, n) ==> h.edges[e] == g.edges[e];
  }

  /** What a node sees of its parents depends only on their edges. */
  lemma SameParents(g: Graph, h: Graph, n: Node)
    requires OnlyPermsChange(g, h, g.edges.Keys) && forall e :: e in Parents(g, n) ==> h.edges[e] == g.edges[e]
    ensures Parents(h, n) == Parents(g, n) && (Conflict(h, n) <==> Conflict(g, n))
    ensures CumulativePerm(h, n) == CumulativePerm(g, n) && CumulativeShared(h, n) == CumulativeShared(g, n)
  {
    CumulativeFrame(g, h, n, g.edges.Keys - Parents(g, n));
  }

  lemma SameLists(g: Graph, h: Graph, touched: set<EdgeId>, n: Node)
    requires OnlyPermsChange(g, h, touched)
    ensures Children(h, n) == Children(g, n) && Parents(h, n) == Parents(g, n)
  {
  }

  /** Permissions do not matter for the shape of the graph. */
  lemma SameShape(g: Graph, h: Graph, touched: set<EdgeId>)
    requires OnlyPermsChange(g, h, touched)
    ensures forall a, b :: Child(h, a, b) <==> Child(g, a, b)
    ensures forall n :: Children(h, n) == Children(g, n) && Parents(h, n) == Parents(g, n)
    ensures WellFormed(g) ==> WellFormed(h)
    ensures Acyclic(g) ==> Acyclic(h)
  {
    forall a: Node, b: Node ensures Child(h, a, b) <==> Child(g, a, b) {
      if Child(g, a, b) {
        var e :| e in g.edges && g.edges[e].parent == Bds(a) && g.edges[e].bs == Some(b);
        assert e in h.edges && h.edges[e].parent == Bds(a) && h.edges[e].bs == Some(b);
      }
      if Child(h, a, b) {
        var e :| e in h.edges && h.edges[e].parent == Bds(a) && h.edges[e].bs == Some(b);
        assert e in g.edges && g.edges[e].parent == Bds(a) && g.edges[e].bs == Some(b);
      }
    }
    if Acyclic(g) { AcyclicAfterDropping(g, h); }
  }

  /** bdrv_get_cumulative_perm */
  method GetCumulativePerm(g: Graph, n: Node) returns (perm: set<Perm>, shared: set<Perm>)
    ensures perm == CumulativePerm(g, n) && shared == CumulativeShared(g, n)
  {
    perm, shared := {}, ALL_PERMS;
    var todo := Parents(g, n);
    while todo != {}
      invariant todo <= Parents(g, n)
      invariant forall p :: p in perm <==> exists e :: e in Parents(g, n) - todo && p in g.edges[e].perm
      invariant forall p :: p in shared <==> p in ALL_PERMS && forall e :: e in Parents(g, n) - todo ==> p in g.edges[e].shared
      decreases todo
    {
      var c :| c in todo;
      todo := todo - {c};
      perm := perm + g.edges[c].perm;
      shared := shared * g.edges[c].shared;
    }
    forall p: Perm ensures p in ALL_PERMS {
      match p case ConsistentRead => case Write => case WriteUnchanged => case Resize =>
    }
  }

  /** bdrv_parent_perms_conflict: each pair is looked at in both directions. */
  method ParentPermsConflict(g: Graph, n: Node) returns (conflict: bool)
    ensures conflict <==> Conflict(g, n)
  {
    var outer := Parents(g, n);
    while outer != {}
      invariant outer <= Parents(g, n)
      invariant forall a, b :: a in Parents(g, n) - outer && b in Parents(g, n) && a != b ==>
        g.edges[b].perm <= g.edges[a].shared
      decreases outer
    {
      var a :| a in outer;
      outer := outer - {a};
      var inner := Parents(g, n);
      while inner != {}
        invariant inner <= Parents(g, n)
        invariant forall b :: b in Parents(g, n) - inner && a != b ==> g.edges[b].perm <= g.edges[a].shared
        decreases inner
      {
        var b :| b in inner;
        inner := inner - {b};
        if a == b {
          continue;
        }
        if !(g.edges[b].perm <= g.edges[a].shared) {
          return true;
        }
      }
    }
    return false;
  }
}
