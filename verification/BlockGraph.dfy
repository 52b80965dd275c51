/**
  The block graph (qemu/block.c): nodes, and edges from a parent to a node.
  A parent is another node, or a root such as a block backend or a block job.
*/
module BlockGraph {

  import opened Options

  type Node = nat
  type EdgeId = nat

  /** BLK_PERM_*; a permission mask is a set of these. */
  datatype Perm = ConsistentRead | Write | WriteUnchanged | Resize

  const ALL_PERMS: set<Perm> := {ConsistentRead, Write, WriteUnchanged, Resize}

  /** The parent of an edge.  A job's edges have `stay_at_node` set in their class. */
  datatype Parent = Bds(node: Node) | Root(stayAtNode: bool)

  /** BdrvChild.  A detached edge has no node (`child->bs == NULL`). */
  datatype Edge = Edge(
    parent: Parent, bs: Option<Node>, role: nat, perm: set<Perm>, shared: set<Perm>, frozen: bool)

  datatype Graph = Graph(nodes: set<Node>, edges: map<EdgeId, Edge>)

  /** Every end of an edge is a node of the graph. */
  predicate WellFormed(g: Graph) {
    forall e :: e in g.edges ==>
      && (g.edges[e].bs.Some? ==> g.edges[e].bs.value in g.nodes)
      && (g.edges[e].parent.Bds? ==> g.edges[e].parent.node in g.nodes)
  }

  /** bs->children: an edge is on its parent's list only while it has a node. */
  function Children(g: Graph, n: Node): set<EdgeId> {
    set e | e in g.edges && g.edges[e].parent == Bds(n) && g.edges[e].bs.Some?
  }

  /** bs->parents */
  function Parents(g: Graph, n: Node): set<EdgeId> {
    set e | e in g.edges && g.edges[e].bs == Some(n)
  }

  ghost predicate Child(g: Graph, a: Node, b: Node) {
    exists e :: e in g.edges && g.edges[e].parent == Bds(a) && g.edges[e].bs == Some(b)
  }

  /** `b` is `n` edges below `a`. */
  ghost predicate Steps(g: Graph, a: Node, b: Node, n: nat)
    decreases n
  {
    if n == 0 then a == b else exists x :: Child(g, a, x) && Steps(g, x, b, n - 1)
  }

  ghost predicate Reach(g: Graph, a: Node, b: Node) {
    exists n: nat :: Steps(g, a, b, n)
  }

  /** No node is below itself. */
  ghost predicate Acyclic(g: Graph) {
    forall a, n: nat :: n > 0 ==> !Steps(g, a, a, n)
  }

  lemma {:induction false} StepsConcat(g: Graph, a: Node, b: Node, c: Node, m: nat, n: nat)
    requires Steps(g, a, b, m) && Steps(g, b, c, n)
    ensures Steps(g, a, c, m + n)
    decreases m
  {
    if m > 0 {
      var x: Node :| Child(g, a, x) && Steps(g, x, b, m - 1);
      StepsConcat(g, x, b, c, m - 1, n);
    }
  }

  lemma ReachSelf(g: Graph, a: Node)
    ensures Reach(g, a, a)
  {
    assert Steps(g, a, a, 0);
  }

  lemma ReachTransitive(g: Graph, a: Node, b: Node, c: Node)
    requires Reach(g, a, b) && Reach(g, b, c)
    ensures Reach(g, a, c)
  {
    var m: nat :| Steps(g, a, b, m);
    var n: nat :| Steps(g, b, c, n);
    StepsConcat(g, a, b, c, m, n);
  }

  lemma ReachChild(g: Graph, a: Node, b: Node)
    requires Child(g, a, b)
    ensures Reach(g, a, b)
  {
    assert Steps(g, b, b, 0);
    assert Steps(g, a, b, 1);
  }

  /** In an acyclic graph a child does not reach back. */
  lemma NoWayBack(g: Graph, a: Node, b: Node)
    requires Acyclic(g) && Child(g, a, b)
    ensures !Reach(g, b, a)
  {
    if Reach(g, b, a) {
      var n: nat :| Steps(g, b, a, n);
      assert Steps(g, a, a, n + 1);
    }
  }

  lemma {:induction false} StepsStayInside(g: Graph, a: Node, b: Node, n: nat)
    requires WellFormed(g) && a in g.nodes && Steps(g, a, b, n)
    ensures b in g.nodes
    decreases n
  {
    if n > 0 {
      var x: Node :| Child(g, a, x) && Steps(g, x, b, n - 1);
      StepsStayInside(g, x, b, n - 1);
    }
  }

  /** The subtree of `a`; it shrinks along every edge, which is why walks downwards end. */
  ghost function Below(g: Graph, a: Node): set<Node> {
    set b | b in g.nodes && Reach(g, a, b)
  }

  lemma BelowShrinks(g: Graph, a: Node, b: Node)
    requires WellFormed(g) && Acyclic(g) && Child(g, a, b)
    ensures Below(g, b) < Below(g, a)
  {
    NoWayBack(g, a, b);
    ReachSelf(g, a);
    ReachChild(g, a, b);
    assert a in g.nodes;
    forall c | c in Below(g, b) ensures c in Below(g, a) {
      ReachTransitive(g, a, b, c);
    }
    assert a in Below(g, a) && a !in Below(g, b);
  }

  // ------------------------------------------------------------------
  // Changing one edge

  /** `h` has no parent-child pair beyond those of `g`, except possibly (p, q). */
  ghost predicate AddsAtMost(g: Graph, h: Graph, p: Node, q: Node) {
    forall a, b :: Child(h, a, b) ==> Child(g, a, b) || (a == p && b == q)
  }

  /** A path that may use the new pair is an old path, or goes to `p` and on from `q`. */
  lemma {:induction false} SplitAtNewPair(g: Graph, h: Graph, p: Node, q: Node, a: Node, b: Node, n: nat)
    requires AddsAtMost(g, h, p, q) && Steps(h, a, b, n)
    ensures Steps(g, a, b, n) || (Reach(g, a, p) && Reach(g, q, b))
    decreases n
  {
    if n > 0 {
      var x: Node :| Child(h, a, x) && Steps(h, x, b, n - 1);
      SplitAtNewPair(g, h, p, q, x, b, n - 1);
      if Child(g, a, x) {
        if !Steps(g, x, b, n - 1) {
          ReachChild(g, a, x);
          ReachTransitive(g, a, x, p);
        }
      } else {
        ReachSelf(g, p);
      }
    }
  }

  /** Adding p -> q to an acyclic graph is safe exactly when `q` does not reach `p`. */
  lemma AcyclicAfterAdding(g: Graph, h: Graph, p: Node, q: Node)
    requires Acyclic(g) && AddsAtMost(g, h, p, q)
    requires !Reach(g, q, p)
    ensures Acyclic(h)
  {
    forall a, n: nat | n > 0 ensures !Steps(h, a, a, n) {
      if Steps(h, a, a, n) {
        SplitAtNewPair(g, h, p, q, a, a, n);
        ReachTransitive(g, q, a, p);
      }
    }
  }

  lemma {:induction false} StepsMonotone(g: Graph, h: Graph, a: Node, b: Node, n: nat)
    requires forall x, y :: Child(g, x, y) ==> Child(h, x, y)
    requires Steps(g, a, b, n)
    ensures Steps(h, a, b, n)
    decreases n
  {
    if n > 0 {
      var x: Node :| Child(g, a, x) && Steps(g, x, b, n - 1);
      StepsMonotone(g, h, x, b, n - 1);
    }
  }

  /** The other direction: if `q` reaches `p`, the new pair closes a cycle. */
  lemma CycleAfterAdding(g: Graph, h: Graph, p: Node, q: Node)
    requires forall x, y :: Child(g, x, y) ==> Child(h, x, y)
    requires Child(h, p, q) && Reach(g, q, p)
    ensures !Acyclic(h)
  {
    var n: nat :| Steps(g, q, p, n);
    StepsMonotone(g, h, q, p, n);
    assert Steps(h, p, p, n + 1);
  }

  /** Dropping pairs keeps a graph acyclic. */
  lemma AcyclicAfterDropping(g: Graph, h: Graph)
    requires Acyclic(g)
    requires forall a, b :: Child(h, a, b) ==> Child(g, a, b)
    ensures Acyclic(h)
  {
    forall a, n: nat | n > 0 ensures !Steps(h, a, a, n) {
      if Steps(h, a, a, n) {
        StepsMonotone(h, g, a, a, n);
      }
    }
  }
}
