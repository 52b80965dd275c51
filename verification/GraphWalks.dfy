/**
  The walks over the block graph (qemu/block.c): the cycle test of attaching,
  the breadth-first test of replacing a node, and the topological sort.  The
  order of a node's child list is left open: a loop takes the edges in any order.
*/
module GraphWalks {
  import opened Options
  import opened BlockGraph

  /** bdrv_recurse_has_child; it ends because the graph is acyclic. */
  predicate RecurseHasChild(g: Graph, bs: Node, child: Node)
    requires WellFormed(g) && Acyclic(g)
    ensures RecurseHasChild(g, bs, child) <==> Reach(g, bs, child)
    decreases Below(g, bs)
  {
    HasChildMeaning(g, bs, child);
    bs == child ||
    exists e :: e in Children(g, bs) &&
      (BelowShrinks(g, bs, g.edges[e].bs.value); RecurseHasChild(g, g.edges[e].bs.value, child))
  }

  /** Reaching a node is being it, or reaching it from a child. */
  lemma HasChildMeaning(g: Graph, bs: Node, child: Node)
    ensures Reach(g, bs, child) <==>
      bs == child || exists e :: e in Children(g, bs) && Reach(g, g.edges[e].bs.value, child)
  {
    if bs == child {
      ReachSelf(g, bs);
    } else if Reach(g, bs, child) {
      var n: nat :| Steps(g, bs, child, n);
      var x: Node :| Child(g, bs, x) && Steps(g, x, child, n - 1);
      var e :| e in g.edges && g.edges[e].parent == Bds(bs) && g.edges[e].bs == Some(x);
      assert e in Children(g, bs) && Reach(g, x, child);
    } else {
      forall e | e in Children(g, bs) ensures !Reach(g, g.edges[e].bs.value, child) {
        var x := g.edges[e].bs.value;
        if Reach(g, x, child) {
          assert Child(g, bs, x);
          ReachChild(g, bs, x);
          ReachTransitive(g, bs, x, child);
        }
      }
    }
  }

  /** The edge `c` belongs to a node in the subtree of `to`. */
  ghost predicate EdgeBelow(g: Graph, c: EdgeId, to: Node) {
    c in g.edges && g.edges[c].parent.Bds? && g.edges[c].bs.Some? && Reach(g, to, g.edges[c].parent.node)
  }

  /** What the breadth-first search has established when it may stop looking at `processed`. */
  ghost predicate Explored(g: Graph, to: Node, c: EdgeId, found: set<Node>, processed: set<Node>, ret: bool) {
    && to in found && processed <= found <= g.nodes
    && (forall n :: n in found ==> Reach(g, to, n))
    && (forall n, e :: n in processed && e in Children(g, n) && e != c ==> g.edges[e].bs.value in found || !ret)
    && (ret ==> forall n :: n in processed ==> c !in Children(g, n))
    && (!ret ==> EdgeBelow(g, c, to))
  }

  /**
    should_update_child: may edge `c` be redirected to `to`?  The break on a hit
    leaves only the inner loop, as in the source.
  */
  method ShouldUpdateChild(g: Graph, c: EdgeId, to: Node) returns (ret: bool)
    requires WellFormed(g) && c in g.edges && g.edges[c].bs.Some? && to in g.nodes
    ensures ret <==> g.edges[c].parent != Root(true) && !EdgeBelow(g, c, to)
  {
    if g.edges[c].parent.Root? && g.edges[c].parent.stayAtNode {
      return false;
    }
    ret := true;
    var found := {to};
    var queue := [to];
    ghost var processed: set<Node> := {};
    ReachSelf(g, to);
    while queue != []
      invariant Explored(g, to, c, found, processed, ret)
      invariant forall i :: 0 <= i < |queue| ==> queue[i] in found && queue[i] !in processed
      invariant forall i, j :: 0 <= i < j < |queue| ==> queue[i] != queue[j]
      invariant forall n :: n in found && n !in processed ==> n in queue
      decreases g.nodes - processed
    {
      var v := queue[0];
      queue := queue[1..];
      found, queue, ret := SearchChildren(g, c, to, v, found, queue, ret, processed);
      processed := processed + {v};
    }
    if ret {
      AllExplored(g, to, c, found);
    }
  }

  /** The inner loop of the search, over the children of `v`. */
  method SearchChildren(g: Graph, c: EdgeId, to: Node, v: Node, found0: set<Node>, queue0: seq<Node>, ret0: bool,
                        ghost processed: set<Node>)
    returns (found: set<Node>, queue: seq<Node>, ret: bool)
    requires WellFormed(g) && Explored(g, to, c, found0, processed, ret0)
    requires v in found0 && v !in processed
    requires forall i :: 0 <= i < |queue0| ==> queue0[i] in found0 && queue0[i] !in processed + {v}
    requires forall i, j :: 0 <= i < j < |queue0| ==> queue0[i] != queue0[j]
    requires forall n :: n in found0 && n !in processed + {v} ==> n in queue0
    ensures Explored(g, to, c, found, processed + {v}, ret)
    ensures forall i :: 0 <= i < |queue| ==> queue[i] in found && queue[i] !in processed + {v}
    ensures forall i, j :: 0 <= i < j < |queue| ==> queue[i] != queue[j]
    ensures forall n :: n in found && n !in processed + {v} ==> n in queue
  {
    found, queue, ret := found0, queue0, ret0;
    var todo := Children(g, v);
    while todo != {}
      invariant todo <= Children(g, v)
      invariant Explored(g, to, c, found, processed, ret) && found0 <= found && (ret ==> ret0)
      invariant ret ==> forall e :: e in Children(g, v) - todo ==> e != c && g.edges[e].bs.value in found
      invariant forall i :: 0 <= i < |queue| ==> queue[i] in found && queue[i] !in processed + {v}
      invariant forall i, j :: 0 <= i < j < |queue| ==> queue[i] != queue[j]
      invariant forall n :: n in found && n !in processed + {v} ==> n in queue
      decreases todo
    {
      var c2 :| c2 in todo;
      todo := todo - {c2};
      if c2 == c {
        ret := false;
        break;
      }
      var bs := g.edges[c2].bs.value;
      if bs in found {
        continue;
      }
      assert Child(g, v, bs);
      ReachChild(g, v, bs);
      ReachTransitive(g, to, v, bs);
      ghost var before := queue;
      queue := queue + [bs];
      found := found + {bs};
      assert forall n :: n in before ==> n in queue;
      assert bs == queue[|queue| - 1];
    }
  }

  /** A set closed under children that does not own `c` leaves no way to `c`. */
  lemma AllExplored(g: Graph, to: Node, c: EdgeId, found: set<Node>)
    requires WellFormed(g) && c in g.edges
    requires to in found && forall n, e :: n in found && e in Children(g, n) ==> e != c && g.edges[e].bs.value in found
    ensures !EdgeBelow(g, c, to)
  {
    if EdgeBelow(g, c, to) {
      var p := g.edges[c].parent.node;
      var n: nat :| Steps(g, to, p, n);
      assert c in Children(g, p);
      ClosedContainsSteps(g, found, to, p, n);
    }
  }

  lemma {:induction false} ClosedContainsSteps(g: Graph, closed: set<Node>, a: Node, b: Node, n: nat)
    requires a in closed && forall m, e :: m in closed && e in Children(g, m) ==> g.edges[e].bs.value in closed
    requires Steps(g, a, b, n)
    ensures b in closed
    decreases n
  {
    if n > 0 {
      var x: Node :| Child(g, a, x) && Steps(g, x, b, n - 1);
      var e :| e in g.edges && g.edges[e].parent == Bds(a) && g.edges[e].bs == Some(x);
      assert e in Children(g, a);
      ClosedContainsSteps(g, closed, x, b, n - 1);
    }
  }

  // ------------------------------------------------------------------
  // The topological sort

  /** No node twice, and every child of a listed node is listed further down. */
  ghost predicate Topological(g: Graph, list: seq<Node>) {
    && (forall i, j :: 0 <= i < j < |list| ==> list[i] != list[j])
    && (forall i, e :: 0 <= i < |list| && e in Children(g, list[i]) ==> g.edges[e].bs.value in list[i + 1..])
  }

  /** The nodes on the list, as a set. */
  function Elements(list: seq<Node>): set<Node> {
    set n | n in list
  }

  lemma PrependTopological(g: Graph, list: seq<Node>, bs: Node)
    requires Topological(g, list) && bs !in list
    requires forall e :: e in Children(g, bs) ==> g.edges[e].bs.value in list
    ensures Topological(g, [bs] + list)
  {
    var longer := [bs] + list;
    forall i, e | 0 <= i < |longer| && e in Children(g, longer[i])
      ensures g.edges[e].bs.value in longer[i + 1..]
    {
      assert longer[i + 1..] == list[i..];
      if i > 0 { assert longer[i] == list[i - 1]; }
    }
  }

  /** A topological list holds the whole subtree of everything on it. */
  lemma TopologicalClosed(g: Graph, list: seq<Node>, a: Node, b: Node)
    requires Topological(g, list) && a in list && Reach(g, a, b)
    ensures b in list
  {
    var n: nat :| Steps(g, a, b, n);
    forall m, e | m in Elements(list) && e in Children(g, m) ensures g.edges[e].bs.value in Elements(list) {
      var i :| 0 <= i < |list| && list[i] == m;
      assert g.edges[e].bs.value in list[i + 1..];
    }
    ClosedContainsSteps(g, Elements(list), a, b, n);
  }

  /** The list under construction and the hash table of nodes already seen. */
  class TopologicalSort {
    var list: seq<Node>
    var found: set<Node>

    constructor ()
      ensures list == [] && found == {}
    {
      list, found := [], {};
    }

    /**
      What holds between calls, where `open` are the nodes whose visit has begun
      and not ended.
    */
    ghost predicate Valid(g: Graph, open: set<Node>)
      reads this
    {
      && WellFormed(g) && Acyclic(g)
      && Topological(g, list)
      && found == Elements(list) + open && Elements(list) !! open
      && found <= g.nodes
    }

    /** bdrv_topological_dfs: put the subtree of `bs` on the list, in front of what is there. */
    method Visit(g: Graph, bs: Node, ghost open: set<Node>)
      requires Valid(g, open) && bs in g.nodes && bs !in open
      requires forall a :: a in open ==> Reach(g, a, bs)
      modifies this
      ensures Valid(g, open)
      ensures Elements(list) == old(Elements(list)) + Below(g, bs)
      decreases g.nodes - found
    {
      if bs in found {
        SubtreeListed(g, bs);
        return;
      }
      found := found + {bs};
      var todo := Children(g, bs);
      ghost var start := Elements(list);
      while todo != {}
        invariant todo <= Children(g, bs)
        invariant Valid(g, open + {bs}) && old(found) < found
        invariant start <= Elements(list) <= start + Below(g, bs)
        invariant forall e :: e in Children(g, bs) - todo ==> g.edges[e].bs.value in Elements(list)
        decreases todo
      {
        var e :| e in todo;
        todo := todo - {e};
        var child := g.edges[e].bs.value;
        ChildNotOpen(g, bs, child, open);
        Visit(g, child, open + {bs});
        ReachSelf(g, child);
        BelowShrinks(g, bs, child);
      }
      Close(g, bs, open);
      ReachSelf(g, bs);
      SubtreeListed(g, bs);
    }

    /** The last step of a visit: all children are listed, so the node can go in front. */
    method Close(g: Graph, bs: Node, ghost open: set<Node>)
      requires Valid(g, open + {bs}) && bs !in open
      requires forall e :: e in Children(g, bs) ==> g.edges[e].bs.value in Elements(list)
      modifies `list
      ensures Valid(g, open) && list == [bs] + old(list) && Elements(list) == old(Elements(list)) + {bs}
    {
      PrependTopological(g, list, bs);
      list := [bs] + list;
    }

    /** The subtree of a listed node is listed. */
    lemma SubtreeListed(g: Graph, bs: Node)
      requires Topological(g, list)
      ensures bs in list ==> Below(g, bs) <= Elements(list)
    {
      if bs in list {
        forall b | b in Below(g, bs) ensures b in Elements(list) {
          TopologicalClosed(g, list, bs, b);
        }
      }
    }

    /** Acyclicity is what keeps a child off the path that led here. */
    lemma ChildNotOpen(g: Graph, bs: Node, child: Node, open: set<Node>)
      requires Acyclic(g) && (forall a :: a in open ==> Reach(g, a, bs))
      requires exists e :: e in Children(g, bs) && g.edges[e].bs == Some(child)
      ensures child !in open + {bs}
      ensures Child(g, bs, child) && forall a :: a in open + {bs} ==> Reach(g, a, child)
    {
      assert Child(g, bs, child);
      NoWayBack(g, bs, child);
      ReachSelf(g, bs);
      ReachChild(g, bs, child);
      forall a | a in open ensures Reach(g, a, child) {
        ReachTransitive(g, a, bs, child);
      }
    }
  }

  /**
    The first half of bdrv_list_refresh_perms: complete `roots` by all subtrees
    and sort.  A node may occur in `roots` more than once.
  */
  method SortSubtrees(g: Graph, roots: seq<Node>) returns (list: seq<Node>)
    requires WellFormed(g) && Acyclic(g) && forall i :: 0 <= i < |roots| ==> roots[i] in g.nodes
    ensures Topological(g, list)
    ensures forall n :: n in list <==> n in g.nodes && exists i :: 0 <= i < |roots| && Reach(g, roots[i], n)
  {
    var sort := new TopologicalSort();
    for i := 0 to |roots|
      invariant sort.Valid(g, {})
      invariant forall n :: n in sort.list <==> n in g.nodes && exists j :: 0 <= j < i && Reach(g, roots[j], n)
    {
      ghost var before := sort.list;
      sort.Visit(g, roots[i], {});
      forall n ensures n in sort.list <==> n in g.nodes && exists j :: 0 <= j < i + 1 && Reach(g, roots[j], n) {
        assert n in sort.list <==> n in Elements(sort.list);
        assert n in before <==> n in Elements(before);
        if n in g.nodes && Reach(g, roots[i], n) { assert n in Below(g, roots[i]); }
      }
    }
    list := sort.list;
  }
}
