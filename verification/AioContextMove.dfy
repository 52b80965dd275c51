/**
  Moving block nodes to another AioContext (qemu/block.c, qemu/blockjob.c): a
  recursion over parents and children collects what has to move, and a
  transaction then moves all of it or nothing.
*/
module AioContextMove {

  import opened Options

  type Node = nat
  type LinkId = nat
  type Job = nat
  type Context = nat

  /**
    Who holds a link, by what its class does when asked to follow: a parent node
    moves itself, a block backend agrees or refuses, a job moves all its nodes,
    and a class without .change_aio_ctx refuses.
  */
  datatype Holder = ByNode(node: Node) | ByBackend(agrees: bool) | ByJob(job: Job) | ByFixed

  datatype Link = Link(holder: Holder, bs: Node)

  datatype World = World(links: map<LinkId, Link>, ctx: map<Node, Context>, jobCtx: map<Job, Context>)

  predicate WellFormed(w: World) {
    forall e :: e in w.links ==>
      && w.links[e].bs in w.ctx
      && (w.links[e].holder.ByNode? ==> w.links[e].holder.node in w.ctx)
      && (w.links[e].holder.ByJob? ==> w.links[e].holder.job in w.jobCtx)
  }

  function Parents(w: World, n: Node): set<LinkId> {
    set e | e in w.links && w.links[e].bs == n
  }

  function Children(w: World, n: Node): set<LinkId> {
    set e | e in w.links && w.links[e].holder == ByNode(n)
  }

  function JobLinks(w: World, j: Job): set<LinkId> {
    set e | e in w.links && w.links[e].holder == ByJob(j)
  }

  /** A link that does not allow its node to move. */
  predicate Refuses(w: World, e: LinkId) {
    e in w.links && (w.links[e].holder == ByFixed || w.links[e].holder == ByBackend(false))
  }

  ghost predicate Above(w: World, skip: set<LinkId>, a: Node, b: Node) {
    exists e :: e in w.links && e !in skip && w.links[e] == Link(ByNode(a), b)
  }

  ghost predicate OfOneJob(w: World, skip: set<LinkId>, a: Node, b: Node) {
    exists d, e :: d in w.links && e in w.links && d !in skip && e !in skip && w.links[d].bs == a &&
      w.links[e].bs == b && w.links[d].holder.ByJob? && w.links[e].holder == w.links[d].holder
  }

  /** Two nodes that have to be in one context: a node and its parent, or two nodes of one job. */
  ghost predicate Adjacent(w: World, skip: set<LinkId>, a: Node, b: Node) {
    Above(w, skip, a, b) || Above(w, skip, b, a) || OfOneJob(w, skip, a, b)
  }

  ghost predicate ConnectedBy(w: World, skip: set<LinkId>, a: Node, b: Node, n: nat)
    decreases n
  {
    if n == 0 then a == b else exists x: Node :: ConnectedBy(w, skip, a, x, n - 1) && Adjacent(w, skip, x, b)
  }

  /** The links in `skip` do not connect. */
  ghost predicate Connected(w: World, skip: set<LinkId>, a: Node, b: Node) {
    exists n: nat :: ConnectedBy(w, skip, a, b, n)
  }

  lemma ConnectedSelf(w: World, skip: set<LinkId>, a: Node)
    ensures Connected(w, skip, a, a)
  {
    assert ConnectedBy(w, skip, a, a, 0);
  }

  lemma ConnectedStep(w: World, skip: set<LinkId>, a: Node, b: Node, c: Node)
    requires Connected(w, skip, a, b) && Adjacent(w, skip, b, c)
    ensures Connected(w, skip, a, c)
  {
    var n: nat :| ConnectedBy(w, skip, a, b, n);
    assert ConnectedBy(w, skip, a, c, n + 1);
  }

  /** The block layer's own invariant: what is connected shares a context. */
  ghost predicate Uniform(w: World, skip: set<LinkId>) {
    forall a, b :: a in w.ctx && b in w.ctx && Adjacent(w, skip, a, b) ==> w.ctx[a] == w.ctx[b]
  }

  lemma AdjacentInside(w: World, skip: set<LinkId>, a: Node, b: Node)
    requires WellFormed(w) && Adjacent(w, skip, a, b)
    ensures a in w.ctx && b in w.ctx
  {
  }

  lemma {:induction false} ClosedCovers(w: World, skip: set<LinkId>, closed: set<Node>, a: Node, b: Node, n: nat)
    requires a in closed && forall x, y :: x in closed && Adjacent(w, skip, x, y) ==> y in closed
    requires ConnectedBy(w, skip, a, b, n)
    ensures b in closed
    decreases n
  {
    if n > 0 {
      var x: Node :| ConnectedBy(w, skip, a, x, n - 1) && Adjacent(w, skip, x, b);
      ClosedCovers(w, skip, closed, a, x, n - 1);
    }
  }

  lemma ConnectedUniform(w: World, skip: set<LinkId>, a: Node, b: Node)
    requires WellFormed(w) && Uniform(w, skip) && a in w.ctx && Connected(w, skip, a, b)
    ensures b in w.ctx && w.ctx[b] == w.ctx[a]
  {
    var same := set n | n in w.ctx && w.ctx[n] == w.ctx[a];
    forall x: Node, y: Node | x in same && Adjacent(w, skip, x, y) ensures y in same {
      AdjacentInside(w, skip, x, y);
    }
    var n: nat :| ConnectedBy(w, skip, a, b, n);
    ClosedCovers(w, skip, same, a, b, n);
  }

  datatype Record = MoveNode(node: Node) | MoveJob(job: Job)

  /** Once node `n` is done, all its links have been visited and its move is recorded. */
  predicate NodeDone(w: World, visited: set<LinkId>, recs: set<Record>, n: Node) {
    Parents(w, n) <= visited && Children(w, n) <= visited && MoveNode(n) in recs
  }

  /** A visited link agrees, and what hangs on its two ends has been entered. */
  predicate LinkDone(w: World, target: Context, visited: set<LinkId>, entered: set<Node>, recs: set<Record>,
                     openJobs: set<Job>, e: LinkId)
    requires e in w.links && WellFormed(w)
  {
    var link := w.links[e];
    && !Refuses(w, e)
    && (link.bs in entered || w.ctx[link.bs] == target)
    && (link.holder.ByNode? ==> link.holder.node in entered || w.ctx[link.holder.node] == target)
    && (link.holder.ByJob? && link.holder.job !in openJobs ==>
          JobLinks(w, link.holder.job) <= visited && MoveJob(link.holder.job) in recs)
  }

  datatype Progress = Progress(visited: set<LinkId>, entered: set<Node>, recs: set<Record>)

  /** What a call that returns true has added between `p` and `q`. */
  predicate Grown(w: World, target: Context, p: Progress, q: Progress, openJobs: set<Job>)
    requires WellFormed(w)
  {
    && p.visited <= q.visited && p.entered <= q.entered && p.recs <= q.recs
    && (forall n :: n in q.entered && n !in p.entered ==> NodeDone(w, q.visited, q.recs, n))
    && (forall e :: e in q.visited && e !in p.visited ==>
          e in w.links && LinkDone(w, target, q.visited, q.entered, q.recs, openJobs, e))
  }

  lemma GrownTrans(w: World, target: Context, p: Progress, q: Progress, r: Progress, openJobs: set<Job>)
    requires WellFormed(w) && Grown(w, target, p, q, openJobs) && Grown(w, target, q, r, openJobs)
    ensures Grown(w, target, p, r, openJobs)
  {
    forall e | e in r.visited && e !in p.visited
      ensures e in w.links && LinkDone(w, target, r.visited, r.entered, r.recs, openJobs, e)
    {
      if e in q.visited {
        assert LinkDone(w, target, q.visited, q.entered, q.recs, openJobs, e);
      }
    }
  }

  /** Some link that refuses is attached to a node connected with `root`. */
  ghost predicate Blocked(w: World, skip: set<LinkId>, root: Node) {
    exists e :: e in w.links && e !in skip && Refuses(w, e) && Connected(w, skip, root, w.links[e].bs)
  }

  /** The job holds a node connected with `root`. */
  ghost predicate OfComponent(w: World, skip: set<LinkId>, root: Node, j: Job) {
    exists e :: e in w.links && e !in skip && w.links[e].holder == ByJob(j) && Connected(w, skip, root, w.links[e].bs)
  }

  /** A walk keeps to what is connected with `root`. */
  ghost predicate Inside(w: World, skip: set<LinkId>, root: Node, q: Progress) {
    && (forall n :: n in q.entered ==> n in w.ctx && Connected(w, skip, root, n))
    && (forall r :: r in q.recs ==> match r
          case MoveNode(n) => n in q.entered
          case MoveJob(j) => j in w.jobCtx && OfComponent(w, skip, root, j))
  }

  /** The recursion phase: the table of visited links and the records collected so far. */
  class Walk {
    const w: World
    const target: Context
    ghost const skip: set<LinkId>
    ghost const root: Node
    var visited: set<LinkId>
    var recs: set<Record>
    ghost var entered: set<Node>

    constructor (world: World, ctx: Context, ignore: Option<LinkId>, ghost start: Node)
      ensures w == world && target == ctx && root == start && recs == {} && entered == {}
      ensures visited == skip == if ignore.Some? then {ignore.value} else {}
    {
      w, target, recs, entered, root := world, ctx, {}, {}, start;
      visited := if ignore.Some? then {ignore.value} else {};
      skip := if ignore.Some? then {ignore.value} else {};
    }

    ghost predicate Valid()
      reads this
    {
      && WellFormed(w) && skip <= visited
      && Inside(w, skip, root, Now())
    }

    /** The walk so far. */
    ghost function Now(): Progress
      reads this
    {
      Progress(visited, entered, recs)
    }

    /** bdrv_change_aio_context */
    method ChangeNode(bs: Node, ghost openJobs: set<Job>) returns (ok: bool)
      requires Valid() && bs in w.ctx && Connected(w, skip, root, bs)
      modifies this
      ensures Valid() && old(visited) <= visited
      ensures ok ==> Grown(w, target, old(Now()), Now(), openJobs) && (bs in entered || w.ctx[bs] == target)
      ensures !ok ==> Blocked(w, skip, root) && w.ctx[bs] != target
      ensures w.ctx[bs] == target ==> Now() == old(Now())
      decreases w.links.Keys - visited, 1
    {
      if w.ctx[bs] == target {
        return true;
      }
      entered := entered + {bs};
      ghost var begun := Now();
      var todo := Parents(w, bs);
      while todo != {}
        invariant Valid() && todo <= Parents(w, bs)
        invariant Grown(w, target, begun, Now(), openJobs) && Parents(w, bs) - todo <= visited
        decreases todo
      {
        var c :| c in todo;
        ghost var before := Now();
        ok := ParentChange(c, bs, openJobs);
        if !ok {
          return false;
        }
        GrownTrans(w, target, begun, before, Now(), openJobs);
        todo := todo - {c};
      }
      todo := Children(w, bs);
      while todo != {}
        invariant Valid() && todo <= Children(w, bs)
        invariant Grown(w, target, begun, Now(), openJobs) && Parents(w, bs) <= visited && Children(w, bs) - todo <= visited
        decreases todo
      {
        var c :| c in todo;
        ghost var before := Now();
        ok := ChildChange(c, bs, openJobs);
        if !ok {
          return false;
        }
        GrownTrans(w, target, begun, before, Now(), openJobs);
        todo := todo - {c};
      }
      recs := recs + {MoveNode(bs)};
      return true;
    }

    /** bdrv_parent_change_aio_context, with the .change_aio_ctx callbacks of the parent classes. */
    method ParentChange(c: LinkId, ghost bs: Node, ghost openJobs: set<Job>) returns (ok: bool)
      requires Valid() && c in w.links && w.links[c].bs == bs && bs in entered
      modifies this
      ensures Valid() && old(visited) <= visited
      ensures ok ==> Grown(w, target, old(Now()), Now(), openJobs) && c in visited
      ensures !ok ==> Blocked(w, skip, root)
      decreases w.links.Keys - visited, 0
    {
      if c in visited {
        return true;
      }
      visited := visited + {c};
      match w.links[c].holder {
        case ByFixed => return false;
        case ByBackend(agrees) => return agrees;
        case ByNode(n) =>
          assert Adjacent(w, skip, bs, n);
          ConnectedStep(w, skip, root, bs, n);
          ok := ChangeNode(n, openJobs);
        case ByJob(j) =>
          ok := JobChange(j, c, openJobs);
      }
    }

    /** bdrv_child_change_aio_context */
    method ChildChange(c: LinkId, ghost from: Node, ghost openJobs: set<Job>) returns (ok: bool)
      requires Valid() && c in w.links && (c in visited || Adjacent(w, skip, from, w.links[c].bs)) && from in entered
      requires w.links[c].holder.ByNode? ==> w.links[c].holder.node == from
      requires w.links[c].holder.ByNode? || (w.links[c].holder.ByJob? && w.links[c].holder.job in openJobs)
      modifies this
      ensures Valid() && old(visited) <= visited
      ensures ok ==> Grown(w, target, old(Now()), Now(), openJobs) && c in visited
      ensures !ok ==> Blocked(w, skip, root)
      decreases w.links.Keys - visited, 0
    {
      if c in visited {
        return true;
      }
      visited := visited + {c};
      ConnectedStep(w, skip, root, from, w.links[c].bs);
      ok := ChangeNode(w.links[c].bs, openJobs);
    }

    /** child_job_change_aio_ctx: the job moves with all its nodes. */
    method JobChange(j: Job, ghost c: LinkId, ghost openJobs: set<Job>) returns (ok: bool)
      requires Valid() && c in visited && c in w.links && w.links[c].holder == ByJob(j) && w.links[c].bs in entered
      requires c !in skip
      modifies this
      ensures Valid() && old(visited) <= visited
      ensures ok ==>
        && Grown(w, target, old(Now()), Now(), openJobs) && JobLinks(w, j) <= visited && MoveJob(j) in recs
      ensures !ok ==> Blocked(w, skip, root)
      decreases w.links.Keys - visited, 2
    {
      var todo := JobLinks(w, j);
      while todo != {}
        invariant Valid() && todo <= JobLinks(w, j)
        invariant Grown(w, target, old(Now()), Now(), openJobs + {j}) && JobLinks(w, j) - todo <= visited
        decreases todo
      {
        var sibling :| sibling in todo;
        if sibling !in visited {
          assert Adjacent(w, skip, w.links[c].bs, w.links[sibling].bs);
        }
        ghost var before := Now();
        ok := ChildChange(sibling, w.links[c].bs, openJobs + {j});
        if !ok {
          return false;
        }
        GrownTrans(w, target, old(Now()), before, Now(), openJobs + {j});
        todo := todo - {sibling};
      }
      recs := recs + {MoveJob(j)};
      return true;
    }
  }

  /** The neighbours of a node that a finished walk has dealt with have been entered. */
  lemma NeighbourEntered(w: World, target: Context, skip: set<LinkId>, p: Progress, q: Progress, x: Node, b: Node)
    requires WellFormed(w) && b in w.ctx && w.ctx[b] != target
    requires p.visited == skip && p.entered == {} && Grown(w, target, p, q, {}) && x in q.entered
    requires Adjacent(w, skip, x, b)
    ensures b in q.entered
  {
    assert NodeDone(w, q.visited, q.recs, x);
    if Above(w, skip, x, b) {
      var e :| e in w.links && e !in skip && w.links[e] == Link(ByNode(x), b);
      assert e in Children(w, x);
      assert LinkDone(w, target, q.visited, q.entered, q.recs, {}, e);
    } else if Above(w, skip, b, x) {
      var e :| e in w.links && e !in skip && w.links[e] == Link(ByNode(b), x);
      assert e in Parents(w, x);
      assert LinkDone(w, target, q.visited, q.entered, q.recs, {}, e);
    } else {
      var d, e :| d in w.links && e in w.links && d !in skip && e !in skip && w.links[d].bs == x &&
        w.links[e].bs == b && w.links[d].holder.ByJob? && w.links[e].holder == w.links[d].holder;
      assert d in Parents(w, x);
      assert LinkDone(w, target, q.visited, q.entered, q.recs, {}, d);
      assert e in JobLinks(w, w.links[d].holder.job);
      assert LinkDone(w, target, q.visited, q.entered, q.recs, {}, e);
    }
  }

  /** A finished walk that entered the start has entered everything connected with it. */
  lemma WalkCoversComponent(
    w: World, target: Context, skip: set<LinkId>, p: Progress, q: Progress, a: Node, b: Node)
    requires WellFormed(w) && Uniform(w, skip) && a in w.ctx && w.ctx[a] != target
    requires p.visited == skip && p.entered == {} && Grown(w, target, p, q, {}) && a in q.entered
    requires forall n :: n in q.entered ==> Connected(w, skip, a, n)
    requires Connected(w, skip, a, b)
    ensures b in q.entered
  {
    forall x: Node, y: Node | x in q.entered && Adjacent(w, skip, x, y) ensures y in q.entered {
      ConnectedStep(w, skip, a, x, y);
      ConnectedUniform(w, skip, a, y);
      NeighbourEntered(w, target, skip, p, q, x, y);
    }
    var n: nat :| ConnectedBy(w, skip, a, b, n);
    ClosedCovers(w, skip, q.entered, a, b, n);
  }

  /** After a walk that returned true nothing in the component refuses, and its jobs move along. */
  lemma WalkFindsAll(w: World, target: Context, skip: set<LinkId>, p: Progress, q: Progress, a: Node, e: LinkId)
    requires WellFormed(w) && Uniform(w, skip) && a in w.ctx && w.ctx[a] != target
    requires p.visited == skip && p.entered == {} && Grown(w, target, p, q, {}) && a in q.entered
    requires forall n :: n in q.entered ==> Connected(w, skip, a, n)
    requires e in w.links && e !in skip && Connected(w, skip, a, w.links[e].bs)
    ensures MoveNode(w.links[e].bs) in q.recs && !Refuses(w, e)
    ensures w.links[e].holder.ByJob? ==> MoveJob(w.links[e].holder.job) in q.recs
  {
    WalkCoversComponent(w, target, skip, p, q, a, w.links[e].bs);
    assert NodeDone(w, q.visited, q.recs, w.links[e].bs);
    assert e in Parents(w, w.links[e].bs);
    assert LinkDone(w, target, q.visited, q.entered, q.recs, {}, e);
  }

  /** Every node connected with `bs` is in `target` and every other node is where it was. */
  ghost predicate Moved(w: World, w': World, skip: set<LinkId>, bs: Node, target: Context) {
    && w'.links == w.links && w'.ctx.Keys == w.ctx.Keys
    && forall n :: n in w.ctx ==> w'.ctx[n] == if Connected(w, skip, bs, n) then target else w.ctx[n]
  }

  /** The jobs on nodes connected with `bs` are in `target` and every other job is where it was. */
  ghost predicate JobsMoved(w: World, w': World, skip: set<LinkId>, bs: Node, target: Context) {
    && w'.jobCtx.Keys == w.jobCtx.Keys
    && forall j :: j in w.jobCtx ==> w'.jobCtx[j] == if OfComponent(w, skip, bs, j) then target else w.jobCtx[j]
  }

  /** The recorded nodes and jobs are in `target`, and all others where they were. */
  predicate Committed(w: World, w': World, recs: set<Record>, target: Context) {
    && w'.links == w.links && w'.ctx.Keys == w.ctx.Keys && w'.jobCtx.Keys == w.jobCtx.Keys
    && (forall n :: n in w.ctx ==> w'.ctx[n] == if MoveNode(n) in recs then target else w.ctx[n])
    && (forall j :: j in w.jobCtx ==> w'.jobCtx[j] == if MoveJob(j) in recs then target else w.jobCtx[j])
  }

  /** After a finished walk the recorded moves are those of the nodes and jobs of the component. */
  lemma ComponentMoves(w: World, w': World, target: Context, skip: set<LinkId>, p: Progress, q: Progress, bs: Node)
    requires WellFormed(w) && Uniform(w, skip) && bs in w.ctx && w.ctx[bs] != target
    requires p.visited == skip && p.entered == {} && Grown(w, target, p, q, {}) && bs in q.entered
    requires Inside(w, skip, bs, q) && Committed(w, w', q.recs, target)
    ensures Moved(w, w', skip, bs, target) && JobsMoved(w, w', skip, bs, target) && !Blocked(w, skip, bs)
  {
    forall n | n in w.ctx ensures MoveNode(n) in q.recs <==> Connected(w, skip, bs, n) {
      if Connected(w, skip, bs, n) {
        WalkCoversComponent(w, target, skip, p, q, bs, n);
        assert NodeDone(w, q.visited, q.recs, n);
      }
    }
    forall e | e in w.links && e !in skip && Connected(w, skip, bs, w.links[e].bs)
      ensures !Refuses(w, e) && (w.links[e].holder.ByJob? ==> MoveJob(w.links[e].holder.job) in q.recs)
    {
      WalkFindsAll(w, target, skip, p, q, bs, e);
    }
    forall j | j in w.jobCtx ensures MoveJob(j) in q.recs <==> OfComponent(w, skip, bs, j) {
    }
  }

  /** Nothing has moved, and a component that is in `target` is there already. */
  lemma NothingMoves(w: World, w': World, target: Context, skip: set<LinkId>, bs: Node)
    requires Uniform(w, skip) && bs in w.ctx && w.ctx[bs] == target && Committed(w, w', {}, target)
    requires WellFormed(w)
    ensures w' == w && Moved(w, w', skip, bs, target)
  {
    assert w'.ctx == w.ctx && w'.jobCtx == w.jobCtx;
    forall n | n in w.ctx && Connected(w, skip, bs, n) ensures w.ctx[n] == target {
      ConnectedUniform(w, skip, bs, n);
    }
  }

  /** tran_commit: run the recorded moves. */
  method CommitMoves(w: World, recs: set<Record>, target: Context) returns (w': World)
    requires forall r :: r in recs ==> match r case MoveNode(n) => n in w.ctx case MoveJob(j) => j in w.jobCtx
    ensures Committed(w, w', recs, target)
  {
    w' := w;
    var todo := recs;
    while todo != {}
      invariant todo <= recs
      invariant w'.links == w.links && w'.ctx.Keys == w.ctx.Keys && w'.jobCtx.Keys == w.jobCtx.Keys
      invariant forall n :: n in w.ctx ==> w'.ctx[n] == if MoveNode(n) in recs - todo then target else w.ctx[n]
      invariant forall j :: j in w.jobCtx ==> w'.jobCtx[j] == if MoveJob(j) in recs - todo then target else w.jobCtx[j]
      decreases todo
    {
      var r :| r in todo;
      todo := todo - {r};
      match r {
        case MoveNode(n) => w' := w'.(ctx := w'.ctx[n := target]);
        case MoveJob(j) => w' := w'.(jobCtx := w'.jobCtx[j := target]);
      }
    }
  }

  /**
    bdrv_try_change_aio_context_locked.  The move happens exactly when `bs` is
    there already or nothing it is connected with refuses, and it is all or
    nothing.
  */
  method TryChangeContext(w: World, bs: Node, target: Context, ignore: Option<LinkId>)
    returns (ok: bool, w': World, ghost skip: set<LinkId>)
    requires WellFormed(w) && bs in w.ctx
    requires Uniform(w, if ignore.Some? then {ignore.value} else {})
    ensures skip == if ignore.Some? then {ignore.value} else {}
    ensures ok <==> w.ctx[bs] == target || !Blocked(w, skip, bs)
    ensures ok ==> Moved(w, w', skip, bs, target)
    ensures ok && w.ctx[bs] != target ==> JobsMoved(w, w', skip, bs, target)
    ensures !ok || w.ctx[bs] == target ==> w' == w
  {
    var walk := new Walk(w, target, ignore, bs);
    skip := walk.skip;
    ghost var p := walk.Now();
    ConnectedSelf(w, skip, bs);
    ok := walk.ChangeNode(bs, {});
    if !ok {
      return false, w, skip;
    }
    w' := CommitMoves(w, walk.recs, target);
    if w.ctx[bs] == target {
      NothingMoves(w, w', target, skip, bs);
    } else {
      ComponentMoves(w, w', target, skip, p, walk.Now(), bs);
    }
  }
}
