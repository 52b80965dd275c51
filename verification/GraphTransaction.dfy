/**
  Transactional graph edits (qemu/block.c over qemu/util/transactions.c): each
  edit pushes a record, abort and commit run the records most recent first, and
  references to nodes move between edges, records and scheduled unrefs.
*/
module GraphTransaction {
  import opened Options
  import opened BlockGraph

  /**
    The graph with its reference counts.  `scheduled` holds the references that
    bdrv_schedule_unref will drop once the graph lock is released.
  */
  datatype Store = Store(g: Graph, refs: map<Node, int>, scheduled: multiset<Node>)

  /** An entry of the transaction, with what its abort or commit callback needs. */
  datatype Record =
    | SetPerm(edge: EdgeId, oldPerm: set<Perm>, oldShared: set<Perm>)
    | ReplaceChild(edge: EdgeId, oldBs: Option<Node>)
    | AttachChild(edge: EdgeId)
    | RemoveChild(edge: EdgeId)
    | DriverSetPerm(node: Node)

  function WithEdge(s: Store, e: EdgeId, edge: Edge): Store {
    s.(g := s.g.(edges := s.g.edges[e := edge]))
  }

  /** Reference arithmetic: `n` may be NULL, as in bdrv_unref. */
  function AddRef(s: Store, n: Option<Node>, k: int): Store {
    if n.Some? && n.value in s.refs then s.(refs := s.refs[n.value := s.refs[n.value] + k]) else s
  }

  function ScheduleUnref(s: Store, n: Option<Node>): Store {
    if n.Some? then s.(scheduled := s.scheduled + multiset{n.value}) else s
  }

  // ------------------------------------------------------------------
  // The edits

  /** bdrv_child_set_perm */
  function DoSetPerm(s: Store, e: EdgeId, perm: set<Perm>, shared: set<Perm>): (Store, Record)
    requires e in s.g.edges
  {
    var was := s.g.edges[e];
    (WithEdge(s, e, was.(perm := perm, shared := shared)), SetPerm(e, was.perm, was.shared))
  }

  /** bdrv_replace_child_tran; the requires are the assertions of bdrv_replace_child_noperm. */
  function DoReplaceChild(s: Store, e: EdgeId, newBs: Option<Node>): (Store, Record)
    requires e in s.g.edges && s.g.edges[e].bs != newBs && !s.g.edges[e].frozen
  {
    var was := s.g.edges[e];
    (WithEdge(AddRef(s, newBs, 1), e, was.(bs := newBs)), ReplaceChild(e, was.bs))
  }

  /** bdrv_attach_child_common, with `e` the newly allocated edge. */
  function DoAttach(s: Store, e: EdgeId, edge: Edge): (Store, Record)
    requires e !in s.g.edges && edge.bs.Some? && !edge.frozen
  {
    (WithEdge(AddRef(s, edge.bs, 1), e, edge), AttachChild(e))
  }

  // ------------------------------------------------------------------
  // The callbacks

  /** The assertions that the abort callback of `r` makes. */
  predicate AbortAsserts(s: Store, r: Record) {
    match r
    case SetPerm(e, _, _) => e in s.g.edges
    case ReplaceChild(e, was) => e in s.g.edges && s.g.edges[e].bs != was && !s.g.edges[e].frozen
    case AttachChild(e) => e in s.g.edges && s.g.edges[e].bs.Some? && !s.g.edges[e].frozen
    case RemoveChild(_) => true
    case DriverSetPerm(_) => true
  }

  function AbortOne(s: Store, r: Record): Store
    requires AbortAsserts(s, r)
  {
    match r
    case SetPerm(e, perm, shared) => WithEdge(s, e, s.g.edges[e].(perm := perm, shared := shared))
    case ReplaceChild(e, was) =>
      var newBs := s.g.edges[e].bs;
      AddRef(WithEdge(s, e, s.g.edges[e].(bs := was)), newBs, -1)
    case AttachChild(e) =>
      var bs := s.g.edges[e].bs;
      ScheduleUnref(s.(g := s.g.(edges := s.g.edges - {e})), bs)
    case RemoveChild(_) => s
    case DriverSetPerm(_) => s
  }

  function CommitOne(s: Store, r: Record): Store {
    match r
    case ReplaceChild(_, was) => ScheduleUnref(s, was)
    case RemoveChild(e) => s.(g := s.g.(edges := s.g.edges - {e}))
    case SetPerm(_, _, _) => s
    case AttachChild(_) => s
    case DriverSetPerm(_) => s
  }

  /** tran_commit: `recs` has the most recent record first, and that is the order the callbacks run in. */
  function Commit(s: Store, recs: seq<Record>): Store
    decreases |recs|
  {
    if recs == [] then s else Commit(CommitOne(s, recs[0]), recs[1..])
  }

  /** tran_abort fails no assertion. */
  predicate AbortRuns(s: Store, recs: seq<Record>)
    decreases |recs|
  {
    recs == [] || (AbortAsserts(s, recs[0]) && AbortRuns(AbortOne(s, recs[0]), recs[1..]))
  }

  /** tran_abort */
  function Abort(s: Store, recs: seq<Record>): Store
    requires AbortRuns(s, recs)
    decreases |recs|
  {
    if recs == [] then s else Abort(AbortOne(s, recs[0]), recs[1..])
  }

  // ------------------------------------------------------------------
  // Rollback

  /** Equal except that a reference may have become a scheduled unref. */
  predicate Same(s: Store, t: Store) {
    && s.g == t.g
    && s.refs.Keys == t.refs.Keys
    && forall n :: n in s.refs ==> s.refs[n] - s.scheduled[n] == t.refs[n] - t.scheduled[n]
  }

  /** Running the abort callbacks of `recs` from `s` fails no assertion and ends in `base`. */
  predicate UndoesTo(s: Store, recs: seq<Record>, base: Store) {
    AbortRuns(s, recs) && Same(Abort(s, recs), base)
  }

  lemma {:induction false} UndoesSame(s: Store, t: Store, recs: seq<Record>, base: Store)
    requires Same(s, t) && UndoesTo(s, recs, base)
    ensures UndoesTo(t, recs, base)
    decreases |recs|
  {
    if recs != [] {
      assert Same(AbortOne(s, recs[0]), AbortOne(t, recs[0]));
      UndoesSame(AbortOne(s, recs[0]), AbortOne(t, recs[0]), recs[1..], base);
    }
  }

  /** A record pushed by an edit undoes exactly that edit. */
  lemma PushUndo(s: Store, t: Store, r: Record, recs: seq<Record>, base: Store)
    requires UndoesTo(s, recs, base) && AbortAsserts(t, r) && Same(AbortOne(t, r), s)
    ensures UndoesTo(t, [r] + recs, base)
  {
    UndoesSame(s, AbortOne(t, r), recs, base);
    assert ([r] + recs)[1..] == recs;
  }

  lemma SetPermUndo(s: Store, e: EdgeId, perm: set<Perm>, shared: set<Perm>, recs: seq<Record>, base: Store)
    requires e in s.g.edges && UndoesTo(s, recs, base)
    ensures var (t, r) := DoSetPerm(s, e, perm, shared); UndoesTo(t, [r] + recs, base)
  {
    var (t, r) := DoSetPerm(s, e, perm, shared);
    assert AbortOne(t, r).g.edges == s.g.edges;
    PushUndo(s, t, r, recs, base);
  }

  lemma ReplaceChildUndo(s: Store, e: EdgeId, newBs: Option<Node>, recs: seq<Record>, base: Store)
    requires e in s.g.edges && s.g.edges[e].bs != newBs && !s.g.edges[e].frozen && UndoesTo(s, recs, base)
    ensures var (t, r) := DoReplaceChild(s, e, newBs); UndoesTo(t, [r] + recs, base)
  {
    var (t, r) := DoReplaceChild(s, e, newBs);
    assert AbortOne(t, r).g.edges == s.g.edges;
    PushUndo(s, t, r, recs, base);
  }

  lemma AttachUndo(s: Store, e: EdgeId, edge: Edge, recs: seq<Record>, base: Store)
    requires e !in s.g.edges && edge.bs.Some? && !edge.frozen && UndoesTo(s, recs, base)
    ensures var (t, r) := DoAttach(s, e, edge); UndoesTo(t, [r] + recs, base)
  {
    var (t, r) := DoAttach(s, e, edge);
    assert AbortOne(t, r).g.edges == s.g.edges;
    PushUndo(s, t, r, recs, base);
  }

  lemma NoteUndo(s: Store, r: Record, recs: seq<Record>, base: Store)
    requires (r.RemoveChild? || r.DriverSetPerm?) && UndoesTo(s, recs, base)
    ensures UndoesTo(s, [r] + recs, base)
  {
    PushUndo(s, s, r, recs, base);
  }

  // ------------------------------------------------------------------
  // References

  /** References to `n` held by the records. */
  function HeldBy(recs: seq<Record>, n: Node): nat {
    if recs == [] then 0
    else (if recs[0].ReplaceChild? && recs[0].oldBs == Some(n) then 1 else 0) + HeldBy(recs[1..], n)
  }

  /** A removed edge stays detached, and is freed once, until the transaction ends. */
  predicate RemovedStayDetached(s: Store, recs: seq<Record>) {
    && (forall i :: 0 <= i < |recs| && recs[i].RemoveChild? ==>
          recs[i].edge in s.g.edges && s.g.edges[recs[i].edge].bs == None)
    && (forall i, j :: 0 <= i < j < |recs| && recs[i].RemoveChild? && recs[j].RemoveChild? ==>
          recs[i].edge != recs[j].edge)
  }

  predicate RecordsInside(recs: seq<Record>, nodes: set<Node>) {
    forall i :: 0 <= i < |recs| && recs[i].ReplaceChild? && recs[i].oldBs.Some? ==> recs[i].oldBs.value in nodes
  }

  /** Every count is edges, plus records, plus scheduled unrefs, plus the holders outside the graph. */
  ghost predicate Conserved(s: Store, recs: seq<Record>, external: Node -> int) {
    && s.refs.Keys == s.g.nodes
    && WellFormed(s.g)
    && RecordsInside(recs, s.g.nodes)
    && forall n :: n in s.g.nodes ==>
         s.refs[n] == |Parents(s.g, n)| + HeldBy(recs, n) + s.scheduled[n] + external(n)
  }

  lemma HeldByPush(r: Record, recs: seq<Record>, n: Node)
    ensures HeldBy([r] + recs, n) ==
      (if r.ReplaceChild? && r.oldBs == Some(n) then 1 else 0) + HeldBy(recs, n)
  {
    assert ([r] + recs)[1..] == recs;
  }

  /** How the parent list of every node changes when one edge moves. */
  lemma ParentsAfterMove(g: Graph, e: EdgeId, edge: Edge, n: Node)
    requires e in g.edges
    ensures |Parents(g.(edges := g.edges[e := edge]), n)| ==
      |Parents(g, n)| - (if g.edges[e].bs == Some(n) then 1 else 0) + (if edge.bs == Some(n) then 1 else 0)
  {
    var h := g.(edges := g.edges[e := edge]);
    var rest := Parents(g, n) - {e};
    assert Parents(g, n) == if g.edges[e].bs == Some(n) then rest + {e} else rest;
    assert Parents(h, n) == if edge.bs == Some(n) then rest + {e} else rest;
  }

  lemma ParentsAfterNew(g: Graph, e: EdgeId, edge: Edge, n: Node)
    requires e !in g.edges
    ensures |Parents(g.(edges := g.edges[e := edge]), n)| ==
      |Parents(g, n)| + (if edge.bs == Some(n) then 1 else 0)
  {
    var h := g.(edges := g.edges[e := edge]);
    assert Parents(h, n) == if edge.bs == Some(n) then Parents(g, n) + {e} else Parents(g, n);
  }

  lemma ParentsAfterFree(g: Graph, e: EdgeId, n: Node)
    ensures |Parents(g.(edges := g.edges - {e}), n)| ==
      |Parents(g, n)| - (if e in g.edges && g.edges[e].bs == Some(n) then 1 else 0)
  {
    var h := g.(edges := g.edges - {e});
    assert Parents(h, n) == Parents(g, n) - {e};
  }

  lemma SetPermConserves(s: Store, e: EdgeId, perm: set<Perm>, shared: set<Perm>, recs: seq<Record>, external: Node -> int)
    requires e in s.g.edges && Conserved(s, recs, external)
    ensures var (t, r) := DoSetPerm(s, e, perm, shared); Conserved(t, [r] + recs, external)
  {
    var (t, r) := DoSetPerm(s, e, perm, shared);
    forall n | n in t.g.nodes
      ensures t.refs[n] == |Parents(t.g, n)| + HeldBy([r] + recs, n) + t.scheduled[n] + external(n)
    {
      ParentsAfterMove(s.g, e, t.g.edges[e], n);
      HeldByPush(r, recs, n);
    }
  }

  lemma ReplaceChildCount(s: Store, e: EdgeId, newBs: Option<Node>, recs: seq<Record>, n: Node)
    requires e in s.g.edges && s.g.edges[e].bs != newBs && !s.g.edges[e].frozen && n in s.refs
    requires newBs.Some? ==> newBs.value in s.refs
    ensures var (t, r) := DoReplaceChild(s, e, newBs);
      && n in t.refs
      && t.refs[n] - s.refs[n] ==
           (|Parents(t.g, n)| + HeldBy([r] + recs, n)) - (|Parents(s.g, n)| + HeldBy(recs, n))
  {
    var (t, r) := DoReplaceChild(s, e, newBs);
    ParentsAfterMove(s.g, e, t.g.edges[e], n);
    HeldByPush(r, recs, n);
  }

  lemma ReplaceChildShape(s: Store, e: EdgeId, newBs: Option<Node>, recs: seq<Record>)
    requires e in s.g.edges && s.g.edges[e].bs != newBs && !s.g.edges[e].frozen
    requires s.refs.Keys == s.g.nodes && WellFormed(s.g) && RecordsInside(recs, s.g.nodes)
    requires newBs.Some? ==> newBs.value in s.g.nodes
    ensures var (t, r) := DoReplaceChild(s, e, newBs);
      && t.scheduled == s.scheduled && t.g.nodes == s.g.nodes && t.refs.Keys == t.g.nodes
      && WellFormed(t.g) && RecordsInside([r] + recs, t.g.nodes)
  {
  }

  lemma ReplaceChildConserves(s: Store, e: EdgeId, newBs: Option<Node>, recs: seq<Record>, external: Node -> int)
    requires e in s.g.edges && s.g.edges[e].bs != newBs && !s.g.edges[e].frozen && Conserved(s, recs, external)
    requires newBs.Some? ==> newBs.value in s.g.nodes
    ensures var (t, r) := DoReplaceChild(s, e, newBs); Conserved(t, [r] + recs, external)
  {
    var (t, r) := DoReplaceChild(s, e, newBs);
    ReplaceChildShape(s, e, newBs, recs);
    forall n | n in t.g.nodes
      ensures t.refs[n] == |Parents(t.g, n)| + HeldBy([r] + recs, n) + t.scheduled[n] + external(n)
    {
      ReplaceChildCount(s, e, newBs, recs, n);
    }
  }

  lemma AttachConserves(s: Store, e: EdgeId, edge: Edge, recs: seq<Record>, external: Node -> int)
    requires e !in s.g.edges && edge.bs.Some? && !edge.frozen && Conserved(s, recs, external)
    requires edge.bs.value in s.g.nodes && (edge.parent.Bds? ==> edge.parent.node in s.g.nodes)
    ensures var (t, r) := DoAttach(s, e, edge); Conserved(t, [r] + recs, external)
  {
    var (t, r) := DoAttach(s, e, edge);
    forall n | n in t.g.nodes
      ensures t.refs[n] == |Parents(t.g, n)| + HeldBy([r] + recs, n) + t.scheduled[n] + external(n)
    {
      ParentsAfterNew(s.g, e, edge, n);
      HeldByPush(r, recs, n);
    }
  }

  lemma NoteConserves(s: Store, r: Record, recs: seq<Record>, external: Node -> int)
    requires !r.ReplaceChild? && Conserved(s, recs, external)
    ensures Conserved(s, [r] + recs, external)
  {
    forall n | n in s.g.nodes
      ensures s.refs[n] == |Parents(s.g, n)| + HeldBy([r] + recs, n) + s.scheduled[n] + external(n)
    {
      HeldByPush(r, recs, n);
    }
  }

  /** An abort callback gives every reference back. */
  lemma AbortOneConserves(s: Store, recs: seq<Record>, external: Node -> int)
    requires recs != [] && Conserved(s, recs, external) && AbortAsserts(s, recs[0])
    ensures Conserved(AbortOne(s, recs[0]), recs[1..], external)
  {
    var t := AbortOne(s, recs[0]);
    assert RecordsInside(recs[1..], t.g.nodes) && t.refs.Keys == t.g.nodes;
    assert WellFormed(t.g) by { AbortOneWellFormed(s, recs[0]); }
    forall n | n in t.g.nodes
      ensures t.refs[n] == |Parents(t.g, n)| + HeldBy(recs[1..], n) + t.scheduled[n] + external(n)
    {
      AbortOneCount(s, recs, n);
    }
  }

  lemma AbortOneWellFormed(s: Store, r: Record)
    requires WellFormed(s.g) && AbortAsserts(s, r)
    requires r.ReplaceChild? && r.oldBs.Some? ==> r.oldBs.value in s.g.nodes
    ensures WellFormed(AbortOne(s, r).g)
  {
  }

  /** The abort callback changes the count of `n` by as much as edges, records and scheduled unrefs together. */
  lemma AbortOneCount(s: Store, recs: seq<Record>, n: Node)
    requires recs != [] && AbortAsserts(s, recs[0]) && n in s.refs
    requires recs[0].ReplaceChild? && s.g.edges[recs[0].edge].bs.Some? ==> s.g.edges[recs[0].edge].bs.value in s.refs
    ensures var t := AbortOne(s, recs[0]);
      && n in t.refs
      && t.refs[n] - s.refs[n] ==
           (|Parents(t.g, n)| + HeldBy(recs[1..], n) + t.scheduled[n])
           - (|Parents(s.g, n)| + HeldBy(recs, n) + s.scheduled[n])
  {
    var t := AbortOne(s, recs[0]);
    match recs[0] {
      case SetPerm(e, _, _) => ParentsAfterMove(s.g, e, t.g.edges[e], n);
      case ReplaceChild(e, was) =>
        assert t.g == s.g.(edges := s.g.edges[e := s.g.edges[e].(bs := was)]);
        ParentsAfterMove(s.g, e, t.g.edges[e], n);
      case AttachChild(e) =>
        assert t.g == s.g.(edges := s.g.edges - {e});
        ParentsAfterFree(s.g, e, n);
      case RemoveChild(_) =>
      case DriverSetPerm(_) =>
    }
  }

  lemma {:induction false} AbortConserves(s: Store, recs: seq<Record>, external: Node -> int)
    requires Conserved(s, recs, external) && AbortRuns(s, recs)
    ensures Conserved(Abort(s, recs), [], external)
    decreases |recs|
  {
    if recs != [] {
      AbortOneConserves(s, recs, external);
      AbortConserves(AbortOne(s, recs[0]), recs[1..], external);
    }
  }

  lemma CommitOneConserves(s: Store, recs: seq<Record>, external: Node -> int)
    requires recs != [] && Conserved(s, recs, external) && RemovedStayDetached(s, recs)
    ensures Conserved(CommitOne(s, recs[0]), recs[1..], external)
    ensures RemovedStayDetached(CommitOne(s, recs[0]), recs[1..])
  {
    var t := CommitOne(s, recs[0]);
    forall n | n in t.g.nodes
      ensures t.refs[n] == |Parents(t.g, n)| + HeldBy(recs[1..], n) + t.scheduled[n] + external(n)
    {
      if recs[0].RemoveChild? { ParentsAfterFree(s.g, recs[0].edge, n); }
    }
  }

  lemma {:induction false} CommitConserves(s: Store, recs: seq<Record>, external: Node -> int)
    requires Conserved(s, recs, external) && RemovedStayDetached(s, recs)
    ensures Conserved(Commit(s, recs), [], external)
    decreases |recs|
  {
    if recs != [] {
      CommitOneConserves(s, recs, external);
      CommitConserves(CommitOne(s, recs[0]), recs[1..], external);
    }
  }

  // ------------------------------------------------------------------
  // Whole transactions

  /** One call of an edit function. */
  datatype Edit =
    | EditPerm(edge: EdgeId, perm: set<Perm>, shared: set<Perm>)
    | EditReplace(edge: EdgeId, newBs: Option<Node>)
    | EditAttach(edge: EdgeId, data: Edge)
    | EditRemove(edge: EdgeId)
    | EditDriver(node: Node)

  /** What the edit functions assert and their callers guarantee. */
  predicate Allowed(s: Store, edit: Edit) {
    match edit
    case EditPerm(e, _, _) => e in s.g.edges
    case EditReplace(e, n) =>
      && e in s.g.edges && s.g.edges[e].bs.Some? && s.g.edges[e].bs != n && !s.g.edges[e].frozen
      && (n.Some? ==> n.value in s.g.nodes)
    case EditAttach(e, edge) =>
      && e !in s.g.edges && edge.bs.Some? && !edge.frozen && edge.bs.value in s.g.nodes
      && (edge.parent.Bds? ==> edge.parent.node in s.g.nodes)
    case EditRemove(e) => e in s.g.edges && s.g.edges[e].bs.Some? && !s.g.edges[e].frozen
    case EditDriver(_) => true
  }

  /** The store and the transaction after one edit. */
  function Apply(s: Store, recs: seq<Record>, edit: Edit): (Store, seq<Record>)
    requires Allowed(s, edit)
  {
    match edit
    case EditPerm(e, perm, shared) => var (t, r) := DoSetPerm(s, e, perm, shared); (t, [r] + recs)
    case EditReplace(e, n) => var (t, r) := DoReplaceChild(s, e, n); (t, [r] + recs)
    case EditAttach(e, edge) => var (t, r) := DoAttach(s, e, edge); (t, [r] + recs)
    case EditRemove(e) => var (t, r) := DoReplaceChild(s, e, None); (t, [RemoveChild(e), r] + recs)
    case EditDriver(n) => (s, [DriverSetPerm(n)] + recs)
  }

  /** What holds of an open transaction that started in `base`. */
  ghost predicate Open(s: Store, recs: seq<Record>, base: Store, external: Node -> int) {
    UndoesTo(s, recs, base) && Conserved(s, recs, external) && RemovedStayDetached(s, recs)
  }

  lemma ApplyKeepsDetached(s: Store, recs: seq<Record>, edit: Edit)
    requires Allowed(s, edit) && RemovedStayDetached(s, recs)
    ensures var (t, recs') := Apply(s, recs, edit); RemovedStayDetached(t, recs')
  {
  }

  lemma ApplyKeepsUndo(s: Store, recs: seq<Record>, edit: Edit, base: Store)
    requires Allowed(s, edit) && UndoesTo(s, recs, base)
    ensures var (t, recs') := Apply(s, recs, edit); UndoesTo(t, recs', base)
  {
    match edit {
      case EditPerm(e, perm, shared) => SetPermUndo(s, e, perm, shared, recs, base);
      case EditReplace(e, n) => ReplaceChildUndo(s, e, n, recs, base);
      case EditAttach(e, edge) => AttachUndo(s, e, edge, recs, base);
      case EditRemove(e) =>
        ReplaceChildUndo(s, e, None, recs, base);
        var (t, r) := DoReplaceChild(s, e, None);
        NoteUndo(t, RemoveChild(e), [r] + recs, base);
        assert [RemoveChild(e)] + ([r] + recs) == [RemoveChild(e), r] + recs;
      case EditDriver(n) => NoteUndo(s, DriverSetPerm(n), recs, base);
    }
  }

  lemma ApplyConserves(s: Store, recs: seq<Record>, edit: Edit, external: Node -> int)
    requires Allowed(s, edit) && Conserved(s, recs, external)
    ensures var (t, recs') := Apply(s, recs, edit); Conserved(t, recs', external)
  {
    match edit {
      case EditPerm(e, perm, shared) => SetPermConserves(s, e, perm, shared, recs, external);
      case EditReplace(e, n) => ReplaceChildConserves(s, e, n, recs, external);
      case EditAttach(e, edge) => AttachConserves(s, e, edge, recs, external);
      case EditRemove(e) =>
        ReplaceChildConserves(s, e, None, recs, external);
        var (t, r) := DoReplaceChild(s, e, None);
        NoteConserves(t, RemoveChild(e), [r] + recs, external);
        assert [RemoveChild(e)] + ([r] + recs) == [RemoveChild(e), r] + recs;
      case EditDriver(n) => NoteConserves(s, DriverSetPerm(n), recs, external);
    }
  }

  lemma ApplyKeepsOpen(s: Store, recs: seq<Record>, edit: Edit, base: Store, external: Node -> int)
    requires Allowed(s, edit) && Open(s, recs, base, external)
    ensures var (t, recs') := Apply(s, recs, edit); Open(t, recs', base, external)
  {
    ApplyKeepsDetached(s, recs, edit);
    ApplyKeepsUndo(s, recs, edit, base);
    ApplyConserves(s, recs, edit, external);
  }

  /** Every edit is allowed at its turn. */
  predicate AllAllowed(s: Store, recs: seq<Record>, edits: seq<Edit>)
    decreases |edits|
  {
    edits == [] ||
    (Allowed(s, edits[0]) && var (t, recs') := Apply(s, recs, edits[0]); AllAllowed(t, recs', edits[1..]))
  }

  function ApplyAll(s: Store, recs: seq<Record>, edits: seq<Edit>): (Store, seq<Record>)
    requires AllAllowed(s, recs, edits)
    decreases |edits|
  {
    if edits == [] then (s, recs)
    else var (t, recs') := Apply(s, recs, edits[0]); ApplyAll(t, recs', edits[1..])
  }

  lemma {:induction false} ApplyAllKeepsOpen(
    s: Store, recs: seq<Record>, edits: seq<Edit>, base: Store, external: Node -> int)
    requires AllAllowed(s, recs, edits) && Open(s, recs, base, external)
    ensures var (t, recs') := ApplyAll(s, recs, edits); Open(t, recs', base, external)
    decreases |edits|
  {
    if edits != [] {
      ApplyKeepsOpen(s, recs, edits[0], base, external);
      var (t, recs') := Apply(s, recs, edits[0]);
      ApplyAllKeepsOpen(t, recs', edits[1..], base, external);
    }
  }

  /**
    Any sequence of edits, on any edges in any order and as often as one likes:
    aborting puts the graph back exactly, and both endings account for every
    reference.
  */
  lemma TransactionTheorem(base: Store, edits: seq<Edit>, external: Node -> int)
    requires Conserved(base, [], external) && AllAllowed(base, [], edits)
    ensures var (s, recs) := ApplyAll(base, [], edits);
      && Conserved(s, recs, external)
      && AbortRuns(s, recs) && Same(Abort(s, recs), base) && Conserved(Abort(s, recs), [], external)
      && Conserved(Commit(s, recs), [], external)
  {
    ApplyAllKeepsOpen(base, [], edits, base, external);
    var (s, recs) := ApplyAll(base, [], edits);
    AbortConserves(s, recs, external);
    CommitConserves(s, recs, external);
  }
}
