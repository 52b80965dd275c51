/**
  The parallel copy loop of qemu-img convert (qemu/qemu-img.c), as a state machine.

  Any number of coroutines claim ranges of sectors under a lock, read them, wait
  their turn if writes are to be in order, and write them piece by piece.  A step
  is what one coroutine does between two points where it may yield; reads,
  writes and the block status may fail at any time.  What a claim, a read and the
  writing of a piece may do is what the methods of ConvertContent ensure: `Chosen`,
  `Loaded`, `MayHandle` and `Apply`.
*/
module ConvertOrder {
  import opened ConvertSettings

  /** What does not change: `source` is what the target is to read as, `initial` what it reads as before. */
  datatype Plan = Plan(inOrder: bool, settings: Settings, source: seq<Sector>, initial: seq<Sector>)

  function PlanFor(inOrder: bool, settings: Settings): Plan {
    Plan(inOrder, settings, settings.Source(), settings.initial)
  }

  predicate Fits(c: Plan) {
    c.settings.Valid() && c.source == c.settings.Source() && c.initial == c.settings.initial
  }

  /** Where a coroutine stands in convert_co_do_copy. */
  datatype Place =
    | NotStarted
    | Top                            // about to take the lock
    | Claiming                       // in convert_iteration_sectors, holding the lock
    | Reading(start: nat, n: nat, what: BlockStatus)
    | Ordering(start: nat, n: nat, what: BlockStatus, buf: seq<Sector>)           // has read, looks at wr_offs
    | Waiting(start: nat, n: nat, what: BlockStatus, buf: seq<Sector>)            // yielded until its turn
    | Writing(start: nat, n: nat, what: BlockStatus, buf: seq<Sector>, pos: nat)  // has handled [start, pos)
    | Finishing(start: nat, n: nat)  // about to advance wr_offs
    | Leaving                        // left the loop
    | Done

  datatype Ret = InProgress | Failed | Success

  datatype State = State(
    places: seq<Place>,
    locked: bool,
    sectorNum: nat,
    status: BlockStatus,     // of the range asked about last
    nextStatus: nat,         // where that range ends
    wrOffs: nat,
    ret: Ret,
    target: seq<Sector>,
    log: seq<(nat, nat)>)    // pieces handled, (first sector, count), in order

  datatype Action =
    | Enter | Lock | Claim(count: nat, what: BlockStatus, next: nat) | ClaimFails
    | Read(ok: bool, buf: seq<Sector>) | Order
    | Write(piece: nat, effect: Effect) | WriteFails | Finish | Leave

  predicate HasRange(p: Place) {
    p.Reading? || p.Ordering? || p.Waiting? || p.Writing? || p.Finishing?
  }

  predicate Active(p: Place) {
    !p.NotStarted? && !p.Done?
  }

  /** s->running_coroutines */
  function Running(places: seq<Place>): nat {
    if places == [] then 0 else (if Active(places[0]) then 1 else 0) + Running(places[1..])
  }

  /** The loop that looks for the coroutine to re-enter; |places| if there is none. */
  function FirstWaiter(places: seq<Place>, offs: nat, i: nat): (k: nat)
    requires i <= |places|
    ensures i <= k <= |places|
    ensures k < |places| ==> places[k].Waiting? && places[k].start == offs
    ensures forall m :: i <= m < k ==> !(places[m].Waiting? && places[m].start == offs)
    decreases |places| - i
  {
    if i == |places| || (places[i].Waiting? && places[i].start == offs) then i
    else FirstWaiter(places, offs, i + 1)
  }

  /** What a coroutine that writes has still to handle. */
  function Left(p: Place): nat
    requires p.Writing? && p.pos <= p.start + p.n
  {
    p.start + p.n - p.pos
  }

  function Rest(c: Plan, p: Place): seq<Sector>
    requires p.Writing? && p.start <= p.pos
  {
    c.settings.Rest(p.what, p.buf, p.pos - p.start)
  }

  /** After a read: with a fully allocated target zeros are written out like data. */
  function Prepared(c: Plan, p: Place, buf: seq<Sector>): Place
    requires p.Reading?
  {
    if c.settings.minSparse == 0 && p.what.Zero? then Ordering(p.start, p.n, Data, seq(p.n, _ => 0))
    else Ordering(p.start, p.n, p.what, buf)
  }

  predicate Enabled(c: Plan, s: State, i: nat, a: Action) {
    && i < |s.places|
    && match a
       case Enter => s.places[i].NotStarted?
       case Lock => s.places[i].Top? && !s.locked
       case Claim(n, what, next) =>
         s.places[i].Claiming? && s.sectorNum + n <= |c.source| && c.settings.Chosen(what, next, s.sectorNum, n)
       case ClaimFails => s.places[i].Claiming?
       case Read(ok, buf) =>
         && s.places[i].Reading?
         && (ok ==> c.settings.Loaded(s.places[i].what, buf, s.places[i].start, s.places[i].n))
       case Order => s.places[i].Ordering?
       case Write(k, effect) =>
         && s.places[i].Writing?
         && s.places[i].start <= s.places[i].pos <= s.places[i].start + s.places[i].n <= |s.target| == |c.source|
         && c.settings.MayHandle(s.places[i].what, Rest(c, s.places[i]), Left(s.places[i]), k, effect)
       case WriteFails => s.places[i].Writing?
       case Finish => s.places[i].Finishing?
       case Leave => s.places[i].Leaving?
  }

  /** Once the order allows it, a coroutine writes unless there was an error. */
  function Proceed(p: Place, ret: Ret): Place
    requires p.Ordering? || p.Waiting?
  {
    if ret.InProgress? then Writing(p.start, p.n, p.what, p.buf, p.start) else Finishing(p.start, p.n)
  }

  function At(s: State, i: nat, p: Place): State
    requires i < |s.places|
  {
    s.(places := s.places[i := p])
  }

  /** The end of a round: advance wr_offs and re-enter the coroutine that waits for it. */
  function Finished(c: Plan, s: State, i: nat): State
    requires i < |s.places| && s.places[i].Finishing?
  {
    var t := At(s, i, Top);
    if !c.inOrder then t
    else
      var offs := s.places[i].start + s.places[i].n;
      var j := FirstWaiter(t.places, offs, 0);
      if j == |t.places| then t.(wrOffs := offs)
      else At(t.(wrOffs := offs), j, Proceed(t.places[j], t.ret))
  }

  function Next(c: Plan, s: State, i: nat, a: Action): State
    requires Enabled(c, s, i, a)
  {
    match a
    case Enter => At(s, i, Top)
    case Lock =>
      if !s.ret.InProgress? || s.sectorNum >= |c.source| then At(s, i, Leaving)
      else At(s.(locked := true), i, Claiming)
    case Claim(n, what, next) =>
      At(s.(locked := false, sectorNum := s.sectorNum + n, status := what, nextStatus := next),
         i, Reading(s.sectorNum, n, what))
    case ClaimFails => At(s.(locked := false, ret := Failed), i, Leaving)
    case Read(ok, buf) =>
      At(if ok then s else s.(ret := Failed), i, Prepared(c, s.places[i], buf))
    case Order =>
      var p := s.places[i];
      if c.inOrder && s.wrOffs != p.start && s.ret.InProgress? then At(s, i, Waiting(p.start, p.n, p.what, p.buf))
      else At(s, i, Proceed(p, s.ret))
    case Write(k, effect) =>
      var p := s.places[i];
      var t := s.(target := c.settings.Apply(s.target, p.pos, Rest(c, p), k, effect), log := s.log + [(p.pos, k)]);
      At(t, i, if p.pos + k == p.start + p.n then Finishing(p.start, p.n) else p.(pos := p.pos + k))
    case WriteFails => At(s.(ret := Failed), i, Finishing(s.places[i].start, s.places[i].n))
    case Finish => Finished(c, s, i)
    case Leave =>
      var t := At(s, i, Done);
      if Running(t.places) == 0 && t.ret.InProgress? then t.(ret := Success) else t
  }

  predicate Init(c: Plan, s: State) {
    && Fits(c)
    && (forall i :: 0 <= i < |s.places| ==> s.places[i].NotStarted?)
    && s.(places := []) == State([], false, 0, s.status, 0, 0, InProgress, c.initial, [])
  }

  // ------------------------------------------------------------------
  // Invariants

  /** Claimed ranges lie below sector_num, are not empty, and do not overlap. */
  predicate RangesInv(c: Plan, s: State) {
    && s.sectorNum <= |c.source|
    && (forall i :: 0 <= i < |s.places| && HasRange(s.places[i]) ==>
          0 < s.places[i].n && s.places[i].start + s.places[i].n <= s.sectorNum)
    && (forall i, j :: 0 <= i < |s.places| && 0 <= j < |s.places| && i != j
                       && HasRange(s.places[i]) && HasRange(s.places[j]) ==>
          Apart(s.places[i], s.places[j]))
    && (forall i :: 0 <= i < |s.places| && s.places[i].Writing? ==>
          s.places[i].start <= s.places[i].pos < s.places[i].start + s.places[i].n)
  }

  /**
    The status a coroutine works with is right for its range, and its buffer is loaded,
    unless a read has failed.  So is the status that is remembered for the next claim.
  */
  predicate StatusInv(c: Plan, s: State) {
    && Fits(c)
    && c.settings.Cached(s.status, s.nextStatus, s.sectorNum)
    && (forall i :: 0 <= i < |s.places| && Works(s.places[i]) ==> RightPlace(c, s.places[i]))
    && (forall i :: 0 <= i < |s.places| && (s.places[i].Writing? || (Buffers(s.places[i]) && !s.ret.Failed?)) ==>
          LoadedPlace(c, s.places[i]))
  }

  predicate Buffers(p: Place) {
    p.Ordering? || p.Waiting? || p.Writing?
  }

  predicate Works(p: Place) {
    p.Reading? || Buffers(p)
  }

  predicate RightPlace(c: Plan, p: Place)
    requires Works(p)
  {
    p.start + p.n <= |c.source| && c.settings.Right(p.what, p.start, p.start + p.n)
  }

  predicate LoadedPlace(c: Plan, p: Place)
    requires Buffers(p)
  {
    c.settings.Loaded(p.what, p.buf, p.start, p.n)
  }

  predicate Apart(p: Place, q: Place)
    requires HasRange(p) && HasRange(q)
  {
    p.start + p.n <= q.start || q.start + q.n <= p.start
  }

  /** The lock is held by the one coroutine that is claiming, and only while there is something to claim. */
  predicate LockInv(c: Plan, s: State) {
    && (forall i :: 0 <= i < |s.places| && s.places[i].Claiming? ==> s.locked && s.sectorNum < |c.source|)
    && (forall i, j :: 0 <= i < |s.places| && 0 <= j < |s.places| && s.places[i].Claiming? && s.places[j].Claiming? ==> i == j)
    && (s.locked ==> exists i :: 0 <= i < |s.places| && s.places[i].Claiming?)
  }

  /** A coroutine leaves the loop, or the copy succeeds, only when nothing is left to claim or after an error. */
  predicate EndInv(c: Plan, s: State) {
    && (forall i :: 0 <= i < |s.places| && (s.places[i].Leaving? || s.places[i].Done?) ==>
          !s.ret.InProgress? || s.sectorNum == |c.source|)
    && (s.ret.Success? ==> s.sectorNum == |c.source| && Idle(s))
  }

  predicate Idle(s: State) {
    forall i :: 0 <= i < |s.places| ==> !HasRange(s.places[i]) && !s.places[i].Claiming?
  }

  predicate EndsAt(p: Place, x: nat) {
    HasRange(p) && p.start + p.n == x
  }

  /** Some coroutine still has to finish the range that ends at `x`. */
  predicate OwnedUpTo(s: State, x: nat) {
    exists k :: 0 <= k < |s.places| && EndsAt(s.places[k], x)
  }

  /** The range that starts at `x` is next, unless there was an error. */
  predicate Turn(s: State, x: nat) {
    s.ret.InProgress? ==> s.wrOffs == x
  }

  /**
    With ordered writes: the turn comes to a range once its predecessor has finished.
    A coroutine that waits always has an unfinished predecessor, also after an error.
  */
  predicate OrderInv(s: State) {
    && (forall i :: 0 <= i < |s.places| && HasRange(s.places[i]) ==>
          OwnedUpTo(s, s.places[i].start) || (!s.places[i].Waiting? && Turn(s, s.places[i].start)))
    && (OwnedUpTo(s, s.sectorNum) || Turn(s, s.sectorNum))
    && (forall i :: 0 <= i < |s.places| && (s.places[i].Writing? || s.places[i].Finishing?) ==>
          Turn(s, s.places[i].start))
  }

  /** With ordered writes: at most one coroutine writes, and it appends. */
  predicate LogInv(s: State) {
    && Contiguous(s.log)
    && (forall i, j :: 0 <= i < |s.places| && 0 <= j < |s.places| && s.places[i].Writing? && s.places[j].Writing? ==> i == j)
    && (forall i :: 0 <= i < |s.places| && s.places[i].Writing? ==> s.places[i].pos == LogEnd(s.log))
    && (s.ret.InProgress? ==>
          forall i :: 0 <= i < |s.places| && s.places[i].Finishing? ==> s.places[i].start + s.places[i].n == LogEnd(s.log))
    && (s.ret.InProgress? && NobodyWrites(s) ==> LogEnd(s.log) == s.wrOffs)
  }

  predicate NobodyWrites(s: State) {
    forall i :: 0 <= i < |s.places| ==> !s.places[i].Writing? && !s.places[i].Finishing?
  }

  function LogEnd(log: seq<(nat, nat)>): nat {
    if log == [] then 0 else log[|log| - 1].0 + log[|log| - 1].1
  }

  /** Each piece begins where the one before ended, the first at 0. */
  predicate Contiguous(log: seq<(nat, nat)>) {
    forall i :: 0 <= i < |log| ==> log[i].0 == LogEnd(log[..i])
  }

  /** Sector `x` is claimed by `p` and not written yet. */
  predicate Pends(p: Place, x: nat) {
    && HasRange(p) && !p.Finishing?
    && p.start <= x < p.start + p.n && (p.Writing? ==> p.pos <= x)
  }

  predicate Pending(s: State, x: nat) {
    exists k :: 0 <= k < |s.places| && Pends(s.places[k], x)
  }

  /** Sectors not written yet are as at the beginning; absent errors the others are as in the source. */
  predicate ContentInv(c: Plan, s: State) {
    && |s.target| == |c.source| == |c.initial|
    && (forall x :: s.sectorNum <= x < |c.source| ==> s.target[x] == c.initial[x])
    && (forall i, x :: 0 <= i < |s.places| && 0 <= x < |c.source| && Pends(s.places[i], x) ==> s.target[x] == c.initial[x])
    && (!s.ret.Failed? ==>
          forall x :: 0 <= x < s.sectorNum && x < |c.source| && !Pending(s, x) ==> s.target[x] == c.source[x])
  }

  predicate InPiece(piece: (nat, nat), x: nat) {
    piece.0 <= x < piece.0 + piece.1
  }

  predicate Behind(s: State, x: nat) {
    x < s.sectorNum && !Pending(s, x)
  }

  /** No sector is handled twice: one that was lies in a claimed range and does not pend any more. */
  ghost predicate OnceInv(s: State) {
    && (forall m, x: nat :: 0 <= m < |s.log| && InPiece(s.log[m], x) ==> Behind(s, x))
    && (forall m, k, x: nat :: 0 <= m < k < |s.log| && InPiece(s.log[m], x) ==> !InPiece(s.log[k], x))
  }

  ghost predicate Inv(c: Plan, s: State) {
    && RangesInv(c, s) && LockInv(c, s) && EndInv(c, s) && StatusInv(c, s) && ContentInv(c, s) && OnceInv(s)
    && (c.inOrder ==> OrderInv(s) && LogInv(s))
  }

  lemma InitPlaces(c: Plan, s: State)
    requires Init(c, s)
    ensures RangesInv(c, s) && LockInv(c, s) && EndInv(c, s) && StatusInv(c, s)
  {
  }

  lemma InitTarget(c: Plan, s: State)
    requires Init(c, s)
    ensures ContentInv(c, s) && OnceInv(s) && OrderInv(s) && LogInv(s)
  {
  }

  lemma InitInv(c: Plan, s: State)
    requires Init(c, s)
    ensures Inv(c, s)
  {
    InitPlaces(c, s);
    InitTarget(c, s);
  }

  // ------------------------------------------------------------------
  // Each step keeps them

  /** `t` is `s` with coroutine `i` at `p`, and nothing claimed. */
  predicate Moved(s: State, t: State, i: nat, p: Place) {
    i < |s.places| && t.places == s.places[i := p] && t.sectorNum == s.sectorNum
  }

  predicate SameRange(p: Place, q: Place) {
    HasRange(p) && HasRange(q) && p.start == q.start && p.n == q.n
  }

  lemma RangesMoved(c: Plan, s: State, t: State, i: nat, p: Place)
    requires RangesInv(c, s) && Moved(s, t, i, p)
    requires HasRange(p) ==> SameRange(p, s.places[i])
    requires p.Writing? ==> p.start <= p.pos < p.start + p.n
    ensures RangesInv(c, t)
  {
  }

  lemma RangesClaimed(c: Plan, s: State, i: nat, a: Action)
    requires RangesInv(c, s) && a.Claim? && Enabled(c, s, i, a)
    ensures RangesInv(c, Next(c, s, i, a))
  {
  }

  lemma RangesFinished(c: Plan, s: State, i: nat)
    requires RangesInv(c, s) && i < |s.places| && s.places[i].Finishing?
    ensures RangesInv(c, Finished(c, s, i))
  {
    var t := Finished(c, s, i);
    var u := At(s, i, Top);
    RangesMoved(c, s, u, i, Top);
    if t.places != u.places {
      var j := FirstWaiter(u.places, t.wrOffs, 0);
      RangesMoved(c, u, t, j, t.places[j]);
    }
  }

  lemma RangesStep(c: Plan, s: State, i: nat, a: Action)
    requires RangesInv(c, s) && Enabled(c, s, i, a)
    ensures RangesInv(c, Next(c, s, i, a))
  {
    var t := Next(c, s, i, a);
    if a.Claim? {
      RangesClaimed(c, s, i, a);
    } else if a.Finish? {
      RangesFinished(c, s, i);
    } else {
      RangesMoved(c, s, t, i, t.places[i]);
    }
  }

  lemma LockMoved(c: Plan, s: State, t: State, i: nat, p: Place)
    requires LockInv(c, s) && Moved(s, t, i, p) && t.locked == s.locked
    requires !p.Claiming? && !s.places[i].Claiming?
    ensures LockInv(c, t)
  {
    if s.locked {
      var k :| 0 <= k < |s.places| && s.places[k].Claiming?;
      assert t.places[k].Claiming?;
    }
  }

  lemma LockStep(c: Plan, s: State, i: nat, a: Action)
    requires LockInv(c, s) && Enabled(c, s, i, a)
    ensures LockInv(c, Next(c, s, i, a))
  {
    var t := Next(c, s, i, a);
    if a.Finish? {
      var u := At(s, i, Top);
      LockMoved(c, s, u, i, Top);
      if t.places != u.places {
        var j := FirstWaiter(u.places, t.wrOffs, 0);
        LockMoved(c, u, t, j, t.places[j]);
      }
    } else if a.Claim? || a.ClaimFails? {
    } else if t.places[i].Claiming? {
      assert t.places[i].Claiming?;
    } else {
      LockMoved(c, s, t, i, t.places[i]);
    }
  }

  lemma {:induction false} NoneRunning(places: seq<Place>, i: nat)
    requires Running(places) == 0 && i < |places|
    ensures !Active(places[i])
  {
    if i > 0 {
      NoneRunning(places[1..], i - 1);
    }
  }

  lemma EndStep(c: Plan, s: State, i: nat, a: Action)
    requires RangesInv(c, s) && LockInv(c, s) && EndInv(c, s) && Enabled(c, s, i, a)
    ensures EndInv(c, Next(c, s, i, a))
  {
    if a.Leave? {
      EndLeave(c, s, i);
    } else if a.Finish? {
      EndFinished(c, s, i);
    }
  }

  lemma EndFinished(c: Plan, s: State, i: nat)
    requires EndInv(c, s) && i < |s.places| && s.places[i].Finishing?
    ensures EndInv(c, Finished(c, s, i))
  {
  }

  /** The last coroutine to leave reports success if there was no error. */
  lemma EndLeave(c: Plan, s: State, i: nat)
    requires EndInv(c, s) && Enabled(c, s, i, Leave)
    ensures EndInv(c, Next(c, s, i, Leave))
  {
    var t := Next(c, s, i, Leave);
    if t.ret.Success? && s.ret.InProgress? {
      forall k | 0 <= k < |t.places| ensures !Active(t.places[k]) {
        NoneRunning(t.places, k);
      }
      assert s.places[i].Leaving?;
    }
  }

  // ------------------------------------------------------------------
  // The order of the writes

  lemma OwnedStays(s: State, t: State, i: nat, p: Place, x: nat)
    requires Moved(s, t, i, p) && OwnedUpTo(s, x)
    requires SameRange(p, s.places[i]) || !EndsAt(s.places[i], x)
    ensures OwnedUpTo(t, x)
  {
    var k :| 0 <= k < |s.places| && EndsAt(s.places[k], x);
    assert EndsAt(t.places[k], x);
  }

  /** A step of one coroutine that keeps its range, or has none. */
  lemma OrderMoved(s: State, t: State, i: nat, p: Place)
    requires OrderInv(s) && Moved(s, t, i, p) && t.wrOffs == s.wrOffs
    requires t.ret.InProgress? ==> s.ret.InProgress?
    requires SameRange(p, s.places[i]) || (!HasRange(p) && !HasRange(s.places[i]))
    requires p.Waiting? ==> OwnedUpTo(s, p.start)
    requires p.Writing? || p.Finishing? ==> Turn(t, p.start)
    ensures OrderInv(t)
  {
    forall k | 0 <= k < |t.places| && HasRange(t.places[k])
      ensures OwnedUpTo(t, t.places[k].start) || (!t.places[k].Waiting? && Turn(t, t.places[k].start))
    {
      assert HasRange(s.places[k]);
      if OwnedUpTo(s, s.places[k].start) {
        OwnedStays(s, t, i, p, s.places[k].start);
      }
    }
    if OwnedUpTo(s, s.sectorNum) {
      OwnedStays(s, t, i, p, s.sectorNum);
    }
  }

  lemma OrderClaimed(c: Plan, s: State, i: nat, a: Action)
    requires RangesInv(c, s) && OrderInv(s) && a.Claim? && Enabled(c, s, i, a)
    ensures OrderInv(Next(c, s, i, a))
  {
    var t := Next(c, s, i, a);
    var u := t.(sectorNum := s.sectorNum);
    assert EndsAt(t.places[i], t.sectorNum);
    forall k | 0 <= k < |t.places| && HasRange(t.places[k])
      ensures OwnedUpTo(t, t.places[k].start) || (!t.places[k].Waiting? && Turn(t, t.places[k].start))
    {
      if OwnedUpTo(s, t.places[k].start) {
        OwnedStays(s, u, i, t.places[i], t.places[k].start);
        var m :| 0 <= m < |u.places| && EndsAt(u.places[m], t.places[k].start);
        assert EndsAt(t.places[m], t.places[k].start);
      }
    }
  }

  /** In progress, at most one range is being written or finished: the one whose turn it is. */
  lemma OneTurn(c: Plan, s: State, i: nat, k: nat)
    requires RangesInv(c, s) && s.ret.InProgress? && i < |s.places| && k < |s.places|
    requires HasRange(s.places[i]) && HasRange(s.places[k])
    requires Turn(s, s.places[i].start) && Turn(s, s.places[k].start)
    ensures i == k
  {
    StartsDiffer(c, s, i, k);
  }

  lemma StartsDiffer(c: Plan, s: State, i: nat, k: nat)
    requires RangesInv(c, s) && i < |s.places| && k < |s.places|
    requires HasRange(s.places[i]) && HasRange(s.places[k])
    ensures s.places[i].start == s.places[k].start ==> i == k
  {
  }

  /** What finishing a range does: the one coroutine that waits for its end, if any, goes on. */
  predicate Handed(s: State, t: State, i: nat) {
    && i < |s.places| == |t.places| && s.places[i].Finishing?
    && t.wrOffs == s.places[i].start + s.places[i].n
    && t.sectorNum == s.sectorNum && t.ret == s.ret && t.log == s.log
    && t.places[i].Top?
    && forall k :: 0 <= k < |s.places| && k != i ==>
         t.places[k] == if s.places[k].Waiting? && s.places[k].start == t.wrOffs
                        then Proceed(s.places[k], s.ret) else s.places[k]
  }

  lemma FinishedIsHanded(c: Plan, s: State, i: nat)
    requires c.inOrder && RangesInv(c, s) && i < |s.places| && s.places[i].Finishing?
    ensures Handed(s, Finished(c, s, i), i)
  {
    var u := At(s, i, Top);
    var t := Finished(c, s, i);
    var j := FirstWaiter(u.places, t.wrOffs, 0);
    if j < |u.places| {
      forall k | 0 <= k < |s.places| && s.places[k].Waiting? && s.places[k].start == t.wrOffs ensures k == j {
        StartsDiffer(c, s, j, k);
      }
    }
  }

  lemma PredecessorFinished(c: Plan, s: State, t: State, i: nat, k: nat)
    requires RangesInv(c, s) && OrderInv(s) && Handed(s, t, i) && k < |s.places| && HasRange(t.places[k])
    ensures OwnedUpTo(t, t.places[k].start) || (!t.places[k].Waiting? && Turn(t, t.places[k].start))
  {
    var x := t.places[k].start;
    if OwnedUpTo(s, x) {
      var m :| 0 <= m < |s.places| && EndsAt(s.places[m], x);
      if m != i {
        assert EndsAt(t.places[m], x);
      }
    } else if s.ret.InProgress? {
      OneTurn(c, s, i, k);
    }
  }

  lemma OrderHanded(c: Plan, s: State, t: State, i: nat)
    requires RangesInv(c, s) && OrderInv(s) && Handed(s, t, i)
    ensures OrderInv(t)
  {
    forall k | 0 <= k < |t.places| && HasRange(t.places[k])
      ensures OwnedUpTo(t, t.places[k].start) || (!t.places[k].Waiting? && Turn(t, t.places[k].start))
    {
      PredecessorFinished(c, s, t, i, k);
    }
    TailFinished(c, s, t, i);
    forall k | 0 <= k < |t.places| && (t.places[k].Writing? || t.places[k].Finishing?)
      ensures Turn(t, t.places[k].start)
    {
      TurnHanded(c, s, t, i, k);
    }
  }

  lemma TailFinished(c: Plan, s: State, t: State, i: nat)
    requires RangesInv(c, s) && OrderInv(s) && Handed(s, t, i)
    ensures OwnedUpTo(t, t.sectorNum) || Turn(t, t.sectorNum)
  {
    assert s.places[i].start < s.sectorNum;
    if OwnedUpTo(s, s.sectorNum) {
      var m :| 0 <= m < |s.places| && EndsAt(s.places[m], s.sectorNum);
      assert m != i ==> EndsAt(t.places[m], s.sectorNum);
    }
  }

  lemma TurnHanded(c: Plan, s: State, t: State, i: nat, k: nat)
    requires RangesInv(c, s) && OrderInv(s) && Handed(s, t, i)
    requires k < |t.places| && (t.places[k].Writing? || t.places[k].Finishing?)
    ensures Turn(t, t.places[k].start)
  {
    if s.ret.InProgress? && (s.places[k].Writing? || s.places[k].Finishing?) {
      OneTurn(c, s, i, k);
    }
  }

  lemma OrderOrder(c: Plan, s: State, i: nat)
    requires c.inOrder && OrderInv(s) && Enabled(c, s, i, Order)
    ensures OrderInv(Next(c, s, i, Order))
  {
    var t := Next(c, s, i, Order);
    OrderMoved(s, t, i, t.places[i]);
  }

  lemma OrderWrite(c: Plan, s: State, i: nat, a: Action)
    requires OrderInv(s) && Enabled(c, s, i, a) && (a.Write? || a.WriteFails?)
    ensures OrderInv(Next(c, s, i, a))
  {
    var t := Next(c, s, i, a);
    OrderMoved(s, t, i, t.places[i]);
  }

  lemma OrderStep(c: Plan, s: State, i: nat, a: Action)
    requires c.inOrder && RangesInv(c, s) && OrderInv(s) && Enabled(c, s, i, a)
    ensures OrderInv(Next(c, s, i, a))
  {
    match a
    case Claim(_, _, _) => OrderClaimed(c, s, i, a);
    case Order => OrderOrder(c, s, i);
    case Write(_, _) => OrderWrite(c, s, i, a);
    case WriteFails => OrderWrite(c, s, i, a);
    case Finish =>
      FinishedIsHanded(c, s, i);
      OrderHanded(c, s, Finished(c, s, i), i);
    case _ =>
      var t := Next(c, s, i, a);
      OrderMoved(s, t, i, t.places[i]);
  }

  // ------------------------------------------------------------------
  // The log

  /** A coroutine whose turn it is begins to write only when nobody writes. */
  lemma NobodyElse(c: Plan, s: State, i: nat)
    requires RangesInv(c, s) && OrderInv(s) && s.ret.InProgress? && i < |s.places|
    requires HasRange(s.places[i]) && !s.places[i].Writing? && !s.places[i].Finishing? && s.wrOffs == s.places[i].start
    ensures NobodyWrites(s)
  {
    forall k | 0 <= k < |s.places| ensures !s.places[k].Writing? && !s.places[k].Finishing? {
      if s.places[k].Writing? || s.places[k].Finishing? {
        OneTurn(c, s, i, k);
      }
    }
  }

  lemma Appended(log: seq<(nat, nat)>, pos: nat, k: nat)
    requires Contiguous(log) && pos == LogEnd(log)
    ensures Contiguous(log + [(pos, k)]) && LogEnd(log + [(pos, k)]) == pos + k
  {
    var l := log + [(pos, k)];
    forall i | 0 <= i < |l| ensures l[i].0 == LogEnd(l[..i]) {
      if i < |log| {
        assert l[..i] == log[..i];
      } else {
        assert l[..i] == log;
      }
    }
  }

  lemma LogOrder(c: Plan, s: State, i: nat)
    requires c.inOrder && RangesInv(c, s) && OrderInv(s) && LogInv(s) && Enabled(c, s, i, Order)
    ensures LogInv(Next(c, s, i, Order))
  {
    var t := Next(c, s, i, Order);
    if s.ret.InProgress? && s.wrOffs == s.places[i].start {
      NobodyElse(c, s, i);
      LogBegin(s, t, i);
    } else {
      LogStill(s, t, i);
    }
  }

  lemma LogBegin(s: State, t: State, i: nat)
    requires LogInv(s) && s.ret.InProgress? && NobodyWrites(s) && i < |s.places| == |t.places|
    requires t == At(s, i, t.places[i]) && t.places[i].Writing? && t.places[i].pos == s.wrOffs
    ensures LogInv(t)
  {
  }

  /** A step that neither writes nor begins to. */
  lemma LogStill(s: State, t: State, i: nat)
    requires LogInv(s) && i < |s.places| == |t.places| && t.places == s.places[i := t.places[i]]
    requires t.log == s.log && t.wrOffs == s.wrOffs && (t.ret.InProgress? ==> s.ret.InProgress?)
    requires !t.places[i].Writing?
    requires t.ret.InProgress? ==>
      !t.places[i].Finishing? && !s.places[i].Writing? && !s.places[i].Finishing?
    ensures LogInv(t)
  {
    if t.ret.InProgress? && NobodyWrites(t) {
      forall k | 0 <= k < |s.places| ensures !s.places[k].Writing? && !s.places[k].Finishing? {
        assert k != i ==> t.places[k] == s.places[k];
      }
    }
  }

  /** Coroutine `i` has appended `k` sectors at its position. */
  predicate Logged(s: State, t: State, i: nat, k: nat) {
    && i < |s.places| == |t.places| && s.places[i].Writing?
    && t.places == s.places[i := t.places[i]]
    && t.ret == s.ret && t.wrOffs == s.wrOffs && t.log == s.log + [(s.places[i].pos, k)]
    && var p, q := s.places[i], t.places[i];
       && (q.Writing? ==> q.pos == p.pos + k)
       && (q.Writing? || (q.Finishing? && q.start + q.n == p.pos + k))
  }

  lemma LogWrite(c: Plan, s: State, i: nat, a: Action)
    requires RangesInv(c, s) && OrderInv(s) && LogInv(s) && a.Write? && Enabled(c, s, i, a)
    ensures LogInv(Next(c, s, i, a))
  {
    if s.ret.InProgress? {
      forall m | 0 <= m < |s.places| && s.places[m].Finishing? ensures m == i {
        OneTurn(c, s, i, m);
      }
    }
    LogWrote(s, Next(c, s, i, a), i, a.piece);
  }

  lemma LogWrote(s: State, t: State, i: nat, k: nat)
    requires LogInv(s) && Logged(s, t, i, k)
    requires s.ret.InProgress? ==> forall m :: 0 <= m < |s.places| && s.places[m].Finishing? ==> m == i
    ensures LogInv(t)
  {
    Appended(s.log, s.places[i].pos, k);
    assert !NobodyWrites(t);
  }

  lemma LogFinished(c: Plan, s: State, t: State, i: nat)
    requires RangesInv(c, s) && OrderInv(s) && LogInv(s) && Handed(s, t, i)
    ensures LogInv(t)
  {
    if s.ret.InProgress? {
      forall k | 0 <= k < |s.places| && (s.places[k].Writing? || s.places[k].Finishing?) ensures k == i {
        OneTurn(c, s, i, k);
      }
      LogHandover(c, s, t, i);
    }
  }

  lemma LogHandover(c: Plan, s: State, t: State, i: nat)
    requires RangesInv(c, s) && LogInv(s) && Handed(s, t, i) && s.ret.InProgress?
    requires forall k :: 0 <= k < |s.places| && (s.places[k].Writing? || s.places[k].Finishing?) ==> k == i
    ensures LogInv(t)
  {
    assert t.wrOffs == LogEnd(t.log);
    forall k, m | 0 <= k < |t.places| && 0 <= m < |t.places| && t.places[k].Writing? && t.places[m].Writing?
      ensures k == m
    {
      StartsDiffer(c, s, k, m);
    }
  }

  lemma LogStep(c: Plan, s: State, i: nat, a: Action)
    requires c.inOrder && RangesInv(c, s) && OrderInv(s) && LogInv(s) && Enabled(c, s, i, a)
    ensures LogInv(Next(c, s, i, a))
  {
    if a.Order? {
      LogOrder(c, s, i);
    } else if a.Write? {
      LogWrite(c, s, i, a);
    } else if a.Finish? {
      FinishedIsHanded(c, s, i);
      LogFinished(c, s, Next(c, s, i, a), i);
    } else {
      LogOther(c, s, i, a);
    }
  }

  lemma LogOther(c: Plan, s: State, i: nat, a: Action)
    requires LogInv(s) && Enabled(c, s, i, a) && !a.Order? && !a.Write? && !a.Finish?
    ensures LogInv(Next(c, s, i, a))
  {
    LogStill(s, Next(c, s, i, a), i);
  }

  // ------------------------------------------------------------------
  // The contents

  lemma ContentMoved(c: Plan, s: State, t: State, i: nat, p: Place)
    requires ContentInv(c, s) && Moved(s, t, i, p) && t.target == s.target
    requires forall x :: Pends(p, x) ==> Pends(s.places[i], x)
    requires !t.ret.Failed? ==> !s.ret.Failed? && forall x :: Pends(s.places[i], x) ==> Pends(p, x)
    ensures ContentInv(c, t)
  {
    forall k, x | 0 <= k < |t.places| && 0 <= x < |c.source| && Pends(t.places[k], x)
      ensures t.target[x] == c.initial[x]
    {
      assert Pends(s.places[k], x);
    }
    forall x | 0 <= x < t.sectorNum && x < |c.source| && !Pending(t, x) && !t.ret.Failed?
      ensures t.target[x] == c.source[x]
    {
      PendingStays(s, t, i, x);
    }
  }

  /** A sector that pends goes on to do so, unless it was for coroutine `i`, and that has moved on. */
  lemma PendingStays(s: State, t: State, i: nat, x: nat)
    requires i < |s.places| == |t.places| && t.places == s.places[i := t.places[i]]
    requires Pends(s.places[i], x) ==> Pends(t.places[i], x)
    ensures Pending(s, x) ==> Pending(t, x)
  {
    if Pending(s, x) {
      var k :| 0 <= k < |s.places| && Pends(s.places[k], x);
      assert Pends(t.places[k], x);
    }
  }

  lemma ContentClaimed(c: Plan, s: State, i: nat, a: Action)
    requires RangesInv(c, s) && ContentInv(c, s) && a.Claim? && Enabled(c, s, i, a)
    ensures ContentInv(c, Next(c, s, i, a))
  {
    var t := Next(c, s, i, a);
    forall x | 0 <= x < t.sectorNum && x < |c.source| && !Pending(t, x) && !t.ret.Failed?
      ensures t.target[x] == c.source[x]
    {
      assert !Pends(t.places[i], x);
      PendingStays(s, t, i, x);
    }
  }

  lemma SpliceAt(target: seq<Sector>, source: seq<Sector>, pos: nat, k: nat)
    requires pos + k <= |target| == |source|
    ensures var t := Splice(target, source, pos, k);
      |t| == |target| && forall x :: 0 <= x < |t| ==> t[x] == if pos <= x < pos + k then source[x] else target[x]
  {
  }

  /** What a write does, without the log. */
  ghost predicate Wrote(c: Plan, s: State, t: State, i: nat, k: nat) {
    && i < |s.places| == |t.places| && s.places[i].Writing?
    && var p := s.places[i];
    && t.places == s.places[i := t.places[i]] && t.sectorNum == s.sectorNum && t.ret == s.ret
    && (forall x :: Pends(t.places[i], x) <==> Pends(p, x) && p.pos + k <= x)
    && |t.target| == |s.target| == |c.source|
    && forall x :: 0 <= x < |c.source| ==>
         t.target[x] == if p.pos <= x < p.pos + k then c.source[x] else s.target[x]
  }

  /** The cases of convert_co_write all copy the source, since the sectors read as at the beginning. */
  lemma WriteSplices(c: Plan, s: State, i: nat, k: nat, effect: Effect)
    requires RangesInv(c, s) && StatusInv(c, s) && ContentInv(c, s) && Enabled(c, s, i, Write(k, effect))
    ensures var p := s.places[i];
      p.pos + k <= |s.target| == |c.source| &&
      c.settings.Apply(s.target, p.pos, Rest(c, p), k, effect) == Splice(s.target, c.source, p.pos, k)
  {
    var p := s.places[i];
    assert RightPlace(c, p) && LoadedPlace(c, p);
    c.settings.RestRight(p.what, p.buf, p.start, p.n, p.pos - p.start);
    forall x | p.pos <= x < p.pos + k ensures s.target[x] == c.initial[x] {
      assert Pends(p, x);
    }
    c.settings.HandledRight(p.what, Rest(c, p), p.pos, Left(p), k, effect, s.target);
  }

  lemma WriteWrote(c: Plan, s: State, i: nat, a: Action)
    requires RangesInv(c, s) && StatusInv(c, s) && ContentInv(c, s) && a.Write? && Enabled(c, s, i, a)
    ensures Wrote(c, s, Next(c, s, i, a), i, a.piece)
  {
    WriteSplices(c, s, i, a.piece, a.effect);
    SpliceAt(s.target, c.source, s.places[i].pos, a.piece);
  }

  lemma ContentWrote(c: Plan, s: State, t: State, i: nat, k: nat)
    requires RangesInv(c, s) && ContentInv(c, s) && Wrote(c, s, t, i, k)
    requires s.places[i].pos + k <= s.places[i].start + s.places[i].n
    ensures ContentInv(c, t)
  {
    var p := s.places[i];
    forall m, x | 0 <= m < |t.places| && 0 <= x < |c.source| && Pends(t.places[m], x)
      ensures t.target[x] == c.initial[x]
    {
      assert Pends(s.places[m], x);
      assert m != i ==> Apart(s.places[m], p);
    }
    forall x | 0 <= x < t.sectorNum && x < |c.source| && !Pending(t, x) && !t.ret.Failed?
      ensures t.target[x] == c.source[x]
    {
      if !(p.pos <= x < p.pos + k) {
        PendingStays(s, t, i, x);
      }
    }
  }

  lemma ContentWrite(c: Plan, s: State, i: nat, a: Action)
    requires RangesInv(c, s) && StatusInv(c, s) && ContentInv(c, s) && a.Write? && Enabled(c, s, i, a)
    ensures ContentInv(c, Next(c, s, i, a))
  {
    WriteWrote(c, s, i, a);
    ContentWrote(c, s, Next(c, s, i, a), i, a.piece);
  }

  lemma ContentFinished(c: Plan, s: State, i: nat)
    requires EndInv(c, s) && ContentInv(c, s) && i < |s.places| && s.places[i].Finishing?
    ensures ContentInv(c, Finished(c, s, i))
  {
    var t := Finished(c, s, i);
    var u := At(s, i, Top);
    ContentMoved(c, s, u, i, Top);
    if t.places != u.places {
      var j := FirstWaiter(u.places, t.wrOffs, 0);
      assert s.places[j].Waiting?;
      ContentMoved(c, u, t, j, t.places[j]);
    }
  }

  lemma ContentStep(c: Plan, s: State, i: nat, a: Action)
    requires RangesInv(c, s) && EndInv(c, s) && StatusInv(c, s) && ContentInv(c, s) && Enabled(c, s, i, a)
    ensures ContentInv(c, Next(c, s, i, a))
  {
    var t := Next(c, s, i, a);
    if a.Claim? {
      ContentClaimed(c, s, i, a);
    } else if a.Write? {
      ContentWrite(c, s, i, a);
    } else if a.Finish? {
      ContentFinished(c, s, i);
    } else {
      ContentMoved(c, s, t, i, t.places[i]);
    }
  }

  // ------------------------------------------------------------------
  // The status of the claimed ranges

  /** A step of one coroutine that keeps the status and the buffer of its range, or has none. */
  lemma StatusMoved(c: Plan, s: State, t: State, i: nat, p: Place)
    requires StatusInv(c, s) && Moved(s, t, i, p) && t.status == s.status && t.nextStatus == s.nextStatus
    requires s.ret.Failed? ==> t.ret.Failed?
    requires Works(p) ==> RightPlace(c, p)
    requires p.Writing? || (Buffers(p) && !t.ret.Failed?) ==> LoadedPlace(c, p)
    ensures StatusInv(c, t)
  {
  }

  lemma StatusClaimed(c: Plan, s: State, i: nat, a: Action)
    requires StatusInv(c, s) && a.Claim? && Enabled(c, s, i, a)
    ensures StatusInv(c, Next(c, s, i, a))
  {
  }

  lemma StatusRead(c: Plan, s: State, i: nat, a: Action)
    requires StatusInv(c, s) && a.Read? && Enabled(c, s, i, a)
    ensures StatusInv(c, Next(c, s, i, a))
  {
    var t := Next(c, s, i, a);
    var p := s.places[i];
    assert RightPlace(c, p);
    if p.what.Zero? {
      assert seq(p.n, _ => 0) == c.source[p.start..p.start + p.n];
    }
    StatusMoved(c, s, t, i, t.places[i]);
  }

  lemma StatusFinished(c: Plan, s: State, i: nat)
    requires StatusInv(c, s) && EndInv(c, s) && i < |s.places| && s.places[i].Finishing?
    ensures StatusInv(c, Finished(c, s, i))
  {
    var t := Finished(c, s, i);
    var u := At(s, i, Top);
    StatusMoved(c, s, u, i, Top);
    if t.places != u.places {
      var j := FirstWaiter(u.places, t.wrOffs, 0);
      assert s.places[j].Waiting? && RightPlace(c, s.places[j]);
      StatusMoved(c, u, t, j, t.places[j]);
    }
  }

  lemma StatusStep(c: Plan, s: State, i: nat, a: Action)
    requires StatusInv(c, s) && EndInv(c, s) && Enabled(c, s, i, a)
    ensures StatusInv(c, Next(c, s, i, a))
  {
    if a.Claim? {
      StatusClaimed(c, s, i, a);
    } else if a.Read? {
      StatusRead(c, s, i, a);
    } else if a.Finish? {
      StatusFinished(c, s, i);
    } else {
      var t := Next(c, s, i, a);
      assert Works(s.places[i]) ==> RightPlace(c, s.places[i]);
      StatusMoved(c, s, t, i, t.places[i]);
    }
  }

  // ------------------------------------------------------------------
  // No sector twice

  /** A step that handles nothing keeps `OnceInv` if no sector comes to pend that was claimed before. */
  lemma OnceKept(s: State, t: State)
    requires OnceInv(s) && t.log == s.log && s.sectorNum <= t.sectorNum
    requires forall x: nat :: x < s.sectorNum && Pending(t, x) ==> Pending(s, x)
    ensures OnceInv(t)
  {
    forall m, x: nat | 0 <= m < |t.log| && InPiece(t.log[m], x) ensures Behind(t, x) {
      assert InPiece(s.log[m], x) && Behind(s, x);
    }
  }

  lemma PendingMoved(s: State, t: State, i: nat, x: nat)
    requires i < |s.places| == |t.places| && t.places == s.places[i := t.places[i]]
    requires Pends(t.places[i], x) ==> Pends(s.places[i], x)
    ensures Pending(t, x) ==> Pending(s, x)
  {
    PendingStays(t, s, i, x);
  }

  lemma OnceFinished(c: Plan, s: State, i: nat)
    requires OnceInv(s) && i < |s.places| && s.places[i].Finishing?
    ensures OnceInv(Finished(c, s, i))
  {
    var t := Finished(c, s, i);
    var u := At(s, i, Top);
    forall x: nat ensures Pending(t, x) ==> Pending(s, x) {
      PendingMoved(s, u, i, x);
      if t.places != u.places {
        PendingMoved(u, t, FirstWaiter(u.places, t.wrOffs, 0), x);
      }
    }
    OnceKept(s, t);
  }

  lemma OnceWrite(c: Plan, s: State, i: nat, a: Action)
    requires RangesInv(c, s) && OnceInv(s) && a.Write? && Enabled(c, s, i, a)
    ensures OnceInv(Next(c, s, i, a))
  {
    var t := Next(c, s, i, a);
    var p := s.places[i];
    var piece := (p.pos, a.piece);
    forall x: nat ensures Pending(t, x) ==> Pending(s, x) && !InPiece(piece, x) {
      PendingMoved(s, t, i, x);
      if InPiece(piece, x) {
        PieceDone(c, s, t, i, a.piece, x);
      }
    }
    forall x: nat | InPiece(piece, x) ensures x < s.sectorNum && Pending(s, x) {
      assert Pends(p, x);
    }
    forall m, x: nat | 0 <= m < |t.log| && InPiece(t.log[m], x) ensures Behind(t, x) {
      if m < |s.log| {
        assert t.log[m] == s.log[m];
        assert Behind(s, x);
      }
    }
    forall m, k, x: nat | 0 <= m < k < |t.log| && InPiece(t.log[m], x) ensures !InPiece(t.log[k], x) {
      assert t.log[m] == s.log[m] && Behind(s, x);
      assert t.log[k] == if k < |s.log| then s.log[k] else piece;
    }
  }

  /** What has been handled pends for nobody. */
  lemma PieceDone(c: Plan, s: State, t: State, i: nat, k: nat, x: nat)
    requires RangesInv(c, s) && i < |s.places| == |t.places| && s.places[i].Writing?
    requires t.places == s.places[i := t.places[i]] && InPiece((s.places[i].pos, k), x)
    requires k <= s.places[i].start + s.places[i].n - s.places[i].pos && !Pends(t.places[i], x)
    ensures !Pending(t, x)
  {
    forall m | 0 <= m < |t.places| ensures !Pends(t.places[m], x) {
      if m != i && HasRange(s.places[m]) {
        assert Apart(s.places[m], s.places[i]);
      }
    }
  }

  lemma OnceStep(c: Plan, s: State, i: nat, a: Action)
    requires RangesInv(c, s) && OnceInv(s) && Enabled(c, s, i, a)
    ensures OnceInv(Next(c, s, i, a))
  {
    if a.Write? {
      OnceWrite(c, s, i, a);
    } else if a.Finish? {
      OnceFinished(c, s, i);
    } else {
      var t := Next(c, s, i, a);
      forall x: nat | x < s.sectorNum ensures Pending(t, x) ==> Pending(s, x) {
        PendingMoved(s, t, i, x);
      }
      OnceKept(s, t);
    }
  }

  /** While the copy is in progress, somebody is left to end it. */
  predicate DoneInv(s: State) {
    s.ret.InProgress? && (exists i :: 0 <= i < |s.places| && s.places[i].Done?) ==>
      exists i :: 0 <= i < |s.places| && Active(s.places[i])
  }

  lemma {:induction false} SomeRunning(places: seq<Place>)
    requires Running(places) > 0
    ensures exists i :: 0 <= i < |places| && Active(places[i])
  {
    if Active(places[0]) {
      assert Active(places[0]);
    } else {
      SomeRunning(places[1..]);
      var i :| 0 <= i < |places[1..]| && Active(places[1..][i]);
      assert Active(places[i + 1]);
    }
  }

  lemma DoneStep(c: Plan, s: State, i: nat, a: Action)
    requires DoneInv(s) && Enabled(c, s, i, a)
    ensures DoneInv(Next(c, s, i, a))
  {
    var t := Next(c, s, i, a);
    if a.Leave? {
      if t.ret.InProgress? {
        SomeRunning(t.places);
      }
    } else {
      assert Active(t.places[i]);
    }
  }

  // ------------------------------------------------------------------
  // Every step brings the end nearer

  function Weight(p: Place): nat {
    match p
    case NotStarted => 4
    case Top => 3
    case Claiming => 2
    case Reading(_, n, _) => 7 + n
    case Ordering(_, n, _, _) => 6 + n
    case Waiting(_, n, _, _) => 5 + n
    case Writing(start, n, _, _, pos) => if start + n > pos then 4 + (start + n - pos) else 4
    case Finishing(_, _) => 4
    case Leaving => 1
    case Done => 0
  }

  function Total(places: seq<Place>): nat {
    if places == [] then 0 else Weight(places[0]) + Total(places[1..])
  }

  function Measure(c: Plan, s: State): int {
    Total(s.places) + 7 * (|c.source| - s.sectorNum)
  }

  lemma {:induction false} TotalMoved(places: seq<Place>, i: nat, p: Place)
    requires i < |places|
    ensures Total(places[i := p]) == Total(places) - Weight(places[i]) + Weight(p)
  {
    if i > 0 {
      TotalMoved(places[1..], i - 1, p);
      assert places[i := p][1..] == places[1..][i - 1 := p];
    } else {
      assert places[i := p][1..] == places[1..];
    }
  }

  /** A step of one coroutine alone lowers its weight, or pays for the sectors it claims. */
  lemma WeightDrops(c: Plan, s: State, i: nat, a: Action)
    requires RangesInv(c, s) && Enabled(c, s, i, a) && !a.Finish?
    ensures var t := Next(c, s, i, a);
      && t.places == s.places[i := t.places[i]]
      && Weight(t.places[i]) < Weight(s.places[i]) + 7 * (t.sectorNum - s.sectorNum)
  {
  }

  lemma FinishCountsDown(c: Plan, s: State, i: nat)
    requires i < |s.places| && s.places[i].Finishing?
    ensures Total(Finished(c, s, i).places) < Total(s.places)
  {
    var t := Finished(c, s, i);
    var u := At(s, i, Top);
    TotalMoved(s.places, i, Top);
    if t.places != u.places {
      var j := FirstWaiter(u.places, t.wrOffs, 0);
      TotalMoved(u.places, j, t.places[j]);
    }
  }

  lemma StepCountsDown(c: Plan, s: State, i: nat, a: Action)
    requires RangesInv(c, s) && Enabled(c, s, i, a)
    ensures Measure(c, Next(c, s, i, a)) < Measure(c, s)
  {
    if a.Finish? {
      FinishCountsDown(c, s, i);
    } else {
      WeightDrops(c, s, i, a);
      TotalMoved(s.places, i, Next(c, s, i, a).places[i]);
    }
  }

  // ------------------------------------------------------------------
  // Runs

  predicate IsRun(c: Plan, states: seq<State>, steps: seq<(nat, Action)>) {
    && |states| == |steps| + 1
    && Init(c, states[0])
    && forall k :: 0 <= k < |steps| ==> IsStep(c, states[k], steps[k], states[k + 1])
  }

  predicate IsStep(c: Plan, s: State, step: (nat, Action), t: State) {
    Enabled(c, s, step.0, step.1) && t == Next(c, s, step.0, step.1)
  }

  lemma StepInv(c: Plan, s: State, i: nat, a: Action)
    requires Inv(c, s) && DoneInv(s) && Enabled(c, s, i, a)
    ensures Inv(c, Next(c, s, i, a)) && DoneInv(Next(c, s, i, a))
  {
    RangesStep(c, s, i, a);
    LockStep(c, s, i, a);
    EndStep(c, s, i, a);
    StatusStep(c, s, i, a);
    ContentStep(c, s, i, a);
    OnceStep(c, s, i, a);
    DoneStep(c, s, i, a);
    if c.inOrder {
      OrderStep(c, s, i, a);
      LogStep(c, s, i, a);
    }
  }

  lemma {:induction false} RunInv(c: Plan, states: seq<State>, steps: seq<(nat, Action)>, n: nat)
    requires IsRun(c, states, steps) && n < |states|
    ensures Inv(c, states[n]) && DoneInv(states[n])
  {
    if n == 0 {
      InitInv(c, states[0]);
    } else {
      RunInv(c, states, steps, n - 1);
      assert IsStep(c, states[n - 1], steps[n - 1], states[n - 1 + 1]);
      StepInv(c, states[n - 1], steps[n - 1].0, steps[n - 1].1);
    }
  }

  lemma IsStepCountsDown(c: Plan, s: State, step: (nat, Action), t: State)
    requires RangesInv(c, s) && IsStep(c, s, step, t)
    ensures Measure(c, t) < Measure(c, s) && |t.places| == |s.places|
  {
    StepCountsDown(c, s, step.0, step.1);
  }

  lemma {:induction false} RunCountsDown(c: Plan, states: seq<State>, steps: seq<(nat, Action)>, n: nat)
    requires IsRun(c, states, steps) && n < |states|
    ensures |states[n].places| == |states[0].places|
    ensures Measure(c, states[n]) + n <= Measure(c, states[0])
  {
    if n > 0 {
      RunCountsDown(c, states, steps, n - 1);
      RunInv(c, states, steps, n - 1);
      IsStepCountsDown(c, states[n - 1], steps[n - 1], states[n - 1 + 1]);
    }
  }

  /** With ordered writes the target is written from its beginning to its end, whatever fails. */
  lemma WritesAreInOrder(c: Plan, states: seq<State>, steps: seq<(nat, Action)>, n: nat)
    requires IsRun(c, states, steps) && n < |states| && c.inOrder
    ensures Contiguous(states[n].log)
  {
    RunInv(c, states, steps, n);
  }

  predicate WritesAt(s: State, step: (nat, Action), x: nat) {
    && step.1.Write? && step.0 < |s.places| && s.places[step.0].Writing?
    && s.places[step.0].pos <= x < s.places[step.0].pos + step.1.piece
  }

  /** A sector reads as at the beginning until it is handled. */
  lemma WritesAreFresh(c: Plan, states: seq<State>, steps: seq<(nat, Action)>, n: nat, x: nat)
    requires IsRun(c, states, steps) && n < |steps| && WritesAt(states[n], steps[n], x)
    ensures x < |c.source| == |c.initial| == |states[n].target| && states[n].target[x] == c.initial[x]
  {
    RunInv(c, states, steps, n);
    assert IsStep(c, states[n], steps[n], states[n + 1]);
    assert Pends(states[n].places[steps[n].0], x);
  }

  /** No sector lies in two of the pieces that are handled. */
  lemma WritesAreOnce(c: Plan, states: seq<State>, steps: seq<(nat, Action)>, n: nat, m: nat, k: nat, x: nat)
    requires IsRun(c, states, steps) && n < |states| && m < |states[n].log| && k < |states[n].log|
    requires InPiece(states[n].log[m], x) && InPiece(states[n].log[k], x)
    ensures m == k
  {
    RunInv(c, states, steps, n);
  }

  /** Whoever claims finds the remembered status right, as convert_iteration_sectors needs it. */
  lemma ClaimsAreReady(c: Plan, states: seq<State>, steps: seq<(nat, Action)>, n: nat, i: nat)
    requires IsRun(c, states, steps) && n < |states| && i < |states[n].places| && states[n].places[i].Claiming?
    ensures states[n].sectorNum < |c.settings.Source()|
    ensures c.settings.Valid() && c.settings.Cached(states[n].status, states[n].nextStatus, states[n].sectorNum)
  {
    RunInv(c, states, steps, n);
  }

  /** The coroutine with the least range among those that wait. */
  lemma {:induction false} LeastWaiter(s: State, i: nat) returns (k: nat)
    requires i < |s.places| && s.places[i].Waiting?
    ensures k < |s.places| && s.places[k].Waiting?
    ensures forall m :: 0 <= m < |s.places| && s.places[m].Waiting? ==> s.places[k].start <= s.places[m].start
    decreases s.places[i].start
  {
    if m: nat :| m < |s.places| && s.places[m].Waiting? && s.places[m].start < s.places[i].start {
      k := LeastWaiter(s, m);
    } else {
      k := i;
    }
  }

  /** The step is one of those that report an error. */
  predicate Fails(a: Action) {
    a.ClaimFails? || (a.Read? && !a.ok) || a.WriteFails?
  }

  /** Some coroutine can take a step that does not fail. */
  ghost predicate CanGoOn(c: Plan, s: State) {
    exists i: nat, a :: Enabled(c, s, i, a) && !Fails(a)
  }

  ghost predicate CanStep(c: Plan, s: State, i: nat) {
    exists a :: Enabled(c, s, i, a) && !Fails(a)
  }

  /** Something can be claimed as long as anything is left. */
  lemma ClaimGoesOn(c: Plan, s: State, i: nat)
    requires StatusInv(c, s) && LockInv(c, s) && i < |s.places| && s.places[i].Claiming?
    ensures CanStep(c, s, i)
  {
    assert c.settings.Chosen(Data, 0, s.sectorNum, 1);
    assert Enabled(c, s, i, Claim(1, Data, 0));
  }

  lemma RangeGoesOn(c: Plan, s: State, i: nat)
    requires Inv(c, s) && i < |s.places| && HasRange(s.places[i]) && !s.places[i].Waiting?
    ensures CanStep(c, s, i)
  {
    var p := s.places[i];
    if p.Reading? {
      assert RightPlace(c, p);
      assert Enabled(c, s, i, Read(true, c.source[p.start..p.start + p.n]));
    } else if p.Ordering? {
      assert Enabled(c, s, i, Order);
    } else if p.Writing? {
      assert RightPlace(c, p) && LoadedPlace(c, p);
      c.settings.RestRight(p.what, p.buf, p.start, p.n, p.pos - p.start);
      var effect := c.settings.SomeHandling(p.what, Rest(c, p), Left(p));
      assert Enabled(c, s, i, Write(Left(p), effect));
    } else {
      assert Enabled(c, s, i, Finish);
    }
  }

  /** A coroutine that waits for its turn does not wait for ever: one with an earlier range can go on. */
  lemma WaiterHasPredecessor(c: Plan, s: State, i: nat) returns (m: nat)
    requires Inv(c, s) && c.inOrder && i < |s.places| && s.places[i].Waiting?
    ensures m < |s.places| && HasRange(s.places[m]) && s.places[m].start + s.places[m].n <= s.places[i].start
    ensures CanStep(c, s, m)
  {
    var k := LeastWaiter(s, i);
    m :| 0 <= m < |s.places| && EndsAt(s.places[m], s.places[k].start);
    RangeGoesOn(c, s, m);
  }

  predicate OnlyOrderedWaits(c: Plan, s: State) {
    c.inOrder || forall i :: 0 <= i < |s.places| ==> !s.places[i].Waiting?
  }

  lemma NoDeadlock(c: Plan, s: State, i: nat)
    requires Inv(c, s) && OnlyOrderedWaits(c, s) && i < |s.places| && !s.places[i].Done?
    ensures CanGoOn(c, s)
  {
    var p := s.places[i];
    if p.Waiting? {
      var m := WaiterHasPredecessor(c, s, i);
      var a :| Enabled(c, s, m, a) && !Fails(a);
    } else if HasRange(p) {
      RangeGoesOn(c, s, i);
      var a :| Enabled(c, s, i, a) && !Fails(a);
    } else if p.NotStarted? {
      assert Enabled(c, s, i, Enter);
    } else if p.Claiming? {
      ClaimGoesOn(c, s, i);
      var a :| Enabled(c, s, i, a) && !Fails(a);
    } else if p.Leaving? {
      assert Enabled(c, s, i, Leave);
    } else if s.locked {
      var k: nat :| k < |s.places| && s.places[k].Claiming?;
      ClaimGoesOn(c, s, k);
      var a :| Enabled(c, s, k, a) && !Fails(a);
    } else {
      assert Enabled(c, s, i, Lock);
    }
  }

  lemma {:induction false} RunOnlyOrderedWaits(c: Plan, states: seq<State>, steps: seq<(nat, Action)>, n: nat)
    requires IsRun(c, states, steps) && n < |states|
    ensures OnlyOrderedWaits(c, states[n])
  {
    if n > 0 {
      RunOnlyOrderedWaits(c, states, steps, n - 1);
      assert IsStep(c, states[n - 1], steps[n - 1], states[n - 1 + 1]);
    }
  }

  /** An error is remembered, and there is none without a step that failed. */
  lemma FailedStep(c: Plan, s: State, i: nat, a: Action)
    requires Enabled(c, s, i, a)
    ensures Next(c, s, i, a).ret.Failed? <==> s.ret.Failed? || Fails(a)
  {
  }

  lemma {:induction false} FailedRun(c: Plan, states: seq<State>, steps: seq<(nat, Action)>, n: nat)
    requires IsRun(c, states, steps) && n < |states|
    ensures states[n].ret.Failed? <==> exists k :: 0 <= k < n && Fails(steps[k].1)
  {
    if n > 0 {
      FailedRun(c, states, steps, n - 1);
      assert IsStep(c, states[n - 1], steps[n - 1], states[n - 1 + 1]);
      FailedStep(c, states[n - 1], steps[n - 1].0, steps[n - 1].1);
    }
  }

  /**
    For any settings, any number of coroutines, with ordered writes or not, and any schedule:
    the copy ends, and when it ends it says what happened.  A run is no longer than its
    measure; a run that cannot go on without a failure has all coroutines done, and then the
    result is success exactly if no step has failed; and success means that the target reads
    as the sources in a row, in every sector.
  */
  lemma CopyIsCorrect(c: Settings, inOrder: bool, states: seq<State>, steps: seq<(nat, Action)>)
    requires c.Valid() && IsRun(PlanFor(inOrder, c), states, steps) && |states[0].places| > 0
    ensures |steps| <= Measure(PlanFor(inOrder, c), states[0])
    ensures var s := states[|steps|];
      && (!CanGoOn(PlanFor(inOrder, c), s) ==>
            && (s.ret.Success? <==> forall k :: 0 <= k < |steps| ==> !Fails(steps[k].1))
            && !s.ret.InProgress? && forall i :: 0 <= i < |s.places| ==> s.places[i].Done?)
      && (s.ret.Success? ==> s.target == c.Source())
  {
    var p := PlanFor(inOrder, c);
    var s := states[|steps|];
    RunInv(p, states, steps, |steps|);
    RunCountsDown(p, states, steps, |steps|);
    RunOnlyOrderedWaits(p, states, steps, |steps|);
    FailedRun(p, states, steps, |steps|);
    if !CanGoOn(p, s) {
      forall i | 0 <= i < |s.places| ensures s.places[i].Done? {
        if !s.places[i].Done? {
          NoDeadlock(p, s, i);
        }
      }
      assert s.places[0].Done?;
    }
    if s.ret.Success? {
      assert forall x :: 0 <= x < |p.source| ==> !Pending(s, x);
    }
  }
}
