/**
  The exclusive-section protocol of the vCPU threads (qemu/cpu-common.c).

  Every vCPU thread runs cpu_exec_start/cpu_exec_end around guest code, and any
  of them may stop the whole machine with start_exclusive/end_exclusive.  The
  protocol is a transition system: each thread has a program counter, and every
  access to a shared variable is a step of its own.  The full barriers in the
  source make the accesses to `running` and `pending_cpus` sequentially
  consistent, which is what interleaving single steps expresses.
*/
module ExclusiveSection {

  import opened Options

  /** What a thread does next.  The comment names the source statement. */
  datatype Pc =
    | Outside                              // in none of the four functions, not executing guest code
    // cpu_exec_start
    | StartReadPending                     // if (qatomic_read(&pending_cpus))
    | StartLock                            // take qemu_cpu_list_lock
    | StartTestWaiter                      // if (!cpu->has_waiter)
    | StartIdle                            // while (pending_cpus), in exclusive_idle
    | StartSleep                           // inside qemu_cond_wait(&exclusive_resume)
    | StartSetRunning                      // qatomic_set(&cpu->running, true), lock held
    | StartUnlock                          // drop the lock and return
    | Executing                            // between the two calls
    // cpu_exec_end
    | EndReadPending                       // if (qatomic_read(&pending_cpus))
    | EndLock                              // take the lock
    | EndTestWaiter                        // if (cpu->has_waiter) clear it
    | EndDecrement                         // pending_cpus - 1
    | EndSignal                            // if (pending_cpus == 1) signal
    | EndUnlock                            // drop the lock and return
    // start_exclusive
    | ExclLock                             // take the lock
    | ExclIdle                             // while (pending_cpus), in exclusive_idle
    | ExclSleep                            // inside qemu_cond_wait(&exclusive_resume)
    | ExclSetPending                       // qatomic_set(&pending_cpus, 1)
    | ExclScan(next: nat, count: nat)      // read running of CPU number `next`
    | ExclMark(next: nat, count: nat)      // set has_waiter of CPU number `next`
    | ExclPublish(count: nat)              // qatomic_set(&pending_cpus, running_cpus + 1)
    | ExclWaitTest                         // while (pending_cpus > 1)
    | ExclWaitSleep                        // inside qemu_cond_wait(&exclusive_cond)
    | ExclUnlock                           // drop the lock
    | ExclSetContext                       // exclusive_context_count = 1, return
    // end_exclusive
    | ReleaseLock                          // take the lock
    | ReleaseReset                         // qatomic_set(&pending_cpus, 0)
    | ReleaseBroadcast                     // broadcast exclusive_resume
    | ReleaseUnlock                        // drop the lock and return

  /** One thread: its program counter and the CPUState fields the protocol uses. */
  datatype Cpu = Cpu(pc: Pc, running: bool, hasWaiter: bool, contexts: nat)

  /**
    The whole machine.  `resumeSleepers` and `condSleepers` are the threads
    asleep on exclusive_resume and exclusive_cond and not yet woken.
  */
  datatype State = State(
    cpus: seq<Cpu>,
    pending: int,
    lock: Option<nat>,
    resumeSleepers: set<nat>,
    condSleepers: set<nat>)
  {
    function SetCpu(c: nat, cpu: Cpu): State
      requires c < |cpus|
    {
      this.(cpus := cpus[c := cpu])
    }

    function Goto(c: nat, pc: Pc): State
      requires c < |cpus|
    {
      SetCpu(c, cpus[c].(pc := pc))
    }
  }

  predicate Init(s: State) {
    && s.pending == 0 && s.lock == None && s.resumeSleepers == {} && s.condSleepers == {}
    && forall i :: 0 <= i < |s.cpus| ==> s.cpus[i] == Cpu(Outside, false, false, 0)
  }

  /**
    The calls a thread may make, the deterministic step inside a call, and a
    spurious wake-up, which a condition variable is always allowed.  `woken` is
    the sleeper that a signal picks.
  */
  datatype Action =
    | CallExecStart
    | CallExecEnd
    | CallStartExclusive
    | CallEndExclusive
    | Advance(woken: nat)
    | SpuriousWake

  /** Is `a` something thread `c` can do now? */
  predicate Enabled(s: State, c: nat, a: Action) {
    && c < |s.cpus|
    && match a
       case CallExecStart => s.cpus[c].pc == Outside
       case CallExecEnd => s.cpus[c].pc == Executing
       case CallStartExclusive => s.cpus[c].pc == Outside
       case CallEndExclusive => s.cpus[c].pc == Outside && s.cpus[c].contexts > 0
       case Advance(w) => CanAdvance(s, c, w)
       case SpuriousWake => c in s.resumeSleepers || c in s.condSleepers
  }

  predicate CanAdvance(s: State, c: nat, woken: nat)
    requires c < |s.cpus|
  {
    match s.cpus[c].pc
    case Outside => false
    case Executing => false
    case StartLock => s.lock == None
    case EndLock => s.lock == None
    case ExclLock => s.lock == None
    case ReleaseLock => s.lock == None
    case StartSleep => s.lock == None && c !in s.resumeSleepers
    case ExclSleep => s.lock == None && c !in s.resumeSleepers
    case ExclWaitSleep => s.lock == None && c !in s.condSleepers
    case EndSignal => s.pending == 1 && s.condSleepers != {} ==> woken in s.condSleepers
    case _ => true
  }

  /** The state after thread `c` does `a`. */
  function Step(s: State, c: nat, a: Action): State
    requires Enabled(s, c, a)
  {
    var cpu := s.cpus[c];
    match a
    case CallExecStart => s.SetCpu(c, cpu.(pc := StartReadPending, running := true))
    case CallExecEnd => s.SetCpu(c, cpu.(pc := EndReadPending, running := false))
    case CallStartExclusive =>
      if cpu.contexts > 0 then s.SetCpu(c, cpu.(contexts := cpu.contexts + 1)) else s.Goto(c, ExclLock)
    case CallEndExclusive =>
      if cpu.contexts > 1 then s.SetCpu(c, cpu.(contexts := cpu.contexts - 1))
      else s.SetCpu(c, cpu.(contexts := 0, pc := ReleaseLock))
    case SpuriousWake => s.(resumeSleepers := s.resumeSleepers - {c}, condSleepers := s.condSleepers - {c})
    case Advance(w) =>
      match cpu.pc {
        case StartReadPending => s.Goto(c, if s.pending != 0 then StartLock else Executing)
        case StartLock => s.Goto(c, StartTestWaiter).(lock := Some(c))
        case StartTestWaiter =>
          if cpu.hasWaiter then s.Goto(c, StartUnlock) else s.SetCpu(c, cpu.(pc := StartIdle, running := false))
        case StartIdle =>
          if s.pending == 0 then s.Goto(c, StartSetRunning)
          else s.Goto(c, StartSleep).(lock := None, resumeSleepers := s.resumeSleepers + {c})
        case StartSleep => s.Goto(c, StartIdle).(lock := Some(c))
        case StartSetRunning => s.SetCpu(c, cpu.(pc := StartUnlock, running := true))
        case StartUnlock => s.Goto(c, Executing).(lock := None)
        case EndReadPending => s.Goto(c, if s.pending != 0 then EndLock else Outside)
        case EndLock => s.Goto(c, EndTestWaiter).(lock := Some(c))
        case EndTestWaiter =>
          if cpu.hasWaiter then s.SetCpu(c, cpu.(pc := EndDecrement, hasWaiter := false)) else s.Goto(c, EndUnlock)
        case EndDecrement => s.Goto(c, EndSignal).(pending := s.pending - 1)
        case EndSignal =>
          if s.pending == 1 then s.Goto(c, EndUnlock).(condSleepers := s.condSleepers - {w}) else s.Goto(c, EndUnlock)
        case EndUnlock => s.Goto(c, Outside).(lock := None)
        case ExclLock => s.Goto(c, ExclIdle).(lock := Some(c))
        case ExclIdle =>
          if s.pending == 0 then s.Goto(c, ExclSetPending)
          else s.Goto(c, ExclSleep).(lock := None, resumeSleepers := s.resumeSleepers + {c})
        case ExclSleep => s.Goto(c, ExclIdle).(lock := Some(c))
        case ExclSetPending => s.Goto(c, ExclScan(0, 0)).(pending := 1)
        case ExclScan(i, k) =>
          if i >= |s.cpus| then s.Goto(c, ExclPublish(k))
          else if s.cpus[i].running then s.Goto(c, ExclMark(i, k))
          else s.Goto(c, ExclScan(i + 1, k))
        case ExclMark(i, k) =>
          var marked := if i < |s.cpus| then s.SetCpu(i, s.cpus[i].(hasWaiter := true)) else s;
          marked.Goto(c, ExclScan(i + 1, k + 1))
        case ExclPublish(k) => s.Goto(c, ExclWaitTest).(pending := k + 1)
        case ExclWaitTest =>
          if s.pending > 1 then s.Goto(c, ExclWaitSleep).(lock := None, condSleepers := s.condSleepers + {c})
          else s.Goto(c, ExclUnlock)
        case ExclWaitSleep => s.Goto(c, ExclWaitTest).(lock := Some(c))
        case ExclUnlock => s.Goto(c, ExclSetContext).(lock := None)
        case ExclSetContext => s.SetCpu(c, cpu.(pc := Outside, contexts := 1))
        case ReleaseLock => s.Goto(c, ReleaseReset).(lock := Some(c))
        case ReleaseReset => s.Goto(c, ReleaseBroadcast).(pending := 0)
        case ReleaseBroadcast => s.Goto(c, ReleaseUnlock).(resumeSleepers := {})
        case ReleaseUnlock => s.Goto(c, Outside).(lock := None)
      }
  }

  /** A run: it starts in an initial state and every next state is one step of some thread. */
  ghost predicate IsRun(run: seq<State>) {
    && |run| > 0
    && Init(run[0])
    && forall k :: 0 <= k < |run| - 1 ==> IsStep(run[k], run[k + 1])
  }

  ghost predicate IsStep(s: State, t: State) {
    exists c: nat, a :: Enabled(s, c, a) && t == Step(s, c, a)
  }

  // ------------------------------------------------------------------
  // What is promised

  /** Thread `c` is between the return of its outermost start_exclusive and the reset of pending_cpus. */
  predicate InExclusiveSection(s: State, c: nat)
    requires c < |s.cpus|
  {
    s.cpus[c].contexts > 0 || s.cpus[c].pc == ReleaseLock || s.cpus[c].pc == ReleaseReset
  }

  /**
    While one CPU is in its exclusive section, no CPU at all is executing guest
    code, and no other CPU is in an exclusive section.
  */
  ghost predicate Exclusive(s: State) {
    forall c, d ::
      0 <= c < |s.cpus| && 0 <= d < |s.cpus| && InExclusiveSection(s, c) ==>
        s.cpus[d].pc != Executing && (d != c ==> !InExclusiveSection(s, d))
  }

  function Waiters(s: State): set<nat> {
    set i: nat | i < |s.cpus| && s.cpus[i].hasWaiter
  }

  /** The scan of start_exclusive is under way, so pending_cpus is not yet the final count. */
  predicate Scanning(pc: Pc) {
    pc.ExclScan? || pc.ExclMark? || pc.ExclPublish?
  }

  /** Thread `c` still has to come to the decrement in cpu_exec_end. */
  predicate BeforeDecrement(pc: Pc) {
    || pc.StartReadPending? || pc.StartLock? || pc.StartTestWaiter? || pc.StartUnlock?
    || pc.Executing? || pc.EndReadPending? || pc.EndLock? || pc.EndTestWaiter?
  }

  /**
    The count kept in pending_cpus.  With the lock free it is 0 and no CPU has a
    waiter, or it is 1 plus the number of CPUs that have one; each of those CPUs
    has its decrement still to come.
  */
  ghost predicate Bookkeeping(s: State) {
    && (s.lock == None ==>
          if s.pending == 0 then Waiters(s) == {} else s.pending == 1 + |Waiters(s)|)
    && forall i :: 0 <= i < |s.cpus| && s.cpus[i].hasWaiter ==> BeforeDecrement(s.cpus[i].pc)
  }

  /**
    No wake-up is lost.  At most one thread sleeps on exclusive_cond, so one
    signal is enough, and it sleeps only while some counted CPU has not done its
    decrement or the signal is about to be sent.  A thread sleeps on
    exclusive_resume only while an exclusive operation is pending or the
    broadcast is about to be sent.
  */
  ghost predicate NoLostWakeup(s: State) {
    && (forall c, d :: c in s.condSleepers && d in s.condSleepers ==> c == d)
    && (s.condSleepers != {} ==>
          || Waiters(s) != {}
          || exists d :: 0 <= d < |s.cpus| && (s.cpus[d].pc.EndDecrement? || s.cpus[d].pc.EndSignal?))
    && (s.resumeSleepers != {} ==>
          s.pending != 0 || exists d :: 0 <= d < |s.cpus| && s.cpus[d].pc == ReleaseBroadcast)
  }

  // ------------------------------------------------------------------
  // The inductive invariant

  predicate HoldsLock(pc: Pc) {
    || pc.StartTestWaiter? || pc.StartIdle? || pc.StartSetRunning? || pc.StartUnlock?
    || pc.EndTestWaiter? || pc.EndDecrement? || pc.EndSignal? || pc.EndUnlock?
    || pc.ExclIdle? || pc.ExclSetPending? || Scanning(pc) || pc.ExclWaitTest? || pc.ExclUnlock?
    || pc.ReleaseReset? || pc.ReleaseBroadcast? || pc.ReleaseUnlock?
  }

  predicate RunningPc(pc: Pc) {
    pc.StartReadPending? || pc.StartLock? || pc.StartTestWaiter? || pc.StartUnlock? || pc.Executing?
  }

  /** Past the point where cpu_exec_start can still be held back. */
  predicate Committed(pc: Pc) {
    pc.StartUnlock? || pc.Executing?
  }

  /** Where a CPU can be that the scan saw running and has not marked yet. */
  predicate SeenRunning(pc: Pc) {
    pc.StartReadPending? || pc.StartLock? || pc.Executing? || pc.EndReadPending? || pc.EndLock?
  }

  /** The lock holder has seen pending_cpus at zero, or has just made it zero. */
  predicate SeenIdle(pc: Pc) {
    pc.ExclSetPending? || pc.StartSetRunning? || pc.ReleaseBroadcast? || pc.ReleaseUnlock?
  }

  /** The operation that made pending_cpus nonzero and has not reset it. */
  predicate Owner(cpu: Cpu) {
    || cpu.contexts > 0 || Scanning(cpu.pc)
    || cpu.pc.ExclWaitTest? || cpu.pc.ExclWaitSleep? || cpu.pc.ExclUnlock? || cpu.pc.ExclSetContext?
    || cpu.pc.ReleaseLock? || cpu.pc.ReleaseReset?
  }

  /** What holds of thread `i` on its own, where `o` is the owner if there is one. */
  predicate CpuInv(s: State, o: Option<nat>, i: nat)
    requires i < |s.cpus|
  {
    var cpu := s.cpus[i];
    && (cpu.running <==> RunningPc(cpu.pc))
    && (cpu.contexts > 0 ==>
          || cpu.pc.Outside? || cpu.pc.StartReadPending? || cpu.pc.StartLock?
          || cpu.pc.StartTestWaiter? || cpu.pc.StartIdle? || cpu.pc.StartSleep?)
    && (cpu.hasWaiter ==> BeforeDecrement(cpu.pc) && !Owner(cpu))
    && (HoldsLock(cpu.pc) <==> s.lock == Some(i))
    && (Owner(cpu) <==> o == Some(i))
    && (s.pending == 0 ==> !cpu.hasWaiter && !cpu.pc.EndDecrement? && !cpu.pc.EndSignal?)
    && (SeenIdle(cpu.pc) ==> s.pending == 0)
    && (i in s.resumeSleepers ==> cpu.pc.StartSleep? || cpu.pc.ExclSleep?)
    && (i in s.condSleepers ==> cpu.pc.ExclWaitSleep?)
  }

  predicate LockHolderAt(s: State, pc: Pc) {
    s.lock.Some? && s.lock.value < |s.cpus| && s.cpus[s.lock.value].pc == pc
  }

  /** Every committed CPU below `n` was seen running and is counted. */
  predicate CountedBelow(s: State, n: nat) {
    forall i :: 0 <= i < n && i < |s.cpus| && Committed(s.cpus[i].pc) ==> s.cpus[i].hasWaiter
  }

  /** What holds at each point of the owner's progress. */
  predicate OwnerProgress(s: State, c: nat)
    requires c < |s.cpus|
  {
    var pc := s.cpus[c].pc;
    if pc.ExclScan? then
      && s.pending == 1 && pc.next <= |s.cpus| && pc.count == |Waiters(s)| && CountedBelow(s, pc.next)
      && (forall i :: pc.next <= i < |s.cpus| ==> !s.cpus[i].hasWaiter)
    else if pc.ExclMark? then
      && s.pending == 1 && pc.next < |s.cpus| && pc.count == |Waiters(s)| && CountedBelow(s, pc.next)
      && (forall i :: pc.next <= i < |s.cpus| ==> !s.cpus[i].hasWaiter)
      && SeenRunning(s.cpus[pc.next].pc)
    else if pc.ExclPublish? then
      s.pending == 1 && pc.count == |Waiters(s)| && CountedBelow(s, |s.cpus|)
    else if pc.ExclWaitTest? then
      s.pending == 1 + |Waiters(s)| && CountedBelow(s, |s.cpus|)
    else if pc.ExclWaitSleep? then
      // has_waiter is cleared just before pending_cpus is lowered
      s.pending == 1 + |Waiters(s)| + (if LockHolderAt(s, EndDecrement) then 1 else 0) && CountedBelow(s, |s.cpus|)
    else
      && s.pending == 1 && !LockHolderAt(s, EndDecrement)
      && forall i :: 0 <= i < |s.cpus| ==> !s.cpus[i].hasWaiter && !Committed(s.cpus[i].pc)
  }

  predicate SleepersInv(s: State) {
    && (s.resumeSleepers != {} ==> s.pending != 0 || LockHolderAt(s, ReleaseBroadcast))
    && (s.condSleepers != {} ==> s.pending > 1 || LockHolderAt(s, EndSignal))
    && (forall i :: i in s.resumeSleepers ==> i < |s.cpus|)
    && (forall i :: i in s.condSleepers ==> i < |s.cpus|)
  }

  predicate InvFor(s: State, o: Option<nat>) {
    && (s.lock.Some? ==> s.lock.value < |s.cpus|)
    && (forall i :: 0 <= i < |s.cpus| ==> CpuInv(s, o, i))
    && (o.Some? <==> s.pending != 0)
    && (o.Some? ==> o.value < |s.cpus| && OwnerProgress(s, o.value))
    && SleepersInv(s)
  }

  ghost predicate Inv(s: State) {
    exists o :: InvFor(s, o)
  }

  lemma InitInv(s: State)
    requires Init(s)
    ensures Inv(s)
  {
    assert InvFor(s, None);
  }

  /** The invariant is strong enough for everything promised. */
  lemma InvPromises(s: State)
    requires Inv(s)
    ensures Exclusive(s) && Bookkeeping(s) && NoLostWakeup(s)
  {
    var o: Option<nat> :| InvFor(s, o);
    forall c: nat, d: nat | c < |s.cpus| && d < |s.cpus| && InExclusiveSection(s, c)
      ensures s.cpus[d].pc != Executing && (d != c ==> !InExclusiveSection(s, d))
    {
      assert CpuInv(s, o, c) && CpuInv(s, o, d);
      assert !Committed(s.cpus[d].pc);
    }
    assert Bookkeeping(s) by {
      forall i | 0 <= i < |s.cpus| ensures s.cpus[i].hasWaiter ==> BeforeDecrement(s.cpus[i].pc) && s.pending != 0 {
        assert CpuInv(s, o, i);
      }
      if s.pending == 0 {
        assert Waiters(s) == {};
      } else if s.lock == None && !s.cpus[o.value].pc.ExclWaitSleep? {
        assert CpuInv(s, o, o.value);
        assert Waiters(s) == {};
      }
    }
    assert NoLostWakeup(s) by {
      forall c: nat | c in s.condSleepers ensures o == Some(c) {
        assert CpuInv(s, o, c);
      }
    }
  }

  // ------------------------------------------------------------------
  // One step keeps the invariant

  /** Only thread `c` changed. */
  predicate OnlyChanges(s: State, t: State, c: nat) {
    && c < |s.cpus| == |t.cpus|
    && forall i :: 0 <= i < |s.cpus| && i != c ==> t.cpus[i] == s.cpus[i]
  }

  /** Thread `c` took the lock, dropped it, or left it alone. */
  predicate LockMove(s: State, t: State, c: nat) {
    t.lock == s.lock || (s.lock == None && t.lock == Some(c)) || (s.lock == Some(c) && t.lock == None)
  }

  /** A step that neither changes who the owner is nor what the owner relies on. */
  predicate QuietChange(s: State, t: State, c: nat)
    requires c < |s.cpus| == |t.cpus|
  {
    && t.pending == s.pending
    && t.cpus[c].hasWaiter == s.cpus[c].hasWaiter
    && (Committed(t.cpus[c].pc) ==> Committed(s.cpus[c].pc) || s.cpus[c].hasWaiter || s.pending == 0)
    && (SeenRunning(s.cpus[c].pc) ==> SeenRunning(t.cpus[c].pc) || s.lock == None || s.pending == 0)
    && !s.cpus[c].pc.EndDecrement? && !t.cpus[c].pc.EndDecrement?
  }

  /** The owner's view survives a quiet step of another thread. */
  lemma QuietKeepsProgress(s: State, t: State, c: nat, o: nat)
    requires OnlyChanges(s, t, c) && c != o && o < |s.cpus|
    requires QuietChange(s, t, c) && LockMove(s, t, c) && s.pending != 0
    requires (Scanning(s.cpus[o].pc) ==> s.lock == Some(o)) && (s.lock == Some(c) ==> HoldsLock(s.cpus[c].pc))
    requires OwnerProgress(s, o)
    ensures OwnerProgress(t, o)
  {
    assert Waiters(t) == Waiters(s);
    assert LockHolderAt(t, EndDecrement) <==> LockHolderAt(s, EndDecrement);
  }

  /** The owner stays, comes to be thread `c`, or ceases to be thread `c`. */
  predicate OwnerMove(o: Option<nat>, p: Option<nat>, c: nat) {
    p == o || (o == None && p == Some(c)) || (o == Some(c) && p == None)
  }

  /** Every other thread keeps its own part of the invariant. */
  lemma OthersKeepInv(s: State, t: State, o: Option<nat>, p: Option<nat>, c: nat)
    requires OnlyChanges(s, t, c) && LockMove(s, t, c) && OwnerMove(o, p, c)
    requires forall i :: 0 <= i < |s.cpus| ==> CpuInv(s, o, i)
    requires
      || t.pending == s.pending
      || (s.lock == Some(c) && (t.pending != 0 || forall i :: 0 <= i < |s.cpus| ==> !s.cpus[i].hasWaiter))
    requires t.resumeSleepers <= s.resumeSleepers + {c} && t.condSleepers <= s.condSleepers + {c}
    requires CpuInv(t, p, c)
    ensures forall i :: 0 <= i < |t.cpus| ==> CpuInv(t, p, i)
  {
    forall i | 0 <= i < |t.cpus| && i != c ensures CpuInv(t, p, i) {
      assert CpuInv(s, o, i);
    }
  }

  /** What a quiet step does to its own thread. */
  predicate QuietLocally(s: State, t: State, o: Option<nat>, c: nat) {
    && OnlyChanges(s, t, c)
    && QuietChange(s, t, c) && LockMove(s, t, c) && CpuInv(t, o, c)
    && t.resumeSleepers <= s.resumeSleepers + {c} && t.condSleepers <= s.condSleepers + {c}
  }

  /** A quiet step of a thread that is not the owner. */
  lemma QuietInv(s: State, t: State, o: Option<nat>, c: nat)
    requires InvFor(s, o) && o != Some(c) && QuietLocally(s, t, o, c) && SleepersInv(t)
    ensures InvFor(t, o)
  {
    OthersKeepInv(s, t, o, o, c);
    assert CpuInv(s, o, c);
    if o.Some? {
      assert CpuInv(s, o, o.value);
      QuietKeepsProgress(s, t, c, o.value);
    }
  }

  /** A step inside the exclusive section, which the owner's progress does not depend on. */
  lemma SectionInv(s: State, t: State, o: Option<nat>, c: nat)
    requires InvFor(s, o) && o == Some(c) && QuietLocally(s, t, o, c) && SleepersInv(t)
    requires InSection(s.cpus[c]) && InSection(t.cpus[c]) && !Committed(t.cpus[c].pc)
    ensures InvFor(t, o)
  {
    OthersKeepInv(s, t, o, o, c);
    assert CpuInv(s, o, c) && CpuInv(t, o, c);
    SectionProgress(s, t, c);
  }

  lemma SectionProgress(s: State, t: State, c: nat)
    requires OnlyChanges(s, t, c) && QuietChange(s, t, c) && LockMove(s, t, c) && OwnerProgress(s, c)
    requires OwnerDone(s.cpus[c].pc) && OwnerDone(t.cpus[c].pc) && !Committed(t.cpus[c].pc)
    ensures OwnerProgress(t, c)
  {
    assert !LockHolderAt(t, EndDecrement);
  }

  /** The owner has waited for every counted CPU. */
  predicate OwnerDone(pc: Pc) {
    !Scanning(pc) && !pc.ExclWaitTest? && !pc.ExclWaitSleep?
  }

  predicate InSection(cpu: Cpu) {
    cpu.contexts > 0 || cpu.pc.ExclUnlock? || cpu.pc.ExclSetContext? || cpu.pc.ReleaseLock? || cpu.pc.ReleaseReset?
  }

  lemma CallLocal(s: State, o: Option<nat>, c: nat, a: Action)
    requires Enabled(s, c, a) && !a.Advance? && !a.SpuriousWake? && CpuInv(s, o, c)
    ensures QuietLocally(s, Step(s, c, a), o, c)
  {
    if a.CallExecStart? || a.CallExecEnd? {
      ExecCallLocal(s, o, c, a);
    } else {
      ExclusiveCallLocal(s, o, c, a);
    }
  }

  lemma ExecCallLocal(s: State, o: Option<nat>, c: nat, a: Action)
    requires Enabled(s, c, a) && (a.CallExecStart? || a.CallExecEnd?) && CpuInv(s, o, c)
    ensures QuietLocally(s, Step(s, c, a), o, c)
  {
  }

  lemma ExclusiveCallLocal(s: State, o: Option<nat>, c: nat, a: Action)
    requires Enabled(s, c, a) && (a.CallStartExclusive? || a.CallEndExclusive?) && CpuInv(s, o, c)
    ensures QuietLocally(s, Step(s, c, a), o, c)
  {
  }

  lemma CallSleepers(s: State, o: Option<nat>, c: nat, a: Action)
    requires Enabled(s, c, a) && !a.Advance? && !a.SpuriousWake? && CpuInv(s, o, c) && SleepersInv(s)
    ensures SleepersInv(Step(s, c, a))
    ensures o == Some(c) ==> InSection(s.cpus[c]) && InSection(Step(s, c, a).cpus[c])
  {
  }

  predicate StartPc(pc: Pc) {
    || pc.StartReadPending? || pc.StartLock? || pc.StartTestWaiter? || pc.StartIdle?
    || pc.StartSleep? || pc.StartSetRunning? || pc.StartUnlock?
  }

  lemma StartSleepers(s: State, o: Option<nat>, c: nat, w: nat)
    requires Enabled(s, c, Advance(w)) && CpuInv(s, o, c) && StartPc(s.cpus[c].pc) && SleepersInv(s)
    ensures SleepersInv(Step(s, c, Advance(w)))
  {
  }

  lemma StartLocal(s: State, o: Option<nat>, c: nat, w: nat)
    requires Enabled(s, c, Advance(w)) && CpuInv(s, o, c) && StartPc(s.cpus[c].pc)
    requires o.Some? <==> s.pending != 0
    ensures QuietLocally(s, Step(s, c, Advance(w)), o, c)
    ensures o == Some(c) ==>
      InSection(s.cpus[c]) && InSection(Step(s, c, Advance(w)).cpus[c]) && !Committed(Step(s, c, Advance(w)).cpus[c].pc)
  {
    var pc := s.cpus[c].pc;
    if pc.StartReadPending? || pc.StartLock? {
      StartEarlyLocal(s, o, c, w);
    } else if pc.StartTestWaiter? {
      StartTestLocal(s, o, c, w);
    } else if pc.StartIdle? || pc.StartSleep? {
      StartIdleLocal(s, o, c, w);
    } else {
      StartLateLocal(s, o, c, w);
    }
  }

  lemma StartEarlyLocal(s: State, o: Option<nat>, c: nat, w: nat)
    requires Enabled(s, c, Advance(w)) && CpuInv(s, o, c)
    requires s.cpus[c].pc.StartReadPending? || s.cpus[c].pc.StartLock?
    requires o.Some? <==> s.pending != 0
    ensures QuietLocally(s, Step(s, c, Advance(w)), o, c)
    ensures o == Some(c) ==>
      InSection(s.cpus[c]) && InSection(Step(s, c, Advance(w)).cpus[c]) && !Committed(Step(s, c, Advance(w)).cpus[c].pc)
  {
  }

  lemma StartTestLocal(s: State, o: Option<nat>, c: nat, w: nat)
    requires Enabled(s, c, Advance(w)) && CpuInv(s, o, c)
    requires s.cpus[c].pc.StartTestWaiter?
    requires o.Some? <==> s.pending != 0
    ensures QuietLocally(s, Step(s, c, Advance(w)), o, c)
    ensures o == Some(c) ==>
      InSection(s.cpus[c]) && InSection(Step(s, c, Advance(w)).cpus[c]) && !Committed(Step(s, c, Advance(w)).cpus[c].pc)
  {
  }

  lemma StartIdleLocal(s: State, o: Option<nat>, c: nat, w: nat)
    requires Enabled(s, c, Advance(w)) && CpuInv(s, o, c)
    requires s.cpus[c].pc.StartIdle? || s.cpus[c].pc.StartSleep?
    requires o.Some? <==> s.pending != 0
    ensures QuietLocally(s, Step(s, c, Advance(w)), o, c)
    ensures o == Some(c) ==>
      InSection(s.cpus[c]) && InSection(Step(s, c, Advance(w)).cpus[c]) && !Committed(Step(s, c, Advance(w)).cpus[c].pc)
  {
  }

  lemma StartLateLocal(s: State, o: Option<nat>, c: nat, w: nat)
    requires Enabled(s, c, Advance(w)) && CpuInv(s, o, c)
    requires s.cpus[c].pc.StartSetRunning? || s.cpus[c].pc.StartUnlock?
    requires o.Some? <==> s.pending != 0
    ensures QuietLocally(s, Step(s, c, Advance(w)), o, c)
    ensures o == Some(c) ==>
      InSection(s.cpus[c]) && InSection(Step(s, c, Advance(w)).cpus[c]) && !Committed(Step(s, c, Advance(w)).cpus[c].pc)
  {
  }

  /** cpu_exec_end apart from the decrement, and start_exclusive and end_exclusive while not the owner. */
  predicate QuietPc(pc: Pc) {
    || pc.EndReadPending? || pc.EndLock? || pc.EndSignal? || pc.EndUnlock?
    || pc.ExclLock? || pc.ExclIdle? || pc.ExclSleep? || pc.ReleaseBroadcast? || pc.ReleaseUnlock?
  }

  lemma QuietLocal(s: State, o: Option<nat>, c: nat, w: nat)
    requires Enabled(s, c, Advance(w)) && CpuInv(s, o, c)
    requires QuietPc(s.cpus[c].pc) || (s.cpus[c].pc.EndTestWaiter? && !s.cpus[c].hasWaiter)
    requires o.Some? <==> s.pending != 0
    ensures QuietLocally(s, Step(s, c, Advance(w)), o, c)
  {
    if ExclPc(s.cpus[c].pc) {
      QuietExclLocal(s, o, c, w);
    } else {
      QuietEndLocal(s, o, c, w);
    }
  }

  predicate ExclPc(pc: Pc) {
    pc.ExclLock? || pc.ExclIdle? || pc.ExclSleep? || pc.ReleaseBroadcast? || pc.ReleaseUnlock?
  }

  lemma QuietExclLocal(s: State, o: Option<nat>, c: nat, w: nat)
    requires Enabled(s, c, Advance(w)) && CpuInv(s, o, c) && ExclPc(s.cpus[c].pc)
    requires o.Some? <==> s.pending != 0
    ensures QuietLocally(s, Step(s, c, Advance(w)), o, c)
  {
    if s.cpus[c].pc.ReleaseBroadcast? || s.cpus[c].pc.ReleaseUnlock? {
      QuietReleaseLocal(s, o, c, w);
    } else {
      QuietAskLocal(s, o, c, w);
    }
  }

  lemma QuietReleaseLocal(s: State, o: Option<nat>, c: nat, w: nat)
    requires Enabled(s, c, Advance(w)) && CpuInv(s, o, c)
    requires s.cpus[c].pc.ReleaseBroadcast? || s.cpus[c].pc.ReleaseUnlock?
    requires o.Some? <==> s.pending != 0
    ensures QuietLocally(s, Step(s, c, Advance(w)), o, c)
  {
  }

  lemma QuietAskLocal(s: State, o: Option<nat>, c: nat, w: nat)
    requires Enabled(s, c, Advance(w)) && CpuInv(s, o, c)
    requires s.cpus[c].pc.ExclLock? || s.cpus[c].pc.ExclIdle? || s.cpus[c].pc.ExclSleep?
    requires o.Some? <==> s.pending != 0
    ensures QuietLocally(s, Step(s, c, Advance(w)), o, c)
  {
  }

  lemma QuietEndLocal(s: State, o: Option<nat>, c: nat, w: nat)
    requires Enabled(s, c, Advance(w)) && CpuInv(s, o, c) && !ExclPc(s.cpus[c].pc)
    requires QuietPc(s.cpus[c].pc) || (s.cpus[c].pc.EndTestWaiter? && !s.cpus[c].hasWaiter)
    requires o.Some? <==> s.pending != 0
    ensures QuietLocally(s, Step(s, c, Advance(w)), o, c)
  {
    if s.cpus[c].pc.EndSignal? || s.cpus[c].pc.EndUnlock? {
      QuietEndLateLocal(s, o, c, w);
    } else if s.cpus[c].pc.EndTestWaiter? {
      QuietEndTestLocal(s, o, c, w);
    } else {
      QuietEndEarlyLocal(s, o, c, w);
    }
  }

  lemma QuietEndLateLocal(s: State, o: Option<nat>, c: nat, w: nat)
    requires Enabled(s, c, Advance(w)) && CpuInv(s, o, c) && (s.cpus[c].pc.EndSignal? || s.cpus[c].pc.EndUnlock?)
    requires o.Some? <==> s.pending != 0
    ensures QuietLocally(s, Step(s, c, Advance(w)), o, c)
  {
  }

  lemma QuietEndEarlyLocal(s: State, o: Option<nat>, c: nat, w: nat)
    requires Enabled(s, c, Advance(w)) && CpuInv(s, o, c)
    requires s.cpus[c].pc.EndReadPending? || s.cpus[c].pc.EndLock?
    requires o.Some? <==> s.pending != 0
    ensures QuietLocally(s, Step(s, c, Advance(w)), o, c)
  {
  }

  lemma QuietEndTestLocal(s: State, o: Option<nat>, c: nat, w: nat)
    requires Enabled(s, c, Advance(w)) && CpuInv(s, o, c) && s.cpus[c].pc.EndTestWaiter? && !s.cpus[c].hasWaiter
    requires o.Some? <==> s.pending != 0
    ensures QuietLocally(s, Step(s, c, Advance(w)), o, c)
  {
  }

  lemma QuietSleepers(s: State, o: Option<nat>, c: nat, w: nat)
    requires Enabled(s, c, Advance(w)) && CpuInv(s, o, c) && SleepersInv(s)
    requires QuietPc(s.cpus[c].pc) || (s.cpus[c].pc.EndTestWaiter? && !s.cpus[c].hasWaiter)
    requires s.pending >= 0
    requires forall x, y :: x in s.condSleepers && y in s.condSleepers ==> x == y
    ensures SleepersInv(Step(s, c, Advance(w)))
  {
    if s.cpus[c].pc.EndSignal? {
      SignalSleepers(s, o, c, w);
    } else if ExclPc(s.cpus[c].pc) {
      ExclSleepers(s, o, c, w);
    }
  }

  lemma SignalSleepers(s: State, o: Option<nat>, c: nat, w: nat)
    requires Enabled(s, c, Advance(w)) && CpuInv(s, o, c) && SleepersInv(s) && s.cpus[c].pc.EndSignal?
    requires s.pending >= 0
    requires forall x, y :: x in s.condSleepers && y in s.condSleepers ==> x == y
    ensures SleepersInv(Step(s, c, Advance(w)))
  {
    // one signal wakes the only thread that can be asleep
    assert s.pending == 1 ==> s.condSleepers - {w} == {};
  }

  lemma ExclSleepers(s: State, o: Option<nat>, c: nat, w: nat)
    requires Enabled(s, c, Advance(w)) && CpuInv(s, o, c) && SleepersInv(s) && ExclPc(s.cpus[c].pc)
    requires s.pending >= 0
    ensures SleepersInv(Step(s, c, Advance(w)))
  {
  }

  lemma SectionLocal(s: State, o: Option<nat>, c: nat, w: nat)
    requires Enabled(s, c, Advance(w)) && CpuInv(s, o, c) && SleepersInv(s)
    requires s.cpus[c].pc.ExclUnlock? || s.cpus[c].pc.ExclSetContext? || s.cpus[c].pc.ReleaseLock?
    ensures var t := Step(s, c, Advance(w)); QuietLocally(s, t, o, c) && SleepersInv(t)
    ensures var t := Step(s, c, Advance(w)); InSection(t.cpus[c]) && !Committed(t.cpus[c].pc)
  {
  }

  // The steps that move pending_cpus or the owner.

  lemma SetPendingInv(s: State, c: nat, w: nat)
    requires InvFor(s, None) && Enabled(s, c, Advance(w)) && s.cpus[c].pc.ExclSetPending?
    ensures InvFor(Step(s, c, Advance(w)), Some(c))
  {
    var t := Step(s, c, Advance(w));
    assert CpuInv(s, None, c);
    OthersKeepInv(s, t, None, Some(c), c);
    forall i | 0 <= i < |s.cpus| ensures !s.cpus[i].hasWaiter { assert CpuInv(s, None, i); }
    assert Waiters(t) == {};
  }

  lemma ResetInv(s: State, c: nat, w: nat)
    requires InvFor(s, Some(c)) && Enabled(s, c, Advance(w)) && s.cpus[c].pc.ReleaseReset?
    ensures InvFor(Step(s, c, Advance(w)), None)
  {
    var t := Step(s, c, Advance(w));
    assert CpuInv(s, Some(c), c);
    assert CpuInv(t, None, c);
    OthersKeepInv(s, t, Some(c), None, c);
  }

  /** cpu_exec_end clears has_waiter: the decrement becomes due. */
  lemma ClearWaiterInv(s: State, o: Option<nat>, c: nat, w: nat)
    requires InvFor(s, o) && Enabled(s, c, Advance(w)) && s.cpus[c].pc.EndTestWaiter? && s.cpus[c].hasWaiter
    ensures InvFor(Step(s, c, Advance(w)), o)
  {
    var t := Step(s, c, Advance(w));
    assert CpuInv(s, o, c) && CpuInv(s, o, o.value);
    OthersKeepInv(s, t, o, o, c);
    ClearWaiterProgress(s, t, c, o.value);
  }

  lemma ClearWaiterProgress(s: State, t: State, c: nat, o: nat)
    requires OnlyChanges(s, t, c) && c != o && o < |s.cpus| && OwnerProgress(s, o)
    requires !HoldsLock(s.cpus[o].pc) && t.lock == s.lock == Some(c) && t.pending == s.pending
    requires s.cpus[c].hasWaiter && !t.cpus[c].hasWaiter && s.cpus[c].pc.EndTestWaiter? && t.cpus[c].pc.EndDecrement?
    ensures OwnerProgress(t, o)
  {
    assert c in Waiters(s);
    assert Waiters(t) == Waiters(s) - {c};
  }

  lemma DecrementInv(s: State, o: Option<nat>, c: nat, w: nat)
    requires InvFor(s, o) && Enabled(s, c, Advance(w)) && s.cpus[c].pc.EndDecrement?
    ensures InvFor(Step(s, c, Advance(w)), o)
  {
    var t := Step(s, c, Advance(w));
    assert CpuInv(s, o, c) && CpuInv(s, o, o.value);
    DecrementProgress(s, t, c, o.value);
    OthersKeepInv(s, t, o, o, c);
  }

  lemma DecrementProgress(s: State, t: State, c: nat, o: nat)
    requires OnlyChanges(s, t, c) && c != o && o < |s.cpus| && OwnerProgress(s, o)
    requires !HoldsLock(s.cpus[o].pc) && t.lock == s.lock == Some(c) && t.pending == s.pending - 1
    requires t.cpus[c].hasWaiter == s.cpus[c].hasWaiter && s.cpus[c].pc.EndDecrement? && t.cpus[c].pc.EndSignal?
    ensures OwnerProgress(t, o) && t.pending >= 1
  {
    assert LockHolderAt(s, EndDecrement);
    assert Waiters(t) == Waiters(s);
  }

  // The owner's own steps.

  lemma ScanInv(s: State, o: Option<nat>, c: nat, w: nat)
    requires InvFor(s, o) && Enabled(s, c, Advance(w)) && s.cpus[c].pc.ExclScan?
    ensures InvFor(Step(s, c, Advance(w)), o)
  {
    var t := Step(s, c, Advance(w));
    assert CpuInv(s, o, c);
    var next := s.cpus[c].pc.next;
    if next < |s.cpus| { assert CpuInv(s, o, next); }
    ScanLocal(s, o, c, w);
    ScanProgress(s, t, c);
    OwnerStepInv(s, t, o, c);
  }

  lemma ScanLocal(s: State, o: Option<nat>, c: nat, w: nat)
    requires Enabled(s, c, Advance(w)) && CpuInv(s, o, c) && SleepersInv(s) && o == Some(c) && s.pending != 0
    requires s.cpus[c].pc.ExclScan?
    ensures OwnerLocally(s, Step(s, c, Advance(w)), o, c)
  {
  }

  lemma ScanProgress(s: State, t: State, c: nat)
    requires OnlyChanges(s, t, c) && OwnerProgress(s, c) && s.cpus[c].pc.ExclScan?
    requires t.pending == s.pending && t.cpus[c].hasWaiter == s.cpus[c].hasWaiter && !s.cpus[c].running
    requires var next := s.cpus[c].pc.next; next < |s.cpus| ==>
      && (s.cpus[next].running <==> RunningPc(s.cpus[next].pc))
      && (next == c || !HoldsLock(s.cpus[next].pc))
    requires var (next, count) := (s.cpus[c].pc.next, s.cpus[c].pc.count);
      t.cpus[c].pc ==
        if next >= |s.cpus| then ExclPublish(count)
        else if s.cpus[next].running then ExclMark(next, count) else ExclScan(next + 1, count)
    ensures OwnerProgress(t, c)
  {
    assert Waiters(t) == Waiters(s);
  }

  lemma MarkInv(s: State, o: Option<nat>, c: nat, w: nat)
    requires InvFor(s, o) && Enabled(s, c, Advance(w)) && s.cpus[c].pc.ExclMark?
    ensures InvFor(Step(s, c, Advance(w)), o)
  {
    assert CpuInv(s, o, c);
    var next := s.cpus[c].pc.next;
    assert CpuInv(s, o, next);
    var m := s.SetCpu(next, s.cpus[next].(hasWaiter := true));
    var t := Step(s, c, Advance(w));
    assert t == m.Goto(c, ExclScan(next + 1, s.cpus[c].pc.count + 1));
    OthersKeepInv(s, m, o, o, next);
    assert CpuInv(m, o, c);
    OthersKeepInv(m, t, o, o, c);
    MarkProgress(s, t, c);
  }

  lemma MarkProgress(s: State, t: State, c: nat)
    requires c < |s.cpus| == |t.cpus| && OwnerProgress(s, c) && s.cpus[c].pc.ExclMark? && t.pending == s.pending
    requires var next := s.cpus[c].pc.next;
      && t.cpus[c] == s.cpus[c].(pc := ExclScan(next + 1, s.cpus[c].pc.count + 1))
      && t.cpus[next] == s.cpus[next].(hasWaiter := true)
      && forall i :: 0 <= i < |s.cpus| && i != c && i != next ==> t.cpus[i] == s.cpus[i]
    ensures OwnerProgress(t, c)
  {
    assert Waiters(t) == Waiters(s) + {s.cpus[c].pc.next};
  }

  /** Publishing the count, testing it, and waking up to test it again. */
  lemma WaitInv(s: State, o: Option<nat>, c: nat, w: nat)
    requires InvFor(s, o) && Enabled(s, c, Advance(w))
    requires s.cpus[c].pc.ExclPublish? || s.cpus[c].pc.ExclWaitTest? || s.cpus[c].pc.ExclWaitSleep?
    ensures InvFor(Step(s, c, Advance(w)), o)
  {
    var t := Step(s, c, Advance(w));
    assert CpuInv(s, o, c);
    OneSleeper(s, o);
    WaitLocal(s, o, c, w);
    WaitProgress(s, t, c);
    OwnerStepInv(s, t, o, c);
  }

  lemma WaitLocal(s: State, o: Option<nat>, c: nat, w: nat)
    requires Enabled(s, c, Advance(w)) && CpuInv(s, o, c) && SleepersInv(s) && o == Some(c) && s.pending != 0
    requires s.cpus[c].pc.ExclPublish? || s.cpus[c].pc.ExclWaitTest? || s.cpus[c].pc.ExclWaitSleep?
    requires forall x :: x in s.condSleepers ==> x == c
    ensures OwnerLocally(s, Step(s, c, Advance(w)), o, c)
  {
  }

  /** What a step of the owner does to its own thread. */
  predicate OwnerLocally(s: State, t: State, o: Option<nat>, c: nat) {
    && OnlyChanges(s, t, c) && LockMove(s, t, c) && CpuInv(t, o, c)
    && (t.pending == s.pending || (s.lock == Some(c) && t.pending != 0))
    && t.resumeSleepers <= s.resumeSleepers + {c} && t.condSleepers <= s.condSleepers + {c}
    && SleepersInv(t)
  }

  lemma OwnerStepInv(s: State, t: State, o: Option<nat>, c: nat)
    requires InvFor(s, o) && o == Some(c) && OwnerLocally(s, t, o, c) && OwnerProgress(t, c) && t.pending != 0
    ensures InvFor(t, o)
  {
    OthersKeepInv(s, t, o, o, c);
  }

  lemma WaitProgress(s: State, t: State, c: nat)
    requires OnlyChanges(s, t, c) && OwnerProgress(s, c) && LockMove(s, t, c)
    requires t.cpus[c] == s.cpus[c].(pc := t.cpus[c].pc)
    requires
      || (s.cpus[c].pc.ExclPublish? && t.cpus[c].pc.ExclWaitTest? && t.pending == s.cpus[c].pc.count + 1)
      || (s.cpus[c].pc.ExclWaitTest? && t.pending == s.pending &&
          if s.pending > 1 then t.cpus[c].pc.ExclWaitSleep? && t.lock == None
          else t.cpus[c].pc.ExclUnlock? && t.lock == Some(c))
      || (s.cpus[c].pc.ExclWaitSleep? && t.cpus[c].pc.ExclWaitTest? && s.lock == None && t.pending == s.pending)
    ensures OwnerProgress(t, c) && t.pending != 0
  {
    assert Waiters(t) == Waiters(s);
    if t.cpus[c].pc.ExclUnlock? {
      assert Waiters(s) == {};
      forall i | 0 <= i < |t.cpus| ensures !t.cpus[i].hasWaiter {
        assert i !in Waiters(t);
      }
    }
  }

  lemma SpuriousWakeInv(s: State, o: Option<nat>, c: nat)
    requires InvFor(s, o) && Enabled(s, c, SpuriousWake)
    ensures InvFor(Step(s, c, SpuriousWake), o)
  {
    var t := Step(s, c, SpuriousWake);
    assert t.cpus == s.cpus && Waiters(t) == Waiters(s);
    forall i | 0 <= i < |t.cpus| ensures CpuInv(t, o, i) { assert CpuInv(s, o, i); }
  }

  lemma CallInv(s: State, o: Option<nat>, c: nat, a: Action)
    requires InvFor(s, o) && Enabled(s, c, a) && !a.Advance? && !a.SpuriousWake?
    ensures InvFor(Step(s, c, a), o)
  {
    assert CpuInv(s, o, c);
    CallLocal(s, o, c, a);
    CallSleepers(s, o, c, a);
    var t := Step(s, c, a);
    if o != Some(c) { QuietInv(s, t, o, c); } else { SectionInv(s, t, o, c); }
  }

  lemma StartInv(s: State, o: Option<nat>, c: nat, w: nat)
    requires InvFor(s, o) && Enabled(s, c, Advance(w)) && StartPc(s.cpus[c].pc)
    ensures InvFor(Step(s, c, Advance(w)), o)
  {
    var t := Step(s, c, Advance(w));
    assert CpuInv(s, o, c);
    StartLocal(s, o, c, w);
    StartSleepers(s, o, c, w);
    if o != Some(c) { QuietInv(s, t, o, c); } else { SectionInv(s, t, o, c); }
  }

  lemma QuietAdvanceInv(s: State, o: Option<nat>, c: nat, w: nat)
    requires InvFor(s, o) && Enabled(s, c, Advance(w))
    requires QuietPc(s.cpus[c].pc) || (s.cpus[c].pc.EndTestWaiter? && !s.cpus[c].hasWaiter)
    ensures InvFor(Step(s, c, Advance(w)), o)
  {
    assert CpuInv(s, o, c);
    OneSleeper(s, o);
    QuietLocal(s, o, c, w);
    QuietSleepers(s, o, c, w);
    QuietInv(s, Step(s, c, Advance(w)), o, c);
  }

  /** Only the owner sleeps on exclusive_cond. */
  lemma OneSleeper(s: State, o: Option<nat>)
    requires InvFor(s, o)
    ensures forall x :: x in s.condSleepers ==> o == Some(x)
  {
    forall x | x in s.condSleepers ensures o == Some(x) { assert CpuInv(s, o, x); }
  }

  lemma SectionAdvanceInv(s: State, o: Option<nat>, c: nat, w: nat)
    requires InvFor(s, o) && Enabled(s, c, Advance(w))
    requires s.cpus[c].pc.ExclUnlock? || s.cpus[c].pc.ExclSetContext? || s.cpus[c].pc.ReleaseLock?
    ensures InvFor(Step(s, c, Advance(w)), o)
  {
    assert CpuInv(s, o, c);
    SectionLocal(s, o, c, w);
    SectionInv(s, Step(s, c, Advance(w)), o, c);
  }

  /** The owner after thread `c` advances. */
  function OwnerAfter(s: State, o: Option<nat>, c: nat): Option<nat>
    requires c < |s.cpus|
  {
    if s.cpus[c].pc.ExclSetPending? then Some(c) else if s.cpus[c].pc.ReleaseReset? then None else o
  }

  lemma AdvanceInv(s: State, o: Option<nat>, c: nat, w: nat)
    requires InvFor(s, o) && Enabled(s, c, Advance(w))
    ensures InvFor(Step(s, c, Advance(w)), OwnerAfter(s, o, c))
  {
    assert CpuInv(s, o, c);
    var pc := s.cpus[c].pc;
    if StartPc(pc) {
      StartInv(s, o, c, w);
    } else if QuietPc(pc) {
      QuietAdvanceInv(s, o, c, w);
    } else if pc.ExclUnlock? || pc.ExclSetContext? || pc.ReleaseLock? {
      SectionAdvanceInv(s, o, c, w);
    } else if pc.ExclSetPending? {
      SetPendingInv(s, c, w);
    } else if pc.ReleaseReset? {
      ResetInv(s, c, w);
    } else if pc.EndTestWaiter? {
      if s.cpus[c].hasWaiter { ClearWaiterInv(s, o, c, w); } else { QuietAdvanceInv(s, o, c, w); }
    } else if pc.EndDecrement? {
      DecrementInv(s, o, c, w);
    } else if pc.ExclScan? {
      ScanInv(s, o, c, w);
    } else if pc.ExclMark? {
      MarkInv(s, o, c, w);
    } else {
      WaitInv(s, o, c, w);
    }
  }

  /** Every step of every thread keeps the invariant. */
  lemma StepInv(s: State, c: nat, a: Action)
    requires Inv(s) && Enabled(s, c, a)
    ensures Inv(Step(s, c, a))
  {
    var o: Option<nat> :| InvFor(s, o);
    if a.Advance? {
      AdvanceInv(s, o, c, a.woken);
    } else if a.SpuriousWake? {
      SpuriousWakeInv(s, o, c);
    } else {
      CallInv(s, o, c, a);
    }
  }

  lemma {:induction false} RunInv(run: seq<State>, k: nat)
    requires IsRun(run) && k < |run|
    ensures Inv(run[k])
  {
    if k == 0 {
      InitInv(run[0]);
    } else {
      RunInv(run, k - 1);
      assert IsStep(run[k - 1], run[k - 1 + 1]);
      var c: nat, a :| Enabled(run[k - 1], c, a) && run[k] == Step(run[k - 1], c, a);
      StepInv(run[k - 1], c, a);
    }
  }

  /**
    The main result: in every state of every run, for any number of CPUs, the
    exclusive section excludes everybody else, pending_cpus is the right count,
    and no sleeping thread has missed its wake-up.
  */
  lemma RunsAreSafe(run: seq<State>)
    requires IsRun(run)
    ensures forall k :: 0 <= k < |run| ==> Exclusive(run[k]) && Bookkeeping(run[k]) && NoLostWakeup(run[k])
  {
    forall k | 0 <= k < |run| ensures Exclusive(run[k]) && Bookkeeping(run[k]) && NoLostWakeup(run[k]) {
      RunInv(run, k);
      InvPromises(run[k]);
    }
  }

  // ------------------------------------------------------------------
  // The machine never gets stuck

  /** Thread `c` can go on: inside a call, back from guest code, or out of its exclusive section. */
  ghost predicate CanGoOn(s: State, c: nat) {
    && c < |s.cpus|
    && (|| s.cpus[c].pc.Executing?
        || (s.cpus[c].pc.Outside? && s.cpus[c].contexts > 0)
        || exists w: nat :: Enabled(s, c, Advance(w)))
  }

  /** A thread inside its own exclusive section has called cpu_exec_start, which waits for that section to end. */
  predicate WaitsForItself(s: State) {
    exists c :: 0 <= c < |s.cpus| && s.cpus[c].contexts > 0 && !s.cpus[c].pc.Outside?
  }

  lemma LockHolderGoesOn(s: State, c: nat)
    requires c < |s.cpus| && HoldsLock(s.cpus[c].pc)
    ensures CanGoOn(s, c)
  {
    if s.condSleepers != {} {
      var w :| w in s.condSleepers;
      assert Enabled(s, c, Advance(w));
    } else {
      assert Enabled(s, c, Advance(0));
    }
  }

  /**
    In every reachable state where some thread is inside one of the four calls,
    some thread can go on, unless a thread waits for its own exclusive section.
  */
  lemma NoDeadlock(run: seq<State>, k: nat)
    requires IsRun(run) && k < |run|
    requires exists c :: 0 <= c < |run[k].cpus| && !run[k].cpus[c].pc.Outside?
    requires !WaitsForItself(run[k])
    ensures exists c: nat :: CanGoOn(run[k], c)
  {
    RunInv(run, k);
    var s := run[k];
    var o: Option<nat> :| InvFor(s, o);
    if s.lock.Some? {
      assert CpuInv(s, o, s.lock.value);
      LockHolderGoesOn(s, s.lock.value);
    } else {
      var c: nat :| c < |s.cpus| && !s.cpus[c].pc.Outside?;
      assert CpuInv(s, o, c);
      if !CanGoOn(s, c) {
        assert !Enabled(s, c, Advance(0));
        assert s.pending != 0;
        assert CpuInv(s, o, o.value);
        OwnerOrCountedGoesOn(s, o.value);
      }
    }
  }

  /** With the lock free, the owner can go on or some CPU it has counted can. */
  lemma OwnerOrCountedGoesOn(s: State, o: nat)
    requires InvFor(s, Some(o)) && s.lock == None && !WaitsForItself(s)
    ensures exists c: nat :: CanGoOn(s, c)
  {
    assert CpuInv(s, Some(o), o);
    if !CanGoOn(s, o) {
      assert !Enabled(s, o, Advance(0));
      assert s.cpus[o].pc.ExclWaitSleep? && |Waiters(s)| > 0;
      var c :| c in Waiters(s);
      assert CpuInv(s, Some(o), c);
      assert s.cpus[c].pc.Executing? || Enabled(s, c, Advance(0));
      assert CanGoOn(s, c);
    }
  }

  /** The other direction: such a thread is caught in cpu_exec_start, whatever the threads do. */
  predicate Caught(s: State, c: nat) {
    && c < |s.cpus| && s.cpus[c].contexts > 0
    && var pc := s.cpus[c].pc;
       pc.StartReadPending? || pc.StartLock? || pc.StartTestWaiter? || pc.StartIdle? || pc.StartSleep?
  }

  lemma CaughtStays(s: State, o: Option<nat>, c: nat, d: nat, a: Action)
    requires InvFor(s, o) && Caught(s, c) && Enabled(s, d, a)
    ensures Caught(Step(s, d, a), c)
  {
    assert CpuInv(s, o, c) && CpuInv(s, o, d);
  }

  lemma {:induction false} SelfWaitNeverEnds(run: seq<State>, i: nat, k: nat, c: nat)
    requires IsRun(run) && i <= k < |run| && Caught(run[i], c)
    ensures Caught(run[k], c)
    decreases k - i
  {
    if i < k {
      RunInv(run, i);
      var o: Option<nat> :| InvFor(run[i], o);
      assert IsStep(run[i], run[i + 1]);
      var d: nat, a :| Enabled(run[i], d, a) && run[i + 1] == Step(run[i], d, a);
      CaughtStays(run[i], o, c, d, a);
      SelfWaitNeverEnds(run, i + 1, k, c);
    }
  }

  /** A machine with one CPU. */
  function One(pc: Pc, running: bool, contexts: nat, pending: int, locked: bool): State {
    State([Cpu(pc, running, false, contexts)], pending, if locked then Some(0) else None, {}, {})
  }

  lemma RunOn(run: seq<State>, a: Action, t: State) returns (longer: seq<State>)
    requires IsRun(run) && Enabled(run[|run| - 1], 0, a) && t == Step(run[|run| - 1], 0, a)
    ensures longer == run + [t] && IsRun(longer)
  {
    longer := run + [t];
    forall k | 0 <= k < |longer| - 1 ensures IsStep(longer[k], longer[k + 1]) {
      if k < |run| - 1 {
        assert IsStep(run[k], run[k + 1]);
      }
    }
  }

  /** A CPU that is alone asks for the machine. */
  lemma RunToScan() returns (run: seq<State>)
    ensures IsRun(run) && run[|run| - 1] == One(ExclSetPending, false, 0, 0, true)
  {
    run := [One(Outside, false, 0, 0, false)];
    run := RunOn(run, CallStartExclusive, One(ExclLock, false, 0, 0, false));
    run := RunOn(run, Advance(0), One(ExclIdle, false, 0, 0, true));
    run := RunOn(run, Advance(0), One(ExclSetPending, false, 0, 0, true));
  }

  /** It finds nobody running. */
  lemma RunToPublish() returns (run: seq<State>)
    ensures IsRun(run) && run[|run| - 1] == One(ExclPublish(0), false, 0, 1, true)
  {
    run := RunToScan();
    run := RunOn(run, Advance(0), One(ExclScan(0, 0), false, 0, 1, true));
    run := RunOn(run, Advance(0), One(ExclScan(1, 0), false, 0, 1, true));
    run := RunOn(run, Advance(0), One(ExclPublish(0), false, 0, 1, true));
  }

  /** So it is in its exclusive section. */
  lemma RunToSection() returns (run: seq<State>)
    ensures IsRun(run) && run[|run| - 1] == One(Outside, false, 1, 1, false)
  {
    run := RunToPublish();
    run := RunOn(run, Advance(0), One(ExclWaitTest, false, 0, 1, true));
    run := RunOn(run, Advance(0), One(ExclUnlock, false, 0, 1, true));
    run := RunOn(run, Advance(0), One(ExclSetContext, false, 0, 1, false));
    run := RunOn(run, Advance(0), One(Outside, false, 1, 1, false));
  }

  /** There it can call cpu_exec_start, and is caught. */
  lemma OneCpuIsCaught() returns (run: seq<State>)
    ensures IsRun(run) && Caught(run[|run| - 1], 0)
  {
    run := RunToSection();
    run := RunOn(run, CallExecStart, One(StartReadPending, true, 1, 1, false));
  }
}
