/**
  Transactional groups of jobs (qemu/job.c): the jobs of a group all commit or
  all abort.

  The driver callbacks answer arbitrarily within their contracts and do not
  call back into the group.  While the mutex is released around a callback, and
  while the main loop waits for a job, the coroutines of all jobs go on; `Others`
  stands for that.
*/
module JobGroup {
  import opened JobModel
  import JobRun

  type JobId = nat

  /** What holds of every job of a group between operations. */
  predicate JobOk(j: Job) {
    && (j.forceCancel ==> j.cancelled)
    && j.pauseCount >= (if j.started then 0 else 1) + (if j.userPaused then 1 else 0)
    && (j.status.Waiting? || j.status.Pending? ==> j.ret == 0 && j.started)
    && (j.status.Aborting? ==> j.ret != 0)
    && !j.status.Undefined?
    && (!j.started ==> j.status.Created? || Completed(j.status))
    && (j.started ==> !j.status.Created?)
    && (j.started && Completed(j.status) ==> j.deferred)
    && (j.started && !Completed(j.status) && j.deferred ==> j.status.Running? || j.status.Ready?)
  }

  /** What the coroutine of a job, its timer and its parents may do to it meanwhile. */
  predicate Meanwhile(j: Job, k: Job) {
    && JobOk(k)
    && k.cancelled == j.cancelled && k.forceCancel == j.forceCancel && k.started == j.started
    && k.autoFinalize == j.autoFinalize && k.autoDismiss == j.autoDismiss
    && (j.userPaused ==> k.userPaused)
    && Completed(k.status) == Completed(j.status)
    && (Completed(j.status) || j.deferred ==> k.status == j.status && k.ret == j.ret && k.deferred == j.deferred)
  }

  /** `Meanwhile` covers every step of the coroutine and of anybody else in the life of a job. */
  lemma MeanwhileIsSound(s: JobRun.State, a: JobRun.Action)
    requires JobRun.Inv(s) && JobRun.Enabled(s, a) && JobRun.Asserts(s, a)
    requires a.ByCoroutine? || a.ByAny?
    ensures JobOk(s.job) && Meanwhile(s.job, JobRun.Next(s, a).job)
  {
    JobRun.StepInv(s, a);
    InvIsOk(s);
    InvIsOk(JobRun.Next(s, a));
    if a.ByCoroutine? {
      CoroutineIsMeanwhile(s, a.co);
    } else {
      AnyKeepsLife(s, a.any);
    }
  }

  lemma InvIsOk(s: JobRun.State)
    requires JobRun.Inv(s)
    ensures JobOk(s.job)
  {
  }

  lemma CoroutineIsMeanwhile(s: JobRun.State, a: JobRun.CoAction)
    requires JobRun.PlaceInv(s) && JobRun.CoEnabled(s, a) && JobRun.CoAsserts(s, a)
    requires JobOk(JobRun.CoNext(s, a).job)
    ensures Meanwhile(s.job, JobRun.CoNext(s, a).job)
  {
    if a.StopOnError? {
      if !s.job.userPaused {
        AddPauseKeepsLife(s);
      }
    } else {
      QuietCoroutine(s, a);
    }
  }

  lemma QuietCoroutine(s: JobRun.State, a: JobRun.CoAction)
    requires JobRun.PlaceInv(s) && JobRun.CoEnabled(s, a) && JobRun.CoAsserts(s, a) && !a.StopOnError?
    requires JobOk(JobRun.CoNext(s, a).job)
    ensures Meanwhile(s.job, JobRun.CoNext(s, a).job)
  {
    if a.PauseReturn? || a.Continue? || a.BecomeReady? {
      MovingCoroutine(s, a);
    }
  }

  /** The steps of the coroutine that move the job between statuses, none of them completed. */
  lemma MovingCoroutine(s: JobRun.State, a: JobRun.CoAction)
    requires a.PauseReturn? || a.Continue? || a.BecomeReady?
    requires JobRun.PlaceInv(s) && JobRun.CoEnabled(s, a) && JobRun.CoAsserts(s, a)
    requires JobOk(JobRun.CoNext(s, a).job)
    ensures Meanwhile(s.job, JobRun.CoNext(s, a).job)
  {
  }

  predicate SameLife(j: Job, k: Job) {
    && k.userPaused == j.userPaused
    && k.cancelled == j.cancelled && k.forceCancel == j.forceCancel && k.started == j.started
    && k.autoFinalize == j.autoFinalize && k.autoDismiss == j.autoDismiss
    && k.status == j.status && k.ret == j.ret && k.deferred == j.deferred
  }

  lemma WakeKeepsLife(s: JobRun.State)
    requires JobRun.WakeAsserts(s)
    ensures SameLife(s.job, JobRun.Wake(s).job)
  {
  }

  lemma AddPauseKeepsLife(s: JobRun.State)
    requires !s.job.paused ==> JobRun.WakeAsserts(s)
    ensures SameLife(s.job, JobRun.AddPause(s).job)
  {
    var t := s.(job := s.job.(pauseCount := s.job.pauseCount + 1));
    if !t.job.paused {
      WakeKeepsLife(t);
    }
  }

  lemma DropPauseKeepsLife(s: JobRun.State)
    requires s.job.pauseCount > 0 && JobRun.WakeAsserts(s)
    ensures SameLife(s.job, JobRun.DropPause(s).job)
  {
    var t := s.(job := s.job.(pauseCount := s.job.pauseCount - 1));
    if t.job.pauseCount == 0 && !t.timer {
      WakeKeepsLife(t);
    }
  }

  lemma DrainBeginKeepsLife(s: JobRun.State)
    requires JobRun.AnyEnabled(s, JobRun.DrainBegin) && JobRun.AnyAsserts(s, JobRun.DrainBegin)
    ensures SameLife(s.job, JobRun.AnyNext(s, JobRun.DrainBegin).job)
  {
    var t := s.(drains := s.drains + 1, job := s.job.(pauseCount := s.job.pauseCount + 1));
    if s.job.paused {
      assert JobRun.AnyNext(s, JobRun.DrainBegin) == t;
    } else {
      assert JobRun.AnyNext(s, JobRun.DrainBegin) == JobRun.Wake(t);
      WakeKeepsLife(t);
    }
  }

  lemma DrainEndKeepsLife(s: JobRun.State)
    requires JobRun.AnyEnabled(s, JobRun.DrainEnd) && JobRun.AnyAsserts(s, JobRun.DrainEnd)
    ensures SameLife(s.job, JobRun.AnyNext(s, JobRun.DrainEnd).job)
  {
    var t := s.(drains := s.drains - 1);
    DropPauseKeepsLife(t);
    assert JobRun.AnyNext(s, JobRun.DrainEnd) == JobRun.DropPause(t);
  }

  lemma EntersKeepLife(s: JobRun.State, a: JobRun.AnyAction)
    requires a.TimerFires? || a.Enter?
    requires JobRun.AnyEnabled(s, a) && JobRun.AnyAsserts(s, a)
    ensures SameLife(s.job, JobRun.AnyNext(s, a).job)
  {
    WakeKeepsLife(if a.TimerFires? then s.(timer := false) else s);
  }

  lemma RefsKeepLife(s: JobRun.State, a: JobRun.AnyAction)
    requires a.Ref? || a.Unref?
    requires JobRun.AnyEnabled(s, a) && JobRun.AnyAsserts(s, a)
    ensures SameLife(s.job, JobRun.AnyNext(s, a).job)
  {
  }

  lemma AnyKeepsLife(s: JobRun.State, a: JobRun.AnyAction)
    requires JobRun.AnyEnabled(s, a) && JobRun.AnyAsserts(s, a)
    ensures SameLife(s.job, JobRun.AnyNext(s, a).job)
  {
    match a
    case TimerFires => EntersKeepLife(s, a);
    case Enter => EntersKeepLife(s, a);
    case DrainBegin => DrainBeginKeepsLife(s);
    case DrainEnd => DrainEndKeepsLife(s);
    case Ref => RefsKeepLife(s, a);
    case Unref => RefsKeepLife(s, a);
  }

  lemma MeanwhileTransitive(j: Job, k: Job, l: Job)
    requires Meanwhile(j, k) && Meanwhile(k, l)
    ensures Meanwhile(j, l)
  {
  }

  // ------------------------------------------------------------------
  // Groups as values

  predicate Distinct(s: seq<JobId>) {
    forall i, k :: 0 <= i < k < |s| ==> s[i] != s[k]
  }

  function Without(s: seq<JobId>, x: JobId): seq<JobId> {
    if s == [] then [] else (if s[0] == x then [] else [s[0]]) + Without(s[1..], x)
  }

  /** A job on the list of a group. */
  predicate Listed(j: Job) {
    JobOk(j) && !j.status.Concluded? && !j.status.Null?
  }

  predicate Members(jobs: map<JobId, Job>, list: seq<JobId>) {
    Distinct(list) && forall id :: id in list ==> id in jobs && Listed(jobs[id])
  }

  /** The jobs of `list` went on by themselves; no other job changed. */
  predicate WentOn(jobs: map<JobId, Job>, later: map<JobId, Job>, list: seq<JobId>) {
    && later.Keys == jobs.Keys
    && (forall id :: id in list ==> id in jobs && Meanwhile(jobs[id], later[id]))
    && (forall id :: id in jobs && id !in list ==> later[id] == jobs[id])
  }

  lemma WentOnTransitive(a: map<JobId, Job>, b: map<JobId, Job>, c: map<JobId, Job>, list: seq<JobId>)
    requires WentOn(a, b, list) && WentOn(b, c, list)
    ensures WentOn(a, c, list)
  {
    forall id | id in list ensures id in a && Meanwhile(a[id], c[id]) {
      MeanwhileTransitive(a[id], b[id], c[id]);
    }
  }

  /** A group between operations: nothing failed, and the jobs wait for each other. */
  predicate Quiet(jobs: map<JobId, Job>, list: seq<JobId>) {
    && Members(jobs, list)
    && (forall id :: id in list ==> !jobs[id].status.Aborting?)
    && (forall id :: id in list && Completed(jobs[id].status) ==> !jobs[id].forceCancel)
    && (forall id, other :: id in list && other in list && jobs[id].status.Pending? ==> jobs[other].status.Pending?)
  }

  /** A job that will end in driver->abort, if it ends. */
  predicate Doomed(j: Job) {
    Listed(j) && (j.status.Aborting? || j.forceCancel)
  }

  /** A job whose coroutine was never created; job_finish_sync_locked waits for it in vain. */
  predicate Unstarted(j: Job) {
    !j.started && !Completed(j.status)
  }

  predicate SomeUnstarted(jobs: map<JobId, Job>, list: seq<JobId>) {
    exists id :: id in list && id in jobs && Unstarted(jobs[id])
  }

  predicate SomeOtherUnstarted(jobs: map<JobId, Job>, list: seq<JobId>, job: JobId) {
    exists id :: id in list && id in jobs && id != job && Unstarted(jobs[id])
  }

  /** Nobody on the list was started, or completed without having been. */
  predicate SameStarts(jobs: map<JobId, Job>, later: map<JobId, Job>, list: seq<JobId>) {
    forall id :: id in list && id in jobs && id in later ==> (Unstarted(later[id]) <==> Unstarted(jobs[id]))
  }

  /** The state of a group from the moment it is aborted; only `job` may be spared. */
  predicate Dying(jobs: map<JobId, Job>, list: seq<JobId>, job: JobId, spared: bool) {
    && Distinct(list)
    && forall id :: id in list ==>
         && id in jobs
         && if id == job && spared then Spared(jobs[id]) else Doomed(jobs[id])
  }

  predicate Spared(j: Job) {
    Listed(j) && j.status.Pending? && !j.forceCancel
  }

  lemma DyingGoesOn(jobs: map<JobId, Job>, later: map<JobId, Job>, list: seq<JobId>, job: JobId, spared: bool)
    requires Dying(jobs, list, job, spared) && WentOn(jobs, later, list)
    ensures Dying(later, list, job, spared)
  {
  }

  /** The first `n` jobs of a group that is being aborted have been cancelled. */
  predicate Dooming(jobs: map<JobId, Job>, list: seq<JobId>, job: JobId, spared: bool, n: nat) {
    && Distinct(list)
    && forall k :: 0 <= k < |list| ==>
         && list[k] in jobs
         && if list[k] == job then (if spared then Spared(jobs[job]) else Doomed(jobs[job]))
            else if k < n then Doomed(jobs[list[k]]) else Listed(jobs[list[k]])
  }

  /** What job_cancel_async_locked does to a job, with what the job does meanwhile. */
  predicate CancelRel(j: Job, k: Job, force: bool) {
    && JobOk(k)
    && k.started == j.started && k.autoFinalize == j.autoFinalize && k.autoDismiss == j.autoDismiss
    && Completed(k.status) == Completed(j.status)
    && (Completed(j.status) || j.deferred ==> k.status == j.status && k.ret == j.ret && k.deferred == j.deferred)
    && (force || j.forceCancel || !j.started ==> k.forceCancel)
    && !k.userPaused
  }

  lemma CancelRelAfter(i: Job, j: Job, k: Job, force: bool)
    requires Meanwhile(i, j) && CancelRel(j, k, force)
    ensures CancelRel(i, k, force)
  {
  }

  /** Like `WentOn`, except for job `id`. */
  predicate OthersWentOn(jobs: map<JobId, Job>, later: map<JobId, Job>, list: seq<JobId>, id: JobId) {
    && later.Keys == jobs.Keys
    && (forall other :: other in list && other != id ==> other in jobs && Meanwhile(jobs[other], later[other]))
    && (forall other :: other in jobs && other !in list ==> later[other] == jobs[other])
  }

  lemma DoomNext(jobs: map<JobId, Job>, later: map<JobId, Job>, list: seq<JobId>, job: JobId, spared: bool, n: nat)
    requires Dooming(jobs, list, job, spared, n) && n < |list| && list[n] != job
    requires OthersWentOn(jobs, later, list, list[n]) && CancelRel(jobs[list[n]], later[list[n]], true)
    ensures Dooming(later, list, job, spared, n + 1)
  {
    forall k | 0 <= k < |list|
      ensures list[k] in later
      ensures if list[k] == job then (if spared then Spared(later[job]) else Doomed(later[job]))
              else if k < n + 1 then Doomed(later[list[k]]) else Listed(later[list[k]])
    {
      if k != n {
        assert list[k] in list && list[k] != list[n];
      }
    }
  }

  lemma DoomingIsDying(jobs: map<JobId, Job>, list: seq<JobId>, job: JobId, spared: bool)
    requires Dooming(jobs, list, job, spared, |list|)
    ensures Dying(jobs, list, job, spared)
  {
  }

  function Concluding(j: Job): Job
    requires MayMove(j.status, Concluded)
  {
    var k := j.Move(Concluded);
    if k.autoDismiss || !k.started
    then k.(busy := false, paused := false, deferred := true).Move(Null)
    else k
  }

  /** The jobs that a group in `Dying` sends to driver->abort, and to driver->commit. */
  function ToAbort(list: seq<JobId>, job: JobId, spared: bool): seq<JobId> {
    if spared then Without(list, job) else list
  }

  function ToCommit(list: seq<JobId>, job: JobId, spared: bool): seq<JobId> {
    if spared && job in list then [job] else []
  }

  /** The first job of an aborted group can be finalized once it has completed; only the spared one commits. */
  lemma FateOfHead(jobs: map<JobId, Job>, list: seq<JobId>, job: JobId, spared: bool)
    requires Dying(jobs, list, job, spared) && list != [] && Completed(jobs[list[0]].status)
    ensures Members(jobs, list)
    ensures var j := jobs[list[0]];
      && (j.status.Pending? || j.status.Aborting? || (j.status.Waiting? && j.forceCancel))
      && (NewRet(j) == 0 <==> list[0] == job && spared)
  {
    DyingIsMembers(jobs, list, job, spared);
    if !(list[0] == job && spared) {
      FateOfDoomed(jobs[list[0]]);
    }
  }

  lemma Regroup(a: seq<JobId>, b: seq<JobId>, c: seq<JobId>)
    ensures (a + b) + c == a + (b + c) && a + ([] + c) == a + c
  {
  }

  lemma FatesOfHead(list: seq<JobId>, job: JobId, spared: bool)
    requires list != [] && Distinct(list)
    ensures ToAbort(list, job, spared) ==
      (if list[0] == job && spared then [] else [list[0]]) + ToAbort(list[1..], job, spared)
    ensures ToCommit(list, job, spared) ==
      (if list[0] == job && spared then [job] else []) + ToCommit(list[1..], job, spared)
  {
    assert list == [list[0]] + list[1..];
    if list[0] == job {
      assert job !in list[1..];
    }
  }

  /** A finalized job keeps its result, and is dismissed if nobody else will do it. */
  predicate Ends(j: Job, k: Job) {
    && k.ret == NewRet(j)
    && (k.status.Null? <==> j.autoDismiss || !j.started)
    && (k.status.Concluded? <==> !(j.autoDismiss || !j.started))
  }

  lemma UpdateEnds(j: Job)
    requires Listed(j)
    requires j.status.Pending? || j.status.Aborting? || (j.status.Waiting? && j.forceCancel)
    ensures UpdateAsserts(j) && Listed(Update(j)) && Completed(Update(j).status)
    ensures MayMove(Update(j).status, Concluded)
  {
  }

  lemma PutKeepsMembers(jobs: map<JobId, Job>, list: seq<JobId>, id: JobId, k: Job)
    requires Members(jobs, list) && id in list && Listed(k)
    ensures Members(jobs[id := k], list)
  {
  }

  lemma PutAndGo(jobs: map<JobId, Job>, later: map<JobId, Job>, list: seq<JobId>, id: JobId, k: Job, l: Job)
    requires id in list && id in jobs && WentOn(jobs[id := k], later, list)
    ensures OthersWentOn(jobs, later[id := l], list, id)
  {
  }

  /** job_cancel_async_locked, once driver->cancel has answered `reply`. */
  function AfterCancel(j: Job, reply: bool): Job
    requires JobOk(j)
  {
    var k := if j.userPaused then j.(userPaused := false, pauseCount := j.pauseCount - 1) else j;
    if reply || !k.deferred
    then k.(cancelled := true, forceCancel := k.forceCancel || reply)
    else k
  }

  lemma CancelFlags(j: Job, reply: bool, force: bool)
    requires JobOk(j) && (force || !j.started ==> reply)
    ensures CancelRel(j, AfterCancel(j, reply), force)
  {
  }

  predicate AbortReady(jobs: map<JobId, Job>, list: seq<JobId>, job: JobId) {
    && Members(jobs, list)
    && job in list
    && (Spared(jobs[job]) || Doomed(jobs[job]))
  }

  lemma DyingIsMembers(jobs: map<JobId, Job>, list: seq<JobId>, job: JobId, spared: bool)
    requires Dying(jobs, list, job, spared)
    ensures Members(jobs, list)
  {
  }

  lemma DoomingIsMembers(jobs: map<JobId, Job>, list: seq<JobId>, job: JobId, spared: bool, n: nat)
    requires Dooming(jobs, list, job, spared, n)
    ensures Members(jobs, list)
  {
  }

  lemma DyingRest(jobs: map<JobId, Job>, later: map<JobId, Job>, list: seq<JobId>, job: JobId, spared: bool)
    requires Dying(jobs, list, job, spared) && list != [] && OthersWentOn(jobs, later, list, list[0])
    ensures Dying(later, list[1..], job, spared)
  {
    var rest := list[1..];
    forall id | id in rest
      ensures id in later && if id == job && spared then Spared(later[id]) else Doomed(later[id])
    {
      assert id in list && id != list[0];
    }
  }

  lemma DyingPut(jobs: map<JobId, Job>, list: seq<JobId>, job: JobId, spared: bool, id: JobId, k: Job)
    requires Dying(jobs, list, job, spared) && id in list && !(id == job && spared) && Doomed(k)
    ensures Dying(jobs[id := k], list, job, spared)
  {
  }

  /** What job_start makes of a job. */
  function Started(j: Job): Job
    requires j.status.Created?
  {
    j.Move(Running).(started := true, busy := true, paused := false, pauseCount := j.pauseCount - 1)
  }

  /** The end of the coroutine of a started job, woken if need be. */
  function Ended(j: Job, ret: int): Job {
    j.(deferred := true, ret := ret, busy := true, status := if j.status.Running? || j.status.Ready? then j.status else Running)
  }

  lemma DoomedFails(j: Job)
    requires Doomed(j) && !Completed(j.status)
    ensures NewRet(j) != 0
  {
  }

  lemma TwicePut(jobs: map<JobId, Job>, id: JobId, j: Job, k: Job)
    ensures jobs[id := j][id := k] == jobs[id := k]
  {
  }

  lemma DoomedEnd(j: Job, ret: int)
    requires Doomed(j) && !Completed(j.status) && j.started
    ensures j.forceCancel
    ensures !j.deferred ==> Doomed(Ended(j, ret)) && !Completed(Ended(j, ret).status) && Ended(j, ret).deferred
  {
  }

  /** What the head of an aborted group comes to. */
  lemma FateOfDoomed(j: Job)
    requires Doomed(j) && Completed(j.status)
    ensures j.status.Pending? || j.status.Aborting? || (j.status.Waiting? && j.forceCancel)
    ensures NewRet(j) != 0
  {
  }

  lemma DoomedExit(j: Job)
    requires Doomed(j) && !Completed(j.status) && j.started && j.deferred
    ensures var k := j.(busy := false);
      UpdateAsserts(k) && NewRet(k) != 0 && Doomed(Update(k)) && Completed(Update(k).status)
  {
  }

  /** What an operation did to the group. */
  datatype Outcome = Open | Commit | Abort | Mixed(failed: JobId) | Stuck

  /** The jobs that are still in the group, and the callbacks made so far. */
  datatype Books = Books(list: seq<JobId>, committed: seq<JobId>, aborted: seq<JobId>, prepared: seq<JobId>)

  /**
    `Mixed` is what the group exists to prevent: `job` committed although another job failed
    to prepare.  `Stuck` is an abort that waits for ever, for a job that was never started;
    the jobs before it on the list have been aborted.
  */
  predicate Result(o: Outcome, job: JobId, a: Books, b: Books) {
    match o
    case Open => b == a
    case Commit =>
      job in a.list && b == Books([], a.committed + a.list, a.aborted, a.prepared + a.list)
    case Abort =>
      job in a.list && b.list == [] && b.committed == a.committed && b.aborted == a.aborted + a.list
    case Mixed(failed) =>
      && failed in a.list && job in a.list && failed != job
      && b.list == [] && b.committed == a.committed + [job] && b.aborted == a.aborted + Without(a.list, job)
    case Stuck =>
      job in a.list && b.list != [] && b.committed == a.committed && b.aborted + b.list == a.aborted + a.list
  }

  /** The first job from position `i` on whose prepare callback fails; |list| if none does. */
  function FirstFailure(list: seq<JobId>, prepare: JobId -> int, i: nat): (n: nat)
    requires i <= |list|
    ensures i <= n <= |list|
    ensures n < |list| ==> prepare(list[n]) != 0
    ensures forall k :: i <= k < n ==> prepare(list[k]) == 0
    decreases |list| - i
  {
    if i == |list| || prepare(list[i]) != 0 then i else FirstFailure(list, prepare, i + 1)
  }

  /** What finalizing `job` comes to: the others are only safe if it is `job` itself that fails. */
  function Verdict(list: seq<JobId>, prepare: JobId -> int, job: JobId): Outcome {
    var n := FirstFailure(list, prepare, 0);
    if n == |list| then Commit
    else if list[n] == job then Abort
    else Mixed(list[n])
  }

  /** Where the callbacks decide, they decide by the first that fails. */
  predicate Caused(o: Outcome, job: JobId, list: seq<JobId>, prepare: JobId -> int) {
    o.Commit? || o.Mixed? ==> o == Verdict(list, prepare, job)
  }

  lemma CauseOf(o: Outcome, job: JobId, list: seq<JobId>, prepare: JobId -> int)
    requires Caused(o, job, list, prepare)
    ensures o.Commit? ==> forall id :: id in list ==> prepare(id) == 0
    ensures o.Mixed? ==> o.failed in list && prepare(o.failed) != 0
  {
  }

  lemma FirstFailureFrom(list: seq<JobId>, prepare: JobId -> int, n: nat)
    requires n <= |list| && (forall k :: 0 <= k < n ==> prepare(list[k]) == 0)
    requires n < |list| ==> prepare(list[n]) != 0
    ensures FirstFailure(list, prepare, 0) == n
  {
  }

  /** What the completion of `job` comes to. */
  ghost function Expected(jobs: map<JobId, Job>, list: seq<JobId>, prepare: JobId -> int, job: JobId): Outcome
    requires job in jobs
  {
    if NewRet(jobs[job]) != 0 then
      if SomeOtherUnstarted(jobs, list, job) then Stuck else Abort
    else if !OthersDone(jobs, list, job) || Manual(jobs, list) then Open
    else Verdict(list, prepare, job)
  }

  /** Some job is to be finalized by the user. */
  predicate Manual(jobs: map<JobId, Job>, list: seq<JobId>) {
    exists id :: id in list && id in jobs && !jobs[id].autoFinalize
  }

  /** All jobs of the group have completed and wait to be finalized. */
  predicate AllPending(jobs: map<JobId, Job>, list: seq<JobId>) {
    Members(jobs, list) && forall id :: id in list ==> jobs[id].status.Pending? && !jobs[id].forceCancel
  }

  /** The first `n` jobs have moved from waiting to pending. */
  predicate Turning(jobs: map<JobId, Job>, list: seq<JobId>, n: nat) {
    && Distinct(list)
    && forall k :: 0 <= k < |list| ==>
         && list[k] in jobs && Listed(jobs[list[k]]) && !jobs[list[k]].forceCancel
         && if k < n then jobs[list[k]].status.Pending? else jobs[list[k]].status.Waiting?
  }

  predicate OthersDone(jobs: map<JobId, Job>, list: seq<JobId>, job: JobId) {
    forall id :: id in list && id != job && id in jobs ==> Completed(jobs[id].status)
  }

  /** No job of the list has changed but for its status. */
  predicate SameSettings(jobs: map<JobId, Job>, later: map<JobId, Job>, list: seq<JobId>) {
    forall id :: id in list ==> id in jobs && id in later && later[id].autoFinalize == jobs[id].autoFinalize
  }

  lemma TurnNext(jobs: map<JobId, Job>, list: seq<JobId>, n: nat)
    requires Turning(jobs, list, n) && n < |list|
    ensures Turning(jobs[list[n] := jobs[list[n]].Move(Pending)], list, n + 1)
  {
  }

  lemma TurnedIsPending(jobs: map<JobId, Job>, list: seq<JobId>)
    requires Turning(jobs, list, |list|)
    ensures AllPending(jobs, list)
  {
  }

  lemma PendingIsQuiet(jobs: map<JobId, Job>, list: seq<JobId>)
    requires AllPending(jobs, list)
    ensures Quiet(jobs, list)
  {
  }

  /** Once the last job has completed, all are waiting. */
  lemma AllWaiting(jobs: map<JobId, Job>, list: seq<JobId>, job: JobId)
    requires Quiet(jobs, list) && job in list && jobs[job].status.Waiting?
    requires forall id :: id in list ==> Completed(jobs[id].status)
    ensures Turning(jobs, list, 0)
  {
  }

  /** A job that completes without error leaves the group quiet. */
  lemma WaitingKeepsQuiet(jobs: map<JobId, Job>, list: seq<JobId>, job: JobId)
    requires Quiet(jobs, list) && job in list && jobs[job].started && jobs[job].deferred
    requires !Completed(jobs[job].status) && NewRet(jobs[job]) == 0
    ensures MayMove(jobs[job].status, Waiting)
    ensures Quiet(jobs[job := jobs[job].Move(Waiting)], list)
  {
  }

  /** Callbacks do not touch a pending group. */
  lemma PendingGoesOn(jobs: map<JobId, Job>, later: map<JobId, Job>, list: seq<JobId>)
    requires AllPending(jobs, list) && WentOn(jobs, later, list)
    ensures AllPending(later, list)
  {
  }

  /** A group of pending jobs one of which has just failed is ready to be aborted. */
  lemma FailedIsAbortReady(jobs: map<JobId, Job>, list: seq<JobId>, job: JobId, failed: JobId, k: Job)
    requires AllPending(jobs, list) && job in list && failed in list && Listed(k) && k.status.Aborting?
    ensures AbortReady(jobs[failed := k], list, job)
    ensures Spared(jobs[failed := k][job]) <==> job != failed
    ensures !SomeUnstarted(jobs[failed := k], list)
  {
  }

  /** A group whose job `job` failed while running is ready to be aborted. */
  lemma QuietIsAbortReady(jobs: map<JobId, Job>, list: seq<JobId>, job: JobId, k: Job)
    requires Quiet(jobs, list) && job in list && Doomed(k) && Completed(k.status) && !Spared(k)
    ensures AbortReady(jobs[job := k], list, job)
    ensures SomeUnstarted(jobs[job := k], list) <==> SomeOtherUnstarted(jobs, list, job)
  {
    var later := jobs[job := k];
    if SomeUnstarted(later, list) {
      var id :| id in list && id in later && Unstarted(later[id]);
      assert id != job && Unstarted(jobs[id]);
    }
    if SomeOtherUnstarted(jobs, list, job) {
      var id :| id in list && id in jobs && id != job && Unstarted(jobs[id]);
      assert Unstarted(later[id]);
    }
  }

  lemma SameSomeUnstarted(jobs: map<JobId, Job>, later: map<JobId, Job>, list: seq<JobId>)
    requires Members(jobs, list) && Members(later, list) && SameStarts(jobs, later, list)
    ensures SomeUnstarted(later, list) <==> SomeUnstarted(jobs, list)
  {
    if SomeUnstarted(later, list) {
      var id :| id in list && id in later && Unstarted(later[id]);
      assert Unstarted(jobs[id]);
    }
    if SomeUnstarted(jobs, list) {
      var id :| id in list && id in jobs && Unstarted(jobs[id]);
      assert Unstarted(later[id]);
    }
  }

  /** With a head that was started or has completed, what is stuck comes later. */
  lemma UnstartedRest(jobs: map<JobId, Job>, later: map<JobId, Job>, list: seq<JobId>)
    requires Members(jobs, list) && list != [] && OthersWentOn(jobs, later, list, list[0]) && !Unstarted(jobs[list[0]])
    ensures SomeUnstarted(later, list[1..]) <==> SomeUnstarted(jobs, list)
  {
    var rest := list[1..];
    if SomeUnstarted(later, rest) {
      var id :| id in rest && id in later && Unstarted(later[id]);
      assert id in list && id != list[0];
      assert Unstarted(jobs[id]);
    }
    if SomeUnstarted(jobs, list) {
      var id :| id in list && id in jobs && Unstarted(jobs[id]);
      assert id in rest;
      assert Unstarted(later[id]);
    }
  }

  // ------------------------------------------------------------------
  // Whole lives

  predicate Undecided(b: Books, all: seq<JobId>) {
    b == Books(all, [], [], [])
  }

  predicate Decided(b: Books, all: seq<JobId>) {
    && b.list == []
    && ((b.committed == all && b.prepared == all && b.aborted == []) || (b.aborted == all && b.committed == []))
  }

  /** An outcome other than the two bad ones is all or nothing. */
  lemma ResultDecides(o: Outcome, job: JobId, all: seq<JobId>, b: Books)
    requires Result(o, job, Books(all, [], [], []), b)
    ensures o.Open? ==> Undecided(b, all)
    ensures o.Commit? || o.Abort? ==> Decided(b, all)
  {
    assert [] + all == all;
  }

  /** And `Mixed` is never all or nothing. */
  lemma MixedIsNeither(o: Outcome, job: JobId, a: Books, b: Books)
    requires Result(o, job, a, b) && o.Mixed? && a.committed == [] && a.aborted == [] && Distinct(a.list)
    ensures job in b.committed && o.failed in b.aborted
    ensures !Decided(b, a.list) && !Undecided(b, a.list)
  {
    WithoutHas(a.list, job, o.failed);
  }

  lemma {:induction false} WithoutHas(s: seq<JobId>, x: JobId, y: JobId)
    requires y in s && y != x
    ensures y in Without(s, x)
  {
    if s[0] != y {
      WithoutHas(s[1..], x, y);
    }
  }

  lemma CompletingJob(j: Job)
    requires Listed(j) && !Completed(j.status)
    requires (j.started && j.deferred) || (!j.started && j.forceCancel)
    ensures UpdateAsserts(j)
    ensures NewRet(j) != 0 ==> Doomed(Update(j)) && Completed(Update(j).status)
  {
  }

  /** Clearing `busy` changes nothing that the group looks at. */
  lemma QuietlyIdle(jobs: map<JobId, Job>, later: map<JobId, Job>, list: seq<JobId>, prepare: JobId -> int, job: JobId)
    requires job in jobs && later == jobs[job := jobs[job].(busy := false)]
    ensures Quiet(jobs, list) ==> Quiet(later, list)
    ensures Expected(later, list, prepare, job) == Expected(jobs, list, prepare, job)
    ensures OthersDone(later, list, job) == OthersDone(jobs, list, job) && NewRet(later[job]) == NewRet(jobs[job])
  {
  }

  lemma SameUpdate(j: Job)
    requires UpdateAsserts(j) && NewRet(j) == 0
    ensures Update(j) == j
  {
  }

  lemma FailedPrepare(j: Job, rc: int)
    requires Listed(j) && j.status.Pending? && rc != 0
    ensures UpdateAsserts(j.(ret := rc))
    ensures Listed(Update(j.(ret := rc))) && Update(j.(ret := rc)).status.Aborting?
  {
  }

  lemma PendingRest(jobs: map<JobId, Job>, later: map<JobId, Job>, list: seq<JobId>)
    requires AllPending(jobs, list) && list != [] && OthersWentOn(jobs, later, list, list[0])
    ensures AllPending(later, list[1..])
  {
    var rest := list[1..];
    forall id | id in rest
      ensures id in later && Listed(later[id]) && later[id].status.Pending? && !later[id].forceCancel
    {
      assert id in list && id != list[0];
    }
  }

  lemma QuietMembers(jobs: map<JobId, Job>, list: seq<JobId>)
    requires Quiet(jobs, list)
    ensures Members(jobs, list)
  {
  }

  lemma QuietGoesOn(jobs: map<JobId, Job>, later: map<JobId, Job>, list: seq<JobId>)
    requires Quiet(jobs, list) && WentOn(jobs, later, list)
    ensures Quiet(later, list)
  {
  }

  /** A cancellation that does not abort the group at once leaves it quiet. */
  lemma CancelKeepsQuiet(jobs: map<JobId, Job>, later: map<JobId, Job>, list: seq<JobId>, job: JobId, force: bool)
    requires Quiet(jobs, list) && job in list
    requires OthersWentOn(jobs, later, list, job) && CancelRel(jobs[job], later[job], force)
    requires !(Completed(later[job].status) && later[job].forceCancel)
    ensures Quiet(later, list)
  {
  }

  lemma CancelledIsAbortReady(jobs: map<JobId, Job>, later: map<JobId, Job>, list: seq<JobId>, job: JobId, force: bool)
    requires Quiet(jobs, list) && job in list
    requires OthersWentOn(jobs, later, list, job) && CancelRel(jobs[job], later[job], force)
    requires later[job].forceCancel && later[job].started
    ensures AbortReady(later, list, job) && !Spared(later[job])
    ensures SomeUnstarted(later, list) <==> SomeOtherUnstarted(jobs, list, job)
  {
    if SomeUnstarted(later, list) {
      var id :| id in list && id in later && Unstarted(later[id]);
      assert id != job && Unstarted(jobs[id]);
    }
    if SomeOtherUnstarted(jobs, list, job) {
      var id :| id in list && id in jobs && id != job && Unstarted(jobs[id]);
      assert Unstarted(later[id]);
    }
  }

  /** Cancelling does not start anybody. */
  lemma CancelSameOthers(jobs: map<JobId, Job>, later: map<JobId, Job>, list: seq<JobId>, job: JobId)
    requires Members(jobs, list) && OthersWentOn(jobs, later, list, job)
    ensures SomeOtherUnstarted(later, list, job) <==> SomeOtherUnstarted(jobs, list, job)
  {
    if SomeOtherUnstarted(later, list, job) {
      var id :| id in list && id in later && id != job && Unstarted(later[id]);
      assert Unstarted(jobs[id]);
    }
    if SomeOtherUnstarted(jobs, list, job) {
      var id :| id in list && id in jobs && id != job && Unstarted(jobs[id]);
      assert Unstarted(later[id]);
    }
  }

  datatype Operation = StartIt | Wait | ExitIt | FinalizeIt | CancelIt(force: bool)

  class JobTxn {
    var jobs: map<JobId, Job>
    var list: seq<JobId>        // txn->jobs, the job added last first
    var aborting: bool
    var committed: seq<JobId>   // jobs whose driver->commit was called, in order
    var aborted: seq<JobId>     // jobs whose driver->abort was called, in order
    var prepared: seq<JobId>    // jobs whose driver->prepare succeeded, in order
    const prepare: JobId -> int // what driver->prepare returns; 0 for a driver without it

    constructor (answers: JobId -> int)
      ensures prepare == answers && jobs == map[] && Undecided(Ledger(), []) && !aborting
    {
      prepare := answers;
      jobs, list, aborting := map[], [], false;
      committed, aborted, prepared := [], [], [];
    }

    /** Whatever the coroutines do while the mutex is free. */
    method Others()
      requires Members(jobs, list)
      modifies `jobs
      ensures WentOn(old(jobs), jobs, list)
    {
      var i := 0;
      while i < |list|
        invariant 0 <= i <= |list|
        invariant jobs.Keys == old(jobs).Keys
        invariant forall id :: id in list ==> Meanwhile(old(jobs)[id], jobs[id])
        invariant forall id :: id in jobs && id !in list ==> jobs[id] == old(jobs)[id]
      {
        var k := SomeProgress(jobs[list[i]]);
        MeanwhileTransitive(old(jobs)[list[i]], jobs[list[i]], k);
        jobs := jobs[list[i] := k];
        i := i + 1;
      }
    }

    /** job_finalize_single_locked, which is only ever applied to the first job of the list. */
    method FinalizeSingle()
      requires Members(jobs, list) && list != []
      requires jobs[list[0]].status.Pending? || jobs[list[0]].status.Aborting?
        || (jobs[list[0]].status.Waiting? && jobs[list[0]].forceCancel)
      modifies `jobs, `list, `committed, `aborted
      ensures list == old(list)[1..]
      ensures OthersWentOn(old(jobs), jobs, old(list), old(list)[0])
      ensures old(list)[0] in jobs && Ends(old(jobs)[old(list)[0]], jobs[old(list)[0]])
      ensures NewRet(old(jobs)[old(list)[0]]) == 0 ==>
        committed == old(committed) + [old(list)[0]] && aborted == old(aborted)
      ensures NewRet(old(jobs)[old(list)[0]]) != 0 ==>
        aborted == old(aborted) + [old(list)[0]] && committed == old(committed)
    {
      var id := list[0];
      UpdateEnds(jobs[id]);
      var k := Update(jobs[id]);
      PutKeepsMembers(jobs, list, id, k);
      jobs := jobs[id := k];
      Others();
      assert jobs[id].status == k.status && jobs[id].ret == k.ret;
      if k.ret == 0 {
        committed := committed + [id];
      } else {
        aborted := aborted + [id];
      }
      PutAndGo(old(jobs), jobs, list, id, k, Concluding(jobs[id]));
      list := list[1..];
      jobs := jobs[id := Concluding(jobs[id])];
    }

    /** job_cancel_async_locked */
    method CancelAsync(id: JobId, force: bool)
      requires Members(jobs, list) && id in list
      modifies `jobs
      ensures OthersWentOn(old(jobs), jobs, list, id) && CancelRel(old(jobs)[id], jobs[id], force)
    {
      Others();
      var reply: bool := *;
      reply := reply || force || !jobs[id].started;
      if jobs[id].userPaused {
        ghost var was := jobs;
        Others();
        WentOnTransitive(old(jobs), was, jobs, list);
      }
      CancelFlags(jobs[id], reply, force);
      CancelRelAfter(old(jobs)[id], jobs[id], AfterCancel(jobs[id], reply), force);
      jobs := jobs[id := AfterCancel(jobs[id], reply)];
    }

    /** job_completed_txn_abort_locked; it gets stuck exactly if a job of the group was never started. */
    method CompletedTxnAbort(job: JobId) returns (stuck: bool)
      requires !aborting ==> AbortReady(jobs, list, job)
      modifies this
      ensures old(aborting) ==> unchanged(this) && !stuck
      ensures !old(aborting) ==> aborting && prepared == old(prepared)
      ensures !old(aborting) ==> (stuck <==> SomeUnstarted(old(jobs), old(list)))
      ensures !old(aborting) ==> (list == [] <==> !stuck)
      ensures stuck ==> SomeUnstarted(jobs, list)
      ensures !old(aborting) && !stuck ==>
        && aborted == old(aborted) + ToAbort(old(list), job, Spared(old(jobs)[job]))
        && committed == old(committed) + ToCommit(old(list), job, Spared(old(jobs)[job]))
      ensures !old(aborting) && stuck && !Spared(old(jobs)[job]) ==>
        aborted + list == old(aborted) + old(list) && committed == old(committed)
      decreases !aborting, 1
    {
      stuck := false;
      if aborting {
        return;
      }
      aborting := true;
      ghost var spared := Spared(jobs[job]);
      CancelOthers(job, spared);
      while list != []
        invariant aborting && prepared == old(prepared)
        invariant Dying(jobs, list, job, spared)
        invariant SomeUnstarted(jobs, list) <==> SomeUnstarted(old(jobs), old(list))
        invariant aborted + ToAbort(list, job, spared) == old(aborted) + ToAbort(old(list), job, spared)
        invariant committed + ToCommit(list, job, spared) == old(committed) + ToCommit(old(list), job, spared)
        decreases |list|
      {
        stuck := EndFirst(job, spared);
        if stuck {
          assert !spared ==> committed + [] == committed && old(committed) + [] == old(committed);
          return;
        }
      }
      assert aborted + [] == aborted && committed + [] == committed;
    }

    /** The first loop of job_completed_txn_abort_locked. */
    method CancelOthers(job: JobId, ghost spared: bool)
      requires AbortReady(jobs, list, job) && spared == Spared(jobs[job])
      modifies `jobs
      ensures Dying(jobs, list, job, spared)
      ensures SomeUnstarted(jobs, list) <==> SomeUnstarted(old(jobs), list)
    {
      var i := 0;
      while i < |list|
        invariant 0 <= i <= |list|
        invariant Dooming(jobs, list, job, spared, i)
        invariant SameStarts(old(jobs), jobs, list)
      {
        if list[i] != job {
          DoomingIsMembers(jobs, list, job, spared, i);
          ghost var was := jobs;
          CancelAsync(list[i], true);
          DoomNext(was, jobs, list, job, spared, i);
        }
        i := i + 1;
      }
      DoomingIsDying(jobs, list, job, spared);
      DyingIsMembers(jobs, list, job, spared);
      SameSomeUnstarted(old(jobs), jobs, list);
    }

    /** One round of the second loop of job_completed_txn_abort_locked. */
    method EndFirst(job: JobId, ghost spared: bool) returns (stuck: bool)
      requires aborting && list != [] && Dying(jobs, list, job, spared)
      modifies this
      ensures stuck <==> Unstarted(old(jobs)[old(list)[0]])
      ensures stuck ==> unchanged(this) && SomeUnstarted(jobs, list)
      ensures !stuck ==> aborting && prepared == old(prepared) && list == old(list)[1..] && Dying(jobs, list, job, spared)
      ensures !stuck ==> (SomeUnstarted(jobs, list) <==> SomeUnstarted(old(jobs), old(list)))
      ensures !stuck ==> aborted + ToAbort(list, job, spared) == old(aborted) + ToAbort(old(list), job, spared)
      ensures !stuck ==> committed + ToCommit(list, job, spared) == old(committed) + ToCommit(old(list), job, spared)
      decreases !aborting, 8
    {
      var other := list[0];
      stuck := Unstarted(jobs[other]);
      if stuck {
        return;
      }
      DyingIsMembers(jobs, list, job, spared);
      if !Completed(jobs[other].status) {
        assert jobs[other].cancelled;
        FinishSync(other, job, spared);
        SameSomeUnstarted(old(jobs), jobs, list);
      }
      FinalizeFirst(job, spared);
    }

    /** The rest of the round, once the first job has completed. */
    method FinalizeFirst(job: JobId, ghost spared: bool)
      requires list != [] && Dying(jobs, list, job, spared) && Completed(jobs[list[0]].status)
      modifies `jobs, `list, `committed, `aborted
      ensures list == old(list)[1..] && Dying(jobs, list, job, spared)
      ensures SomeUnstarted(jobs, list) <==> SomeUnstarted(old(jobs), old(list))
      ensures aborted + ToAbort(list, job, spared) == old(aborted) + ToAbort(old(list), job, spared)
      ensures committed + ToCommit(list, job, spared) == old(committed) + ToCommit(old(list), job, spared)
    {
      var other := list[0];
      FateOfHead(jobs, list, job, spared);
      FatesOfHead(list, job, spared);
      FinalizeSingle();
      DyingRest(old(jobs), jobs, old(list), job, spared);
      UnstartedRest(old(jobs), jobs, old(list));
      Regroup(old(aborted), [other], ToAbort(list, job, spared));
      Regroup(old(committed), [other], ToCommit(list, job, spared));
    }

    /** job_finish_sync_locked: the main loop runs until job `id` has completed, and others may complete too. */
    method FinishSync(id: JobId, ghost job: JobId, ghost spared: bool)
      requires aborting && Dying(jobs, list, job, spared) && id in list && jobs[id].started && !Completed(jobs[id].status)
      modifies this
      ensures aborting && list == old(list) && prepared == old(prepared)
      ensures committed == old(committed) && aborted == old(aborted)
      ensures Dying(jobs, list, job, spared) && Completed(jobs[id].status) && SameStarts(old(jobs), jobs, list)
      decreases !aborting, 7
    {
      var i := 0;
      while i < |list|
        invariant 0 <= i <= |list|
        invariant aborting && list == old(list) && prepared == old(prepared)
        invariant committed == old(committed) && aborted == old(aborted)
        invariant Dying(jobs, list, job, spared) && SameStarts(old(jobs), jobs, list)
        invariant jobs.Keys == old(jobs).Keys && jobs[id].started
        invariant id in list[..i] ==> Completed(jobs[id].status)
      {
        var go: bool := *;
        RunToExit(list[i], (go && jobs[list[i]].started) || list[i] == id, job, spared);
        assert list[..i + 1] == list[..i] + [list[i]];
        i := i + 1;
      }
      assert list[..i] == list;
    }

    /** Everybody goes on for a while; then, if `go`, the coroutine of `id` ends and job_exit runs. */
    method RunToExit(id: JobId, go: bool, ghost job: JobId, ghost spared: bool)
      requires aborting && Dying(jobs, list, job, spared) && id in list && (go ==> jobs[id].started)
      modifies this
      ensures aborting && list == old(list) && prepared == old(prepared)
      ensures committed == old(committed) && aborted == old(aborted)
      ensures Dying(jobs, list, job, spared)
      ensures go ==> Completed(jobs[id].status)
      ensures jobs.Keys == old(jobs).Keys && forall other :: other in list ==>
        && jobs[other].started == old(jobs)[other].started
        && (Completed(old(jobs)[other].status) ==> Completed(jobs[other].status))
      ensures SameStarts(old(jobs), jobs, list)
      decreases !aborting, 6, 1
    {
      DyingIsMembers(jobs, list, job, spared);
      ghost var was := jobs;
      Others();
      DyingGoesOn(was, jobs, list, job, spared);
      if go && !Completed(jobs[id].status) {
        EndAndExit(id, job, spared);
      }
    }

    method EndAndExit(id: JobId, ghost job: JobId, ghost spared: bool)
      requires aborting && Dying(jobs, list, job, spared) && id in list
      requires jobs[id].started && !Completed(jobs[id].status)
      modifies this
      ensures aborting && Ledger() == old(Ledger()) && Dying(jobs, list, job, spared)
      ensures id in jobs && jobs == old(jobs)[id := jobs[id]] && jobs[id].started && Completed(jobs[id].status)
      decreases !aborting, 6, 0
    {
      EndDoomed(id, job, spared);
      DoomedExit(jobs[id]);
      ghost var was := jobs;
      DyingIsMembers(jobs, list, job, spared);
      var outcome := Exit(id);
      DyingPut(was, list, job, spared, id, jobs[id]);
    }

    /** The coroutine of a job that is bound to abort ends, unless it has. */
    method EndDoomed(id: JobId, ghost job: JobId, ghost spared: bool)
      requires Dying(jobs, list, job, spared) && id in list && jobs[id].started && !Completed(jobs[id].status)
      modifies `jobs
      ensures Dying(jobs, list, job, spared) && id in jobs && jobs == old(jobs)[id := jobs[id]]
      ensures Doomed(jobs[id]) && jobs[id].started && jobs[id].deferred && !Completed(jobs[id].status)
    {
      var ret: int := *;
      DoomedEnd(jobs[id], ret);
      if !jobs[id].deferred {
        DyingPut(jobs, list, job, spared, id, Ended(jobs[id], ret));
        jobs := jobs[id := Ended(jobs[id], ret)];
      }
    }

    function Ledger(): Books
      reads this
    {
      Books(list, committed, aborted, prepared)
    }

    /** job_create with a group, which callers fill before any of its jobs can be pending. */
    method Add(id: JobId, autoFinalize: bool, autoDismiss: bool)
      requires !aborting && Quiet(jobs, list) && id !in jobs
      requires forall other :: other in list ==> !jobs[other].status.Pending?
      modifies `jobs, `list
      ensures list == [id] + old(list) && jobs == old(jobs)[id := NewJob(autoFinalize, autoDismiss)]
      ensures Quiet(jobs, list)
    {
      jobs := jobs[id := NewJob(autoFinalize, autoDismiss)];
      list := [id] + list;
    }

    /** job_start */
    method Start(id: JobId)
      requires !aborting && Quiet(jobs, list) && id in list && jobs[id].status.Created?
      modifies `jobs
      ensures jobs == old(jobs)[id := Started(old(jobs)[id])] && Quiet(jobs, list)
    {
      assert !jobs[id].started;
      jobs := jobs[id := Started(jobs[id])];
    }

    /** job_exit */
    method Exit(job: JobId) returns (outcome: Outcome)
      requires Members(jobs, list) && job in list
      requires jobs[job].started && jobs[job].deferred && !Completed(jobs[job].status)
      requires aborting ==> Doomed(jobs[job])
      requires !aborting ==> Quiet(jobs, list)
      modifies this
      ensures old(aborting) ==> aborting && Ledger() == old(Ledger())
      ensures old(aborting) ==>
        UpdateAsserts(old(jobs)[job].(busy := false)) &&
        jobs == old(jobs)[job := Update(old(jobs)[job].(busy := false))]
      ensures !old(aborting) ==> Result(outcome, job, old(Ledger()), Ledger())
      ensures !old(aborting) && outcome.Open? ==> !aborting && Quiet(jobs, list)
      ensures !old(aborting) && (outcome.Abort? || outcome.Stuck? || outcome.Mixed?) ==> aborting
      ensures !old(aborting) ==> outcome == Expected(old(jobs), old(list), prepare, job)
      ensures !old(aborting) && outcome.Stuck? ==> SomeUnstarted(jobs, list)
      ensures !old(aborting) && NewRet(old(jobs)[job]) == 0 && !OthersDone(old(jobs), old(list), job) ==>
        jobs == old(jobs)[job := old(jobs)[job].(busy := false, status := Waiting)]
      decreases !aborting, 5, 1
    {
      if aborting {
        ExitAborting(job);
        outcome := Abort;
      } else {
        outcome := ExitQuietly(job);
      }
    }

    /** job_exit while the group is aborting. */
    method ExitAborting(job: JobId)
      requires aborting && Members(jobs, list) && job in list && Doomed(jobs[job])
      requires jobs[job].started && jobs[job].deferred && !Completed(jobs[job].status)
      modifies this
      ensures aborting && Ledger() == old(Ledger())
      ensures UpdateAsserts(old(jobs)[job].(busy := false))
      ensures jobs == old(jobs)[job := Update(old(jobs)[job].(busy := false))]
      decreases !aborting, 5, 0
    {
      ghost var was := jobs;
      jobs := jobs[job := jobs[job].(busy := false)];
      PutKeepsMembers(was, list, job, jobs[job]);
      var _ := JobCompleted(job);
      TwicePut(was, job, was[job].(busy := false), jobs[job]);
    }

    /** job_exit while it is not. */
    method ExitQuietly(job: JobId) returns (outcome: Outcome)
      requires !aborting && Quiet(jobs, list) && job in list
      requires jobs[job].started && jobs[job].deferred && !Completed(jobs[job].status)
      modifies this
      ensures Result(outcome, job, old(Ledger()), Ledger())
      ensures outcome.Open? ==> !aborting && Quiet(jobs, list)
      ensures outcome.Abort? || outcome.Stuck? || outcome.Mixed? ==> aborting
      ensures outcome == Expected(old(jobs), old(list), prepare, job)
      ensures outcome.Stuck? ==> SomeUnstarted(jobs, list)
      ensures NewRet(old(jobs)[job]) == 0 && !OthersDone(old(jobs), old(list), job) ==>
        jobs == old(jobs)[job := old(jobs)[job].(busy := false, status := Waiting)]
      decreases !aborting, 5, 0
    {
      ghost var was := jobs;
      jobs := jobs[job := jobs[job].(busy := false)];
      QuietlyIdle(was, jobs, list, prepare, job);
      TwicePut(was, job, jobs[job], jobs[job].(status := Waiting));
      outcome := CompletedQuietly(job);
    }

    /** job_completed_locked */
    method JobCompleted(job: JobId) returns (outcome: Outcome)
      requires Members(jobs, list) && job in list && !Completed(jobs[job].status)
      requires (jobs[job].started && jobs[job].deferred) || (!jobs[job].started && jobs[job].forceCancel)
      requires aborting ==> Doomed(jobs[job])
      requires !aborting ==> Quiet(jobs, list)
      modifies this
      ensures old(aborting) ==> aborting && Ledger() == old(Ledger())
      ensures old(aborting) ==>
        UpdateAsserts(old(jobs)[job]) && jobs == old(jobs)[job := Update(old(jobs)[job])]
      ensures !old(aborting) ==> Result(outcome, job, old(Ledger()), Ledger())
      ensures !old(aborting) && outcome.Open? ==> !aborting && Quiet(jobs, list)
      ensures !old(aborting) && (outcome.Abort? || outcome.Stuck? || outcome.Mixed?) ==> aborting
      ensures !old(aborting) ==> outcome == Expected(old(jobs), old(list), prepare, job)
      ensures !old(aborting) && outcome.Stuck? ==> SomeUnstarted(jobs, list)
      ensures !old(aborting) && NewRet(old(jobs)[job]) == 0 && !OthersDone(old(jobs), old(list), job) ==>
        jobs == old(jobs)[job := old(jobs)[job].(status := Waiting)]
      decreases !aborting, 4, 1
    {
      CompletingJob(jobs[job]);
      if aborting {
        DoomedFails(jobs[job]);
        jobs := jobs[job := Update(jobs[job])];
        var _ := CompletedTxnAbort(job);
        outcome := Abort;
      } else {
        outcome := CompletedQuietly(job);
      }
    }

    /** job_completed_locked while the group is not aborting. */
    method CompletedQuietly(job: JobId) returns (outcome: Outcome)
      requires !aborting && Quiet(jobs, list) && job in list && !Completed(jobs[job].status)
      requires (jobs[job].started && jobs[job].deferred) || (!jobs[job].started && jobs[job].forceCancel)
      modifies this
      ensures Result(outcome, job, old(Ledger()), Ledger())
      ensures outcome.Open? ==> !aborting && Quiet(jobs, list)
      ensures outcome.Abort? || outcome.Stuck? || outcome.Mixed? ==> aborting
      ensures outcome == Expected(old(jobs), old(list), prepare, job)
      ensures outcome.Stuck? ==> SomeUnstarted(jobs, list)
      ensures NewRet(old(jobs)[job]) == 0 && !OthersDone(old(jobs), old(list), job) ==>
        jobs == old(jobs)[job := old(jobs)[job].(status := Waiting)]
      decreases !aborting, 4, 0
    {
      CompletingJob(jobs[job]);
      if NewRet(jobs[job]) != 0 {
        outcome := JobFailed(job);
      } else {
        SameUpdate(jobs[job]);
        assert jobs[job := Update(jobs[job])] == jobs;
        outcome := CompletedTxnSuccess(job);
      }
    }

    /** job_completed_locked for a job that has failed, as the first of its group. */
    method JobFailed(job: JobId) returns (outcome: Outcome)
      requires !aborting && Quiet(jobs, list) && job in list && !Completed(jobs[job].status) && NewRet(jobs[job]) != 0
      requires (jobs[job].started && jobs[job].deferred) || (!jobs[job].started && jobs[job].forceCancel)
      modifies this
      ensures Result(outcome, job, old(Ledger()), Ledger()) && aborting
      ensures outcome == Expected(old(jobs), old(list), prepare, job)
      ensures outcome.Stuck? ==> SomeUnstarted(jobs, list)
      decreases !aborting, 3
    {
      CompletingJob(jobs[job]);
      var k := Update(jobs[job]);
      QuietIsAbortReady(jobs, list, job, k);
      jobs := jobs[job := k];
      var stuck := CompletedTxnAbort(job);
      outcome := if stuck then Stuck else Abort;
    }

    /** job_completed_txn_success_locked */
    method CompletedTxnSuccess(job: JobId) returns (outcome: Outcome)
      requires !aborting && Quiet(jobs, list) && job in list && jobs[job].started && jobs[job].deferred
      requires !Completed(jobs[job].status) && NewRet(jobs[job]) == 0
      modifies this
      ensures Result(outcome, job, old(Ledger()), Ledger())
      ensures outcome.Open? ==> !aborting && Quiet(jobs, list)
      ensures outcome == Expected(old(jobs), old(list), prepare, job)
      ensures outcome.Abort? || outcome.Mixed? ==> aborting
      ensures !OthersDone(old(jobs), old(list), job) ==>
        MayMove(old(jobs)[job].status, Waiting) && jobs == old(jobs)[job := old(jobs)[job].Move(Waiting)]
      ensures outcome.Open? && OthersDone(old(jobs), old(list), job) ==> AllPending(jobs, list)
      decreases !aborting, 3
    {
      WaitingKeepsQuiet(jobs, list, job);
      jobs := jobs[job := jobs[job].Move(Waiting)];
      var completed := AllCompleted();
      if !completed {
        return Open;
      }
      AllWaiting(jobs, list, job);
      AllToPending();
      PendingIsQuiet(jobs, list);
      var manual := NeedsUser();
      if manual {
        return Open;
      }
      outcome := DoFinalize(job);
    }

    /** The loop over the jobs of the group that looks for one still running. */
    method AllCompleted() returns (all: bool)
      requires Quiet(jobs, list)
      ensures all <==> forall id :: id in list ==> Completed(jobs[id].status)
    {
      var i := 0;
      while i < |list|
        invariant 0 <= i <= |list|
        invariant forall k :: 0 <= k < i ==> Completed(jobs[list[k]].status)
      {
        if !Completed(jobs[list[i]].status) {
          return false;
        }
        assert jobs[list[i]].ret == 0;
        i := i + 1;
      }
      return true;
    }

    /** job_needs_finalize_locked for some job of the group. */
    method NeedsUser() returns (some: bool)
      requires Members(jobs, list)
      ensures some <==> Manual(jobs, list)
    {
      var i := 0;
      while i < |list|
        invariant 0 <= i <= |list|
        invariant forall k :: 0 <= k < i ==> jobs[list[k]].autoFinalize
      {
        if !jobs[list[i]].autoFinalize {
          return true;
        }
        i := i + 1;
      }
      return false;
    }

    /** job_txn_apply_locked with job_transition_to_pending_locked. */
    method AllToPending()
      requires Turning(jobs, list, 0)
      modifies `jobs
      ensures AllPending(jobs, list) && SameSettings(old(jobs), jobs, list)
    {
      var i := 0;
      while i < |list|
        invariant 0 <= i <= |list|
        invariant Turning(jobs, list, i) && SameSettings(old(jobs), jobs, list)
      {
        TurnNext(jobs, list, i);
        jobs := jobs[list[i] := jobs[list[i]].Move(Pending)];
        i := i + 1;
      }
      TurnedIsPending(jobs, list);
    }

    /**
      job_do_finalize_locked.  The outcome is `Mixed` exactly when the callback that
      failed belongs to another job than the one being finalized.
    */
    method DoFinalize(job: JobId) returns (outcome: Outcome)
      requires !aborting && AllPending(jobs, list) && job in list
      modifies this
      ensures Result(outcome, job, old(Ledger()), Ledger()) && outcome == Verdict(old(list), prepare, job)
      ensures prepared == old(prepared) + old(list)[..FirstFailure(old(list), prepare, 0)]
      ensures outcome.Abort? || outcome.Mixed? ==> aborting
      decreases !aborting, 2
    {
      var i := 0;
      while i < |list|
        invariant 0 <= i <= |list|
        invariant !aborting && AllPending(jobs, list)
        invariant list == old(list) && committed == old(committed) && aborted == old(aborted)
        invariant prepared == old(prepared) + list[..i] && forall k :: 0 <= k < i ==> prepare(list[k]) == 0
      {
        var rc := Prepare(list[i], job);
        if rc != 0 {
          FirstFailureFrom(list, prepare, i);
          var failed := list[i];
          var stuck := CompletedTxnAbort(job);
          outcome := if failed == job then Abort else Mixed(failed);
          return;
        }
        assert list[..i + 1] == list[..i] + [list[i]];
        i := i + 1;
      }
      FirstFailureFrom(list, prepare, i);
      assert list[..i] == list;
      FinalizeAll();
      outcome := Commit;
    }

    /** job_prepare_locked on a pending job; zero if the callback succeeded. */
    method Prepare(id: JobId, ghost job: JobId) returns (rc: int)
      requires !aborting && AllPending(jobs, list) && id in list && job in list
      modifies `jobs, `prepared
      ensures rc == prepare(id)
      ensures rc == 0 ==> AllPending(jobs, list) && prepared == old(prepared) + [id]
      ensures rc != 0 ==> AbortReady(jobs, list, job) && prepared == old(prepared) && !SomeUnstarted(jobs, list)
      ensures rc != 0 ==> (Spared(jobs[job]) <==> job != id)
    {
      ghost var was := jobs;
      Others();
      PendingGoesOn(was, jobs, list);
      rc := prepare(id);
      if rc != 0 {
        var k := jobs[id].(ret := rc);
        FailedPrepare(jobs[id], rc);
        FailedIsAbortReady(jobs, list, job, id, Update(k));
        jobs := jobs[id := Update(k)];
      } else {
        prepared := prepared + [id];
      }
    }

    /** job_txn_apply_locked with job_finalize_single_locked. */
    method FinalizeAll()
      requires AllPending(jobs, list)
      modifies `jobs, `list, `committed, `aborted
      ensures list == [] && committed == old(committed) + old(list) && aborted == old(aborted)
    {
      while list != []
        invariant AllPending(jobs, list)
        invariant committed + list == old(committed) + old(list) && aborted == old(aborted)
        decreases |list|
      {
        ghost var was, before := jobs, list;
        FinalizeSingle();
        PendingRest(was, jobs, before);
      }
    }

    /** job_finalize_locked */
    method Finalize(job: JobId) returns (ok: bool, outcome: Outcome)
      requires !aborting && Quiet(jobs, list) && job in list
      modifies this
      ensures ok <==> Accepts(Verb.Finalize, old(jobs)[job].status)
      ensures !ok ==> unchanged(this)
      ensures !ok ==> outcome.Open?
      ensures ok ==> Result(outcome, job, old(Ledger()), Ledger()) && outcome == Verdict(old(list), prepare, job)
    {
      ok, outcome := Accepts(Verb.Finalize, jobs[job].status), Open;
      if ok {
        outcome := DoFinalize(job);
      }
    }

    /**
      job_user_cancel_locked; there is no aborting job to refuse.  A job that runs is only
      flagged, and its siblings are left alone, unless it ends before driver->cancel returns.
    */
    method Cancel(job: JobId, force: bool) returns (outcome: Outcome)
      requires !aborting && Quiet(jobs, list) && job in list
      modifies this
      ensures Result(outcome, job, old(Ledger()), Ledger())
      ensures outcome.Open? ==> !aborting && Quiet(jobs, list)
      ensures !old(jobs)[job].started || (force && old(jobs)[job].deferred) ==> outcome.Abort? || outcome.Stuck?
      ensures outcome.Stuck? ==> SomeOtherUnstarted(old(jobs), old(list), job) && SomeUnstarted(jobs, list)
      ensures outcome.Abort? ==> !SomeOtherUnstarted(old(jobs), old(list), job)
      ensures outcome.Open? || outcome.Abort? || outcome.Stuck?
    {
      CancelAsync(job, force);
      CancelSameOthers(old(jobs), jobs, list, job);
      if !jobs[job].started {
        CancelKeepsQuiet(old(jobs), jobs, list, job, force);
        outcome := JobCompleted(job);
      } else if jobs[job].deferred {
        if jobs[job].forceCancel {
          CancelledIsAbortReady(old(jobs), jobs, list, job, force);
          var stuck := CompletedTxnAbort(job);
          outcome := if stuck then Stuck else Abort;
        } else {
          CancelKeepsQuiet(old(jobs), jobs, list, job, force);
          outcome := Open;
        }
      } else {
        CancelKeepsQuiet(old(jobs), jobs, list, job, force);
        QuietMembers(jobs, list);
        ghost var was := jobs;
        Others();
        QuietGoesOn(was, jobs, list);
        outcome := Open;
      }
    }

    /** The coroutine of a started job runs to its end and returns `ret`; job_exit is still to come. */
    method CoroutineEnds(id: JobId, ret: int)
      requires !aborting && Quiet(jobs, list) && id in list
      requires jobs[id].started && !jobs[id].deferred && !Completed(jobs[id].status)
      modifies `jobs
      ensures jobs == old(jobs)[id := Ended(old(jobs)[id], ret)] && Quiet(jobs, list)
    {
      jobs := jobs[id := Ended(jobs[id], ret)];
    }

    /**
      The life of a group: `steps` operations, each any that is possible, on any of its jobs,
      until the group is decided.  Either no job has been committed or aborted, or all have
      been prepared and then committed, once each, or all have been aborted, once each --
      unless finalizing one job found another one failing to prepare, or an abort waits for
      a job that was never started.  The group commits only if no callback fails.
    */
    method Life(steps: nat) returns (outcome: Outcome)
      requires !aborting && Quiet(jobs, list) && committed == [] && aborted == [] && prepared == []
      modifies this
      ensures outcome.Open? ==> Undecided(Ledger(), old(list)) && !aborting && Quiet(jobs, list)
      ensures outcome.Commit? || outcome.Abort? ==> Decided(Ledger(), old(list))
      ensures outcome.Mixed? || outcome.Stuck? ==> exists job :: Result(outcome, job, old(Ledger()), Ledger())
      ensures outcome.Commit? ==> forall id :: id in old(list) ==> prepare(id) == 0
      ensures outcome.Mixed? ==> outcome.failed in old(list) && prepare(outcome.failed) != 0
      ensures outcome.Stuck? ==> SomeUnstarted(jobs, list)
    {
      outcome := Open;
      ghost var who: JobId := 0;
      var i := 0;
      while i < steps && outcome.Open? && list != []
        invariant outcome.Open? ==> Ledger() == old(Ledger()) && !aborting && Quiet(jobs, list)
        invariant !outcome.Open? ==> Result(outcome, who, old(Ledger()), Ledger()) && Caused(outcome, who, old(list), prepare)
        invariant outcome.Stuck? ==> SomeUnstarted(jobs, list)
      {
        var k: nat := *;
        var job := list[k % |list|];
        var op: Operation := *;
        outcome := Operate(op, job);
        who := job;
        i := i + 1;
      }
      assert Result(outcome, who, Books(old(list), [], [], []), Ledger());
      ResultDecides(outcome, who, old(list), Ledger());
      CauseOf(outcome, who, old(list), prepare);
    }

    /** An operation, if it is possible. */
    method Operate(op: Operation, job: JobId) returns (outcome: Outcome)
      requires !aborting && Quiet(jobs, list) && job in list
      modifies this
      ensures Result(outcome, job, old(Ledger()), Ledger())
      ensures outcome.Open? ==> !aborting && Quiet(jobs, list)
      ensures Caused(outcome, job, old(list), prepare)
      ensures outcome.Stuck? ==> SomeUnstarted(jobs, list)
    {
      outcome := Open;
      match op
      case StartIt =>
        if jobs[job].status.Created? {
          Start(job);
        }
      case Wait =>
        QuietMembers(jobs, list);
        Others();
        QuietGoesOn(old(jobs), jobs, list);
      case ExitIt =>
        if jobs[job].started && jobs[job].deferred && !Completed(jobs[job].status) {
          outcome := Exit(job);
        }
      case FinalizeIt =>
        var ok;
        ok, outcome := Finalize(job);
      case CancelIt(force) =>
        outcome := Cancel(job, force);
    }
  }

  /** A group of two jobs that run. */
  method TwoRunning(answers: JobId -> int) returns (txn: JobTxn)
    ensures fresh(txn) && txn.prepare == answers && !txn.aborting && Undecided(txn.Ledger(), [2, 1])
    ensures txn.jobs.Keys == {1, 2} && Quiet(txn.jobs, txn.list)
    ensures forall id :: id in txn.jobs ==> IsFresh(txn.jobs[id])
  {
    txn := new JobTxn(answers);
    txn.Add(1, true, true);
    txn.Add(2, true, true);
    txn.Start(1);
    txn.Start(2);
  }

  predicate IsFresh(j: Job) {
    j.started && j.status.Running? && !j.deferred && j.ret == 0 && !j.forceCancel && j.autoFinalize
  }

  /** Job 1 has ended well and waits for job 2. */
  method OneWaiting(answers: JobId -> int) returns (txn: JobTxn)
    ensures fresh(txn) && txn.prepare == answers && !txn.aborting && Undecided(txn.Ledger(), [2, 1])
    ensures txn.jobs.Keys == {1, 2} && Quiet(txn.jobs, txn.list) && IsFresh(txn.jobs[2])
    ensures txn.jobs[1].status.Waiting? && txn.jobs[1].autoFinalize
  {
    txn := TwoRunning(answers);
    txn.CoroutineEnds(1, 0);
    assert !OthersDone(txn.jobs, txn.list, 1) by {
      assert 2 in txn.list && !Completed(txn.jobs[2].status);
    }
    var outcome := txn.Exit(1);
  }

  /** The bad outcome is real: two jobs end well, and the callback of the one that ended first fails. */
  method MixedExample() returns (txn: JobTxn, outcome: Outcome)
    ensures outcome == Mixed(1) && txn.committed == [2] && txn.aborted == [1]
  {
    txn := OneWaiting(id => if id == 1 then -5 else 0);
    txn.CoroutineEnds(2, 0);
    FirstFailureFrom([2, 1], txn.prepare, 1);
    outcome := txn.Exit(2);
    assert Without([2, 1], 2) == [1];
  }

  /** Job 1 runs, job 2 was never started. */
  method OneRunning() returns (txn: JobTxn)
    ensures fresh(txn) && !txn.aborting && txn.list == [2, 1] && txn.jobs.Keys == {1, 2}
    ensures Quiet(txn.jobs, txn.list) && IsFresh(txn.jobs[1]) && Unstarted(txn.jobs[2])
  {
    txn := new JobTxn(id => 0);
    txn.Add(1, true, true);
    txn.Add(2, true, true);
    txn.Start(1);
  }

  /** So is the other: a job fails while its sibling was never started. */
  method StuckExample() returns (txn: JobTxn, outcome: Outcome)
    ensures outcome.Stuck? && txn.aborting && txn.list != []
  {
    txn := OneRunning();
    txn.CoroutineEnds(1, -5);
    assert 2 in txn.list && Unstarted(txn.jobs[2]);
    outcome := txn.Exit(1);
  }

  /** Some change within `Meanwhile`. */
  method SomeProgress(j: Job) returns (k: Job)
    requires JobOk(j)
    ensures Meanwhile(j, k)
  {
    k := SomePauses(j);
    var status: Status := *;
    if j.started && !j.deferred && !Completed(j.status) && !Completed(status) && !status.Created? && !status.Undefined? {
      k := k.(status := status);
      var ends: bool := *;
      if ends && (status.Running? || status.Ready?) {
        var ret: int := *;
        k := k.(deferred := true, ret := ret);
      }
    }
  }

  method SomePauses(j: Job) returns (k: Job)
    requires JobOk(j)
    ensures Meanwhile(j, k) && k.status == j.status && k.ret == j.ret && k.deferred == j.deferred
  {
    var pauses: int := *;
    var stop: bool := *;
    k := j.(pauseCount := if pauses < 2 then 2 else pauses, userPaused := j.userPaused || stop);
    PausedIsOk(j, k.pauseCount, k.userPaused);
  }

  lemma PausedIsOk(j: Job, pauses: int, stop: bool)
    requires JobOk(j) && pauses >= 2
    ensures JobOk(j.(pauseCount := pauses, userPaused := stop))
  {
  }
}
