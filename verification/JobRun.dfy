/**
  The life of one job (qemu/job.c, qemu/blockjob.c) as a state machine.

  A step is what one thread does between taking and releasing the job mutex.
  Three parties move: the job's coroutine, the main loop, and everybody else
  (the sleep timer, drained sections, callers of job_enter).  Every point where
  the mutex is released around a driver callback is a state of its own, so the
  other parties may move there.

  What the source asserts in a step is collected in `Asserts`; `RunsAreSafe` says
  which assertion can fail, and `SafeUnlessOvertaken` along which runs none can.
*/
module JobRun {
  import opened JobModel

  /** Where the job's coroutine stands. */
  datatype Place =
    | NoCoroutine
    | Entering                      // job_start entered it; the first pause point is next
    | InDriver                      // in the driver's run function
    | InPauseCallback               // in driver->pause, mutex released
    | InResumeCallback              // in driver->resume, mutex released
    | Yielded                       // suspended in job_yield or job_sleep_ns
    | YieldedPaused(status: Status) // suspended in a pause point
    | Woken                         // woken from Yielded, not running yet
    | WokenPaused(status: Status)   // woken from YieldedPaused, not running yet
    | Finished                      // returned from job_co_entry

  /**
    What the main loop is doing with this job while the mutex is released.  The
    user_resume callback of a block job resets the I/O status under the mutex;
    `reset` tells that it has.
  */
  datatype MainLoop =
    | Idle
    | InUserResume(reset: bool)                                // driver->user_resume, from job_user_resume
    | InCancel(force: bool, byGroup: bool)                     // driver->cancel
    | InCancelResume(force: bool, byGroup: bool, reset: bool)  // driver->user_resume, from job_cancel_async

  datatype State = State(
    job: Job,
    place: Place,
    main: MainLoop,
    timer: bool,          // the sleep timer is pending
    exitScheduled: bool,  // job_exit is scheduled in the main loop
    drains: nat,          // job_pause calls not yet matched by job_resume
    extraRefs: nat,       // references beside the one made at creation
    inTxn: bool,
    ioError: bool)        // iostatus is not OK

  /** Steps of the job's coroutine. */
  datatype CoAction =
    | EnterRun | PausePoint | PauseReturn | ResumeReturn | Yield(sleep: bool) | Continue
    | BecomeReady | StopOnError | Finish(ret: int)

  /** Steps that anybody may take. */
  datatype AnyAction =
    | TimerFires | Enter | DrainBegin | DrainEnd | Ref | Unref

  /** Steps of the main loop that a user or an owner of the job asks for; `Cont` is qmp_cont. */
  datatype UserAction =
    | Start | UserPause | UserResume | ResetIostatus | UserResumeReturn | Cont
    | CancelBegin(force: bool, byGroup: bool) | CancelReturn(reply: bool) | CancelResumeReturn
    | Dismiss | EarlyFail

  /** Steps of the main loop that complete the job. */
  datatype EndAction =
    | Exit | ToPending | Prepare(result: int) | FinalizeSingle

  datatype Action = ByCoroutine(co: CoAction) | ByAny(any: AnyAction) | ByUser(user: UserAction) | ByEnd(end: EndAction)

  // ------------------------------------------------------------------
  // Pieces of steps

  /** job_enter_cond_locked goes on to wake the coroutine. */
  predicate Enters(s: State) {
    s.job.started && !s.job.deferred && !s.job.busy
  }

  /** What aio_co_wake may be applied to. */
  predicate Suspended(p: Place) {
    p.Yielded? || p.YieldedPaused?
  }

  predicate WakeAsserts(s: State) {
    Enters(s) ==> Suspended(s.place)
  }

  function Wake(s: State): State
    requires WakeAsserts(s)
  {
    if !Enters(s) then s
    else s.(timer := false, job := s.job.(busy := true),
            place := if s.place.Yielded? then Woken else WokenPaused(s.place.status))
  }

  /** The beginning of job_pause_point_locked, up to driver->pause. */
  function PauseBegin(s: State): State {
    s.(place := if s.job.ShouldPause() && !s.job.forceCancel then InPauseCallback else InDriver)
  }

  function PausedForm(status: Status): Status {
    if status.Ready? then Standby else Paused
  }

  /** job_pause_locked */
  function AddPause(s: State): State
    requires !s.job.paused ==> WakeAsserts(s)
  {
    var t := s.(job := s.job.(pauseCount := s.job.pauseCount + 1));
    if t.job.paused then t else Wake(t)
  }

  /** job_resume_locked */
  function DropPause(s: State): State
    requires s.job.pauseCount > 0
    requires WakeAsserts(s)
  {
    var t := s.(job := s.job.(pauseCount := s.job.pauseCount - 1));
    if t.job.pauseCount == 0 && !t.timer then Wake(t) else t
  }

  /** job_completed_locked up to the group; what the group does are steps of their own. */
  predicate CompleteAsserts(s: State) {
    && s.inTxn
    && !Completed(s.job.status)
    && UpdateAsserts(s.job)
    && (NewRet(s.job) == 0 ==> MayMove(s.job.status, Waiting))
  }

  function Complete(s: State): State
    requires CompleteAsserts(s)
  {
    var j := Update(s.job);
    s.(job := if j.ret == 0 then j.Move(Waiting) else j)
  }

  /** job_do_dismiss_locked; `Free` asserts what job_unref_locked does on the last reference. */
  predicate UnrefAsserts(s: State) {
    s.job.refcnt > 0 && (s.job.refcnt == 1 ==> s.job.status.Null? && !s.timer && !s.inTxn)
  }

  function DropRef(s: State): State
    requires UnrefAsserts(s)
  {
    s.(job := s.job.(refcnt := s.job.refcnt - 1))
  }

  predicate DismissAsserts(s: State) {
    MayMove(s.job.status, Null) && s.job.refcnt > 0 && !s.timer
  }

  function DoDismiss(s: State): State
    requires DismissAsserts(s)
  {
    DropRef(s.(inTxn := false,
               job := s.job.(busy := false, paused := false, deferred := true).Move(Null)))
  }

  /** job_finalize_single_locked, whose callbacks do not re-enter. */
  predicate FinalizeAsserts(s: State) {
    && Completed(s.job.status)
    && UpdateAsserts(s.job)
    && MayMove(Update(s.job).status, Concluded)
    && s.job.refcnt > 0
    && !s.timer
  }

  function Finalized(s: State): State
    requires FinalizeAsserts(s)
  {
    var t := s.(inTxn := false, job := Update(s.job).Move(Concluded));
    if t.job.autoDismiss || !t.job.started then DoDismiss(t) else t
  }

  /** The end of job_cancel_async_locked and, unless the group cancels, the rest of job_cancel_locked. */
  function Flag(s: State, force: bool): State {
    if force || !s.job.deferred
    then s.(job := s.job.(cancelled := true, forceCancel := s.job.forceCancel || force))
    else s
  }

  predicate CancelEndAsserts(s: State, force: bool, byGroup: bool) {
    var t := Flag(s, force);
    !byGroup ==>
      if !t.job.started then CompleteAsserts(t)
      else WakeAsserts(t)
  }

  function CancelEnd(s: State, force: bool, byGroup: bool): State
    requires CancelEndAsserts(s, force, byGroup)
  {
    var t := Flag(s, force).(main := Idle);
    if byGroup then t
    else if !t.job.started then Complete(t)
    else if t.job.deferred then t
    else Wake(t)
  }

  // ------------------------------------------------------------------
  // Steps

  /**
    When a step can happen.  Beside the code's own control flow this holds what
    is asked of others: a driver announces readiness once; driver->cancel
    answers true when forced, and when the job never started; a group finalizes
    only a job that is pending, that failed, or that it has force-cancelled.
  */
  predicate Enabled(s: State, a: Action) {
    && s.job.refcnt > 0
    && match a
       case ByCoroutine(c) => CoEnabled(s, c)
       case ByAny(c) => AnyEnabled(s, c)
       case ByUser(c) => UserEnabled(s, c)
       case ByEnd(c) => EndEnabled(s, c)
  }

  /** Every assertion of the source that the step passes. */
  predicate Asserts(s: State, a: Action) {
    match a
    case ByCoroutine(c) => CoAsserts(s, c)
    case ByAny(c) => AnyAsserts(s, c)
    case ByUser(c) => UserAsserts(s, c)
    case ByEnd(c) => EndAsserts(s, c)
  }

  function Next(s: State, a: Action): State
    requires Enabled(s, a) && Asserts(s, a)
  {
    match a
    case ByCoroutine(c) => CoNext(s, c)
    case ByAny(c) => AnyNext(s, c)
    case ByUser(c) => UserNext(s, c)
    case ByEnd(c) => EndNext(s, c)
  }

  predicate CoEnabled(s: State, a: CoAction) {
    match a
    case EnterRun => s.place.Entering?
    case PauseReturn => s.place.InPauseCallback?
    case ResumeReturn => s.place.InResumeCallback?
    case Continue => s.place.Woken? || s.place.WokenPaused?
    case BecomeReady => s.place.InDriver? && !s.job.status.Ready?
    case _ => s.place.InDriver?
  }

  /** job_is_cancelled_locked asserts this. */
  predicate CancelledOk(j: Job) {
    j.cancelled || !j.forceCancel
  }

  predicate CoAsserts(s: State, a: CoAction) {
    match a
    case EnterRun => s.job.started && CancelledOk(s.job)
    case PausePoint => s.job.started && CancelledOk(s.job)
    case PauseReturn =>
      CancelledOk(s.job) && (s.job.ShouldPause() ==> MayMove(s.job.status, PausedForm(s.job.status)))
    case Yield(_) => s.job.started && s.job.busy && CancelledOk(s.job)
    case Continue => s.job.busy && (s.place.WokenPaused? ==> MayMove(s.job.status, s.place.status))
    case BecomeReady => MayMove(s.job.status, Ready)
    case StopOnError => !s.job.paused ==> WakeAsserts(s)
    case ResumeReturn => true
    case Finish(_) => true
  }

  function CoNext(s: State, a: CoAction): State
    requires CoEnabled(s, a) && CoAsserts(s, a)
  {
    match a
    case EnterRun => PauseBegin(s)
    case PausePoint => PauseBegin(s)
    case PauseReturn =>
      if s.job.ShouldPause() && !s.job.forceCancel
      then s.(job := s.job.Move(PausedForm(s.job.status)).(paused := true, busy := false),
              place := YieldedPaused(s.job.status))
      else s.(place := InResumeCallback)
    case ResumeReturn => s.(place := InDriver)
    case Yield(sleep) =>
      if s.job.forceCancel then s
      else if s.job.ShouldPause() then PauseBegin(s)
      else s.(timer := sleep, job := s.job.(busy := false), place := Yielded)
    case Continue =>
      if s.place.Woken? then PauseBegin(s)
      else s.(job := s.job.Move(s.place.status).(paused := false), place := InResumeCallback)
    case BecomeReady => s.(job := s.job.Move(Ready))
    case StopOnError =>
      var t := if s.job.userPaused then s else AddPause(s);
      t.(job := t.job.(userPaused := true), ioError := true)
    case Finish(r) =>
      s.(place := Finished, exitScheduled := true, job := s.job.(ret := r, deferred := true, busy := true))
  }

  predicate AnyEnabled(s: State, a: AnyAction) {
    match a
    case TimerFires => s.timer
    case DrainBegin => !s.job.status.Null?
    case DrainEnd => s.drains > 0
    case Unref => s.extraRefs > 0
    case _ => true
  }

  predicate AnyAsserts(s: State, a: AnyAction) {
    match a
    case TimerFires => WakeAsserts(s)
    case Enter => WakeAsserts(s)
    case DrainBegin => !s.job.paused ==> WakeAsserts(s)
    case DrainEnd => s.job.pauseCount > 0 && WakeAsserts(s)
    case Ref => true
    case Unref => UnrefAsserts(s)
  }

  function AnyNext(s: State, a: AnyAction): State
    requires AnyEnabled(s, a) && AnyAsserts(s, a)
  {
    match a
    case TimerFires => Wake(s.(timer := false))
    case Enter => Wake(s)
    case DrainBegin => AddPause(s.(drains := s.drains + 1))
    case DrainEnd => DropPause(s.(drains := s.drains - 1))
    case Ref => s.(extraRefs := s.extraRefs + 1, job := s.job.(refcnt := s.job.refcnt + 1))
    case Unref => DropRef(s).(extraRefs := s.extraRefs - 1)
  }

  predicate UserEnabled(s: State, a: UserAction) {
    match a
    case Start => s.main.Idle? && s.job.status.Created?
    case UserPause => s.main.Idle? && Accepts(Pause, s.job.status) && !s.job.userPaused
    case UserResume =>
      s.main.Idle? && s.job.userPaused && s.job.pauseCount > 0 && Accepts(Resume, s.job.status)
    case ResetIostatus => (s.main.InUserResume? || s.main.InCancelResume?) && !s.main.reset
    case UserResumeReturn => s.main.InUserResume? && s.main.reset
    case Cont => s.main.Idle?
    case CancelBegin(force, byGroup) =>
      s.main.Idle? && if byGroup then force && s.inTxn else Accepts(Cancel, s.job.status)
    case CancelReturn(reply) => s.main.InCancel? && (s.main.force || !s.job.started ==> reply)
    case CancelResumeReturn => s.main.InCancelResume? && s.main.reset
    case Dismiss => s.main.Idle? && s.job.status.Concluded?
    case EarlyFail => s.main.Idle? && s.job.status.Created?
  }

  /** block_job_iostatus_reset_locked */
  predicate ResetAsserts(s: State) {
    s.ioError ==> s.job.userPaused && s.job.pauseCount > 0
  }

  predicate UserAsserts(s: State, a: UserAction) {
    match a
    case Start => !s.job.started && s.job.paused && MayMove(s.job.status, Running)
    case UserPause => !s.job.paused ==> WakeAsserts(s)
    case ResetIostatus => ResetAsserts(s)
    case Cont => ResetAsserts(s)
    case UserResumeReturn => s.job.pauseCount > 0 && WakeAsserts(s)
    case CancelReturn(reply) =>
      s.main.InCancel? && (!s.job.userPaused ==> CancelEndAsserts(s, reply, s.main.byGroup))
    case CancelResumeReturn =>
      && s.main.InCancelResume?
      && s.job.pauseCount > 0
      && CancelEndAsserts(Unpaused(s), s.main.force, s.main.byGroup)
    case Dismiss => DismissAsserts(s)
    case EarlyFail => DismissAsserts(s)
    case UserResume => true
    case CancelBegin(_, _) => true
  }

  /** job_cancel_async_locked takes the user's pause away without entering the job. */
  function Unpaused(s: State): State {
    s.(job := s.job.(userPaused := false, pauseCount := s.job.pauseCount - 1))
  }

  function UserNext(s: State, a: UserAction): State
    requires UserEnabled(s, a) && UserAsserts(s, a)
  {
    match a
    case Start =>
      s.(place := Entering,
         job := s.job.(started := true, pauseCount := s.job.pauseCount - 1, busy := true, paused := false)
                     .Move(Running))
    case UserPause => AddPause(s.(job := s.job.(userPaused := true)))
    case UserResume => s.(main := InUserResume(false))
    case ResetIostatus => s.(ioError := false, main := s.main.(reset := true))
    case Cont => s.(ioError := false)
    case UserResumeReturn => DropPause(s.(main := Idle, job := s.job.(userPaused := false)))
    case CancelBegin(force, byGroup) => s.(main := InCancel(force, byGroup))
    case CancelReturn(reply) =>
      if s.job.userPaused then s.(main := InCancelResume(reply, s.main.byGroup, false))
      else CancelEnd(s, reply, s.main.byGroup)
    case CancelResumeReturn => CancelEnd(Unpaused(s), s.main.force, s.main.byGroup)
    case Dismiss => DoDismiss(s)
    case EarlyFail => DoDismiss(s)
  }

  predicate EndEnabled(s: State, a: EndAction) {
    && s.main.Idle?
    && match a
       case Exit => s.exitScheduled
       case ToPending => s.job.status.Waiting?
       case Prepare(_) => s.job.status.Pending? && s.job.ret == 0
       case FinalizeSingle =>
         s.job.status.Pending? || s.job.status.Aborting? || (s.job.status.Waiting? && s.job.forceCancel)
  }

  function Quiescent(s: State): State {
    s.(exitScheduled := false, job := s.job.(busy := false))
  }

  predicate EndAsserts(s: State, a: EndAction) {
    match a
    case Exit => CompleteAsserts(Quiescent(s))
    case ToPending => MayMove(s.job.status, Pending)
    case Prepare(r) => UpdateAsserts(s.job.(ret := r))
    case FinalizeSingle => FinalizeAsserts(s)
  }

  function EndNext(s: State, a: EndAction): State
    requires EndEnabled(s, a) && EndAsserts(s, a)
  {
    match a
    case Exit => Complete(Quiescent(s))
    case ToPending => s.(job := s.job.Move(Pending))
    case Prepare(r) => s.(job := Update(s.job.(ret := r)))
    case FinalizeSingle => Finalized(s)
  }

  function Init(autoFinalize: bool, autoDismiss: bool): State {
    State(NewJob(autoFinalize, autoDismiss), NoCoroutine, Idle, false, false, 0, 0, true, false)
  }

  // ------------------------------------------------------------------
  // What every reachable state satisfies

  predicate Active(st: Status) {
    st.Running? || st.Ready?
  }

  /** The flags follow the place of the coroutine. */
  predicate PlaceInv(s: State) {
    var j := s.job;
    match s.place
    case NoCoroutine =>
      && !j.started && !j.busy && !s.timer && !s.exitScheduled
      && (j.status.Created? || j.status.Aborting? || j.status.Concluded? || j.status.Null?)
      && (j.deferred <==> j.status.Null?) && (j.paused <==> !j.status.Null?)
    case Finished =>
      && j.started && j.deferred && !s.timer && !j.paused
      && (s.exitScheduled <==> !Completed(j.status))
      && (s.exitScheduled ==> Active(j.status) && j.busy)
    case Yielded =>
      j.started && !j.deferred && !s.exitScheduled && !j.busy && !j.paused && Active(j.status)
    case YieldedPaused(st) =>
      && j.started && !j.deferred && !s.exitScheduled && !j.busy && j.paused && !s.timer
      && Active(st) && j.status == PausedForm(st)
    case WokenPaused(st) =>
      && j.started && !j.deferred && !s.exitScheduled && j.busy && j.paused && !s.timer
      && Active(st) && j.status == PausedForm(st)
    case _ =>
      j.started && !j.deferred && !s.exitScheduled && j.busy && !j.paused && !s.timer && Active(j.status)
  }

  /** Every pause is owed to the job not having started, to the user, or to a drained section. */
  predicate PauseInv(s: State) {
    s.job.pauseCount == (if s.job.started then 0 else 1) + (if s.job.userPaused then 1 else 0) + s.drains
  }

  /**
    A job does not sleep over a pause that somebody asks for, and stays suspended in a
    pause only while somebody asks for it, or the job is being killed.
  */
  predicate Prompt(s: State) {
    && (s.place.Yielded? ==> s.job.pauseCount <= 0)
    && (s.place.YieldedPaused? ==> s.job.pauseCount > 0 || s.job.forceCancel)
  }

  predicate ResultInv(s: State) {
    && (s.job.forceCancel ==> s.job.cancelled)
    && (s.job.status.Created? || s.job.status.Waiting? || s.job.status.Pending? ==> s.job.ret == 0)
    && (s.job.status.Aborting? ==> s.job.ret != 0)
    && !s.job.status.Undefined?
  }

  /** The reference made at creation is held until the job is dismissed. */
  predicate RefInv(s: State) {
    && s.job.refcnt == s.extraRefs + (if s.job.status.Null? then 0 else 1)
    && (s.inTxn <==> !s.job.status.Concluded? && !s.job.status.Null?)
  }

  predicate MainInv(s: State) {
    match s.main
    case Idle => true
    case InUserResume(_) => s.job.userPaused && !s.job.status.Null?
    case InCancel(force, byGroup) =>
      if byGroup then force && s.inTxn else Accepts(Cancel, s.job.status)
    case InCancelResume(force, byGroup, _) =>
      && s.job.userPaused
      && (!s.job.started ==> force)
      && (if byGroup then force && s.inTxn else Accepts(Cancel, s.job.status))
  }

  predicate Inv(s: State) {
    PlaceInv(s) && PauseInv(s) && Prompt(s) && ResultInv(s) && RefInv(s) && MainInv(s)
  }

  lemma InitInv(autoFinalize: bool, autoDismiss: bool)
    ensures Inv(Init(autoFinalize, autoDismiss))
  {
  }

  lemma CoAssertsHold(s: State, a: CoAction)
    requires PlaceInv(s) && ResultInv(s) && CoEnabled(s, a)
    ensures CoAsserts(s, a)
  {
  }

  lemma AnyAssertsHold(s: State, a: AnyAction)
    requires PlaceInv(s) && PauseInv(s) && RefInv(s) && AnyEnabled(s, a)
    ensures AnyAsserts(s, a)
  {
  }

  /** An error was recorded, and the pause that goes with it has been taken away. */
  predicate Orphaned(s: State) {
    s.ioError && !s.job.userPaused
  }

  lemma UserAssertsHold(s: State, a: UserAction)
    requires Inv(s) && UserEnabled(s, a)
    ensures UserAsserts(s, a) <==> !(a.Cont? && Orphaned(s))
  {
  }

  lemma EndAssertsHold(s: State, a: EndAction)
    requires PlaceInv(s) && ResultInv(s) && RefInv(s) && EndEnabled(s, a)
    ensures EndAsserts(s, a)
  {
  }

  lemma CoStepInv(s: State, a: CoAction)
    requires Inv(s) && CoEnabled(s, a) && CoAsserts(s, a)
    ensures Inv(CoNext(s, a))
  {
    if a.StopOnError? {
      StopOnErrorInv(s);
    } else if a.Yield? || a.BecomeReady? || a.Finish? {
      DriverStepInv(s, a);
    } else {
      PauseStepInv(s, a);
    }
  }

  lemma StopOnErrorInv(s: State)
    requires Inv(s) && CoEnabled(s, StopOnError) && CoAsserts(s, StopOnError)
    ensures Inv(CoNext(s, StopOnError))
  {
  }

  lemma DriverStepInv(s: State, a: CoAction)
    requires a.Yield? || a.BecomeReady? || a.Finish?
    requires Inv(s) && CoEnabled(s, a) && CoAsserts(s, a)
    ensures Inv(CoNext(s, a))
  {
  }

  lemma PauseStepInv(s: State, a: CoAction)
    requires a.EnterRun? || a.PausePoint? || a.PauseReturn? || a.ResumeReturn? || a.Continue?
    requires Inv(s) && CoEnabled(s, a) && CoAsserts(s, a)
    ensures Inv(CoNext(s, a))
  {
  }

  /** Waking keeps everything, also when the pause it ends is not owed any more. */
  lemma WakeInv(s: State)
    requires PlaceInv(s) && PauseInv(s) && ResultInv(s) && RefInv(s) && MainInv(s) && WakeAsserts(s)
    ensures Inv(Wake(s))
  {
  }

  lemma AddPauseInv(s: State)
    requires PlaceInv(s) && Prompt(s) && ResultInv(s) && RefInv(s) && MainInv(s)
    requires !s.job.paused ==> WakeAsserts(s)
    requires PauseInv(s.(job := s.job.(pauseCount := s.job.pauseCount + 1)))
    ensures Inv(AddPause(s))
  {
    var t := s.(job := s.job.(pauseCount := s.job.pauseCount + 1));
    if !t.job.paused {
      WakeInv(t);
    }
  }

  lemma DropPauseInv(s: State)
    requires PlaceInv(s) && Prompt(s) && ResultInv(s) && RefInv(s) && MainInv(s)
    requires s.job.pauseCount > 0 && WakeAsserts(s)
    requires PauseInv(s.(job := s.job.(pauseCount := s.job.pauseCount - 1)))
    ensures Inv(DropPause(s))
  {
    var t := s.(job := s.job.(pauseCount := s.job.pauseCount - 1));
    if t.job.pauseCount == 0 && !t.timer {
      WakeInv(t);
    }
  }

  lemma TimerInv(s: State)
    requires Inv(s) && s.timer && WakeAsserts(s)
    ensures Inv(Wake(s.(timer := false)))
  {
    WakeInv(s.(timer := false));
  }

  lemma DrainBeginInv(s: State)
    requires Inv(s) && (!s.job.paused ==> WakeAsserts(s))
    ensures Inv(AddPause(s.(drains := s.drains + 1)))
  {
    AddPauseInv(s.(drains := s.drains + 1));
  }

  lemma DrainEndInv(s: State)
    requires Inv(s) && s.drains > 0 && s.job.pauseCount > 0 && WakeAsserts(s)
    ensures Inv(DropPause(s.(drains := s.drains - 1)))
  {
    DropPauseInv(s.(drains := s.drains - 1));
  }

  lemma RefsInv(s: State, a: AnyAction)
    requires a.Ref? || a.Unref?
    requires Inv(s) && AnyEnabled(s, a) && AnyAsserts(s, a)
    ensures Inv(AnyNext(s, a))
  {
  }

  lemma AnyStepInv(s: State, a: AnyAction)
    requires Inv(s) && AnyEnabled(s, a) && AnyAsserts(s, a)
    ensures Inv(AnyNext(s, a))
  {
    match a
    case TimerFires => TimerInv(s);
    case Enter => WakeInv(s);
    case DrainBegin => DrainBeginInv(s);
    case DrainEnd => DrainEndInv(s);
    case Ref => RefsInv(s, a);
    case Unref => RefsInv(s, a);
  }

  lemma DismissInv(s: State)
    requires Inv(s) && s.main.Idle? && s.job.status.Concluded? && DismissAsserts(s)
    ensures Inv(DoDismiss(s))
  {
  }

  /** A cancelled job that never started fails. */
  lemma UnstartedCancelInv(s: State)
    requires PlaceInv(s) && PauseInv(s) && ResultInv(s) && RefInv(s)
    requires s.main.Idle? && !s.job.started && s.job.forceCancel && CompleteAsserts(s)
    ensures Inv(Complete(s)) && Complete(s).job.ret != 0
  {
  }

  lemma EarlyFailInv(s: State)
    requires Inv(s) && s.main.Idle? && s.job.status.Created? && DismissAsserts(s)
    ensures Inv(DoDismiss(s))
  {
  }

  /** An unstarted job that is cancelled completes with an error; a started one is entered. */
  lemma CancelEndInv(s: State, force: bool, byGroup: bool)
    requires PlaceInv(s) && PauseInv(s) && ResultInv(s) && RefInv(s)
    requires s.main.InCancel? || s.main.InCancelResume?
    requires s.place.Yielded? ==> s.job.pauseCount <= 0
    requires !s.job.started ==> force
    requires if byGroup then force && s.inTxn else Accepts(Cancel, s.job.status)
    requires CancelEndAsserts(s, force, byGroup)
    ensures Inv(CancelEnd(s, force, byGroup))
  {
    var t := Flag(s, force).(main := Idle);
    if !byGroup {
      if !t.job.started {
        UnstartedCancelInv(t);
      } else if !t.job.deferred {
        WakeInv(t);
      }
    }
  }

  lemma StartInv(s: State)
    requires Inv(s) && UserEnabled(s, Start) && UserAsserts(s, Start)
    ensures Inv(UserNext(s, Start))
  {
  }

  /** Steps that only change what the main loop is doing, or the I/O status. */
  lemma QuietInv(s: State, a: UserAction)
    requires Inv(s) && UserEnabled(s, a) && UserAsserts(s, a)
    requires a.UserResume? || a.ResetIostatus? || a.Cont? || a.CancelBegin?
    ensures Inv(UserNext(s, a))
  {
  }

  lemma UserPauseInv(s: State)
    requires Inv(s) && UserEnabled(s, UserPause) && UserAsserts(s, UserPause)
    ensures Inv(UserNext(s, UserPause))
  {
    AddPauseInv(s.(job := s.job.(userPaused := true)));
  }

  lemma UserResumeReturnInv(s: State)
    requires Inv(s) && UserEnabled(s, UserResumeReturn) && UserAsserts(s, UserResumeReturn)
    ensures Inv(UserNext(s, UserResumeReturn))
  {
    DropPauseInv(s.(main := Idle, job := s.job.(userPaused := false)));
  }

  lemma CancelReturnInv(s: State, reply: bool)
    requires Inv(s) && UserEnabled(s, CancelReturn(reply)) && UserAsserts(s, CancelReturn(reply))
    ensures Inv(UserNext(s, CancelReturn(reply)))
  {
    if !s.job.userPaused {
      CancelEndInv(s, reply, s.main.byGroup);
    }
  }

  lemma CancelResumeReturnInv(s: State)
    requires Inv(s) && UserEnabled(s, CancelResumeReturn) && UserAsserts(s, CancelResumeReturn)
    ensures Inv(UserNext(s, CancelResumeReturn))
  {
    CancelEndInv(Unpaused(s), s.main.force, s.main.byGroup);
  }

  lemma UserStepInv(s: State, a: UserAction)
    requires Inv(s) && UserEnabled(s, a) && UserAsserts(s, a)
    ensures Inv(UserNext(s, a))
  {
    match a
    case Start => StartInv(s);
    case UserPause => UserPauseInv(s);
    case UserResume => QuietInv(s, a);
    case ResetIostatus => QuietInv(s, a);
    case Cont => QuietInv(s, a);
    case UserResumeReturn => UserResumeReturnInv(s);
    case CancelBegin(_, _) => QuietInv(s, a);
    case CancelReturn(reply) => CancelReturnInv(s, reply);
    case CancelResumeReturn => CancelResumeReturnInv(s);
    case Dismiss => DismissInv(s);
    case EarlyFail => EarlyFailInv(s);
  }

  lemma ExitInv(s: State)
    requires Inv(s) && s.main.Idle? && s.exitScheduled && CompleteAsserts(Quiescent(s))
    ensures Inv(Complete(Quiescent(s)))
  {
  }

  lemma ConcludeInv(s: State)
    requires Inv(s) && EndEnabled(s, FinalizeSingle) && FinalizeAsserts(s)
    ensures Inv(s.(inTxn := false, job := Update(s.job).Move(Concluded)))
  {
  }

  lemma FinalizedInv(s: State)
    requires Inv(s) && EndEnabled(s, FinalizeSingle) && FinalizeAsserts(s)
    ensures Inv(Finalized(s))
  {
    ConcludeInv(s);
    var t := s.(inTxn := false, job := Update(s.job).Move(Concluded));
    if t.job.autoDismiss || !t.job.started {
      DismissInv(t);
    }
  }

  lemma EndStepInv(s: State, a: EndAction)
    requires Inv(s) && EndEnabled(s, a) && EndAsserts(s, a)
    ensures Inv(EndNext(s, a))
  {
    match a
    case Exit => ExitInv(s);
    case ToPending => ToPendingInv(s);
    case Prepare(r) => PrepareInv(s, r);
    case FinalizeSingle => FinalizedInv(s);
  }

  lemma ToPendingInv(s: State)
    requires Inv(s) && EndEnabled(s, ToPending) && EndAsserts(s, ToPending)
    ensures Inv(EndNext(s, ToPending))
  {
  }

  lemma PrepareInv(s: State, r: int)
    requires Inv(s) && EndEnabled(s, Prepare(r)) && EndAsserts(s, Prepare(r))
    ensures Inv(EndNext(s, Prepare(r)))
  {
  }

  // ------------------------------------------------------------------
  // Runs

  /** The one assertion that can fail, and exactly when. */
  lemma AssertsHold(s: State, a: Action)
    requires Inv(s) && Enabled(s, a)
    ensures Asserts(s, a) <==> !(a == ByUser(Cont) && Orphaned(s))
  {
    match a
    case ByCoroutine(c) => CoAssertsHold(s, c);
    case ByAny(c) => AnyAssertsHold(s, c);
    case ByUser(c) => UserAssertsHold(s, c);
    case ByEnd(c) => EndAssertsHold(s, c);
  }

  lemma StepInv(s: State, a: Action)
    requires Inv(s) && Enabled(s, a) && Asserts(s, a)
    ensures Inv(Next(s, a))
  {
    match a
    case ByCoroutine(c) => CoStepInv(s, c);
    case ByAny(c) => AnyStepInv(s, c);
    case ByUser(c) => UserStepInv(s, c);
    case ByEnd(c) => EndStepInv(s, c);
  }

  /**
    What `Enabled` asks of others is exactly what the assertions need: a driver that turns
    a cancellation of an unstarted job into a soft one, paused by the user or not, that
    announces readiness twice, or a group that finalizes a waiting job it has not killed,
    would trip one.
  */
  lemma ContractsAreExact(s: State, reply: bool)
    requires Inv(s) && s.job.refcnt > 0
    ensures s.main.InCancel? && !s.job.userPaused ==>
      (UserAsserts(s, CancelReturn(reply)) <==> s.main.byGroup || s.job.started || reply || s.job.forceCancel)
    ensures s.main.InCancel? && s.job.userPaused ==>
      var t := s.(main := InCancelResume(reply, s.main.byGroup, true));
      (UserAsserts(t, CancelResumeReturn) <==> s.main.byGroup || s.job.started || reply || s.job.forceCancel)
    ensures s.place.InDriver? ==> (CoAsserts(s, BecomeReady) <==> !s.job.status.Ready?)
    ensures s.main.Idle? && Completed(s.job.status) && s.inTxn ==>
      (EndAsserts(s, FinalizeSingle) <==> EndEnabled(s, FinalizeSingle))
  {
    if s.main.Idle? && EndEnabled(s, FinalizeSingle) {
      EndAssertsHold(s, FinalizeSingle);
    }
  }

  /** A run, as far as no assertion has failed. */
  predicate IsRun(states: seq<State>, actions: seq<Action>) {
    && |states| == |actions| + 1
    && (exists f, d :: states[0] == Init(f, d))
    && forall i :: 0 <= i < |actions| ==> IsStep(states[i], actions[i], states[i + 1])
  }

  predicate IsStep(s: State, a: Action, t: State) {
    Enabled(s, a) && Asserts(s, a) && t == Next(s, a)
  }

  lemma {:induction false} RunInv(states: seq<State>, actions: seq<Action>, n: nat)
    requires IsRun(states, actions) && n < |states|
    ensures Inv(states[n])
  {
    if n == 0 {
      var f, d :| states[0] == Init(f, d);
      InitInv(f, d);
    } else {
      RunInv(states, actions, n - 1);
      assert IsStep(states[n - 1], actions[n - 1], states[n - 1 + 1]);
      StepInv(states[n - 1], actions[n - 1]);
    }
  }

  /**
    In every state of every run: whatever step comes next passes all its assertions, but
    for qmp_cont on an orphaned error; and pauses and references balance.
  */
  lemma RunsAreSafe(states: seq<State>, actions: seq<Action>, n: nat, a: Action)
    requires IsRun(states, actions) && n < |states|
    ensures PauseInv(states[n]) && RefInv(states[n]) && Prompt(states[n])
    ensures Enabled(states[n], a) ==> (Asserts(states[n], a) <==> !(a == ByUser(Cont) && Orphaned(states[n])))
  {
    RunInv(states, actions, n);
    if Enabled(states[n], a) {
      AssertsHold(states[n], a);
    }
  }

  // ------------------------------------------------------------------
  // Errors that lose their pause

  /** The end of a resume or of a cancellation takes the user's pause away after a new error came in. */
  predicate Overtaken(s: State, a: Action) {
    s.ioError && (a == ByUser(UserResumeReturn) || a == ByUser(CancelResumeReturn))
  }

  /** What the error status depends on. */
  predicate SameIo(s: State, t: State) {
    t.main == s.main && t.ioError == s.ioError && t.job.userPaused == s.job.userPaused
  }

  lemma CoIo(s: State, a: CoAction)
    requires CoEnabled(s, a) && CoAsserts(s, a)
    ensures !a.StopOnError? ==> SameIo(s, CoNext(s, a))
    ensures CoNext(s, a).main == s.main
    ensures a.StopOnError? ==> CoNext(s, a).ioError && CoNext(s, a).job.userPaused
  {
  }

  lemma AnyIo(s: State, a: AnyAction)
    requires AnyEnabled(s, a) && AnyAsserts(s, a)
    ensures SameIo(s, AnyNext(s, a))
  {
  }

  lemma EndIo(s: State, a: EndAction)
    requires EndEnabled(s, a) && EndAsserts(s, a)
    ensures SameIo(s, EndNext(s, a))
  {
    match a
    case Exit => CompleteIo(Quiescent(s));
    case ToPending =>
    case Prepare(r) => UpdateIo(s.job.(ret := r));
    case FinalizeSingle => FinalizedIo(s);
  }

  lemma UpdateIo(j: Job)
    requires UpdateAsserts(j)
    ensures Update(j).userPaused == j.userPaused && Update(j).refcnt == j.refcnt
  {
  }

  lemma CompleteIo(s: State)
    requires CompleteAsserts(s)
    ensures SameIo(s, Complete(s)) && Complete(s).job.refcnt == s.job.refcnt
  {
    UpdateIo(s.job);
  }

  lemma FinalizedIo(s: State)
    requires FinalizeAsserts(s)
    ensures SameIo(s, Finalized(s))
  {
    UpdateIo(s.job);
  }

  lemma CancelEndIo(s: State, force: bool, byGroup: bool)
    requires CancelEndAsserts(s, force, byGroup)
    ensures SameIo(s.(main := Idle), CancelEnd(s, force, byGroup))
    ensures CancelEnd(s, force, byGroup).job.refcnt == s.job.refcnt
  {
    var t := Flag(s, force).(main := Idle);
    if !byGroup && !t.job.started {
      CompleteIo(t);
    }
  }

  lemma CancelIo(s: State, a: UserAction)
    requires UserEnabled(s, a) && UserAsserts(s, a)
    ensures a.CancelReturn? && !s.job.userPaused ==> SameIo(s.(main := Idle), UserNext(s, a))
    ensures a.CancelResumeReturn? ==>
      SameIo(Unpaused(s).(main := Idle), UserNext(s, a)) && UserNext(s, a).job.refcnt == s.job.refcnt
  {
    if a.CancelReturn? && !s.job.userPaused {
      CancelEndIo(s, a.reply, s.main.byGroup);
    } else if a.CancelResumeReturn? {
      CancelEndIo(Unpaused(s), s.main.force, s.main.byGroup);
    }
  }

  lemma OrphanedByUser(s: State, a: UserAction)
    requires MainInv(s) && UserEnabled(s, a) && UserAsserts(s, a) && !Orphaned(s)
    ensures Orphaned(UserNext(s, a)) <==> Overtaken(s, ByUser(a))
  {
    CancelIo(s, a);
  }

  /** A step orphans an error exactly if it is such an end. */
  lemma OrphanedStep(s: State, a: Action)
    requires Inv(s) && Enabled(s, a) && Asserts(s, a) && !Orphaned(s)
    ensures Orphaned(Next(s, a)) <==> Overtaken(s, a)
  {
    match a
    case ByCoroutine(c) => CoIo(s, c);
    case ByAny(c) => AnyIo(s, c);
    case ByUser(c) => OrphanedByUser(s, c);
    case ByEnd(c) => EndIo(s, c);
  }

  lemma ResumeIo(s: State)
    requires UserEnabled(s, UserResumeReturn) && UserAsserts(s, UserResumeReturn)
    ensures UserNext(s, UserResumeReturn).main.Idle? && UserNext(s, UserResumeReturn).job.refcnt == s.job.refcnt
  {
  }

  /** And then qmp_cont, which may come next, fails its assertion. */
  lemma OvertakenTrips(s: State, a: Action)
    requires Inv(s) && Enabled(s, a) && Asserts(s, a) && Overtaken(s, a)
    ensures Enabled(Next(s, a), ByUser(Cont)) && !Asserts(Next(s, a), ByUser(Cont))
  {
    OrphanedByUser(s, a.user);
    if a.user.UserResumeReturn? {
      ResumeIo(s);
    } else {
      CancelIo(s, a.user);
    }
  }

  lemma {:induction false} NeverOrphaned(states: seq<State>, actions: seq<Action>, n: nat)
    requires IsRun(states, actions) && n < |states|
    requires forall i :: 0 <= i < n ==> !Overtaken(states[i], actions[i])
    ensures !Orphaned(states[n])
  {
    if n > 0 {
      NeverOrphaned(states, actions, n - 1);
      RunInv(states, actions, n - 1);
      assert IsStep(states[n - 1], actions[n - 1], states[n - 1 + 1]);
      OrphanedStep(states[n - 1], actions[n - 1]);
    }
  }

  /** Some step that can come next would fail an assertion. */
  ghost predicate Trips(s: State) {
    exists a :: Enabled(s, a) && !Asserts(s, a)
  }

  /** The assertions of the job layer are safe along a run exactly if no such end is overtaken by an error. */
  lemma SafeUnlessOvertaken(states: seq<State>, actions: seq<Action>)
    requires IsRun(states, actions)
    ensures (forall n :: 0 <= n < |states| ==> !Trips(states[n])) <==>
            (forall i :: 0 <= i < |actions| ==> !Overtaken(states[i], actions[i]))
  {
    if forall i :: 0 <= i < |actions| ==> !Overtaken(states[i], actions[i]) {
      forall n | 0 <= n < |states| ensures !Trips(states[n]) {
        NeverOrphaned(states, actions, n);
        forall a ensures Enabled(states[n], a) ==> Asserts(states[n], a) {
          RunsAreSafe(states, actions, n, a);
        }
      }
    } else {
      var i :| 0 <= i < |actions| && Overtaken(states[i], actions[i]);
      RunInv(states, actions, i);
      assert IsStep(states[i], actions[i], states[i + 1]);
      OvertakenTrips(states[i], actions[i]);
      assert Trips(states[i + 1]);
    }
  }

  /** The user_resume callback has reset the I/O status and has not returned yet. */
  predicate ResetDone(m: MainLoop) {
    (m.InUserResume? || m.InCancelResume?) && m.reset
  }

  lemma BeginsIdle(states: seq<State>, actions: seq<Action>)
    requires IsRun(states, actions)
    ensures states[0].main.Idle?
  {
    var f, d :| states[0] == Init(f, d);
  }

  lemma UserResetStep(s: State, a: UserAction)
    requires UserEnabled(s, a) && UserAsserts(s, a) && ResetDone(UserNext(s, a).main)
    ensures ResetDone(s.main) || (a == ResetIostatus && !UserNext(s, a).ioError)
    ensures UserNext(s, a).ioError ==> s.ioError
  {
    CancelIo(s, a);
  }

  lemma ResetDoneStep(s: State, a: Action)
    requires Enabled(s, a) && Asserts(s, a) && ResetDone(Next(s, a).main)
    ensures ResetDone(s.main) || (a == ByUser(ResetIostatus) && !Next(s, a).ioError)
    ensures Next(s, a).ioError ==> s.ioError || a == ByCoroutine(StopOnError)
  {
    match a
    case ByCoroutine(c) => CoIo(s, c);
    case ByAny(c) => AnyIo(s, c);
    case ByUser(c) => UserResetStep(s, c);
    case ByEnd(c) => EndIo(s, c);
  }

  lemma {:induction false} ResetBefore(states: seq<State>, actions: seq<Action>, i: nat) returns (j: nat)
    requires IsRun(states, actions) && i < |states| && ResetDone(states[i].main)
    ensures j < i && actions[j] == ByUser(ResetIostatus) && forall x :: j < x <= i ==> ResetDone(states[x].main)
  {
    BeginsIdle(states, actions);
    assert IsStep(states[i - 1], actions[i - 1], states[i - 1 + 1]);
    ResetDoneStep(states[i - 1], actions[i - 1]);
    if ResetDone(states[i - 1].main) {
      j := ResetBefore(states, actions, i - 1);
    } else {
      j := i - 1;
    }
  }

  /** An error stop came after the reset that led to state `i`, while the mutex was free. */
  ghost predicate StoppedSinceReset(states: seq<State>, actions: seq<Action>, i: nat)
    requires |states| == |actions| + 1 && i < |states|
  {
    exists m :: 0 <= m < i && actions[m] == ByCoroutine(StopOnError) && forall x :: m <= x <= i ==> ResetDone(states[x].main)
  }

  /** Between the reset and the return an error stays recorded. */
  lemma ErrorStays(s: State, a: Action)
    requires Enabled(s, a) && Asserts(s, a) && ResetDone(s.main) && ResetDone(Next(s, a).main)
    ensures s.ioError || a == ByCoroutine(StopOnError) ==> Next(s, a).ioError
  {
    match a
    case ByCoroutine(c) => CoIo(s, c);
    case ByAny(c) => AnyIo(s, c);
    case ByUser(c) => CancelIo(s, c);
    case ByEnd(c) => EndIo(s, c);
  }

  lemma {:induction false} ErrorKept(states: seq<State>, actions: seq<Action>, m: nat, i: nat)
    requires IsRun(states, actions) && m < i < |states| && actions[m] == ByCoroutine(StopOnError)
    requires forall x :: m <= x <= i ==> ResetDone(states[x].main)
    ensures states[i].ioError
  {
    assert IsStep(states[i - 1], actions[i - 1], states[i - 1 + 1]);
    ErrorStays(states[i - 1], actions[i - 1]);
    if m < i - 1 {
      ErrorKept(states, actions, m, i - 1);
    }
  }

  lemma {:induction false} ErrorStopped(states: seq<State>, actions: seq<Action>, i: nat)
    requires IsRun(states, actions) && i < |states| && ResetDone(states[i].main) && states[i].ioError
    ensures StoppedSinceReset(states, actions, i)
  {
    BeginsIdle(states, actions);
    assert IsStep(states[i - 1], actions[i - 1], states[i - 1 + 1]);
    ResetDoneStep(states[i - 1], actions[i - 1]);
    if states[i - 1].ioError {
      ErrorStopped(states, actions, i - 1);
      var m :| 0 <= m < i - 1 && actions[m] == ByCoroutine(StopOnError) &&
        forall x :: m <= x <= i - 1 ==> ResetDone(states[x].main);
      assert forall x :: m <= x <= i ==> ResetDone(states[x].main);
    } else {
      assert actions[i - 1] == ByCoroutine(StopOnError);
    }
  }

  /**
    The end of a resume or of a cancellation is overtaken exactly if the job has stopped on
    an error since the reset, which came before.
  */
  lemma OvertakenByAnError(states: seq<State>, actions: seq<Action>, i: nat) returns (j: nat)
    requires IsRun(states, actions) && i < |actions|
    requires actions[i] == ByUser(UserResumeReturn) || actions[i] == ByUser(CancelResumeReturn)
    ensures Overtaken(states[i], actions[i]) <==> StoppedSinceReset(states, actions, i)
    ensures j < i && actions[j] == ByUser(ResetIostatus) && forall x :: j < x <= i ==> ResetDone(states[x].main)
  {
    assert IsStep(states[i], actions[i], states[i + 1]);
    j := ResetBefore(states, actions, i);
    if states[i].ioError {
      ErrorStopped(states, actions, i);
    }
    if StoppedSinceReset(states, actions, i) {
      var m :| 0 <= m < i && actions[m] == ByCoroutine(StopOnError) && forall x :: m <= x <= i ==> ResetDone(states[x].main);
      ErrorKept(states, actions, m, i);
    }
  }

  /** A run with one more step. */
  lemma RunOn(states: seq<State>, actions: seq<Action>, a: Action) returns (s: State, ss: seq<State>, aa: seq<Action>)
    requires IsRun(states, actions) && Enabled(states[|actions|], a) && Asserts(states[|actions|], a)
    ensures s == Next(states[|actions|], a) && ss == states + [s] && aa == actions + [a]
    ensures IsRun(ss, aa) && ss[|aa|] == s && |aa| == |actions| + 1
  {
    s := Next(states[|actions|], a);
    ss, aa := states + [s], actions + [a];
    forall i | 0 <= i < |aa| ensures IsStep(ss[i], aa[i], ss[i + 1]) {
      if i < |actions| {
        assert IsStep(states[i], actions[i], states[i + 1]);
      }
    }
  }

  /** A job that runs in its driver. */
  lemma RunToDriver() returns (s: State, states: seq<State>, actions: seq<Action>)
    ensures IsRun(states, actions) && states[|actions|] == s
    ensures s == Init(true, true).(place := InDriver, job := s.job) && ByAny(Enter) !in actions
    ensures s.job == NewJob(true, true).(status := Running, started := true, busy := true, paused := false, pauseCount := 0)
  {
    s := Init(true, true);
    states, actions := [s], [];
    s, states, actions := RunOn(states, actions, ByUser(Start));
    s, states, actions := RunOn(states, actions, ByCoroutine(EnterRun));
  }

  /** The user resumes the job; its I/O status has just been reset. */
  lemma RunToReset() returns (s: State, states: seq<State>, actions: seq<Action>)
    ensures IsRun(states, actions) && states[|actions|] == s
    ensures s.place.InDriver? && s.main == InUserResume(true) && s.job.userPaused && !s.job.paused
    ensures s.job.pauseCount == 1 && s.job.refcnt == 1 && s.job.busy
  {
    s, states, actions := RunToDriver();
    s, states, actions := RunOn(states, actions, ByUser(UserPause));
    s, states, actions := RunOn(states, actions, ByUser(UserResume));
    s, states, actions := RunOn(states, actions, ByUser(ResetIostatus));
  }

  /** Such a run exists: the error comes while job_user_resume_locked has released the mutex, and qmp_cont follows. */
  lemma AnErrorLosesItsPause() returns (s: State, states: seq<State>, actions: seq<Action>)
    ensures IsRun(states, actions) && states[|actions|] == s
    ensures Orphaned(s) && Enabled(s, ByUser(Cont)) && !Asserts(s, ByUser(Cont))
  {
    s, states, actions := RunToReset();
    s, states, actions := RunOn(states, actions, ByCoroutine(StopOnError));
    RunInv(states, actions, |actions|);
    s, states, actions := RunOn(states, actions, ByUser(UserResumeReturn));
  }

  predicate Forward(s: State, t: State) {
    && (Completed(s.job.status) ==> Completed(t.job.status))
    && (s.job.status.Null? ==> t.job.status.Null?)
    && (s.job.deferred ==> t.job.deferred)
  }

  lemma CoForward(s: State, a: CoAction)
    requires PlaceInv(s) && CoEnabled(s, a) && CoAsserts(s, a)
    ensures Forward(s, CoNext(s, a))
  {
  }

  lemma AnyForward(s: State, a: AnyAction)
    requires AnyEnabled(s, a) && AnyAsserts(s, a)
    ensures Forward(s, AnyNext(s, a))
  {
  }

  lemma CancelEndForward(s: State, force: bool, byGroup: bool)
    requires CancelEndAsserts(s, force, byGroup)
    ensures Forward(s, CancelEnd(s, force, byGroup))
  {
    var t := Flag(s, force).(main := Idle);
    if !byGroup {
      if !t.job.started {
        CompleteForward(t);
      } else if !t.job.deferred {
        WakeForward(t);
      }
    }
  }

  lemma WakeForward(s: State)
    requires WakeAsserts(s)
    ensures Forward(s, Wake(s))
  {
  }

  lemma UserForward(s: State, a: UserAction)
    requires UserEnabled(s, a) && UserAsserts(s, a)
    ensures Forward(s, UserNext(s, a))
  {
    if a.CancelReturn? {
      if !s.job.userPaused {
        CancelEndForward(s, a.reply, s.main.byGroup);
      }
    } else if a.CancelResumeReturn? {
      CancelEndForward(Unpaused(s), s.main.force, s.main.byGroup);
    }
  }

  lemma EndForward(s: State, a: EndAction)
    requires EndEnabled(s, a) && EndAsserts(s, a)
    ensures Forward(s, EndNext(s, a))
  {
    match a
    case Exit => CompleteForward(Quiescent(s));
    case ToPending => PendingForward(s);
    case Prepare(r) => UpdateForward(s.job.(ret := r));
    case FinalizeSingle => FinalizedForward(s);
  }

  lemma PendingForward(s: State)
    requires EndEnabled(s, ToPending) && EndAsserts(s, ToPending)
    ensures Forward(s, EndNext(s, ToPending))
  {
  }

  lemma UpdateForward(j: Job)
    requires UpdateAsserts(j) && Completed(j.status)
    ensures Completed(Update(j).status) && Update(j).deferred == j.deferred && (j.status.Null? ==> Update(j).status.Null?)
  {
  }

  lemma CompleteForward(s: State)
    requires CompleteAsserts(s)
    ensures Forward(s, Complete(s)) && Completed(Complete(s).job.status)
  {
  }

  lemma FinalizedForward(s: State)
    requires FinalizeAsserts(s)
    ensures Forward(s, Finalized(s)) && Completed(Finalized(s).job.status)
  {
  }

  lemma StepForward(s: State, a: Action)
    requires Inv(s) && Enabled(s, a) && Asserts(s, a)
    ensures Forward(s, Next(s, a))
  {
    match a
    case ByCoroutine(c) => CoForward(s, c);
    case ByAny(c) => AnyForward(s, c);
    case ByUser(c) => UserForward(s, c);
    case ByEnd(c) => EndForward(s, c);
  }

  /**
    Completion, dismissal and deferral to the main loop are final.  With `RefInv`:
    the reference made at creation is dropped once, by the one dismissal.
  */
  lemma {:induction false} RunsGoForward(states: seq<State>, actions: seq<Action>, i: nat, k: nat)
    requires IsRun(states, actions) && i <= k < |states|
    ensures Forward(states[i], states[k])
    decreases k - i
  {
    if i < k {
      RunInv(states, actions, i);
      assert IsStep(states[i], actions[i], states[i + 1]);
      StepForward(states[i], actions[i]);
      RunsGoForward(states, actions, i + 1, k);
    }
  }

  // ------------------------------------------------------------------
  // Waking

  predicate IsWoken(p: Place) {
    p.Woken? || p.WokenPaused?
  }

  /** The step from `s` to `t` applies aio_co_wake to the coroutine. */
  predicate Wakes(s: State, t: State) {
    !IsWoken(s.place) && IsWoken(t.place)
  }

  lemma UserWake(s: State, a: UserAction)
    requires UserEnabled(s, a) && UserAsserts(s, a)
    ensures Wakes(s, UserNext(s, a)) ==> Suspended(s.place) && !s.job.deferred
  {
  }

  lemma WakeFromSuspended(s: State, a: Action)
    requires Inv(s) && Enabled(s, a) && Asserts(s, a)
    ensures Wakes(s, Next(s, a)) ==> Suspended(s.place) && !s.job.deferred
  {
    match a
    case ByCoroutine(c) =>
    case ByAny(c) =>
    case ByUser(c) => UserWake(s, c);
    case ByEnd(c) =>
  }

  lemma WokenStays(s: State, a: Action)
    requires Inv(s) && Enabled(s, a) && Asserts(s, a)
    requires IsWoken(s.place) && a != ByCoroutine(Continue)
    ensures Next(s, a).place == s.place
  {
    match a
    case ByCoroutine(c) =>
    case ByAny(c) =>
    case ByUser(c) => UserWokenStays(s, c);
    case ByEnd(c) => EndKeepsPlace(s, c);
  }

  lemma UserWokenStays(s: State, a: UserAction)
    requires PlaceInv(s) && UserEnabled(s, a) && UserAsserts(s, a) && IsWoken(s.place)
    ensures UserNext(s, a).place == s.place
  {
  }

  lemma {:induction false} WokenUntilItContinues(states: seq<State>, actions: seq<Action>, i: nat, k: nat)
    requires IsRun(states, actions) && i <= k < |states| && IsWoken(states[i].place)
    requires forall m :: i <= m < k ==> actions[m] != ByCoroutine(Continue)
    ensures IsWoken(states[k].place)
    decreases k - i
  {
    if i < k {
      RunInv(states, actions, i);
      assert IsStep(states[i], actions[i], states[i + 1]);
      WokenStays(states[i], actions[i]);
      WokenUntilItContinues(states, actions, i + 1, k);
    }
  }

  /** The coroutine is woken only while suspended, never after deferral, and not twice without running. */
  lemma NeverWokenTwice(states: seq<State>, actions: seq<Action>, i: nat, k: nat)
    requires IsRun(states, actions) && i < k < |actions|
    requires Wakes(states[i], states[i + 1]) && Wakes(states[k], states[k + 1])
    ensures Suspended(states[k].place) && !states[k].job.deferred
    ensures exists m :: i < m < k && actions[m] == ByCoroutine(Continue)
  {
    RunInv(states, actions, k);
    assert IsStep(states[k], actions[k], states[k + 1]);
    WakeFromSuspended(states[k], actions[k]);
    if forall m :: i < m < k ==> actions[m] != ByCoroutine(Continue) {
      WokenUntilItContinues(states, actions, i + 1, k);
    }
  }

  // ------------------------------------------------------------------
  // Drained sections

  /** The coroutine is where no driver code runs, other than driver->pause. */
  predicate Still(p: Place) {
    p.NoCoroutine? || p.Entering? || p.Yielded? || p.Woken? || p.InPauseCallback? || p.YieldedPaused?
  }

  /** job_cancel_locked is about to enter its job; the group does not. */
  predicate CancelEnters(s: State, a: UserAction) {
    match a
    case CancelReturn(_) => s.main.InCancel? && !s.main.byGroup && !s.job.userPaused
    case CancelResumeReturn => s.main.InCancelResume? && !s.main.byGroup
    case _ => false
  }

  /** The steps that take a job out of a drained section that has not ended. */
  predicate Leaves(s: State, a: Action) {
    || (s.place.YieldedPaused? && (a == ByAny(Enter) || (a.ByUser? && CancelEnters(s, a.user))))
    || (s.job.forceCancel && a.ByCoroutine? && (a.co.EnterRun? || a.co.Continue? || a.co.PauseReturn?))
  }

  lemma DrainedCoStep(s: State, a: CoAction)
    requires PlaceInv(s) && PauseInv(s) && Still(s.place) && s.drains > 0 && CoEnabled(s, a) && CoAsserts(s, a)
    ensures Still(CoNext(s, a).place) <==> !Leaves(s, ByCoroutine(a))
  {
  }

  lemma DrainedAnyStep(s: State, a: AnyAction)
    requires PlaceInv(s) && PauseInv(s) && Still(s.place) && s.drains > 0 && AnyEnabled(s, a) && AnyAsserts(s, a)
    requires AnyNext(s, a).drains > 0
    ensures Still(AnyNext(s, a).place) <==> !Leaves(s, ByAny(a))
  {
  }

  lemma DrainedCancelEnd(s: State, force: bool, byGroup: bool)
    requires PlaceInv(s) && Still(s.place) && CancelEndAsserts(s, force, byGroup)
    ensures Still(CancelEnd(s, force, byGroup).place) <==> byGroup || !s.place.YieldedPaused?
  {
  }

  lemma DrainedUserStep(s: State, a: UserAction)
    requires PlaceInv(s) && PauseInv(s) && MainInv(s) && Still(s.place) && s.drains > 0
    requires UserEnabled(s, a) && UserAsserts(s, a)
    ensures Still(UserNext(s, a).place) <==> !Leaves(s, ByUser(a))
  {
    if a.CancelReturn? {
      if !s.job.userPaused {
        DrainedCancelEnd(s, a.reply, s.main.byGroup);
      }
    } else if a.CancelResumeReturn? {
      DrainedCancelEnd(Unpaused(s), s.main.force, s.main.byGroup);
    }
  }

  /** While a job is drained, driver code comes next exactly by these steps. */
  lemma DrainedStep(s: State, a: Action)
    requires Inv(s) && Still(s.place) && s.drains > 0 && Enabled(s, a) && Asserts(s, a) && Next(s, a).drains > 0
    ensures Still(Next(s, a).place) <==> !Leaves(s, a)
  {
    match a
    case ByCoroutine(c) => DrainedCoStep(s, c);
    case ByAny(c) => DrainedAnyStep(s, c);
    case ByUser(c) => DrainedUserStep(s, c);
    case ByEnd(c) => EndKeepsPlace(s, c);
  }

  lemma EndKeepsPlace(s: State, a: EndAction)
    requires EndEnabled(s, a) && EndAsserts(s, a)
    ensures EndNext(s, a).place == s.place
  {
  }

  /** What holds of each step of a stretch of a run holds of the stretch. */
  lemma {:induction false} StillAlong(states: seq<State>, actions: seq<Action>, i: nat, k: nat)
    requires |states| == |actions| + 1 && i <= k < |states| && Still(states[i].place)
    requires forall m :: i <= m < k && Still(states[m].place) ==>
      (Still(states[m + 1].place) <==> !Leaves(states[m], actions[m]))
    ensures (forall m :: i <= m <= k ==> Still(states[m].place)) <==>
            (forall m :: i <= m < k ==> !Leaves(states[m], actions[m]))
    decreases k - i
  {
    if i < k {
      assert Still(states[i + 1].place) <==> !Leaves(states[i], actions[i]);
      if Still(states[i + 1].place) {
        StillAlong(states, actions, i + 1, k);
      }
    }
  }

  /**
    What child_job_drained_poll relies on, and exactly when it may: once a drained section
    has begun and the job is found not busy, no driver code runs until the section ends,
    whatever else happens, if and only if nobody enters the job while it is paused, by
    job_enter or by job_cancel, and a job that is being killed does not come to run.
  */
  lemma NoDriverCodeWhileDrained(states: seq<State>, actions: seq<Action>, i: nat, k: nat)
    requires IsRun(states, actions) && i <= k < |states|
    requires Still(states[i].place)
    requires forall m :: i <= m <= k ==> states[m].drains > 0
    ensures (forall m :: i <= m <= k ==> Still(states[m].place)) <==>
            (forall m :: i <= m < k ==> !Leaves(states[m], actions[m]))
  {
    forall m | i <= m < k && Still(states[m].place)
      ensures Still(states[m + 1].place) <==> !Leaves(states[m], actions[m])
    {
      RunInv(states, actions, m);
      assert IsStep(states[m], actions[m], states[m + 1]);
      DrainedStep(states[m], actions[m]);
    }
    StillAlong(states, actions, i, k);
  }

  /** A job that is not busy and not finished is such a job, started or not. */
  lemma NotBusyIsStill(s: State)
    requires Inv(s) && !s.job.busy && !Completed(s.job.status)
    ensures Still(s.place)
  {
  }

  /** What job_set_aio_context asserts. */
  predicate Parked(j: Job) {
    j.paused || Completed(j.status)
  }

  lemma QuiescentIsParked(s: State)
    requires Inv(s) && s.drains > 0 && (!s.job.busy || Completed(s.job.status))
    ensures Parked(s.job)
  {
  }

  /** In a drained section that has found the job quiescent, it may change its AioContext. */
  lemma DrainedMayMove(states: seq<State>, actions: seq<Action>, n: nat)
    requires IsRun(states, actions) && n < |states| && states[n].drains > 0
    requires !states[n].job.busy || Completed(states[n].job.status)
    ensures Parked(states[n].job)
  {
    RunInv(states, actions, n);
    QuiescentIsParked(states[n]);
  }

  /** And it goes on to, until it is started or comes back from its pause point. */
  lemma ParkedStep(s: State, a: Action)
    requires Inv(s) && Parked(s.job) && Enabled(s, a) && Asserts(s, a)
    ensures Parked(Next(s, a).job) <==>
      !(a == ByUser(Start) || (s.place.WokenPaused? && a == ByCoroutine(Continue)))
  {
    match a
    case ByCoroutine(c) => ParkedCoStep(s, c);
    case ByAny(c) => ParkedAnyStep(s, c);
    case ByUser(c) => ParkedUserStep(s, c);
    case ByEnd(c) => ParkedEndStep(s, c);
  }

  lemma ParkedCoStep(s: State, a: CoAction)
    requires PlaceInv(s) && Parked(s.job) && CoEnabled(s, a) && CoAsserts(s, a)
    ensures Parked(CoNext(s, a).job) <==> !(s.place.WokenPaused? && a.Continue?)
  {
  }

  lemma ParkedAnyStep(s: State, a: AnyAction)
    requires Parked(s.job) && AnyEnabled(s, a) && AnyAsserts(s, a)
    ensures Parked(AnyNext(s, a).job)
  {
  }

  lemma ParkedUserStep(s: State, a: UserAction)
    requires PlaceInv(s) && Parked(s.job) && UserEnabled(s, a) && UserAsserts(s, a)
    ensures Parked(UserNext(s, a).job) <==> !a.Start?
  {
    if a.CancelReturn? {
      if !s.job.userPaused {
        ParkedCancelEnd(s, a.reply, s.main.byGroup);
      }
    } else if a.CancelResumeReturn? {
      ParkedCancelEnd(Unpaused(s), s.main.force, s.main.byGroup);
    }
  }

  lemma ParkedCancelEnd(s: State, force: bool, byGroup: bool)
    requires Parked(s.job) && CancelEndAsserts(s, force, byGroup)
    ensures Parked(CancelEnd(s, force, byGroup).job)
  {
    var t := Flag(s, force).(main := Idle);
    if !byGroup && !t.job.started {
      CompleteForward(t);
    }
  }

  lemma ParkedEndStep(s: State, a: EndAction)
    requires EndEnabled(s, a) && EndAsserts(s, a) && Parked(s.job)
    ensures Parked(EndNext(s, a).job)
  {
    if a.Exit? {
      CompleteForward(Quiescent(s));
    } else {
      EndForward(s, a);
    }
  }

  /** Entered, a paused job comes back to its driver whatever its pause count. */
  lemma EnterRunsThePausedDriver(s: State)
    requires Inv(s) && s.place.YieldedPaused? && s.job.refcnt > 0
    ensures var enter, go, back := ByAny(Enter), ByCoroutine(Continue), ByCoroutine(ResumeReturn);
      && Enabled(s, enter) && Asserts(s, enter)
      && var t := Next(s, enter);
      && Enabled(t, go) && Asserts(t, go)
      && var u := Next(t, go);
      && Enabled(u, back) && Asserts(u, back)
      && Next(u, back).place.InDriver? && Next(u, back).drains == s.drains
  {
  }

  /** A job that is paused in a drained section. */
  lemma RunToDrainedPause() returns (s: State, states: seq<State>, actions: seq<Action>)
    ensures IsRun(states, actions) && states[|actions|] == s
    ensures s.place == YieldedPaused(Running) && s.drains == 1 && s.main.Idle? && !s.job.forceCancel && s.job.refcnt == 1
    ensures s.job.started && !s.job.deferred && !s.job.busy && s.job.status.Paused? && !s.job.userPaused
    ensures s.job.pauseCount == 1 && !s.job.cancelled && ByAny(Enter) !in actions
  {
    s, states, actions := RunToDriver();
    s, states, actions := RunOn(states, actions, ByAny(DrainBegin));
    s, states, actions := RunOn(states, actions, ByCoroutine(PausePoint));
    s, states, actions := RunOn(states, actions, ByCoroutine(PauseReturn));
  }

  /** The exceptions are real: job_enter takes a paused job back to its driver inside the drained section. */
  lemma EnterRunsTheDrainedDriver() returns (s: State, states: seq<State>, actions: seq<Action>)
    ensures IsRun(states, actions) && states[|actions|] == s && s.place.InDriver? && s.drains > 0
    ensures ByAny(Enter) in actions && !s.job.cancelled
  {
    s, states, actions := RunToDrainedPause();
    RunInv(states, actions, |actions|);
    s, states, actions := RunOn(states, actions, ByAny(Enter));
    ghost var n := |actions| - 1;
    assert actions[n] == ByAny(Enter);
    s, states, actions := RunOn(states, actions, ByCoroutine(Continue));
    s, states, actions := RunOn(states, actions, ByCoroutine(ResumeReturn));
    assert actions[n] == ByAny(Enter);
  }

  /** So does a cancellation, even a soft one. */
  lemma CancelRunsTheDrainedDriver() returns (s: State, states: seq<State>, actions: seq<Action>)
    ensures IsRun(states, actions) && states[|actions|] == s && s.place.InDriver? && s.drains > 0
    ensures ByAny(Enter) !in actions && !s.job.forceCancel
  {
    s, states, actions := RunToCancelledPause();
    s, states, actions := RunOn(states, actions, ByCoroutine(Continue));
    s, states, actions := RunOn(states, actions, ByCoroutine(ResumeReturn));
  }

  lemma RunToCancelledPause() returns (s: State, states: seq<State>, actions: seq<Action>)
    ensures IsRun(states, actions) && states[|actions|] == s && ByAny(Enter) !in actions
    ensures s.place == WokenPaused(Running) && s.drains == 1 && !s.job.forceCancel && s.job.refcnt == 1
    ensures s.job.busy && s.job.status.Paused?
  {
    s, states, actions := RunToDrainedPause();
    s, states, actions := RunOn(states, actions, ByUser(CancelBegin(false, false)));
    SoftCancelWakes(s);
    s, states, actions := RunOn(states, actions, ByUser(CancelReturn(false)));
  }

  lemma SoftCancelWakes(s: State)
    requires s.main == InCancel(false, false) && s.place.YieldedPaused? && !s.job.userPaused
    requires s.job.started && !s.job.deferred && !s.job.busy
    ensures UserEnabled(s, CancelReturn(false)) && UserAsserts(s, CancelReturn(false))
    ensures var t := UserNext(s, CancelReturn(false));
      && t.place == WokenPaused(s.place.status) && t.drains == s.drains && t.job.forceCancel == s.job.forceCancel
      && t.job.refcnt == s.job.refcnt && t.job.busy && t.job.status == s.job.status
  {
  }
}
