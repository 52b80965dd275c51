/** Background jobs (qemu/job.c): the two tables and the fields of a job. */
module JobModel {

  datatype Status =
    | Undefined | Created | Running | Paused | Ready | Standby
    | Waiting | Pending | Aborting | Concluded | Null

  datatype Verb = Cancel | Pause | Resume | SetSpeed | Complete | Finalize | Dismiss | Change

  /** JobSTT */
  predicate MayMove(s0: Status, s1: Status) {
    match s0
    case Undefined => s1.Created?
    case Created => s1.Running? || s1.Aborting? || s1.Null?
    case Running => s1.Paused? || s1.Ready? || s1.Waiting? || s1.Aborting?
    case Paused => s1.Running?
    case Ready => s1.Standby? || s1.Waiting? || s1.Aborting?
    case Standby => s1.Ready?
    case Waiting => s1.Pending? || s1.Aborting?
    case Pending => s1.Aborting? || s1.Concluded?
    case Aborting => s1.Aborting? || s1.Concluded?
    case Concluded => s1.Null?
    case Null => false
  }

  /** JobVerbTable */
  predicate Accepts(v: Verb, s: Status) {
    match v
    case Cancel => !s.Undefined? && !s.Aborting? && !s.Concluded? && !s.Null?
    case Complete => s.Ready? || s.Standby?
    case Finalize => s.Pending?
    case Dismiss => s.Concluded?
    case _ => s.Created? || s.Running? || s.Paused? || s.Ready? || s.Standby?
  }

  /** job_is_completed_locked */
  predicate Completed(s: Status) {
    s.Waiting? || s.Pending? || s.Aborting? || s.Concluded? || s.Null?
  }

  const ECANCELED: int := 125

  /** The fields of Job that the life of a job depends on. */
  datatype Job = Job(
    status: Status,
    ret: int,
    cancelled: bool,
    forceCancel: bool,
    started: bool,                 // job->co is set
    deferred: bool,                // deferred_to_main_loop
    busy: bool,
    paused: bool,
    pauseCount: int,
    userPaused: bool,
    refcnt: int,
    autoFinalize: bool,
    autoDismiss: bool)
  {
    /** job_state_transition_locked, with its assertion. */
    function Move(s1: Status): Job
      requires MayMove(status, s1)
    {
      this.(status := s1)
    }

    predicate ShouldPause() {
      pauseCount > 0
    }
  }

  function NewRet(j: Job): int {
    if j.ret == 0 && j.forceCancel then -ECANCELED else j.ret
  }

  /** job_update_rc_locked */
  predicate UpdateAsserts(j: Job) {
    && (j.cancelled || !j.forceCancel)
    && (NewRet(j) != 0 ==> MayMove(j.status, Aborting))
  }

  function Update(j: Job): Job
    requires UpdateAsserts(j)
  {
    var k := j.(ret := NewRet(j));
    if k.ret != 0 then k.Move(Aborting) else k
  }

  /** job_create, after the checks of the identifier. */
  function NewJob(autoFinalize: bool, autoDismiss: bool): Job {
    Job(Undefined, 0, false, false, false, false, false, true, 1, false, 1, autoFinalize, autoDismiss).Move(Created)
  }
}
