/** A job's status is the record of what was done to it: over every run, the
    status tells exactly which of publish, close and archive succeeded. */
module JobLifecycle {
  import opened Common
  import opened StageRows
  import opened Pipeline
  import opened Frames

  datatype Transition = Publishing | Closing | Archiving

  ghost predicate IsTransition(op: Op, job: Id, m: Transition) {
    match m
    case Publishing => op.PublishOp? && op.job == job
    case Closing => op.CloseOp? && op.job == job
    case Archiving => op.ArchiveOp? && op.job == job
  }

  ghost predicate Succeeds(db: Db, op: Op, job: Id, m: Transition) {
    IsTransition(op, job, m) && Step(db, op).1.Ok?
  }

  /** Successful moves of one kind on one job. */
  ghost function Successes(db: Db, ops: seq<Op>, job: Id, m: Transition): nat {
    if ops == [] then 0 else
      var init := ops[..|ops| - 1];
      Successes(db, init, job, m) + (if Succeeds(After(db, init), ops[|ops| - 1], job, m) then 1 else 0)
  }

  /** The status the three counts spell: each move at most once, closing only
      after publishing, archiving last. */
  predicate Tells(status: JobStatus, published: nat, closed: nat, archived: nat) {
    match status
    case Draft => published == 0 && closed == 0 && archived == 0
    case Published => published == 1 && closed == 0 && archived == 0
    case Closed => published == 1 && closed == 1 && archived == 0
    case Archived => closed <= published <= 1 && archived == 1
  }

  ghost predicate StatusEffect(db: Db, op: Op, job: Id) {
    var db' := Step(db, op).0;
    var published := Succeeds(db, op, job, Publishing);
    var closed := Succeeds(db, op, job, Closing);
    var archived := Succeeds(db, op, job, Archiving);
    if job in db.jobs then
      && job in db'.jobs && db'.jobs[job].org == db.jobs[job].org
      && (published ==> db.jobs[job].status == Draft && db'.jobs[job].status == Published && HasRows(db.stages, job))
      && (closed ==> db.jobs[job].status == Published && db'.jobs[job].status == Closed)
      && (archived ==> db.jobs[job].status != Archived && db'.jobs[job].status == Archived)
      && (!published && !closed && !archived ==> db'.jobs[job] == db.jobs[job])
    else
      && !published && !closed && !archived
      && (job in db'.jobs ==> db'.jobs[job].status == Draft)
  }

  lemma PublishStatus(db: Db, op: Op, job: Id)
    requires op.PublishOp?
    ensures StatusEffect(db, op, job)
  {
  }

  lemma CloseStatus(db: Db, op: Op, job: Id)
    requires op.CloseOp?
    ensures StatusEffect(db, op, job)
  {
  }

  lemma ArchiveStatus(db: Db, op: Op, job: Id)
    requires op.ArchiveOp?
    ensures StatusEffect(db, op, job)
  {
  }

  lemma CreateStatus(db: Db, op: Op, job: Id)
    requires op.CreateJobOp? && db.next !in db.jobs
    ensures StatusEffect(db, op, job)
  {
  }

  lemma OtherStatus(db: Db, op: Op, job: Id)
    requires !EditsJobs(op)
    ensures StatusEffect(db, op, job)
  {
    StepFrame(db, op);
  }

  lemma StepStatus(db: Db, op: Op, job: Id)
    requires Sound(db)
    ensures StatusEffect(db, op, job)
  {
    match op
    case PublishOp(_, _) => PublishStatus(db, op, job);
    case CloseOp(_, _) => CloseStatus(db, op, job);
    case ArchiveOp(_, _) => ArchiveStatus(db, op, job);
    case CreateJobOp(_, _, _) => CreateStatus(db, op, job);
    case _ => OtherStatus(db, op, job);
  }

  /** In every reachable state every job's status tells its whole story. A job
      that does not exist has none. */
  lemma {:induction false} StatusTellsStory(ops: seq<Op>, job: Id)
    requires IsRun(Empty, ops)
    ensures var p := Successes(Empty, ops, job, Publishing);
      var c := Successes(Empty, ops, job, Closing);
      var a := Successes(Empty, ops, job, Archiving);
      if job in After(Empty, ops).jobs then Tells(After(Empty, ops).jobs[job].status, p, c, a)
      else p == 0 && c == 0 && a == 0
  {
    if ops != [] {
      StatusTellsStory(ops[..|ops| - 1], job);
      ReachableSound(ops[..|ops| - 1]);
      StepStatus(After(Empty, ops[..|ops| - 1]), ops[|ops| - 1], job);
    }
  }
}
