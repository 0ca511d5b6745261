/** Which tables of the pipeline each request leaves alone. */
module Frames {
  import opened Common
  import opened Pipeline

  predicate EditsStages(op: Op) { op.ReplaceStagesOp? || op.ApplyTemplateOp? }

  predicate EditsJobs(op: Op) { op.CreateJobOp? || op.PublishOp? || op.CloseOp? || op.ArchiveOp? }

  predicate EditsTemplates(op: Op) { op.CreateTemplateOp? || op.UpdateTemplateOp? || op.RemoveTemplateOp? }

  predicate EditsApplications(op: Op) { op.CreateOp? || op.WithdrawOp? || op.ScreenOp? || op.DecideOp? }

  /** Applications and their records stay. */
  predicate SameApplications(db: Db, db': Db) {
    db'.apps == db.apps && db'.history == db.history && db'.audit == db.audit && db'.notes == db.notes
  }

  predicate SameTemplates(db: Db, db': Db) { db'.templates == db.templates && db'.templateStages == db.templateStages }

  /** Stages change only by an edit, jobs by a job request, templates by a template
      request, applications by a request about one, and no key is ever handed back. */
  ghost predicate Framed(db: Db, op: Op) {
    var db' := Step(db, op).0;
    && (!EditsStages(op) ==> db'.stages == db.stages)
    && (!EditsJobs(op) ==> db'.jobs == db.jobs)
    && (!op.CreateJobOp? ==> db'.jobs.Keys == db.jobs.Keys)
    && (!EditsTemplates(op) ==> SameTemplates(db, db'))
    && (!EditsApplications(op) ==> SameApplications(db, db'))
    && db.next <= db'.next
  }

  ghost predicate OnlyStages(db: Db, db': Db) {
    db'.jobs == db.jobs && SameTemplates(db, db') && SameApplications(db, db') && db.next <= db'.next
  }

  ghost predicate OnlyJobs(db: Db, db': Db) {
    && db'.stages == db.stages && db'.jobs.Keys == db.jobs.Keys && SameTemplates(db, db') && SameApplications(db, db')
    && db'.next == db.next
  }

  ghost predicate OnlyTemplates(db: Db, db': Db) {
    db'.stages == db.stages && db'.jobs == db.jobs && SameApplications(db, db') && db.next <= db'.next
  }

  ghost predicate OnlyApplications(db: Db, db': Db) {
    db'.stages == db.stages && db'.jobs == db.jobs && SameTemplates(db, db') && db.next <= db'.next
  }

  lemma SetStagesFrame(db: Db, job: Id, names: seq<string>, index: map<string, Id>)
    ensures OnlyStages(db, SetStages(db, job, names, index).0)
  {
  }

  lemma PublishFrame(db: Db, org: Id, job: Id)
    ensures OnlyJobs(db, Publish(db, org, job).0)
  {
  }

  lemma CloseFrame(db: Db, org: Id, job: Id)
    ensures OnlyJobs(db, Close(db, org, job).0)
  {
  }

  lemma ArchiveFrame(db: Db, org: Id, job: Id)
    ensures OnlyJobs(db, Archive(db, org, job).0)
  {
  }

  lemma CreateTemplateFrame(db: Db, org: Id, name: string, names: seq<string>)
    ensures OnlyTemplates(db, CreateTemplate(db, org, name, names).0)
  {
  }

  lemma UpdateTemplateFrame(db: Db, org: Id, id: Id, name: Option<string>, names: Option<seq<string>>)
    ensures OnlyTemplates(db, UpdateTemplate(db, org, id, name, names).0)
  {
  }

  lemma RemoveTemplateFrame(db: Db, org: Id, id: Id)
    ensures OnlyTemplates(db, RemoveTemplate(db, org, id).0)
  {
  }

  lemma CreateFrame(db: Db, candidate: Id, job: Id, cv: Option<Id>, first: Option<Id>)
    ensures OnlyApplications(db, Create(db, candidate, job, cv, first).0)
  {
  }

  lemma WithdrawFrame(db: Db, candidate: Id, a: Id)
    ensures OnlyApplications(db, Withdraw(db, candidate, a).0)
  {
  }

  lemma ScreenFrame(db: Db, org: Id, actor: Id, job: Id, a: Id, s: Screening)
    ensures OnlyApplications(db, Screen(db, org, actor, job, a, s).0)
  {
  }

  lemma DecideFrame(db: Db, org: Id, actor: Id, job: Id, a: Id, hire: bool, reason: Option<string>)
    ensures OnlyApplications(db, Decide(db, org, actor, job, a, hire, reason).0)
  {
  }

  lemma StagesFrame(db: Db, op: Op)
    requires EditsStages(op)
    ensures OnlyStages(db, Step(db, op).0)
  {
    match op
    case ReplaceStagesOp(_, job, names, index) => SetStagesFrame(db, job, names, index);
    case ApplyTemplateOp(_, job, _, listing, index) =>
      SetStagesFrame(db, job, NamesOf(db.templateStages, listing), index);
  }

  lemma JobsFrame(db: Db, op: Op)
    requires EditsJobs(op) && !op.CreateJobOp?
    ensures OnlyJobs(db, Step(db, op).0)
  {
    match op
    case PublishOp(org, job) => PublishFrame(db, org, job);
    case CloseOp(org, job) => CloseFrame(db, org, job);
    case ArchiveOp(org, job) => ArchiveFrame(db, org, job);
  }

  lemma TemplatesFrame(db: Db, op: Op)
    requires EditsTemplates(op)
    ensures OnlyTemplates(db, Step(db, op).0)
  {
    match op
    case CreateTemplateOp(org, name, names) => CreateTemplateFrame(db, org, name, names);
    case UpdateTemplateOp(org, id, name, names) => UpdateTemplateFrame(db, org, id, name, names);
    case RemoveTemplateOp(org, id) => RemoveTemplateFrame(db, org, id);
  }

  lemma ApplicationsFrame(db: Db, op: Op)
    requires EditsApplications(op)
    ensures OnlyApplications(db, Step(db, op).0)
  {
    match op
    case CreateOp(candidate, job, _, cv, first) => CreateFrame(db, candidate, job, cv, first);
    case WithdrawOp(candidate, a) => WithdrawFrame(db, candidate, a);
    case ScreenOp(org, actor, job, a, s) => ScreenFrame(db, org, actor, job, a, s);
    case DecideOp(org, actor, job, a, hire, reason) => DecideFrame(db, org, actor, job, a, hire, reason);
  }

  lemma CreateJobFrame(db: Db, org: Id, salaryMin: Option<nat>, salaryMax: Option<nat>)
    ensures var db' := CreateJob(db, org, salaryMin, salaryMax).0;
      db'.stages == db.stages && SameTemplates(db, db') && SameApplications(db, db') && db.next <= db'.next
  {
  }

  lemma StepFrame(db: Db, op: Op)
    ensures Framed(db, op)
  {
    if EditsStages(op) {
      StagesFrame(db, op);
    } else if EditsTemplates(op) {
      TemplatesFrame(db, op);
    } else if EditsApplications(op) {
      ApplicationsFrame(db, op);
    } else if op.CreateJobOp? {
      CreateJobFrame(db, op.org, op.salaryMin, op.salaryMax);
    } else if EditsJobs(op) {
      JobsFrame(db, op);
    }
  }
}
