/** The recruitment pipeline as a state machine: jobs, stages, pipeline
    templates and applications. One request is one atomic step. */
module Pipeline {
  import opened Common
  import opened StageRows

  datatype JobStatus = Draft | Published | Closed | Archived
  datatype AppStatus = Active | Withdrawn | Rejected | Hired

  datatype Job = Job(org: Id, status: JobStatus)

  /** createdIn is a bookkeeping column of the model: the stage the application
      was created in. The store does not keep it. */
  datatype App = App(
    job: Id, candidate: Id, org: Id, cv: Id, stage: Id, status: AppStatus, reason: Option<string>, createdIn: Id)

  datatype Cv = Cv(candidate: Id, primary: bool)

  /** ApplicationStageHistory, in movedAt order. */
  datatype Move = Move(app: Id, from: Option<Id>, to: Id, mover: Id)

  datatype Source = Screening | Decision

  /** The audit entries of screening and decision: application.hired or
      application.rejected. */
  datatype Audit = Audit(actor: Id, org: Id, hired: bool, target: Id, reason: Option<string>, source: Option<Source>)

  /** An application.rejected notification. */
  datatype Note = Note(user: Id, app: Id, reason: Option<string>, source: Source)

  datatype Template = Template(org: Id, name: string)

  datatype Db = Db(
    orgs: map<Id, OrgStatus>, cvs: map<Id, Cv>, jobs: map<Id, Job>, stages: Table,
    templates: map<Id, Template>, templateStages: Table,
    apps: map<Id, App>, history: seq<Move>, audit: seq<Audit>, notes: seq<Note>, next: Id)

  const Empty := Db(map[], map[], map[], map[], map[], map[], map[], [], [], [], 0)

  // ------------------------------------------------------------------ jobs

  ghost predicate JobIn(db: Db, org: Id, id: Id) {
    id in db.jobs && db.jobs[id].org == org
  }

  /** Both ends given and the wrong way round. */
  predicate BadRange(salaryMin: Option<nat>, salaryMax: Option<nat>) {
    salaryMin.Some? && salaryMax.Some? && salaryMin.value > salaryMax.value
  }

  ghost function CreateJob(db: Db, org: Id, salaryMin: Option<nat>, salaryMax: Option<nat>): (Db, Result<Id>) {
    if BadRange(salaryMin, salaryMax) then (db, Err(BadRequest))
    else (db.(jobs := db.jobs[db.next := Job(org, Draft)], next := db.next + 1), Ok(db.next))
  }

  /** Some application of the job sits, in whatever status, in one of these rows. */
  ghost predicate InUse(db: Db, job: Id, ids: set<Id>) {
    exists a :: a in db.apps && db.apps[a].job == job && db.apps[a].stage in ids
  }

  ghost function SetStages(db: Db, job: Id, names: seq<string>, index: map<string, Id>): (Db, Result<Id>) {
    if InUse(db, job, Dropped(db.stages, job, names)) then (db, Err(Conflict))
    else (db.(stages := Edit(db.stages, job, names, index, db.next), next := db.next + |names|), Ok(job))
  }

  ghost function ReplaceStages(db: Db, org: Id, job: Id, names: seq<string>, index: map<string, Id>): (Db, Result<Id>) {
    if !JobIn(db, org, job) then (db, Err(NotFound)) else SetStages(db, job, names, index)
  }

  function NamesOf(t: Table, ids: seq<Id>): seq<string> {
    seq(|ids|, i requires 0 <= i < |ids| => if ids[i] in t then t[ids[i]].name else "")
  }

  ghost predicate TemplateIn(db: Db, org: Id, id: Id) {
    id in db.templates && db.templates[id].org == org
  }

  ghost function ApplyTemplate(db: Db, org: Id, job: Id, template: Id, listing: seq<Id>,
      index: map<string, Id>): (Db, Result<Id>) {
    if !JobIn(db, org, job) then (db, Err(NotFound))
    else if !TemplateIn(db, org, template) then (db, Err(Unprocessable))
    else SetStages(db, job, NamesOf(db.templateStages, listing), index)
  }

  ghost function Publish(db: Db, org: Id, job: Id): (Db, Result<Id>) {
    if !JobIn(db, org, job) then (db, Err(NotFound))
    else if db.jobs[job].status != Draft then (db, Err(Conflict))
    else if !HasRows(db.stages, job) then (db, Err(Unprocessable))
    else (db.(jobs := db.jobs[job := db.jobs[job].(status := Published)]), Ok(job))
  }

  ghost function Close(db: Db, org: Id, job: Id): (Db, Result<Id>) {
    if !JobIn(db, org, job) then (db, Err(NotFound))
    else if db.jobs[job].status != Published then (db, Err(Conflict))
    else (db.(jobs := db.jobs[job := db.jobs[job].(status := Closed)]), Ok(job))
  }

  ghost function Archive(db: Db, org: Id, job: Id): (Db, Result<Id>) {
    if !JobIn(db, org, job) then (db, Err(NotFound))
    else if db.jobs[job].status == Archived then (db, Err(Conflict))
    else (db.(jobs := db.jobs[job := db.jobs[job].(status := Archived)]), Ok(job))
  }

  // ------------------------------------------------------------- templates

  ghost function CreateTemplate(db: Db, org: Id, name: string, names: seq<string>): (Db, Result<Id>) {
    (db.(templates := db.templates[db.next := Template(org, name)],
         templateStages := Place(db.templateStages, db.next, names, map[], db.next + 1, |names|),
         next := db.next + 1 + |names|),
     Ok(db.next))
  }

  ghost function UpdateTemplate(db: Db, org: Id, id: Id, name: Option<string>,
      names: Option<seq<string>>): (Db, Result<Id>) {
    if !TemplateIn(db, org, id) then (db, Err(NotFound)) else
      var named := if name.Some? then db.(templates := db.templates[id := db.templates[id].(name := name.value)])
        else db;
      if names.None? then (named, Ok(id)) else
        (named.(templateStages := Recreate(db.templateStages, id, names.value, db.next),
          next := db.next + |names.value|), Ok(id))
  }

  ghost function RemoveTemplate(db: Db, org: Id, id: Id): (Db, Result<Id>) {
    if !TemplateIn(db, org, id) then (db, Err(NotFound))
    else (db.(templates := db.templates - {id}, templateStages := db.templateStages - OwnedBy(db.templateStages, id)),
      Ok(id))
  }

  // ---------------------------------------------------------- applications

  ghost predicate AcceptsApplications(db: Db, job: Id) {
    job in db.jobs && db.jobs[job].status == Published
    && db.jobs[job].org in db.orgs && db.orgs[db.jobs[job].org] == OrgStatus.Active
  }

  ghost predicate HasActive(db: Db, job: Id, candidate: Id) {
    exists a ::
      a in db.apps && db.apps[a].job == job && db.apps[a].candidate == candidate
        && db.apps[a].status == AppStatus.Active
  }

  /** What resolveCvId may return: the requested CV if it is the candidate's own,
      or without a request one of the candidate's primary CVs; None where it throws. */
  ghost predicate ResolvesTo(cvs: map<Id, Cv>, candidate: Id, requested: Option<Id>, cv: Option<Id>) {
    match cv
    case Some(id) =>
      && id in cvs && cvs[id].candidate == candidate
      && (if requested.Some? then id == requested.value else cvs[id].primary)
    case None =>
      if requested.Some? then !(requested.value in cvs && cvs[requested.value].candidate == candidate)
      else forall id :: id in cvs && cvs[id].candidate == candidate ==> !cvs[id].primary
  }

  /** cv is the CV the request resolves to, first the row findFirstOrThrow
      returns; None where the lookup finds nothing. */
  ghost function Create(db: Db, candidate: Id, job: Id, cv: Option<Id>, first: Option<Id>): (Db, Result<Id>) {
    if !AcceptsApplications(db, job) then (db, Err(NotFound))
    else if cv.None? then (db, Err(Unprocessable))
    else if first.None? then (db, Err(Internal))
    else if HasActive(db, job, candidate) then (db, Err(Conflict))
    else (db.(apps := db.apps[db.next := App(job, candidate, db.jobs[job].org, cv.value, first.value,
      AppStatus.Active, None, first.value)],
              next := db.next + 1),
          Ok(db.next))
  }

  ghost function Withdraw(db: Db, candidate: Id, id: Id): (Db, Result<Id>) {
    if !(id in db.apps && db.apps[id].candidate == candidate) then (db, Err(NotFound))
    else if db.apps[id].status != AppStatus.Active then (db, Err(Conflict))
    else (db.(apps := db.apps[id := db.apps[id].(status := Withdrawn)]), Ok(id))
  }

  ghost predicate AppIn(db: Db, org: Id, job: Id, id: Id) {
    id in db.apps && db.apps[id].job == job && db.apps[id].org == org
  }

  /** An undefined reason leaves the column as it is. */
  function WithReason(app: App, reason: Option<string>): App {
    if reason.Some? then app.(reason := reason) else app
  }

  ghost function Rejecting(db: Db, actor: Id, org: Id, id: Id, reason: Option<string>, source: Source): Db
    requires id in db.apps
  {
    db.(apps := db.apps[id := WithReason(db.apps[id].(status := AppStatus.Rejected), reason)],
        audit := db.audit + [Audit(actor, org, false, id, reason, Some(source))],
        notes := db.notes + [Note(db.apps[id].candidate, id, reason, source)])
  }

  datatype Screening = Pass(next: Option<Id>) | Reject(reason: Option<string>)

  ghost function Screen(db: Db, org: Id, actor: Id, job: Id, id: Id, s: Screening): (Db, Result<Id>) {
    if !AppIn(db, org, job, id) then (db, Err(NotFound))
    else if db.apps[id].status != AppStatus.Active then (db, Err(Conflict))
    else match s
      case Reject(reason) => (Rejecting(db, actor, org, id, reason, Source.Screening), Ok(id))
      case Pass(next) =>
        if next.None? then (db, Err(Unprocessable)) else
          (db.(apps := db.apps[id := db.apps[id].(stage := next.value)],
               history := db.history + [Move(id, Some(db.apps[id].stage), next.value, actor)]),
           Ok(id))
  }

  ghost function Decide(db: Db, org: Id, actor: Id, job: Id, id: Id, hire: bool,
      reason: Option<string>): (Db, Result<Id>) {
    if !AppIn(db, org, job, id) then (db, Err(NotFound))
    else if db.apps[id].status != AppStatus.Active then (db, Err(Conflict))
    else if hire then
      (db.(apps := db.apps[id := db.apps[id].(status := Hired)],
           audit := db.audit + [Audit(actor, org, true, id, None, None)]),
       Ok(id))
    else (Rejecting(db, actor, org, id, reason, Decision), Ok(id))
  }

  // --------------------------------------------------------------- the runs

  datatype Op =
    | OrgOp(org: Id, orgStatus: OrgStatus)
    | CvsOp(cvs: map<Id, Cv>)
    | CreateJobOp(org: Id, salaryMin: Option<nat>, salaryMax: Option<nat>)
    | ReplaceStagesOp(org: Id, job: Id, names: seq<string>, index: map<string, Id>)
    | ApplyTemplateOp(org: Id, job: Id, template: Id, listing: seq<Id>, index: map<string, Id>)
    | PublishOp(org: Id, job: Id)
    | CloseOp(org: Id, job: Id)
    | ArchiveOp(org: Id, job: Id)
    | CreateTemplateOp(org: Id, name: string, names: seq<string>)
    | UpdateTemplateOp(org: Id, template: Id, rename: Option<string>, restage: Option<seq<string>>)
    | RemoveTemplateOp(org: Id, template: Id)
    | CreateOp(candidate: Id, job: Id, requested: Option<Id>, cv: Option<Id>, first: Option<Id>)
    | WithdrawOp(candidate: Id, app: Id)
    | ScreenOp(org: Id, actor: Id, job: Id, app: Id, s: Screening)
    | DecideOp(org: Id, actor: Id, job: Id, app: Id, hire: bool, reason: Option<string>)

  /** findFirst over one job's stages, ordered by order. */
  ghost predicate IsFirst(t: Table, job: Id, r: Option<Id>) {
    match r
    case None => !HasRows(t, job)
    case Some(id) => id in t && t[id].owner == job && forall y :: y in t && t[y].owner == job ==>
      t[id].order <= t[y].order
  }

  /** findFirst over one job's stages at a given order. */
  ghost predicate IsAt(t: Table, job: Id, order: nat, r: Option<Id>) {
    match r
    case None => !RowAt(t, job, order)
    case Some(id) => id in t && t[id].owner == job && t[id].order == order
  }

  /** The answers the store may give to the request's own queries. */
  ghost predicate Possible(db: Db, op: Op) {
    match op
    case CreateJobOp(org, _, _) => org in db.orgs
    case ReplaceStagesOp(org, job, names, index) =>
      |names| > 0 && (JobIn(db, org, job) ==> IsIndex(db.stages, job, index))
    case ApplyTemplateOp(org, job, template, listing, index) =>
      JobIn(db, org, job) ==> IsIndex(db.stages, job, index) && IsListing(db.templateStages, template, listing)
    case CreateTemplateOp(_, _, names) => |names| > 0
    case UpdateTemplateOp(_, _, _, names) => names.Some? ==> |names.value| > 0
    case CreateOp(candidate, job, requested, cv, first) =>
      ResolvesTo(db.cvs, candidate, requested, cv) && IsFirst(db.stages, job, first)
    case ScreenOp(org, _, job, id, Pass(next)) =>
      AppIn(db, org, job, id) ==>
        db.apps[id].stage in db.stages && IsAt(db.stages, job, db.stages[db.apps[id].stage].order + 1, next)
    case _ => true
  }

  ghost function Step(db: Db, op: Op): (Db, Result<Id>) {
    match op
    case OrgOp(org, status) => (db.(orgs := db.orgs[org := status]), Ok(org))
    case CvsOp(cvs) => (db.(cvs := cvs), Ok(0))
    case CreateJobOp(org, salaryMin, salaryMax) => CreateJob(db, org, salaryMin, salaryMax)
    case ReplaceStagesOp(org, job, names, index) => ReplaceStages(db, org, job, names, index)
    case ApplyTemplateOp(org, job, template, listing, index) => ApplyTemplate(db, org, job, template, listing, index)
    case PublishOp(org, job) => Publish(db, org, job)
    case CloseOp(org, job) => Close(db, org, job)
    case ArchiveOp(org, job) => Archive(db, org, job)
    case CreateTemplateOp(org, name, names) => CreateTemplate(db, org, name, names)
    case UpdateTemplateOp(org, id, name, names) => UpdateTemplate(db, org, id, name, names)
    case RemoveTemplateOp(org, id) => RemoveTemplate(db, org, id)
    case CreateOp(candidate, job, _, cv, first) => Create(db, candidate, job, cv, first)
    case WithdrawOp(candidate, id) => Withdraw(db, candidate, id)
    case ScreenOp(org, actor, job, id, s) => Screen(db, org, actor, job, id, s)
    case DecideOp(org, actor, job, id, hire, reason) => Decide(db, org, actor, job, id, hire, reason)
  }

  ghost function After(db: Db, ops: seq<Op>): Db {
    if ops == [] then db else Step(After(db, ops[..|ops| - 1]), ops[|ops| - 1]).0
  }

  ghost predicate IsRun(db: Db, ops: seq<Op>) {
    ops != [] ==> IsRun(db, ops[..|ops| - 1]) && Possible(After(db, ops[..|ops| - 1]), ops[|ops| - 1])
  }

  // ------------------------------------------------------ references resolve

  ghost predicate Fresh(db: Db) {
    && Below(db.stages, db.next) && Below(db.templateStages, db.next)
    && (forall j :: j in db.jobs ==> j < db.next)
    && (forall t :: t in db.templates ==> t < db.next)
    && (forall a :: a in db.apps ==> a < db.next)
  }

  ghost predicate RefsResolve(db: Db) {
    && (forall s :: s in db.stages ==> db.stages[s].owner in db.jobs)
    && (forall s :: s in db.templateStages ==> db.templateStages[s].owner in db.templates)
    && (forall t :: t in db.templates ==> HasRows(db.templateStages, t))
    && (forall a :: a in db.apps ==>
          && db.apps[a].job in db.jobs
          && db.apps[a].org == db.jobs[db.apps[a].job].org
          && db.apps[a].stage in db.stages
          && db.stages[db.apps[a].stage].owner == db.apps[a].job)
    && (forall j :: j in db.jobs && db.jobs[j].status == Published ==> HasRows(db.stages, j))
  }

  ghost predicate Sound(db: Db) { Fresh(db) && RefsResolve(db) }

  lemma SetStagesSound(db: Db, job: Id, names: seq<string>, index: map<string, Id>)
    requires Sound(db) && job in db.jobs && |names| > 0 && IsIndex(db.stages, job, index)
    ensures Sound(SetStages(db, job, names, index).0)
  {
    var gone := Dropped(db.stages, job, names);
    if !InUse(db, job, gone) {
      EditSafe(db.stages, job, names, index, db.next);
      var db' := SetStages(db, job, names, index).0;
      forall a | a in db'.apps ensures db'.apps[a].stage in db'.stages
        && db'.stages[db'.apps[a].stage].owner == db'.apps[a].job {
        assert db.apps[a].stage !in gone;
      }
      forall j | j in db'.jobs && db'.jobs[j].status == Published ensures HasRows(db'.stages, j) {
        if j != job {
          var id :| id in db.stages && db.stages[id].owner == j;
          assert id in db'.stages;
        }
      }
      forall s | s in db'.stages ensures db'.stages[s].owner in db'.jobs {
        if db'.stages[s].owner != job {
          assert s in db.stages;
        }
      }
    }
  }

  /** What a caller gets. The edit is refused exactly when an application of the
      job, in whatever status, sits in a stage whose name the request lacks, and
      then nothing changes. Otherwise only stages change, and the listing that
      comes back reads the request exactly when the edit is clean; always, for
      distinct names on a pipeline of distinct names. */
  lemma SetStagesOutcome(db: Db, job: Id, names: seq<string>, index: map<string, Id>, ids: seq<Id>)
    requires Sound(db) && IsIndex(db.stages, job, index)
    requires IsListing(SetStages(db, job, names, index).0.stages, job, ids)
    ensures var (db', r) := SetStages(db, job, names, index);
      && (r.Ok? <==> forall a :: a in db.apps && db.apps[a].job == job ==> db.stages[db.apps[a].stage].name in names)
      && (r.Err? ==> r.error == Conflict && db' == db)
      && (r.Ok? ==> db' == db.(stages := db'.stages, next := db'.next))
      && (r.Ok? ==> (Reads(db'.stages, ids, names) <==> CleanEdit(db.stages, job, names, index)))
      && (r.Ok? && Distinct(names) && UniqueNames(db.stages, job) ==> Reads(db'.stages, ids, names))
  {
    var (db', r) := SetStages(db, job, names, index);
    assert r.Ok? <==>
      forall a :: a in db.apps && db.apps[a].job == job ==> db.apps[a].stage !in Dropped(db.stages, job, names);
    if r.Ok? {
      ListingReads(db'.stages, job, ids, names);
      EditRefinesRecreate(db.stages, job, names, index, db.next);
      DistinctOnceClean(db.stages, job, names, index);
    }
  }

  lemma DistinctOnceClean(t: Table, job: Id, names: seq<string>, index: map<string, Id>)
    requires IsIndex(t, job, index)
    ensures Distinct(names) && UniqueNames(t, job) ==> CleanEdit(t, job, names, index)
  {
    if Distinct(names) {
      DistinctRequestClean(t, job, names, index);
    }
  }

  lemma ListingNonEmpty(t: Table, owner: Id, listing: seq<Id>)
    requires IsListing(t, owner, listing) && HasRows(t, owner)
    ensures |NamesOf(t, listing)| > 0
  {
  }

  lemma RecreateSound(t: Table, owner: Id, names: seq<string>, base: Id, owners: set<Id>)
    requires Below(t, base) && |names| > 0 && owner in owners
    requires forall s :: s in t ==> t[s].owner in owners
    ensures var r := Recreate(t, owner, names, base);
      && Below(r, base + |names|) && HasRows(r, owner)
      && (forall s :: s in r ==> r[s].owner in owners)
      && (forall o :: HasRows(t, o) ==> HasRows(r, o))
  {
    RecreateExact(t, owner, names, base);
    var r := Recreate(t, owner, names, base);
    assert RowAt(r, owner, 0);
    forall o | HasRows(t, o) ensures HasRows(r, o) {
      if o != owner {
        var id :| id in t && t[id].owner == o;
        assert id in r;
      }
    }
  }

  /** A template that does not exist yet has no rows to delete, so creating it is
      the same as recreating it. */
  lemma CreateIsRecreate(t: Table, owner: Id, names: seq<string>, base: Id)
    requires !HasRows(t, owner)
    ensures Place(t, owner, names, map[], base, |names|) == Recreate(t, owner, names, base)
  {
    assert Without(t, owner) == t;
  }

  lemma TemplateSound(db: Db, templates: map<Id, Template>, rows: Table, next: Id)
    requires Sound(db) && next >= db.next
    requires Below(rows, next) && (forall t :: t in templates ==> t < next && HasRows(rows, t))
    requires forall s :: s in rows ==> rows[s].owner in templates
    ensures Sound(db.(templates := templates, templateStages := rows, next := next))
  {
  }

  lemma CreateTemplateSound(db: Db, org: Id, name: string, names: seq<string>)
    requires Sound(db) && |names| > 0
    ensures Sound(CreateTemplate(db, org, name, names).0)
  {
    var templates := db.templates[db.next := Template(org, name)];
    CreateIsRecreate(db.templateStages, db.next, names, db.next + 1);
    RecreateSound(db.templateStages, db.next, names, db.next + 1, templates.Keys);
    TemplateSound(db, templates, Recreate(db.templateStages, db.next, names, db.next + 1), db.next + 1 + |names|);
  }

  lemma UpdateTemplateSound(db: Db, org: Id, id: Id, name: Option<string>, names: Option<seq<string>>)
    requires Sound(db) && (names.Some? ==> |names.value| > 0)
    ensures Sound(UpdateTemplate(db, org, id, name, names).0)
  {
    if TemplateIn(db, org, id) {
      var templates := if name.Some? then db.templates[id := db.templates[id].(name := name.value)] else db.templates;
      assert templates.Keys == db.templates.Keys;
      if names.Some? {
        RecreateSound(db.templateStages, id, names.value, db.next, templates.Keys);
        TemplateSound(db, templates, Recreate(db.templateStages, id, names.value, db.next), db.next + |names.value|);
      } else {
        TemplateSound(db, templates, db.templateStages, db.next);
      }
    }
  }

  lemma RemoveTemplateSound(db: Db, org: Id, id: Id)
    requires Sound(db)
    ensures Sound(RemoveTemplate(db, org, id).0)
  {
    if TemplateIn(db, org, id) {
      var rows := db.templateStages - OwnedBy(db.templateStages, id);
      forall t | t in db.templates - {id} ensures HasRows(rows, t) {
        var r :| r in db.templateStages && db.templateStages[r].owner == t;
        assert r in rows;
      }
      TemplateSound(db, db.templates - {id}, rows, db.next);
    }
  }

  lemma CreateJobSound(db: Db, org: Id, salaryMin: Option<nat>, salaryMax: Option<nat>)
    requires Sound(db)
    ensures Sound(CreateJob(db, org, salaryMin, salaryMax).0)
  {
  }

  lemma PublishSound(db: Db, org: Id, job: Id)
    requires Sound(db)
    ensures Sound(Publish(db, org, job).0)
  {
  }

  lemma CloseSound(db: Db, org: Id, job: Id)
    requires Sound(db)
    ensures Sound(Close(db, org, job).0)
  {
  }

  lemma ArchiveSound(db: Db, org: Id, job: Id)
    requires Sound(db)
    ensures Sound(Archive(db, org, job).0)
  {
  }

  /** Writing one application whose references resolve. */
  lemma AppSound(db: Db, id: Id, app: App, next: Id, history: seq<Move>, audit: seq<Audit>, notes: seq<Note>)
    requires Sound(db) && next >= db.next && id < next
    requires app.job in db.jobs && app.org == db.jobs[app.job].org
    requires app.stage in db.stages && db.stages[app.stage].owner == app.job
    ensures Sound(db.(apps := db.apps[id := app], next := next, history := history, audit := audit, notes := notes))
  {
  }

  lemma CreateSound(db: Db, candidate: Id, job: Id, cv: Option<Id>, first: Option<Id>)
    requires Sound(db) && IsFirst(db.stages, job, first)
    ensures Sound(Create(db, candidate, job, cv, first).0)
  {
    var (db', r) := Create(db, candidate, job, cv, first);
    if r.Ok? {
      AppSound(db, r.value, db'.apps[r.value], db'.next, db'.history, db'.audit, db'.notes);
    }
  }

  lemma WithdrawSound(db: Db, candidate: Id, id: Id)
    requires Sound(db)
    ensures Sound(Withdraw(db, candidate, id).0)
  {
    var (db', r) := Withdraw(db, candidate, id);
    if r.Ok? {
      AppSound(db, id, db'.apps[id], db'.next, db'.history, db'.audit, db'.notes);
    }
  }

  lemma ScreenSound(db: Db, org: Id, actor: Id, job: Id, id: Id, s: Screening)
    requires Sound(db)
    requires s.Pass? && s.next.Some? ==> s.next.value in db.stages && db.stages[s.next.value].owner == job
    ensures Sound(Screen(db, org, actor, job, id, s).0)
  {
    var (db', r) := Screen(db, org, actor, job, id, s);
    if r.Ok? {
      AppSound(db, id, db'.apps[id], db'.next, db'.history, db'.audit, db'.notes);
    }
  }

  lemma DecideSound(db: Db, org: Id, actor: Id, job: Id, id: Id, hire: bool, reason: Option<string>)
    requires Sound(db)
    ensures Sound(Decide(db, org, actor, job, id, hire, reason).0)
  {
    var (db', r) := Decide(db, org, actor, job, id, hire, reason);
    if r.Ok? {
      AppSound(db, id, db'.apps[id], db'.next, db'.history, db'.audit, db'.notes);
    }
  }

  /** Every request keeps references resolvable and published jobs non-empty. */
  lemma StepSound(db: Db, op: Op)
    requires Sound(db) && Possible(db, op)
    ensures Sound(Step(db, op).0)
  {
    match op
    case OrgOp(_, _) =>
    case ReplaceStagesOp(org, job, names, index) =>
      if JobIn(db, org, job) {
        SetStagesSound(db, job, names, index);
      }
    case ApplyTemplateOp(org, job, template, listing, index) =>
      if JobIn(db, org, job) && TemplateIn(db, org, template) {
        ListingNonEmpty(db.templateStages, template, listing);
        SetStagesSound(db, job, NamesOf(db.templateStages, listing), index);
      }
    case CreateTemplateOp(org, name, names) => CreateTemplateSound(db, org, name, names);
    case UpdateTemplateOp(org, id, name, names) => UpdateTemplateSound(db, org, id, name, names);
    case RemoveTemplateOp(org, id) => RemoveTemplateSound(db, org, id);
    case CvsOp(_) =>
    case CreateJobOp(org, salaryMin, salaryMax) => CreateJobSound(db, org, salaryMin, salaryMax);
    case PublishOp(org, job) => PublishSound(db, org, job);
    case CloseOp(org, job) => CloseSound(db, org, job);
    case ArchiveOp(org, job) => ArchiveSound(db, org, job);
    case CreateOp(candidate, job, _, cv, first) => CreateSound(db, candidate, job, cv, first);
    case WithdrawOp(candidate, id) => WithdrawSound(db, candidate, id);
    case ScreenOp(org, actor, job, id, s) =>
      if AppIn(db, org, job, id) {
        ScreenSound(db, org, actor, job, id, s);
      }
    case DecideOp(org, actor, job, id, hire, reason) => DecideSound(db, org, actor, job, id, hire, reason);
  }

  /** In every reachable state each application's stage exists and belongs to the
      application's own job and organization, and a published job has a stage. */
  lemma {:induction false} ReachableSound(ops: seq<Op>)
    requires IsRun(Empty, ops)
    ensures Sound(After(Empty, ops))
  {
    if ops != [] {
      ReachableSound(ops[..|ops| - 1]);
      StepSound(After(Empty, ops[..|ops| - 1]), ops[|ops| - 1]);
    }
  }

  /** So the lookup of the first stage never throws. */
  lemma CreateNeverThrows(ops: seq<Op>, candidate: Id, job: Id, requested: Option<Id>, cv: Option<Id>,
      first: Option<Id>)
    requires IsRun(Empty, ops) && Possible(After(Empty, ops), CreateOp(candidate, job, requested, cv, first))
    ensures Create(After(Empty, ops), candidate, job, cv, first).1 != Err(Internal)
  {
    ReachableSound(ops);
  }
}
