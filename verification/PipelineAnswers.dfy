/** Every request of the pipeline, by its answer: when it is given which answer, and
    what the store is then. Said of the columns, with guards of its own. */
module PipelineAnswers {
  import opened Common
  import opened StageRows
  import opened Pipeline
  import opened Applications

  /** The job exists and is the organization's. */
  predicate Owns(db: Db, org: Id, job: Id) { job in db.jobs && db.jobs[job].org == org }

  predicate OwnsTemplate(db: Db, org: Id, t: Id) { t in db.templates && db.templates[t].org == org }

  /** The application exists, for that job, at that organization. */
  predicate Handles(db: Db, org: Id, job: Id, a: Id) {
    a in db.apps && db.apps[a].job == job && db.apps[a].org == org
  }

  ghost predicate Staged(db: Db, job: Id) { exists s :: s in db.stages && db.stages[s].owner == job }

  // -------------------------------------------------------------------- jobs

  lemma CreateJobAnswer(db: Db, org: Id, salaryMin: Option<nat>, salaryMax: Option<nat>)
    ensures var (db', r) := CreateJob(db, org, salaryMin, salaryMax);
      var reversed := salaryMin.Some? && salaryMax.Some? && salaryMax.value < salaryMin.value;
      && r == (if reversed then Err(BadRequest) else Ok(db.next))
      && (reversed ==> db' == db)
      && (!reversed ==> db'.jobs == db.jobs[db.next := Job(org, Draft)] && db'.next == db.next + 1)
  {
  }

  lemma PublishAnswer(db: Db, org: Id, job: Id)
    ensures var (db', r) := Publish(db, org, job);
      && (r == Err(NotFound) <==> !Owns(db, org, job))
      && (r == Err(Conflict) <==> Owns(db, org, job) && db.jobs[job].status != Draft)
      && (r == Err(Unprocessable) <==> Owns(db, org, job) && db.jobs[job].status == Draft && !Staged(db, job))
      && (r.Ok? <==> Owns(db, org, job) && db.jobs[job].status == Draft && Staged(db, job))
      && db'.jobs == if r.Ok? then db.jobs[job := Job(org, Published)] else db.jobs
  {
  }

  lemma CloseAnswer(db: Db, org: Id, job: Id)
    ensures var (db', r) := Close(db, org, job);
      && (r == Err(NotFound) <==> !Owns(db, org, job))
      && (r == Err(Conflict) <==> Owns(db, org, job) && db.jobs[job].status != Published)
      && (r.Ok? <==> Owns(db, org, job) && db.jobs[job].status == Published)
      && db'.jobs == if r.Ok? then db.jobs[job := Job(org, Closed)] else db.jobs
  {
  }

  lemma ArchiveAnswer(db: Db, org: Id, job: Id)
    ensures var (db', r) := Archive(db, org, job);
      && (r == Err(NotFound) <==> !Owns(db, org, job))
      && (r == Err(Conflict) <==> Owns(db, org, job) && db.jobs[job].status == Archived)
      && (r.Ok? <==> Owns(db, org, job) && db.jobs[job].status != Archived)
      && db'.jobs == if r.Ok? then db.jobs[job := Job(org, Archived)] else db.jobs
  {
  }

  lemma ReplaceStagesAnswer(db: Db, org: Id, job: Id, names: seq<string>, index: map<string, Id>)
    ensures !Owns(db, org, job) ==> ReplaceStages(db, org, job, names, index) == (db, Err(NotFound))
    ensures Owns(db, org, job) ==> ReplaceStages(db, org, job, names, index) == SetStages(db, job, names, index)
  {
  }

  /** The template is asked for what its listing names, in order. */
  lemma ApplyTemplateAnswer(db: Db, org: Id, job: Id, template: Id, listing: seq<Id>, index: map<string, Id>,
      names: seq<string>)
    requires IsListing(db.templateStages, template, listing) && Reads(db.templateStages, listing, names)
    ensures var answer := ApplyTemplate(db, org, job, template, listing, index);
      && (!Owns(db, org, job) ==> answer == (db, Err(NotFound)))
      && (Owns(db, org, job) && !OwnsTemplate(db, org, template) ==> answer == (db, Err(Unprocessable)))
      && (Owns(db, org, job) && OwnsTemplate(db, org, template) ==> answer == SetStages(db, job, names, index))
  {
    assert NamesOf(db.templateStages, listing) == names;
  }

  // --------------------------------------------------------------- templates

  lemma UpdateTemplateAnswer(db: Db, org: Id, id: Id, name: Option<string>, names: Option<seq<string>>)
    ensures var (db', r) := UpdateTemplate(db, org, id, name, names);
      && (OwnsTemplate(db, org, id) ==> r == Ok(id))
      && (!OwnsTemplate(db, org, id) ==> r == Err(NotFound) && db' == db)
      && (r.Ok? ==>
            && db'.templates.Keys == db.templates.Keys && db'.templates[id].org == org
            && db'.templates[id].name == (if name.Some? then name.value else db.templates[id].name))
      && (forall t :: t in db.templates && t != id ==> t in db'.templates && db'.templates[t] == db.templates[t])
      && (names == None ==> db'.templateStages == db.templateStages)
  {
  }

  lemma RemoveTemplateAnswer(db: Db, org: Id, id: Id)
    ensures var (db', r) := RemoveTemplate(db, org, id);
      && (OwnsTemplate(db, org, id) ==> r == Ok(id) && id !in db'.templates)
      && (!OwnsTemplate(db, org, id) ==> r == Err(NotFound) && db' == db)
      && (r.Ok? ==> forall s :: s in db'.templateStages <==> s in db.templateStages && db.templateStages[s].owner != id)
      && (forall s :: s in db'.templateStages ==> db'.templateStages[s] == db.templateStages[s])
      && (forall t :: t in db.templates && t != id ==> t in db'.templates && db'.templates[t] == db.templates[t])
  {
  }

  lemma CreateTemplateAnswer(db: Db, org: Id, name: string, names: seq<string>)
    ensures var (db', r) := CreateTemplate(db, org, name, names);
      r == Ok(db.next) && db'.templates == db.templates[db.next := Template(org, name)]
  {
  }

  // ------------------------------------------------------------ applications

  /** Candidates can apply: the job is published and its organization active. */
  predicate Applicable(db: Db, job: Id) {
    job in db.jobs && db.jobs[job].status == Published && db.jobs[job].org in db.orgs
    && db.orgs[db.jobs[job].org] == OrgStatus.Active
  }

  ghost predicate Applied(db: Db, job: Id, candidate: Id) {
    exists a :: a in db.apps && db.apps[a].job == job && db.apps[a].candidate == candidate
      && db.apps[a].status == AppStatus.Active
  }

  /** The candidate has the CV asked for, or a primary one where none is. */
  ghost predicate HasCv(db: Db, candidate: Id, requested: Option<Id>) {
    exists c :: Attaches(db, candidate, requested, c)
  }

  predicate Attaches(db: Db, candidate: Id, requested: Option<Id>, cv: Id) {
    && cv in db.cvs && db.cvs[cv].candidate == candidate
    && (requested.Some? ==> cv == requested.value) && (requested.None? ==> db.cvs[cv].primary)
  }

  /** In every reachable state: who may apply, and where the application starts, in
      a stage of the job with the least order, with the CV asked for or a primary one. */
  lemma CreateAnswer(ops: seq<Op>, candidate: Id, job: Id, requested: Option<Id>, cv: Option<Id>, first: Option<Id>)
    requires IsRun(Empty, ops) && Possible(After(Empty, ops), CreateOp(candidate, job, requested, cv, first))
    ensures var db := After(Empty, ops);
      var (db', r) := Create(db, candidate, job, cv, first);
      && (r == Err(NotFound) <==> !Applicable(db, job))
      && (r == Err(Unprocessable) <==> Applicable(db, job) && !HasCv(db, candidate, requested))
      && (r == Err(Conflict) <==> Applicable(db, job) && HasCv(db, candidate, requested) && Applied(db, job, candidate))
      && (r.Ok? <==> Applicable(db, job) && HasCv(db, candidate, requested) && !Applied(db, job, candidate))
      && (r.Err? ==> db' == db)
      && (r.Ok? ==>
            && r.value == db.next && r.value !in db.apps && db'.apps.Keys == db.apps.Keys + {r.value}
            && StartsAt(db, db'.apps[r.value], candidate, job)
            && Attaches(db, candidate, requested, db'.apps[r.value].cv)
            && db'.history == db.history && db'.audit == db.audit && db'.notes == db.notes)
  {
    ReachableSound(ops);
    CvAttached(After(Empty, ops), candidate, requested, cv);
  }

  lemma CvAttached(db: Db, candidate: Id, requested: Option<Id>, cv: Option<Id>)
    requires ResolvesTo(db.cvs, candidate, requested, cv)
    ensures cv.Some? <==> HasCv(db, candidate, requested)
    ensures cv.Some? ==> Attaches(db, candidate, requested, cv.value)
  {
    if cv.Some? {
      assert Attaches(db, candidate, requested, cv.value);
    }
  }

  /** A new application's columns. */
  ghost predicate StartsAt(db: Db, app: App, candidate: Id, job: Id) {
    && app.candidate == candidate && app.job == job && job in db.jobs && app.org == db.jobs[job].org
    && app.status == AppStatus.Active && app.reason == None
    && app.stage in db.stages && db.stages[app.stage].owner == job
    && (forall s :: s in db.stages && db.stages[s].owner == job ==> db.stages[app.stage].order <= db.stages[s].order)
  }

  lemma WithdrawAnswer(db: Db, candidate: Id, a: Id)
    ensures var (db', r) := Withdraw(db, candidate, a);
      && (r == Err(NotFound) <==> !(a in db.apps && db.apps[a].candidate == candidate))
      && (r == Err(Conflict) <==>
            a in db.apps && db.apps[a].candidate == candidate && db.apps[a].status != AppStatus.Active)
      && (r.Ok? <==> a in db.apps && db.apps[a].candidate == candidate && db.apps[a].status == AppStatus.Active)
      && db' == if r.Ok? then db.(apps := db.apps[a := db.apps[a].(status := Withdrawn)]) else db
  {
  }

  /** A rejection, by screening or by decision: status and reason, one audit entry,
      one notification to the candidate, both with that reason. */
  ghost predicate RejectedNow(db: Db, db': Db, actor: Id, a: Id, reason: Option<string>, source: Source) {
    && a in db.apps && db'.apps.Keys == db.apps.Keys
    && (forall b :: b in db.apps && b != a ==> db'.apps[b] == db.apps[b])
    && db'.apps[a] == db.apps[a].(status := AppStatus.Rejected, reason := reason)
    && db'.audit == db.audit + [Audit(actor, db.apps[a].org, false, a, reason, Some(source))]
    && db'.notes == db.notes + [Note(db.apps[a].candidate, a, reason, source)]
    && db'.history == db.history
  }

  /** In every reachable state. next is the row found one order up. */
  lemma ScreenAnswer(ops: seq<Op>, org: Id, actor: Id, job: Id, a: Id, s: Screening)
    requires IsRun(Empty, ops) && Possible(After(Empty, ops), ScreenOp(org, actor, job, a, s))
    ensures var db := After(Empty, ops);
      var (db', r) := Screen(db, org, actor, job, a, s);
      var open := Handles(db, org, job, a) && db.apps[a].status == AppStatus.Active;
      && (r == Err(NotFound) <==> !Handles(db, org, job, a))
      && (r == Err(Conflict) <==> Handles(db, org, job, a) && db.apps[a].status != AppStatus.Active)
      && (r == Err(Unprocessable) <==> open && s.Pass? && !RaisedTo(db, a, job))
      && (r.Ok? <==> open && (s.Pass? ==> RaisedTo(db, a, job)))
      && (r.Err? ==> db' == db)
      && (r.Ok? && s.Reject? ==> RejectedNow(db, db', actor, a, s.reason, Source.Screening))
      && (r.Ok? && s.Pass? ==> PassedNow(db, db', actor, a, job))
  {
    ReachableSound(ops);
    ReachableReasons(ops);
  }

  ghost predicate RaisedTo(db: Db, a: Id, job: Id)
    requires a in db.apps
  {
    && db.apps[a].stage in db.stages
    && exists x ::
      x in db.stages && db.stages[x].owner == job && db.stages[x].order == db.stages[db.apps[a].stage].order + 1
  }

  /** A PASS: the application's stage moves to one of its job one order up, and the
      move is appended to the history. */
  ghost predicate PassedNow(db: Db, db': Db, actor: Id, a: Id, job: Id) {
    && a in db.apps && db'.apps.Keys == db.apps.Keys
    && (forall b :: b in db.apps && b != a ==> db'.apps[b] == db.apps[b])
    && db'.apps[a] == db.apps[a].(stage := db'.apps[a].stage)
    && db.apps[a].stage in db.stages && db'.apps[a].stage in db.stages
    && db.stages[db'.apps[a].stage].owner == job
    && db.stages[db'.apps[a].stage].order == db.stages[db.apps[a].stage].order + 1
    && db'.history == db.history + [Move(a, Some(db.apps[a].stage), db'.apps[a].stage, actor)]
    && db'.audit == db.audit && db'.notes == db.notes
  }

  lemma DecideAnswer(ops: seq<Op>, org: Id, actor: Id, job: Id, a: Id, hire: bool, reason: Option<string>)
    requires IsRun(Empty, ops)
    ensures var db := After(Empty, ops);
      var (db', r) := Decide(db, org, actor, job, a, hire, reason);
      && (r == Err(NotFound) <==> !Handles(db, org, job, a))
      && (r == Err(Conflict) <==> Handles(db, org, job, a) && db.apps[a].status != AppStatus.Active)
      && (r.Ok? <==> Handles(db, org, job, a) && db.apps[a].status == AppStatus.Active)
      && (r.Err? ==> db' == db)
      && (r.Ok? && !hire ==> RejectedNow(db, db', actor, a, reason, Decision))
      && (r.Ok? && hire ==>
            && db'.apps == db.apps[a := db.apps[a].(status := Hired)]
            && db'.audit == db.audit + [Audit(actor, org, true, a, None, None)]
            && db'.notes == db.notes && db'.history == db.history)
  {
    ReachableSound(ops);
    ReachableReasons(ops);
  }

  // ------------------------------------------------------- the status, told

  datatype Ending = Withdrawing | Hiring | Rejecting(reason: Option<string>)

  /** The request succeeds and asks for this ending of this application, in the name
      of whom it belongs to. */
  ghost predicate Ends(db: Db, op: Op, a: Id, e: Ending) {
    && Step(db, op).1.Ok? && a in db.apps
    && match e
       case Withdrawing => op.WithdrawOp? && op.app == a && op.candidate == db.apps[a].candidate
       case Hiring => op.DecideOp? && op.app == a && op.hire && op.org == db.apps[a].org
       case Rejecting(reason) =>
         || (op.ScreenOp? && op.app == a && op.s == Reject(reason) && op.org == db.apps[a].org)
         || (op.DecideOp? && op.app == a && !op.hire && op.reason == reason && op.org == db.apps[a].org)
  }

  ghost predicate Ended(ops: seq<Op>, a: Id, e: Ending) {
    ops != [] &&
      var init := ops[..|ops| - 1];
      Ended(init, a, e) || Ends(After(Empty, init), ops[|ops| - 1], a, e)
  }

  /** The status and the reason spell this ending. */
  predicate Spells(app: App, e: Ending) {
    match e
    case Withdrawing => app.status == Withdrawn
    case Hiring => app.status == Hired
    case Rejecting(reason) => app.status == AppStatus.Rejected && app.reason == reason
  }

  predicate Moves(op: Op) { op.WithdrawOp? || op.ScreenOp? || op.DecideOp? }

  lemma WithdrawSpells(db: Db, candidate: Id, x: Id, a: Id, e: Ending)
    requires a in db.apps && (db.apps[a].status != AppStatus.Rejected ==> db.apps[a].reason == None)
    ensures var (db', r) := Withdraw(db, candidate, x);
      && a in db'.apps
      && (Spells(db'.apps[a], e)
          <==> || Spells(db.apps[a], e)
               || (r.Ok? && x == a && candidate == db.apps[a].candidate && e == Withdrawing))
  {
  }

  lemma ScreenSpells(db: Db, org: Id, actor: Id, job: Id, x: Id, s: Screening, a: Id, e: Ending)
    requires a in db.apps && (db.apps[a].status != AppStatus.Rejected ==> db.apps[a].reason == None)
    ensures var (db', r) := Screen(db, org, actor, job, x, s);
      && a in db'.apps
      && (Spells(db'.apps[a], e)
          <==> || Spells(db.apps[a], e)
               || (r.Ok? && x == a && org == db.apps[a].org && s.Reject? && e == Ending.Rejecting(s.reason)))
  {
  }

  lemma DecideSpells(db: Db, org: Id, actor: Id, job: Id, x: Id, hire: bool, reason: Option<string>, a: Id, e: Ending)
    requires a in db.apps && (db.apps[a].status != AppStatus.Rejected ==> db.apps[a].reason == None)
    ensures var (db', r) := Decide(db, org, actor, job, x, hire, reason);
      && a in db'.apps
      && (Spells(db'.apps[a], e)
          <==> || Spells(db.apps[a], e)
               || (r.Ok? && x == a && org == db.apps[a].org && e == if hire then Hiring else Ending.Rejecting(reason)))
  {
  }

  lemma OtherSpells(db: Db, op: Op, a: Id, e: Ending)
    requires Sound(db) && !Moves(op)
    ensures var db' := Step(db, op).0;
      && !Ends(db, op, a, e)
      && (a in db.apps ==> a in db'.apps && db'.apps[a] == db.apps[a])
      && (a !in db.apps && a in db'.apps ==> !Spells(db'.apps[a], e))
  {
    StepEffect(db, op);
  }

  lemma MoversCreateNone(db: Db, op: Op, a: Id)
    requires Sound(db) && Moves(op)
    ensures a in Step(db, op).0.apps <==> a in db.apps
  {
    StepEffect(db, op);
  }

  lemma MoverSpells(db: Db, op: Op, a: Id, e: Ending)
    requires Moves(op) && a in db.apps && (db.apps[a].status != AppStatus.Rejected ==> db.apps[a].reason == None)
    ensures var db' := Step(db, op).0;
      a in db'.apps && (Spells(db'.apps[a], e) <==> Spells(db.apps[a], e) || Ends(db, op, a, e))
  {
    match op
    case WithdrawOp(candidate, x) => WithdrawSpells(db, candidate, x, a, e);
    case ScreenOp(org, actor, job, x, s) => ScreenSpells(db, org, actor, job, x, s, a, e);
    case DecideOp(org, actor, job, x, hire, reason) => DecideSpells(db, org, actor, job, x, hire, reason, a, e);
  }

  lemma StepSpells(db: Db, op: Op, a: Id, e: Ending)
    requires Sound(db) && Reasons(SideOf(db))
    ensures var db' := Step(db, op).0;
      && (a in db.apps ==> a in db'.apps && (Spells(db'.apps[a], e) <==> Spells(db.apps[a], e) || Ends(db, op, a, e)))
      && (a !in db.apps ==> !Ends(db, op, a, e) && (a in db'.apps ==> !Spells(db'.apps[a], e)))
  {
    if !Moves(op) {
      OtherSpells(db, op, a, e);
    } else if a !in db.apps {
      MoversCreateNone(db, op, a);
    } else {
      MoverSpells(db, op, a, e);
    }
  }

  /** Over every run an application's status and reason tell how it ended: withdrawn
      exactly by a successful request of its own candidate, hired exactly by a
      successful decision of its organization, rejected with a reason exactly by a
      successful screening or decision of its organization with that reason. */
  lemma {:induction false} ApplicationTellsStory(ops: seq<Op>, a: Id, e: Ending)
    requires IsRun(Empty, ops)
    ensures a in After(Empty, ops).apps ==> (Spells(After(Empty, ops).apps[a], e) <==> Ended(ops, a, e))
    ensures a !in After(Empty, ops).apps ==> !Ended(ops, a, e)
  {
    if ops != [] {
      var init := ops[..|ops| - 1];
      ApplicationTellsStory(init, a, e);
      ReachableSound(init);
      ReachableReasons(init);
      StepSpells(After(Empty, init), ops[|ops| - 1], a, e);
    }
  }
}
