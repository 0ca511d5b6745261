/** Pipeline templates are snapshots: what a job gets from a template is the
    list the template was last given, and nothing done to the template later
    reaches the job. */
module Templates {
  import opened Common
  import opened StageRows
  import opened Pipeline
  import opened Frames
  import opened Applications

  lemma ReadsNames(t: Table, listing: seq<Id>, names: seq<string>)
    requires Reads(t, listing, names)
    ensures NamesOf(t, listing) == names
  {
  }

  lemma NewRowsExact(t: Table, owner: Id, names: seq<string>, base: Id)
    requires !HasRows(t, owner) && Below(t, base)
    ensures Exact(Place(t, owner, names, map[], base, |names|), owner, names)
  {
    CreateIsRecreate(t, owner, names, base);
    RecreateExact(t, owner, names, base);
  }

  /** Creating a template stores exactly the names given, repeats included. */
  lemma CreatedTemplateExact(db: Db, org: Id, name: string, names: seq<string>)
    requires Sound(db)
    ensures var (db', r) := CreateTemplate(db, org, name, names);
      r.Ok? && TemplateIn(db', org, r.value) && Exact(db'.templateStages, r.value, names)
  {
    assert forall s :: s in db.templateStages ==> db.templateStages[s].owner in db.templates;
    NewRowsExact(db.templateStages, db.next, names, db.next + 1);
  }

  /** Updating one replaces its list by exactly the new names. */
  lemma UpdatedTemplateExact(db: Db, org: Id, id: Id, name: Option<string>, names: seq<string>)
    requires Sound(db) && TemplateIn(db, org, id)
    ensures Exact(UpdateTemplate(db, org, id, name, Some(names)).0.templateStages, id, names)
  {
    RecreateExact(db.templateStages, id, names, db.next);
  }

  /** The request gives this template a new list, or deletes it. */
  ghost predicate Rewrites(op: Op, template: Id) {
    || (op.UpdateTemplateOp? && op.template == template && op.restage.Some?)
    || (op.RemoveTemplateOp? && op.template == template)
  }

  lemma RecreateOther(t: Table, owner: Id, ns: seq<string>, base: Id, template: Id, names: seq<string>)
    requires Below(t, base) && Exact(t, template, names) && template != owner
    ensures Exact(Recreate(t, owner, ns, base), template, names)
  {
    RecreateExact(t, owner, ns, base);
    ExactFrame(t, Recreate(t, owner, ns, base), template, names);
  }

  lemma CreateKeeps(db: Db, org: Id, name: string, ns: seq<string>, template: Id, names: seq<string>)
    requires Below(db.templateStages, db.next) && !HasRows(db.templateStages, db.next)
    requires Exact(db.templateStages, template, names) && template < db.next
    ensures Exact(CreateTemplate(db, org, name, ns).0.templateStages, template, names)
  {
    CreateIsRecreate(db.templateStages, db.next, ns, db.next + 1);
    RecreateOther(db.templateStages, db.next, ns, db.next + 1, template, names);
  }

  lemma UpdateKeeps(db: Db, org: Id, id: Id, name: Option<string>, ns: Option<seq<string>>, template: Id,
      names: seq<string>)
    requires Below(db.templateStages, db.next) && Exact(db.templateStages, template, names)
    requires id == template ==> ns.None?
    ensures Exact(UpdateTemplate(db, org, id, name, ns).0.templateStages, template, names)
  {
    if ns.Some? {
      RecreateOther(db.templateStages, id, ns.value, db.next, template, names);
    }
  }

  lemma RemoveKeeps(db: Db, org: Id, id: Id, template: Id, names: seq<string>)
    requires Exact(db.templateStages, template, names) && id != template
    ensures Exact(RemoveTemplate(db, org, id).0.templateStages, template, names)
  {
    ExactFrame(db.templateStages, db.templateStages - OwnedBy(db.templateStages, id), template, names);
  }

  lemma StepKeepsTemplate(db: Db, op: Op, template: Id, names: seq<string>)
    requires Below(db.templateStages, db.next) && !HasRows(db.templateStages, db.next)
    requires Exact(db.templateStages, template, names) && template < db.next && !Rewrites(op, template)
    ensures Exact(Step(db, op).0.templateStages, template, names) && template < Step(db, op).0.next
  {
    StepFrame(db, op);
    match op
    case CreateTemplateOp(org, name, ns) => CreateKeeps(db, org, name, ns, template, names);
    case UpdateTemplateOp(org, id, name, ns) => UpdateKeeps(db, org, id, name, ns, template, names);
    case RemoveTemplateOp(org, id) => RemoveKeeps(db, org, id, template, names);
    case _ =>
  }

  lemma {:induction false} RunKeepsTemplate(db: Db, ops: seq<Op>, template: Id, names: seq<string>)
    requires Sound(db) && IsRun(db, ops) && Exact(db.templateStages, template, names) && template < db.next
    requires forall op :: op in ops ==> !Rewrites(op, template)
    ensures Exact(After(db, ops).templateStages, template, names) && template < After(db, ops).next
  {
    if ops != [] {
      var init := ops[..|ops| - 1];
      RunKeepsTemplate(db, init, template, names);
      SoundRun(db, init);
      StepKeepsTemplate(After(db, init), ops[|ops| - 1], template, names);
    }
  }

  /** Round trip: however many requests pass between giving a template its list
      and applying it, the job is asked for exactly that list, and shows it
      exactly when the edit is clean; always, for distinct names on a pipeline
      of distinct names. */
  lemma TemplateRoundTrip(db: Db, ops: seq<Op>, org: Id, job: Id, template: Id, names: seq<string>, listing: seq<Id>,
      index: map<string, Id>)
    requires Sound(db) && IsRun(db, ops) && Exact(db.templateStages, template, names) && template < db.next
    requires forall op :: op in ops ==> !Rewrites(op, template)
    requires Possible(After(db, ops), ApplyTemplateOp(org, job, template, listing, index))
    requires ApplyTemplate(After(db, ops), org, job, template, listing, index).1.Ok?
    ensures var mid := After(db, ops);
      var after := ApplyTemplate(mid, org, job, template, listing, index).0;
      && NamesOf(mid.templateStages, listing) == names
      && (Exact(after.stages, job, names) <==> CleanEdit(mid.stages, job, names, index))
      && (Distinct(names) && TidyJob(mid.stages, job) ==> Exact(after.stages, job, names))
  {
    var mid := After(db, ops);
    RunKeepsTemplate(db, ops, template, names);
    SoundRun(db, ops);
    ListingReads(mid.templateStages, template, listing, names);
    ReadsNames(mid.templateStages, listing, names);
    EditRefinesRecreate(mid.stages, job, names, index, mid.next);
    if Distinct(names) && TidyJob(mid.stages, job) {
      var was :| Distinct(was) && Exact(mid.stages, job, was);
      ExactUniqueNames(mid.stages, job, was);
      DistinctEdit(mid.stages, job, names, index, mid.next);
    }
  }

  /** No template request changes any job's stages. */
  lemma TemplatesNeverReachJobs(db: Db, op: Op)
    requires EditsTemplates(op)
    ensures Step(db, op).0.stages == db.stages && Step(db, op).0.jobs == db.jobs
  {
    StepFrame(db, op);
  }
}
