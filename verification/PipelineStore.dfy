/** The store and the service methods that work on it: JobsService,
    PipelineTemplatesService and ApplicationsService. Each method is proved to do
    exactly one step of the state machine in Pipeline. */
module PipelineStore {
  import opened Common
  import opened StageRows
  import opened Pipeline
  import opened Applications

  /** One joined history entry as the endpoint returns it. */
  datatype Named = Named(id: Id, name: string)
  datatype HistoryEntry = HistoryEntry(fromStage: Option<Named>, toStage: Option<Named>, movedBy: Option<Named>)

  function Lookup(rows: Table, id: Id): Option<Named> {
    if id in rows then Some(Named(id, rows[id].name)) else None
  }

  function LookupUser(users: map<Id, string>, id: Id): Option<Named> {
    if id in users then Some(Named(id, users[id])) else None
  }

  /** The per-entry join: each id looked up on its own in the full tables. */
  function Joined(stages: Table, users: map<Id, string>, m: Move): HistoryEntry {
    HistoryEntry(
      if m.from.Some? then Lookup(stages, m.from.value) else None,
      Lookup(stages, m.to),
      LookupUser(users, m.mover))
  }

  /** findMany over one owner's rows, orderBy order asc. */
  method FindRows(t: Table, owner: Id) returns (ids: seq<Id>)
    ensures IsListing(t, owner, ids)
  {
    ids := OrderBy(set id | id in t && t[id].owner == owner, map id | id in t :: t[id].order);
  }

  /** What the endpoint shows, said of the columns: consecutive entries link, the
      first one leaves the stage the application was created in, the last one
      reached the stage it is in now, and each entry names its stages and mover. */
  ghost predicate ShowsHistory(db: Db, users: map<Id, string>, a: Id, entries: seq<HistoryEntry>)
    requires a in db.apps && db.apps[a].stage in db.stages
  {
    var trail := Trail(db.history, a);
    && |entries| == |trail|
    && (forall i :: 0 <= i < |entries| ==>
          && (entries[i].toStage.Some? <==> trail[i].to in db.stages)
          && (entries[i].toStage.Some? ==> entries[i].toStage.value == Named(trail[i].to, db.stages[trail[i].to].name))
          && (entries[i].movedBy.Some? <==> trail[i].mover in users)
          && (entries[i].movedBy.Some? ==> entries[i].movedBy.value == Named(trail[i].mover, users[trail[i].mover])))
    && (forall i :: 0 < i < |entries| ==> entries[i].fromStage == entries[i - 1].toStage)
    && (entries != [] ==>
          && (entries[0].fromStage.Some? <==> db.apps[a].createdIn in db.stages)
          && (entries[0].fromStage.Some? ==>
                entries[0].fromStage.value == Named(db.apps[a].createdIn, db.stages[db.apps[a].createdIn].name))
          && entries[|entries| - 1].toStage == Some(Named(db.apps[a].stage, db.stages[db.apps[a].stage].name)))
  }

  lemma JoinShowsHistory(db: Db, users: map<Id, string>, a: Id, entries: seq<HistoryEntry>)
    requires Sound(db) && Replayable(SideOf(db)) && a in db.apps
    requires |entries| == |Trail(db.history, a)|
    requires forall i :: 0 <= i < |entries| ==> entries[i] == Joined(db.stages, users, Trail(db.history, a)[i])
    ensures ShowsHistory(db, users, a, entries)
  {
    var trail := Trail(db.history, a);
    ReplayLinks(trail, db.apps[a].createdIn, db.apps[a].stage);
    forall i | 0 <= i < |trail|
      ensures trail[i].from == Some(if i == 0 then db.apps[a].createdIn else trail[i - 1].to) {
      assert trail[i].from == Leaves(trail, db.apps[a].createdIn, i);
    }
    assert Some(db.apps[a].stage) == Leaves(trail, db.apps[a].createdIn, |trail|);
  }

  class Store {
    var orgs: map<Id, OrgStatus>
    var cvs: map<Id, Cv>
    var jobs: map<Id, Job>
    var stages: Table
    var templates: map<Id, Template>
    var templateStages: Table
    var apps: map<Id, App>
    var history: seq<Move>
    var audit: seq<Audit>
    var notes: seq<Note>
    var next: Id

    ghost function View(): Db
      reads this
    {
      Db(orgs, cvs, jobs, stages, templates, templateStages, apps, history, audit, notes, next)
    }

    constructor ()
      ensures View() == Empty
    {
      orgs, cvs, jobs, stages, templates, templateStages := map[], map[], map[], map[], map[], map[];
      apps, history, audit, notes, next := map[], [], [], [], 0;
    }

    // ---------------------------------------------------------------- jobs

    method CreateJob(org: Id, salaryMin: Option<nat>, salaryMax: Option<nat>) returns (r: Result<Id>)
      modifies this`jobs, this`next
      ensures (View(), r) == Pipeline.CreateJob(old(View()), org, salaryMin, salaryMax)
    {
      if salaryMin.Some? && salaryMax.Some? && salaryMin.value > salaryMax.value {
        return Err(BadRequest);
      }
      jobs := jobs[next := Job(org, Draft)];
      r := Ok(next);
      next := next + 1;
    }

    /** new Map(existing.map(s => [s.name, s])). */
    method IndexByName(job: Id, existing: seq<Id>) returns (index: map<string, Id>)
      requires IsListing(stages, job, existing)
      ensures IsIndex(stages, job, index)
    {
      index := map[];
      for i := 0 to |existing|
        invariant forall n :: n in index ==>
          index[n] in stages && stages[index[n]].owner == job && stages[index[n]].name == n
        invariant forall j :: 0 <= j < i ==> existing[j] in stages && stages[existing[j]].name in index
      {
        assert existing[i] in existing;
        index := index[stages[existing[i]].name := existing[i]];
      }
      forall id | id in stages && stages[id].owner == job ensures stages[id].name in index {
        assert id in existing;
      }
    }

    /** The write loop: update the order of a matching row, or create one. */
    method PlaceStages(job: Id, names: seq<string>, index: map<string, Id>)
      requires forall n :: n in names && n in index ==> index[n] in stages
      modifies this`stages, this`next
      ensures stages == Place(old(stages), job, names, index, old(next), |names|)
      ensures next == old(next) + |names|
    {
      var base := next;
      for k := 0 to |names|
        invariant next == base
        invariant stages == Place(old(stages), job, names, index, base, k)
        invariant old(stages).Keys <= stages.Keys
      {
        var name := names[k];
        assert name in names;
        if name in index {
          var reused := index[name];
          stages := stages[reused := stages[reused].(order := k)];
        } else {
          stages := stages[base + k := Row(job, name, k)];
        }
      }
      next := base + |names|;
    }

    /** Replaces the job's pipeline by diffing against the rows it has. `index` is
        the reuse map the scan produced. */
    method SetStages(job: Id, names: seq<string>) returns (r: Result<seq<Id>>, ghost index: map<string, Id>)
      requires Below(stages, next)
      modifies this`stages, this`next
      ensures IsIndex(old(stages), job, index)
      ensures View() == Pipeline.SetStages(old(View()), job, names, index).0
      ensures Pipeline.SetStages(old(View()), job, names, index).1 == if r.Ok? then Ok(job) else Err(r.error)
      ensures r.Ok? ==> IsListing(stages, job, r.value)
    {
      var existing := FindRows(stages, job);
      var existingByName := IndexByName(job, existing);
      index := existingByName;
      var toRemove := set id | id in existing && stages[id].name !in names;
      assert toRemove == Dropped(stages, job, names);
      if toRemove != {} {
        if exists a :: a in apps && apps[a].job == job && apps[a].stage in toRemove {
          return Err(Conflict), index;
        }
        stages := stages - toRemove;
      }
      assert stages == old(stages) - Dropped(old(stages), job, names);
      PlaceStages(job, names, existingByName);
      var ids := FindRows(stages, job);
      r := Ok(ids);
    }

    method ReplaceStages(org: Id, job: Id, names: seq<string>)
      returns (r: Result<seq<Id>>, ghost index: map<string, Id>)
      requires Below(stages, next)
      modifies this`stages, this`next
      ensures JobIn(old(View()), org, job) ==> IsIndex(old(stages), job, index)
      ensures View() == Pipeline.ReplaceStages(old(View()), org, job, names, index).0
      ensures Pipeline.ReplaceStages(old(View()), org, job, names, index).1 == if r.Ok? then Ok(job) else Err(r.error)
      ensures r.Ok? ==> IsListing(stages, job, r.value)
    {
      if job !in jobs || jobs[job].org != org {
        return Err(NotFound), map[];
      }
      r, index := SetStages(job, names);
    }

    method ApplyTemplate(org: Id, job: Id, template: Id)
      returns (r: Result<seq<Id>>, ghost listing: seq<Id>, ghost index: map<string, Id>)
      requires Below(stages, next)
      modifies this`stages, this`next
      ensures JobIn(old(View()), org, job) && TemplateIn(old(View()), org, template) ==>
                IsIndex(old(stages), job, index) && IsListing(old(templateStages), template, listing)
      ensures View() == Pipeline.ApplyTemplate(old(View()), org, job, template, listing, index).0
      ensures Pipeline.ApplyTemplate(old(View()), org, job, template, listing, index).1 == if r.Ok? then Ok(job)
        else Err(r.error)
      ensures r.Ok? ==> IsListing(stages, job, r.value)
    {
      if job !in jobs || jobs[job].org != org {
        return Err(NotFound), [], map[];
      }
      if template !in templates || templates[template].org != org {
        return Err(Unprocessable), [], map[];
      }
      var sorted := FindRows(templateStages, template);
      listing := sorted;
      var stageNames: seq<string> := [];
      for i := 0 to |sorted|
        invariant stageNames == NamesOf(templateStages, sorted)[..i]
      {
        assert sorted[i] in sorted;
        stageNames := stageNames + [templateStages[sorted[i]].name];
      }
      assert stageNames == NamesOf(templateStages, listing);
      r, index := SetStages(job, stageNames);
    }

    method Publish(org: Id, job: Id) returns (r: Result<Id>)
      modifies this`jobs
      ensures (View(), r) == Pipeline.Publish(old(View()), org, job)
    {
      if job !in jobs || jobs[job].org != org {
        return Err(NotFound);
      }
      if jobs[job].status != Draft {
        return Err(Conflict);
      }
      var rows := set id | id in stages && stages[id].owner == job;
      assert HasRows(stages, job) <==> rows != {} by {
        assert forall id :: id in stages && stages[id].owner == job ==> id in rows;
      }
      if |rows| == 0 {
        return Err(Unprocessable);
      }
      jobs := jobs[job := jobs[job].(status := Published)];
      r := Ok(job);
    }

    method Close(org: Id, job: Id) returns (r: Result<Id>)
      modifies this`jobs
      ensures (View(), r) == Pipeline.Close(old(View()), org, job)
    {
      if job !in jobs || jobs[job].org != org {
        return Err(NotFound);
      }
      if jobs[job].status != Published {
        return Err(Conflict);
      }
      jobs := jobs[job := jobs[job].(status := Closed)];
      r := Ok(job);
    }

    method Archive(org: Id, job: Id) returns (r: Result<Id>)
      modifies this`jobs
      ensures (View(), r) == Pipeline.Archive(old(View()), org, job)
    {
      if job !in jobs || jobs[job].org != org {
        return Err(NotFound);
      }
      if jobs[job].status == Archived {
        return Err(Conflict);
      }
      jobs := jobs[job := jobs[job].(status := Archived)];
      r := Ok(job);
    }

    // ----------------------------------------------------------- templates

    /** createMany of one template stage per name, order the array index. */
    method CreateTemplateStages(template: Id, names: seq<string>)
      modifies this`templateStages, this`next
      ensures templateStages == Place(old(templateStages), template, names, map[], old(next), |names|)
      ensures next == old(next) + |names|
    {
      var base := next;
      for k := 0 to |names|
        invariant next == base
        invariant templateStages == Place(old(templateStages), template, names, map[], base, k)
      {
        templateStages := templateStages[base + k := Row(template, names[k], k)];
      }
      next := base + |names|;
    }

    method CreateTemplate(org: Id, name: string, names: seq<string>) returns (r: Result<Id>)
      modifies this`templates, this`templateStages, this`next
      ensures (View(), r) == Pipeline.CreateTemplate(old(View()), org, name, names)
    {
      var id := next;
      templates := templates[id := Template(org, name)];
      next := next + 1;
      CreateTemplateStages(id, names);
      r := Ok(id);
    }

    method UpdateTemplate(org: Id, id: Id, name: Option<string>, names: Option<seq<string>>) returns (r: Result<Id>)
      modifies this`templates, this`templateStages, this`next
      ensures (View(), r) == Pipeline.UpdateTemplate(old(View()), org, id, name, names)
    {
      if id !in templates || templates[id].org != org {
        return Err(NotFound);
      }
      if name.Some? {
        templates := templates[id := templates[id].(name := name.value)];
      }
      if names.Some? {
        templateStages := map s | s in templateStages && templateStages[s].owner != id :: templateStages[s];
        CreateTemplateStages(id, names.value);
      }
      r := Ok(id);
    }

    method RemoveTemplate(org: Id, id: Id) returns (r: Result<Id>)
      modifies this`templates, this`templateStages
      ensures (View(), r) == Pipeline.RemoveTemplate(old(View()), org, id)
    {
      if id !in templates || templates[id].org != org {
        return Err(NotFound);
      }
      templates := templates - {id};
      templateStages := templateStages - set s | s in templateStages && templateStages[s].owner == id;
      r := Ok(id);
    }

    // -------------------------------------------------------- applications

    method ResolveCvId(candidate: Id, requested: Option<Id>) returns (cv: Option<Id>)
      ensures ResolvesTo(cvs, candidate, requested, cv)
      ensures cv.Some? ==> cv.value in cvs && cvs[cv.value].candidate == candidate
      ensures requested.Some? ==>
        cv == if requested.value in cvs && cvs[requested.value].candidate == candidate then requested else None
      ensures requested.None? ==>
        if cv.Some? then cvs[cv.value].primary
        else forall id :: id in cvs && cvs[id].candidate == candidate ==> !cvs[id].primary
    {
      if requested.Some? {
        return if requested.value in cvs && cvs[requested.value].candidate == candidate then requested else None;
      }
      var primary := set id | id in cvs && cvs[id].candidate == candidate && cvs[id].primary;
      if primary == {} {
        forall id | id in cvs && cvs[id].candidate == candidate ensures !cvs[id].primary {
          assert id !in primary;
        }
        return None;
      }
      var id :| id in primary;
      cv := Some(id);
    }

    /** findFirst over the job's stages, orderBy order asc. */
    method FindFirstStage(job: Id) returns (first: Option<Id>)
      ensures IsFirst(stages, job, first)
    {
      var ordered := FindRows(stages, job);
      if ordered == [] {
        assert forall id :: id in stages && stages[id].owner == job ==> id in ordered;
        return None;
      }
      assert ordered[0] in ordered;
      first := Some(ordered[0]);
    }

    method Create(candidate: Id, job: Id, requested: Option<Id>)
      returns (r: Result<Id>, ghost cv: Option<Id>, ghost first: Option<Id>)
      modifies this`apps, this`next
      ensures Possible(old(View()), CreateOp(candidate, job, requested, cv, first))
      ensures (View(), r) == Pipeline.Create(old(View()), candidate, job, cv, first)
    {
      var resolved := ResolveCvId(candidate, requested);
      var stage := FindFirstStage(job);
      cv, first := resolved, stage;
      if job !in jobs || jobs[job].status != Published || jobs[job].org !in orgs
        || orgs[jobs[job].org] != OrgStatus.Active {
        return Err(NotFound), cv, first;
      }
      if resolved.None? {
        return Err(Unprocessable), cv, first;
      }
      if stage.None? {
        return Err(Internal), cv, first;
      }
      if exists a | a in apps ::
        apps[a].job == job && apps[a].candidate == candidate && apps[a].status == AppStatus.Active {
        return Err(Conflict), cv, first;
      }
      apps := apps[next :=
        App(job, candidate, jobs[job].org, resolved.value, stage.value, AppStatus.Active, None, stage.value)];
      r := Ok(next);
      next := next + 1;
    }

    method Withdraw(candidate: Id, id: Id) returns (r: Result<Id>)
      modifies this`apps
      ensures (View(), r) == Pipeline.Withdraw(old(View()), candidate, id)
    {
      if id !in apps || apps[id].candidate != candidate {
        return Err(NotFound);
      }
      if apps[id].status != AppStatus.Active {
        return Err(Conflict);
      }
      apps := apps[id := apps[id].(status := Withdrawn)];
      r := Ok(id);
    }

    /** `decision` is the body's own PASS or REJECT; `s` adds the stage row the
        store found for a PASS. */
    method Screen(org: Id, actor: Id, job: Id, id: Id, pass: bool, reason: Option<string>)
      returns (r: Result<Id>, ghost s: Screening)
      requires Sound(View())
      modifies this`apps, this`history, this`audit, this`notes
      ensures s.Pass? == pass && (s.Reject? ==> s.reason == reason)
      ensures AppIn(old(View()), org, job, id) && s.Pass? ==>
                IsAt(old(stages), job, old(stages)[old(apps)[id].stage].order + 1, s.next)
      ensures (View(), r) == Pipeline.Screen(old(View()), org, actor, job, id, s)
    {
      s := if pass then Pass(None) else Reject(reason);
      if id !in apps || apps[id].job != job || apps[id].org != org {
        return Err(NotFound), s;
      }
      var app := apps[id];
      var wanted := stages[app.stage].order + 1;
      var found := set x | x in stages && stages[x].owner == job && stages[x].order == wanted;
      if pass {
        if found == {} {
          assert forall x :: x in stages && stages[x].owner == job && stages[x].order == wanted ==> x in found;
        } else {
          var x :| x in found;
          s := Pass(Some(x));
        }
      }
      if app.status != AppStatus.Active {
        return Err(Conflict), s;
      }
      if !pass {
        apps := apps[id := WithReason(app.(status := AppStatus.Rejected), reason)];
        audit := audit + [Audit(actor, org, false, id, reason, Some(Source.Screening))];
        notes := notes + [Note(app.candidate, id, reason, Source.Screening)];
        return Ok(id), s;
      }
      if found == {} {
        return Err(Unprocessable), s;
      }
      var nextStage :| nextStage in found;
      s := Pass(Some(nextStage));
      apps := apps[id := app.(stage := nextStage)];
      history := history + [Move(id, Some(app.stage), nextStage, actor)];
      r := Ok(id);
    }

    method Decide(org: Id, actor: Id, job: Id, id: Id, hire: bool, reason: Option<string>) returns (r: Result<Id>)
      modifies this`apps, this`audit, this`notes
      ensures (View(), r) == Pipeline.Decide(old(View()), org, actor, job, id, hire, reason)
    {
      if id !in apps || apps[id].job != job || apps[id].org != org {
        return Err(NotFound);
      }
      var app := apps[id];
      if app.status != AppStatus.Active {
        return Err(Conflict);
      }
      apps := apps[id := if hire then app.(status := Hired)
        else WithReason(app.(status := AppStatus.Rejected), reason)];
      audit := audit
        + [if hire then Audit(actor, org, true, id, None, None)
          else Audit(actor, org, false, id, reason, Some(Decision))];
      if !hire {
        notes := notes + [Note(app.candidate, id, reason, Decision)];
      }
      r := Ok(id);
    }

    /** The history endpoint: ids are collected, stages and users fetched once in
        bulk, and every entry resolved against the fetched rows. The result is
        what joining each entry on its own against the full tables gives. */
    method GetStageHistoryForJob(users: map<Id, string>, org: Id, job: Id, id: Id)
      returns (r: Result<seq<HistoryEntry>>)
      ensures r.Ok? <==> AppIn(View(), org, job, id)
      ensures r.Err? ==> r.error == NotFound
      ensures r.Ok? ==> |r.value| == |Trail(history, id)|
      ensures r.Ok? ==> forall i :: 0 <= i < |r.value| ==> r.value[i] == Joined(stages, users, Trail(history, id)[i])
      ensures r.Ok? && Sound(View()) && Replayable(SideOf(View())) ==> ShowsHistory(View(), users, id, r.value)
    {
      if id !in apps || apps[id].job != job || apps[id].org != org {
        return Err(NotFound);
      }
      var rows: seq<Move> := [];
      for i := 0 to |history|
        invariant rows == Trail(history[..i], id)
      {
        assert history[..i + 1][..i] == history[..i];
        if history[i].app == id {
          rows := rows + [history[i]];
        }
      }
      assert history[..|history|] == history;
      var stageIds: set<Id> := {};
      var actorIds: set<Id> := {};
      for i := 0 to |rows|
        invariant forall j :: 0 <= j < i ==> rows[j].to in stageIds && rows[j].mover in actorIds
        invariant forall j :: 0 <= j < i && rows[j].from.Some? ==> rows[j].from.value in stageIds
      {
        if rows[i].from.Some? {
          stageIds := stageIds + {rows[i].from.value};
        }
        stageIds := stageIds + {rows[i].to};
        actorIds := actorIds + {rows[i].mover};
      }
      var stageById: map<Id, Row> := map s | s in stages && s in stageIds :: stages[s];
      var actorById: map<Id, string> := map u | u in users && u in actorIds :: users[u];
      var entries: seq<HistoryEntry> := [];
      for i := 0 to |rows|
        invariant |entries| == i
        invariant forall j :: 0 <= j < i ==> entries[j] == Joined(stages, users, rows[j])
      {
        var from := if rows[i].from.Some? then Lookup(stageById, rows[i].from.value) else None;
        entries := entries + [HistoryEntry(from, Lookup(stageById, rows[i].to), LookupUser(actorById, rows[i].mover))];
      }
      if Sound(View()) && Replayable(SideOf(View())) {
        JoinShowsHistory(View(), users, id, entries);
      }
      r := Ok(entries);
    }
  }
}
