/** Every offer and onboarding request of the shipped system, by its answer, and what
    an offer's status and a task's completion tell of the run. Said of the columns,
    with guards of its own. */
module HiringAnswers {
  import opened Common
  import opened Hiring
  import opened Paging
  import L = Lifecycle
  import P = Pipeline

  /** The offer as it is at this instant: sent and past its deadline is expired. */
  predicate Lapsed(o: Offer, now: nat) { o.status == Sent && o.expiresAt < now }

  predicate IsNow(o: Offer, stored: Offer, now: nat) {
    if Lapsed(stored, now) then o == stored.(status := Expired) else o == stored
  }

  /** The organization sees the application and its offer, or the candidate does. */
  predicate OrgSees(s: Sys, org: Id, job: Id, app: Id) {
    && app in s.db.apps && s.db.apps[app].job == job && s.db.apps[app].org == org
    && app in s.offers && s.offers[app].org == org
  }

  predicate CandidateSees(s: Sys, candidate: Id, app: Id) {
    app in s.db.apps && s.db.apps[app].candidate == candidate && app in s.offers
  }

  /** Only this offer was read, and brought up to now. */
  ghost predicate OnlyRead(s: Sys, s': Sys, app: Id) {
    && app in s.offers && app in s'.offers && IsNow(s'.offers[app], s.offers[app], s.now)
    && s' == s.(offers := s.offers[app := s'.offers[app]])
  }

  // ------------------------------------------------------------------ offers

  lemma OfferForJobAnswer(s: Sys, org: Id, job: Id, app: Id)
    ensures var (s', r) := OfferForJob(Lazy, s, org, job, app);
      if OrgSees(s, org, job, app) then OnlyRead(s, s', app) && r == Ok(s'.offers[app])
      else s' == s && r == Err(NotFound)
  {
  }

  lemma OfferMineAnswer(s: Sys, candidate: Id, app: Id)
    ensures var (s', r) := OfferMine(Lazy, s, candidate, app);
      if CandidateSees(s, candidate, app) then OnlyRead(s, s', app) && r == Ok(s'.offers[app])
      else s' == s && r == Err(NotFound)
  {
  }

  lemma CreateOfferAnswer(s: Sys, org: Id, job: Id, app: Id, title: string, expiresAt: nat)
    ensures var (s', r) := CreateOffer(s, org, job, app, title, expiresAt);
      var seen := app in s.db.apps && s.db.apps[app].job == job && s.db.apps[app].org == org;
      && (r == Err(NotFound) <==> !seen)
      && (r == Err(BadRequest) <==> seen && s.db.apps[app].status == P.Hired && expiresAt <= s.now)
      && (r == Err(Conflict) <==>
            seen && (s.db.apps[app].status != P.Hired || (expiresAt > s.now && app in s.offers)))
      && (r.Ok? <==> seen && s.db.apps[app].status == P.Hired && s.now < expiresAt && app !in s.offers)
      && (r.Err? ==> s' == s)
      && (r.Ok? ==>
            && r.value == Offer(s.next, org, title, expiresAt, Sent, s.now, None)
            && s' == s.(offers := s.offers[app := r.value], next := s.next + 1))
  {
  }

  /** Accepting makes an offer accepted and declining makes it declined, now; only
      for the candidate's own offer, still sent and within its deadline. */
  lemma RespondAnswer(s: Sys, candidate: Id, app: Id, accept: bool)
    ensures var (s', r) := Respond(Lazy, s, candidate, app, accept);
      && (r == Err(NotFound) <==> !CandidateSees(s, candidate, app))
      && (r == Err(Conflict) <==>
            CandidateSees(s, candidate, app) && (s.offers[app].status != Sent || s.offers[app].expiresAt < s.now))
      && (r.Ok? <==>
            CandidateSees(s, candidate, app) && s.offers[app].status == Sent && s.now <= s.offers[app].expiresAt)
      && (r == Err(NotFound) ==> s' == s)
      && (r == Err(Conflict) ==> OnlyRead(s, s', app))
      && (r.Ok? ==>
            && (accept ==> r.value.status == Accepted) && (!accept ==> r.value.status == Declined)
            && r.value == s.offers[app].(status := r.value.status, respondedAt := Some(s.now))
            && s' == s.(offers := s.offers[app := r.value]))
  {
  }

  /** The items are the listed offers from place `skip` on, each brought up to now
      and stored so; the other offers are stored as they were. */
  ghost predicate ShowsFrom(items: seq<(Id, Offer)>, listing: seq<Id>, skip: nat, was: map<Id, Offer>,
      settled: map<Id, Offer>, now: nat)
  {
    && settled.Keys == was.Keys
    && (forall k :: 0 <= k < |items| ==>
          && skip + k < |listing| && items[k].0 == listing[skip + k]
          && items[k].0 in was && IsNow(items[k].1, was[items[k].0], now)
          && settled[items[k].0] == items[k].1)
    && (forall a :: a in was && (forall k :: 0 <= k < |items| ==> items[k].0 != a) ==> settled[a] == was[a])
  }

  lemma SettledShows(was: map<Id, Offer>, listing: seq<Id>, skip: nat, ids: seq<Id>, now: nat)
    requires AllIn(was, ids)
    requires forall k :: 0 <= k < |ids| ==> skip + k < |listing| && ids[k] == listing[skip + k]
    ensures AllIn(SettleSome(was, ids, now), ids)
    ensures ShowsFrom(ItemsOf(SettleSome(was, ids, now), ids), listing, skip, was, SettleSome(was, ids, now), now)
  {
    var items := ItemsOf(SettleSome(was, ids, now), ids);
    forall a | a in was && (forall k :: 0 <= k < |items| ==> items[k].0 != a) ensures a !in ids {
      forall k | 0 <= k < |ids| ensures ids[k] != a {
        assert items[k].0 == ids[k];
      }
    }
  }

  lemma PageFrom(listing: seq<Id>, page: nat, size: nat)
    requires page >= 1 && size >= 1
    ensures var ids, skip := Page(listing, page, size), (page - 1) * size;
      && |ids| == (if |listing| <= skip then 0 else if |listing| - skip <= size then |listing| - skip else size)
      && (forall k :: 0 <= k < |ids| ==> skip + k < |listing| && ids[k] == listing[skip + k])
  {
  }

  /** The page: each item is a listed offer brought up to now, at its place. */
  lemma ListForOrgAnswer(s: Sys, org: Id, listing: seq<Id>, page: nat, size: nat)
    requires page >= 1 && size >= 1 && IsOfferListing(s.offers, org, listing)
    ensures var (s', r) := ListForOrg(Lazy, s, org, listing, page, size);
      var skip := (page - 1) * size;
      && r.total == |listing|
      && |r.items| == (if |listing| <= skip then 0 else if |listing| - skip <= size then |listing| - skip else size)
      && ShowsFrom(r.items, listing, skip, s.offers, s'.offers, s.now)
      && s' == s.(offers := s'.offers)
  {
    PageFrom(listing, page, size);
    PageIn(s.offers, org, listing, page, size);
    SettledShows(s.offers, listing, (page - 1) * size, Page(listing, page, size), s.now);
  }

  // -------------------------------------------------------------- onboarding

  /** The first tasks of a checklist, in the request's order, and nothing else new. */
  ghost predicate FirstTasks(s: Sys, s': Sys, checklist: Id, specs: seq<(string, bool)>) {
    && (forall t :: t in s'.tasks <==> t in s.tasks || checklist < t <= checklist + |specs|)
    && (forall k :: 0 <= k < |specs| ==>
          s'.tasks[checklist + 1 + k] == Task(checklist, specs[k].0, specs[k].1, None))
    && (forall t :: t in s.tasks && !(checklist < t <= checklist + |specs|) ==> s'.tasks[t] == s.tasks[t])
  }

  lemma CreateChecklistAnswer(s: Sys, org: Id, job: Id, app: Id, specs: seq<(string, bool)>)
    ensures var (s', r) := CreateChecklist(Lazy, s, org, job, app, specs);
      && (r == Err(NotFound) <==> !OrgSees(s, org, job, app))
      && (r == Err(Conflict) <==>
        OrgSees(s, org, job, app) && (s.offers[app].status != Accepted || app in s.checklists))
      && (r.Ok? <==> OrgSees(s, org, job, app) && s.offers[app].status == Accepted && app !in s.checklists)
      && (r == Err(NotFound) ==> s' == s)
      && (r == Err(Conflict) ==> OnlyRead(s, s', app))
  {
    OfferForJobAnswer(s, org, job, app);
  }

  lemma ChecklistCreated(s: Sys, org: Id, job: Id, app: Id, specs: seq<(string, bool)>)
    requires CreateChecklist(Lazy, s, org, job, app, specs).1.Ok?
    ensures var (s', r) := CreateChecklist(Lazy, s, org, job, app, specs);
      && r.value == s.next && s'.checklists == s.checklists[app := s.next] && FirstTasks(s, s', s.next, specs)
      && s'.docs == s.docs && s'.offers == s.offers && s'.db == s.db
  {
    CreateChecklistAnswer(s, org, job, app, specs);
    OfferForJobAnswer(s, org, job, app);
    var s' := CreateChecklist(Lazy, s, org, job, app, specs).0;
    assert s'.offers == s.offers;
    assert s'.tasks == s.tasks + NewTasks(s.next, specs, s.next + 1);
    L.NewTasksRows(s.next, specs, s.next + 1);
  }

  lemma ChecklistAnswers(s: Sys, org: Id, job: Id, candidate: Id, app: Id)
    ensures var (s', r) := ChecklistForJob(Lazy, s, org, job, app);
      && (r.Ok? <==> OrgSees(s, org, job, app) && app in s.checklists)
      && (if r.Ok? then r == Ok(s.checklists[app]) else r == Err(NotFound))
      && (if OrgSees(s, org, job, app) then OnlyRead(s, s', app) else s' == s)
    ensures var (s', r) := ChecklistMine(Lazy, s, candidate, app);
      && (r.Ok? <==> CandidateSees(s, candidate, app) && app in s.checklists)
      && (if r.Ok? then r == Ok(s.checklists[app]) else r == Err(NotFound))
      && (if CandidateSees(s, candidate, app) then OnlyRead(s, s', app) else s' == s)
  {
  }

  lemma AddTaskAnswer(s: Sys, org: Id, job: Id, app: Id, name: string, required: bool)
    ensures var (s', r) := AddTask(Lazy, s, org, job, app, name, required);
      && (r.Ok? <==> OrgSees(s, org, job, app) && app in s.checklists)
      && (if r.Ok? then r == Ok(s.checklists[app]) else r == Err(NotFound))
      && s'.tasks == (if r.Ok? then s.tasks[s.next := Task(s.checklists[app], name, required, None)] else s.tasks)
      && s'.checklists == s.checklists && s'.docs == s.docs && s'.db == s.db
  {
  }

  lemma CompleteTaskAnswer(s: Sys, org: Id, job: Id, app: Id, task: Id)
    ensures var (s', r) := CompleteTask(Lazy, s, org, job, app, task);
      && (r.Ok? <==>
            && OrgSees(s, org, job, app) && app in s.checklists
            && task in s.tasks && s.tasks[task].checklist == s.checklists[app])
      && (if r.Ok? then r == Ok(s.checklists[app]) else r == Err(NotFound))
      && s'.tasks == (if r.Ok? then s.tasks[task := s.tasks[task].(completedAt := Some(s.now))] else s.tasks)
      && s'.checklists == s.checklists && s'.docs == s.docs && s'.db == s.db
  {
  }

  /** 5 MB and not a byte more. */
  lemma UploadDocumentAnswer(s: Sys, candidate: Id, app: Id, task: Id, file: Option<nat>)
    ensures var (s', r) := UploadDocument(Lazy, s, candidate, app, task, file);
      var fits := file.Some? && file.value <= 5_242_880;
      && (r == Err(BadRequest) <==> !fits)
      && (r.Ok? <==>
            && fits && CandidateSees(s, candidate, app) && app in s.checklists
            && task in s.tasks && s.tasks[task].checklist == s.checklists[app])
      && (r.Err? && fits ==> r == Err(NotFound))
      && s'.docs == (if r.Ok? then s.docs[s.next := Document(task, candidate)] else s.docs)
      && (r.Ok? ==> r.value == s.next)
      && s'.checklists == s.checklists && s'.tasks == s.tasks && s'.db == s.db
  {
  }

  /** Which tasks and documents the answer about a checklist holds. */
  lemma DetailRows(s: Sys, c: Result<Id>)
    ensures c.Err? ==> Detail(s, c) == Err(c.error)
    ensures c.Ok? ==> Detail(s, c).Ok? && Detail(s, c).value.id == c.value
    ensures c.Ok? ==> forall t ::
      t in Detail(s, c).value.tasks <==> t in s.tasks && s.tasks[t].checklist == c.value
    ensures c.Ok? ==> forall t :: t in Detail(s, c).value.tasks ==> Detail(s, c).value.tasks[t] == s.tasks[t]
    ensures c.Ok? ==> forall d ::
      d in Detail(s, c).value.docs <==>
        d in s.docs && s.docs[d].task in s.tasks && s.tasks[s.docs[d].task].checklist == c.value
    ensures c.Ok? ==> forall d :: d in Detail(s, c).value.docs ==> Detail(s, c).value.docs[d] == s.docs[d]
  {
  }

  // -------------------------------------------------- the offer's status, told

  /** The request succeeds in giving this answer to this offer. */
  ghost predicate Responds(s: Sys, op: Op, app: Id, accept: bool)
    requires Possible(s, op)
  {
    op.RespondOp? && op.app == app && op.accept == accept && Step(Lazy, s, op).1.offer.Ok?
  }

  ghost predicate Responded(s: Sys, ops: seq<Op>, app: Id, accept: bool)
    requires IsRun(Lazy, s, ops)
    decreases |ops|
  {
    ops != [] && (Responds(s, ops[0], app, accept) || Responded(Step(Lazy, s, ops[0]).0, ops[1..], app, accept))
  }

  predicate Says(s: Sys, app: Id, accept: bool) {
    app in s.offers && ((accept && s.offers[app].status == Accepted) || (!accept && s.offers[app].status == Declined))
  }

  lemma RespondSays(s: Sys, candidate: Id, target: Id, accept: bool, app: Id, said: bool)
    ensures var (s', r) := Respond(Lazy, s, candidate, target, accept);
      Says(s', app, said) <==> Says(s, app, said) || (r.Ok? && target == app && accept == said)
  {
    RespondAnswer(s, candidate, target, accept);
  }

  lemma ReadSays(s: Sys, s': Sys, target: Id, app: Id, said: bool)
    requires s'.offers == s.offers || (target in s.offers && target in s'.offers
      && IsNow(s'.offers[target], s.offers[target], s.now) && s'.offers == s.offers[target := s'.offers[target]])
    ensures Says(s', app, said) <==> Says(s, app, said)
  {
  }

  lemma OfferOpSays(s: Sys, op: Op, app: Id, said: bool)
    requires Possible(s, op)
    requires op.CreateOfferOp? || op.OfferForJobOp? || op.OfferMineOp? || op.RespondOp? || op.ListForOrgOp?
    ensures Says(Step(Lazy, s, op).0, app, said) <==> Says(s, app, said) || Responds(s, op, app, said)
  {
    match op
    case CreateOfferOp(org, job, target, title, expiresAt) => CreateOfferAnswer(s, org, job, target, title, expiresAt);
    case OfferForJobOp(org, job, target) =>
      OfferForJobAnswer(s, org, job, target);
      ReadSays(s, Step(Lazy, s, op).0, target, app, said);
    case OfferMineOp(candidate, target) =>
      OfferMineAnswer(s, candidate, target);
      ReadSays(s, Step(Lazy, s, op).0, target, app, said);
    case RespondOp(candidate, target, accept) => RespondSays(s, candidate, target, accept, app, said);
    case ListForOrgOp(org, listing, page, size) =>
  }

  lemma OnboardingOpSays(s: Sys, op: Op, app: Id, said: bool)
    requires Possible(s, op)
    requires op.CreateChecklistOp? || op.ChecklistForJobOp? || op.ChecklistMineOp?
    ensures Says(Step(Lazy, s, op).0, app, said) <==> Says(s, app, said)
  {
    match op
    case CreateChecklistOp(org, job, target, specs) =>
      CreateChecklistAnswer(s, org, job, target, specs);
      if Step(Lazy, s, op).0.offers != s.offers {
        OfferForJobAnswer(s, org, job, target);
      }
      ReadSays(s, Step(Lazy, s, op).0, target, app, said);
    case ChecklistForJobOp(org, job, target) =>
      ChecklistAnswers(s, org, job, 0, target);
      ReadSays(s, Step(Lazy, s, op).0, target, app, said);
    case ChecklistMineOp(candidate, target) =>
      ChecklistAnswers(s, 0, 0, candidate, target);
      ReadSays(s, Step(Lazy, s, op).0, target, app, said);
  }

  lemma TaskOpSays(s: Sys, op: Op, app: Id, said: bool)
    requires Possible(s, op) && (op.AddTaskOp? || op.CompleteTaskOp? || op.UploadDocumentOp?)
    ensures Says(Step(Lazy, s, op).0, app, said) <==> Says(s, app, said)
  {
    ReadSays(s, Step(Lazy, s, op).0, op.app, app, said);
  }

  lemma StepSays(s: Sys, op: Op, app: Id, said: bool)
    requires Possible(s, op)
    ensures Says(Step(Lazy, s, op).0, app, said) <==> Says(s, app, said) || Responds(s, op, app, said)
  {
    match op
    case Pipe(_) =>
    case Tick(_) =>
    case CreateChecklistOp(_, _, _, _) => OnboardingOpSays(s, op, app, said);
    case ChecklistForJobOp(_, _, _) => OnboardingOpSays(s, op, app, said);
    case ChecklistMineOp(_, _) => OnboardingOpSays(s, op, app, said);
    case AddTaskOp(_, _, _, _, _) => TaskOpSays(s, op, app, said);
    case CompleteTaskOp(_, _, _, _) => TaskOpSays(s, op, app, said);
    case UploadDocumentOp(_, _, _, _) => TaskOpSays(s, op, app, said);
    case _ => OfferOpSays(s, op, app, said);
  }

  lemma {:induction false} RunSays(s: Sys, ops: seq<Op>, app: Id, said: bool)
    requires IsRun(Lazy, s, ops)
    ensures Says(After(Lazy, s, ops), app, said) <==> Says(s, app, said) || Responded(s, ops, app, said)
    decreases |ops|
  {
    if ops != [] {
      StepSays(s, ops[0], app, said);
      RunSays(Step(Lazy, s, ops[0]).0, ops[1..], app, said);
    }
  }

  /** Over every run, an offer is accepted exactly if its candidate successfully
      accepted it, and declined exactly if they successfully declined it. */
  lemma OfferTellsStory(ops: seq<Op>, app: Id)
    requires IsRun(Lazy, Start, ops)
    ensures var offers := After(Lazy, Start, ops).offers;
      && ((app in offers && offers[app].status == Accepted) <==> Responded(Start, ops, app, true))
      && ((app in offers && offers[app].status == Declined) <==> Responded(Start, ops, app, false))
  {
    RunSays(Start, ops, app, true);
    RunSays(Start, ops, app, false);
  }

  // ------------------------------------------------ a task's completion, told

  ghost predicate Completes(s: Sys, op: Op, task: Id)
    requires Possible(s, op)
  {
    op.CompleteTaskOp? && op.task == task && Step(Lazy, s, op).1.checklist.Ok?
  }

  ghost predicate CompletedIn(s: Sys, ops: seq<Op>, task: Id)
    requires IsRun(Lazy, s, ops)
    decreases |ops|
  {
    ops != [] && (Completes(s, ops[0], task) || CompletedIn(Step(Lazy, s, ops[0]).0, ops[1..], task))
  }

  predicate IsComplete(tasks: map<Id, Task>, task: Id) { task in tasks && tasks[task].completedAt.Some? }

  lemma EffectCompletes(offers: map<Id, Offer>, b: L.Board, e: L.Effect, task: Id)
    requires L.RowsSound(b) && L.Allowed(offers, b, e)
    ensures IsComplete(L.Perform(b, e).tasks, task) <==> IsComplete(b.tasks, task) || (e.Completed? && e.task == task)
  {
    if e.Opened? {
      L.NewTasksRows(b.next, e.specs, b.next + 1);
    }
  }

  lemma {:induction false} RunCompletes(s: Sys, ops: seq<Op>, task: Id)
    requires L.Valid(s) && IsRun(Lazy, s, ops)
    ensures IsComplete(After(Lazy, s, ops).tasks, task) <==> IsComplete(s.tasks, task) || CompletedIn(s, ops, task)
    decreases |ops|
  {
    if ops != [] {
      var mid := Step(Lazy, s, ops[0]).0;
      StepCompletes(s, ops[0], task);
      L.StepValid(s, ops[0]);
      RunCompletes(mid, ops[1..], task);
    }
  }

  lemma StepCompletes(s: Sys, op: Op, task: Id)
    requires L.RowsSound(L.BoardOf(s)) && Possible(s, op)
    ensures IsComplete(Step(Lazy, s, op).0.tasks, task) <==> IsComplete(s.tasks, task) || Completes(s, op, task)
  {
    L.StepBoard(s, op);
    EffectCompletes(Step(Lazy, s, op).0.offers, L.BoardOf(s), L.EffectOf(s, op), task);
    CompletedEffect(s, op, task);
  }

  lemma CompletedEffect(s: Sys, op: Op, task: Id)
    requires Possible(s, op)
    ensures Completes(s, op, task) <==> L.EffectOf(s, op).Completed? && L.EffectOf(s, op).task == task
  {
  }

  /** Over every run a task is complete exactly if a request completed it; uploading
      a document to it never does. */
  lemma TaskTellsStory(ops: seq<Op>, task: Id)
    requires IsRun(Lazy, Start, ops)
    ensures IsComplete(After(Lazy, Start, ops).tasks, task) <==> CompletedIn(Start, ops, task)
  {
    L.StartValid();
    RunCompletes(Start, ops, task);
  }
}
