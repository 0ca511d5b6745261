/** The chain from a document back to the hiring decision, kept by every run of
    the pipeline, offer and onboarding requests together. */
module Lifecycle {
  import opened Common
  import opened Hiring
  import opened Paging
  import P = Pipeline
  import A = Applications

  // ------------------------------------------------- what one request can do

  /** An offer stays as it is, expires once its deadline has passed, or is
      answered while it is still open. */
  predicate Evolves(o: Offer, o': Offer, now: nat) {
    || o' == o
    || (Stale(o, now) && o' == o.(status := Expired))
    || (o.status == Sent && !Stale(o, now)
        && (o' == o.(status := Accepted, respondedAt := Some(now))
          || o' == o.(status := Declined, respondedAt := Some(now))))
  }

  predicate NewOffer(apps: map<Id, P.App>, now: nat, a: Id, o: Offer) {
    && a in apps && apps[a].status == P.Hired && o.org == apps[a].org
    && o.status == Sent && o.sentAt == now && now < o.expiresAt && o.respondedAt == None
  }

  ghost predicate OfferEffect(apps: map<Id, P.App>, now: nat, offers: map<Id, Offer>, offers': map<Id, Offer>) {
    && (forall a :: a in offers ==> a in offers' && Evolves(offers[a], offers'[a], now))
    && (forall a :: a in offers' && a !in offers ==> NewOffer(apps, now, a, offers'[a]))
  }

  lemma SettleEffect(apps: map<Id, P.App>, now: nat, offers: map<Id, Offer>, ids: seq<Id>)
    ensures OfferEffect(apps, now, offers, SettleSome(offers, ids, now))
  {
  }

  ghost predicate HasOfferEffect(s: Sys, op: Op)
    requires Possible(s, op)
  {
    OfferEffect(s.db.apps, s.now, s.offers, Step(Lazy, s, op).0.offers)
  }

  /** Reading one offer settles that row; everything that reads one does no more. */
  lemma TouchEffect(s: Sys, app: Id)
    requires app in s.offers
    ensures OfferEffect(s.db.apps, s.now, s.offers, Touch(Lazy, s, app).offers)
  {
  }

  lemma ReadEffect(s: Sys, op: Op)
    requires Possible(s, op) && (op.OfferForJobOp? || op.OfferMineOp?)
    ensures HasOfferEffect(s, op)
  {
  }

  lemma ChecklistReadEffect(s: Sys, op: Op)
    requires Possible(s, op) && (op.CreateChecklistOp? || op.ChecklistForJobOp? || op.ChecklistMineOp?)
    ensures HasOfferEffect(s, op)
  {
    if op.app in s.offers {
      TouchEffect(s, op.app);
    }
  }

  lemma TaskReadEffect(s: Sys, op: Op)
    requires Possible(s, op) && (op.AddTaskOp? || op.CompleteTaskOp? || op.UploadDocumentOp?)
    ensures HasOfferEffect(s, op)
  {
    if op.app in s.offers {
      TouchEffect(s, op.app);
    }
  }

  lemma RespondEffect(s: Sys, candidate: Id, app: Id, accept: bool)
    ensures OfferEffect(s.db.apps, s.now, s.offers, Respond(Lazy, s, candidate, app, accept).0.offers)
  {
  }

  lemma CreateEffect(s: Sys, org: Id, job: Id, app: Id, title: string, expiresAt: nat)
    ensures OfferEffect(s.db.apps, s.now, s.offers, CreateOffer(s, org, job, app, title, expiresAt).0.offers)
  {
  }

  /** The offer table after a request: unchanged, one row put, or a page settled. */
  lemma StepOffers(s: Sys, op: Op)
    requires Possible(s, op)
    ensures HasOfferEffect(s, op)
  {
    match op
    case Pipe(_) =>
    case Tick(_) =>
    case ListForOrgOp(_, listing, page, size) => SettleEffect(s.db.apps, s.now, s.offers, Page(listing, page, size));
    case RespondOp(candidate, app, accept) => RespondEffect(s, candidate, app, accept);
    case CreateOfferOp(org, job, app, title, expiresAt) => CreateEffect(s, org, job, app, title, expiresAt);
    case AddTaskOp(_, _, _, _, _) => TaskReadEffect(s, op);
    case CompleteTaskOp(_, _, _, _) => TaskReadEffect(s, op);
    case UploadDocumentOp(_, _, _, _) => TaskReadEffect(s, op);
    case OfferForJobOp(_, _, _) => ReadEffect(s, op);
    case OfferMineOp(_, _) => ReadEffect(s, op);
    case _ => ChecklistReadEffect(s, op);
  }

  /** The onboarding tables. */
  datatype Board = Board(checklists: map<Id, Id>, tasks: map<Id, Task>, docs: map<Id, Document>, next: Id)

  ghost function BoardOf(s: Sys): Board { Board(s.checklists, s.tasks, s.docs, s.next) }

  datatype Effect =
    | Nothing
    | KeyTaken
    | Opened(app: Id, specs: seq<(string, bool)>)
    | Added(app: Id, name: string, required: bool)
    | Completed(task: Id, time: nat)
    | Uploaded(task: Id, user: Id)

  ghost predicate Allowed(offers: map<Id, Offer>, b: Board, e: Effect) {
    match e
    case Nothing => true
    case KeyTaken => true
    case Opened(app, _) => app in offers && offers[app].status == Accepted && app !in b.checklists
    case Added(app, _, _) => app in b.checklists
    case Completed(task, _) => task in b.tasks
    case Uploaded(task, _) => task in b.tasks
  }

  ghost function Perform(b: Board, e: Effect): Board {
    match e
    case Nothing => b
    case KeyTaken => b.(next := b.next + 1)
    case Opened(app, specs) =>
      b.(checklists := b.checklists[app := b.next], tasks := b.tasks + NewTasks(b.next, specs, b.next + 1),
        next := b.next + 1 + |specs|)
    case Added(app, name, required) =>
      if app in b.checklists then b.(tasks := b.tasks[b.next := Task(b.checklists[app], name, required, None)],
        next := b.next + 1) else b
    case Completed(task, time) =>
      if task in b.tasks then b.(tasks := b.tasks[task := b.tasks[task].(completedAt := Some(time))]) else b
    case Uploaded(task, user) => b.(docs := b.docs[b.next := Document(task, user)], next := b.next + 1)
  }

  ghost function EffectOf(s: Sys, op: Op): Effect {
    match op
    case CreateOfferOp(org, job, app, title, expiresAt) =>
      if CreateOffer(s, org, job, app, title, expiresAt).1.Ok? then KeyTaken else Nothing
    case CreateChecklistOp(org, job, app, specs) =>
      if CreateChecklist(Lazy, s, org, job, app, specs).1.Ok? then Opened(app, specs) else Nothing
    case AddTaskOp(org, job, app, name, required) =>
      if AddTask(Lazy, s, org, job, app, name, required).1.Ok? then Added(app, name, required) else Nothing
    case CompleteTaskOp(org, job, app, task) =>
      if CompleteTask(Lazy, s, org, job, app, task).1.Ok? then Completed(task, s.now) else Nothing
    case UploadDocumentOp(candidate, app, task, file) =>
      if UploadDocument(Lazy, s, candidate, app, task, file).1.Ok? then Uploaded(task, candidate) else Nothing
    case _ => Nothing
  }

  ghost predicate HasEffect(s: Sys, op: Op)
    requires Possible(s, op)
  {
    Allowed(Step(Lazy, s, op).0.offers, BoardOf(s), EffectOf(s, op))
      && BoardOf(Step(Lazy, s, op).0) == Perform(BoardOf(s), EffectOf(s, op))
  }

  lemma ChecklistBoard(s: Sys, op: Op)
    requires op.CreateChecklistOp? && Possible(s, op)
    ensures HasEffect(s, op)
  {
  }

  lemma AddTaskBoard(s: Sys, op: Op)
    requires op.AddTaskOp? && Possible(s, op)
    ensures HasEffect(s, op)
  {
  }

  lemma CompleteTaskBoard(s: Sys, op: Op)
    requires op.CompleteTaskOp? && Possible(s, op)
    ensures HasEffect(s, op)
  {
  }

  lemma UploadBoard(s: Sys, op: Op)
    requires op.UploadDocumentOp? && Possible(s, op)
    ensures HasEffect(s, op)
  {
  }

  lemma QuietBoard(s: Sys, op: Op)
    requires !op.CreateChecklistOp? && !op.AddTaskOp? && !op.CompleteTaskOp? && !op.UploadDocumentOp? && Possible(s, op)
    ensures HasEffect(s, op)
  {
  }

  lemma StepBoard(s: Sys, op: Op)
    requires Possible(s, op)
    ensures HasEffect(s, op)
  {
    match op
    case CreateChecklistOp(_, _, _, _) => ChecklistBoard(s, op);
    case AddTaskOp(_, _, _, _, _) => AddTaskBoard(s, op);
    case CompleteTaskOp(_, _, _, _) => CompleteTaskBoard(s, op);
    case UploadDocumentOp(_, _, _, _) => UploadBoard(s, op);
    case _ => QuietBoard(s, op);
  }

  lemma StepFrame(s: Sys, op: Op)
    requires Possible(s, op)
    ensures Step(Lazy, s, op).0.db == if op.Pipe? then P.Step(s.db, op.op).0 else s.db
    ensures Step(Lazy, s, op).0.now == if op.Tick? then op.time else s.now
  {
  }

  // ------------------------------------------------------------ invariants

  /** An offer belongs to a hired application of its own organization, and its
      times tell its story. */
  predicate OfferSound(apps: map<Id, P.App>, now: nat, a: Id, o: Offer) {
    && a in apps && apps[a].status == P.Hired && o.org == apps[a].org
    && o.sentAt <= now && o.sentAt < o.expiresAt
    && (o.respondedAt.Some? <==> (o.status == Accepted || o.status == Declined))
    && (o.respondedAt.Some? ==> o.sentAt <= o.respondedAt.value <= o.expiresAt && o.respondedAt.value <= now)
    && (o.status == Expired ==> o.expiresAt < now)
  }

  ghost predicate OffersSound(apps: map<Id, P.App>, now: nat, offers: map<Id, Offer>) {
    forall a :: a in offers ==> OfferSound(apps, now, a, offers[a])
  }

  ghost predicate ChecklistsSound(offers: map<Id, Offer>, b: Board) {
    && (forall a :: a in b.checklists ==> a in offers && offers[a].status == Accepted)
    && (forall a :: a in b.checklists ==> b.checklists[a] < b.next)
    && (forall x, y :: x in b.checklists && y in b.checklists && b.checklists[x] == b.checklists[y] ==> x == y)
  }

  ghost predicate HasChecklist(b: Board, c: Id) { exists a :: a in b.checklists && b.checklists[a] == c }

  ghost predicate RowsSound(b: Board) {
    && (forall t :: t in b.tasks ==> t < b.next && HasChecklist(b, b.tasks[t].checklist))
    && (forall d :: d in b.docs ==> d < b.next && b.docs[d].task in b.tasks)
  }

  lemma {:induction false} NewTasksRows(checklist: Id, specs: seq<(string, bool)>, base: Id)
    ensures forall t :: t in NewTasks(checklist, specs, base) <==> base <= t < base + |specs|
    ensures forall t :: t in NewTasks(checklist, specs, base) ==>
      NewTasks(checklist, specs, base)[t] == Task(checklist, specs[t - base].0, specs[t - base].1, None)
  {
    if specs != [] {
      NewTasksRows(checklist, specs[..|specs| - 1], base);
    }
  }

  lemma OffersStaySound(apps: map<Id, P.App>, now: nat, offers: map<Id, Offer>, offers': map<Id, Offer>)
    requires OffersSound(apps, now, offers) && OfferEffect(apps, now, offers, offers')
    ensures OffersSound(apps, now, offers')
  {
  }

  lemma ChecklistsStaySound(apps: map<Id, P.App>, now: nat, offers: map<Id, Offer>, offers': map<Id, Offer>, b: Board,
      e: Effect)
    requires ChecklistsSound(offers, b) && OfferEffect(apps, now, offers, offers') && Allowed(offers', b, e)
    ensures ChecklistsSound(offers', Perform(b, e))
  {
  }

  /** Onboarding rows are only added; a task is only completed. */
  ghost predicate Grows(b: Board, b': Board) {
    && (forall a :: a in b.checklists ==> a in b'.checklists && b'.checklists[a] == b.checklists[a])
    && (forall t :: t in b.tasks ==> t in b'.tasks && TaskEvolves(b.tasks[t], b'.tasks[t]))
    && (forall d :: d in b.docs ==> d in b'.docs && b'.docs[d] == b.docs[d])
  }

  predicate TaskEvolves(t: Task, t': Task) {
    t' == t.(completedAt := t'.completedAt) && (t.completedAt.Some? ==> t'.completedAt.Some?)
  }

  lemma BoardGrows(offers: map<Id, Offer>, b: Board, e: Effect)
    requires RowsSound(b) && Allowed(offers, b, e)
    ensures Grows(b, Perform(b, e))
  {
    if e.Opened? {
      NewTasksRows(b.next, e.specs, b.next + 1);
    }
  }

  lemma RowsStaySound(offers: map<Id, Offer>, b: Board, e: Effect)
    requires RowsSound(b) && Allowed(offers, b, e)
    ensures RowsSound(Perform(b, e))
  {
    var b' := Perform(b, e);
    BoardGrows(offers, b, e);
    forall c | HasChecklist(b, c) ensures HasChecklist(b', c) {
      var a :| a in b.checklists && b.checklists[a] == c;
      assert b'.checklists[a] == c;
    }
    match e
    case Opened(app, specs) =>
      NewTasksRows(b.next, specs, b.next + 1);
      assert b'.checklists[app] == b.next;
      forall t | t in b'.tasks ensures t < b'.next && HasChecklist(b', b'.tasks[t].checklist) {
        assert t in b.tasks || t in NewTasks(b.next, specs, b.next + 1);
      }
    case Added(app, _, _) =>
      assert HasChecklist(b, b.checklists[app]);
    case _ =>
  }

  ghost predicate Valid(s: Sys) {
    && A.Valid(s.db)
    && OffersSound(s.db.apps, s.now, s.offers)
    && ChecklistsSound(s.offers, BoardOf(s))
    && RowsSound(BoardOf(s))
  }

  lemma LaterStillSound(apps: map<Id, P.App>, apps': map<Id, P.App>, now: nat, now': nat, offers: map<Id, Offer>)
    requires OffersSound(apps, now, offers) && now <= now' && A.Keeps(apps, apps')
    ensures OffersSound(apps', now', offers)
  {
  }

  lemma StepValid(s: Sys, op: Op)
    requires Valid(s) && Possible(s, op)
    ensures Valid(Step(Lazy, s, op).0)
  {
    var s' := Step(Lazy, s, op).0;
    StepFrame(s, op);
    StepOffers(s, op);
    StepBoard(s, op);
    if op.Pipe? {
      A.StepValid(s.db, op.op);
      A.StepKeeps(s.db, op.op);
    }
    OffersStaySound(s.db.apps, s.now, s.offers, s'.offers);
    LaterStillSound(s.db.apps, s'.db.apps, s.now, s'.now, s'.offers);
    ChecklistsStaySound(s.db.apps, s.now, s.offers, s'.offers, BoardOf(s), EffectOf(s, op));
    RowsStaySound(s'.offers, BoardOf(s), EffectOf(s, op));
  }

  lemma {:induction false} RunValid(s: Sys, ops: seq<Op>)
    requires Valid(s) && IsRun(Lazy, s, ops)
    ensures Valid(After(Lazy, s, ops))
    decreases |ops|
  {
    if ops != [] {
      StepValid(s, ops[0]);
      RunValid(Step(Lazy, s, ops[0]).0, ops[1..]);
    }
  }

  lemma StartValid()
    ensures Valid(Start)
  {
  }

  /** The links from a document to the hiring decision: its task, that row's one
      checklist, the checklist's accepted offer, answered in time, and exactly
      one application.hired audit entry. */
  ghost predicate TracesTo(s: Sys, d: Document, app: Id) {
    && d.task in s.tasks
    && app in s.checklists && s.checklists[app] == s.tasks[d.task].checklist
    && (forall b :: b in s.checklists && s.checklists[b] == s.tasks[d.task].checklist ==> b == app)
    && app in s.offers && AcceptedInTime(s.offers[app])
    && app in s.db.apps && s.db.apps[app].status == P.Hired && s.db.apps[app].org == s.offers[app].org
    && A.Entries(s.db.audit, app, true) == 1 && A.Entries(s.db.audit, app, false) == 0
  }

  predicate AcceptedInTime(o: Offer) {
    o.status == Accepted && o.respondedAt.Some? && o.sentAt <= o.respondedAt.value <= o.expiresAt
  }

  lemma HiredIsRecorded(side: A.Side, app: Id)
    requires A.Recorded(side) && app in side.apps && side.apps[app].status == P.Hired
    ensures A.Entries(side.audit, app, true) == 1 && A.Entries(side.audit, app, false) == 0
  {
  }

  lemma ChecklistTraces(s: Sys, app: Id)
    requires OffersSound(s.db.apps, s.now, s.offers) && ChecklistsSound(s.offers, BoardOf(s)) && app in s.checklists
    ensures app in s.offers && AcceptedInTime(s.offers[app])
    ensures app in s.db.apps && s.db.apps[app].status == P.Hired && s.db.apps[app].org == s.offers[app].org
  {
  }

  lemma UniqueChecklist(offers: map<Id, Offer>, b: Board, c: Id) returns (app: Id)
    requires ChecklistsSound(offers, b) && HasChecklist(b, c)
    ensures app in b.checklists && b.checklists[app] == c
    ensures forall x :: x in b.checklists && b.checklists[x] == c ==> x == app
  {
    app :| app in b.checklists && b.checklists[app] == c;
  }

  /** In every reachable state a document traces back to a hired application. */
  lemma DocumentTracesToHire(ops: seq<Op>, d: Id) returns (app: Id)
    requires IsRun(Lazy, Start, ops) && d in After(Lazy, Start, ops).docs
    ensures TracesTo(After(Lazy, Start, ops), After(Lazy, Start, ops).docs[d], app)
  {
    StartValid();
    RunValid(Start, ops);
    var s := After(Lazy, Start, ops);
    var c := s.tasks[s.docs[d].task].checklist;
    app := UniqueChecklist(s.offers, BoardOf(s), c);
    ChecklistTraces(s, app);
    HiredIsRecorded(A.SideOf(s.db), app);
  }

  ghost predicate HiresKept(apps: map<Id, P.App>, apps': map<Id, P.App>) {
    forall a :: a in apps && apps[a].status == P.Hired ==> a in apps' && apps'[a] == apps[a]
  }

  ghost predicate AnswersKept(offers: map<Id, Offer>, offers': map<Id, Offer>) {
    forall a :: a in offers ==> a in offers' && (offers[a].status != Sent ==> offers'[a] == offers[a])
  }

  /** Between an earlier and a later state of one run: a hired application, an
      answered or expired offer, a checklist and a document are exactly as they
      were, and a task keeps its checklist and, once completed, stays completed. */
  ghost predicate LinksKept(s: Sys, s': Sys) {
    HiresKept(s.db.apps, s'.db.apps) && AnswersKept(s.offers, s'.offers) && Grows(BoardOf(s), BoardOf(s'))
  }

  lemma EvolutionKeepsAnswers(apps: map<Id, P.App>, now: nat, offers: map<Id, Offer>, offers': map<Id, Offer>)
    requires OfferEffect(apps, now, offers, offers')
    ensures AnswersKept(offers, offers')
  {
  }

  lemma StepKeepsLinks(s: Sys, op: Op)
    requires Valid(s) && Possible(s, op)
    ensures LinksKept(s, Step(Lazy, s, op).0)
  {
    var s' := Step(Lazy, s, op).0;
    StepFrame(s, op);
    StepOffers(s, op);
    StepBoard(s, op);
    if op.Pipe? {
      A.StepKeeps(s.db, op.op);
    }
    EvolutionKeepsAnswers(s.db.apps, s.now, s.offers, s'.offers);
    BoardGrows(s'.offers, BoardOf(s), EffectOf(s, op));
  }

  lemma LinksTrans(s: Sys, mid: Sys, end: Sys)
    requires LinksKept(s, mid) && LinksKept(mid, end)
    ensures LinksKept(s, end)
  {
  }

  lemma LinksRefl(s: Sys)
    ensures LinksKept(s, s)
  {
  }

  lemma {:induction false} NothingUndoneSince(s: Sys, mid: Sys, ops: seq<Op>)
    requires LinksKept(s, mid) && Valid(mid) && IsRun(Lazy, mid, ops)
    ensures LinksKept(s, After(Lazy, mid, ops))
    decreases |ops|
  {
    if ops != [] {
      var later := Step(Lazy, mid, ops[0]).0;
      StepKeepsLinks(mid, ops[0]);
      StepValid(mid, ops[0]);
      LinksTrans(s, mid, later);
      NothingUndoneSince(s, later, ops[1..]);
    }
  }

  /** No later step, over any further run, undoes a link. */
  lemma NothingUndone(s: Sys, ops: seq<Op>)
    requires Valid(s) && IsRun(Lazy, s, ops)
    ensures LinksKept(s, After(Lazy, s, ops))
  {
    LinksRefl(s);
    NothingUndoneSince(s, s, ops);
  }
}
