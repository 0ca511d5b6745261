/** Offers and onboarding on top of the recruitment pipeline. One request is one
    atomic step at one reading of the clock. */
module Hiring {
  import opened Common
  import opened Paging
  import P = Pipeline

  datatype OfferStatus = Sent | Accepted | Declined | Expired

  datatype Offer = Offer(id: Id, org: Id, title: string, expiresAt: nat, status: OfferStatus, sentAt: nat,
      respondedAt: Option<nat>)
  datatype Task = Task(checklist: Id, name: string, required: bool, completedAt: Option<nat>)
  datatype Document = Document(task: Id, uploadedBy: Id)

  /** A checklist as the endpoints return it: its tasks and their documents. */
  datatype Checklist = Checklist(id: Id, tasks: map<Id, Task>, docs: map<Id, Document>)

  /** Offers are keyed by their application and checklists by the application of
      their offer: both columns are unique in the store. */
  datatype Sys = Sys(
    db: P.Db, offers: map<Id, Offer>, checklists: map<Id, Id>,
    tasks: map<Id, Task>, docs: map<Id, Document>, now: nat, next: Id)

  const Start := Sys(P.Empty, map[], map[], map[], map[], 0, 0)

  /** The shipped system expires an offer when it is next read; the reference
      system expires it the moment the clock passes its deadline. */
  datatype Policy = Lazy | Eager

  // ----------------------------------------------------------------- expiry

  predicate Stale(o: Offer, now: nat) { o.status == Sent && o.expiresAt < now }

  function Settle(o: Offer, now: nat): Offer {
    if Stale(o, now) then o.(status := Expired) else o
  }

  function SettleAll(offers: map<Id, Offer>, now: nat): map<Id, Offer> {
    map a | a in offers :: Settle(offers[a], now)
  }

  function SettleSome(offers: map<Id, Offer>, ids: seq<Id>, now: nat): map<Id, Offer> {
    map a | a in offers :: if a in ids then Settle(offers[a], now) else offers[a]
  }

  /** expireIfNeeded. */
  function Touch(p: Policy, s: Sys, app: Id): Sys
    requires app in s.offers
  {
    if p.Lazy? then s.(offers := s.offers[app := Settle(s.offers[app], s.now)]) else s
  }

  // ----------------------------------------------------------------- offers

  ghost function OfferForJob(p: Policy, s: Sys, org: Id, job: Id, app: Id): (Sys, Result<Offer>) {
    if !P.AppIn(s.db, org, job, app) then (s, Err(NotFound))
    else if app !in s.offers || s.offers[app].org != org then (s, Err(NotFound))
    else (Touch(p, s, app), Ok(Touch(p, s, app).offers[app]))
  }

  ghost function OfferMine(p: Policy, s: Sys, candidate: Id, app: Id): (Sys, Result<Offer>) {
    if app !in s.db.apps || s.db.apps[app].candidate != candidate then (s, Err(NotFound))
    else if app !in s.offers then (s, Err(NotFound))
    else (Touch(p, s, app), Ok(Touch(p, s, app).offers[app]))
  }

  ghost function CreateOffer(s: Sys, org: Id, job: Id, app: Id, title: string, expiresAt: nat): (Sys, Result<Offer>) {
    if !P.AppIn(s.db, org, job, app) then (s, Err(NotFound))
    else if s.db.apps[app].status != P.Hired then (s, Err(Conflict))
    else if expiresAt <= s.now then (s, Err(BadRequest))
    else if app in s.offers then (s, Err(Conflict))
    else
      var o := Offer(s.next, org, title, expiresAt, Sent, s.now, None);
      (s.(offers := s.offers[app := o], next := s.next + 1), Ok(o))
  }

  ghost function Respond(p: Policy, s: Sys, candidate: Id, app: Id, accept: bool): (Sys, Result<Offer>) {
    var (s', r) := OfferMine(p, s, candidate, app);
    if r.Err? then (s', r)
    else if r.value.status != Sent then (s', Err(Conflict))
    else
      var o := r.value.(status := if accept then Accepted else Declined, respondedAt := Some(s.now));
      (s'.(offers := s'.offers[app := o]), Ok(o))
  }

  /** findMany over an organization's offers, orderBy sentAt desc. */
  ghost predicate IsOfferListing(offers: map<Id, Offer>, org: Id, listing: seq<Id>) {
    && Distinct(listing)
    && (forall a :: a in listing <==> a in offers && offers[a].org == org)
    && (forall i, j :: 0 <= i < j < |listing| ==> offers[listing[i]].sentAt >= offers[listing[j]].sentAt)
  }

  datatype OfferPage = OfferPage(items: seq<(Id, Offer)>, total: nat)

  predicate AllIn(offers: map<Id, Offer>, ids: seq<Id>) { forall i :: 0 <= i < |ids| ==> ids[i] in offers }

  function ItemsOf(offers: map<Id, Offer>, ids: seq<Id>): seq<(Id, Offer)>
    requires AllIn(offers, ids)
  {
    seq(|ids|, i requires 0 <= i < |ids| => (ids[i], offers[ids[i]]))
  }

  lemma PageIn(offers: map<Id, Offer>, org: Id, listing: seq<Id>, page: nat, size: nat)
    requires page >= 1 && size >= 1 && IsOfferListing(offers, org, listing)
    ensures AllIn(offers, Page(listing, page, size))
  {
  }

  ghost function ListForOrg(p: Policy, s: Sys, org: Id, listing: seq<Id>, page: nat, size: nat): (Sys, OfferPage)
    requires page >= 1 && size >= 1 && IsOfferListing(s.offers, org, listing)
  {
    var ids := Page(listing, page, size);
    PageIn(s.offers, org, listing, page, size);
    var s' := if p.Lazy? then s.(offers := SettleSome(s.offers, ids, s.now)) else s;
    (s', OfferPage(ItemsOf(s'.offers, ids), |listing|))
  }

  // ------------------------------------------------------------- onboarding

  function NewTasks(checklist: Id, specs: seq<(string, bool)>, base: Id): map<Id, Task> {
    if specs == [] then map[] else
      var k := |specs| - 1;
      NewTasks(checklist, specs[..k], base)[base + k := Task(checklist, specs[k].0, specs[k].1, None)]
  }

  ghost function CreateChecklist(p: Policy, s: Sys, org: Id, job: Id, app: Id,
      specs: seq<(string, bool)>): (Sys, Result<Id>) {
    var (s', r) := OfferForJob(p, s, org, job, app);
    if r.Err? then (s', Err(r.error))
    else if r.value.status != Accepted then (s', Err(Conflict))
    else if app in s'.checklists then (s', Err(Conflict))
    else
      (s'.(checklists := s'.checklists[app := s.next],
           tasks := s'.tasks + NewTasks(s.next, specs, s.next + 1),
           next := s.next + 1 + |specs|),
       Ok(s.next))
  }

  function TasksOf(tasks: map<Id, Task>, checklist: Id): map<Id, Task> {
    map t | t in tasks && tasks[t].checklist == checklist :: tasks[t]
  }

  function DocumentsOf(docs: map<Id, Document>, tasks: map<Id, Task>): map<Id, Document> {
    map d | d in docs && docs[d].task in tasks :: docs[d]
  }

  /** toDetail, on the checklist the request ended up with. */
  function Detail(s: Sys, c: Result<Id>): Result<Checklist> {
    if c.Err? then Err(c.error) else
      var tasks := TasksOf(s.tasks, c.value);
      Ok(Checklist(c.value, tasks, DocumentsOf(s.docs, tasks)))
  }

  ghost function ChecklistOf(s: Sys, r: Result<Offer>, app: Id): Result<Id> {
    if r.Err? then Err(r.error) else if app !in s.checklists then Err(NotFound) else Ok(s.checklists[app])
  }

  ghost function ChecklistForJob(p: Policy, s: Sys, org: Id, job: Id, app: Id): (Sys, Result<Id>) {
    var (s', r) := OfferForJob(p, s, org, job, app);
    (s', ChecklistOf(s', r, app))
  }

  ghost function ChecklistMine(p: Policy, s: Sys, candidate: Id, app: Id): (Sys, Result<Id>) {
    var (s', r) := OfferMine(p, s, candidate, app);
    (s', ChecklistOf(s', r, app))
  }

  ghost function AddTask(p: Policy, s: Sys, org: Id, job: Id, app: Id, name: string,
      required: bool): (Sys, Result<Id>) {
    var (s', c) := ChecklistForJob(p, s, org, job, app);
    if c.Err? then (s', c)
    else (s'.(tasks := s'.tasks[s.next := Task(c.value, name, required, None)], next := s.next + 1), c)
  }

  ghost predicate TaskIn(s: Sys, checklist: Id, task: Id) {
    task in s.tasks && s.tasks[task].checklist == checklist
  }

  ghost function CompleteTask(p: Policy, s: Sys, org: Id, job: Id, app: Id, task: Id): (Sys, Result<Id>) {
    var (s', c) := ChecklistForJob(p, s, org, job, app);
    if c.Err? then (s', c)
    else if !TaskIn(s', c.value, task) then (s', Err(NotFound))
    else (s'.(tasks := s'.tasks[task := s'.tasks[task].(completedAt := Some(s.now))]), c)
  }

  const MAX_DOCUMENT_SIZE_BYTES: nat := 5 * 1024 * 1024

  /** file is the size of the uploaded file, None when the request has none. */
  ghost function UploadDocument(p: Policy, s: Sys, candidate: Id, app: Id, task: Id,
      file: Option<nat>): (Sys, Result<Id>) {
    if file.None? || file.value > MAX_DOCUMENT_SIZE_BYTES then (s, Err(BadRequest)) else
      var (s', c) := ChecklistMine(p, s, candidate, app);
      if c.Err? then (s', c)
      else if !TaskIn(s', c.value, task) then (s', Err(NotFound))
      else (s'.(docs := s'.docs[s.next := Document(task, candidate)], next := s.next + 1), Ok(s.next))
  }

  // ------------------------------------------------------------------- runs

  datatype Op =
    | Pipe(op: P.Op)
    | Tick(time: nat)
    | CreateOfferOp(org: Id, job: Id, app: Id, title: string, expiresAt: nat)
    | OfferForJobOp(org: Id, job: Id, app: Id)
    | OfferMineOp(candidate: Id, app: Id)
    | RespondOp(candidate: Id, app: Id, accept: bool)
    | ListForOrgOp(org: Id, listing: seq<Id>, page: nat, size: nat)
    | CreateChecklistOp(org: Id, job: Id, app: Id, specs: seq<(string, bool)>)
    | ChecklistForJobOp(org: Id, job: Id, app: Id)
    | ChecklistMineOp(candidate: Id, app: Id)
    | AddTaskOp(org: Id, job: Id, app: Id, name: string, required: bool)
    | CompleteTaskOp(org: Id, job: Id, app: Id, task: Id)
    | UploadDocumentOp(candidate: Id, app: Id, task: Id, file: Option<nat>)

  datatype Answer =
    | Ticked
    | Id(result: Result<Common.Id>)
    | OfferIs(offer: Result<Offer>)
    | Listed(page: OfferPage)
    | ChecklistIs(checklist: Result<Checklist>)

  ghost predicate Possible(s: Sys, op: Op) {
    match op
    case Pipe(o) => P.Possible(s.db, o)
    case Tick(time) => s.now <= time
    case ListForOrgOp(org, listing, page, size) => page >= 1 && size >= 1 && IsOfferListing(s.offers, org, listing)
    case CreateChecklistOp(_, _, _, specs) => |specs| > 0
    case _ => true
  }

  ghost function Step(p: Policy, s: Sys, op: Op): (Sys, Answer)
    requires Possible(s, op)
  {
    match op
    case Pipe(o) => (s.(db := P.Step(s.db, o).0), Id(P.Step(s.db, o).1))
    case Tick(time) => (s.(now := time, offers := if p.Eager? then SettleAll(s.offers, time) else s.offers), Ticked)
    case CreateOfferOp(org, job, app, title, expiresAt) =>
      var (s', r) := CreateOffer(s, org, job, app, title, expiresAt); (s', OfferIs(r))
    case OfferForJobOp(org, job, app) => var (s', r) := OfferForJob(p, s, org, job, app); (s', OfferIs(r))
    case OfferMineOp(candidate, app) => var (s', r) := OfferMine(p, s, candidate, app); (s', OfferIs(r))
    case RespondOp(candidate, app, accept) => var (s', r) := Respond(p, s, candidate, app, accept); (s', OfferIs(r))
    case ListForOrgOp(org, listing, page, size) =>
      var (s', r) := ListForOrg(p, s, org, listing, page, size); (s', Listed(r))
    case CreateChecklistOp(org, job, app, specs) =>
      var (s', c) := CreateChecklist(p, s, org, job, app, specs); (s', ChecklistIs(Detail(s', c)))
    case ChecklistForJobOp(org, job, app) =>
      var (s', c) := ChecklistForJob(p, s, org, job, app); (s', ChecklistIs(Detail(s', c)))
    case ChecklistMineOp(candidate, app) =>
      var (s', c) := ChecklistMine(p, s, candidate, app); (s', ChecklistIs(Detail(s', c)))
    case AddTaskOp(org, job, app, name, required) =>
      var (s', c) := AddTask(p, s, org, job, app, name, required); (s', ChecklistIs(Detail(s', c)))
    case CompleteTaskOp(org, job, app, task) =>
      var (s', c) := CompleteTask(p, s, org, job, app, task); (s', ChecklistIs(Detail(s', c)))
    case UploadDocumentOp(candidate, app, task, file) =>
      var (s', r) := UploadDocument(p, s, candidate, app, task, file); (s', Id(r))
  }

  // ---------------------------------------------- lazy expiry refines eager

  /** The eager state a lazy state stands for. */
  function Abs(s: Sys): Sys { s.(offers := SettleAll(s.offers, s.now)) }

  lemma TouchInvisible(s: Sys, app: Id)
    requires app in s.offers
    ensures Abs(Touch(Lazy, s, app)) == Abs(s)
    ensures Touch(Lazy, s, app).offers[app] == Abs(s).offers[app]
  {
  }

  lemma OfferReadsAgree(s: Sys, org: Id, job: Id, candidate: Id, app: Id)
    ensures OfferForJob(Eager, Abs(s), org, job, app)
      == (Abs(OfferForJob(Lazy, s, org, job, app).0), OfferForJob(Lazy, s, org, job, app).1)
    ensures OfferMine(Eager, Abs(s), candidate, app)
      == (Abs(OfferMine(Lazy, s, candidate, app).0), OfferMine(Lazy, s, candidate, app).1)
  {
    if app in s.offers {
      TouchInvisible(s, app);
    }
  }

  lemma PutAgrees(s: Sys, app: Id, o: Offer)
    requires !Stale(o, s.now)
    ensures SettleAll(s.offers[app := o], s.now) == SettleAll(s.offers, s.now)[app := o]
  {
  }

  lemma ListingAgrees(s: Sys, org: Id, listing: seq<Id>)
    ensures IsOfferListing(Abs(s).offers, org, listing) <==> IsOfferListing(s.offers, org, listing)
  {
  }

  lemma PageSettles(offers: map<Id, Offer>, ids: seq<Id>, now: nat)
    requires AllIn(offers, ids)
    ensures SettleAll(SettleSome(offers, ids, now), now) == SettleAll(offers, now)
    ensures AllIn(SettleSome(offers, ids, now), ids) && AllIn(SettleAll(offers, now), ids)
    ensures ItemsOf(SettleSome(offers, ids, now), ids) == ItemsOf(SettleAll(offers, now), ids)
  {
  }

  lemma ListAgrees(s: Sys, org: Id, listing: seq<Id>, page: nat, size: nat)
    requires page >= 1 && size >= 1 && IsOfferListing(s.offers, org, listing)
    ensures IsOfferListing(Abs(s).offers, org, listing)
    ensures ListForOrg(Eager, Abs(s), org, listing, page, size)
         == (Abs(ListForOrg(Lazy, s, org, listing, page, size).0), ListForOrg(Lazy, s, org, listing, page, size).1)
  {
    ListingAgrees(s, org, listing);
    PageIn(s.offers, org, listing, page, size);
    PageSettles(s.offers, Page(listing, page, size), s.now);
  }

  lemma RespondAgrees(s: Sys, candidate: Id, app: Id, accept: bool)
    ensures Respond(Eager, Abs(s), candidate, app, accept)
      == (Abs(Respond(Lazy, s, candidate, app, accept).0), Respond(Lazy, s, candidate, app, accept).1)
  {
    OfferReadsAgree(s, 0, 0, candidate, app);
    var (s', r) := OfferMine(Lazy, s, candidate, app);
    if r.Ok? {
      PutAgrees(s', app, r.value.(status := if accept then Accepted else Declined, respondedAt := Some(s.now)));
    }
  }

  lemma CreateOfferAgrees(s: Sys, org: Id, job: Id, app: Id, title: string, expiresAt: nat)
    ensures CreateOffer(Abs(s), org, job, app, title, expiresAt)
         == (Abs(CreateOffer(s, org, job, app, title, expiresAt).0), CreateOffer(s, org, job, app, title, expiresAt).1)
  {
    if expiresAt > s.now {
      PutAgrees(s, app, Offer(s.next, org, title, expiresAt, Sent, s.now, None));
    }
  }

  lemma CreateChecklistAgrees(s: Sys, org: Id, job: Id, app: Id, specs: seq<(string, bool)>)
    ensures CreateChecklist(Eager, Abs(s), org, job, app, specs)
         == (Abs(CreateChecklist(Lazy, s, org, job, app, specs).0), CreateChecklist(Lazy, s, org, job, app, specs).1)
  {
    OfferReadsAgree(s, org, job, 0, app);
  }

  lemma ChecklistsAgree(s: Sys, org: Id, job: Id, candidate: Id, app: Id)
    ensures ChecklistForJob(Eager, Abs(s), org, job, app)
      == (Abs(ChecklistForJob(Lazy, s, org, job, app).0), ChecklistForJob(Lazy, s, org, job, app).1)
    ensures ChecklistMine(Eager, Abs(s), candidate, app)
      == (Abs(ChecklistMine(Lazy, s, candidate, app).0), ChecklistMine(Lazy, s, candidate, app).1)
  {
    OfferReadsAgree(s, org, job, candidate, app);
  }

  lemma TasksAgree(s: Sys, org: Id, job: Id, app: Id, name: string, required: bool, task: Id)
    ensures AddTask(Eager, Abs(s), org, job, app, name, required)
         == (Abs(AddTask(Lazy, s, org, job, app, name, required).0), AddTask(Lazy, s, org, job, app, name, required).1)
    ensures CompleteTask(Eager, Abs(s), org, job, app, task)
         == (Abs(CompleteTask(Lazy, s, org, job, app, task).0), CompleteTask(Lazy, s, org, job, app, task).1)
  {
    ChecklistsAgree(s, org, job, 0, app);
  }

  lemma UploadAgrees(s: Sys, candidate: Id, app: Id, task: Id, file: Option<nat>)
    ensures UploadDocument(Eager, Abs(s), candidate, app, task, file)
         == (Abs(UploadDocument(Lazy, s, candidate, app, task, file).0),
           UploadDocument(Lazy, s, candidate, app, task, file).1)
  {
    ChecklistsAgree(s, 0, 0, candidate, app);
  }

  ghost predicate Refines(s: Sys, op: Op) {
    && Possible(s, op) && Possible(Abs(s), op)
    && Step(Eager, Abs(s), op) == (Abs(Step(Lazy, s, op).0), Step(Lazy, s, op).1)
  }

  lemma OfferOpsRefine(s: Sys, op: Op)
    requires Possible(s, op)
    requires op.CreateOfferOp? || op.RespondOp? || op.ListForOrgOp? || op.OfferForJobOp? || op.OfferMineOp?
    ensures Refines(s, op)
  {
    match op
    case CreateOfferOp(org, job, app, title, expiresAt) => CreateOfferAgrees(s, org, job, app, title, expiresAt);
    case RespondOp(candidate, app, accept) => RespondAgrees(s, candidate, app, accept);
    case ListForOrgOp(org, listing, page, size) => ListAgrees(s, org, listing, page, size);
    case OfferForJobOp(org, job, app) => OfferReadsAgree(s, org, job, 0, app);
    case OfferMineOp(candidate, app) => OfferReadsAgree(s, 0, 0, candidate, app);
  }

  lemma ChecklistOpsRefine(s: Sys, op: Op)
    requires Possible(s, op) && (op.CreateChecklistOp? || op.ChecklistForJobOp? || op.ChecklistMineOp?)
    ensures Refines(s, op)
  {
    match op
    case CreateChecklistOp(org, job, app, specs) => CreateChecklistAgrees(s, org, job, app, specs);
    case ChecklistForJobOp(org, job, app) => ChecklistsAgree(s, org, job, 0, app);
    case ChecklistMineOp(candidate, app) => ChecklistsAgree(s, 0, 0, candidate, app);
  }

  lemma TaskOpsRefine(s: Sys, op: Op)
    requires Possible(s, op) && (op.AddTaskOp? || op.CompleteTaskOp? || op.UploadDocumentOp?)
    ensures Refines(s, op)
  {
    match op
    case AddTaskOp(org, job, app, name, required) => TasksAgree(s, org, job, app, name, required, 0);
    case CompleteTaskOp(org, job, app, task) => TasksAgree(s, org, job, app, "", false, task);
    case UploadDocumentOp(candidate, app, task, file) => UploadAgrees(s, candidate, app, task, file);
  }

  lemma OtherOpsRefine(s: Sys, op: Op)
    requires Possible(s, op) && (op.Pipe? || op.Tick?)
    ensures Refines(s, op)
  {
    if op.Tick? {
      assert SettleAll(SettleAll(s.offers, s.now), op.time) == SettleAll(s.offers, op.time);
    }
  }

  /** One request: the eager system, started in the state the lazy one stands
      for, gives the same answer and ends in the state the lazy one then stands for. */
  lemma StepRefines(s: Sys, op: Op)
    requires Possible(s, op)
    ensures Refines(s, op)
  {
    match op
    case Pipe(_) => OtherOpsRefine(s, op);
    case Tick(_) => OtherOpsRefine(s, op);
    case CreateChecklistOp(_, _, _, _) => ChecklistOpsRefine(s, op);
    case ChecklistForJobOp(_, _, _) => ChecklistOpsRefine(s, op);
    case ChecklistMineOp(_, _) => ChecklistOpsRefine(s, op);
    case AddTaskOp(_, _, _, _, _) => TaskOpsRefine(s, op);
    case CompleteTaskOp(_, _, _, _) => TaskOpsRefine(s, op);
    case UploadDocumentOp(_, _, _, _) => TaskOpsRefine(s, op);
    case _ => OfferOpsRefine(s, op);
  }

  ghost predicate IsRun(p: Policy, s: Sys, ops: seq<Op>)
    decreases |ops|
  {
    ops != [] ==> Possible(s, ops[0]) && IsRun(p, Step(p, s, ops[0]).0, ops[1..])
  }

  ghost function After(p: Policy, s: Sys, ops: seq<Op>): Sys
    requires IsRun(p, s, ops)
    decreases |ops|
  {
    if ops == [] then s else After(p, Step(p, s, ops[0]).0, ops[1..])
  }

  ghost function Answers(p: Policy, s: Sys, ops: seq<Op>): seq<Answer>
    requires IsRun(p, s, ops)
    decreases |ops|
  {
    if ops == [] then [] else [Step(p, s, ops[0]).1] + Answers(p, Step(p, s, ops[0]).0, ops[1..])
  }

  /** Every run of the lazy system gives, answer by answer, what the eager system
      gives: no caller can tell that offers expire only when read. */
  lemma {:induction false} LazyRefinesEager(s: Sys, ops: seq<Op>)
    requires IsRun(Lazy, s, ops)
    ensures IsRun(Eager, Abs(s), ops)
    ensures Answers(Eager, Abs(s), ops) == Answers(Lazy, s, ops)
    ensures After(Eager, Abs(s), ops) == Abs(After(Lazy, s, ops))
    decreases |ops|
  {
    if ops != [] {
      StepRefines(s, ops[0]);
      LazyRefinesEager(Step(Lazy, s, ops[0]).0, ops[1..]);
    }
  }

  /** The rows a status-filtered list or a group-by count sees. */
  ghost function RowsWith(offers: map<Id, Offer>, org: Id, status: OfferStatus): set<Id> {
    set a | a in offers && offers[a].org == org && offers[a].status == status
  }

  ghost function StaleRows(s: Sys, org: Id): set<Id> {
    set a | a in s.offers && s.offers[a].org == org && Stale(s.offers[a], s.now)
  }

  lemma SentRows(s: Sys, org: Id)
    ensures RowsWith(s.offers, org, Sent) == RowsWith(Abs(s).offers, org, Sent) + StaleRows(s, org)
    ensures RowsWith(Abs(s).offers, org, Sent) !! StaleRows(s, org)
  {
  }

  lemma ExpiredRows(s: Sys, org: Id)
    ensures RowsWith(Abs(s).offers, org, Expired) == RowsWith(s.offers, org, Expired) + StaleRows(s, org)
    ensures RowsWith(s.offers, org, Expired) !! StaleRows(s, org)
  {
  }

  lemma AnsweredRows(s: Sys, org: Id, status: OfferStatus)
    requires status.Accepted? || status.Declined?
    ensures RowsWith(Abs(s).offers, org, status) == RowsWith(s.offers, org, status)
  {
  }

  lemma DisjointUnionSize(a: set<Id>, b: set<Id>)
    requires a !! b
    ensures |a + b| == |a| + |b|
  {
  }

  /** Filters and counts read the raw status, and there the two systems can
      differ: a filter's rows agree, and so does their number, if and only if it
      is of answered offers or the organization has no offer past its deadline
      still waiting to be read. */
  lemma RawCountAgrees(s: Sys, org: Id, status: OfferStatus)
    ensures |RowsWith(s.offers, org, status)| == |RowsWith(Abs(s).offers, org, status)|
        <==> (status.Accepted? || status.Declined? || StaleRows(s, org) == {})
    ensures RowsWith(s.offers, org, status) == RowsWith(Abs(s).offers, org, status)
        <==> (status.Accepted? || status.Declined? || StaleRows(s, org) == {})
  {
    match status
    case Sent =>
      SentRows(s, org);
      DisjointUnionSize(RowsWith(Abs(s).offers, org, Sent), StaleRows(s, org));
    case Expired =>
      ExpiredRows(s, org);
      DisjointUnionSize(RowsWith(s.offers, org, Expired), StaleRows(s, org));
    case _ => AnsweredRows(s, org, status);
  }
}
