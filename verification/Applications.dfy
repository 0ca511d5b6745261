/** What every run of the recruitment pipeline keeps about applications: their
    history replays, terminal statuses are final and accounted for, and PASS
    makes progress. */
module Applications {
  import opened Common
  import opened StageRows
  import opened Pipeline
  import opened Frames

  // ------------------------------------------------------------ the effects

  /** What one request may do to the applications, their history and the
      records of decisions. */
  datatype Effect =
    | Same
    | Created(app: App)
    | Passed(a: Id, next: Id, mover: Id)
    | Withdrew(a: Id)
    | Hires(a: Id, entry: Audit)
    | Rejects(a: Id, entry: Audit, note: Note)

  datatype Side = Side(apps: map<Id, App>, history: seq<Move>, audit: seq<Audit>, notes: seq<Note>)

  ghost function SideOf(db: Db): Side { Side(db.apps, db.history, db.audit, db.notes) }

  ghost predicate IsActive(s: Side, a: Id) { a in s.apps && s.apps[a].status == AppStatus.Active }

  ghost predicate Allowed(s: Side, next: Id, e: Effect) {
    match e
    case Same => true
    case Created(app) =>
      && next !in s.apps && app.status == AppStatus.Active && app.reason == None && app.createdIn == app.stage
      && !exists b :: IsActive(s, b) && s.apps[b].job == app.job && s.apps[b].candidate == app.candidate
    case Passed(a, _, _) => IsActive(s, a)
    case Withdrew(a) => IsActive(s, a)
    case Hires(a, entry) => IsActive(s, a) && entry.target == a && entry.hired
    case Rejects(a, entry, note) =>
      && IsActive(s, a) && entry.target == a && !entry.hired
      && note.app == a && note.user == s.apps[a].candidate && note.reason == entry.reason
        && entry.source == Some(note.source)
  }

  ghost function Perform(s: Side, next: Id, e: Effect): Side
    requires Allowed(s, next, e)
  {
    match e
    case Same => s
    case Created(app) => s.(apps := s.apps[next := app])
    case Passed(a, to, mover) =>
      s.(apps := s.apps[a := s.apps[a].(stage := to)],
        history := s.history + [Move(a, Some(s.apps[a].stage), to, mover)])
    case Withdrew(a) => s.(apps := s.apps[a := s.apps[a].(status := Withdrawn)])
    case Hires(a, entry) => s.(apps := s.apps[a := s.apps[a].(status := Hired)], audit := s.audit + [entry])
    case Rejects(a, entry, note) =>
      s.(apps := s.apps[a := WithReason(s.apps[a].(status := AppStatus.Rejected), entry.reason)],
         audit := s.audit + [entry], notes := s.notes + [note])
  }

  ghost function EffectOf(db: Db, op: Op): Effect {
    if Step(db, op).1.Err? then Same else
      match op
      case CreateOp(candidate, job, _, cv, first) =>
        if job in db.jobs && cv.Some? && first.Some? then
          Created(App(job, candidate, db.jobs[job].org, cv.value, first.value, AppStatus.Active, None, first.value))
        else Same
      case WithdrawOp(_, a) => Withdrew(a)
      case ScreenOp(_, actor, _, a, Pass(next)) => if next.Some? then Passed(a, next.value, actor) else Same
      case ScreenOp(org, actor, _, a, Reject(reason)) =>
        if a in db.apps then
          Rejects(a, Audit(actor, org, false, a, reason, Some(Source.Screening)),
            Note(db.apps[a].candidate, a, reason, Source.Screening))
        else Same
      case DecideOp(org, actor, _, a, hire, reason) =>
        if hire then Hires(a, Audit(actor, org, true, a, None, None))
        else if a in db.apps then
          Rejects(a, Audit(actor, org, false, a, reason, Some(Decision)),
            Note(db.apps[a].candidate, a, reason, Decision))
        else Same
      case _ => Same
  }

  ghost predicate HasEffect(db: Db, op: Op) {
    && Allowed(SideOf(db), db.next, EffectOf(db, op))
    && SideOf(Step(db, op).0) == Perform(SideOf(db), db.next, EffectOf(db, op))
  }

  lemma CreateEffect(db: Db, op: Op)
    requires op.CreateOp? && forall a :: a in db.apps ==> a < db.next
    ensures HasEffect(db, op)
  {
  }

  lemma WithdrawEffect(db: Db, op: Op)
    requires op.WithdrawOp?
    ensures HasEffect(db, op)
  {
  }

  lemma ScreenEffect(db: Db, op: Op)
    requires op.ScreenOp?
    ensures HasEffect(db, op)
  {
  }

  lemma DecideEffect(db: Db, op: Op)
    requires op.DecideOp?
    ensures HasEffect(db, op)
  {
  }

  lemma NoEffect(db: Db, op: Op)
    requires !EditsApplications(op)
    ensures HasEffect(db, op)
  {
    StepFrame(db, op);
  }

  lemma StepEffect(db: Db, op: Op)
    requires forall a :: a in db.apps ==> a < db.next
    ensures HasEffect(db, op)
  {
    match op
    case CreateOp(_, _, _, _, _) => CreateEffect(db, op);
    case WithdrawOp(_, _) => WithdrawEffect(db, op);
    case ScreenOp(_, _, _, _, _) => ScreenEffect(db, op);
    case DecideOp(_, _, _, _, _, _) => DecideEffect(db, op);
    case _ => NoEffect(db, op);
  }

  // ---------------------------------------------------------- stage history

  /** The history rows of one application, in order. */
  function Trail(history: seq<Move>, a: Id): seq<Move> {
    if history == [] then []
    else
      var last := history[|history| - 1];
      Trail(history[..|history| - 1], a) + (if last.app == a then [last] else [])
  }

  /** Replaying the moves from `start` arrives at `end`. */
  predicate Replays(trail: seq<Move>, start: Id, end: Id) {
    if trail == [] then start == end
    else
      var last := trail[|trail| - 1];
      last.to == end && last.from.Some? && Replays(trail[..|trail| - 1], start, last.from.value)
  }

  /** The stage the i-th move of a replay has to leave. */
  function Leaves(trail: seq<Move>, start: Id, i: nat): Option<Id>
    requires i <= |trail|
  {
    Some(if i == 0 then start else trail[i - 1].to)
  }

  /** The first entry leaves the starting stage, each entry leaves the stage the
      one before reached, the last reaches `end`. */
  predicate Linked(trail: seq<Move>, start: Id, end: Id) {
    (forall i :: 0 <= i < |trail| ==> trail[i].from == Leaves(trail, start, i))
      && Some(end) == Leaves(trail, start, |trail|)
  }

  lemma LinkedInit(trail: seq<Move>, start: Id, end: Id)
    requires trail != []
    ensures var init, last := trail[..|trail| - 1], trail[|trail| - 1];
      Linked(trail, start, end) <==> last.to == end && last.from.Some? && Linked(init, start, last.from.value)
  {
    var k := |trail| - 1;
    var init := trail[..k];
    assert forall i :: 0 <= i <= k ==> Leaves(init, start, i) == Leaves(trail, start, i);
    if Linked(trail, start, end) {
      assert trail[k].from == Leaves(trail, start, k);
      assert forall i :: 0 <= i < k ==> init[i].from == Leaves(init, start, i);
    }
    if trail[k].from.Some? && Linked(init, start, trail[k].from.value) {
      assert forall i :: 0 <= i < k ==> trail[i] == init[i];
    }
  }

  /** Replaying is being linked, entry by entry. */
  lemma {:induction false} ReplayLinks(trail: seq<Move>, start: Id, end: Id)
    ensures Replays(trail, start, end) <==> Linked(trail, start, end)
  {
    if trail != [] {
      LinkedInit(trail, start, end);
      var last := trail[|trail| - 1];
      if last.from.Some? {
        ReplayLinks(trail[..|trail| - 1], start, last.from.value);
      }
    }
  }

  lemma TrailAppend(history: seq<Move>, m: Move, a: Id)
    ensures Trail(history + [m], a) == if m.app == a then Trail(history, a) + [m] else Trail(history, a)
  {
  }

  lemma ReplayAppend(trail: seq<Move>, start: Id, end: Id, m: Move)
    requires Replays(trail, start, end) && m.from == Some(end)
    ensures Replays(trail + [m], start, m.to)
  {
  }

  lemma TrailOfStranger(history: seq<Move>, a: Id)
    requires forall m :: m in history ==> m.app != a
    ensures Trail(history, a) == []
  {
  }

  ghost predicate Replayable(s: Side) {
    && (forall m :: m in s.history ==> m.app in s.apps)
    && (forall a :: a in s.apps ==> Replays(Trail(s.history, a), s.apps[a].createdIn, s.apps[a].stage))
  }

  lemma EffectReplayable(s: Side, next: Id, e: Effect)
    requires Replayable(s) && Allowed(s, next, e)
    ensures Replayable(Perform(s, next, e))
  {
    var s' := Perform(s, next, e);
    match e
    case Created(app) => TrailOfStranger(s.history, next);
    case Passed(a, to, mover) =>
      var m := Move(a, Some(s.apps[a].stage), to, mover);
      forall b | b in s'.apps ensures Replays(Trail(s'.history, b), s'.apps[b].createdIn, s'.apps[b].stage) {
        TrailAppend(s.history, m, b);
        if b == a {
          ReplayAppend(Trail(s.history, a), s.apps[a].createdIn, s.apps[a].stage, m);
        }
      }
    case _ =>
  }

  // ------------------------------------------------------- terminal statuses

  ghost predicate OneActive(s: Side) {
    forall a, b | IsActive(s, a) && IsActive(s, b) ::
      s.apps[a].job == s.apps[b].job && s.apps[a].candidate == s.apps[b].candidate ==> a == b
  }

  lemma EffectOneActive(s: Side, next: Id, e: Effect)
    requires OneActive(s) && Allowed(s, next, e)
    ensures OneActive(Perform(s, next, e))
  {
  }

  /** A step never touches an application that is no longer active, and never
      changes anything of an active one but status, stage and reason; a status
      change leaves the stage alone. */
  ghost predicate Keeps(apps: map<Id, App>, apps': map<Id, App>) {
    forall a :: a in apps ==>
      && a in apps'
      && (apps[a].status != AppStatus.Active ==> apps'[a] == apps[a])
      && apps'[a] == apps[a].(status := apps'[a].status, stage := apps'[a].stage, reason := apps'[a].reason)
      && (apps'[a].status != AppStatus.Active ==> apps'[a].stage == apps[a].stage)
  }

  lemma StepKeeps(db: Db, op: Op)
    requires Sound(db)
    ensures Keeps(db.apps, Step(db, op).0.apps)
  {
    StepEffect(db, op);
    EffectKeeps(SideOf(db), db.next, EffectOf(db, op));
  }

  lemma EffectKeeps(s: Side, next: Id, e: Effect)
    requires Allowed(s, next, e)
    ensures Keeps(s.apps, Perform(s, next, e).apps)
  {
  }

  /** Once not active, an application's row never changes again, in any run. */
  lemma {:induction false} TerminalIsFinal(db: Db, ops: seq<Op>, a: Id)
    requires Sound(db) && IsRun(db, ops)
    requires a in db.apps && db.apps[a].status != AppStatus.Active
    ensures a in After(db, ops).apps && After(db, ops).apps[a] == db.apps[a]
  {
    if ops != [] {
      var init := ops[..|ops| - 1];
      TerminalIsFinal(db, init, a);
      SoundRun(db, init);
      StepKeeps(After(db, init), ops[|ops| - 1]);
    }
  }

  lemma {:induction false} SoundRun(db: Db, ops: seq<Op>)
    requires Sound(db) && IsRun(db, ops)
    ensures Sound(After(db, ops))
  {
    if ops != [] {
      SoundRun(db, ops[..|ops| - 1]);
      StepSound(After(db, ops[..|ops| - 1]), ops[|ops| - 1]);
    }
  }

  /** Audit entries of one kind about one application. */
  function Entries(audit: seq<Audit>, a: Id, hired: bool): nat {
    if audit == [] then 0
    else
      var last := audit[|audit| - 1];
      Entries(audit[..|audit| - 1], a, hired) + (if last.target == a && last.hired == hired then 1 else 0)
  }

  function Notices(notes: seq<Note>, a: Id): nat {
    if notes == [] then 0
    else
      var last := notes[|notes| - 1];
      Notices(notes[..|notes| - 1], a) + (if last.app == a then 1 else 0)
  }

  lemma EntriesAppend(audit: seq<Audit>, e: Audit, a: Id, hired: bool)
    ensures Entries(audit + [e], a, hired)
      == Entries(audit, a, hired) + (if e.target == a && e.hired == hired then 1 else 0)
  {
  }

  lemma NoticesAppend(notes: seq<Note>, n: Note, a: Id)
    ensures Notices(notes + [n], a) == Notices(notes, a) + (if n.app == a then 1 else 0)
  {
  }

  lemma NoEntries(audit: seq<Audit>, a: Id, hired: bool)
    requires forall e :: e in audit ==> e.target != a
    ensures Entries(audit, a, hired) == 0
  {
  }

  lemma NoNotices(notes: seq<Note>, a: Id)
    requires forall n :: n in notes ==> n.app != a
    ensures Notices(notes, a) == 0
  {
  }

  ghost function WithStatus(apps: map<Id, App>, status: AppStatus): set<Id> {
    set a | a in apps && apps[a].status == status
  }

  function Flag(b: bool): nat { if b then 1 else 0 }

  /** One application's own decisions: one audit entry of the right kind if it is
      hired or rejected, one notice if rejected, none otherwise. */
  predicate RecordedFor(status: AppStatus, audit: seq<Audit>, notes: seq<Note>, a: Id) {
    && Entries(audit, a, true) == Flag(status == Hired)
    && Entries(audit, a, false) == Flag(status == AppStatus.Rejected)
    && Notices(notes, a) == Flag(status == AppStatus.Rejected)
  }

  ghost predicate Recorded(s: Side) {
    && (forall e :: e in s.audit ==> e.target in s.apps)
    && (forall n :: n in s.notes ==> n.app in s.apps)
    && (forall a :: a in s.apps ==> RecordedFor(s.apps[a].status, s.audit, s.notes, a))
  }

  /** And in total. */
  ghost predicate Totals(s: Side) {
    && |s.audit| == |WithStatus(s.apps, AppStatus.Rejected)| + |WithStatus(s.apps, Hired)|
    && |s.notes| == |WithStatus(s.apps, AppStatus.Rejected)|
  }

  /** What one more audit entry, and a notice with a rejection, record. */
  lemma DecisionRecorded(status: AppStatus, audit: seq<Audit>, notes: seq<Note>, a: Id, entry: Audit, more: seq<Note>)
    requires RecordedFor(status, audit, notes, a)
    requires entry.target == a ==> status == AppStatus.Active
    requires if entry.hired then more == [] else |more| == 1 && more[0].app == entry.target
    ensures var decided := if entry.hired then Hired else AppStatus.Rejected;
      RecordedFor(if entry.target == a then decided else status, audit + [entry], notes + more, a)
  {
    EntriesAppend(audit, entry, a, true);
    EntriesAppend(audit, entry, a, false);
    if entry.hired {
      assert notes + more == notes;
    } else {
      assert notes + more == notes + [more[0]];
      NoticesAppend(notes, more[0], a);
    }
  }

  /** What a decision's entry, and a rejection's notice, add about one application. */
  lemma DecidedRow(s: Side, a: Id, app: App, entry: Audit, more: seq<Note>, b: Id)
    requires IsActive(s, a) && entry.target == a && b in s.apps
    requires RecordedFor(s.apps[b].status, s.audit, s.notes, b)
    requires app.status == if entry.hired then Hired else AppStatus.Rejected
    requires if entry.hired then more == [] else |more| == 1 && more[0].app == a
    ensures RecordedFor(s.apps[a := app][b].status, s.audit + [entry], s.notes + more, b)
  {
    DecisionRecorded(s.apps[b].status, s.audit, s.notes, b, entry, more);
  }

  lemma DecidedSide(s: Side, a: Id, app: App, entry: Audit, more: seq<Note>)
    requires Recorded(s) && IsActive(s, a) && entry.target == a
    requires app.status == if entry.hired then Hired else AppStatus.Rejected
    requires if entry.hired then more == [] else |more| == 1 && more[0].app == a
    ensures Recorded(Side(s.apps[a := app], s.history, s.audit + [entry], s.notes + more))
  {
    forall b | b in s.apps ensures RecordedFor(s.apps[a := app][b].status, s.audit + [entry], s.notes + more, b) {
      DecidedRow(s, a, app, entry, more, b);
    }
    assert forall n :: n in more ==> n.app == a;
  }

  lemma HireRecorded(s: Side, next: Id, e: Effect)
    requires Recorded(s) && Allowed(s, next, e) && e.Hires?
    ensures Recorded(Perform(s, next, e))
  {
    assert s.notes + [] == s.notes;
    DecidedSide(s, e.a, Perform(s, next, e).apps[e.a], e.entry, []);
  }

  lemma RejectionRecorded(s: Side, next: Id, e: Effect)
    requires Recorded(s) && Allowed(s, next, e) && e.Rejects?
    ensures Recorded(Perform(s, next, e))
  {
    DecidedSide(s, e.a, Perform(s, next, e).apps[e.a], e.entry, [e.note]);
  }

  lemma CreationRecorded(s: Side, next: Id, e: Effect)
    requires Recorded(s) && Allowed(s, next, e) && e.Created?
    ensures Recorded(Perform(s, next, e))
  {
    NoEntries(s.audit, next, true);
    NoEntries(s.audit, next, false);
    NoNotices(s.notes, next);
  }

  lemma EffectRecorded(s: Side, next: Id, e: Effect)
    requires Recorded(s) && Allowed(s, next, e)
    ensures Recorded(Perform(s, next, e))
  {
    match e
    case Created(_) => CreationRecorded(s, next, e);
    case Hires(_, _) => HireRecorded(s, next, e);
    case Rejects(_, _, _) => RejectionRecorded(s, next, e);
    case _ =>
  }

  /** One row leaving ACTIVE, or new, adds one application to its status. */
  lemma StatusCount(apps: map<Id, App>, a: Id, app: App, status: AppStatus)
    requires a in apps ==> apps[a].status == AppStatus.Active
    requires status != AppStatus.Active
    ensures |WithStatus(apps[a := app], status)| == |WithStatus(apps, status)| + Flag(app.status == status)
  {
    assert a !in WithStatus(apps, status);
    assert WithStatus(apps[a := app], status) == if app.status == status then WithStatus(apps, status) + {a}
      else WithStatus(apps, status);
  }

  lemma EffectTotals(s: Side, next: Id, e: Effect)
    requires Totals(s) && Allowed(s, next, e)
    ensures Totals(Perform(s, next, e))
  {
    if !e.Same? {
      var apps' := Perform(s, next, e).apps;
      var a := if e.Created? then next else e.a;
      assert apps' == s.apps[a := apps'[a]];
      StatusCount(s.apps, a, apps'[a], Hired);
      StatusCount(s.apps, a, apps'[a], AppStatus.Rejected);
    }
  }

  // ----------------------------------------------------------------- reasons

  /** A rejected application carries the reason its audit entry and its notification
      carry; any other carries none. */
  ghost predicate Reasons(s: Side) {
    && (forall a :: a in s.apps && s.apps[a].status != AppStatus.Rejected ==> s.apps[a].reason == None)
    && (forall e :: e in s.audit && !e.hired ==>
          e.target in s.apps && s.apps[e.target].status == AppStatus.Rejected && s.apps[e.target].reason == e.reason)
    && (forall n :: n in s.notes ==>
          n.app in s.apps && s.apps[n.app].status == AppStatus.Rejected && s.apps[n.app].reason == n.reason)
  }

  lemma EffectReasons(s: Side, next: Id, e: Effect)
    requires Reasons(s) && Allowed(s, next, e)
    ensures Reasons(Perform(s, next, e))
  {
  }

  lemma {:induction false} ReachableReasons(ops: seq<Op>)
    requires IsRun(Empty, ops)
    ensures Reasons(SideOf(After(Empty, ops)))
  {
    if ops != [] {
      var mid := After(Empty, ops[..|ops| - 1]);
      ReachableReasons(ops[..|ops| - 1]);
      ReachableSound(ops[..|ops| - 1]);
      StepEffect(mid, ops[|ops| - 1]);
      EffectReasons(SideOf(mid), mid.next, EffectOf(mid, ops[|ops| - 1]));
    }
  }

  ghost predicate Valid(db: Db) {
    && Sound(db)
    && Replayable(SideOf(db)) && OneActive(SideOf(db))
    && Recorded(SideOf(db)) && Totals(SideOf(db))
  }

  lemma StepValid(db: Db, op: Op)
    requires Valid(db) && Possible(db, op)
    ensures Valid(Step(db, op).0)
  {
    StepSound(db, op);
    StepEffect(db, op);
    var e := EffectOf(db, op);
    EffectReplayable(SideOf(db), db.next, e);
    EffectOneActive(SideOf(db), db.next, e);
    EffectRecorded(SideOf(db), db.next, e);
    EffectTotals(SideOf(db), db.next, e);
  }

  /** All of it, in every reachable state. */
  lemma {:induction false} ReachableValid(ops: seq<Op>)
    requires IsRun(Empty, ops)
    ensures Valid(After(Empty, ops))
  {
    if ops == [] {
      assert WithStatus(Empty.apps, AppStatus.Rejected) == {} && WithStatus(Empty.apps, Hired) == {};
    } else {
      ReachableValid(ops[..|ops| - 1]);
      StepValid(After(Empty, ops[..|ops| - 1]), ops[|ops| - 1]);
    }
  }

  /** The last history entry's toStage always resolves: it is the stage the
      application is in, and that row exists. */
  lemma LastMoveResolves(ops: seq<Op>, a: Id)
    requires IsRun(Empty, ops) && a in After(Empty, ops).apps && Trail(After(Empty, ops).history, a) != []
    ensures var db := After(Empty, ops);
      var trail := Trail(db.history, a);
      trail[|trail| - 1].to == db.apps[a].stage && db.apps[a].stage in db.stages
  {
    ReachableValid(ops);
  }

  // ---------------------------------------------------------------- progress

  /** The stage names this request asks the job's pipeline to become. */
  ghost predicate AsksDistinct(db: Db, op: Op) {
    match op
    case ReplaceStagesOp(_, _, names, _) => Distinct(names)
    case ApplyTemplateOp(_, _, _, listing, _) => Distinct(NamesOf(db.templateStages, listing))
    case _ => true
  }

  ghost predicate TidyJob(t: Table, job: Id) {
    exists names :: Distinct(names) && Exact(t, job, names)
  }

  /** Every pipeline has distinct names, numbered 0..n-1. */
  ghost predicate Tidy(db: Db) {
    forall j :: j in db.jobs ==> TidyJob(db.stages, j)
  }

  ghost predicate AllDistinct(db: Db, ops: seq<Op>) {
    ops != [] ==> AllDistinct(db, ops[..|ops| - 1]) && AsksDistinct(After(db, ops[..|ops| - 1]), ops[|ops| - 1])
  }

  /** The rows of this job in t are rows of t' as they were, and t' has no others. */
  ghost predicate SameRows(t: Table, t': Table, job: Id) {
    forall id :: (id in t && t[id].owner == job) || (id in t' && t'[id].owner == job) ==>
      id in t && id in t' && t[id] == t'[id]
  }

  lemma ExactFrame(t: Table, t': Table, job: Id, names: seq<string>)
    requires Exact(t, job, names)
    requires SameRows(t, t', job)
    ensures Exact(t', job, names)
  {
    forall i | 0 <= i < |names| ensures RowAt(t', job, i) {
      assert RowAt(t, job, i);
      var id :| id in t && t[id].owner == job && t[id].order == i;
      assert t'[id].order == i;
    }
  }

  lemma SetStagesTidy(db: Db, job: Id, names: seq<string>, index: map<string, Id>)
    requires Sound(db) && Tidy(db) && job in db.jobs
    requires |names| > 0 && Distinct(names) && IsIndex(db.stages, job, index)
    ensures Tidy(SetStages(db, job, names, index).0)
  {
    var db' := SetStages(db, job, names, index).0;
    if db' != db {
      assert TidyJob(db.stages, job);
      var was :| Distinct(was) && Exact(db.stages, job, was);
      ExactUniqueNames(db.stages, job, was);
      DistinctEdit(db.stages, job, names, index, db.next);
      EditSafe(db.stages, job, names, index, db.next);
      assert TidyJob(db'.stages, job);
      forall j | j in db'.jobs && j != job ensures TidyJob(db'.stages, j) {
        assert TidyJob(db.stages, j);
        var ns :| Distinct(ns) && Exact(db.stages, j, ns);
        ExactFrame(db.stages, db'.stages, j, ns);
      }
    }
  }

  lemma CreateJobTidy(db: Db, org: Id, salaryMin: Option<nat>, salaryMax: Option<nat>)
    requires Sound(db) && Tidy(db)
    ensures Tidy(CreateJob(db, org, salaryMin, salaryMax).0)
  {
    assert Distinct<string>([]) && Exact(db.stages, db.next, []);
  }

  lemma SameTidy(db: Db, db': Db)
    requires Tidy(db) && db'.stages == db.stages && db'.jobs.Keys == db.jobs.Keys
    ensures Tidy(db')
  {
  }

  lemma StepTidy(db: Db, op: Op)
    requires Sound(db) && Tidy(db) && Possible(db, op) && AsksDistinct(db, op)
    ensures Tidy(Step(db, op).0)
  {
    match op
    case ReplaceStagesOp(org, job, names, index) =>
      if JobIn(db, org, job) {
        SetStagesTidy(db, job, names, index);
      }
    case ApplyTemplateOp(org, job, template, listing, index) =>
      if JobIn(db, org, job) && TemplateIn(db, org, template) {
        ListingNonEmpty(db.templateStages, template, listing);
        SetStagesTidy(db, job, NamesOf(db.templateStages, listing), index);
      }
    case CreateJobOp(org, salaryMin, salaryMax) => CreateJobTidy(db, org, salaryMin, salaryMax);
    case _ =>
      StepFrame(db, op);
      SameTidy(db, Step(db, op).0);
  }

  /** As long as every request asks for distinct names, every pipeline keeps
      distinct names numbered 0..n-1. */
  lemma {:induction false} ReachableTidy(ops: seq<Op>)
    requires IsRun(Empty, ops) && AllDistinct(Empty, ops)
    ensures Tidy(After(Empty, ops))
  {
    if ops != [] {
      ReachableTidy(ops[..|ops| - 1]);
      ReachableSound(ops[..|ops| - 1]);
      StepTidy(After(Empty, ops[..|ops| - 1]), ops[|ops| - 1]);
    }
  }

  /** On a stepwise pipeline, PASS on an active application is refused with 422
      exactly when the page shows its stage as the final one. */
  lemma PassRefusedAtFinalStage(db: Db, org: Id, actor: Id, job: Id, a: Id, next: Option<Id>, ids: seq<Id>)
    requires Sound(db) && AppIn(db, org, job, a) && db.apps[a].status == AppStatus.Active
    requires Possible(db, ScreenOp(org, actor, job, a, Pass(next)))
    requires IsListing(db.stages, job, ids) && Stepwise(db.stages, job)
    ensures Screen(db, org, actor, job, a, Pass(next)).1 == Err(Unprocessable) <==> IsFinalStage(ids, db.apps[a].stage)
  {
    FinalStageRule(db.stages, job, ids);
  }

  ghost predicate Edits(op: Op, job: Id) {
    (op.ReplaceStagesOp? || op.ApplyTemplateOp?) && op.job == job
  }

  ghost predicate Passes(db: Db, op: Op, a: Id) {
    op.ScreenOp? && op.app == a && op.s.Pass? && Step(db, op).1.Ok?
  }

  /** Successful PASSes of one application along a run. */
  ghost function PassCount(db: Db, ops: seq<Op>, a: Id): nat {
    if ops == [] then 0 else
      var init := ops[..|ops| - 1];
      PassCount(db, init, a) + (if Passes(After(db, init), ops[|ops| - 1], a) then 1 else 0)
  }

  ghost function OrderOf(db: Db, a: Id): nat
    requires Sound(db) && a in db.apps
  {
    db.stages[db.apps[a].stage].order
  }

  /** An edit of one job's pipeline leaves every other job's rows alone. */
  lemma EditOtherJob(db: Db, other: Id, names: seq<string>, index: map<string, Id>, job: Id)
    requires Sound(db) && IsIndex(db.stages, other, index) && |names| > 0 && other != job
    ensures SameRows(db.stages, SetStages(db, other, names, index).0.stages, job)
  {
    EditSafe(db.stages, other, names, index, db.next);
  }

  lemma ReplaceOtherJob(db: Db, op: Op, job: Id)
    requires Sound(db) && Possible(db, op) && op.ReplaceStagesOp? && op.job != job
    ensures SameRows(db.stages, Step(db, op).0.stages, job)
  {
    if JobIn(db, op.org, op.job) {
      EditOtherJob(db, op.job, op.names, op.index, job);
    }
  }

  lemma ApplyToOtherJob(db: Db, op: Op, job: Id)
    requires Sound(db) && Possible(db, op) && op.ApplyTemplateOp? && op.job != job
    ensures SameRows(db.stages, Step(db, op).0.stages, job)
  {
    if JobIn(db, op.org, op.job) && TemplateIn(db, op.org, op.template) {
      ListingNonEmpty(db.templateStages, op.template, op.listing);
      EditOtherJob(db, op.job, NamesOf(db.templateStages, op.listing), op.index, job);
    }
  }

  /** A request that does not edit this job's pipeline leaves its rows alone. */
  lemma StepSameRows(db: Db, op: Op, job: Id)
    requires Sound(db) && Possible(db, op) && !Edits(op, job)
    ensures SameRows(db.stages, Step(db, op).0.stages, job)
  {
    if op.ReplaceStagesOp? {
      ReplaceOtherJob(db, op, job);
    } else if op.ApplyTemplateOp? {
      ApplyToOtherJob(db, op, job);
    } else {
      StepFrame(db, op);
    }
  }

  lemma SameRowsTrans(t: Table, mid: Table, t': Table, job: Id)
    requires SameRows(t, mid, job) && SameRows(mid, t', job)
    ensures SameRows(t, t', job)
  {
  }

  /** Between edits of its pipeline, whatever its names and orders, an application
      moves up one order per PASS, and so it passes at most as often as its order
      is below the highest one. */
  lemma {:induction false} PassesBounded(db: Db, ops: seq<Op>, a: Id)
    requires Sound(db) && IsRun(db, ops) && a in db.apps
    requires forall op :: op in ops ==> !Edits(op, db.apps[a].job)
    ensures Sound(After(db, ops)) && a in After(db, ops).apps && After(db, ops).apps[a].job == db.apps[a].job
    ensures SameRows(db.stages, After(db, ops).stages, db.apps[a].job)
    ensures OrderOf(After(db, ops), a) == OrderOf(db, a) + PassCount(db, ops, a)
    ensures forall top :: Top(db.stages, db.apps[a].job, top) ==>
      PassCount(db, ops, a) <= db.stages[top].order - OrderOf(db, a)
  {
    if ops != [] {
      var init := ops[..|ops| - 1];
      var op := ops[|ops| - 1];
      PassesBounded(db, init, a);
      var mid := After(db, init);
      assert op in ops;
      StepSound(mid, op);
      StepKeeps(mid, op);
      StepSameRows(mid, op, db.apps[a].job);
      SameRowsTrans(db.stages, mid.stages, After(db, ops).stages, db.apps[a].job);
      StepMovesUp(mid, op, a);
    }
    var stage := After(db, ops).apps[a].stage;
    assert stage in db.stages && db.stages[stage] == After(db, ops).stages[stage];
  }

  /** With orders 0..n-1 that is n-1-order, and the orders stay so. */
  lemma PassesBoundedExact(db: Db, ops: seq<Op>, a: Id, names: seq<string>)
    requires Sound(db) && IsRun(db, ops) && a in db.apps && Exact(db.stages, db.apps[a].job, names)
    requires forall op :: op in ops ==> !Edits(op, db.apps[a].job)
    ensures Exact(After(db, ops).stages, db.apps[a].job, names)
    ensures PassCount(db, ops, a) <= |names| - 1 - OrderOf(db, a)
  {
    PassesBounded(db, ops, a);
    ExactFrame(db.stages, After(db, ops).stages, db.apps[a].job, names);
    assert OrderOf(After(db, ops), a) < |names|;
  }

  lemma PassMovesUp(db: Db, op: Op, a: Id)
    requires Sound(db) && Possible(db, op) && a in db.apps && Passes(db, op, a)
    ensures var db' := Step(db, op).0;
      && a in db'.apps && db'.apps[a].stage in db.stages
      && db.stages[db'.apps[a].stage].order == OrderOf(db, a) + 1
  {
  }

  lemma PassedIsPass(db: Db, op: Op, a: Id)
    requires EffectOf(db, op).Passed? && EffectOf(db, op).a == a
    ensures Passes(db, op, a)
  {
  }

  lemma EffectStays(s: Side, next: Id, e: Effect, a: Id)
    requires Allowed(s, next, e) && a in s.apps && !(e.Passed? && e.a == a)
    ensures a in Perform(s, next, e).apps && Perform(s, next, e).apps[a].stage == s.apps[a].stage
  {
  }

  /** A step moves an application only by a successful PASS, and then one up. */
  lemma StepMovesUp(db: Db, op: Op, a: Id)
    requires Sound(db) && Possible(db, op) && a in db.apps
    ensures var db' := Step(db, op).0;
      && a in db'.apps
      && (Passes(db, op, a) ==>
            && db'.stages == db.stages && db'.apps[a].stage in db.stages
            && db.stages[db'.apps[a].stage].order == OrderOf(db, a) + 1)
      && (!Passes(db, op, a) ==> db'.apps[a].stage == db.apps[a].stage)
  {
    if Passes(db, op, a) {
      PassMovesUp(db, op, a);
      StepFrame(db, op);
    } else {
      StepEffect(db, op);
      if EffectOf(db, op).Passed? && EffectOf(db, op).a == a {
        PassedIsPass(db, op, a);
      }
      EffectStays(SideOf(db), db.next, EffectOf(db, op), a);
    }
  }
}
