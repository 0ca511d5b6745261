/** Interview rows and the links rescheduling puts between them. One request is
    one atomic step; applications and memberships may change in any way between
    requests. */
module Interviews {
  import opened Common
  import P = Pipeline

  datatype Status = Scheduled | Rescheduled

  datatype Interview = Interview(
    app: Id, org: Id, at: nat, mode: string, status: Status, rescheduledTo: Option<Id>, panel: seq<Id>)

  /** One evaluation per panel member; a member is an interview and an interviewer. */
  type Evaluations = map<(Id, Id), map<string, real>>

  datatype Notice = Notice(user: Id, interview: Id, app: Id)

  datatype Db = Db(
    apps: map<Id, P.App>, members: set<(Id, Id)>,
    interviews: map<Id, Interview>, evaluations: Evaluations, notices: seq<Notice>, next: Id)

  const Empty := Db(map[], {}, map[], map[], [], 0)

  predicate AppIn(db: Db, org: Id, job: Id, id: Id) {
    id in db.apps && db.apps[id].job == job && db.apps[id].org == org
  }

  function Notices(panel: seq<Id>, interview: Id, app: Id): seq<Notice> {
    seq(|panel|, i requires 0 <= i < |panel| => Notice(panel[i], interview, app))
  }

  ghost function Schedule(db: Db, org: Id, job: Id, app: Id, at: nat, mode: string, panel: seq<Id>): (Db, Result<Id>) {
    if !AppIn(db, org, job, app) then (db, Err(NotFound))
    else if db.apps[app].status != P.AppStatus.Active then (db, Err(Conflict))
    else if exists u :: u in panel && (u, org) !in db.members then (db, Err(Unprocessable))
    else
      (db.(interviews := db.interviews[db.next := Interview(app, org, at, mode, Scheduled, None, panel)],
           notices := db.notices + Notices(panel, db.next, app), next := db.next + 1),
       Ok(db.next))
  }

  predicate InterviewIn(db: Db, org: Id, app: Id, id: Id) {
    id in db.interviews && db.interviews[id].app == app && db.interviews[id].org == org
  }

  ghost function Reschedule(db: Db, org: Id, job: Id, app: Id, id: Id, at: nat,
      mode: Option<string>): (Db, Result<Id>) {
    if !AppIn(db, org, job, app) then (db, Err(NotFound))
    else if !InterviewIn(db, org, app, id) then (db, Err(NotFound))
    else if db.interviews[id].status != Scheduled then (db, Err(Conflict))
    else
      var existing := db.interviews[id];
      var slot := Interview(app, org, at, if mode.Some? then mode.value
        else existing.mode, Scheduled, None, existing.panel);
      (db.(interviews := db.interviews[db.next := slot][id := existing.(status := Rescheduled,
        rescheduledTo := Some(db.next))],
           next := db.next + 1),
       Ok(db.next))
  }

  /** Each score is a whole number from 1 to 5. */
  ghost predicate ValidScores(scores: map<string, real>) {
    forall k :: k in scores ==> scores[k].Floor as real == scores[k] && 1.0 <= scores[k] <= 5.0
  }

  ghost function SubmitEvaluation(db: Db, interviewer: Id, id: Id, scores: map<string, real>): (Db, Result<Id>) {
    if id !in db.interviews || interviewer !in db.interviews[id].panel then (db, Err(Forbidden))
    else if !ValidScores(scores) then (db, Err(BadRequest))
    else if (id, interviewer) in db.evaluations then (db, Err(Conflict))
    else (db.(evaluations := db.evaluations[(id, interviewer) := scores]), Ok(id))
  }

  datatype Op =
    | ScheduleOp(org: Id, job: Id, app: Id, at: nat, mode: string, panel: seq<Id>)
    | RescheduleOp(org: Id, job: Id, app: Id, interview: Id, at: nat, remode: Option<string>)
    | EvaluateOp(interviewer: Id, interview: Id, scores: map<string, real>)
    | OtherServices(apps: map<Id, P.App>, members: set<(Id, Id)>)

  ghost function Step(db: Db, op: Op): (Db, Result<Id>) {
    match op
    case ScheduleOp(org, job, app, at, mode, panel) => Schedule(db, org, job, app, at, mode, panel)
    case RescheduleOp(org, job, app, id, at, mode) => Reschedule(db, org, job, app, id, at, mode)
    case EvaluateOp(interviewer, id, scores) => SubmitEvaluation(db, interviewer, id, scores)
    case OtherServices(apps, members) => (db.(apps := apps, members := members), Ok(0))
  }

  ghost function After(db: Db, ops: seq<Op>): Db {
    if ops == [] then db else Step(After(db, ops[..|ops| - 1]), ops[|ops| - 1]).0
  }

  // ------------------------------------------------------ the linked structure

  type Rows = map<Id, Interview>

  /** A row is linked exactly when it is RESCHEDULED; the link leads to a later
      row of the same application, organization and panel. */
  ghost predicate LinkSound(rows: Rows, id: Id)
    requires id in rows
  {
    var r := rows[id];
    && (r.status == Rescheduled <==> r.rescheduledTo.Some?)
    && (r.rescheduledTo.Some? ==>
          var n := r.rescheduledTo.value;
          id < n && n in rows && rows[n].app == r.app && rows[n].org == r.org && rows[n].panel == r.panel)
  }

  ghost predicate Chained(rows: Rows, next: Id) {
    && (forall id :: id in rows ==> id < next && LinkSound(rows, id))
    && (forall x, y | x in rows && y in rows ::
          rows[x].rescheduledTo.Some? && rows[x].rescheduledTo == rows[y].rescheduledTo ==> x == y)
  }

  /** What a request may do to the rows. */
  datatype Effect = Quiet | Opened(row: Interview) | Moved(id: Id, slot: Interview)

  predicate Allowed(rows: Rows, e: Effect) {
    match e
    case Quiet => true
    case Opened(row) => row.status == Scheduled && row.rescheduledTo == None
    case Moved(id, slot) =>
      && id in rows && rows[id].status == Scheduled && slot.status == Scheduled && slot.rescheduledTo == None
      && slot.app == rows[id].app && slot.org == rows[id].org && slot.panel == rows[id].panel
  }

  function Perform(rows: Rows, next: Id, e: Effect): Rows
    requires Allowed(rows, e)
  {
    match e
    case Quiet => rows
    case Opened(row) => rows[next := row]
    case Moved(id, slot) => rows[next := slot][id := rows[id].(status := Rescheduled, rescheduledTo := Some(next))]
  }

  function Bump(next: Id, e: Effect): Id { if e.Quiet? then next else next + 1 }

  ghost function EffectOf(db: Db, op: Op): Effect {
    if Step(db, op).1.Err? then Quiet else
      match op
      case ScheduleOp(org, _, app, at, mode, panel) => Opened(Interview(app, org, at, mode, Scheduled, None, panel))
      case RescheduleOp(org, _, app, id, at, mode) =>
        if id !in db.interviews then Quiet else
          Moved(id, Interview(app, org, at, if mode.Some? then mode.value
            else db.interviews[id].mode, Scheduled, None, db.interviews[id].panel))
      case _ => Quiet
  }

  lemma StepRows(db: Db, op: Op)
    ensures Allowed(db.interviews, EffectOf(db, op))
    ensures Step(db, op).0.interviews == Perform(db.interviews, db.next, EffectOf(db, op))
    ensures Step(db, op).0.next == Bump(db.next, EffectOf(db, op))
    ensures EffectOf(db, op).Opened? <==> op.ScheduleOp? && Step(db, op).1.Ok?
    ensures EffectOf(db, op).Moved? <==> op.RescheduleOp? && Step(db, op).1.Ok?
    ensures EffectOf(db, op).Opened? ==> EffectOf(db, op).row.app == op.app
    ensures EffectOf(db, op).Moved? ==> EffectOf(db, op).id == op.interview && Step(db, op).1.value == db.next
  {
  }

  lemma EffectChained(rows: Rows, next: Id, e: Effect)
    requires Chained(rows, next) && Allowed(rows, e)
    ensures Chained(Perform(rows, next, e), Bump(next, e))
  {
    var rows' := Perform(rows, next, e);
    forall id | id in rows' ensures id < Bump(next, e) && LinkSound(rows', id) {
      if id in rows {
        assert LinkSound(rows, id);
      }
    }
    forall x, y | x in rows' && y in rows' && rows'[x].rescheduledTo.Some?
      && rows'[x].rescheduledTo == rows'[y].rescheduledTo
      ensures x == y
    {
      assert x in rows && y in rows;
      assert LinkSound(rows, x) && LinkSound(rows, y);
    }
  }

  lemma StepChained(db: Db, op: Op)
    requires Chained(db.interviews, db.next)
    ensures Chained(Step(db, op).0.interviews, Step(db, op).0.next)
  {
    StepRows(db, op);
    EffectChained(db.interviews, db.next, EffectOf(db, op));
  }

  lemma {:induction false} ReachableChained(db: Db, ops: seq<Op>)
    requires Chained(db.interviews, db.next)
    ensures Chained(After(db, ops).interviews, After(db, ops).next)
  {
    if ops != [] {
      ReachableChained(db, ops[..|ops| - 1]);
      StepChained(After(db, ops[..|ops| - 1]), ops[|ops| - 1]);
    }
  }

  /** The row a chain of links ends in, and how many links away it is. */
  ghost function Tip(rows: Rows, next: Id, id: Id): Id
    requires Chained(rows, next) && id in rows
    decreases next - id
  {
    assert LinkSound(rows, id);
    if rows[id].rescheduledTo.None? then id else Tip(rows, next, rows[id].rescheduledTo.value)
  }

  ghost function Steps(rows: Rows, next: Id, id: Id): nat
    requires Chained(rows, next) && id in rows
    decreases next - id
  {
    assert LinkSound(rows, id);
    if rows[id].rescheduledTo.None? then 0 else 1 + Steps(rows, next, rows[id].rescheduledTo.value)
  }

  /** Following links from any interview ends, in one SCHEDULED row of the same
      application, organization and panel. */
  lemma {:induction false} ChainEnds(rows: Rows, next: Id, id: Id)
    requires Chained(rows, next) && id in rows
    ensures var t := Tip(rows, next, id);
      && t in rows && rows[t].status == Scheduled && rows[t].rescheduledTo == None
      && rows[t].app == rows[id].app && rows[t].org == rows[id].org && rows[t].panel == rows[id].panel
      && id <= t && (t == id <==> rows[id].status == Scheduled)
    decreases next - id
  {
    assert LinkSound(rows, id);
    if rows[id].rescheduledTo.Some? {
      ChainEnds(rows, next, rows[id].rescheduledTo.value);
    }
  }

  /** The row k links on. */
  ghost function Follow(rows: Rows, next: Id, id: Id, k: nat): Id
    requires Chained(rows, next) && id in rows && k <= Steps(rows, next, id)
    decreases k
  {
    assert LinkSound(rows, id);
    if k == 0 then id else Follow(rows, next, rows[id].rescheduledTo.value, k - 1)
  }

  /** Two interviews as far from the same tip are the same interview. */
  lemma {:induction false} SameDistance(rows: Rows, next: Id, x: Id, y: Id)
    requires Chained(rows, next) && x in rows && y in rows
    requires Tip(rows, next, x) == Tip(rows, next, y) && Steps(rows, next, x) == Steps(rows, next, y)
    ensures x == y
    decreases next - x
  {
    assert LinkSound(rows, x) && LinkSound(rows, y);
    if rows[x].rescheduledTo.Some? {
      SameDistance(rows, next, rows[x].rescheduledTo.value, rows[y].rescheduledTo.value);
    }
  }

  lemma {:induction false} FollowTip(rows: Rows, next: Id, id: Id, k: nat)
    requires Chained(rows, next) && id in rows && k <= Steps(rows, next, id)
    ensures var f := Follow(rows, next, id, k);
      f in rows && Tip(rows, next, f) == Tip(rows, next, id) && Steps(rows, next, f) == Steps(rows, next, id) - k
    decreases k
  {
    assert LinkSound(rows, id);
    if k > 0 {
      FollowTip(rows, next, rows[id].rescheduledTo.value, k - 1);
    }
  }

  /** Chains are disjoint lines: two interviews share a tip exactly when one is
      reached from the other. */
  lemma ChainsAreLines(rows: Rows, next: Id, x: Id, y: Id)
    requires Chained(rows, next) && x in rows && y in rows
    ensures Tip(rows, next, x) == Tip(rows, next, y) <==>
      ((exists k: nat :: k <= Steps(rows, next, x) && Follow(rows, next, x, k) == y)
       || (exists k: nat :: k <= Steps(rows, next, y) && Follow(rows, next, y, k) == x))
  {
    if Tip(rows, next, x) == Tip(rows, next, y) {
      if Steps(rows, next, x) >= Steps(rows, next, y) {
        var k := Steps(rows, next, x) - Steps(rows, next, y);
        FollowTip(rows, next, x, k);
        SameDistance(rows, next, Follow(rows, next, x, k), y);
      } else {
        var k := Steps(rows, next, y) - Steps(rows, next, x);
        FollowTip(rows, next, y, k);
        SameDistance(rows, next, Follow(rows, next, y, k), x);
      }
    }
    forall k: nat | k <= Steps(rows, next, x) && Follow(rows, next, x, k) == y
      ensures Tip(rows, next, x) == Tip(rows, next, y)
    {
      FollowTip(rows, next, x, k);
    }
    forall k: nat | k <= Steps(rows, next, y) && Follow(rows, next, y, k) == x
      ensures Tip(rows, next, x) == Tip(rows, next, y)
    {
      FollowTip(rows, next, y, k);
    }
  }

  // ------------------------------------------------------------- conservation

  ghost function Slots(rows: Rows, app: Id): set<Id> {
    set id | id in rows && rows[id].app == app && rows[id].status == Scheduled
  }

  ghost predicate Schedules(db: Db, op: Op, app: Id) {
    op.ScheduleOp? && op.app == app && Step(db, op).1.Ok?
  }

  /** Successful schedule calls for one application. */
  ghost function ScheduleCalls(db: Db, ops: seq<Op>, app: Id): nat {
    if ops == [] then 0 else
      var init := ops[..|ops| - 1];
      ScheduleCalls(db, init, app) + (if Schedules(After(db, init), ops[|ops| - 1], app) then 1 else 0)
  }

  predicate IsSlot(row: Interview, app: Id) { row.app == app && row.status == Scheduled }

  lemma PutSlot(rows: Rows, id: Id, row: Interview, app: Id)
    ensures Slots(rows[id := row], app) == if IsSlot(row, app) then Slots(rows, app) + {id} else Slots(rows, app) - {id}
    ensures id in Slots(rows, app) <==> id in rows && IsSlot(rows[id], app)
  {
  }

  lemma EffectSlots(rows: Rows, next: Id, e: Effect, app: Id)
    requires next !in rows && Allowed(rows, e)
    ensures |Slots(Perform(rows, next, e), app)|
      == |Slots(rows, app)| + (if e.Opened? && e.row.app == app then 1 else 0)
  {
    match e
    case Quiet =>
    case Opened(row) =>
      PutSlot(rows, next, row, app);
      assert next !in rows ==> Slots(rows, app) - {next} == Slots(rows, app);
    case Moved(id, slot) =>
      PutSlot(rows, next, slot, app);
      PutSlot(rows[next := slot], id, rows[id].(status := Rescheduled, rescheduledTo := Some(next)), app);
      assert !IsSlot(slot, app) ==> Slots(rows, app) - {next} - {id} == Slots(rows, app);
  }

  lemma StepSlots(db: Db, op: Op, app: Id)
    requires Chained(db.interviews, db.next)
    ensures |Slots(Step(db, op).0.interviews, app)|
      == |Slots(db.interviews, app)| + (if Schedules(db, op, app) then 1 else 0)
  {
    StepRows(db, op);
    EffectSlots(db.interviews, db.next, EffectOf(db, op), app);
  }

  /** Rescheduling conserves slots: the SCHEDULED interviews of an application
      number exactly the successful schedule calls made for it. */
  lemma {:induction false} SlotsConserved(db: Db, ops: seq<Op>, app: Id)
    requires Chained(db.interviews, db.next)
    ensures |Slots(After(db, ops).interviews, app)| == |Slots(db.interviews, app)| + ScheduleCalls(db, ops, app)
  {
    if ops != [] {
      var init := ops[..|ops| - 1];
      SlotsConserved(db, init, app);
      ReachableChained(db, init);
      StepSlots(After(db, init), ops[|ops| - 1], app);
    }
  }

  /** The step reschedules the chain this interview is in. */
  ghost predicate Extends(db: Db, op: Op, id: Id) {
    && Chained(db.interviews, db.next) && id in db.interviews
    && op.RescheduleOp? && Step(db, op).1.Ok? && op.interview == Tip(db.interviews, db.next, id)
  }

  lemma {:induction false} UnlinkedRowsDoNotMatter(rows: Rows, next: Id, rows': Rows, next': Id, id: Id)
    requires Chained(rows, next) && Chained(rows', next') && next <= next' && id in rows
    requires forall x :: x in rows ==> x in rows' && rows'[x] == rows[x]
    ensures Tip(rows', next', id) == Tip(rows, next, id) && Steps(rows', next', id) == Steps(rows, next, id)
    decreases next - id
  {
    assert LinkSound(rows, id);
    if rows[id].rescheduledTo.Some? {
      UnlinkedRowsDoNotMatter(rows, next, rows', next', rows[id].rescheduledTo.value);
    }
  }

  lemma {:induction false} ExtendTip(rows: Rows, next: Id, rows': Rows, next': Id, id: Id, tip: Id)
    requires Chained(rows, next) && Chained(rows', next') && id in rows && tip in rows && tip in rows' && next in rows'
    requires rows[tip].rescheduledTo == None
    requires rows'[tip].rescheduledTo == Some(next) && rows'[next].rescheduledTo == None
    requires forall x :: x in rows ==> x in rows' && (x != tip ==> rows'[x] == rows[x])
    ensures var t := Tip(rows, next, id);
      if t == tip then Tip(rows', next', id) == next && Steps(rows', next', id) == Steps(rows, next, id) + 1
      else Tip(rows', next', id) == t && Steps(rows', next', id) == Steps(rows, next, id)
    decreases next - id
  {
    assert LinkSound(rows, id) && LinkSound(rows', id);
    if rows[id].rescheduledTo.Some? {
      ExtendTip(rows, next, rows', next', rows[id].rescheduledTo.value, tip);
    } else if id == tip {
      assert LinkSound(rows', next);
    }
  }

  lemma EffectDistance(rows: Rows, next: Id, e: Effect, id: Id)
    requires Chained(rows, next) && Allowed(rows, e) && id in rows
    ensures var rows' := Perform(rows, next, e);
      var moved := e.Moved? && e.id == Tip(rows, next, id);
      && Chained(rows', Bump(next, e)) && id in rows'
      && Steps(rows', Bump(next, e), id) == Steps(rows, next, id) + (if moved then 1 else 0)
      && Tip(rows', Bump(next, e), id) == if moved then next else Tip(rows, next, id)
  {
    EffectChained(rows, next, e);
    if e.Moved? {
      assert LinkSound(rows, e.id);
      ExtendTip(rows, next, Perform(rows, next, e), Bump(next, e), id, e.id);
    } else {
      UnlinkedRowsDoNotMatter(rows, next, Perform(rows, next, e), Bump(next, e), id);
    }
  }

  lemma StepDistance(db: Db, op: Op, id: Id)
    requires Chained(db.interviews, db.next) && id in db.interviews
    ensures var db' := Step(db, op).0;
      && Chained(db'.interviews, db'.next) && id in db'.interviews
      && Steps(db'.interviews, db'.next, id)
        == Steps(db.interviews, db.next, id) + (if Extends(db, op, id) then 1 else 0)
      && (Extends(db, op, id) ==> Tip(db'.interviews, db'.next, id) == Step(db, op).1.value)
      && (!Extends(db, op, id) ==> Tip(db'.interviews, db'.next, id) == Tip(db.interviews, db.next, id))
  {
    StepRows(db, op);
    EffectDistance(db.interviews, db.next, EffectOf(db, op), id);
  }

  /** Later reschedules of the chain an interview is in. */
  ghost function Extensions(db: Db, ops: seq<Op>, id: Id): nat {
    if ops == [] then 0 else
      var init := ops[..|ops| - 1];
      Extensions(db, init, id) + (if Extends(After(db, init), ops[|ops| - 1], id) then 1 else 0)
  }

  /** The tip is as many links away as the chain was later rescheduled. */
  lemma {:induction false} DistanceCountsReschedules(db: Db, ops: seq<Op>, id: Id)
    requires Chained(db.interviews, db.next) && id in db.interviews
    ensures var end := After(db, ops);
      && Chained(end.interviews, end.next) && id in end.interviews
      && Steps(end.interviews, end.next, id) == Steps(db.interviews, db.next, id) + Extensions(db, ops, id)
  {
    if ops != [] {
      DistanceCountsReschedules(db, ops[..|ops| - 1], id);
      StepDistance(After(db, ops[..|ops| - 1]), ops[|ops| - 1], id);
    }
  }

  // ----------------------------------------------------------- evaluations

  /** Every evaluation belongs to a panel member of an existing interview and has
      valid scores; none is ever changed or removed. */
  ghost predicate EvaluationsSound(db: Db) {
    forall m :: m in db.evaluations ==>
      m.0 in db.interviews && m.1 in db.interviews[m.0].panel && ValidScores(db.evaluations[m])
  }

  lemma EffectPanels(rows: Rows, next: Id, e: Effect)
    requires Allowed(rows, e) && next !in rows
    ensures forall i :: i in rows ==> i in Perform(rows, next, e) && Perform(rows, next, e)[i].panel == rows[i].panel
  {
  }

  lemma OnlySubmitWrites(db: Db, op: Op)
    ensures Step(db, op).0.evaluations == db.evaluations
      || (op.EvaluateOp? && (op.interview, op.interviewer) !in db.evaluations && ValidScores(op.scores)
          && op.interview in db.interviews && op.interviewer in db.interviews[op.interview].panel
          && Step(db, op).0.evaluations == db.evaluations[(op.interview, op.interviewer) := op.scores])
  {
  }

  lemma StepEvaluations(db: Db, op: Op)
    requires Chained(db.interviews, db.next) && EvaluationsSound(db)
    ensures EvaluationsSound(Step(db, op).0)
    ensures forall m :: m in db.evaluations ==>
      m in Step(db, op).0.evaluations && Step(db, op).0.evaluations[m] == db.evaluations[m]
  {
    StepRows(db, op);
    EffectPanels(db.interviews, db.next, EffectOf(db, op));
    OnlySubmitWrites(db, op);
  }

  /** So over every run: evaluations stay valid and no evaluation is ever changed
      or removed. */
  lemma {:induction false} RunEvaluations(db: Db, ops: seq<Op>)
    requires Chained(db.interviews, db.next) && EvaluationsSound(db)
    ensures EvaluationsSound(After(db, ops))
    ensures forall m :: m in db.evaluations ==>
      m in After(db, ops).evaluations && After(db, ops).evaluations[m] == db.evaluations[m]
  {
    if ops != [] {
      RunEvaluations(db, ops[..|ops| - 1]);
      ReachableChained(db, ops[..|ops| - 1]);
      StepEvaluations(After(db, ops[..|ops| - 1]), ops[|ops| - 1]);
    }
  }
}
