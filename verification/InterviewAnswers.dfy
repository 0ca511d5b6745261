/** Every interview request, by its answer. Said of the columns, with guards of its
    own. */
module InterviewAnswers {
  import opened Common
  import opened Interviews
  import P = Pipeline

  predicate Handles(db: Db, org: Id, job: Id, app: Id) {
    app in db.apps && db.apps[app].job == job && db.apps[app].org == org
  }

  /** 1, 2, 3, 4 or 5. */
  predicate Mark(score: real) { score == 1.0 || score == 2.0 || score == 3.0 || score == 4.0 || score == 5.0 }

  lemma MarkIsWhole(score: real)
    ensures Mark(score) <==> score.Floor as real == score && 1.0 <= score <= 5.0
  {
    if score.Floor as real == score && 1.0 <= score <= 5.0 {
      assert 1 <= score.Floor <= 5;
    }
  }

  lemma ScoresAreMarks(scores: map<string, real>)
    ensures ValidScores(scores) <==> forall k :: k in scores ==> Mark(scores[k])
  {
    forall k | k in scores ensures Mark(scores[k]) <==>
      scores[k].Floor as real == scores[k] && 1.0 <= scores[k] <= 5.0 {
      MarkIsWhole(scores[k]);
    }
  }

  /** Every interviewer of the list holds a role at the organization. */
  predicate AllMembers(db: Db, org: Id, panel: seq<Id>) { forall u :: u in panel ==> (u, org) in db.members }

  lemma ScheduleAnswer(db: Db, org: Id, job: Id, app: Id, at: nat, mode: string, panel: seq<Id>)
    ensures var (db', r) := Schedule(db, org, job, app, at, mode, panel);
      var open := Handles(db, org, job, app) && db.apps[app].status == P.AppStatus.Active;
      && (r == Err(NotFound) <==> !Handles(db, org, job, app))
      && (r == Err(Conflict) <==> Handles(db, org, job, app) && db.apps[app].status != P.AppStatus.Active)
      && (r == Err(Unprocessable) <==> open && !AllMembers(db, org, panel))
      && (r.Ok? <==> open && AllMembers(db, org, panel))
      && (r.Err? ==> db' == db)
      && (r.Ok? ==>
            && r.value == db.next
            && db'.interviews == db.interviews[db.next := Interview(app, org, at, mode, Scheduled, None, panel)]
            && |db'.notices| == |db.notices| + |panel| && db'.notices[..|db.notices|] == db.notices
            && (forall k :: 0 <= k < |panel| ==> db'.notices[|db.notices| + k] == Notice(panel[k], db.next, app))
            && db'.evaluations == db.evaluations)
  {
  }

  lemma RescheduleAnswer(db: Db, org: Id, job: Id, app: Id, id: Id, at: nat, mode: Option<string>)
    requires db.next !in db.interviews
    ensures var (db', r) := Reschedule(db, org, job, app, id, at, mode);
      var found := Handles(db, org, job, app) && id in db.interviews && db.interviews[id].app == app
        && db.interviews[id].org == org;
      && (r == Err(NotFound) <==> !found)
      && (r == Err(Conflict) <==> found && db.interviews[id].status != Scheduled)
      && (r.Ok? <==> found && db.interviews[id].status == Scheduled)
      && (r.Err? ==> db' == db)
      && (r.Ok? ==>
            var was, slot := db.interviews[id], db'.interviews[db.next];
            && r.value == db.next && db'.interviews.Keys == db.interviews.Keys + {db.next}
            && slot.app == app && slot.org == org && slot.at == at && slot.panel == was.panel
            && slot.mode == (if mode.Some? then mode.value else was.mode)
            && slot.status == Scheduled && slot.rescheduledTo == None
            && db'.interviews[id] == was.(status := Rescheduled, rescheduledTo := Some(db.next))
            && (forall x :: x in db.interviews && x != id ==> db'.interviews[x] == db.interviews[x])
            && db'.notices == db.notices && db'.evaluations == db.evaluations)
  {
  }

  lemma SubmitEvaluationAnswer(db: Db, interviewer: Id, id: Id, scores: map<string, real>)
    ensures var (db', r) := SubmitEvaluation(db, interviewer, id, scores);
      var sits := id in db.interviews && interviewer in db.interviews[id].panel;
      var marked := forall k :: k in scores ==> Mark(scores[k]);
      && (r == Err(Forbidden) <==> !sits)
      && (r == Err(BadRequest) <==> sits && !marked)
      && (r == Err(Conflict) <==> sits && marked && (id, interviewer) in db.evaluations)
      && (r.Ok? <==> sits && marked && (id, interviewer) !in db.evaluations)
      && (r.Err? ==> db' == db)
      && (r.Ok? ==> db' == db.(evaluations := db.evaluations[(id, interviewer) := scores]))
  {
    ScoresAreMarks(scores);
  }

  // ------------------------------------------------------ evaluations, told

  ghost predicate Submits(db: Db, op: Op, interview: Id, interviewer: Id, scores: map<string, real>) {
    op.EvaluateOp? && op.interview == interview && op.interviewer == interviewer && op.scores == scores
      && Step(db, op).1.Ok?
  }

  ghost predicate Submitted(ops: seq<Op>, interview: Id, interviewer: Id, scores: map<string, real>) {
    ops != [] &&
      var init := ops[..|ops| - 1];
      Submitted(init, interview, interviewer, scores)
      || Submits(After(Empty, init), ops[|ops| - 1], interview, interviewer, scores)
  }

  predicate Stored(db: Db, interview: Id, interviewer: Id, scores: map<string, real>) {
    (interview, interviewer) in db.evaluations && db.evaluations[(interview, interviewer)] == scores
  }

  lemma StepStores(db: Db, op: Op, interview: Id, interviewer: Id, scores: map<string, real>)
    ensures Stored(Step(db, op).0, interview, interviewer, scores) <==>
      Stored(db, interview, interviewer, scores) || Submits(db, op, interview, interviewer, scores)
  {
    if op.EvaluateOp? {
      SubmitEvaluationAnswer(db, op.interviewer, op.interview, op.scores);
    }
  }

  /** Over every run the stored evaluations are exactly the submitted ones, and all
      their scores are marks from 1 to 5. */
  lemma {:induction false} EvaluationTellsStory(ops: seq<Op>, interview: Id, interviewer: Id, scores: map<string, real>)
    ensures Stored(After(Empty, ops), interview, interviewer, scores) <==>
      Submitted(ops, interview, interviewer, scores)
    ensures Stored(After(Empty, ops), interview, interviewer, scores) ==> forall k :: k in scores ==> Mark(scores[k])
  {
    if ops != [] {
      var init := ops[..|ops| - 1];
      var mid, op := After(Empty, init), ops[|ops| - 1];
      EvaluationTellsStory(init, interview, interviewer, scores);
      StepStores(mid, op, interview, interviewer, scores);
      if op.EvaluateOp? {
        SubmitEvaluationAnswer(mid, op.interviewer, op.interview, op.scores);
      }
    }
  }
}
