/** InterviewsService on its tables. Each method does exactly one step of
    Interviews. */
module InterviewStore {
  import opened Common
  import opened Interviews
  import P = Pipeline

  class Panel {
    var apps: map<Id, P.App>
    var members: set<(Id, Id)>
    var interviews: map<Id, Interview>
    var evaluations: Evaluations
    var notices: seq<Notice>
    var next: Id

    ghost function View(): Db
      reads this
    {
      Db(apps, members, interviews, evaluations, notices, next)
    }

    constructor ()
      ensures View() == Empty
    {
      apps, members, interviews, evaluations, notices, next := map[], {}, map[], map[], [], 0;
    }

    /** Whether every interviewer holds some role at the organization. */
    method RequireOrgMembers(org: Id, interviewerIds: seq<Id>) returns (ok: bool)
      ensures ok <==> forall u :: u in interviewerIds ==> (u, org) in members
    {
      var missing: seq<Id> := [];
      for i := 0 to |interviewerIds|
        invariant missing == [] <==> forall j :: 0 <= j < i ==> (interviewerIds[j], org) in members
      {
        if (interviewerIds[i], org) !in members {
          missing := missing + [interviewerIds[i]];
        }
      }
      ok := missing == [];
    }

    method Schedule(org: Id, job: Id, app: Id, at: nat, mode: string, interviewerIds: seq<Id>) returns (r: Result<Id>)
      modifies this`interviews, this`notices, this`next
      ensures (View(), r) == Interviews.Schedule(old(View()), org, job, app, at, mode, interviewerIds)
    {
      if app !in apps || apps[app].job != job || apps[app].org != org {
        return Err(NotFound);
      }
      if apps[app].status != P.AppStatus.Active {
        return Err(Conflict);
      }
      var allMembers := RequireOrgMembers(org, interviewerIds);
      if !allMembers {
        return Err(Unprocessable);
      }
      var id := next;
      interviews := interviews[id := Interview(app, org, at, mode, Scheduled, None, interviewerIds)];
      next := next + 1;
      ghost var before := notices;
      for i := 0 to |interviewerIds|
        modifies this`notices
        invariant notices == before + Notices(interviewerIds, id, app)[..i]
      {
        notices := notices + [Notice(interviewerIds[i], id, app)];
      }
      assert notices == before + Notices(interviewerIds, id, app);
      r := Ok(id);
    }

    method Reschedule(org: Id, job: Id, app: Id, id: Id, at: nat, mode: Option<string>) returns (r: Result<Id>)
      modifies this`interviews, this`next
      ensures (View(), r) == Interviews.Reschedule(old(View()), org, job, app, id, at, mode)
    {
      if app !in apps || apps[app].job != job || apps[app].org != org {
        return Err(NotFound);
      }
      if id !in interviews || interviews[id].app != app || interviews[id].org != org {
        return Err(NotFound);
      }
      var existing := interviews[id];
      if existing.status != Scheduled {
        return Err(Conflict);
      }
      var panel: seq<Id> := [];
      for i := 0 to |existing.panel|
        invariant panel == existing.panel[..i]
      {
        panel := panel + [existing.panel[i]];
      }
      assert panel == existing.panel;
      var slot := next;
      interviews := interviews[slot := Interview(app, org, at, if mode.Some? then mode.value
        else existing.mode, Scheduled, None, panel)];
      interviews := interviews[id := existing.(status := Rescheduled, rescheduledTo := Some(slot))];
      next := next + 1;
      r := Ok(slot);
    }

    /** Some score is not a whole number from 1 to 5. */
    method ValidateScores(scores: map<string, real>) returns (ok: bool)
      ensures ok <==> ValidScores(scores)
    {
      var invalid := exists k ::
        k in scores && (scores[k].Floor as real != scores[k] || scores[k] < 1.0 || scores[k] > 5.0);
      ok := !invalid;
    }

    method SubmitEvaluation(interviewer: Id, id: Id, scores: map<string, real>) returns (r: Result<Id>)
      modifies this`evaluations
      ensures (View(), r) == Interviews.SubmitEvaluation(old(View()), interviewer, id, scores)
    {
      if id !in interviews || interviewer !in interviews[id].panel {
        return Err(Forbidden);
      }
      var valid := ValidateScores(scores);
      if !valid {
        return Err(BadRequest);
      }
      if (id, interviewer) in evaluations {
        return Err(Conflict);
      }
      evaluations := evaluations[(id, interviewer) := scores];
      r := Ok(id);
    }
  }
}
