/** Inputs at which an expectation of the code fails: runs from the empty store,
    each a chain of one-step facts between written-out states. */
module Witnesses {
  import opened Common
  import opened StageRows
  import H = Hiring
  import O = Organizations
  import P = Pipeline
  import S = Sessions
  import F = SingleFlight

  // ------------------------------------------------------------- invitations

  const Owner := O.Grant(0, 1, O.CompanyOwner)
  const Approval := O.Audit(9, 1, true, None)

  /** The invitations 3 and, after it lapsed, 4 of the same recruiter. */
  function Invitation(expiresAt: nat, acceptedAt: Option<nat>): O.Invitation {
    O.Invitation(1, "e", O.Recruiter, expiresAt, acceptedAt)
  }

  function Org(invitations: map<Id, O.Invitation>, pending: map<Id, Id>, now: nat, next: Id): O.Db {
    O.Db(map[1 := Active], map["o" := 0], map[2 := Owner], invitations, pending, [], [Approval], now, next)
  }

  const Invite := O.InviteOp(1, "e", Some(O.Recruiter), 5)

  lemma OrgStep(ops: seq<O.Op>, op: O.Op)
    ensures O.After(O.Empty, ops + [op]) == O.Step(O.After(O.Empty, ops), op).0
  {
    assert (ops + [op])[..|ops|] == ops;
  }

  const Registered := O.Db(map[1 := PendingApproval], map["o" := 0], map[2 := Owner], map[], map[], [], [], 0, 3)

  lemma RegisteredStep()
    ensures O.Step(O.Empty, O.RegisterOp("o")).0 == Registered
  {
  }

  lemma ApprovedStep()
    ensures O.Step(Registered, O.ReviewOp(1, 9, O.Approve)).0 == Org(map[], map[], 0, 3)
  {
  }

  lemma Approved() returns (ops: seq<O.Op>)
    ensures O.After(O.Empty, ops) == Org(map[], map[], 0, 3)
  {
    RegisteredStep();
    ApprovedStep();
    OrgStep([], O.RegisterOp("o"));
    assert O.After(O.Empty, []) == O.Empty;
    OrgStep([] + [O.RegisterOp("o")], O.ReviewOp(1, 9, O.Approve));
    ops := [] + [O.RegisterOp("o")] + [O.ReviewOp(1, 9, O.Approve)];
  }

  lemma InvitedStep(pending: map<Id, Id>, now: nat)
    ensures O.Step(Org(map[], pending, now, 3), Invite).0 == Org(map[3 := Invitation(now + 5, None)], pending, now, 4)
  {
  }

  lemma InvitedAgainStep(pending: map<Id, Id>, now: nat)
    requires now >= 5
    ensures O.Step(Org(map[3 := Invitation(5, None)], pending, now, 4), Invite).0
         == Org(map[3 := Invitation(5, None), 4 := Invitation(now + 5, None)], pending, now, 5)
  {
    assert !O.HasOpen(Org(map[3 := Invitation(5, None)], pending, now, 4), 1, "e", O.Recruiter);
  }

  lemma Invited() returns (ops: seq<O.Op>)
    ensures O.After(O.Empty, ops) == Org(map[3 := Invitation(5, None)], map[], 0, 4)
  {
    var start := Approved();
    InvitedStep(map[], 0);
    OrgStep(start, Invite);
    ops := start + [Invite];
  }

  /** At the instant an invitation expires a second one with its key goes out
      while the first is still acceptable. */
  lemma InvitedTwiceAtExpiry() returns (ops: seq<O.Op>)
    ensures var db := O.After(O.Empty, ops);
      && O.Committable(db, 3) && O.Committable(db, 4) && O.Alike(db.invitations[3], db.invitations[4])
      && db.invitations[3].expiresAt == db.now && !O.Awaited(db, 3)
  {
    var start := Invited();
    OrgStep(start, O.TickOp(5));
    InvitedAgainStep(map[], 5);
    OrgStep(start + [O.TickOp(5)], Invite);
    ops := start + [O.TickOp(5)] + [Invite];
  }

  /** An invitation is read, expires, and is replaced by another, which is read. */
  lemma Replaced() returns (ops: seq<O.Op>)
    ensures O.After(O.Empty, ops)
      == Org(map[3 := Invitation(5, None), 4 := Invitation(55, None)], map[100 := 3, 101 := 4], 50, 5)
  {
    var start := Invited();
    OrgStep(start, O.ReadOp(100, 3));
    OrgStep(start + [O.ReadOp(100, 3)], O.TickOp(50));
    var lapsed := start + [O.ReadOp(100, 3)] + [O.TickOp(50)];
    assert O.After(O.Empty, lapsed) == Org(map[3 := Invitation(5, None)], map[100 := 3], 50, 4);
    InvitedAgainStep(map[100 := 3], 50);
    OrgStep(lapsed, Invite);
    OrgStep(lapsed + [Invite], O.ReadOp(101, 4));
    ops := lapsed + [Invite] + [O.ReadOp(101, 4)];
  }

  lemma ClaimCommits(db: O.Db, process: Id)
    requires process in db.pending && db.pending[process] in db.invitations
    requires db.invitations[db.pending[process]].acceptedAt == None
    ensures var i := db.pending[process];
      var db' := O.Step(db, O.ClaimOp(process, true)).0;
      && db'.committed == db.committed + [i] && db'.pending == db.pending - {process} && db'.now == db.now
      && db'.invitations == db.invitations[i := db.invitations[i].(acceptedAt := Some(db.now))]
  {
  }

  /** And one read in time is accepted long after it expired and was replaced:
      both invitations end up accepted. */
  lemma AcceptedTwiceAfterExpiry() returns (ops: seq<O.Op>)
    ensures var db := O.After(O.Empty, ops);
      && db.committed == [3, 4] && db.now == 50
      && db.invitations == map[3 := Invitation(5, Some(50)), 4 := Invitation(55, Some(50))]
  {
    var start := Replaced();
    OrgStep(start, O.ClaimOp(100, true));
    OrgStep(start + [O.ClaimOp(100, true)], O.ClaimOp(101, true));
    ClaimCommits(O.After(O.Empty, start), 100);
    ClaimCommits(O.After(O.Empty, start + [O.ClaimOp(100, true)]), 101);
    ops := start + [O.ClaimOp(100, true)] + [O.ClaimOp(101, true)];
  }

  // ------------------------------------------------------------------ resets

  /** A whole password reset of user 0 by process 12, up to its bulk revoke. */
  function ResetBy12(ticket: Id): seq<S.Action> {
    [S.Forgot(0, 100), S.FindTicket(12, ticket, S.PasswordReset, 8), S.ClaimTicket(12), S.Apply(12)]
  }

  lemma SessionRun(s: S.State, a: S.Action, b: S.Action, c: S.Action, d: S.Action)
    ensures S.After(s, [a, b, c, d]) == S.Step(S.Step(S.Step(S.Step(s, a), b), c), d)
  {
    S.AfterThree(s, a, b, c);
    assert [a, b, c, d][..3] == [a, b, c];
  }

  predicate ResetAt(s: S.State, k: Id, q: S.Process) {
    0 in s.users && k in s.tickets && s.tickets[k].user == 0 && 12 in s.procs && s.procs[12] == q
  }

  lemma ResetStarts(s: S.State)
    requires 0 in s.users && 12 !in s.procs
    ensures var s' := S.Step(S.Step(s, S.Forgot(0, 100)), S.FindTicket(12, s.next, S.PasswordReset, 8));
      && ResetAt(s', s.next, S.TicketFound(s.next, S.PasswordReset, 8)) && s'.tickets[s.next].usedAt == None
      && s'.tokens == s.tokens && s'.procs == s.procs[12 := s'.procs[12]]
  {
  }

  lemma ResetClaims(s: S.State, k: Id)
    requires ResetAt(s, k, S.TicketFound(k, S.PasswordReset, 8)) && s.tickets[k].usedAt == None
    ensures var s' := S.Step(s, S.ClaimTicket(12));
      && ResetAt(s', k, S.TicketWon(k, S.PasswordReset, 8))
      && s'.tokens == s.tokens && s'.procs == s.procs[12 := s'.procs[12]]
  {
  }

  lemma ResetSaves(s: S.State, k: Id)
    requires ResetAt(s, k, S.TicketWon(k, S.PasswordReset, 8))
    ensures var s' := S.Step(s, S.Apply(12)); s'.procs == s.procs[12 := S.PasswordSaved(0)] && s'.tokens == s.tokens
  {
  }

  lemma ResetSteps(s: S.State)
    requires 0 in s.users && 12 !in s.procs
    ensures var s' := S.After(s, ResetBy12(s.next));
      s'.procs == s.procs[12 := S.PasswordSaved(0)] && s'.tokens == s.tokens
  {
    var k := s.next;
    SessionRun(s, S.Forgot(0, 100), S.FindTicket(12, k, S.PasswordReset, 8), S.ClaimTicket(12), S.Apply(12));
    ResetStarts(s);
    var s2 := S.Step(S.Step(s, S.Forgot(0, 100)), S.FindTicket(12, k, S.PasswordReset, 8));
    ResetClaims(s2, k);
    ResetSaves(S.Step(s2, S.ClaimTicket(12)), k);
  }

  const Registered0 :=
    S.State(map[0 := S.User(7, false)], {}, map[], map[1 := S.Ticket(0, S.EmailVerification, 100, None)], map[], [],
      0, 2)

  lemma LoginStarted() returns (run: seq<S.Action>)
    ensures S.After(S.Empty, run) == Registered0.(procs := map[10 := S.LoggedIn(0)])
  {
    run := [S.Register(7, 100), S.Login(10, 0, 7)];
    assert run[..1] == [S.Register(7, 100)] && run[..1][..0] == [];
    assert S.After(S.Empty, run[..1]) == Registered0;
  }

  /** The reset run after any other that leaves process 12 free. */
  lemma ResetAfter(start: seq<S.Action>) returns (run: seq<S.Action>)
    requires 0 in S.After(S.Empty, start).users && 12 !in S.After(S.Empty, start).procs
    ensures S.After(S.Empty, run).procs == S.After(S.Empty, start).procs[12 := S.PasswordSaved(0)]
    ensures S.After(S.Empty, run).tokens == S.After(S.Empty, start).tokens
  {
    var s := S.After(S.Empty, start);
    ResetSteps(s);
    S.AfterConcat(S.Empty, start, ResetBy12(s.next));
    run := start + ResetBy12(s.next);
  }

  lemma LoginIssues(s: S.State)
    requires s.procs == map[10 := S.LoggedIn(0), 12 := S.PasswordSaved(0)]
    ensures S.UserLive(S.After(S.Step(s, S.RevokeAll(12)), [S.Issue(10, 50)]), 0)
  {
    var s' := S.Step(s, S.RevokeAll(12));
    assert s'.procs == map[10 := S.LoggedIn(0)];
    assert [S.Issue(10, 50)][..0] == [];
    assert S.After(s', [S.Issue(10, 50)]) == S.Step(s', S.Issue(10, 50));
    assert S.Live(S.Step(s', S.Issue(10, 50)).tokens, s'.next);
  }

  /** A login that passed the old password's check before the reset gets its token
      after it, although no rotation is in flight. */
  lemma LoginSurvivesReset() returns (run: seq<S.Action>)
    ensures var s := S.After(S.Empty, run);
      && 12 in s.procs && s.procs[12] == S.PasswordSaved(0) && (forall l :: !S.Rotating(s, l))
      && S.UserLive(S.After(S.Step(s, S.RevokeAll(12)), [S.Issue(10, 50)]), 0)
  {
    var start := LoginStarted();
    run := ResetAfter(start);
    LoginIssues(S.After(S.Empty, run));
  }

  const Token := S.Token(0, 2, None, 50, None)

  lemma IssuedStep()
    ensures S.Step(Registered0.(procs := map[10 := S.LoggedIn(0)]), S.Issue(10, 50))
         == Registered0.(tokens := map[2 := Token], next := 3)
  {
  }

  lemma FoundStep()
    ensures S.Step(Registered0.(tokens := map[2 := Token], next := 3), S.Find(11, 2, None))
         == Registered0.(tokens := map[2 := Token], procs := map[11 := S.Found(2, None)], next := 3)
  {
  }

  lemma ClaimedStep()
    ensures S.Step(Registered0.(tokens := map[2 := Token], procs := map[11 := S.Found(2, None)], next := 3),
      S.Claim(11))
         == Registered0.(tokens := map[2 := Token.(revokedAt := Some(0))],
           procs := map[11 := S.Holding(2, None, false)], next := 3)
  {
  }

  lemma RotationStarted() returns (run: seq<S.Action>)
    ensures var s := S.After(S.Empty, run);
      && 0 in s.users && s.procs == map[11 := S.Holding(2, None, false)] && 2 in s.tokens && s.tokens[2].lineage == 2
  {
    var start := LoginStarted();
    var more := [S.Issue(10, 50), S.Find(11, 2, None), S.Claim(11)];
    S.AfterConcat(S.Empty, start, more);
    S.AfterThree(S.After(S.Empty, start), S.Issue(10, 50), S.Find(11, 2, None), S.Claim(11));
    IssuedStep();
    FoundStep();
    ClaimedStep();
    run := start + more;
  }

  lemma HolderIssues(s: S.State) returns (later: seq<S.Action>)
    requires s.procs == map[11 := S.Holding(2, None, false), 12 := S.PasswordSaved(0)]
    requires 2 in s.tokens && s.tokens[2].lineage == 2
    ensures S.Rotating(s, 2) && S.LiveLater(S.Step(s, S.RevokeAll(12)), later, 2)
  {
    assert S.HolderOf(s, 11, 2);
    var s' := S.Step(s, S.RevokeAll(12));
    assert 11 in s'.procs && S.HolderOf(s', 11, 2);
    later := S.HolderCanIssue(s', 11, 2);
  }

  /** A refresh that has claimed its token when the reset runs still issues the
      next one of its session. */
  lemma RotationSurvivesReset() returns (run: seq<S.Action>, later: seq<S.Action>)
    ensures var s := S.After(S.Empty, run);
      && 12 in s.procs && s.procs[12] == S.PasswordSaved(0) && S.Rotating(s, 2)
      && S.LiveLater(S.Step(s, S.RevokeAll(12)), later, 2)
  {
    var start := RotationStarted();
    run := ResetAfter(start);
    later := HolderIssues(S.After(S.Empty, run));
  }

  // --------------------------------------------------------------- two tabs

  /** A client just after the login that issued token 2. */
  const Tab := F.World(Registered0.(tokens := map[2 := Token], next := 3), 2, 2, None, None, map[], map[], [], [])

  lemma TabJustLoggedIn()
    ensures F.JustLoggedIn(Tab)
  {
    var start := LoginStarted();
    IssuedStep();
    S.AfterConcat(S.Empty, start, [S.Issue(10, 50)]);
    assert [S.Issue(10, 50)][..0] == [];
    assert S.After(S.After(S.Empty, start), [S.Issue(10, 50)]) == Tab.server;
    S.RunSound(S.Empty, start + [S.Issue(10, 50)]);
  }

  /** Token 2 spent by process 11, the other tab's refresh. */
  const Spent := Registered0.(
    tokens := map[2 := Token.(revokedAt := Some(0))], procs := map[11 := S.Holding(2, None, false)], next := 3)

  lemma FlightStep(w: F.World, run: seq<F.Event>, e: F.Event)
    ensures F.After(w, run + [e]) == F.Step(F.After(w, run), e)
  {
    assert (run + [e])[..|run|] == run;
  }

  lemma SpentSteps()
    ensures F.Step(F.Step(Tab, F.Others(S.Find(11, 2, None))), F.Others(S.Claim(11))) == Tab.(server := Spent)
  {
    FoundStep();
    ClaimedStep();
  }

  /** The client's own refresh, once the token is spent: it presents it, gets 401
      and turns its call away. */
  lemma TurnedAwaySteps()
    ensures var w1 := F.Step(F.Step(Tab.(server := Spent), F.Call(1)), F.Reply(1, 401, false, 20));
      var w2 := F.Step(F.Step(w1, F.Arrive(20)), F.Deliver(20));
      1 in w2.calls && w2.calls[1] == F.TurnedAway && w2.presented == [false]
  {
    var w1 := F.Step(F.Step(Tab.(server := Spent), F.Call(1)), F.Reply(1, 401, false, 20));
    assert w1.requests == map[20 := F.Request(2, F.Sent)] && w1.calls == map[1 := F.Waiting(20, true)];
    var w2 := F.Step(w1, F.Arrive(20));
    assert w2.requests == map[20 := F.Request(2, F.Answered(None))];
  }

  /** Two tabs share the cookie and not the promise. If the other one spends the
      session's unrevoked token first, a call of this one is turned away. */
  lemma SecondTabTurnsAway() returns (run: seq<F.Event>)
    ensures F.JustLoggedIn(Tab)
    ensures var w := F.After(Tab, run); 1 in w.calls && w.calls[1] == F.TurnedAway && w.presented == [false]
  {
    TabJustLoggedIn();
    var find, claim := F.Others(S.Find(11, 2, None)), F.Others(S.Claim(11));
    FlightStep(Tab, [], find);
    FlightStep(Tab, [] + [find], claim);
    SpentSteps();
    run := [] + [find] + [claim];
    FlightStep(Tab, run, F.Call(1));
    FlightStep(Tab, run + [F.Call(1)], F.Reply(1, 401, false, 20));
    run := run + [F.Call(1)] + [F.Reply(1, 401, false, 20)];
    FlightStep(Tab, run, F.Arrive(20));
    FlightStep(Tab, run + [F.Arrive(20)], F.Deliver(20));
    run := run + [F.Arrive(20)] + [F.Deliver(20)];
    TurnedAwaySteps();
  }

  // ------------------------------------------------- a pipeline with one applicant

  const TwoStages: Table := map[1 := Row(0, "A", 0), 2 := Row(0, "B", 1)]

  function Job(status: P.JobStatus, stages: Table, next: Id): P.Db {
    P.Empty.(orgs := map[1 := Active], jobs := map[0 := P.Job(1, status)], stages := stages, next := next)
  }

  const Applicant := P.App(0, 8, 1, 5, 1, P.AppStatus.Active, None, 1)

  function Applied(app: P.App, stages: Table, audit: seq<P.Audit>, next: Id): P.Db {
    Job(P.Published, stages, next).(cvs := map[5 := P.Cv(8, true)], apps := map[3 := app], audit := audit)
  }

  const Founding := P.OrgOp(1, Active)
  const Drafting := P.CreateJobOp(1, None, None)
  const Staging := P.ReplaceStagesOp(1, 0, ["A", "B"], map[])
  const Publishing := P.PublishOp(1, 0)
  const Uploading := P.CvsOp(map[5 := P.Cv(8, true)])
  const Applying := P.CreateOp(8, 0, None, Some(5), Some(1))

  ghost predicate Leads(db: P.Db, op: P.Op, db': P.Db) { P.Possible(db, op) && P.Step(db, op).0 == db' }

  lemma DraftedStep()
    ensures Leads(P.Empty, Founding, P.Empty.(orgs := map[1 := Active]))
    ensures Leads(P.Empty.(orgs := map[1 := Active]), Drafting, Job(P.Draft, map[], 1))
  {
  }

  lemma StagedStep()
    ensures Leads(Job(P.Draft, map[], 1), Staging, Job(P.Draft, TwoStages, 3))
  {
    var names := ["A", "B"];
    var t: Table := map[];
    assert t - Dropped(t, 0, names) == t;
    assert Place(t, 0, names, map[], 1, 0) == t;
    assert Place(t, 0, names, map[], 1, 1) == map[1 := Row(0, "A", 0)];
    assert Place(t, 0, names, map[], 1, 2) == TwoStages;
  }

  lemma PublishedStep()
    ensures Leads(Job(P.Draft, TwoStages, 3), Publishing, Job(P.Published, TwoStages, 3))
    ensures Leads(Job(P.Published, TwoStages, 3), Uploading,
      Job(P.Published, TwoStages, 3).(cvs := map[5 := P.Cv(8, true)]))
  {
    assert 1 in TwoStages && TwoStages[1].owner == 0;
  }

  lemma AppliedStep()
    ensures Leads(Job(P.Published, TwoStages, 3).(cvs := map[5 := P.Cv(8, true)]), Applying,
      Applied(Applicant, TwoStages, [], 4))
  {
  }

  lemma PipelineRun(ops: seq<P.Op>, op: P.Op, db': P.Db)
    requires P.IsRun(P.Empty, ops) && Leads(P.After(P.Empty, ops), op, db')
    ensures P.IsRun(P.Empty, ops + [op]) && P.After(P.Empty, ops + [op]) == db'
  {
    assert (ops + [op])[..|ops|] == ops;
  }

  lemma OneApplicant() returns (ops: seq<P.Op>)
    ensures P.IsRun(P.Empty, ops) && P.After(P.Empty, ops) == Applied(Applicant, TwoStages, [], 4)
  {
    DraftedStep();
    StagedStep();
    PublishedStep();
    AppliedStep();
    PipelineRun([], Founding, P.Empty.(orgs := map[1 := Active]));
    PipelineRun([] + [Founding], Drafting, Job(P.Draft, map[], 1));
    ops := [] + [Founding] + [Drafting];
    PipelineRun(ops, Staging, Job(P.Draft, TwoStages, 3));
    PipelineRun(ops + [Staging], Publishing, Job(P.Published, TwoStages, 3));
    ops := ops + [Staging] + [Publishing];
    PipelineRun(ops, Uploading, Job(P.Published, TwoStages, 3).(cvs := map[5 := P.Cv(8, true)]));
    PipelineRun(ops + [Uploading], Applying, Applied(Applicant, TwoStages, [], 4));
    ops := ops + [Uploading] + [Applying];
  }

  const Gap: Table := map[1 := Row(0, "A", 0), 2 := Row(0, "B", 2)]
  const Restaging := P.ReplaceStagesOp(1, 0, ["A", "B", "B"], map["A" := 1, "B" := 2])

  lemma RestagedStep()
    ensures Leads(Applied(Applicant, TwoStages, [], 4), Restaging, Applied(Applicant, Gap, [], 7))
  {
    GapStrandsAnApplication(0, 1, 2, 4);
  }

  /** An edit does not show its three names and strands the applicant: the page shows their stage as not final, and
      PASS answers 422. */
  lemma StrandedApplicant() returns (ops: seq<P.Op>)
    ensures P.IsRun(P.Empty, ops)
    ensures var db := P.After(P.Empty, ops);
      && IsListing(db.stages, 0, [1, 2]) && !Reads(db.stages, [1, 2], ["A", "B", "B"]) && 3 in db.apps
        && !IsFinalStage([1, 2], db.apps[3].stage)
      && P.Possible(db, P.ScreenOp(1, 9, 0, 3, P.Pass(None)))
      && P.Step(db, P.ScreenOp(1, 9, 0, 3, P.Pass(None))).1 == Err(Unprocessable)
  {
    ops := OneApplicant();
    GapStrandsAnApplication(0, 1, 2, 4);
    RestagedStep();
    PipelineRun(ops, Restaging, Applied(Applicant, Gap, [], 7));
    ops := ops + [Restaging];
  }

  // ----------------------------------------------------------- unread offers

  lemma {:induction false} HiringRun(s: H.Sys, ops: seq<H.Op>, op: H.Op)
    requires H.IsRun(H.Lazy, s, ops) && H.Possible(H.After(H.Lazy, s, ops), op)
    ensures H.IsRun(H.Lazy, s, ops + [op])
    ensures H.After(H.Lazy, s, ops + [op]) == H.Step(H.Lazy, H.After(H.Lazy, s, ops), op).0
    decreases |ops|
  {
    if ops == [] {
      assert [op][1..] == [];
    } else {
      assert (ops + [op])[1..] == ops[1..] + [op];
      HiringRun(H.Step(H.Lazy, s, ops[0]).0, ops[1..], op);
    }
  }

  /** A run of the pipeline is a run of the whole system. */
  lemma {:induction false} Piped(ops: seq<P.Op>) returns (run: seq<H.Op>)
    requires P.IsRun(P.Empty, ops)
    ensures H.IsRun(H.Lazy, H.Start, run) && H.After(H.Lazy, H.Start, run) == H.Start.(db := P.After(P.Empty, ops))
  {
    run := [];
    if ops != [] {
      run := Piped(ops[..|ops| - 1]);
      HiringRun(H.Start, run, H.Pipe(ops[|ops| - 1]));
      run := run + [H.Pipe(ops[|ops| - 1])];
    }
  }

  const Hire := P.DecideOp(1, 9, 0, 3, true, None)
  const HiredDb := Applied(Applicant.(status := P.Hired), TwoStages, [P.Audit(9, 1, true, 3, None, None)], 4)

  lemma Hired() returns (ops: seq<P.Op>)
    ensures P.IsRun(P.Empty, ops) && P.After(P.Empty, ops) == HiredDb
  {
    ops := OneApplicant();
    assert Leads(Applied(Applicant, TwoStages, [], 4), Hire, HiredDb);
    PipelineRun(ops, Hire, HiredDb);
    ops := ops + [Hire];
  }

  const Overdue := H.Start.(db := HiredDb, offers := map[3 := H.Offer(0, 1, "t", 10, H.Sent, 0, None)], now := 20,
    next := 1)

  lemma OfferSteps(s: H.Sys)
    requires s == H.Start.(db := HiredDb)
    ensures H.Step(H.Lazy, H.Step(H.Lazy, s, H.CreateOfferOp(1, 0, 3, "t", 10)).0, H.Tick(20)).0 == Overdue
    ensures H.Step(H.Lazy, s, H.CreateOfferOp(1, 0, 3, "t", 10)).0.now == 0
  {
    assert P.AppIn(HiredDb, 1, 0, 3);
  }

  /** An offer nobody has read since its deadline is counted as sent. */
  lemma UnreadOfferIsMiscounted() returns (run: seq<H.Op>)
    ensures H.IsRun(H.Lazy, H.Start, run)
    ensures var s := H.After(H.Lazy, H.Start, run);
      && |H.RowsWith(s.offers, 1, H.Sent)| != |H.RowsWith(H.Abs(s).offers, 1, H.Sent)|
      && |H.RowsWith(s.offers, 1, H.Expired)| != |H.RowsWith(H.Abs(s).offers, 1, H.Expired)|
  {
    var ops := Hired();
    run := Piped(ops);
    OfferSteps(H.After(H.Lazy, H.Start, run));
    HiringRun(H.Start, run, H.CreateOfferOp(1, 0, 3, "t", 10));
    run := run + [H.CreateOfferOp(1, 0, 3, "t", 10)];
    HiringRun(H.Start, run, H.Tick(20));
    run := run + [H.Tick(20)];
    assert 3 in H.StaleRows(Overdue, 1);
    H.RawCountAgrees(Overdue, 1, H.Sent);
    H.RawCountAgrees(Overdue, 1, H.Expired);
  }
}
