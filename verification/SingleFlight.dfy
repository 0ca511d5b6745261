/** The browser's client composed with the session server: any number of API
    calls that hit 401 share one /auth/refresh, while every other session on the
    server carries on around it. */
module SingleFlight {
  import opened Common
  import opened S = Sessions

  /** A refresh request: not yet at the server, being served, or answered. The
      answer is the new token, None for a 401. */
  datatype Phase = Sent | Serving | Answered(token: Option<Id>)
  datatype Request = Request(token: Id, phase: Phase)

  /** A call through the client: its first fetch is out, it waits for a refresh
      (retry tells whether it will fetch again), its retry is out, it got its
      final response, or it was turned away because the refresh failed. */
  datatype Call =
    | First
    | Waiting(promise: Id, retry: bool)
    | Second
    | Done(status: nat)
    | TurnedAway

  /** jar is the refresh cookie; lineage the session it belongs to; refreshes the
      outcomes delivered and presented whether each token presented to the server
      was unrevoked at that moment. */
  datatype World = World(
    server: State, lineage: Id, jar: Id, accessToken: Option<Id>,
    promise: Option<Id>, requests: map<Id, Request>, calls: map<Id, Call>,
    refreshes: seq<bool>, presented: seq<bool>)

  datatype Event =
    | Call(c: Id)
    | Reply(c: Id, status: nat, noRetry: bool, p: Id)
    | Mount(c: Id, p: Id)
    | Arrive(p: Id)
    | Serve(p: Id, ttl: nat)
    | Deliver(p: Id)
    | Others(a: Action)

  predicate Unused(w: World, p: Id) { p !in w.server.procs && p !in w.requests }

  /** refreshAccessToken, up to its await: start a request only if none is out,
      and wait for whichever is. */
  function RefreshAccessToken(w: World, c: Id, p: Id, retry: bool): World {
    if w.promise.None? then
      w.(promise := Some(p), requests := w.requests[p := Request(w.jar, Sent)],
        calls := w.calls[c := Waiting(p, retry)])
    else w.(calls := w.calls[c := Waiting(w.promise.value, retry)])
  }

  function Resume(call: Call, p: Id, ok: bool): Call {
    if call.Waiting?
      && call.promise == p then (if !ok then TurnedAway else if call.retry then Second else Done(200)) else call
  }

  /** The refresh response: the browser stores the new cookie, the client the new
      access token, the promise is cleared, and every waiting call resumes with
      the same result. */
  function Delivered(w: World, p: Id, token: Option<Id>): World {
    var w' := w.(requests := w.requests - {p}, refreshes := w.refreshes + [token.Some?],
                 promise := if w.promise == Some(p) then None else w.promise,
                 calls := map c | c in w.calls :: Resume(w.calls[c], p, token.Some?));
    if token.Some? then w'.(jar := token.value, accessToken := token) else w'
  }

  function NextStatement(s: State, p: Id, ttl: nat): Action
    requires p in s.procs
  {
    match s.procs[p]
    case Found(_, _) => Claim(p)
    case Holding(_, _, cleared) => if cleared then Issue(p, ttl) else Resolve(p)
    case _ => Stop(p)
  }

  function Step(w: World, e: Event): World {
    match e
    case Call(c) => if c in w.calls then w else w.(calls := w.calls[c := First])
    case Reply(c, status, noRetry, p) =>
      if c !in w.calls then w
      else if w.calls[c].First? && status == 401 && !noRetry then
        (if Unused(w, p) then RefreshAccessToken(w, c, p, true) else w)
      else if w.calls[c].First? || w.calls[c].Second? then w.(calls := w.calls[c := Done(status)])
      else w
    case Mount(c, p) => if c in w.calls || !Unused(w, p) then w else RefreshAccessToken(w, c, p, false)
    case Arrive(p) =>
      if p in w.requests && w.requests[p].phase == Sent then
        var token := w.requests[p].token;
        var server := S.Step(w.server, Find(p, token, None));
        w.(server := server, presented := w.presented + [Live(w.server.tokens, token)],
           requests := w.requests[p := Request(token, if p in server.procs then Serving else Answered(None))])
      else w
    case Serve(p, ttl) =>
      if p in w.requests && w.requests[p].phase == Serving && p in w.server.procs then
        var a := NextStatement(w.server, p, ttl);
        var server := S.Step(w.server, a);
        w.(server := server,
           requests := w.requests[p := w.requests[p].(phase :=
             if p in server.procs then Serving else if a.Issue? then Answered(Some(w.server.next))
               else Answered(None))])
      else w
    case Deliver(p) =>
      if p in w.requests && w.requests[p].phase.Answered? then Delivered(w, p, w.requests[p].phase.token) else w
    case Others(a) => w.(server := S.Step(w.server, a))
  }

  function After(w: World, run: seq<Event>): World {
    if run == [] then w else Step(After(w, run[..|run| - 1]), run[|run| - 1])
  }

  // --------------------------------------------------- what the run assumes

  predicate Owns(a: Action, p: Id) {
    (a.Login? || a.Find? || a.Claim? || a.Resolve? || a.Issue? || a.FindTicket? || a.ClaimTicket? || a.Apply?
      || a.RevokeAll? || a.Stop?) && a.p == p
  }

  predicate InLineage(t: Tokens, token: Id, lineage: Id) { token in t && t[token].lineage == lineage }

  /** The session's token while it is unrevoked; a lineage has at most one. */
  predicate LiveIn(t: Tokens, token: Id, lineage: Id) { InLineage(t, token, lineage) && Live(t, token) }

  /** Everybody else: other processes, presenting any token but this session's
      unrevoked one, so replays of its spent tokens are included; no reset of
      this session's user, and no time passing beyond the expiry of the session's
      unrevoked token, however long ago its spent ones expired. */
  ghost predicate Elsewhere(w: World, a: Action) {
    && (forall p :: p in w.requests ==> !Owns(a, p))
    && (a.Find? || a.Logout? ==> !LiveIn(w.server.tokens, a.token, w.lineage))
    && (a.RevokeAll? && a.p in w.server.procs && w.server.procs[a.p].PasswordSaved? ==>
          forall x :: InLineage(w.server.tokens, x, w.lineage) ==> w.server.tokens[x].user != w.server.procs[a.p].user)
    && (a.Tick? ==> forall x :: LiveIn(w.server.tokens, x, w.lineage) ==>
          a.time <= w.server.tokens[x].expiresAt || a.time < w.server.now)
  }

  ghost predicate Undisturbed(w: World, run: seq<Event>) {
    run != [] ==>
      var init, last := run[..|run| - 1], run[|run| - 1];
      Undisturbed(w, init) && (last.Others? ==> Elsewhere(After(w, init), last.a))
  }

  // --------------------------------------------------------------- invariant

  predicate ClearOf(t: Tokens, q: Process, lineage: Id) {
    q.Found? || q.Holding? ==> q.token in t && t[q.token].lineage != lineage
  }

  predicate GoodToken(s: State, token: Id, lineage: Id) {
    ValidToken(s, token) && s.tokens[token].lineage == lineage
  }

  /** Where the one request is, and what that says about the cookie. */
  predicate Track(w: World, p: Id)
    requires p in w.requests
  {
    match w.requests[p].phase
    case Sent => p !in w.server.procs && w.requests[p].token == w.jar && GoodToken(w.server, w.jar, w.lineage)
    case Serving =>
      && p in w.server.procs
      && ((w.server.procs[p] == Found(w.jar, None) && GoodToken(w.server, w.jar, w.lineage))
          || (w.server.procs[p].Holding? && w.server.procs[p].token == w.jar && w.server.procs[p].org == None
              && InLineage(w.server.tokens, w.jar, w.lineage)))
    case Answered(token) => p !in w.server.procs && token.Some? && GoodToken(w.server, token.value, w.lineage)
  }

  ghost predicate OneFlight(w: World) {
    match w.promise
    case None => w.requests == map[] && GoodToken(w.server, w.jar, w.lineage)
    case Some(p) => w.requests.Keys == {p} && Track(w, p)
  }

  ghost predicate OthersClear(w: World) {
    forall q :: q in w.server.procs && q !in w.requests ==> ClearOf(w.server.tokens, w.server.procs[q], w.lineage)
  }

  ghost predicate CallsFine(w: World) {
    && (forall c :: c in w.calls && w.calls[c].Waiting? ==> w.promise == Some(w.calls[c].promise))
    && (forall c :: c in w.calls ==> w.calls[c] != TurnedAway)
    && (forall b :: b in w.refreshes ==> b)
    && (forall b :: b in w.presented ==> b)
  }

  ghost predicate Inv(w: World) {
    && S.Sound(w.server) && w.lineage < w.server.next
    && OneFlight(w) && OthersClear(w) && CallsFine(w)
  }

  lemma RefreshInv(w: World, c: Id, p: Id, retry: bool)
    requires Inv(w) && Unused(w, p)
    ensures Inv(RefreshAccessToken(w, c, p, retry))
  {
  }

  lemma DeliverInv(w: World, p: Id)
    requires Inv(w) && p in w.requests && w.requests[p].phase.Answered?
    ensures Inv(Step(w, Deliver(p)))
  {
  }

  lemma ArriveInv(w: World, p: Id)
    requires Inv(w) && p in w.requests && w.requests[p].phase == Sent
    ensures Inv(Step(w, Arrive(p)))
  {
    var w' := Step(w, Arrive(p));
    assert w.promise == Some(p) && Track(w, p);
    S.StepSound(w.server, Find(p, w.jar, None));
    assert w'.server == w.server.(procs := w.server.procs[p := Found(w.jar, None)]);
    assert w'.requests.Keys == {p};
    assert w'.presented == w.presented + [true];
    assert Track(w', p);
  }

  lemma ClaimTrack(w: World, p: Id, ttl: nat)
    requires Inv(w) && p in w.requests && w.requests[p].phase == Serving && Track(w, p) && w.server.procs[p].Found?
    ensures var w' := Step(w, Serve(p, ttl)); p in w'.requests && Track(w', p)
  {
  }

  lemma HolderTrack(w: World, p: Id, ttl: nat)
    requires Inv(w) && p in w.requests && w.requests[p].phase == Serving && Track(w, p) && w.server.procs[p].Holding?
    ensures var w' := Step(w, Serve(p, ttl)); p in w'.requests && Track(w', p)
  {
  }

  lemma ServeOthers(w: World, p: Id, ttl: nat)
    requires Inv(w) && p in w.requests && w.requests[p].phase == Serving && p in w.server.procs
    ensures OthersClear(Step(w, Serve(p, ttl)))
  {
    var a := NextStatement(w.server, p, ttl);
    var w' := Step(w, Serve(p, ttl));
    S.StepRevokes(w.server, a);
    forall q | q in w'.server.procs && q !in w'.requests
      ensures ClearOf(w'.server.tokens, w'.server.procs[q], w'.lineage)
    {
      UntouchedProc(w.server, a, q);
      assert ClearOf(w.server.tokens, w.server.procs[q], w.lineage);
    }
  }

  lemma ServeInv(w: World, p: Id, ttl: nat)
    requires Inv(w) && p in w.requests && w.requests[p].phase == Serving
    ensures Inv(Step(w, Serve(p, ttl)))
  {
    assert w.promise == Some(p) && Track(w, p);
    var w' := Step(w, Serve(p, ttl));
    S.StepSound(w.server, NextStatement(w.server, p, ttl));
    if w.server.procs[p].Found? {
      ClaimTrack(w, p, ttl);
    } else {
      HolderTrack(w, p, ttl);
    }
    ServeOthers(w, p, ttl);
    assert w'.requests.Keys == {p};
  }

  // ----------------------------------------------- what everybody else does

  /** Rows of the lineage keep as they are, and no row joins it. */
  ghost predicate LineageKept(t: Tokens, t': Tokens, lineage: Id) {
    && (forall x :: x in t ==> x in t' && t'[x].lineage == t[x].lineage)
    && (forall x :: x in t && t[x].lineage == lineage ==> t'[x] == t[x])
    && (forall x :: x in t' && x !in t ==> t'[x].lineage != lineage)
  }

  lemma EffectElsewhere(t: Tokens, now: nat, next: Id, e: Effect, lineage: Id)
    requires next !in t && lineage < next
    requires (e.Won? || e.Succeeded?) && e.token in t ==> t[e.token].lineage != lineage
    requires e.RevokedOne? ==> !LiveIn(t, e.token, lineage)
    requires e.RevokedUser? ==> forall x :: InLineage(t, x, lineage) ==> t[x].user != e.user
    ensures LineageKept(t, TokensAfter(t, now, next, e), lineage)
  {
  }

  /** Only the acting process changes, and it stays clear of the lineage. */
  lemma OthersProcs(s: State, a: Action, lineage: Id, q: Id)
    requires q in S.Step(s, a).procs
    requires q in s.procs ==> ClearOf(s.tokens, s.procs[q], lineage)
    requires a.Find? ==> !LiveIn(s.tokens, a.token, lineage)
    ensures ClearOf(s.tokens, S.Step(s, a).procs[q], lineage)
  {
  }

  lemma UntouchedProc(s: State, a: Action, p: Id)
    requires !Owns(a, p)
    ensures p in S.Step(s, a).procs <==> p in s.procs
    ensures p in s.procs ==> S.Step(s, a).procs[p] == s.procs[p]
  {
  }

  lemma ElsewhereEffect(w: World, a: Action)
    requires Inv(w) && Elsewhere(w, a)
    ensures LineageKept(w.server.tokens, S.Step(w.server, a).tokens, w.lineage)
  {
    var s := w.server;
    S.StepEffect(s, a);
    var e := S.EffectOf(s, a);
    if a.Claim? || a.Issue? {
      assert a.p !in w.requests by {
        assert a.p in w.requests ==> Owns(a, a.p);
      }
      assert a.p in s.procs ==> ClearOf(s.tokens, s.procs[a.p], w.lineage);
    }
    EffectElsewhere(s.tokens, s.now, s.next, e, w.lineage);
  }

  lemma ClockElsewhere(s: State, a: Action)
    ensures S.Step(s, a).now == if a.Tick? && a.time >= s.now then a.time else s.now
    ensures s.next <= S.Step(s, a).next
  {
  }

  lemma GoodStays(w: World, a: Action, token: Id)
    requires Inv(w) && Elsewhere(w, a) && GoodToken(w.server, token, w.lineage)
    ensures GoodToken(S.Step(w.server, a), token, w.lineage)
  {
    ElsewhereEffect(w, a);
    ClockElsewhere(w.server, a);
    assert InLineage(w.server.tokens, token, w.lineage);
  }

  lemma OthersInv(w: World, a: Action)
    requires Inv(w) && Elsewhere(w, a)
    ensures Inv(Step(w, Others(a)))
  {
    var w' := Step(w, Others(a));
    S.StepSound(w.server, a);
    ClockElsewhere(w.server, a);
    ElsewhereEffect(w, a);
    match w.promise {
      case None => GoodStays(w, a, w.jar);
      case Some(p) =>
        assert Track(w, p) && !Owns(a, p);
        UntouchedProc(w.server, a, p);
        match w.requests[p].phase {
          case Sent => GoodStays(w, a, w.jar);
          case Serving =>
            if w.server.procs[p].Found? {
              GoodStays(w, a, w.jar);
            }
          case Answered(token) => GoodStays(w, a, token.value);
        }
        assert Track(w', p);
    }
    forall q | q in w'.server.procs && q !in w'.requests
      ensures ClearOf(w'.server.tokens, w'.server.procs[q], w'.lineage)
    {
      OthersProcs(w.server, a, w.lineage, q);
    }
  }

  lemma StepInv(w: World, e: Event)
    requires Inv(w) && (e.Others? ==> Elsewhere(w, e.a))
    ensures Inv(Step(w, e))
  {
    match e
    case Call(c) => CallInv(w, c, First);
    case Reply(c, status, noRetry, p) =>
      if c in w.calls && w.calls[c].First? && status == 401 && !noRetry && Unused(w, p) {
        RefreshInv(w, c, p, true);
      } else {
        CallInv(w, c, Done(status));
      }
    case Mount(c, p) =>
      if Unused(w, p) {
        RefreshInv(w, c, p, false);
      }
    case Arrive(p) =>
      if p in w.requests && w.requests[p].phase == Sent {
        ArriveInv(w, p);
      }
    case Serve(p, ttl) =>
      if p in w.requests && w.requests[p].phase == Serving {
        ServeInv(w, p, ttl);
      }
    case Deliver(p) =>
      if p in w.requests && w.requests[p].phase.Answered? {
        DeliverInv(w, p);
      }
    case Others(a) => OthersInv(w, a);
  }

  lemma CallInv(w: World, c: Id, call: Call)
    requires Inv(w) && !call.Waiting? && call != TurnedAway
    ensures Inv(w.(calls := w.calls[c := call]))
  {
  }

  lemma {:induction false} RunInv(w: World, run: seq<Event>)
    requires Inv(w) && Undisturbed(w, run)
    ensures Inv(After(w, run))
  {
    if run != [] {
      RunInv(w, run[..|run| - 1]);
      StepInv(After(w, run[..|run| - 1]), run[|run| - 1]);
    }
  }

  /** A session just after its login. */
  ghost predicate JustLoggedIn(w: World) {
    && S.Sound(w.server) && GoodToken(w.server, w.jar, w.lineage) && w.jar == w.lineage
    && (forall q :: q in w.server.procs ==> ClearOf(w.server.tokens, w.server.procs[q], w.lineage))
    && w.promise == None && w.requests == map[] && w.calls == map[] && w.refreshes == [] && w.presented == []
  }

  /** In every undisturbed run of a session, however many calls it makes and
      however long it slides past the expiry of its first token: at most
      one refresh is in flight, every refresh presented an unrevoked token, every
      refresh succeeded, and no call was turned away. The client never logs
      itself out. */
  lemma NeverLogsItselfOut(w: World, run: seq<Event>)
    requires JustLoggedIn(w) && Undisturbed(w, run)
    ensures var end := After(w, run);
      && |end.requests| <= 1
      && (forall b :: b in end.presented ==> b)
      && (forall b :: b in end.refreshes ==> b)
      && (forall c :: c in end.calls ==> end.calls[c] != TurnedAway)
      && (forall c, d :: c in end.calls && d in end.calls && end.calls[c].Waiting? && end.calls[d].Waiting? ==>
        end.calls[c].promise == end.calls[d].promise)
      && (end.promise.None? ==> GoodToken(end.server, end.jar, end.lineage))
  {
    assert Inv(w) by {
      assert S.Keyed(w.server.tokens, w.server.next);
    }
    RunInv(w, run);
    var end := After(w, run);
    assert |end.requests| == |end.requests.Keys|;
  }
}
