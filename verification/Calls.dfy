/** What happens to one call of the client, over every run: where its answer comes
    from and how often it is fetched. */
module Calls {
  import opened Common
  import opened SingleFlight
  import opened ApiClient

  /** Call c after the first i events. */
  ghost function CallAt(w: World, run: seq<Event>, i: nat, c: Id): Option<SingleFlight.Call>
    requires i <= |run|
  {
    var now := After(w, run[..i]);
    if c in now.calls then Some(now.calls[c]) else None
  }

  /** The i-th event of the run is the response with this status to a fetch of c. */
  ghost predicate AnswersFetch(w: World, run: seq<Event>, i: nat, c: Id, status: nat)
    requires i < |run|
  {
    && run[i].Reply? && run[i].c == c && run[i].status == status
    && (CallAt(w, run, i, c) == Some(First) || CallAt(w, run, i, c) == Some(Second))
  }

  ghost predicate Answered(w: World, run: seq<Event>, c: Id, status: nat) {
    exists i :: 0 <= i < |run| && AnswersFetch(w, run, i, c, status)
  }

  /** The i-th event is a 401 to the first fetch of c, on a path that is retried. */
  ghost predicate Unauthorizes(w: World, run: seq<Event>, i: nat, c: Id)
    requires i < |run|
  {
    run[i].Reply? && run[i].c == c && run[i].status == 401 && !run[i].noRetry && CallAt(w, run, i, c) == Some(First)
  }

  ghost predicate FirstUnauthorized(w: World, run: seq<Event>, c: Id) {
    exists i :: 0 <= i < |run| && Unauthorizes(w, run, i, c)
  }

  /** The i-th event delivers, with a token, the refresh that c awaits in order to
      fetch again. */
  ghost predicate DeliversRefresh(w: World, run: seq<Event>, i: nat, c: Id)
    requires i < |run|
  {
    var now := After(w, run[..i]);
    && run[i].Deliver? && CallAt(w, run, i, c) == Some(Waiting(run[i].p, true))
    && run[i].p in now.requests && now.requests[run[i].p].phase.Answered? && now.requests[run[i].p].phase.token.Some?
  }

  ghost predicate RefreshDelivered(w: World, run: seq<Event>, c: Id) {
    exists i :: 0 <= i < |run| && DeliversRefresh(w, run, i, c)
  }

  // ------------------------------------------------------------ runs grow

  lemma Prefix(w: World, run: seq<Event>, e: Event)
    ensures (run + [e])[..|run|] == run
    ensures forall i :: 0 <= i <= |run| ==> (run + [e])[..i] == run[..i]
    ensures After(w, run + [e]) == Step(After(w, run), e)
  {
  }

  lemma AnsweredGrows(w: World, run: seq<Event>, e: Event, c: Id, status: nat)
    ensures Answered(w, run + [e], c, status) <==>
      Answered(w, run, c, status) || AnswersFetch(w, run + [e], |run|, c, status)
  {
    Prefix(w, run, e);
    forall i | 0 <= i < |run| ensures AnswersFetch(w, run + [e], i, c, status) <==> AnswersFetch(w, run, i, c, status) {
    }
  }

  lemma UnauthorizedGrows(w: World, run: seq<Event>, e: Event, c: Id)
    ensures FirstUnauthorized(w, run + [e], c) <==>
      FirstUnauthorized(w, run, c) || Unauthorizes(w, run + [e], |run|, c)
  {
    Prefix(w, run, e);
    forall i | 0 <= i < |run| ensures Unauthorizes(w, run + [e], i, c) <==> Unauthorizes(w, run, i, c) {
    }
  }

  lemma DeliveredGrows(w: World, run: seq<Event>, e: Event, c: Id)
    ensures RefreshDelivered(w, run + [e], c) <==>
      RefreshDelivered(w, run, c) || DeliversRefresh(w, run + [e], |run|, c)
  {
    Prefix(w, run, e);
    forall i | 0 <= i < |run| ensures DeliversRefresh(w, run + [e], i, c) <==> DeliversRefresh(w, run, i, c) {
    }
  }

  // ------------------------------------------------- one event and one call

  predicate Absent(w: World, c: Id) { c !in w.calls }
  predicate IsFirst(w: World, c: Id) { c in w.calls && w.calls[c] == First }
  predicate Retrying(w: World, c: Id) { c in w.calls && w.calls[c].Waiting? && w.calls[c].retry }
  predicate Mounting(w: World, c: Id) { c in w.calls && w.calls[c].Waiting? && !w.calls[c].retry }
  predicate IsSecond(w: World, c: Id) { c in w.calls && w.calls[c] == Second }
  predicate IsDone(w: World, c: Id) { c in w.calls && w.calls[c].Done? }
  predicate IsTurnedAway(w: World, c: Id) { c in w.calls && w.calls[c] == TurnedAway }

  /** The refresh request p is answered with a token, or without one. */
  predicate Brings(w: World, p: Id) { p in w.requests && w.requests[p].phase.Answered?
      && w.requests[p].phase.token.Some? }
  predicate Fails(w: World, p: Id) { p in w.requests && w.requests[p].phase.Answered?
      && w.requests[p].phase.token == None }

  lemma FromAbsent(w: World, e: Event, c: Id)
    requires Absent(w, c)
    ensures var w' := Step(w, e);
      Absent(w', c) || (e == Call(c) && IsFirst(w', c)) || (e.Mount? && e.c == c && Mounting(w', c))
  {
  }

  lemma FromFirst(w: World, e: Event, c: Id)
    requires IsFirst(w, c)
    ensures var w' := Step(w, e);
      && (IsFirst(w', c) || (e.Reply? && e.c == c))
      && (e.Reply? && e.c == c ==>
            if e.status == 401 && !e.noRetry then IsFirst(w', c) || Retrying(w', c)
            else c in w'.calls && w'.calls[c] == Done(e.status))
  {
  }

  lemma FromRetrying(w: World, e: Event, c: Id)
    requires Retrying(w, c)
    ensures var w' := Step(w, e);
      if e.Deliver? && e.p == w.calls[c].promise && Brings(w, e.p) then IsSecond(w', c)
      else if e.Deliver? && e.p == w.calls[c].promise && Fails(w, e.p) then IsTurnedAway(w', c)
      else c in w'.calls && w'.calls[c] == w.calls[c]
  {
  }

  lemma FromMounting(w: World, e: Event, c: Id)
    requires Mounting(w, c)
    ensures var w' := Step(w, e);
      if e.Deliver? && e.p == w.calls[c].promise && Brings(w, e.p) then c in w'.calls && w'.calls[c] == Done(200)
      else if e.Deliver? && e.p == w.calls[c].promise && Fails(w, e.p) then IsTurnedAway(w', c)
      else c in w'.calls && w'.calls[c] == w.calls[c]
  {
  }

  lemma FromSecond(w: World, e: Event, c: Id)
    requires IsSecond(w, c)
    ensures var w' := Step(w, e);
      c in w'.calls && w'.calls[c] == if e.Reply? && e.c == c then Done(e.status) else Second
  {
  }

  lemma FromEnd(w: World, e: Event, c: Id)
    requires IsDone(w, c) || IsTurnedAway(w, c)
    ensures c in Step(w, e).calls && Step(w, e).calls[c] == w.calls[c]
  {
  }

  // ------------------------------------------------------------- whole runs

  /** The call was made by apiRequest, and not by the refresh on page load. */
  predicate Requested(run: seq<Event>, c: Id) { forall e :: e in run ==> !(e.Mount? && e.c == c) }

  /** What the state of a call says of the run so far. */
  ghost predicate Story(w: World, run: seq<Event>, c: Id) {
    var now := After(w, run);
    var fetches := Fetches(w, run, c);
    if Absent(now, c) then fetches == 0 && !FirstUnauthorized(w, run, c) && !RefreshDelivered(w, run, c)
    else if IsFirst(now, c) then fetches == 1 && !RefreshDelivered(w, run, c)
    else if Retrying(now, c) then fetches == 1 && FirstUnauthorized(w, run, c) && !RefreshDelivered(w, run, c)
    else if IsSecond(now, c) then fetches == 2 && FirstUnauthorized(w, run, c) && RefreshDelivered(w, run, c)
    else if IsTurnedAway(now, c) then fetches == 1 && FirstUnauthorized(w, run, c) && !RefreshDelivered(w, run, c)
    else if IsDone(now, c) then
      && Answered(w, run, c, now.calls[c].status) && 1 <= fetches <= 2
      && (RefreshDelivered(w, run, c) <==> fetches == 2) && (fetches == 2 ==> FirstUnauthorized(w, run, c))
    else false
  }

  lemma FetchesStep(w: World, run: seq<Event>, e: Event, c: Id)
    ensures var before, after := After(w, run), After(w, run + [e]);
      Fetches(w, run + [e], c)
        == Fetches(w, run, c) + (if Fetching(after, c) && ProgressOf(after, c) != ProgressOf(before, c) then 1 else 0)
  {
    Prefix(w, run, e);
  }

  /** The facts about the longer run, with its last event unfolded. */
  lemma Growth(w: World, run: seq<Event>, e: Event, c: Id)
    ensures var now, next := After(w, run), After(w, run + [e]);
      && next == Step(now, e)
      && (FirstUnauthorized(w, run + [e], c) <==>
            || FirstUnauthorized(w, run, c)
            || (IsFirst(now, c) && e.Reply? && e.c == c && e.status == 401 && !e.noRetry))
      && (RefreshDelivered(w, run + [e], c) <==>
            || RefreshDelivered(w, run, c)
            || (Retrying(now, c) && e.Deliver? && e.p == now.calls[c].promise && Brings(now, e.p)))
      && (forall status :: Answered(w, run + [e], c, status) <==>
            || Answered(w, run, c, status)
            || ((IsFirst(now, c) || IsSecond(now, c)) && e.Reply? && e.c == c && e.status == status))
      && Fetches(w, run + [e], c)
        == Fetches(w, run, c) + (if Fetching(next, c) && ProgressOf(next, c) != ProgressOf(now, c) then 1 else 0)
  {
    Prefix(w, run, e);
    UnauthorizedGrows(w, run, e, c);
    DeliveredGrows(w, run, e, c);
    FetchesStep(w, run, e, c);
    forall status
      ensures Answered(w, run + [e], c, status) <==>
        || Answered(w, run, c, status)
        || ((IsFirst(After(w, run), c) || IsSecond(After(w, run), c)) && e.Reply? && e.c == c && e.status == status)
    {
      AnsweredGrows(w, run, e, c, status);
    }
  }

  lemma StoryStep(w: World, run: seq<Event>, e: Event, c: Id)
    requires Story(w, run, c) && !(e.Mount? && e.c == c)
    ensures Story(w, run + [e], c)
  {
    var now := After(w, run);
    Growth(w, run, e, c);
    if Absent(now, c) {
      FromAbsent(now, e, c);
    } else if IsFirst(now, c) {
      FromFirst(now, e, c);
    } else if Retrying(now, c) {
      FromRetrying(now, e, c);
    } else if IsSecond(now, c) {
      FromSecond(now, e, c);
    } else {
      FromEnd(now, e, c);
    }
  }

  /** In every run the state of a call tells its story. */
  lemma {:induction false} CallTellsStory(w: World, run: seq<Event>, c: Id)
    requires c !in w.calls && Requested(run, c)
    ensures Story(w, run, c)
  {
    if run != [] {
      var init, e := run[..|run| - 1], run[|run| - 1];
      assert run == init + [e] && e in run;
      CallTellsStory(w, init, c);
      StoryStep(w, init, e, c);
    }
  }

  /** A call ends with a status only if that is the response to a fetch of it. */
  lemma DoneWasAnswered(w: World, run: seq<Event>, c: Id, status: nat)
    requires c !in w.calls && Requested(run, c)
    requires c in After(w, run).calls && After(w, run).calls[c] == Done(status)
    ensures exists i :: 0 <= i < |run| && AnswersFetch(w, run, i, c, status)
  {
    CallTellsStory(w, run, c);
  }

  /** A call is fetched exactly twice if and only if its first fetch was answered
      401 on a path that is retried and the refresh it awaited brought a token. */
  lemma FetchedTwice(w: World, run: seq<Event>, c: Id)
    requires c !in w.calls && Requested(run, c)
    ensures Fetches(w, run, c) == 2 <==> FirstUnauthorized(w, run, c) && RefreshDelivered(w, run, c)
    ensures c in After(w, run).calls ==> 1 <= Fetches(w, run, c) <= 2
    ensures c in After(w, run).calls && After(w, run).calls[c].Done? ==>
      (Fetches(w, run, c) == 1 <==> !RefreshDelivered(w, run, c))
  {
    CallTellsStory(w, run, c);
  }

  // ---------------------------------------------------------- what it delivers

  /** What a delivered refresh leaves: its token in memory and in the cookie jar, or
      both as they were; nothing in flight under its name; its outcome recorded. */
  lemma DeliveryOutcome(w: World, p: Id)
    requires p in w.requests && w.requests[p].phase.Answered?
    ensures var w' := Step(w, Deliver(p));
      && (w.requests[p].phase.token.Some? ==>
            w'.accessToken == w.requests[p].phase.token && w'.accessToken == Some(w'.jar))
      && (w.requests[p].phase.token == None ==> w'.accessToken == w.accessToken && w'.jar == w.jar)
      && w'.requests == w.requests - {p} && w'.refreshes == w.refreshes + [w.requests[p].phase.token.Some?]
      && (w.promise == Some(p) ==> w'.promise == None) && (w.promise != Some(p) ==> w'.promise == w.promise)
      && (forall c :: c in w'.calls && w'.calls[c].Waiting? ==> w'.calls[c].promise != p)
      && w'.server == w.server
  {
    forall c | c in w.calls && w.calls[c].Waiting? && w.calls[c].promise == p
      ensures !Step(w, Deliver(p)).calls[c].Waiting?
    {
      if w.calls[c].retry {
        FromRetrying(w, Deliver(p), c);
      } else {
        FromMounting(w, Deliver(p), c);
      }
    }
  }

  /** The access token changes only when a refresh is delivered with one. */
  lemma TokenComesFromRefresh(w: World, e: Event)
    requires Step(w, e).accessToken != w.accessToken
    ensures e.Deliver? && Brings(w, e.p) && Step(w, e).accessToken == w.requests[e.p].phase.token
  {
  }

  /** A silent refresh on page load succeeds exactly if its refresh brings a token. */
  lemma MountOutcome(w: World, c: Id, p: Id)
    requires Mounting(w, c) && w.calls[c].promise == p && p in w.requests && w.requests[p].phase.Answered?
    ensures c in Step(w, Deliver(p)).calls
    ensures Step(w, Deliver(p)).calls[c] == if w.requests[p].phase.token.Some? then Done(200) else TurnedAway
  {
    FromMounting(w, Deliver(p), c);
  }
}
