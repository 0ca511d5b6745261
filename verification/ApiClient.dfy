/** The client module of the frontend: its module variables, and one method for
    each stretch of code that runs between two awaits. */
module ApiClient {
  import opened Common
  import opened SingleFlight

  /** calls holds where each apiRequest is suspended. The cookie jar, the requests
      on the wire and the record of outcomes are the browser's. */
  class Client {
    var accessToken: Option<Id>
    var refreshPromise: Option<Id>
    var calls: map<Id, SingleFlight.Call>
    var jar: Id
    var requests: map<Id, Request>
    ghost var refreshes: seq<bool>

    /** The world w with this client in it. */
    ghost function In(w: World): World
      reads this
    {
      w.(accessToken := accessToken, promise := refreshPromise, calls := calls, jar := jar, requests := requests,
        refreshes := refreshes)
    }

    constructor (cookie: Id)
      ensures accessToken == None && refreshPromise == None && calls == map[] && jar == cookie && requests == map[]
        && refreshes == []
    {
      accessToken, refreshPromise, calls, jar, requests, refreshes := None, None, map[], cookie, map[], [];
    }

    /** The first fetch of apiRequest. */
    method Request(c: Id)
      requires c !in calls
      modifies this`calls
      ensures forall w :: In(w) == Step(old(In(w)), SingleFlight.Event.Call(c))
    {
      calls := calls[c := First];
    }

    /** refreshAccessToken: p is the request it would start. */
    method RefreshAccessToken(c: Id, p: Id, retry: bool)
      modifies this`refreshPromise, this`requests, this`calls
      ensures forall w :: In(w) == SingleFlight.RefreshAccessToken(old(In(w)), c, p, retry)
    {
      if refreshPromise.None? {
        requests := requests[p := SingleFlight.Request(jar, Sent)];
        refreshPromise := Some(p);
      }
      calls := calls[c := Waiting(refreshPromise.value, retry)];
    }

    /** apiRequest resumes with a response. */
    method Respond(c: Id, status: nat, noRetry: bool, p: Id)
      requires c in calls && (calls[c].First? || calls[c].Second?)
      modifies this`refreshPromise, this`requests, this`calls
      ensures forall w :: old(Unused(In(w), p)) ==> In(w) == Step(old(In(w)), Reply(c, status, noRetry, p))
    {
      if calls[c].First? && status == 401 && !noRetry {
        RefreshAccessToken(c, p, true);
      } else {
        calls := calls[c := Done(status)];
      }
    }

    /** Whoever awaited request p resumes with its outcome. */
    method ResumeCalls(p: Id, ok: bool)
      modifies this`calls
      ensures calls == map c | c in old(calls) :: Resume(old(calls)[c], p, ok)
    {
      var waiting := calls.Keys;
      while waiting != {}
        invariant waiting <= old(calls).Keys == calls.Keys
        invariant forall c :: c in waiting ==> calls[c] == old(calls)[c]
        invariant forall c :: c in old(calls) && c !in waiting ==> calls[c] == Resume(old(calls)[c], p, ok)
        decreases waiting
      {
        var c :| c in waiting;
        waiting := waiting - {c};
        calls := calls[c := Resume(calls[c], p, ok)];
      }
    }

    /** The refresh response: store what it brought, clear the promise, then resume
        whoever awaited it. */
    method Settle(p: Id)
      requires p in requests && requests[p].phase.Answered?
      modifies this
      ensures forall w :: In(w) == Step(old(In(w)), Deliver(p))
    {
      var token := requests[p].phase.token;
      if token.Some? {
        jar := token.value;
        accessToken := token;
      }
      requests := requests - {p};
      refreshes := refreshes + [token.Some?];
      if refreshPromise == Some(p) {
        refreshPromise := None;
      }
      ResumeCalls(p, token.Some?);
    }
  }

  // ------------------------------------------------------------- retry once

  /** How far a call has come. */
  function Progress(call: SingleFlight.Call): nat {
    match call
    case First => 1
    case Waiting(_, _) => 2
    case Second => 3
    case Done(_) => 4
    case TurnedAway => 4
  }

  ghost function ProgressOf(w: World, c: Id): nat { if c in w.calls then Progress(w.calls[c]) else 0 }

  predicate Fetching(w: World, c: Id) { c in w.calls && (w.calls[c].First? || w.calls[c].Second?) }

  /** The fetches of call c over a run: the steps that put a fetch of it out. */
  ghost function Fetches(w: World, run: seq<Event>, c: Id): nat {
    if run == [] then 0 else
      var init := run[..|run| - 1];
      var before, after := After(w, init), After(w, run);
      Fetches(w, init, c) + (if Fetching(after, c) && ProgressOf(after, c) != ProgressOf(before, c) then 1 else 0)
  }

  lemma StepProgress(w: World, e: Event, c: Id)
    ensures ProgressOf(Step(w, e), c) >= ProgressOf(w, c)
  {
  }

  /** Whatever the server, the clock and the other calls do, a call is fetched at
      most twice: the retry is never retried. */
  lemma {:induction false} FetchesAtMostTwice(w: World, run: seq<Event>, c: Id)
    requires c !in w.calls
    ensures Fetches(w, run, c) <= 2
    ensures Fetches(w, run, c) <= (ProgressOf(After(w, run), c) + 1) / 2
  {
    if run != [] {
      var init := run[..|run| - 1];
      FetchesAtMostTwice(w, init, c);
      StepProgress(After(w, init), run[|run| - 1], c);
    }
  }
}
