/** Deadlines of the session protocol, said of the columns: what is used was found
    in time, and what is over stays over. */
module Deadlines {
  import opened Common
  import opened Sessions

  /** A free process starts a rotation exactly for an existing, unrevoked token
      that has not passed its deadline. */
  lemma FindStarts(s: State, p: Id, token: Id, org: Option<Id>)
    requires p !in s.procs
    ensures p in Step(s, Find(p, token, org)).procs <==>
      token in s.tokens && s.tokens[token].revokedAt == None && s.now <= s.tokens[token].expiresAt
    ensures p in Step(s, Find(p, token, org)).procs ==> Step(s, Find(p, token, org)).procs[p] == Found(token, org)
  {
  }

  /** And a verification exactly for an existing, unused ticket of the purpose
      asked for that has not passed its deadline. */
  lemma FindTicketStarts(s: State, p: Id, ticket: Id, purpose: Purpose, password: nat)
    requires p !in s.procs
    ensures var s' := Step(s, FindTicket(p, ticket, purpose, password));
      && (p in s'.procs <==>
            && ticket in s.tickets && s.tickets[ticket].purpose == purpose && s.tickets[ticket].usedAt == None
            && s.now <= s.tickets[ticket].expiresAt)
      && (p in s'.procs ==> s'.procs[p] == TicketFound(ticket, purpose, password))
  {
  }

  // ------------------------------------------------------------ tokens in time

  /** The i-th statement of the run read this token while it was unrevoked and no
      later than its own deadline. */
  ghost predicate ReadsInTime(run: seq<Action>, i: nat, token: Id)
    requires i < |run|
  {
    var s := After(Empty, run[..i]);
    && run[i].Find? && run[i].token == token
    && token in s.tokens && s.tokens[token].revokedAt == None && s.now <= s.tokens[token].expiresAt
  }

  ghost predicate FoundInTime(run: seq<Action>, token: Id) {
    exists i :: 0 <= i < |run| && ReadsInTime(run, i, token)
  }

  lemma ReadsLater(run: seq<Action>, a: Action, token: Id)
    requires FoundInTime(run, token)
    ensures FoundInTime(run + [a], token)
  {
    var i :| 0 <= i < |run| && ReadsInTime(run, i, token);
    assert (run + [a])[..i] == run[..i];
    assert ReadsInTime(run + [a], i, token);
  }

  lemma ReadsNow(run: seq<Action>, p: Id, token: Id, org: Option<Id>)
    requires p !in After(Empty, run).procs && p in Step(After(Empty, run), Find(p, token, org)).procs
    ensures FoundInTime(run + [Find(p, token, org)], token)
  {
    FindStarts(After(Empty, run), p, token, org);
    assert (run + [Find(p, token, org)])[..|run|] == run;
    assert ReadsInTime(run + [Find(p, token, org)], |run|, token);
  }

  predicate Rotates(q: Process, token: Id) { (q.Found? || q.Holding?) && q.token == token }

  /** A process rotates a token after a step only if it did before, or the step
      found it. */
  lemma RotatesBefore(s: State, a: Action, p: Id, token: Id)
    requires p in Step(s, a).procs && Rotates(Step(s, a).procs[p], token)
    ensures (p in s.procs && Rotates(s.procs[p], token)) || (p !in s.procs && a.Find? && a.p == p && a.token == token)
  {
  }

  /** A successor after a step was one before, or a process that held its parent
      issued it. */
  lemma SuccessorBefore(s: State, a: Action, t: Id, token: Id)
    requires t in Step(s, a).tokens && Step(s, a).tokens[t].parent == Some(token)
    ensures (t in s.tokens && s.tokens[t].parent == Some(token))
      || (a.Issue? && a.p in s.procs && Rotates(s.procs[a.p], token))
  {
  }

  /** In every run, whatever rotates a token, or succeeded it, goes back to a read
      of that token no later than its own deadline. */
  lemma {:induction false} RotatedInTime(run: seq<Action>, p: Id, token: Id)
    requires p in After(Empty, run).procs && Rotates(After(Empty, run).procs[p], token)
    ensures FoundInTime(run, token)
  {
    var init, a := run[..|run| - 1], run[|run| - 1];
    assert run == init + [a];
    var s := After(Empty, init);
    RotatesBefore(s, a, p, token);
    if p in s.procs && Rotates(s.procs[p], token) {
      RotatedInTime(init, p, token);
      ReadsLater(init, a, token);
    } else {
      ReadsNow(init, p, token, a.org);
    }
  }

  lemma {:induction false} SucceededInTime(run: seq<Action>, t: Id, token: Id)
    requires t in After(Empty, run).tokens && After(Empty, run).tokens[t].parent == Some(token)
    ensures FoundInTime(run, token)
  {
    var init, a := run[..|run| - 1], run[|run| - 1];
    assert run == init + [a];
    var s := After(Empty, init);
    SuccessorBefore(s, a, t, token);
    if t in s.tokens && s.tokens[t].parent == Some(token) {
      SucceededInTime(init, t, token);
    } else {
      RotatedInTime(init, a.p, token);
    }
    ReadsLater(init, a, token);
  }

  // ----------------------------------------------------------- tickets in time

  ghost predicate ReadsTicketInTime(run: seq<Action>, i: nat, ticket: Id, purpose: Purpose)
    requires i < |run|
  {
    var s := After(Empty, run[..i]);
    && run[i].FindTicket? && run[i].ticket == ticket && run[i].purpose == purpose
    && ticket in s.tickets && s.tickets[ticket].purpose == purpose && s.tickets[ticket].usedAt == None
    && s.now <= s.tickets[ticket].expiresAt
  }

  ghost predicate TicketFoundInTime(run: seq<Action>, ticket: Id, purpose: Purpose) {
    exists i :: 0 <= i < |run| && ReadsTicketInTime(run, i, ticket, purpose)
  }

  lemma ReadsTicketLater(run: seq<Action>, a: Action, ticket: Id, purpose: Purpose)
    requires TicketFoundInTime(run, ticket, purpose)
    ensures TicketFoundInTime(run + [a], ticket, purpose)
  {
    var i :| 0 <= i < |run| && ReadsTicketInTime(run, i, ticket, purpose);
    assert (run + [a])[..i] == run[..i];
    assert ReadsTicketInTime(run + [a], i, ticket, purpose);
  }

  lemma ReadsTicketNow(run: seq<Action>, a: Action)
    requires a.FindTicket? && a.p !in After(Empty, run).procs && a.p in Step(After(Empty, run), a).procs
    ensures TicketFoundInTime(run + [a], a.ticket, a.purpose)
  {
    FindTicketStarts(After(Empty, run), a.p, a.ticket, a.purpose, a.password);
    assert (run + [a])[..|run|] == run;
    assert ReadsTicketInTime(run + [a], |run|, a.ticket, a.purpose);
  }

  predicate Verifies(q: Process, ticket: Id, purpose: Purpose) {
    (q.TicketFound? || q.TicketWon?) && q.ticket == ticket && q.purpose == purpose
  }

  lemma VerifiesBefore(s: State, a: Action, p: Id, ticket: Id, purpose: Purpose)
    requires p in Step(s, a).procs && Verifies(Step(s, a).procs[p], ticket, purpose)
    ensures (p in s.procs && Verifies(s.procs[p], ticket, purpose))
      || (p !in s.procs && a.FindTicket? && a.p == p && a.ticket == ticket && a.purpose == purpose)
  {
  }

  lemma EffectBefore(s: State, a: Action, ticket: Id, purpose: Purpose)
    requires (ticket, purpose) in Step(s, a).effects
    ensures (ticket, purpose) in s.effects || (a.Apply? && a.p in s.procs && Verifies(s.procs[a.p], ticket, purpose))
  {
  }

  lemma {:induction false} VerifiedInTime(run: seq<Action>, p: Id, ticket: Id, purpose: Purpose)
    requires p in After(Empty, run).procs && Verifies(After(Empty, run).procs[p], ticket, purpose)
    ensures TicketFoundInTime(run, ticket, purpose)
  {
    var init, a := run[..|run| - 1], run[|run| - 1];
    assert run == init + [a];
    var s := After(Empty, init);
    VerifiesBefore(s, a, p, ticket, purpose);
    if p in s.procs && Verifies(s.procs[p], ticket, purpose) {
      VerifiedInTime(init, p, ticket, purpose);
      ReadsTicketLater(init, a, ticket, purpose);
    } else {
      ReadsTicketNow(init, a);
    }
  }

  /** In every run a verified email and a reset password go back to a read of the
      ticket, unused and for that purpose, no later than its own deadline. */
  lemma {:induction false} EffectInTime(run: seq<Action>, ticket: Id, purpose: Purpose)
    requires (ticket, purpose) in After(Empty, run).effects
    ensures TicketFoundInTime(run, ticket, purpose)
  {
    var init, a := run[..|run| - 1], run[|run| - 1];
    assert run == init + [a];
    var s := After(Empty, init);
    EffectBefore(s, a, ticket, purpose);
    if (ticket, purpose) in s.effects {
      EffectInTime(init, ticket, purpose);
    } else {
      VerifiedInTime(init, a.p, ticket, purpose);
    }
    ReadsTicketLater(init, a, ticket, purpose);
  }

  // ------------------------------------------------------------------- logout

  /** No token of the lineage but this one is unrevoked, and none is being rotated. */
  ghost predicate LastOf(s: State, token: Id, lineage: Id) {
    && !Rotating(s, lineage)
    && forall x :: x in s.tokens && s.tokens[x].revokedAt == None && s.tokens[x].lineage == lineage ==> x == token
  }

  lemma LogoutLeaves(s: State, token: Id, lineage: Id)
    ensures Rotating(Step(s, Logout(token)), lineage) <==> Rotating(s, lineage)
    ensures token in s.tokens ==> Step(s, Logout(token)).tokens[token].revokedAt.Some?
    ensures forall x :: x in s.tokens && x != token ==>
      x in Step(s, Logout(token)).tokens && Step(s, Logout(token)).tokens[x] == s.tokens[x]
  {
    var s' := Step(s, Logout(token));
    assert s'.procs == s.procs;
    assert forall p :: p in s.procs ==> (HolderOf(s', p, lineage) <==> HolderOf(s, p, lineage));
  }

  lemma LogoutEnds(s: State, token: Id, lineage: Id)
    requires Sound(s) && lineage in s.tokens && LastOf(s, token, lineage)
    ensures Ended(Step(s, Logout(token)).tokens, Holders(Step(s, Logout(token)).procs), lineage)
  {
    var s' := Step(s, Logout(token));
    LogoutLeaves(s, token, lineage);
    forall p ensures !HeldIn(s'.tokens, Holders(s'.procs), p, lineage) {
      assert p in s'.procs ==> !HolderOf(s', p, lineage);
    }
  }

  /** Logging out ends the session for good exactly if the presented token was its
      only unrevoked one and no rotation of it was in flight. */
  lemma LogoutEndsLineage(s: State, token: Id, lineage: Id)
    requires Sound(s) && lineage in s.tokens
    ensures (forall run :: !LiveLater(Step(s, Logout(token)), run, lineage)) <==> LastOf(s, token, lineage)
  {
    var s' := Step(s, Logout(token));
    LogoutLeaves(s, token, lineage);
    StepSound(s, Logout(token));
    if LastOf(s, token, lineage) {
      LogoutEnds(s, token, lineage);
      forall run ensures !LiveLater(s', run, lineage) {
        EndedForGood(s', run, lineage);
      }
    } else if Rotating(s', lineage) {
      var q :| q in s'.procs && HolderOf(s', q, lineage);
      var run := HolderCanIssue(s', q, lineage);
      assert LiveLater(s', run, lineage);
    } else {
      var x :| x in s.tokens && s.tokens[x].revokedAt == None && s.tokens[x].lineage == lineage && x != token;
      assert Live(After(s', []).tokens, x);
      assert LiveLater(s', [], lineage);
    }
  }

  /** A token's row changes only by being revoked, now, and only by the winning
      claim of a process that found it, its logout, or its user's bulk revoke. */
  lemma RevokedBy(s: State, a: Action, t: Id)
    requires t in s.tokens && s.next !in s.tokens
    ensures t in Step(s, a).tokens
    ensures Step(s, a).tokens[t] != s.tokens[t] ==>
      && s.tokens[t].revokedAt == None && Step(s, a).tokens[t] == s.tokens[t].(revokedAt := Some(s.now))
      && (a == Logout(t)
          || (a.Claim? && a.p in s.procs && s.procs[a.p].Found? && s.procs[a.p].token == t)
          || (a.RevokeAll? && a.p in s.procs && s.procs[a.p] == PasswordSaved(s.tokens[t].user)))
  {
  }
}
