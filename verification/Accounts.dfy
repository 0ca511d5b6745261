/** What a session run tells of its accounts: whose password opened a session, which
    password and which verification a user has, and who switched where. */
module Accounts {
  import opened Common
  import opened Sessions

  // ------------------------------------------------------------------ logins

  /** The i-th statement of the run gave this user's password, as it then was. */
  ghost predicate Opens(run: seq<Action>, i: nat, user: Id)
    requires i < |run|
  {
    var s := After(Empty, run[..i]);
    && run[i].Login? && run[i].user == user
    && user in s.users && s.users[user].password == run[i].password
  }

  ghost predicate RightPassword(run: seq<Action>, user: Id) {
    exists i :: 0 <= i < |run| && Opens(run, i, user)
  }

  lemma OpensLater(run: seq<Action>, a: Action, user: Id)
    requires RightPassword(run, user)
    ensures RightPassword(run + [a], user)
  {
    var i :| 0 <= i < |run| && Opens(run, i, user);
    assert (run + [a])[..i] == run[..i];
    assert Opens(run + [a], i, user);
  }

  /** A process is past the password check after a step only if it was before, or
      the step gave the right password. */
  lemma LoggedInBefore(s: State, a: Action, p: Id, user: Id)
    requires p in Step(s, a).procs && Step(s, a).procs[p] == LoggedIn(user)
    ensures (p in s.procs && s.procs[p] == LoggedIn(user))
      || (a.Login? && a.user == user && user in s.users && s.users[user].password == a.password)
  {
  }

  lemma {:induction false} LoggedInByPassword(run: seq<Action>, p: Id, user: Id)
    requires p in After(Empty, run).procs && After(Empty, run).procs[p] == LoggedIn(user)
    ensures RightPassword(run, user)
  {
    var init, a := run[..|run| - 1], run[|run| - 1];
    assert run == init + [a];
    LoggedInBefore(After(Empty, init), a, p, user);
    if p in After(Empty, init).procs && After(Empty, init).procs[p] == LoggedIn(user) {
      LoggedInByPassword(init, p, user);
      OpensLater(init, a, user);
    } else {
      assert Opens(run, |init|, user);
    }
  }

  /** A token's user and parent never change; a new token continues its parent's
      user, or roots a session of the process's user. */
  lemma TokenBefore(s: State, a: Action, t: Id)
    requires t in Step(s, a).tokens
    ensures var row := Step(s, a).tokens[t];
      || (t in s.tokens && s.tokens[t].user == row.user && s.tokens[t].parent == row.parent)
      || (&& a.Issue? && a.p in s.procs
          && (row.parent == None ==> s.procs[a.p] == LoggedIn(row.user))
          && (row.parent.Some? ==>
                && s.procs[a.p].Holding? && s.procs[a.p].token == row.parent.value
                && row.parent.value in s.tokens && s.tokens[row.parent.value].user == row.user))
  {
  }

  /** In every run every token, rotated or not, belongs to a user whose password was
      given when it was theirs. */
  lemma {:induction false} TokensNeedPassword(run: seq<Action>, t: Id)
    requires t in After(Empty, run).tokens
    ensures RightPassword(run, After(Empty, run).tokens[t].user)
  {
    var init, a := run[..|run| - 1], run[|run| - 1];
    assert run == init + [a];
    var s, row := After(Empty, init), After(Empty, run).tokens[t];
    TokenBefore(s, a, t);
    if t in s.tokens && s.tokens[t].user == row.user {
      TokensNeedPassword(init, t);
    } else if row.parent == None {
      LoggedInByPassword(init, a.p, row.user);
    } else {
      TokensNeedPassword(init, row.parent.value);
    }
    OpensLater(init, a, row.user);
  }

  // ------------------------------------------------------ the account's columns

  /** What a statement writes to this user's row: registering makes it, and a claimed
      ticket of the user writes the password it carries, or marks the email. */
  ghost predicate Applies(s: State, a: Action, user: Id, purpose: Purpose) {
    && a.Apply? && a.p in s.procs && s.procs[a.p].TicketWon? && s.procs[a.p].purpose == purpose && user in s.users
    && s.procs[a.p].ticket in s.tickets && s.tickets[s.procs[a.p].ticket].user == user
  }

  ghost predicate Registers(s: State, a: Action, user: Id) { a.Register? && user == s.next }

  ghost predicate SetsPassword(s: State, a: Action, user: Id, password: nat) {
    || (Registers(s, a, user) && a.password == password)
    || (Applies(s, a, user, PasswordReset) && s.procs[a.p].password == password)
  }

  /** The last statement of the run to set the user's password set this one. */
  ghost predicate LastSet(run: seq<Action>, user: Id, password: nat) {
    run != [] &&
      var s, a := After(Empty, run[..|run| - 1]), run[|run| - 1];
      if Registers(s, a, user) || Applies(s, a, user, PasswordReset) then SetsPassword(s, a, user, password)
      else LastSet(run[..|run| - 1], user, password)
  }

  /** The email was marked since the account was made. */
  ghost predicate Marked(run: seq<Action>, user: Id) {
    run != [] &&
      var s, a := After(Empty, run[..|run| - 1]), run[|run| - 1];
      !Registers(s, a, user) && (Applies(s, a, user, EmailVerification) || Marked(run[..|run| - 1], user))
  }

  ghost predicate Writes(s: State, a: Action, user: Id) {
    Registers(s, a, user) || Applies(s, a, user, PasswordReset) || Applies(s, a, user, EmailVerification)
  }

  lemma StepAccount(s: State, a: Action, user: Id)
    ensures var users := Step(s, a).users;
      && (user in users <==> user in s.users || Registers(s, a, user))
      && (Registers(s, a, user) ==> users[user] == User(a.password, false))
      && (Applies(s, a, user, PasswordReset) ==> users[user] == s.users[user].(password := s.procs[a.p].password))
      && (Applies(s, a, user, EmailVerification) ==> users[user] == s.users[user].(verified := true))
      && (user in s.users && !Writes(s, a, user) ==> users[user] == s.users[user])
  {
  }

  /** In every run a user's password is the one set last, by registration or by a
      reset, and the email is verified exactly if a ticket of theirs marked it. */
  lemma {:induction false} AccountTellsStory(run: seq<Action>, user: Id, password: nat)
    ensures var users := After(Empty, run).users;
      && (user in users && users[user].password == password <==> LastSet(run, user, password))
      && (user in users && users[user].verified <==> Marked(run, user))
  {
    if run != [] {
      var init := run[..|run| - 1];
      AccountTellsStory(init, user, password);
      StepAccount(After(Empty, init), run[|run| - 1], user);
    }
  }

  /** The password a ticket's process carries is the one asked for with the ticket. */
  predicate Carries(q: Process, ticket: Id, password: nat) {
    (q.TicketFound? || q.TicketWon?) && q.ticket == ticket && q.password == password
  }

  lemma CarriesBefore(s: State, a: Action, p: Id, ticket: Id, password: nat)
    requires p in Step(s, a).procs && Carries(Step(s, a).procs[p], ticket, password)
    ensures (p in s.procs && Carries(s.procs[p], ticket, password))
      || (a.FindTicket? && a.p == p && a.ticket == ticket && a.password == password)
  {
  }

  lemma {:induction false} CarriesWhatWasAsked(run: seq<Action>, p: Id, ticket: Id, password: nat)
    requires p in After(Empty, run).procs && Carries(After(Empty, run).procs[p], ticket, password)
    ensures exists purpose :: FindTicket(p, ticket, purpose, password) in run
  {
    var init, a := run[..|run| - 1], run[|run| - 1];
    assert run == init + [a];
    CarriesBefore(After(Empty, init), a, p, ticket, password);
    if p in After(Empty, init).procs && Carries(After(Empty, init).procs[p], ticket, password) {
      CarriesWhatWasAsked(init, p, ticket, password);
      var purpose :| FindTicket(p, ticket, purpose, password) in init;
      assert FindTicket(p, ticket, purpose, password) in run;
    } else {
      assert FindTicket(p, ticket, a.purpose, password) in run;
    }
  }

  // --------------------------------------------------------------- switching

  /** The i-th statement of the run looked the membership up, and it was there. */
  ghost predicate Resolves(run: seq<Action>, i: nat, p: Id, token: Id, org: Id)
    requires i < |run|
  {
    var s := After(Empty, run[..i]);
    && run[i] == Resolve(p) && token in s.tokens && (s.tokens[token].user, org) in s.members
  }

  ghost predicate SeenMember(run: seq<Action>, p: Id, token: Id, org: Id) {
    exists i :: 0 <= i < |run| && Resolves(run, i, p, token, org)
  }

  lemma ResolvesLater(run: seq<Action>, a: Action, p: Id, token: Id, org: Id)
    requires SeenMember(run, p, token, org)
    ensures SeenMember(run + [a], p, token, org)
  {
    var i :| 0 <= i < |run| && Resolves(run, i, p, token, org);
    assert (run + [a])[..i] == run[..i];
    assert Resolves(run + [a], i, p, token, org);
  }

  lemma ClearedBefore(s: State, a: Action, p: Id, token: Id, org: Id)
    requires p in Step(s, a).procs && Step(s, a).procs[p] == Holding(token, Some(org), true)
    ensures (p in s.procs && s.procs[p] == Holding(token, Some(org), true))
      || (a == Resolve(p) && token in s.tokens && (s.tokens[token].user, org) in s.members)
  {
  }

  lemma {:induction false} ClearedWasMember(run: seq<Action>, p: Id, token: Id, org: Id)
    requires p in After(Empty, run).procs && After(Empty, run).procs[p] == Holding(token, Some(org), true)
    ensures SeenMember(run, p, token, org)
  {
    var init, a := run[..|run| - 1], run[|run| - 1];
    assert run == init + [a];
    ClearedBefore(After(Empty, init), a, p, token, org);
    if p in After(Empty, init).procs && After(Empty, init).procs[p] == Holding(token, Some(org), true) {
      ClearedWasMember(init, p, token, org);
      ResolvesLater(init, a, p, token, org);
    } else {
      assert Resolves(run, |init|, p, token, org);
    }
  }

  /** Whoever asked to switch to an organization gets a token, in any run, only after
      a lookup that found the token's user a member there. */
  lemma SwitchNeedsMembership(run: seq<Action>, p: Id, token: Id, org: Id, cleared: bool, ttl: nat)
    requires p in After(Empty, run).procs && After(Empty, run).procs[p] == Holding(token, Some(org), cleared)
    requires Step(After(Empty, run), Issue(p, ttl)).tokens != After(Empty, run).tokens
    ensures SeenMember(run, p, token, org)
  {
    ClearedWasMember(run, p, token, org);
  }
}
