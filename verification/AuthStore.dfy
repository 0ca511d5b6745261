/** AuthService on its tables. The statement methods each do one step of the
    protocol in Sessions; the service methods run them in order, and their
    contracts say what an undisturbed call does. */
module AuthStore {
  import opened Common
  import opened Sessions

  lemma NothingToReset(s: State, p: Id, ticket: Id, password: nat)
    requires p !in s.procs && !ValidTicket(s, ticket, PasswordReset)
    ensures Step(Step(Step(Step(s, FindTicket(p, ticket, PasswordReset, password)), ClaimTicket(p)), Apply(p)),
      RevokeAll(p)) == s
  {
  }

  class AuthService {
    var users: map<Id, User>
    var members: set<(Id, Id)>
    var tokens: Tokens
    var tickets: map<Id, Ticket>
    ghost var procs: Processes
    ghost var effects: seq<(Id, Purpose)>
    var now: nat
    var next: Id

    ghost function View(): State
      reads this
    {
      State(users, members, tokens, tickets, procs, effects, now, next)
    }

    constructor ()
      ensures View() == Empty
    {
      users, members, tokens, tickets, procs := map[], {}, map[], map[], map[];
      effects, now, next := [], 0, 0;
    }

    // --------------------------------------------------------- statements

    /** findUnique on the token hash, and the checks on the row. */
    method FindRefreshToken(ghost p: Id, token: Id, ghost org: Option<Id>) returns (ok: bool)
      requires p !in procs
      modifies this`procs
      ensures View() == Step(old(View()), Find(p, token, org))
      ensures ok == ValidToken(old(View()), token)
      ensures ok <==>
        token in old(tokens) && old(tokens)[token].revokedAt == None && now <= old(tokens)[token].expiresAt
    {
      if token !in tokens || tokens[token].revokedAt.Some? || tokens[token].expiresAt < now {
        return false;
      }
      procs := procs[p := Found(token, org)];
      ok := true;
    }

    /** updateMany where the row is still unrevoked; whether it counted one. */
    method RevokeIfUnrevoked(ghost p: Id, token: Id) returns (won: bool)
      requires p in procs && procs[p].Found? && procs[p].token == token
      modifies this`procs, this`tokens
      ensures View() == Step(old(View()), Claim(p))
      ensures won == Live(old(tokens), token)
    {
      if token in tokens && tokens[token].revokedAt.None? {
        tokens := tokens[token := tokens[token].(revokedAt := Some(now))];
        procs := procs[p := Holding(token, procs[p].org, false)];
        won := true;
      } else {
        procs := procs - {p};
        won := false;
      }
    }

    /** The memberships lookup: for a named organization it must find a row. */
    method ResolveOrg(ghost p: Id, token: Id, org: Option<Id>) returns (ok: bool)
      requires p in procs && procs[p].Holding? && procs[p].token == token && procs[p].org == org && token in tokens
      modifies this`procs
      ensures View() == Step(old(View()), Resolve(p))
      ensures ok == (org.None? || (tokens[token].user, org.value) in members)
    {
      if org.Some? && (tokens[token].user, org.value) !in members {
        procs := procs - {p};
        return false;
      }
      procs := procs[p := procs[p].(cleared := true)];
      ok := true;
    }

    /** refreshToken.create for the rotation of `token`. */
    method IssueSuccessor(ghost p: Id, token: Id, ttl: nat) returns (t: Id)
      requires p in procs && procs[p].Holding? && procs[p].cleared && procs[p].token == token && token in tokens
      modifies this`procs, this`tokens, this`next
      ensures View() == Step(old(View()), Issue(p, ttl)) && t == old(next)
    {
      t := next;
      tokens := tokens[t := Token(tokens[token].user, tokens[token].lineage, Some(token), now + ttl, None)];
      next := next + 1;
      procs := procs - {p};
    }

    // ----------------------------------------------------------- sessions

    method Login(ghost p: Id, user: Id, password: nat, ttl: nat) returns (r: Result<Id>)
      requires p !in procs
      modifies this`procs, this`tokens, this`next
      ensures View() == Step(Step(old(View()), Sessions.Login(p, user, password)), Issue(p, ttl))
      ensures r == if user in users && users[user].password == password then Ok(old(next)) else Err(Unauthorized)
      ensures r.Ok? ==> tokens == old(tokens)[r.value := Token(user, r.value, None, now + ttl, None)]
      ensures procs == old(procs)
    {
      if user !in users || users[user].password != password {
        return Err(Unauthorized);
      }
      r := Ok(next);
      tokens := tokens[next := Token(user, next, None, now + ttl, None)];
      next := next + 1;
    }

    method ClaimRefreshToken(ghost p: Id, token: Id, ghost org: Option<Id>) returns (ok: bool)
      requires p !in procs
      modifies this`procs, this`tokens
      ensures View() == Step(Step(old(View()), Find(p, token, org)), Claim(p))
      ensures ok == ValidToken(old(View()), token)
      ensures ok <==>
        token in old(tokens) && old(tokens)[token].revokedAt == None && now <= old(tokens)[token].expiresAt
      ensures ok ==> tokens == Revoke(old(tokens), token, now) && procs == old(procs)[p := Holding(token, org, false)]
      ensures !ok ==> View() == old(View())
    {
      ok := FindRefreshToken(p, token, org);
      if ok {
        ok := RevokeIfUnrevoked(p, token);
      }
    }

    /** One valid token in, its single successor out; otherwise nothing happens. */
    method Refresh(ghost p: Id, token: Id, ttl: nat) returns (r: Result<Id>)
      requires p !in procs
      modifies this`procs, this`tokens, this`next
      ensures View() == Step(Step(Step(Step(old(View()), Find(p, token, None)), Claim(p)), Resolve(p)), Issue(p, ttl))
      ensures r == if ValidToken(old(View()), token) then Ok(old(next)) else Err(Unauthorized)
      ensures r.Ok? <==>
        token in old(tokens) && old(tokens)[token].revokedAt == None && now <= old(tokens)[token].expiresAt
      ensures r.Err? ==> View() == old(View())
      ensures r.Ok? ==>
        tokens == Revoke(old(tokens), token, now)[r.value :=
          Token(old(tokens)[token].user, old(tokens)[token].lineage, Some(token), now + ttl, None)]
      ensures procs == old(procs)
    {
      var ok := ClaimRefreshToken(p, token, None);
      if !ok {
        return Err(Unauthorized);
      }
      ok := ResolveOrg(p, token, None);
      var t := IssueSuccessor(p, token, ttl);
      r := Ok(t);
    }

    /** As Refresh, but the organization is checked after the claim: asking for one
        the user is not a member of spends the token and issues none. */
    method SwitchOrg(ghost p: Id, token: Id, org: Id, ttl: nat) returns (r: Result<Id>)
      requires p !in procs
      modifies this`procs, this`tokens, this`next
      ensures View()
        == Step(Step(Step(Step(old(View()), Find(p, token, Some(org))), Claim(p)), Resolve(p)), Issue(p, ttl))
      ensures r == if !ValidToken(old(View()), token) then Err(Unauthorized)
                   else if (old(tokens)[token].user, org) !in members then Err(NotFound) else Ok(old(next))
      ensures r != Err(Unauthorized) <==>
        token in old(tokens) && old(tokens)[token].revokedAt == None && now <= old(tokens)[token].expiresAt
      ensures r.Err? ==> tokens == if r.error == NotFound then Revoke(old(tokens), token, now) else old(tokens)
      ensures r.Ok? ==>
        tokens == Revoke(old(tokens), token, now)[r.value :=
          Token(old(tokens)[token].user, old(tokens)[token].lineage, Some(token), now + ttl, None)]
      ensures procs == old(procs)
    {
      var ok := ClaimRefreshToken(p, token, Some(org));
      if !ok {
        return Err(Unauthorized);
      }
      ok := ResolveOrg(p, token, Some(org));
      if !ok {
        return Err(NotFound);
      }
      var t := IssueSuccessor(p, token, ttl);
      r := Ok(t);
    }

    method Logout(token: Option<Id>)
      modifies this`tokens
      ensures View() == if token.Some? then Step(old(View()), Sessions.Logout(token.value)) else old(View())
    {
      if token.None? {
        return;
      }
      if token.value in tokens && tokens[token.value].revokedAt.None? {
        tokens := tokens[token.value := tokens[token.value].(revokedAt := Some(now))];
      }
    }

    // ------------------------------------------------------------ tickets

    method ClaimToken(ghost p: Id, ticket: Id, purpose: Purpose, ghost password: nat) returns (r: Result<Id>)
      requires p !in procs
      modifies this`procs, this`tickets
      ensures View() == Step(Step(old(View()), FindTicket(p, ticket, purpose, password)), ClaimTicket(p))
      ensures r.Ok? <==> ValidTicket(old(View()), ticket, purpose)
      ensures r.Ok? <==>
        ticket in old(tickets) && old(tickets)[ticket].purpose == purpose && old(tickets)[ticket].usedAt == None
        && now <= old(tickets)[ticket].expiresAt
      ensures r.Err? ==> r.error == BadRequest && View() == old(View())
      ensures r.Ok? ==> r.value == old(tickets)[ticket].user
      ensures r.Ok? ==> tickets == old(tickets)[ticket := old(tickets)[ticket].(usedAt := Some(now))]
      ensures r.Ok? ==> procs == old(procs)[p := TicketWon(ticket, purpose, password)]
    {
      if ticket !in tickets || tickets[ticket].purpose != purpose || tickets[ticket].usedAt.Some?
        || tickets[ticket].expiresAt < now {
        return Err(BadRequest);
      }
      var record := tickets[ticket];
      tickets := tickets[ticket := record.(usedAt := Some(now))];
      procs := procs[p := TicketWon(ticket, purpose, password)];
      r := Ok(record.user);
    }

    method VerifyEmail(ghost p: Id, ticket: Id) returns (r: Result<Id>)
      requires p !in procs && TicketsKeyed(View())
      modifies this`procs, this`tickets, this`users, this`effects
      ensures View()
        == Step(Step(Step(old(View()), FindTicket(p, ticket, EmailVerification, 0)), ClaimTicket(p)), Apply(p))
      ensures r.Ok? <==> ValidTicket(old(View()), ticket, EmailVerification)
      ensures r.Ok? <==>
        ticket in old(tickets) && old(tickets)[ticket].purpose == EmailVerification
          && old(tickets)[ticket].usedAt == None
        && now <= old(tickets)[ticket].expiresAt
      ensures r.Ok? ==> r.value in users && users == old(users)[r.value := old(users)[r.value].(verified := true)]
      ensures procs == old(procs)
    {
      r := ClaimToken(p, ticket, EmailVerification, 0);
      if r.Err? {
        return;
      }
      users := users[r.value := users[r.value].(verified := true)];
      effects := effects + [(ticket, EmailVerification)];
      procs := procs - {p};
    }

    /** user.update with the new password hash. */
    method SavePassword(ghost p: Id, ghost ticket: Id, user: Id, password: nat)
      requires p in procs && procs[p] == TicketWon(ticket, PasswordReset, password)
      requires ticket in tickets && tickets[ticket].user == user && user in users
      modifies this`procs, this`users, this`effects
      ensures View() == Step(old(View()), Apply(p))
      ensures procs == old(procs)[p := PasswordSaved(user)]
      ensures users == old(users)[user := old(users)[user].(password := password)]
    {
      users := users[user := users[user].(password := password)];
      effects := effects + [(ticket, PasswordReset)];
      procs := procs[p := PasswordSaved(user)];
    }

    /** updateMany over the user's unrevoked tokens. */
    method RevokeAllTokens(ghost p: Id, user: Id)
      requires p in procs && procs[p] == PasswordSaved(user)
      modifies this`procs, this`tokens
      ensures View() == Step(old(View()), RevokeAll(p))
      ensures procs == old(procs) - {p}
      ensures forall t :: t in tokens && tokens[t].user == user ==> tokens[t].revokedAt.Some?
    {
      tokens := map t | t in tokens ::
        if tokens[t].user == user && tokens[t].revokedAt == None then tokens[t].(revokedAt := Some(now)) else tokens[t];
      procs := procs - {p};
    }

    /** The new password is written, then every unrevoked token of the user is
        revoked. */
    method ResetPassword(ghost p: Id, ticket: Id, password: nat) returns (r: Result<Id>)
      requires p !in procs && TicketsKeyed(View())
      modifies this`procs, this`tickets, this`users, this`effects, this`tokens
      ensures View()
        == Step(Step(Step(Step(old(View()), FindTicket(p, ticket, PasswordReset, password)), ClaimTicket(p)),
          Apply(p)), RevokeAll(p))
      ensures r.Ok? <==> ValidTicket(old(View()), ticket, PasswordReset)
      ensures r.Ok? <==>
        ticket in old(tickets) && old(tickets)[ticket].purpose == PasswordReset && old(tickets)[ticket].usedAt == None
        && now <= old(tickets)[ticket].expiresAt
      ensures r.Ok? ==>
        r.value in old(users) && users == old(users)[r.value := old(users)[r.value].(password := password)]
      ensures r.Ok? ==> forall t :: t in tokens && tokens[t].user == r.value ==> tokens[t].revokedAt.Some?
      ensures procs == old(procs)
    {
      ghost var before := View();
      r := ClaimToken(p, ticket, PasswordReset, password);
      if r.Err? {
        NothingToReset(before, p, ticket, password);
        return;
      }
      SavePassword(p, ticket, r.value, password);
      RevokeAllTokens(p, r.value);
    }
  }
}
