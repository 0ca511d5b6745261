/** The session-token protocol of the authentication service, one database
    statement at a time. Any number of processes run login, refresh, switch-org,
    logout, email verification and password reset, interleaved in any way; a
    process may also stop at any point. */
module Sessions {
  import opened Common

  datatype User = User(password: nat, verified: bool)

  /** A refresh token row. lineage and parent are bookkeeping columns of the
      model: the token the login issued, and the token this one replaced. */
  datatype Token = Token(user: Id, lineage: Id, parent: Option<Id>, expiresAt: nat, revokedAt: Option<nat>)

  datatype Purpose = EmailVerification | PasswordReset
  datatype Ticket = Ticket(user: Id, purpose: Purpose, expiresAt: nat, usedAt: Option<nat>)

  /** What a process has done so far and still has to do. */
  datatype Process =
    | LoggedIn(user: Id)                                  // password checked, token pair not yet issued
    | Found(token: Id, org: Option<Id>)                   // token row read and valid, claim still to come
    | Holding(token: Id, org: Option<Id>, cleared: bool)  // claim won, successor not yet issued
    | TicketFound(ticket: Id, purpose: Purpose, password: nat)
    | TicketWon(ticket: Id, purpose: Purpose, password: nat)
    | PasswordSaved(user: Id)                             // bulk revoke still to come

  type Tokens = map<Id, Token>
  type Processes = map<Id, Process>

  datatype State = State(
    users: map<Id, User>, members: set<(Id, Id)>, tokens: Tokens, tickets: map<Id, Ticket>,
    procs: Processes, effects: seq<(Id, Purpose)>, now: nat, next: Id)

  const Empty := State(map[], {}, map[], map[], map[], [], 0, 0)

  // -------------------------------------------------------------- statements

  datatype Action =
    | Tick(time: nat)
    | Members(members: set<(Id, Id)>)
    | Register(password: nat, ttl: nat)
    | Forgot(user: Id, ttl: nat)
    | Login(p: Id, user: Id, password: nat)
    | Find(p: Id, token: Id, org: Option<Id>)
    | Claim(p: Id)
    | Resolve(p: Id)
    | Issue(p: Id, ttl: nat)
    | Logout(token: Id)
    | FindTicket(p: Id, ticket: Id, purpose: Purpose, password: nat)
    | ClaimTicket(p: Id)
    | Apply(p: Id)
    | RevokeAll(p: Id)
    | Stop(p: Id)

  predicate Live(t: Tokens, id: Id) { id in t && t[id].revokedAt == None }

  /** updateMany where revokedAt is null: at most this one row. */
  function Revoke(t: Tokens, id: Id, now: nat): Tokens {
    if Live(t, id) then t[id := t[id].(revokedAt := Some(now))] else t
  }

  /** updateMany over one user's unrevoked rows. */
  function RevokeUser(t: Tokens, user: Id, now: nat): Tokens {
    map id | id in t :: if t[id].user == user && t[id].revokedAt == None then t[id].(revokedAt := Some(now)) else t[id]
  }

  predicate ValidToken(s: State, token: Id) {
    Live(s.tokens, token) && !(s.tokens[token].expiresAt < s.now)
  }

  predicate ValidTicket(s: State, ticket: Id, purpose: Purpose) {
    ticket in s.tickets && s.tickets[ticket].purpose == purpose && s.tickets[ticket].usedAt == None
      && !(s.tickets[ticket].expiresAt < s.now)
  }

  function Put(s: State, p: Id, q: Process): State { s.(procs := s.procs[p := q]) }
  function End(s: State, p: Id): State { s.(procs := s.procs - {p}) }

  function Step(s: State, a: Action): State {
    match a
    case Tick(time) => if time >= s.now then s.(now := time) else s
    case Members(members) => s.(members := members)
    case Register(password, ttl) =>
      s.(users := s.users[s.next := User(password, false)],
         tickets := s.tickets[s.next + 1 := Ticket(s.next, EmailVerification, s.now + ttl, None)], next := s.next + 2)
    case Forgot(user, ttl) =>
      if user in s.users then s.(tickets := s.tickets[s.next := Ticket(user, PasswordReset, s.now + ttl, None)],
        next := s.next + 1) else s
    case Login(p, user, password) =>
      if p !in s.procs && user in s.users && s.users[user].password == password then Put(s, p, LoggedIn(user)) else s
    case Find(p, token, org) =>
      if p !in s.procs && ValidToken(s, token) then Put(s, p, Found(token, org)) else s
    case Claim(p) =>
      if p in s.procs && s.procs[p].Found? then
        var token, org := s.procs[p].token, s.procs[p].org;
        if Live(s.tokens, token) then Put(s.(tokens := Revoke(s.tokens, token, s.now)), p, Holding(token, org, false))
          else End(s, p)
      else s
    case Resolve(p) =>
      if p in s.procs && s.procs[p].Holding? && s.procs[p].token in s.tokens then
        var h := s.procs[p];
        if h.org.Some?
          && (s.tokens[h.token].user, h.org.value) !in s.members then End(s, p) else Put(s, p, h.(cleared := true))
      else s
    case Issue(p, ttl) =>
      if p in s.procs && s.procs[p].LoggedIn? then
        End(s.(tokens := s.tokens[s.next := Token(s.procs[p].user, s.next, None, s.now + ttl, None)],
          next := s.next + 1), p)
      else if p in s.procs && s.procs[p].Holding? && s.procs[p].cleared && s.procs[p].token in s.tokens then
        var t := s.procs[p].token;
        End(s.(tokens := s.tokens[s.next := Token(s.tokens[t].user, s.tokens[t].lineage, Some(t), s.now + ttl, None)],
          next := s.next + 1), p)
      else s
    case Logout(token) => s.(tokens := Revoke(s.tokens, token, s.now))
    case FindTicket(p, ticket, purpose, password) =>
      if p !in s.procs && ValidTicket(s, ticket, purpose) then Put(s, p, TicketFound(ticket, purpose, password)) else s
    case ClaimTicket(p) =>
      if p in s.procs && s.procs[p].TicketFound? then
        var f := s.procs[p];
        if f.ticket in s.tickets && s.tickets[f.ticket].usedAt == None then
          Put(s.(tickets := s.tickets[f.ticket := s.tickets[f.ticket].(usedAt := Some(s.now))]), p,
            TicketWon(f.ticket, f.purpose, f.password))
        else End(s, p)
      else s
    case Apply(p) =>
      if p in s.procs && s.procs[p].TicketWon? && s.procs[p].ticket in s.tickets
        && s.tickets[s.procs[p].ticket].user in s.users then
        var w := s.procs[p];
        var user := s.tickets[w.ticket].user;
        var s' := s.(effects := s.effects + [(w.ticket, w.purpose)]);
        if w.purpose == EmailVerification then End(s'.(users := s.users[user := s.users[user].(verified := true)]), p)
        else Put(s'.(users := s.users[user := s.users[user].(password := w.password)]), p, PasswordSaved(user))
      else s
    case RevokeAll(p) =>
      if p in s.procs
        && s.procs[p].PasswordSaved? then End(s.(tokens := RevokeUser(s.tokens, s.procs[p].user, s.now)), p) else s
    case Stop(p) => End(s, p)
  }

  function After(s: State, run: seq<Action>): State {
    if run == [] then s else Step(After(s, run[..|run| - 1]), run[|run| - 1])
  }

  lemma {:induction false} AfterConcat(s: State, run: seq<Action>, more: seq<Action>)
    ensures After(s, run + more) == After(After(s, run), more)
  {
    if more == [] {
      assert run + more == run;
    } else {
      AfterConcat(s, run, more[..|more| - 1]);
      assert (run + more)[..|run + more| - 1] == run + more[..|more| - 1];
    }
  }

  // ---------------------------------------------------------------- lineages

  /** Which process holds which claimed token. */
  function Holders(procs: Processes): map<Id, Id> {
    map p | p in procs && procs[p].Holding? :: procs[p].token
  }

  /** What one statement may do to tokens and holders. */
  datatype Effect =
    | Same
    | Dropped(p: Id)
    | Won(p: Id, token: Id)
    | Rooted(p: Id, user: Id, expiresAt: nat)
    | Succeeded(p: Id, token: Id, expiresAt: nat)
    | RevokedOne(token: Id)
    | RevokedUser(p: Id, user: Id)

  function EffectOf(s: State, a: Action): Effect {
    match a
    case Claim(p) =>
      if p in s.procs
        && s.procs[p].Found? then (if Live(s.tokens, s.procs[p].token) then Won(p, s.procs[p].token) else Dropped(p))
          else Same
    case Resolve(p) =>
      if p in s.procs && s.procs[p].Holding? && s.procs[p].token in s.tokens && s.procs[p].org.Some?
         && (s.tokens[s.procs[p].token].user, s.procs[p].org.value) !in s.members then Dropped(p) else Same
    case Issue(p, ttl) =>
      if p in s.procs && s.procs[p].LoggedIn? then Rooted(p, s.procs[p].user, s.now + ttl)
      else if p in s.procs && s.procs[p].Holding? && s.procs[p].cleared
        && s.procs[p].token in s.tokens then Succeeded(p, s.procs[p].token, s.now + ttl)
      else Same
    case Logout(token) => RevokedOne(token)
    case RevokeAll(p) => if p in s.procs && s.procs[p].PasswordSaved? then RevokedUser(p, s.procs[p].user) else Same
    case Stop(p) => Dropped(p)
    case _ => Same
  }

  predicate Allowed(t: Tokens, h: map<Id, Id>, e: Effect) {
    match e
    case Won(p, token) => Live(t, token) && p !in h
    case Rooted(p, _, _) => p !in h
    case Succeeded(p, token, _) => p in h && h[p] == token && token in t
    case RevokedUser(p, _) => p !in h
    case _ => true
  }

  function TokensAfter(t: Tokens, now: nat, next: Id, e: Effect): Tokens {
    match e
    case Won(_, token) => Revoke(t, token, now)
    case Rooted(_, user, expiresAt) => t[next := Token(user, next, None, expiresAt, None)]
    case Succeeded(_, token, expiresAt) =>
      if token in t then t[next := Token(t[token].user, t[token].lineage, Some(token), expiresAt, None)] else t
    case RevokedOne(token) => Revoke(t, token, now)
    case RevokedUser(_, user) => RevokeUser(t, user, now)
    case _ => t
  }

  function HoldersAfter(h: map<Id, Id>, e: Effect): map<Id, Id> {
    match e
    case Won(p, token) => h[p := token]
    case Dropped(p) => h - {p}
    case Succeeded(p, _, _) => h - {p}
    case _ => h
  }

  lemma PutHolder(procs: Processes, p: Id, q: Process)
    ensures Holders(procs[p := q]) == if q.Holding? then Holders(procs)[p := q.token] else Holders(procs) - {p}
  {
  }

  lemma EndHolder(procs: Processes, p: Id)
    ensures Holders(procs - {p}) == Holders(procs) - {p}
    ensures p in procs && procs[p].Holding? ==> p in Holders(procs) && Holders(procs)[p] == procs[p].token
    ensures !(p in procs && procs[p].Holding?) ==> Holders(procs) - {p} == Holders(procs)
  {
  }

  ghost predicate HasEffect(s: State, a: Action) {
    var e := EffectOf(s, a);
    && Allowed(s.tokens, Holders(s.procs), e)
    && Step(s, a).tokens == TokensAfter(s.tokens, s.now, s.next, e)
    && Holders(Step(s, a).procs) == HoldersAfter(Holders(s.procs), e)
    && Step(s, a).next >= if e.Rooted? || e.Succeeded? then s.next + 1 else s.next
  }

  lemma ClaimEffect(s: State, p: Id)
    ensures HasEffect(s, Claim(p))
  {
  }

  lemma ResolveEffect(s: State, p: Id)
    ensures HasEffect(s, Resolve(p))
  {
  }

  lemma IssueEffect(s: State, p: Id, ttl: nat)
    ensures HasEffect(s, Issue(p, ttl))
  {
  }

  lemma RevokeAllEffect(s: State, p: Id)
    ensures HasEffect(s, RevokeAll(p))
  {
  }

  lemma TicketEffects(s: State, a: Action)
    requires a.FindTicket? || a.ClaimTicket? || a.Apply? || a.Find? || a.Login?
    ensures HasEffect(s, a)
  {
    EndHolder(s.procs, a.p);
    if a.p in Step(s, a).procs {
      PutHolder(s.procs, a.p, Step(s, a).procs[a.p]);
    }
  }

  lemma StopEffect(s: State, p: Id)
    ensures HasEffect(s, Stop(p))
  {
  }

  lemma PlainEffects(s: State, a: Action)
    requires a.Tick? || a.Members? || a.Register? || a.Forgot? || a.Logout?
    ensures HasEffect(s, a)
  {
  }

  lemma StepEffect(s: State, a: Action)
    ensures HasEffect(s, a)
  {
    match a
    case Claim(p) => ClaimEffect(s, p);
    case Resolve(p) => ResolveEffect(s, p);
    case Issue(p, ttl) => IssueEffect(s, p, ttl);
    case RevokeAll(p) => RevokeAllEffect(s, p);
    case Stop(p) => StopEffect(s, p);
    case FindTicket(_, _, _, _) => TicketEffects(s, a);
    case ClaimTicket(_) => TicketEffects(s, a);
    case Apply(_) => TicketEffects(s, a);
    case Find(_, _, _) => TicketEffects(s, a);
    case Login(_, _, _) => TicketEffects(s, a);
    case _ => PlainEffects(s, a);
  }

  /** Keys, lineages and parents are older rows. */
  ghost predicate Keyed(t: Tokens, next: Id) {
    forall id :: id in t ==> id < next && t[id].lineage <= id && (t[id].parent.Some? ==> t[id].parent.value < id)
  }

  /** A login's token starts its lineage; any other continues the lineage and
      user of the revoked token it replaced. */
  ghost predicate Descends(t: Tokens, id: Id)
    requires id in t
  {
    var r := t[id];
    && (r.parent == None <==> r.lineage == id)
    && r.lineage in t && t[r.lineage].lineage == r.lineage && t[r.lineage].user == r.user
    && (r.parent.Some? ==>
          var q := r.parent.value;
          q in t && t[q].revokedAt.Some? && t[q].lineage == r.lineage && t[q].user == r.user)
  }

  ghost predicate Families(t: Tokens) {
    forall id {:trigger Descends(t, id)} :: id in t ==> Descends(t, id)
  }

  ghost predicate OneChild(t: Tokens) {
    forall x, y :: x in t && y in t && t[x].parent.Some? && t[x].parent == t[y].parent ==> x == y
  }

  ghost predicate Rows(t: Tokens, next: Id) { Keyed(t, next) && Families(t) && OneChild(t) }

  /** A held token is revoked and has no successor yet. */
  ghost predicate Held(t: Tokens, h: map<Id, Id>) {
    && (forall p :: p in h ==> h[p] in t && t[h[p]].revokedAt.Some?)
    && (forall x, p :: x in t && p in h ==> t[x].parent != Some(h[p]))
  }

  ghost predicate OneLive(t: Tokens) {
    forall x, y :: Live(t, x) && Live(t, y) && t[x].lineage == t[y].lineage ==> x == y
  }

  predicate HeldIn(t: Tokens, h: map<Id, Id>, p: Id, lineage: Id) {
    p in h && h[p] in t && t[h[p]].lineage == lineage
  }

  ghost predicate OneHolder(t: Tokens, h: map<Id, Id>) {
    forall p, q, l :: HeldIn(t, h, p, l) && HeldIn(t, h, q, l) ==> p == q
  }

  ghost predicate LiveOrHeld(t: Tokens, h: map<Id, Id>) {
    forall x, p, l :: Live(t, x) && t[x].lineage == l && HeldIn(t, h, p, l) ==> false
  }

  /** A lineage has one unrevoked token, or one holder, or neither. */
  ghost predicate Exclusive(t: Tokens, h: map<Id, Id>) {
    Held(t, h) && OneLive(t) && OneHolder(t, h) && LiveOrHeld(t, h)
  }

  ghost predicate Sound(s: State) { Rows(s.tokens, s.next) && Exclusive(s.tokens, Holders(s.procs)) }

  /** Rows are only revoked, and never twice. */
  ghost predicate OnlyRevokes(t: Tokens, t': Tokens) {
    && t'.Keys == t.Keys
    && forall id :: id in t ==>
      t'[id] == t[id].(revokedAt := t'[id].revokedAt) && (t[id].revokedAt.Some? ==> t'[id] == t[id])
  }

  lemma RevokeRows(t: Tokens, t': Tokens, next: Id)
    requires Rows(t, next) && OnlyRevokes(t, t')
    ensures Rows(t', next)
  {
    forall id | id in t' ensures Descends(t', id) {
      assert Descends(t, id);
    }
  }

  lemma RevokeExclusive(t: Tokens, t': Tokens, h: map<Id, Id>)
    requires Exclusive(t, h) && OnlyRevokes(t, t')
    ensures Exclusive(t', h)
  {
    forall p, l | HeldIn(t', h, p, l) ensures HeldIn(t, h, p, l) {
    }
    forall x | Live(t', x) ensures Live(t, x) {
    }
  }

  lemma WonExclusive(t: Tokens, h: map<Id, Id>, p: Id, token: Id, now: nat)
    requires OneChild(t) && Families(t) && Exclusive(t, h) && Live(t, token) && p !in h
    ensures Exclusive(Revoke(t, token, now), h[p := token])
  {
    var t', h' := Revoke(t, token, now), h[p := token];
    forall x | Live(t', x) ensures Live(t, x) && x != token {
    }
    forall q, l | HeldIn(t', h', q, l) ensures if q == p then l == t[token].lineage else HeldIn(t, h, q, l) {
    }
    forall x | x in t' ensures t'[x].parent != Some(token) {
      assert Descends(t, x);
    }
  }

  lemma DroppedExclusive(t: Tokens, h: map<Id, Id>, p: Id)
    requires Exclusive(t, h)
    ensures Exclusive(t, h - {p})
  {
    forall q, l | HeldIn(t, h - {p}, q, l) ensures HeldIn(t, h, q, l) {
    }
  }

  lemma RootedRows(t: Tokens, next: Id, user: Id, expiresAt: nat)
    requires Rows(t, next)
    ensures Rows(t[next := Token(user, next, None, expiresAt, None)], next + 1)
  {
    var t' := t[next := Token(user, next, None, expiresAt, None)];
    forall id | id in t' ensures Descends(t', id) {
      if id != next {
        assert Descends(t, id);
      }
    }
  }

  lemma RootedExclusive(t: Tokens, h: map<Id, Id>, next: Id, user: Id, expiresAt: nat)
    requires Keyed(t, next) && Exclusive(t, h)
    ensures Exclusive(t[next := Token(user, next, None, expiresAt, None)], h)
  {
    var t' := t[next := Token(user, next, None, expiresAt, None)];
    forall x | Live(t', x) ensures if x == next then true else Live(t, x) {
    }
    forall p, l: Id | HeldIn(t', h, p, l) ensures HeldIn(t, h, p, l) && l < next {
    }
  }

  lemma SucceededRows(t: Tokens, h: map<Id, Id>, next: Id, p: Id, expiresAt: nat)
    requires Rows(t, next) && Held(t, h) && p in h
    ensures Rows(t[next := Token(t[h[p]].user, t[h[p]].lineage, Some(h[p]), expiresAt, None)], next + 1)
  {
    var t' := t[next := Token(t[h[p]].user, t[h[p]].lineage, Some(h[p]), expiresAt, None)];
    forall id | id in t' ensures Descends(t', id) {
      assert Descends(t, if id == next then h[p] else id);
    }
  }

  lemma SucceededExclusive(t: Tokens, h: map<Id, Id>, next: Id, p: Id, expiresAt: nat)
    requires Keyed(t, next) && Exclusive(t, h) && p in h
    ensures Exclusive(t[next := Token(t[h[p]].user, t[h[p]].lineage, Some(h[p]), expiresAt, None)], h - {p})
  {
    var l0 := t[h[p]].lineage;
    var t' := t[next := Token(t[h[p]].user, l0, Some(h[p]), expiresAt, None)];
    assert HeldIn(t, h, p, l0);
    forall x | Live(t', x) ensures if x == next then t'[x].lineage == l0 else Live(t, x) && t[x].lineage != l0 {
    }
    forall q, l | HeldIn(t', h - {p}, q, l) ensures HeldIn(t, h, q, l) && l != l0 {
      assert HeldIn(t, h, q, l);
    }
    forall q | q in h - {p} ensures h[q] != h[p] {
      assert HeldIn(t, h, q, t[h[q]].lineage);
    }
  }

  lemma KeyedLater(t: Tokens, next: Id, later: Id)
    requires Rows(t, next) && next <= later
    ensures Rows(t, later)
  {
  }

  lemma EffectSound(t: Tokens, h: map<Id, Id>, now: nat, next: Id, e: Effect)
    requires Rows(t, next) && Exclusive(t, h) && Allowed(t, h, e)
    ensures Rows(TokensAfter(t, now, next, e), if e.Rooted? || e.Succeeded? then next + 1 else next)
    ensures Exclusive(TokensAfter(t, now, next, e), HoldersAfter(h, e))
  {
    match e
    case Same =>
    case Dropped(p) => DroppedExclusive(t, h, p);
    case Won(p, token) =>
      RevokeRows(t, Revoke(t, token, now), next);
      WonExclusive(t, h, p, token, now);
    case Rooted(p, user, expiresAt) =>
      RootedRows(t, next, user, expiresAt);
      RootedExclusive(t, h, next, user, expiresAt);
    case Succeeded(p, token, expiresAt) =>
      SucceededRows(t, h, next, p, expiresAt);
      SucceededExclusive(t, h, next, p, expiresAt);
    case RevokedOne(token) =>
      RevokeRows(t, Revoke(t, token, now), next);
      RevokeExclusive(t, Revoke(t, token, now), h);
    case RevokedUser(_, user) =>
      RevokeRows(t, RevokeUser(t, user, now), next);
      RevokeExclusive(t, RevokeUser(t, user, now), h);
  }

  lemma StepSound(s: State, a: Action)
    requires Sound(s)
    ensures Sound(Step(s, a))
  {
    StepEffect(s, a);
    var e := EffectOf(s, a);
    EffectSound(s.tokens, Holders(s.procs), s.now, s.next, e);
    KeyedLater(Step(s, a).tokens, if e.Rooted? || e.Succeeded? then s.next + 1 else s.next, Step(s, a).next);
  }

  lemma {:induction false} RunSound(s: State, run: seq<Action>)
    requires Sound(s)
    ensures Sound(After(s, run))
  {
    if run != [] {
      RunSound(s, run[..|run| - 1]);
      StepSound(After(s, run[..|run| - 1]), run[|run| - 1]);
    }
  }

  ghost function LiveIn(s: State, lineage: Id): set<Id> {
    set t | t in s.tokens && s.tokens[t].lineage == lineage && s.tokens[t].revokedAt == None
  }

  ghost function HoldersIn(s: State, lineage: Id): set<Id> {
    set p | p in s.procs && s.procs[p].Holding? && s.procs[p].token in s.tokens
      && s.tokens[s.procs[p].token].lineage == lineage
  }

  lemma AtMostOne(a: set<Id>)
    requires forall x, y :: x in a && y in a ==> x == y
    ensures |a| <= 1
  {
    if a != {} {
      var x :| x in a;
      assert a == {x};
    }
  }

  lemma OneHeldOrLive(s: State, lineage: Id)
    requires Sound(s)
    ensures forall x, y :: x in LiveIn(s, lineage) && y in LiveIn(s, lineage) ==> x == y
    ensures forall p, q :: p in HoldersIn(s, lineage) && q in HoldersIn(s, lineage) ==> p == q
    ensures LiveIn(s, lineage) == {} || HoldersIn(s, lineage) == {}
  {
    var h := Holders(s.procs);
    forall p | p in HoldersIn(s, lineage) ensures HeldIn(s.tokens, h, p, lineage) {
      assert p in h && h[p] == s.procs[p].token;
    }
    forall x | x in LiveIn(s, lineage) ensures Live(s.tokens, x) && s.tokens[x].lineage == lineage {
    }
  }

  /** Under every interleaving, in every reachable state, a login lineage has in
      all at most one unrevoked token or one rotation in flight. */
  lemma OneSessionPerLineage(run: seq<Action>, lineage: Id)
    ensures |LiveIn(After(Empty, run), lineage)| + |HoldersIn(After(Empty, run), lineage)| <= 1
  {
    RunSound(Empty, run);
    var s := After(Empty, run);
    OneHeldOrLive(s, lineage);
    AtMostOne(LiveIn(s, lineage));
    AtMostOne(HoldersIn(s, lineage));
  }

  lemma OneChildOf(t: Tokens, next: Id, q: Id, x: Id, y: Id)
    requires Rows(t, next) && x in t && y in t && t[x].parent == Some(q) && t[y].parent == Some(q)
    ensures x == y && q in t && t[q].revokedAt.Some? && t[q].lineage == t[x].lineage
  {
    assert Descends(t, x);
  }

  /** Every token is replaced by at most one other, and only once it is revoked. */
  lemma OneSuccessor(run: seq<Action>, q: Id, x: Id, y: Id)
    requires var t := After(Empty, run).tokens;
      x in t && y in t && t[x].parent == Some(q) && t[y].parent == Some(q)
    ensures var t := After(Empty, run).tokens;
      x == y && q in t && t[q].revokedAt.Some? && t[q].lineage == t[x].lineage
  {
    RunSound(Empty, run);
    var s := After(Empty, run);
    OneChildOf(s.tokens, s.next, q, x, y);
  }

  /** A row is never deleted, changes only by being revoked, and once revoked
      never again: revokedAt is neither cleared nor rewritten. */
  ghost predicate RevokedForGood(t: Tokens, t': Tokens) {
    forall id :: id in t ==>
      id in t' && t'[id] == t[id].(revokedAt := t'[id].revokedAt) && (t[id].revokedAt.Some? ==> t'[id] == t[id])
  }

  lemma EffectRevokes(t: Tokens, now: nat, next: Id, e: Effect)
    requires next !in t
    ensures RevokedForGood(t, TokensAfter(t, now, next, e))
  {
  }

  lemma StepRevokes(s: State, a: Action)
    requires Keyed(s.tokens, s.next)
    ensures RevokedForGood(s.tokens, Step(s, a).tokens)
  {
    StepEffect(s, a);
    EffectRevokes(s.tokens, s.now, s.next, EffectOf(s, a));
  }

  lemma RevokedTrans(t: Tokens, t': Tokens, t'': Tokens)
    requires RevokedForGood(t, t') && RevokedForGood(t', t'')
    ensures RevokedForGood(t, t'')
  {
  }

  lemma {:induction false} RevocationIsFinal(s: State, run: seq<Action>)
    requires Sound(s)
    ensures RevokedForGood(s.tokens, After(s, run).tokens)
  {
    if run != [] {
      RevocationIsFinal(s, run[..|run| - 1]);
      RunSound(s, run[..|run| - 1]);
      StepRevokes(After(s, run[..|run| - 1]), run[|run| - 1]);
      RevokedTrans(s.tokens, After(s, run[..|run| - 1]).tokens, After(s, run).tokens);
    }
  }

  // ------------------------------------------------------------ password reset

  /** Every token the user has when the bulk revoke runs is dead from then on. */
  lemma ResetKillsTokens(s: State, p: Id, run: seq<Action>, t: Id)
    requires Sound(s) && p in s.procs && s.procs[p].PasswordSaved?
    requires t in s.tokens && s.tokens[t].user == s.procs[p].user
    ensures t in After(Step(s, RevokeAll(p)), run).tokens && !Live(After(Step(s, RevokeAll(p)), run).tokens, t)
  {
    var s' := Step(s, RevokeAll(p));
    StepSound(s, RevokeAll(p));
    assert t in s'.tokens && s'.tokens[t].revokedAt.Some?;
    RevocationIsFinal(s', run);
  }

  /** The lineage has no unrevoked token and no rotation in flight. */
  ghost predicate Ended(t: Tokens, h: map<Id, Id>, lineage: Id) {
    && (forall x :: Live(t, x) ==> t[x].lineage != lineage)
    && (forall p :: !HeldIn(t, h, p, lineage))
  }

  lemma EffectEnded(t: Tokens, h: map<Id, Id>, now: nat, next: Id, e: Effect, lineage: Id)
    requires next !in t && lineage in t && Held(t, h) && Allowed(t, h, e) && Ended(t, h, lineage)
    ensures lineage in TokensAfter(t, now, next, e) && Ended(TokensAfter(t, now, next, e), HoldersAfter(h, e), lineage)
  {
    var t', h' := TokensAfter(t, now, next, e), HoldersAfter(h, e);
    assert e.Succeeded? ==> HeldIn(t, h, e.p, t[h[e.p]].lineage);
    forall x | Live(t', x) ensures t'[x].lineage != lineage {
      assert x == next || Live(t, x);
    }
    forall p ensures !HeldIn(t', h', p, lineage) {
      assert !HeldIn(t, h, p, lineage);
    }
  }

  lemma {:induction false} EndedForGood(s: State, run: seq<Action>, lineage: Id)
    requires Sound(s) && lineage in s.tokens && Ended(s.tokens, Holders(s.procs), lineage)
    ensures lineage in After(s, run).tokens && Ended(After(s, run).tokens, Holders(After(s, run).procs), lineage)
  {
    if run != [] {
      var mid, a := After(s, run[..|run| - 1]), run[|run| - 1];
      EndedForGood(s, run[..|run| - 1], lineage);
      RunSound(s, run[..|run| - 1]);
      StepEffect(mid, a);
      EffectEnded(mid.tokens, Holders(mid.procs), mid.now, mid.next, EffectOf(mid, a), lineage);
    }
  }

  ghost predicate LiveLater(s: State, run: seq<Action>, lineage: Id) {
    exists t :: Live(After(s, run).tokens, t) && After(s, run).tokens[t].lineage == lineage
  }

  /** A process between its claim and its issue, for a token of this lineage. */
  ghost predicate Rotating(s: State, lineage: Id) {
    exists p :: p in s.procs && HolderOf(s, p, lineage)
  }

  predicate HolderOf(s: State, p: Id, lineage: Id)
    requires p in s.procs
  {
    s.procs[p].Holding? && s.procs[p].token in s.tokens && s.tokens[s.procs[p].token].lineage == lineage
  }

  lemma AfterThree(s: State, a: Action, b: Action, c: Action)
    ensures After(s, [a, b, c]) == Step(Step(Step(s, a), b), c)
  {
    var one, two, three := [a], [a, b], [a, b, c];
    assert three[..|three| - 1] == two && two[..|two| - 1] == one && one[..|one| - 1] == [];
    assert After(s, one) == Step(s, a);
    assert After(s, two) == Step(After(s, one), b);
    assert After(s, three) == Step(After(s, two), c);
  }

  /** A rotation in flight can still issue its token. */
  lemma HolderCanIssue(s: State, p: Id, lineage: Id) returns (run: seq<Action>)
    requires p in s.procs && HolderOf(s, p, lineage)
    ensures LiveLater(s, run, lineage)
    ensures forall a :: a in run ==> !a.Login?
    ensures Live(After(s, run).tokens, s.next) && After(s, run).tokens[s.next].user == s.tokens[s.procs[p].token].user
  {
    var h := s.procs[p];
    var user := s.tokens[h.token].user;
    var a := Members({(user, if h.org.Some? then h.org.value else 0)});
    run := [a, Resolve(p), Issue(p, 0)];
    AfterThree(s, a, Resolve(p), Issue(p, 0));
    var s2 := Step(Step(s, a), Resolve(p));
    assert p in s2.procs && s2.procs[p] == h.(cleared := true) && s2.tokens == s.tokens && s2.next == s.next;
    assert Live(Step(s2, Issue(p, 0)).tokens, s.next);
  }

  lemma RevokeAllLeaves(s: State, p: Id, lineage: Id)
    requires p in s.procs && s.procs[p].PasswordSaved?
    ensures Rotating(Step(s, RevokeAll(p)), lineage) <==> Rotating(s, lineage)
  {
    var s' := Step(s, RevokeAll(p));
    assert forall q :: q in s.procs && q != p ==> q in s'.procs && s'.procs[q] == s.procs[q];
    if Rotating(s, lineage) {
      var q :| q in s.procs && HolderOf(s, q, lineage);
      assert q in s'.procs && HolderOf(s', q, lineage);
    }
  }

  /** Whether a reset ends a session for good: a lineage of the user never has an
      unrevoked token again, in any continuation, if and only if none of its
      rotations was between its claim and its issue when the bulk revoke ran. */
  lemma ResetEndsLineage(s: State, p: Id, lineage: Id)
    requires Sound(s) && p in s.procs && s.procs[p].PasswordSaved?
    requires lineage in s.tokens && s.tokens[lineage].lineage == lineage && s.tokens[lineage].user == s.procs[p].user
    ensures (forall run :: !LiveLater(Step(s, RevokeAll(p)), run, lineage)) <==> !Rotating(s, lineage)
  {
    var s' := Step(s, RevokeAll(p));
    StepSound(s, RevokeAll(p));
    RevokeAllLeaves(s, p, lineage);
    if Rotating(s', lineage) {
      var q :| q in s'.procs && HolderOf(s', q, lineage);
      var run := HolderCanIssue(s', q, lineage);
      assert LiveLater(s', run, lineage);
    } else {
      RevokeAllEnds(s, p, lineage);
      forall run ensures !LiveLater(s', run, lineage) {
        EndedForGood(s', run, lineage);
      }
    }
  }

  lemma RevokeAllEnds(s: State, p: Id, lineage: Id)
    requires Sound(s) && p in s.procs && s.procs[p].PasswordSaved?
    requires lineage in s.tokens && s.tokens[lineage].user == s.procs[p].user
    requires !Rotating(Step(s, RevokeAll(p)), lineage)
    ensures Ended(Step(s, RevokeAll(p)).tokens, Holders(Step(s, RevokeAll(p)).procs), lineage)
  {
    var s' := Step(s, RevokeAll(p));
    var h' := Holders(s'.procs);
    forall x | Live(s'.tokens, x) ensures s'.tokens[x].lineage != lineage {
      assert Descends(s.tokens, x);
    }
    forall q ensures !HeldIn(s'.tokens, h', q, lineage) {
      assert q in s'.procs ==> !HolderOf(s', q, lineage);
    }
  }

  // ------------------------------------------------------- the user's sessions

  ghost predicate UserLive(s: State, user: Id) {
    exists t :: Live(s.tokens, t) && s.tokens[t].user == user
  }

  /** The process may still issue a token to the user: its login passed the
      password check, or it holds a claimed token of the user's. */
  predicate IssuesFor(s: State, p: Id, user: Id)
    requires p in s.procs
  {
    var q := s.procs[p];
    q == LoggedIn(user) || (q.Holding? && q.token in s.tokens && s.tokens[q.token].user == user)
  }

  ghost predicate Issuing(s: State, user: Id) { exists p :: p in s.procs && IssuesFor(s, p, user) }

  /** No login of this user starts along the run. */
  predicate NoLogin(run: seq<Action>, user: Id) { forall a :: a in run ==> !(a.Login? && a.user == user) }

  ghost predicate LoggedOut(s: State, user: Id) { !UserLive(s, user) && !Issuing(s, user) }

  /** Only a login makes a process that has passed the password check, and only a
      winning claim one that holds a token. */
  lemma IssuerBefore(s: State, a: Action, p: Id)
    requires p in Step(s, a).procs
    ensures var q := Step(s, a).procs[p];
      && (q.LoggedIn? ==> (p in s.procs && s.procs[p] == q) || (a.Login? && a.user == q.user))
      && (q.Holding? ==>
            && p in s.procs
            && (s.procs[p].Holding? || (s.procs[p].Found? && Live(s.tokens, q.token)))
            && s.procs[p].token == q.token)
  {
  }

  lemma HeldToken(s: State, p: Id)
    requires Sound(s) && p in s.procs && s.procs[p].Holding?
    ensures s.procs[p].token in s.tokens
  {
    assert p in Holders(s.procs);
  }

  lemma StepIssuing(s: State, a: Action, user: Id)
    requires Sound(s) && LoggedOut(s, user) && !(a.Login? && a.user == user)
    ensures !Issuing(Step(s, a), user)
  {
    var s' := Step(s, a);
    StepRevokes(s, a);
    forall p | p in s'.procs ensures !IssuesFor(s', p, user) {
      IssuerBefore(s, a, p);
      if s'.procs[p].Holding? {
        var t := s'.procs[p].token;
        assert Live(s.tokens, t) ==> s.tokens[t].user != user;
        if s.procs[p].Holding? {
          HeldToken(s, p);
        }
      }
      assert p in s.procs ==> !IssuesFor(s, p, user);
    }
  }

  lemma StepLoggedOut(s: State, a: Action, user: Id)
    requires Sound(s) && LoggedOut(s, user) && !(a.Login? && a.user == user)
    ensures LoggedOut(Step(s, a), user)
  {
    StepIssuing(s, a, user);
    var s' := Step(s, a);
    StepEffect(s, a);
    StepRevokes(s, a);
    forall t | Live(s'.tokens, t) ensures s'.tokens[t].user != user {
      if t in s.tokens {
        assert Live(s.tokens, t);
      } else {
        assert a.Issue? && a.p in s.procs && !IssuesFor(s, a.p, user);
      }
    }
  }

  lemma {:induction false} StaysLoggedOut(s: State, run: seq<Action>, user: Id)
    requires Sound(s) && LoggedOut(s, user) && NoLogin(run, user)
    ensures LoggedOut(After(s, run), user)
  {
    if run != [] {
      var init := run[..|run| - 1];
      StaysLoggedOut(s, init, user);
      RunSound(s, init);
      assert run[|run| - 1] in run;
      StepLoggedOut(After(s, init), run[|run| - 1], user);
    }
  }

  lemma IssuerCanIssue(s: State, p: Id, user: Id) returns (run: seq<Action>)
    requires p in s.procs && IssuesFor(s, p, user)
    ensures NoLogin(run, user) && UserLive(After(s, run), user)
  {
    if s.procs[p].LoggedIn? {
      run := [Issue(p, 0)];
      assert run[..0] == [];
      assert After(s, run) == Step(s, Issue(p, 0));
      assert Live(After(s, run).tokens, s.next);
    } else {
      run := HolderCanIssue(s, p, s.tokens[s.procs[p].token].lineage);
    }
  }

  lemma RevokeAllUser(s: State, p: Id, user: Id)
    requires p in s.procs && s.procs[p] == PasswordSaved(user)
    ensures !UserLive(Step(s, RevokeAll(p)), user)
    ensures Issuing(Step(s, RevokeAll(p)), user) <==> Issuing(s, user)
  {
    var s' := Step(s, RevokeAll(p));
    forall q | q in s.procs && q != p
      ensures q in s'.procs && (IssuesFor(s', q, user) <==> IssuesFor(s, q, user))
    {
    }
    assert !IssuesFor(s, p, user);
  }

  /** Whether a reset forces the user to log in again everywhere: until the user's
      next login the user never has an unrevoked token, in any continuation, if
      and only if at the bulk revoke no login of theirs had passed its password
      check and no rotation of theirs was between its claim and its issue. */
  lemma ResetForcesLogin(s: State, p: Id, user: Id)
    requires Sound(s) && p in s.procs && s.procs[p] == PasswordSaved(user)
    ensures (forall run :: NoLogin(run, user) ==> !UserLive(After(Step(s, RevokeAll(p)), run), user)) <==>
      !Issuing(s, user)
  {
    var s' := Step(s, RevokeAll(p));
    RevokeAllUser(s, p, user);
    StepSound(s, RevokeAll(p));
    if Issuing(s', user) {
      var q :| q in s'.procs && IssuesFor(s', q, user);
      var run := IssuerCanIssue(s', q, user);
      assert NoLogin(run, user) && UserLive(After(s', run), user);
    } else {
      forall run | NoLogin(run, user) ensures !UserLive(After(s', run), user) {
        StaysLoggedOut(s', run, user);
      }
    }
  }

  // -------------------------------------------------------- one-time tickets

  predicate Spent(tickets: map<Id, Ticket>, ticket: Id) { ticket in tickets && tickets[ticket].usedAt.Some? }

  /** A process only ever acts on a ticket of the purpose it asked for, and only
      wins it by spending it. */
  predicate TicketOk(tickets: map<Id, Ticket>, q: Process) {
    && (q.TicketFound? ==> q.ticket in tickets && tickets[q.ticket].purpose == q.purpose)
    && (q.TicketWon? ==> Spent(tickets, q.ticket) && tickets[q.ticket].purpose == q.purpose)
  }

  predicate WonBy(procs: Processes, p: Id, ticket: Id) {
    p in procs && procs[p].TicketWon? && procs[p].ticket == ticket
  }

  ghost predicate Affected(effects: seq<(Id, Purpose)>, ticket: Id) {
    exists i :: 0 <= i < |effects| && effects[i].0 == ticket
  }

  /** Each ticket has one winner, or one effect, or neither; every effect is the
      one its ticket's purpose names. */
  ghost predicate TicketsSound(tickets: map<Id, Ticket>, procs: Processes, effects: seq<(Id, Purpose)>) {
    && (forall i, j :: 0 <= i < j < |effects| ==> effects[i].0 != effects[j].0)
    && (forall i :: 0 <= i < |effects| ==>
      Spent(tickets, effects[i].0) && tickets[effects[i].0].purpose == effects[i].1)
    && (forall p :: p in procs ==> TicketOk(tickets, procs[p]))
    && (forall p, q, k :: WonBy(procs, p, k) && WonBy(procs, q, k) ==> p == q)
    && (forall p, k :: WonBy(procs, p, k) ==> !Affected(effects, k))
  }

  lemma PutTickets(tickets: map<Id, Ticket>, procs: Processes, effects: seq<(Id, Purpose)>, p: Id, q: Process)
    requires TicketsSound(tickets, procs, effects) && TicketOk(tickets, q) && !q.TicketWon?
    ensures TicketsSound(tickets, procs[p := q], effects)
  {
    var procs' := procs[p := q];
    forall r, k | WonBy(procs', r, k) ensures WonBy(procs, r, k) {
    }
    forall r | r in procs' ensures TicketOk(tickets, procs'[r]) {
    }
    assert forall r, k :: WonBy(procs', r, k) ==> !Affected(effects, k);
    assert forall x, y, k :: WonBy(procs', x, k) && WonBy(procs', y, k) ==> x == y;
  }

  lemma EndTickets(tickets: map<Id, Ticket>, procs: Processes, effects: seq<(Id, Purpose)>, p: Id)
    requires TicketsSound(tickets, procs, effects)
    ensures TicketsSound(tickets, procs - {p}, effects)
  {
    forall r, k | WonBy(procs - {p}, r, k) ensures WonBy(procs, r, k) {
    }
  }

  lemma AddTicket(tickets: map<Id, Ticket>, procs: Processes, effects: seq<(Id, Purpose)>, k: Id, ticket: Ticket)
    requires TicketsSound(tickets, procs, effects) && k !in tickets
    ensures TicketsSound(tickets[k := ticket], procs, effects)
  {
  }

  lemma SpendTicket(tickets: map<Id, Ticket>, procs: Processes, effects: seq<(Id, Purpose)>, p: Id, now: nat)
    requires TicketsSound(tickets, procs, effects) && p in procs && procs[p].TicketFound?
      && tickets[procs[p].ticket].usedAt == None
    ensures TicketsSound(tickets[procs[p].ticket := tickets[procs[p].ticket].(usedAt := Some(now))],
                         procs[p := TicketWon(procs[p].ticket, procs[p].purpose, procs[p].password)], effects)
  {
    var k0 := procs[p].ticket;
    var procs' := procs[p := TicketWon(k0, procs[p].purpose, procs[p].password)];
    var tickets' := tickets[k0 := tickets[k0].(usedAt := Some(now))];
    forall i | 0 <= i < |effects| ensures effects[i].0 != k0 {
      assert Spent(tickets, effects[i].0);
    }
    forall r, k | WonBy(procs', r, k) ensures if r == p then k == k0 else WonBy(procs, r, k) && k != k0 {
      assert r != p ==> TicketOk(tickets, procs[r]);
    }
    forall r, k | WonBy(procs', r, k) ensures !Affected(effects, k) {
      assert r != p ==> WonBy(procs, r, k);
    }
    forall r | r in procs' ensures TicketOk(tickets', procs'[r]) {
      assert TicketOk(tickets, procs[r]);
    }
  }

  lemma ApplyTicket(tickets: map<Id, Ticket>, procs: Processes, effects: seq<(Id, Purpose)>, p: Id)
    requires TicketsSound(tickets, procs, effects) && p in procs && procs[p].TicketWon?
    ensures TicketsSound(tickets, procs - {p}, effects + [(procs[p].ticket, procs[p].purpose)])
  {
    var k0 := procs[p].ticket;
    var effects' := effects + [(k0, procs[p].purpose)];
    assert WonBy(procs, p, k0) && TicketOk(tickets, procs[p]);
    forall r, k | WonBy(procs - {p}, r, k) ensures WonBy(procs, r, k) && k != k0 {
      assert WonBy(procs, r, k);
    }
    forall r, k | WonBy(procs - {p}, r, k) ensures !Affected(effects', k) {
      assert WonBy(procs, r, k) && !Affected(effects, k);
    }
    forall i | 0 <= i < |effects| ensures effects[i].0 != k0 {
      assert !Affected(effects, k0);
    }
  }

  /** Keys are in use, and every ticket is an existing user's. */
  ghost predicate TicketsKeyed(s: State) {
    forall k :: k in s.tickets ==> k < s.next && s.tickets[k].user in s.users
  }

  lemma PlainProcs(s: State, a: Action)
    requires a.Tick? || a.Members? || a.Logout?
    ensures Step(s, a) == s.(now := Step(s, a).now, members := Step(s, a).members, tokens := Step(s, a).tokens)
  {
  }

  predicate Neutral(s: State, s': State, p: Id) {
    && s'.users == s.users && s'.tickets == s.tickets && s'.effects == s.effects && s.next <= s'.next
    && (s'.procs == s.procs || s'.procs == s.procs - {p}
        || (p in s'.procs && s'.procs == s.procs[p := s'.procs[p]] && !s'.procs[p].TicketWon?
          && !s'.procs[p].TicketFound?))
  }

  lemma OtherProcs(s: State, a: Action)
    requires a.Login? || a.Find? || a.Claim? || a.Resolve? || a.Issue? || a.RevokeAll? || a.Stop?
    ensures Neutral(s, Step(s, a), a.p)
  {
  }

  ghost predicate AllTickets(s: State) { TicketsSound(s.tickets, s.procs, s.effects) && TicketsKeyed(s) }

  lemma NeutralTickets(s: State, s': State, p: Id)
    requires AllTickets(s) && Neutral(s, s', p)
    ensures AllTickets(s')
  {
    if s'.procs == s.procs - {p} {
      EndTickets(s.tickets, s.procs, s.effects, p);
    } else if s'.procs != s.procs {
      PutTickets(s.tickets, s.procs, s.effects, p, s'.procs[p]);
    }
  }

  lemma FindTicketSound(s: State, p: Id, ticket: Id, purpose: Purpose, password: nat)
    requires AllTickets(s)
    ensures AllTickets(Step(s, FindTicket(p, ticket, purpose, password)))
  {
    if p !in s.procs && ValidTicket(s, ticket, purpose) {
      PutTickets(s.tickets, s.procs, s.effects, p, TicketFound(ticket, purpose, password));
    }
  }

  lemma ClaimTicketSound(s: State, p: Id)
    requires AllTickets(s)
    ensures AllTickets(Step(s, ClaimTicket(p)))
  {
    if p in s.procs && s.procs[p].TicketFound? {
      assert TicketOk(s.tickets, s.procs[p]);
      if s.tickets[s.procs[p].ticket].usedAt == None {
        SpendTicket(s.tickets, s.procs, s.effects, p, s.now);
      } else {
        EndTickets(s.tickets, s.procs, s.effects, p);
      }
    }
  }

  lemma ApplySound(s: State, p: Id)
    requires AllTickets(s)
    ensures AllTickets(Step(s, Apply(p)))
  {
    var s' := Step(s, Apply(p));
    if p in s.procs && s.procs[p].TicketWon? && s'.effects != s.effects {
      ApplyTicket(s.tickets, s.procs, s.effects, p);
      if p in s'.procs {
        PutTickets(s.tickets, s.procs - {p}, s'.effects, p, s'.procs[p]);
        assert s'.procs == (s.procs - {p})[p := s'.procs[p]];
      }
    } else {
      assert s' == s;
    }
  }

  lemma StepTickets(s: State, a: Action)
    requires AllTickets(s)
    ensures AllTickets(Step(s, a))
  {
    match a
    case Register(password, ttl) =>
      AddTicket(s.tickets, s.procs, s.effects, s.next + 1, Ticket(s.next, EmailVerification, s.now + ttl, None));
    case Forgot(user, ttl) =>
      AddTicket(s.tickets, s.procs, s.effects, s.next, Ticket(user, PasswordReset, s.now + ttl, None));
    case FindTicket(p, ticket, purpose, password) => FindTicketSound(s, p, ticket, purpose, password);
    case ClaimTicket(p) => ClaimTicketSound(s, p);
    case Apply(p) => ApplySound(s, p);
    case Tick(_) => PlainProcs(s, a);
    case Members(_) => PlainProcs(s, a);
    case Logout(_) => PlainProcs(s, a);
    case _ =>
      OtherProcs(s, a);
      NeutralTickets(s, Step(s, a), a.p);
  }

  /** Under every interleaving each verification token has at most one effect,
      and it is the one its purpose names. */
  lemma {:induction false} TicketsWorkOnce(run: seq<Action>)
    ensures AllTickets(After(Empty, run))
  {
    if run != [] {
      TicketsWorkOnce(run[..|run| - 1]);
      StepTickets(After(Empty, run[..|run| - 1]), run[|run| - 1]);
    }
  }
}
