/** Organizations, memberships and invitations. Requests are atomic, except that
    accepting an invitation reads it first and claims it in a later transaction:
    any number of acceptances are in progress at once, interleaved with every
    other request and with the clock. */
module Organizations {
  import opened Common

  datatype Role = CompanyOwner | Recruiter | HiringManager | Interviewer | HrManager | Candidate | SuperAdmin

  /** A UserOrganizationRole row. */
  datatype Grant = Grant(user: Id, org: Id, role: Role)

  datatype Invitation = Invitation(org: Id, email: string, role: Role, expiresAt: nat, acceptedAt: Option<nat>)

  /** An organization.approved or organization.rejected audit entry. */
  datatype Audit = Audit(actor: Id, org: Id, approved: bool, reason: Option<string>)

  /** pending holds the acceptances between their read and their transaction, by
      process; committed lists the invitations whose transaction committed. */
  datatype Db = Db(
    orgs: map<Id, OrgStatus>, users: map<string, Id>, grants: map<Id, Grant>,
    invitations: map<Id, Invitation>, pending: map<Id, Id>, committed: seq<Id>,
    audit: seq<Audit>, now: nat, next: Id)

  const Empty := Db(map[], map[], map[], map[], map[], [], [], 0, 0)

  // ----------------------------------------------------------- organizations

  ghost function Register(db: Db, email: string): (Db, Result<Id>) {
    if email in db.users then (db, Err(Conflict)) else
      var user, org, row := db.next, db.next + 1, db.next + 2;
      (db.(users := db.users[email := user], orgs := db.orgs[org := PendingApproval],
           grants := db.grants[row := Grant(user, org, CompanyOwner)], next := db.next + 3),
       Ok(org))
  }

  datatype Verdict = Approve | Reject(reason: string)

  ghost function Review(db: Db, org: Id, actor: Id, v: Verdict): (Db, Result<Id>) {
    if org !in db.orgs then (db, Err(NotFound))
    else if db.orgs[org] != PendingApproval then (db, Err(Conflict))
    else
      (db.(orgs := db.orgs[org := if v.Approve? then Active else Rejected],
           audit := db.audit + [Audit(actor, org, v.Approve?, if v.Approve? then None else Some(v.reason))]),
       Ok(org))
  }

  /** A candidate account, as the authentication service registers it. */
  ghost function RegisterUser(db: Db, email: string): (Db, Result<Id>) {
    if email in db.users then (db, Err(Conflict))
    else (db.(users := db.users[email := db.next], next := db.next + 1), Ok(db.next))
  }

  ghost function OwnerRows(grants: map<Id, Grant>, org: Id): set<Id> {
    set g | g in grants && grants[g].org == org && grants[g].role == CompanyOwner
  }

  ghost function RowsOf(grants: map<Id, Grant>, org: Id, user: Id): set<Id> {
    set g | g in grants && grants[g].org == org && grants[g].user == user
  }

  ghost function RemoveMember(db: Db, org: Id, actor: Id, target: Id): (Db, Result<Id>) {
    if org !in db.orgs then (db, Err(NotFound))
    else if target == actor then (db, Err(Conflict))
    else
      var rows := RowsOf(db.grants, org, target);
      if rows == {} then (db, Err(NotFound))
      else if (exists g :: g in rows && db.grants[g].role == CompanyOwner)
        && |OwnerRows(db.grants, org)| <= 1 then (db, Err(Conflict))
      else (db.(grants := db.grants - rows), Ok(target))
  }

  // ------------------------------------------------------------- invitations

  const NON_INVITABLE: set<Role> := {Candidate, SuperAdmin}

  predicate Open(i: Invitation, now: nat) { i.acceptedAt == None && i.expiresAt > now }

  predicate SameKey(i: Invitation, org: Id, email: string, role: Role) {
    i.org == org && i.email == email && i.role == role
  }

  predicate Alike(i: Invitation, j: Invitation) { SameKey(i, j.org, j.email, j.role) }

  ghost predicate Holds(grants: map<Id, Grant>, user: Id, org: Id, role: Role) {
    exists g :: g in grants && grants[g] == Grant(user, org, role)
  }

  ghost predicate HasOpen(db: Db, org: Id, email: string, role: Role) {
    exists i :: i in db.invitations && SameKey(db.invitations[i], org, email, role) && Open(db.invitations[i], db.now)
  }

  /** role is what the requested key resolves to, None for an unknown key. */
  ghost function Invite(db: Db, org: Id, email: string, role: Option<Role>, ttl: nat): (Db, Result<Id>) {
    if org !in db.orgs then (db, Err(NotFound))
    else if db.orgs[org] != Active then (db, Err(Conflict))
    else if role.None? || role.value in NON_INVITABLE then (db, Err(BadRequest))
    else if email in db.users && Holds(db.grants, db.users[email], org, role.value) then (db, Err(Conflict))
    else if HasOpen(db, org, email, role.value) then (db, Err(Conflict))
    else
      (db.(invitations := db.invitations[db.next := Invitation(org, email, role.value, db.now + ttl, None)],
        next := db.next + 1), Ok(db.next))
  }

  ghost function Cancel(db: Db, org: Id, i: Id): (Db, Result<Id>) {
    if org !in db.orgs then (db, Err(NotFound))
    else if !(i in db.invitations && db.invitations[i].org == org
      && Open(db.invitations[i], db.now)) then (db, Err(NotFound))
    else (db.(invitations := db.invitations - {i}), Ok(i))
  }

  /** The read before the transaction: unknown, accepted and expired invitations
      are refused here. */
  ghost function ReadInvitation(db: Db, process: Id, i: Id): (Db, Result<Id>) {
    if i !in db.invitations || db.invitations[i].acceptedAt.Some?
      || db.invitations[i].expiresAt < db.now then (db, Err(BadRequest))
    else (db.(pending := db.pending[process := i]), Ok(i))
  }

  /** The transaction: claim the row if it is still unaccepted, then make sure the
      account and its role row exist. A missing name or password rolls it back. */
  ghost function Claim(db: Db, process: Id, hasCredentials: bool): (Db, Result<Id>) {
    if process !in db.pending then (db, Err(BadRequest)) else
      var i := db.pending[process];
      var done := db.(pending := db.pending - {process});
      if i !in db.invitations || db.invitations[i].acceptedAt.Some? then (done, Err(BadRequest)) else
        var inv := db.invitations[i];
        if inv.email !in db.users && !hasCredentials then (done, Err(BadRequest)) else
          var user := if inv.email in db.users then db.users[inv.email] else db.next;
          (done.(invitations := db.invitations[i := inv.(acceptedAt := Some(db.now))],
                 users := db.users[inv.email := user],
                 grants := if Holds(db.grants, user, inv.org, inv.role) then db.grants
                   else db.grants[db.next + 1 := Grant(user, inv.org, inv.role)],
                 committed := db.committed + [i], next := db.next + 2),
           Ok(i))
  }

  datatype Op =
    | RegisterOp(email: string)
    | ReviewOp(org: Id, actor: Id, verdict: Verdict)
    | RegisterUserOp(email: string)
    | RemoveMemberOp(org: Id, actor: Id, target: Id)
    | InviteOp(org: Id, email: string, role: Option<Role>, ttl: nat)
    | CancelOp(org: Id, invitation: Id)
    | ReadOp(process: Id, invitation: Id)
    | ClaimOp(process: Id, hasCredentials: bool)
    | TickOp(time: nat)

  ghost function Step(db: Db, op: Op): (Db, Result<Id>) {
    match op
    case RegisterOp(email) => Register(db, email)
    case ReviewOp(org, actor, v) => Review(db, org, actor, v)
    case RegisterUserOp(email) => RegisterUser(db, email)
    case RemoveMemberOp(org, actor, target) => RemoveMember(db, org, actor, target)
    case InviteOp(org, email, role, ttl) => Invite(db, org, email, role, ttl)
    case CancelOp(org, i) => Cancel(db, org, i)
    case ReadOp(process, i) => ReadInvitation(db, process, i)
    case ClaimOp(process, ok) => Claim(db, process, ok)
    case TickOp(time) => (if time >= db.now then db.(now := time) else db, Ok(0))
  }

  ghost function After(db: Db, ops: seq<Op>): Db {
    if ops == [] then db else Step(After(db, ops[..|ops| - 1]), ops[|ops| - 1]).0
  }

  // ------------------------------------------------------------- ownership

  /** The unique index on (user, organization, role), and keys in use. */
  ghost predicate GrantsSound(grants: map<Id, Grant>, orgs: map<Id, OrgStatus>, next: Id) {
    && (forall x, y :: x in grants && y in grants && grants[x] == grants[y] ==> x == y)
    && (forall g :: g in grants ==> g < next)
    && (forall o :: o in orgs ==> o < next)
  }

  ghost predicate HasOwner(grants: map<Id, Grant>, org: Id) {
    exists g :: g in grants && grants[g].org == org && grants[g].role == CompanyOwner
  }

  ghost predicate Owned(db: Db) { forall o :: o in db.orgs ==> HasOwner(db.grants, o) }

  ghost predicate Sound(db: Db) { GrantsSound(db.grants, db.orgs, db.next) && Owned(db) }

  /** One user has at most one owner row, so removing that user's rows leaves an
      owner whenever there were two owner rows. */
  lemma RemovalLeavesOwner(grants: map<Id, Grant>, org: Id, target: Id)
    requires forall x, y :: x in grants && y in grants && grants[x] == grants[y] ==> x == y
    requires HasOwner(grants, org)
    requires (exists g :: g in RowsOf(grants, org, target) && grants[g].role == CompanyOwner) ==>
      |OwnerRows(grants, org)| > 1
    ensures HasOwner(grants - RowsOf(grants, org, target), org)
  {
    var rest := grants - RowsOf(grants, org, target);
    var g :| g in grants && grants[g].org == org && grants[g].role == CompanyOwner;
    if grants[g].user == target {
      assert g in RowsOf(grants, org, target);
      var owners := OwnerRows(grants, org);
      assert g in owners;
      assert |owners - {g}| == |owners| - 1;
      var other :| other in owners - {g};
      assert grants[other].user != target;
      assert other in rest;
    } else {
      assert g in rest;
    }
  }

  lemma RemoveMemberSound(db: Db, org: Id, actor: Id, target: Id)
    requires Sound(db)
    ensures Sound(RemoveMember(db, org, actor, target).0)
  {
    var db' := RemoveMember(db, org, actor, target).0;
    if db' != db {
      RemovalLeavesOwner(db.grants, org, target);
      forall o | o in db'.orgs ensures HasOwner(db'.grants, o) {
        if o != org {
          var g :| g in db.grants && db.grants[g].org == o && db.grants[g].role == CompanyOwner;
          assert g in db'.grants;
        }
      }
    }
  }

  lemma GrantSound(db: Db, db': Db, row: Id, g: Grant)
    requires Sound(db) && db.next <= row < db'.next && !Holds(db.grants, g.user, g.org, g.role)
    requires db'.grants == db.grants[row := g]
    requires forall o :: o in db'.orgs ==> o < db'.next && (o in db.orgs || (g.org == o && g.role == CompanyOwner))
    ensures Sound(db')
  {
    assert HasOwner(db'.grants, g.org) <== g.role == CompanyOwner by {
      assert db'.grants[row] == g;
    }
    forall o | o in db'.orgs ensures HasOwner(db'.grants, o) {
      if o in db.orgs {
        var k :| k in db.grants && db.grants[k].org == o && db.grants[k].role == CompanyOwner;
        assert db'.grants[k] == db.grants[k];
      }
    }
  }

  /** Users' keys are in use too, so a new account's role rows are new. */
  ghost predicate UsersSound(db: Db) {
    (forall e :: e in db.users ==> db.users[e] < db.next)
      && (forall g :: g in db.grants ==> db.grants[g].user < db.next)
  }

  lemma RegisterSound(db: Db, email: string)
    requires Sound(db) && UsersSound(db)
    ensures Sound(Register(db, email).0) && UsersSound(Register(db, email).0)
  {
    var db' := Register(db, email).0;
    if db' != db {
      GrantSound(db, db', db.next + 2, Grant(db.next, db.next + 1, CompanyOwner));
    }
  }

  lemma ClaimGrantsSound(db: Db, process: Id, ok: bool)
    requires Sound(db) && UsersSound(db)
    ensures Sound(Claim(db, process, ok).0) && UsersSound(Claim(db, process, ok).0)
  {
    var db' := Claim(db, process, ok).0;
    if db'.grants != db.grants {
      GrantSound(db, db', db.next + 1, db'.grants[db.next + 1]);
    }
  }

  predicate Minor(op: Op) { op.ReviewOp? || op.RegisterUserOp? || op.CancelOp? || op.ReadOp? || op.TickOp? }

  /** The other requests give no role and no invitation, and leave an approved
      organization approved. */
  ghost predicate MinorChange(db: Db, db': Db) {
    && db'.grants == db.grants && db'.orgs.Keys == db.orgs.Keys && db.next <= db'.next
    && (forall o :: o in db.orgs && db.orgs[o] == Active ==> db'.orgs[o] == Active)
    && (forall i :: i in db'.invitations ==> i in db.invitations && db'.invitations[i] == db.invitations[i])
    && (forall e :: e in db'.users ==> (e in db.users && db'.users[e] == db.users[e]) || db'.users[e] < db'.next)
  }

  lemma MinorStep(db: Db, op: Op)
    requires Minor(op)
    ensures MinorChange(db, Step(db, op).0)
  {
  }

  lemma InviteGrants(db: Db, org: Id, email: string, role: Option<Role>, ttl: nat)
    ensures var db' := Invite(db, org, email, role, ttl).0;
      db'.grants == db.grants && db'.orgs == db.orgs && db'.users == db.users && db.next <= db'.next
  {
  }

  lemma RolesFrame(db: Db, db': Db)
    requires Sound(db) && UsersSound(db) && db'.grants == db.grants && db'.orgs.Keys == db.orgs.Keys
      && db.next <= db'.next
    requires forall e :: e in db'.users ==> (e in db.users && db'.users[e] == db.users[e]) || db'.users[e] < db'.next
    ensures Sound(db') && UsersSound(db')
  {
  }

  lemma StepSound(db: Db, op: Op)
    requires Sound(db) && UsersSound(db)
    ensures Sound(Step(db, op).0) && UsersSound(Step(db, op).0)
  {
    match op
    case RegisterOp(email) => RegisterSound(db, email);
    case RemoveMemberOp(org, actor, target) => RemoveMemberSound(db, org, actor, target);
    case ClaimOp(process, ok) => ClaimGrantsSound(db, process, ok);
    case InviteOp(org, email, role, ttl) =>
      InviteGrants(db, org, email, role, ttl);
      RolesFrame(db, Step(db, op).0);
    case _ =>
      MinorStep(db, op);
      RolesFrame(db, Step(db, op).0);
  }

  lemma {:induction false} ReachableSound(ops: seq<Op>)
    ensures Sound(After(Empty, ops)) && UsersSound(After(Empty, ops))
  {
    if ops != [] {
      ReachableSound(ops[..|ops| - 1]);
      StepSound(After(Empty, ops[..|ops| - 1]), ops[|ops| - 1]);
    }
  }

  /** Every organization has a Company Owner in every reachable state. */
  lemma EveryOrganizationIsOwned(ops: seq<Op>, org: Id)
    requires org in After(Empty, ops).orgs
    ensures HasOwner(After(Empty, ops).grants, org)
  {
    ReachableSound(ops);
  }

  // ------------------------------------------------------------- invitations

  type Invitations = map<Id, Invitation>

  /** At most one invitation per organization, email and role is open now, or at
      any later instant. */
  ghost predicate OneOpen(rows: Invitations, now: nat) {
    forall x, y :: x in rows && y in rows && Open(rows[x], now) && Open(rows[y], now) && Alike(rows[x], rows[y]) ==>
      x == y
  }

  /** The committed acceptances are exactly the accepted rows, each once. */
  ghost predicate CommittedOnce(rows: Invitations, committed: seq<Id>, next: Id) {
    && Distinct(committed)
    && (forall i :: i in committed ==> i in rows && rows[i].acceptedAt.Some?)
    && (forall i :: i in rows ==> i < next && (rows[i].acceptedAt.Some? ==> i in committed))
  }

  ghost predicate InvitationsSound(db: Db) {
    OneOpen(db.invitations, db.now) && CommittedOnce(db.invitations, db.committed, db.next)
  }

  /** Time alone never opens an invitation. */
  lemma TimePasses(rows: Invitations, now: nat, later: nat)
    requires OneOpen(rows, now) && now <= later
    ensures OneOpen(rows, later)
  {
  }

  lemma StepInvitations(db: Db, op: Op)
    requires InvitationsSound(db)
    ensures InvitationsSound(Step(db, op).0)
  {
  }

  /** In every reachable state, and at every later instant, at most one invitation
      per key is open, and each invitation committed at most once. */
  lemma {:induction false} ReachableInvitations(ops: seq<Op>)
    ensures InvitationsSound(After(Empty, ops))
    ensures forall later :: later >= After(Empty, ops).now ==> OneOpen(After(Empty, ops).invitations, later)
  {
    if ops != [] {
      ReachableInvitations(ops[..|ops| - 1]);
      StepInvitations(After(Empty, ops[..|ops| - 1]), ops[|ops| - 1]);
    }
    forall later | later >= After(Empty, ops).now ensures OneOpen(After(Empty, ops).invitations, later) {
      TimePasses(After(Empty, ops).invitations, After(Empty, ops).now, later);
    }
  }

  lemma OneRow(grants: map<Id, Grant>, row: Grant)
    requires forall x, y :: x in grants && y in grants && grants[x] == grants[y] ==> x == y
    requires Holds(grants, row.user, row.org, row.role)
    ensures |set g | g in grants && grants[g] == row| == 1
  {
    var g :| g in grants && grants[g] == row;
    assert (set x | x in grants && grants[x] == row) == {g};
  }

  /** A committed acceptance leaves exactly one row granting that role. */
  lemma CommitGrantsOnce(ops: seq<Op>, process: Id, ok: bool)
    requires Claim(After(Empty, ops), process, ok).1.Ok?
    ensures var db := After(Empty, ops);
      var (db', r) := Claim(db, process, ok);
      var inv := db.invitations[r.value];
      && inv.email in db'.users
      && (inv.email in db.users ==> db'.users == db.users)
      && |set g | g in db'.grants && db'.grants[g] == Grant(db'.users[inv.email], inv.org, inv.role)| == 1
      && r.value !in db.committed && db'.committed == db.committed + [r.value]
  {
    var db := After(Empty, ops);
    ReachableSound(ops);
    ReachableInvitations(ops);
    StepSound(db, ClaimOp(process, ok));
    var (db', r) := Claim(db, process, ok);
    var inv := db.invitations[r.value];
    var user := db'.users[inv.email];
    assert Holds(db'.grants, user, inv.org, inv.role) by {
      if Holds(db.grants, user, inv.org, inv.role) {
        var g :| g in db.grants && db.grants[g] == Grant(user, inv.org, inv.role);
        assert db'.grants[g] == db.grants[g];
      } else {
        assert db'.grants[db.next + 1] == Grant(user, inv.org, inv.role);
      }
    }
    OneRow(db'.grants, Grant(user, inv.org, inv.role));
  }

  /** The invitation can still be committed: a read would accept it now, or a read
      that did accept it still has its transaction to run. The transaction itself
      does not look at the expiry. */
  ghost predicate Committable(db: Db, i: Id) {
    && i in db.invitations && db.invitations[i].acceptedAt == None
    && (!(db.invitations[i].expiresAt < db.now) || Awaited(db, i))
  }

  ghost predicate Awaited(db: Db, i: Id) { exists p :: p in db.pending && db.pending[p] == i }

  /** Some acceptance can commit it without the clock moving: one already read, or
      a new one, read and claimed now. */
  ghost predicate CommitsNow(db: Db, process: Id, i: Id) {
    || Claim(db, process, true).1 == Ok(i)
    || (process !in db.pending && ReadInvitation(db, process, i).1.Ok?
        && Claim(ReadInvitation(db, process, i).0, process, true).1 == Ok(i))
  }

  lemma CommittableMeans(db: Db, i: Id)
    ensures Committable(db, i) <==> exists process :: CommitsNow(db, process, i)
  {
    if Awaited(db, i) {
      var p :| p in db.pending && db.pending[p] == i;
      assert Committable(db, i) ==> CommitsNow(db, p, i);
    } else if Committable(db, i) {
      var p := FreshProcess(db.pending.Keys);
      assert CommitsNow(db, p, i);
    }
  }

  lemma {:induction false} FreshProcess(used: set<Id>) returns (p: Id)
    ensures forall q :: q in used ==> q < p
    decreases used
  {
    p := 0;
    if used != {} {
      var q :| q in used;
      var r := FreshProcess(used - {q});
      p := if r > q then r else q + 1;
      assert forall x :: x in used ==> x == q || x in used - {q};
    }
  }

  /** The two ways to be committable without counting as open. */
  ghost predicate Lingers(db: Db, i: Id) {
    && i in db.invitations && db.invitations[i].acceptedAt == None
    && (db.invitations[i].expiresAt == db.now || (db.invitations[i].expiresAt < db.now && Awaited(db, i)))
  }

  /** An open invitation is committable, and so is a lingering one, and no other. */
  lemma CommittableIsOpenOrLingers(db: Db, i: Id)
    ensures Committable(db, i) <==> (i in db.invitations && Open(db.invitations[i], db.now)) || Lingers(db, i)
  {
  }

  /** In every reachable state, of two committable invitations with one key at
      least one lingers. */
  lemma TwoCommittableOnlyIfOneLingers(ops: seq<Op>, x: Id, y: Id)
    requires Committable(After(Empty, ops), x) && Committable(After(Empty, ops), y) && x != y
    requires Alike(After(Empty, ops).invitations[x], After(Empty, ops).invitations[y])
    ensures Lingers(After(Empty, ops), x) || Lingers(After(Empty, ops), y)
  {
    ReachableInvitations(ops);
  }

  ghost predicate KeyIn(db: Db, i: Id, org: Id, email: string, role: Role) {
    i in db.invitations && SameKey(db.invitations[i], org, email, role)
  }

  /** An invitation that goes out joins another committable one with its key
      exactly when such a one lingers. */
  lemma InviteDuplicatesOnlyLingering(db: Db, org: Id, email: string, role: Role, ttl: nat)
    requires InvitationsSound(db)
    requires Invite(db, org, email, Some(role), ttl).1.Ok?
    ensures var db' := Invite(db, org, email, Some(role), ttl).0;
      && Committable(db', db.next)
      && ((exists i :: i != db.next && KeyIn(db', i, org, email, role) && Committable(db', i))
          <==> (exists i :: KeyIn(db, i, org, email, role) && Lingers(db, i)))
  {
    var db' := Invite(db, org, email, Some(role), ttl).0;
    forall i | i != db.next
      ensures KeyIn(db', i, org, email, role) && Committable(db', i) <==>
        KeyIn(db, i, org, email, role) && Lingers(db, i)
    {
      assert Awaited(db', i) <==> Awaited(db, i);
      CommittableIsOpenOrLingers(db, i);
    }
    assert db.next !in db.invitations;
  }

  // ---------------------------------------------------- review and invitation

  ghost predicate Decides(db: Db, op: Op, org: Id, approve: bool) {
    op.ReviewOp? && op.org == org && op.verdict.Approve? == approve && Step(db, op).1.Ok?
  }

  /** Successful approvals, or rejections, of one organization over a run. */
  ghost function Decisions(ops: seq<Op>, org: Id, approve: bool): nat {
    if ops == [] then 0 else
      var init := ops[..|ops| - 1];
      Decisions(init, org, approve) + (if Decides(After(Empty, init), ops[|ops| - 1], org, approve) then 1 else 0)
  }

  /** The audit entries of one kind about one organization. */
  function Entries(audit: seq<Audit>, org: Id, approved: bool): nat {
    if audit == [] then 0 else
      var last := audit[|audit| - 1];
      Entries(audit[..|audit| - 1], org, approved) + (if last.org == org && last.approved == approved then 1 else 0)
  }

  predicate Tells(status: OrgStatus, approved: nat, rejected: nat) {
    match status
    case PendingApproval => approved == 0 && rejected == 0
    case Active => approved == 1 && rejected == 0
    case Rejected => approved == 0 && rejected == 1
    case Suspended => false
  }

  lemma StepReview(db: Db, op: Op, org: Id)
    requires forall o :: o in db.orgs ==> o < db.next
    ensures var db' := Step(db, op).0;
      var approved, rejected := Decides(db, op, org, true), Decides(db, op, org, false);
      if org in db.orgs then
        && org in db'.orgs
        && (approved ==> !rejected && db.orgs[org] == PendingApproval && db'.orgs[org] == Active)
        && (rejected ==> db.orgs[org] == PendingApproval && db'.orgs[org] == Rejected)
        && (!approved && !rejected ==> db'.orgs[org] == db.orgs[org])
      else !approved && !rejected && (org in db'.orgs ==> db'.orgs[org] == PendingApproval)
  {
  }

  lemma StepAudit(db: Db, op: Op)
    ensures Step(db, op).0.audit == if op.ReviewOp? && Step(db, op).1.Ok?
      then db.audit
        + [Audit(op.actor, op.org, op.verdict.Approve?, if op.verdict.Approve? then None else Some(op.verdict.reason))]
      else db.audit
  {
  }

  lemma EntriesAppend(audit: seq<Audit>, a: Audit, org: Id, approved: bool)
    ensures Entries(audit + [a], org, approved)
         == Entries(audit, org, approved) + if a.org == org && a.approved == approved then 1 else 0
  {
    assert (audit + [a])[..|audit|] == audit;
  }

  /** An organization is reviewed at most once, its status is that decision, and
      the audit log holds exactly one entry saying so. */
  lemma {:induction false} ReviewedOnce(ops: seq<Op>, org: Id)
    ensures var a, r := Decisions(ops, org, true), Decisions(ops, org, false);
      && (if org in After(Empty, ops).orgs then Tells(After(Empty, ops).orgs[org], a, r) else a == 0 && r == 0)
      && Entries(After(Empty, ops).audit, org, true) == a && Entries(After(Empty, ops).audit, org, false) == r
  {
    if ops != [] {
      var init := ops[..|ops| - 1];
      var mid, op := After(Empty, init), ops[|ops| - 1];
      ReviewedOnce(init, org);
      ReachableSound(init);
      StepReview(mid, op, org);
      StepAudit(mid, op);
      if op.ReviewOp? && Step(mid, op).1.Ok? {
        EntriesAppend(mid.audit, Step(mid, op).0.audit[|mid.audit|], org, true);
        EntriesAppend(mid.audit, Step(mid, op).0.audit[|mid.audit|], org, false);
      }
    }
  }

  /** Invitations are only ever for approved organizations and staff roles, and
      so no sequence of requests makes anyone a Candidate or Super Admin of an
      organization. */
  ghost predicate StaffOnly(db: Db) {
    && (forall i :: i in db.invitations ==>
          db.invitations[i].org in db.orgs && db.orgs[db.invitations[i].org] == Active
            && db.invitations[i].role != Candidate && db.invitations[i].role != SuperAdmin)
    && (forall g :: g in db.grants ==>
          db.grants[g].role != Candidate && db.grants[g].role != SuperAdmin && db.grants[g].org in db.orgs)
  }

  lemma {:induction false} ReachableStaffOnly(ops: seq<Op>)
    ensures StaffOnly(After(Empty, ops))
  {
    if ops != [] {
      var init := ops[..|ops| - 1];
      ReachableStaffOnly(init);
      ReachableSound(init);
      StepStaffOnly(After(Empty, init), ops[|ops| - 1]);
    }
  }

  lemma InviteStaffOnly(db: Db, org: Id, email: string, role: Option<Role>, ttl: nat)
    requires StaffOnly(db)
    ensures StaffOnly(Invite(db, org, email, role, ttl).0)
  {
  }

  lemma ClaimStaffOnly(db: Db, process: Id, ok: bool)
    requires StaffOnly(db)
    ensures StaffOnly(Claim(db, process, ok).0)
  {
    var db' := Claim(db, process, ok).0;
    if Claim(db, process, ok).1.Ok? {
      var i := db.pending[process];
      forall g | g in db'.grants && g !in db.grants ensures db'.grants[g].role == db.invitations[i].role
        && db'.grants[g].org == db.invitations[i].org {
      }
    }
  }

  lemma RegisterStaffOnly(db: Db, email: string)
    requires StaffOnly(db) && forall o :: o in db.orgs ==> o < db.next
    ensures StaffOnly(Register(db, email).0)
  {
  }

  lemma StepStaffOnly(db: Db, op: Op)
    requires StaffOnly(db) && Sound(db)
    ensures StaffOnly(Step(db, op).0)
  {
    match op
    case RegisterOp(email) => RegisterStaffOnly(db, email);
    case InviteOp(org, email, role, ttl) => InviteStaffOnly(db, org, email, role, ttl);
    case ClaimOp(process, ok) => ClaimStaffOnly(db, process, ok);
    case RemoveMemberOp(_, _, _) =>
    case _ => MinorStep(db, op);
  }
}
