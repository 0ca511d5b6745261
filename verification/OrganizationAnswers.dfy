/** Every organization, member and invitation request, by its answer, and what a role
    row tells of the run. Said of the columns, with guards of its own. */
module OrganizationAnswers {
  import opened Common
  import opened Organizations

  /** Some row gives this user this role there. */
  ghost predicate HasRole(db: Db, user: Id, org: Id, role: Role) {
    exists g :: g in db.grants && db.grants[g].user == user && db.grants[g].org == org && db.grants[g].role == role
  }

  ghost predicate IsMember(db: Db, user: Id, org: Id) {
    exists g :: g in db.grants && db.grants[g].user == user && db.grants[g].org == org
  }

  ghost predicate OthersOwn(db: Db, user: Id, org: Id) {
    exists g ::
      g in db.grants && db.grants[g].org == org && db.grants[g].role == CompanyOwner && db.grants[g].user != user
  }

  // ----------------------------------------------------------- organizations

  lemma RegisterAnswer(db: Db, email: string)
    ensures var (db', r) := Register(db, email);
      && (email in db.users ==> r == Err(Conflict) && db' == db)
      && (email !in db.users ==>
            && r == Ok(db.next + 1)
            && db' == db.(users := db.users[email := db.next], orgs := db.orgs[db.next + 1 := PendingApproval],
                          grants := db.grants[db.next + 2 := Grant(db.next, db.next + 1, CompanyOwner)],
                            next := db.next + 3))
  {
  }

  lemma RegisterUserAnswer(db: Db, email: string)
    ensures var (db', r) := RegisterUser(db, email);
      && (email in db.users ==> r == Err(Conflict) && db' == db)
      && (email !in db.users ==>
            r == Ok(db.next) && db' == db.(users := db.users[email := db.next], next := db.next + 1))
  {
  }

  lemma ReviewAnswer(db: Db, org: Id, actor: Id, v: Verdict)
    ensures var (db', r) := Review(db, org, actor, v);
      && (r == Err(NotFound) <==> org !in db.orgs)
      && (r == Err(Conflict) <==> org in db.orgs && db.orgs[org] != PendingApproval)
      && (r.Ok? <==> org in db.orgs && db.orgs[org] == PendingApproval)
      && (r.Err? ==> db' == db)
      && (r.Ok? && v.Approve? ==>
            db' == db.(orgs := db.orgs[org := Active], audit := db.audit + [Audit(actor, org, true, None)]))
      && (r.Ok? && v.Reject? ==>
            db' == db.(orgs := db.orgs[org := Rejected],
              audit := db.audit + [Audit(actor, org, false, Some(v.reason))]))
  {
  }

  // ----------------------------------------------------------------- removal

  /** Role rows being unique, counting owner rows is counting owners. */
  lemma OwnersCounted(db: Db, org: Id, target: Id)
    requires GrantsSound(db.grants, db.orgs, db.next) && HasRole(db, target, org, CompanyOwner)
    ensures |OwnerRows(db.grants, org)| <= 1 <==> !OthersOwn(db, target, org)
  {
    var rows := OwnerRows(db.grants, org);
    var g :| g in db.grants && db.grants[g] == Grant(target, org, CompanyOwner);
    assert g in rows;
    if OthersOwn(db, target, org) {
      var o :| o in db.grants && db.grants[o].org == org && db.grants[o].role == CompanyOwner
        && db.grants[o].user != target;
      assert {o, g} <= rows && |{o, g}| == 2;
      SmallerSet({o, g}, rows);
    } else {
      forall x | x in rows ensures x == g {
        assert db.grants[x].user == target;
      }
      assert rows == {g};
    }
  }

  lemma {:induction false} SmallerSet(a: set<Id>, b: set<Id>)
    requires a <= b
    ensures |a| <= |b|
    decreases a
  {
    if a != {} {
      var x :| x in a;
      SmallerSet(a - {x}, b - {x});
    }
  }

  /** Who may be removed, and that all their rows there go, and no other. */
  lemma RemoveMemberAnswer(db: Db, org: Id, actor: Id, target: Id)
    requires GrantsSound(db.grants, db.orgs, db.next)
    ensures var (db', r) := RemoveMember(db, org, actor, target);
      var lastOwner := HasRole(db, target, org, CompanyOwner) && !OthersOwn(db, target, org);
      && (r == Err(NotFound) <==> org !in db.orgs || (target != actor && !IsMember(db, target, org)))
      && (r == Err(Conflict) <==> org in db.orgs && (target == actor || (IsMember(db, target, org) && lastOwner)))
      && (r.Ok? <==> org in db.orgs && target != actor && IsMember(db, target, org) && !lastOwner)
      && (r.Err? ==> db' == db)
      && (r.Ok? ==>
            && r.value == target && !IsMember(db', target, org)
            && (forall g :: g in db.grants && !(db.grants[g].user == target && db.grants[g].org == org) ==>
                  g in db'.grants && db'.grants[g] == db.grants[g])
            && db'.grants.Keys <= db.grants.Keys && db' == db.(grants := db'.grants))
  {
    var rows := RowsOf(db.grants, org, target);
    assert rows != {} <==> IsMember(db, target, org) by {
      if IsMember(db, target, org) {
        var g :| g in db.grants && db.grants[g].user == target && db.grants[g].org == org;
        assert g in rows;
      }
    }
    if HasRole(db, target, org, CompanyOwner) {
      OwnersCounted(db, org, target);
      var g :| g in db.grants && db.grants[g] == Grant(target, org, CompanyOwner);
      assert g in rows && db.grants[g].role == CompanyOwner;
    }
  }

  // ------------------------------------------------------------- invitations

  /** An unaccepted invitation of this key whose deadline is still ahead. */
  ghost predicate Outstanding(db: Db, org: Id, email: string, role: Role) {
    exists i :: i in db.invitations && db.invitations[i].org == org && db.invitations[i].email == email
      && db.invitations[i].role == role && db.invitations[i].acceptedAt == None && db.now < db.invitations[i].expiresAt
  }

  predicate Staff(role: Option<Role>) { role.Some? && role.value != Candidate && role.value != SuperAdmin }

  lemma InviteAnswer(db: Db, org: Id, email: string, role: Option<Role>, ttl: nat)
    ensures var (db', r) := Invite(db, org, email, role, ttl);
      var active := org in db.orgs && db.orgs[org] == Active;
      var taken := Staff(role)
        && ((email in db.users && HasRole(db, db.users[email], org, role.value))
          || Outstanding(db, org, email, role.value));
      && (r == Err(NotFound) <==> org !in db.orgs)
      && (r == Err(BadRequest) <==> active && !Staff(role))
      && (r == Err(Conflict) <==> org in db.orgs && (!active || taken))
      && (r.Ok? <==> active && Staff(role) && !taken)
      && (r.Err? ==> db' == db)
      && (r.Ok? ==>
            && r.value == db.next && db'.next == db.next + 1
            && db'.invitations == db.invitations[db.next := Invitation(org, email, role.value, db.now + ttl, None)]
            && db' == db.(invitations := db'.invitations, next := db'.next))
  {
  }

  lemma CancelAnswer(db: Db, org: Id, i: Id)
    ensures var (db', r) := Cancel(db, org, i);
      && (r.Ok? <==>
            && org in db.orgs && i in db.invitations && db.invitations[i].org == org
            && db.invitations[i].acceptedAt == None && db.now < db.invitations[i].expiresAt)
      && (if r.Ok? then r == Ok(i) else r == Err(NotFound))
      && db' == (if r.Ok? then db.(invitations := db.invitations - {i}) else db)
  {
  }

  lemma ReadInvitationAnswer(db: Db, process: Id, i: Id)
    ensures var (db', r) := ReadInvitation(db, process, i);
      && (r.Ok? <==>
            i in db.invitations && db.invitations[i].acceptedAt == None && db.now <= db.invitations[i].expiresAt)
      && (if r.Ok? then r == Ok(i) else r == Err(BadRequest))
      && db' == (if r.Ok? then db.(pending := db.pending[process := i]) else db)
  {
  }

  /** The transaction commits exactly if the invitation it read is still there and
      unaccepted and the account exists or can be made; then the invitation is
      accepted now, the account has its role, and nothing else is new. Otherwise
      nothing is written. */
  lemma ClaimAnswer(db: Db, process: Id, hasCredentials: bool)
    requires process in db.pending
    ensures var (db', r) := Claim(db, process, hasCredentials);
      var i := db.pending[process];
      var there := i in db.invitations && db.invitations[i].acceptedAt == None;
      && (r.Ok? <==> there && (db.invitations[i].email in db.users || hasCredentials))
      && (if r.Ok? then r == Ok(i) else r == Err(BadRequest))
      && (r.Err? ==> db' == db.(pending := db.pending - {process}))
      && (r.Ok? ==>
            var inv := db.invitations[i];
            && db'.invitations == db.invitations[i := inv.(acceptedAt := Some(db.now))]
            && inv.email in db'.users && db'.users == db.users[inv.email := db'.users[inv.email]]
            && (inv.email in db.users ==> db'.users == db.users)
            && (inv.email !in db.users ==> db'.users[inv.email] == db.next)
            && HasRole(db', db'.users[inv.email], inv.org, inv.role)
            && (forall g :: g in db.grants ==> g < db.next ==> g in db'.grants && db'.grants[g] == db.grants[g])
            && (forall g :: g in db'.grants ==>
                  || (g in db.grants && db'.grants[g] == db.grants[g])
                  || db'.grants[g] == Grant(db'.users[inv.email], inv.org, inv.role))
            && db'.committed == db.committed + [i] && db'.orgs == db.orgs && db'.audit == db.audit)
  {
    var (db', r) := Claim(db, process, hasCredentials);
    if r.Ok? {
      var inv := db.invitations[db.pending[process]];
      var user := db'.users[inv.email];
      if Holds(db.grants, user, inv.org, inv.role) {
        var g :| g in db.grants && db.grants[g] == Grant(user, inv.org, inv.role);
        assert db'.grants[g] == db.grants[g];
      } else {
        assert db'.grants[db.next + 1] == Grant(user, inv.org, inv.role);
      }
    }
  }

  // ---------------------------------------------------------- a role, told

  /** The account under the invitation's address is given the invitation's role. */
  ghost predicate Accepts(db: Db, db': Db, i: Id, g: Grant) {
    && i in db.invitations
    && var inv := db.invitations[i];
       inv.email in db'.users && g == Grant(db'.users[inv.email], inv.org, inv.role)
  }

  /** The request gives this user this role there. */
  ghost predicate Gives(db: Db, op: Op, user: Id, org: Id, role: Role) {
    var (db', r) := Step(db, op);
    && r.Ok?
    && match op
       case RegisterOp(_) => Grant(user, org, role) == Grant(db.next, r.value, CompanyOwner)
       case ClaimOp(process, _) =>
         process in db.pending && Accepts(db, db', db.pending[process], Grant(user, org, role))
       case _ => false
  }

  ghost predicate Takes(db: Db, op: Op, user: Id, org: Id) {
    op.RemoveMemberOp? && op.org == org && op.target == user && Step(db, op).1.Ok?
  }

  /** The last request of the run that gave or took the role gave it. */
  ghost predicate Given(ops: seq<Op>, user: Id, org: Id, role: Role) {
    ops != [] &&
      var init, op := ops[..|ops| - 1], ops[|ops| - 1];
      Gives(After(Empty, init), op, user, org, role)
      || (Given(init, user, org, role) && !Takes(After(Empty, init), op, user, org))
  }

  lemma RoleAdded(db: Db, db': Db, added: Grant, user: Id, org: Id, role: Role)
    requires forall g :: g in db.grants ==> g in db'.grants && db'.grants[g] == db.grants[g]
    requires forall g :: g in db'.grants ==> (g in db.grants && db'.grants[g] == db.grants[g]) || db'.grants[g] == added
    requires HasRole(db', added.user, added.org, added.role)
    ensures HasRole(db', user, org, role) <==> HasRole(db, user, org, role) || added == Grant(user, org, role)
  {
    if HasRole(db, user, org, role) {
      var g :| g in db.grants && db.grants[g] == Grant(user, org, role);
      assert db'.grants[g] == db.grants[g];
    }
  }

  lemma RegisterRoles(db: Db, email: string, user: Id, org: Id, role: Role)
    requires GrantsSound(db.grants, db.orgs, db.next)
    ensures var (db', r) := Register(db, email);
      HasRole(db', user, org, role)
      <==> HasRole(db, user, org, role) || (r.Ok? && Grant(db.next, r.value, CompanyOwner) == Grant(user, org, role))
  {
    RegisterAnswer(db, email);
    if email !in db.users {
      var db', added := Register(db, email).0, Grant(db.next, db.next + 1, CompanyOwner);
      assert db'.grants[db.next + 2] == added;
      RoleAdded(db, db', added, user, org, role);
    }
  }

  lemma ClaimRoles(db: Db, process: Id, hasCredentials: bool, user: Id, org: Id, role: Role)
    requires process in db.pending && GrantsSound(db.grants, db.orgs, db.next)
    ensures var (db', r) := Claim(db, process, hasCredentials);
      HasRole(db', user, org, role)
      <==> HasRole(db, user, org, role) || (r.Ok? && Accepts(db, db', db.pending[process], Grant(user, org, role)))
  {
    ClaimAnswer(db, process, hasCredentials);
    var (db', r) := Claim(db, process, hasCredentials);
    if r.Ok? {
      var inv := db.invitations[db.pending[process]];
      RoleAdded(db, db', Grant(db'.users[inv.email], inv.org, inv.role), user, org, role);
    }
  }

  lemma RemovalRoles(db: Db, at: Id, actor: Id, target: Id, user: Id, org: Id, role: Role)
    requires GrantsSound(db.grants, db.orgs, db.next)
    ensures var (db', r) := RemoveMember(db, at, actor, target);
      HasRole(db', user, org, role) <==> HasRole(db, user, org, role) && !(r.Ok? && at == org && target == user)
  {
    RemoveMemberAnswer(db, at, actor, target);
    var (db', r) := RemoveMember(db, at, actor, target);
    if HasRole(db, user, org, role) && !(r.Ok? && at == org && target == user) {
      var g :| g in db.grants && db.grants[g] == Grant(user, org, role);
      assert g in db'.grants && db'.grants[g] == db.grants[g];
    }
  }

  lemma StepRoles(db: Db, op: Op, user: Id, org: Id, role: Role)
    requires GrantsSound(db.grants, db.orgs, db.next)
    ensures HasRole(Step(db, op).0, user, org, role)
            <==> Gives(db, op, user, org, role) || (HasRole(db, user, org, role) && !Takes(db, op, user, org))
  {
    match op
    case RegisterOp(email) => RegisterRoles(db, email, user, org, role);
    case ClaimOp(process, ok) =>
      if process in db.pending {
        ClaimRoles(db, process, ok, user, org, role);
      }
    case RemoveMemberOp(at, actor, target) => RemovalRoles(db, at, actor, target, user, org, role);
    case InviteOp(at, email, asked, ttl) => InviteAnswer(db, at, email, asked, ttl);
    case _ => MinorStep(db, op);
  }

  /** Over every run, a user has a role at an organization exactly if the last
      request that gave or took it gave it: registering the organization, or
      committing an invitation of theirs, and no removal since. */
  lemma {:induction false} RoleTellsStory(ops: seq<Op>, user: Id, org: Id, role: Role)
    ensures HasRole(After(Empty, ops), user, org, role) <==> Given(ops, user, org, role)
  {
    if ops != [] {
      var init := ops[..|ops| - 1];
      RoleTellsStory(init, user, org, role);
      ReachableSound(init);
      StepRoles(After(Empty, init), ops[|ops| - 1], user, org, role);
    }
  }
}
