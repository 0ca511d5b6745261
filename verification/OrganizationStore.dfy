/** OrganizationsService on its tables. Each method does exactly one step of
    Organizations; acceptInvitation is its read followed by its transaction. */
module OrganizationStore {
  import opened Common
  import opened Organizations

  datatype Member = Member(user: Id, roles: seq<Role>)

  /** Where the user's entry is, -1 if there is none. */
  function EntryOf(members: seq<Member>, user: Id): (i: int)
    ensures -1 <= i < |members|
    ensures i >= 0 ==> members[i].user == user
    ensures i == -1 ==> forall j :: 0 <= j < |members| ==> members[j].user != user
  {
    if members == [] then -1
    else
      var last := |members| - 1;
      if members[last].user == user then last else EntryOf(members[..last], user)
  }

  function Put(members: seq<Member>, g: Grant): seq<Member> {
    var i := EntryOf(members, g.user);
    if i >= 0 then members[i := Member(g.user, members[i].roles + [g.role])] else members + [Member(g.user, [g.role])]
  }

  /** The roles of one user's rows, in order. */
  function RolesOf(rows: seq<Grant>, user: Id): seq<Role> {
    if rows == [] then [] else
      var g := rows[|rows| - 1];
      RolesOf(rows[..|rows| - 1], user) + (if g.user == user then [g.role] else [])
  }

  lemma RolesAppend(rows: seq<Grant>, g: Grant, user: Id)
    ensures RolesOf(rows + [g], user) == if g.user == user then RolesOf(rows, user) + [g.role] else RolesOf(rows, user)
  {
  }

  lemma NoRoles(rows: seq<Grant>, user: Id)
    requires forall g :: g in rows ==> g.user != user
    ensures RolesOf(rows, user) == []
  {
  }

  ghost predicate Listed(members: seq<Member>, user: Id) {
    exists i :: 0 <= i < |members| && members[i].user == user
  }

  /** One entry per user who has a row, holding all that user's roles in order. */
  ghost predicate IsGrouping(members: seq<Member>, rows: seq<Grant>) {
    && (forall i, j :: 0 <= i < j < |members| ==> members[i].user != members[j].user)
    && (forall i :: 0 <= i < |members| ==> members[i].roles == RolesOf(rows, members[i].user))
    && (forall u :: Listed(members, u) <==> exists g :: g in rows && g.user == u)
  }

  lemma PutGroups(members: seq<Member>, rows: seq<Grant>, g: Grant)
    requires IsGrouping(members, rows)
    ensures IsGrouping(Put(members, g), rows + [g])
  {
    var after := Put(members, g);
    var i := EntryOf(members, g.user);
    if i < 0 {
      forall h | h in rows ensures h.user != g.user {
        assert Listed(members, h.user);
      }
      NoRoles(rows, g.user);
    }
    forall k | 0 <= k < |after| ensures after[k].roles == RolesOf(rows + [g], after[k].user) {
      RolesAppend(rows, g, after[k].user);
    }
    forall u ensures Listed(after, u) <==> exists h :: h in rows + [g] && h.user == u {
      PutLists(members, g, u);
      if Listed(members, u) {
        var h :| h in rows && h.user == u;
        assert h in rows + [g];
      }
      assert g in rows + [g];
    }
  }

  lemma PutLists(members: seq<Member>, g: Grant, u: Id)
    ensures Listed(Put(members, g), u) <==> Listed(members, u) || g.user == u
  {
    var after := Put(members, g);
    var i := EntryOf(members, g.user);
    assert after[if i >= 0 then i else |members|].user == g.user;
    assert forall k :: 0 <= k < |members| ==> after[k].user == members[k].user;
  }

  function RowsAt(grants: map<Id, Grant>, ids: seq<Id>): seq<Grant> {
    seq(|ids|, i requires 0 <= i < |ids| => if ids[i] in grants then grants[ids[i]] else Grant(0, 0, Candidate))
  }

  /** findMany over one organization's rows, oldest first. */
  ghost predicate IsRoster(grants: map<Id, Grant>, org: Id, ids: seq<Id>) {
    && (forall g :: g in ids <==> g in grants && grants[g].org == org)
    && (forall i, j :: 0 <= i < j < |ids| ==> ids[i] < ids[j])
  }

  method FindGrants(grants: map<Id, Grant>, org: Id) returns (ids: seq<Id>)
    ensures IsRoster(grants, org, ids)
  {
    ids := OrderBy(set g | g in grants && grants[g].org == org, map g | g in grants :: g);
  }

  class Directory {
    var orgs: map<Id, OrgStatus>
    var users: map<string, Id>
    var grants: map<Id, Grant>
    var invitations: map<Id, Invitation>
    var pending: map<Id, Id>
    ghost var committed: seq<Id>
    var audit: seq<Audit>
    var now: nat
    var next: Id

    ghost function View(): Db
      reads this
    {
      Db(orgs, users, grants, invitations, pending, committed, audit, now, next)
    }

    constructor ()
      ensures View() == Empty
    {
      orgs, users, grants, invitations, pending := map[], map[], map[], map[], map[];
      committed, audit, now, next := [], [], 0, 0;
    }

    method RegisterOrganization(ownerEmail: string) returns (r: Result<Id>)
      modifies this
      ensures (View(), r) == Register(old(View()), ownerEmail)
    {
      if ownerEmail in users {
        return Err(Conflict);
      }
      var user, org, row := next, next + 1, next + 2;
      users := users[ownerEmail := user];
      orgs := orgs[org := PendingApproval];
      grants := grants[row := Grant(user, org, CompanyOwner)];
      next := next + 3;
      r := Ok(org);
    }

    /** approve and reject differ in the status they write and the audit entry. */
    method Review(org: Id, actor: Id, v: Verdict) returns (r: Result<Id>)
      modifies this`orgs, this`audit
      ensures (View(), r) == Organizations.Review(old(View()), org, actor, v)
    {
      if org !in orgs {
        return Err(NotFound);
      }
      if orgs[org] != PendingApproval {
        return Err(Conflict);
      }
      orgs := orgs[org := if v.Approve? then Active else Rejected];
      audit := audit + [Audit(actor, org, v.Approve?, if v.Approve? then None else Some(v.reason))];
      r := Ok(org);
    }

    method InviteStaff(org: Id, email: string, role: Option<Role>, ttl: nat) returns (r: Result<Id>)
      modifies this`invitations, this`next
      ensures (View(), r) == Invite(old(View()), org, email, role, ttl)
    {
      if org !in orgs {
        return Err(NotFound);
      }
      if orgs[org] != Active {
        return Err(Conflict);
      }
      if role.None? || role.value in NON_INVITABLE {
        return Err(BadRequest);
      }
      if email in users {
        if exists g :: g in grants && grants[g] == Grant(users[email], org, role.value) {
          return Err(Conflict);
        }
      }
      if exists i :: i in invitations && SameKey(invitations[i], org, email, role.value) && Open(invitations[i], now) {
        return Err(Conflict);
      }
      invitations := invitations[next := Invitation(org, email, role.value, now + ttl, None)];
      r := Ok(next);
      next := next + 1;
    }

    method CancelInvitation(org: Id, id: Id) returns (r: Result<Id>)
      modifies this`invitations
      ensures (View(), r) == Cancel(old(View()), org, id)
    {
      if org !in orgs {
        return Err(NotFound);
      }
      if id !in invitations || invitations[id].org != org || invitations[id].acceptedAt.Some?
        || invitations[id].expiresAt <= now {
        return Err(NotFound);
      }
      invitations := invitations - {id};
      r := Ok(id);
    }

    method AcceptRead(process: Id, id: Id) returns (r: Result<Id>)
      modifies this`pending
      ensures (View(), r) == ReadInvitation(old(View()), process, id)
    {
      if id !in invitations || invitations[id].acceptedAt.Some? || invitations[id].expiresAt < now {
        return Err(BadRequest);
      }
      pending := pending[process := id];
      r := Ok(id);
    }

    method AcceptTransaction(process: Id, hasCredentials: bool) returns (r: Result<Id>)
      modifies this
      ensures (View(), r) == Claim(old(View()), process, hasCredentials)
    {
      if process !in pending {
        return Err(BadRequest);
      }
      var id := pending[process];
      pending := pending - {process};
      if id !in invitations || invitations[id].acceptedAt.Some? {
        return Err(BadRequest);
      }
      var invitation := invitations[id];
      if invitation.email !in users && !hasCredentials {
        return Err(BadRequest);
      }
      invitations := invitations[id := invitation.(acceptedAt := Some(now))];
      var user := if invitation.email in users then users[invitation.email] else next;
      users := users[invitation.email := user];
      var row := Grant(user, invitation.org, invitation.role);
      if !exists g :: g in grants && grants[g] == row {
        grants := grants[next + 1 := row];
      }
      committed := committed + [id];
      next := next + 2;
      r := Ok(id);
    }

    /** With nothing in between, acceptance is the read then the transaction. */
    method AcceptInvitation(process: Id, id: Id, hasCredentials: bool) returns (r: Result<Id>)
      modifies this
      ensures var (mid, got) := ReadInvitation(old(View()), process, id);
        (View(), r) == if got.Err? then (mid, got) else Claim(mid, process, hasCredentials)
    {
      r := AcceptRead(process, id);
      if r.Ok? {
        r := AcceptTransaction(process, hasCredentials);
      }
    }

    method RemoveMember(org: Id, actor: Id, target: Id) returns (r: Result<Id>)
      modifies this`grants
      ensures (View(), r) == Organizations.RemoveMember(old(View()), org, actor, target)
    {
      if org !in orgs {
        return Err(NotFound);
      }
      if target == actor {
        return Err(Conflict);
      }
      var rows := set g | g in grants && grants[g].org == org && grants[g].user == target;
      assert rows == RowsOf(grants, org, target);
      if rows == {} {
        return Err(NotFound);
      }
      if exists g :: g in rows && grants[g].role == CompanyOwner {
        var owners := set g | g in grants && grants[g].org == org && grants[g].role == CompanyOwner;
        assert owners == OwnerRows(grants, org);
        if |owners| <= 1 {
          return Err(Conflict);
        }
      }
      grants := grants - rows;
      r := Ok(target);
    }

    method ListMembers(org: Id) returns (r: Result<seq<Member>>, ghost roster: seq<Id>)
      ensures r.Ok? <==> org in orgs
      ensures IsRoster(grants, org, roster)
      ensures r.Ok? ==> IsGrouping(r.value, RowsAt(grants, roster))
    {
      var ids := FindGrants(grants, org);
      roster := ids;
      if org !in orgs {
        return Err(NotFound), roster;
      }
      ghost var rows := RowsAt(grants, ids);
      var byUser: seq<Member> := [];
      for i := 0 to |ids|
        invariant IsGrouping(byUser, rows[..i])
      {
        assert ids[i] in ids;
        assert rows[..i + 1] == rows[..i] + [rows[i]];
        var g := grants[ids[i]];
        PutGroups(byUser, rows[..i], g);
        var existing := EntryOf(byUser, g.user);
        if existing >= 0 {
          byUser := byUser[existing := Member(g.user, byUser[existing].roles + [g.role])];
        } else {
          byUser := byUser + [Member(g.user, [g.role])];
        }
      }
      assert rows[..|ids|] == rows;
      r := Ok(byUser);
    }
  }
}
