/** The tenant tables behind the admin portal and the row-level-security semantics of the
    statements the portal issues. Every statement is a function of the tables and of the
    current `app.org_id` (the scope): a row is visible when its org is the scope. */
module Tenancy {
  import opened Prelude

  datatype OrgId = OrgId(clerkId: string)
  datatype UserId = UserId(clerkId: string)
  type Time = int
  type Scope = Option<OrgId>

  datatype AdminKind = Platform | Client

  datatype Status = Active | Inactive

  // clerk_admin_users: `admins` is keyed by its unique column clerk_user_id, across all orgs.
  datatype AdminRow = AdminRow(org: OrgId, orgPk: nat, email: Option<string>, kind: AdminKind,
                               status: Status, updatedAt: Option<Time>)

  // users: keyed by the unique clerk_user_id; `userIds` is the primary-key index.
  datatype UserRow = UserRow(org: OrgId, email: Option<string>, role: string,
                             status: Status, deactivatedAt: Option<Time>)

  datatype Payload =
    | RoleChanged(targetOrg: OrgId, target: UserId, targetEmail: Option<string>,
                  oldRole: string, newRole: string, usersRoleUpdated: bool)
    | MemberRemoved(targetOrg: OrgId, target: UserId, targetEmail: Option<string>, adminDeactivated: bool)

  datatype AuditRow = AuditRow(orgPk: nat, actor: UserId, actorEmail: Option<string>, payload: Payload)

  datatype Tables = Tables(orgs: map<OrgId, nat>, nextPk: nat, admins: map<UserId, AdminRow>,
                           users: map<UserId, UserRow>, userIds: map<nat, UserId>, audit: seq<AuditRow>)

  // ---------- reads ----------

  function SelectAdmin(t: Tables, scope: Scope, u: UserId): Option<AdminRow> {
    if u in t.admins && scope == Some(t.admins[u].org) then Some(t.admins[u]) else None
  }

  function SelectUser(t: Tables, scope: Scope, u: UserId): Option<UserRow> {
    if u in t.users && scope == Some(t.users[u].org) then Some(t.users[u]) else None
  }

  /** `session.get(Users, id)`: the key and row behind a visible primary key. */
  function GetUser(t: Tables, scope: Scope, id: nat): Option<UserId> {
    if id in t.userIds && SelectUser(t, scope, t.userIds[id]).Some? then Some(t.userIds[id]) else None
  }

  function ActiveAdmins(t: Tables, org: OrgId): set<UserId> {
    set u | u in t.admins && t.admins[u].org == org && t.admins[u].status == Active
  }

  /** `select count(*) from clerk_admin_users where status = 'active'` under the scope. */
  function CountActive(t: Tables, scope: Scope): nat {
    if scope.Some? then |ActiveAdmins(t, scope.value)| else 0
  }

  // ---------- statements on clerk_admin_users, executed at once ----------

  datatype AdminStmt =
    | Deactivate(user: UserId, at: Time)
    | ReactivateIfExists(user: UserId, kind: AdminKind, at: Time)
    | ReactivateOrCreate(user: UserId, org: OrgId, orgPk: nat, email: Option<string>, kind: AdminKind, at: Time)

  /** None is an aborted statement: a row the policy's WITH CHECK refuses, or an
      ON CONFLICT DO UPDATE that hits a row outside the scope. */
  function Exec(t: Tables, scope: Scope, s: AdminStmt): Option<Tables> {
    match s
    case Deactivate(u, at) =>
      Some(if SelectAdmin(t, scope, u).Some?
           then t.(admins := t.admins[u := t.admins[u].(status := Inactive, updatedAt := Some(at))])
           else t)
    case ReactivateIfExists(u, kind, at) =>
      Some(if SelectAdmin(t, scope, u).Some?
           then t.(admins := t.admins[u := t.admins[u].(status := Active, kind := kind, updatedAt := Some(at))])
           else t)
    case ReactivateOrCreate(u, org, orgPk, email, kind, at) =>
      if scope != Some(org) then None
      else if u !in t.admins then
        Some(t.(admins := t.admins[u := AdminRow(org, orgPk, email, kind, Active, None)]))
      else if SelectAdmin(t, scope, u).Some? then
        Some(t.(admins := t.admins[u := t.admins[u].(status := Active, kind := kind, updatedAt := Some(at))]))
      else None
  }

  // ---------- unit-of-work writes, queued until a flush ----------

  datatype Pending =
    | SetRole(user: UserId, role: string)
    | SoftDelete(user: UserId, at: Time)
    | AddAudit(row: AuditRow)

  /** One queued write, emitted under the scope that holds at that moment. An UPDATE that
      matches no visible row is a stale-data error; an audit row of another org is refused. */
  function Emit(t: Tables, scope: Scope, p: Pending): Option<Tables> {
    match p
    case SetRole(u, role) =>
      if SelectUser(t, scope, u).Some? then Some(t.(users := t.users[u := t.users[u].(role := role)])) else None
    case SoftDelete(u, at) =>
      if SelectUser(t, scope, u).Some?
      then Some(t.(users := t.users[u := t.users[u].(status := Inactive, deactivatedAt := Some(at))]))
      else None
    case AddAudit(row) =>
      if scope.Some? && scope.value in t.orgs && t.orgs[scope.value] == row.orgPk
      then Some(t.(audit := t.audit + [row]))
      else None
  }

  /** An assignment makes its row dirty, and so is written at the next flush, only when it changes it. */
  predicate NetChange(users: map<UserId, UserRow>, p: Pending) {
    match p
    case SetRole(u, role) => u in users && users[u].role != role
    case SoftDelete(u, at) => u in users && (users[u].status != Inactive || users[u].deactivatedAt != Some(at))
    case AddAudit(_) => true
  }

  /** Writing back what a visible row already holds would change nothing. */
  lemma NoNetChange(t: Tables, scope: Scope, p: Pending)
    requires !p.AddAudit? && SelectUser(t, scope, p.user).Some? && !NetChange(t.users, p)
    ensures Emit(t, scope, p) == Some(t)
  {
    var row := t.users[p.user];
    assert t.users[p.user := row] == t.users;
  }

  function EmitAll(t: Tables, scope: Scope, ps: seq<Pending>): Option<Tables>
    decreases ps
  {
    if ps == [] then Some(t)
    else match Emit(t, scope, ps[0])
      case None => None
      case Some(t') => EmitAll(t', scope, ps[1..])
  }

  lemma EmitAllConcat(t: Tables, scope: Scope, ps: seq<Pending>, qs: seq<Pending>)
    ensures EmitAll(t, scope, ps + qs) ==
            match EmitAll(t, scope, ps) case None => None case Some(t') => EmitAll(t', scope, qs)
    decreases ps
  {
    if ps == [] {
      assert ps + qs == qs;
    } else {
      assert (ps + qs)[1..] == ps[1..] + qs;
      match Emit(t, scope, ps[0])
      case None =>
      case Some(t') => EmitAllConcat(t', scope, ps[1..], qs);
    }
  }

  // ---------- data invariant ----------

  /** Organisation keys are distinct and admin rows carry the key of their own organisation. */
  ghost predicate Coherent(t: Tables) {
    && (forall o :: o in t.orgs ==> t.orgs[o] < t.nextPk)
    && (forall o, p :: o in t.orgs && p in t.orgs && o != p ==> t.orgs[o] != t.orgs[p])
    && (forall u :: u in t.admins ==> t.admins[u].org in t.orgs && t.orgs[t.admins[u].org] == t.admins[u].orgPk)
  }

  /** The admin rows of every org other than `org`, which no statement scoped to `org` may touch. */
  ghost predicate SameOutside(t: Tables, t': Tables, org: OrgId) {
    && (forall u :: u in t.admins && t.admins[u].org != org ==> u in t'.admins && t'.admins[u] == t.admins[u])
    && (forall u :: u in t'.admins && t'.admins[u].org != org ==> u in t.admins && t'.admins[u] == t.admins[u])
    && (forall u :: u in t.users && t.users[u].org != org ==> u in t'.users && t'.users[u] == t.users[u])
    && (forall u :: u in t'.users && t'.users[u].org != org ==> u in t.users && t'.users[u] == t.users[u])
  }

  lemma ExecStaysInScope(t: Tables, org: OrgId, s: AdminStmt)
    ensures var r := Exec(t, Some(org), s);
            r.Some? ==> SameOutside(t, r.value, org) && r.value.orgs == t.orgs && r.value.audit == t.audit
  {
  }

  lemma EmitStaysInScope(t: Tables, org: OrgId, p: Pending)
    ensures var r := Emit(t, Some(org), p);
            r.Some? ==> SameOutside(t, r.value, org) && r.value.orgs == t.orgs && r.value.admins == t.admins
  {
  }
}
