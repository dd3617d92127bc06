/** What each member-management request is answered and what it leaves, told from the tables, the directory
    and the outside world as they were before it. */
module Outcomes {
  import opened Prelude
  import opened Tenancy
  import opened AdminAccess
  import opened MemberRoutes
  import opened AdminTheorems

  /** The org has a user with this primary key. */
  predicate Knows(t: Tables, org: OrgId, id: nat) {
    id in t.userIds && t.userIds[id] in t.users && t.users[t.userIds[id]].org == org
  }

  /** The directory answers the list call and has the membership on its page. */
  predicate ListedMember(clerk: Members, env: Env, org: OrgId, u: UserId) {
    (org, u) in clerk && (org, u) !in env.unlisted
  }

  predicate IsLastAdmin(t: Tables, org: OrgId) {
    |ActiveAdmins(t, org)| <= 1
  }

  lemma {:induction false} OneOfAtMostOne<T>(s: set<T>, x: T)
    requires x in s
    ensures |s| <= 1 <==> s == {x}
  {
    if |s| <= 1 {
      LoneElement(s, x);
    }
  }

  // ---------- replies ----------

  /** Removal in the own org: refused only to the caller's own row. Its count check never fires, since the
      caller is an active admin besides the target. */
  lemma RemoveMemberReplies(t: Tables, clerk: Members, c: Claims, id: nat, env: Env)
    requires Coherent(t) && OrgAdmin(t, c)
    ensures var reply := RemoveMemberSpec(t, clerk, c, id, env).reply;
            && (reply == NotFound <==> !Knows(t, c.tenant, id))
            && (reply == Forbidden <==> Knows(t, c.tenant, id) && t.userIds[id] == c.user)
            && (reply == ClerkError <==> Knows(t, c.tenant, id) && t.userIds[id] != c.user
                                         && !(env.clerkWrote && (c.tenant, t.userIds[id]) in clerk))
            && (reply == Ok <==> Knows(t, c.tenant, id) && t.userIds[id] != c.user
                                 && env.clerkWrote && (c.tenant, t.userIds[id]) in clerk)
  {
    RemoveMemberNeverRaises(t, clerk, c, id, env);
    assert c.user in ActiveAdmins(t, c.tenant);
    OneOfAtMostOne(ActiveAdmins(t, c.tenant), c.user);
    if Knows(t, c.tenant, id) {
      var row := SelectAdmin(t, Some(c.tenant), t.userIds[id]);
      assert (row.Some? && row.value.status == Active) ==> t.userIds[id] in ActiveAdmins(t, c.tenant);
    }
  }

  predicate HoldsRole(t: Tables, u: UserId, role: Role) {
    u in t.users && t.users[u].role == if role == Admin then "admin" else "member"
  }

  /** Role change in the own org: refused to the caller's own row, and for a user called an admin exactly when the
      caller is the org's only active admin. */
  lemma UpdateMemberRoleReplies(t: Tables, clerk: Members, cfg: Config, c: Claims, id: nat, role: Role, env: Env)
    requires Coherent(t) && OrgAdmin(t, c)
    ensures var reply := UpdateMemberRoleSpec(t, clerk, cfg, c, id, role, env).reply;
            var refused := Knows(t, c.tenant, id) &&
                           (t.userIds[id] == c.user
                            || (role == Member && t.users[t.userIds[id]].role == "admin" && ActiveAdmins(t, c.tenant) == {c.user}));
            && (reply == NotFound <==> !Knows(t, c.tenant, id))
            && (reply == Forbidden <==> refused)
            && (reply == ClerkError <==> Knows(t, c.tenant, id) && !refused && !HoldsRole(t, t.userIds[id], role)
                                         && !(env.clerkWrote && (c.tenant, t.userIds[id]) in clerk))
            && (reply == Ok || reply == Raised <==>
                  Knows(t, c.tenant, id) && !refused
                  && (HoldsRole(t, t.userIds[id], role) || (env.clerkWrote && (c.tenant, t.userIds[id]) in clerk)))
            && (reply == Ok && Knows(t, c.tenant, id) && HoldsRole(t, t.userIds[id], role) ==>
                  UpdateMemberRoleSpec(t, clerk, cfg, c, id, role, env) == Outcome(Ok, Some(t), clerk))
  {
    assert |"admin"| != |"member"|;
    assert c.user in ActiveAdmins(t, c.tenant);
    OneOfAtMostOne(ActiveAdmins(t, c.tenant), c.user);
  }

  /** Role change across orgs: refused in the platform org, to the caller's own row, and for a listed org:admin of
      an org with at most one active admin. */
  lemma UpdateOrgMemberRoleReplies(t: Tables, clerk: Members, cfg: Config, c: Claims, org: OrgId, u: UserId, role: Role, env: Env)
    requires Coherent(t) && OrgAdmin(t, c)
    ensures var reply := UpdateOrgMemberRoleSpec(t, clerk, cfg, c, org, u, role, env).reply;
            var listed := env.clerkListed && ListedMember(clerk, env, org, u);
            var open := org != cfg.platformOrg && u != c.user;
            var last := listed && clerk[(org, u)] == "org:admin" && role == Member && IsLastAdmin(t, org);
            var same := listed && clerk[(org, u)] == if role == Admin then "org:admin" else "org:member";
            && (reply == Forbidden <==> !open || last)
            && (reply == NotFound <==> open && env.clerkListed && !listed)
            && (reply == ClerkError <==> open && (!env.clerkListed || (listed && !last && !same && !env.clerkWrote)))
            && (reply == Ok <==> open && listed && !last && (same || env.clerkWrote))
            && (reply == Ok && same ==> UpdateOrgMemberRoleSpec(t, clerk, cfg, c, org, u, role, env) == Outcome(Ok, Some(t), clerk))
  {
    assert |"org:admin"| != |"org:member"|;
    UpdateOrgMemberRoleNeverRaises(t, clerk, cfg, c, org, u, role, env);
  }

  /** Removal across orgs, likewise. */
  lemma RemoveOrgMemberReplies(t: Tables, clerk: Members, cfg: Config, c: Claims, org: OrgId, u: UserId, env: Env)
    requires Coherent(t) && OrgAdmin(t, c)
    ensures var reply := RemoveOrgMemberSpec(t, clerk, cfg, c, org, u, env).reply;
            var listed := env.clerkListed && ListedMember(clerk, env, org, u);
            var open := org != cfg.platformOrg && u != c.user;
            var last := listed && clerk[(org, u)] == "org:admin" && IsLastAdmin(t, org);
            && (reply == Forbidden <==> !open || last)
            && (reply == NotFound <==> open && env.clerkListed && !listed)
            && (reply == ClerkError <==> open && (!env.clerkListed || (listed && !last && !env.clerkWrote)))
            && (reply == Ok <==> open && listed && !last && env.clerkWrote)
  {
    RemoveOrgMemberNeverRaises(t, clerk, cfg, c, org, u, env);
  }

  // ---------- what a committed request leaves ----------

  /** The admin table with `u`'s row of `org`, if there is one, deactivated or promoted. */
  function WithAdmin(admins: map<UserId, AdminRow>, org: OrgId, u: UserId, status: Status, kind: AdminKind, at: Time): map<UserId, AdminRow> {
    if u in admins && admins[u].org == org
    then admins[u := AdminRow(org, admins[u].orgPk, admins[u].email, kind, status, Some(at))]
    else admins
  }

  function KindNow(admins: map<UserId, AdminRow>, u: UserId): AdminKind {
    if u in admins then admins[u].kind else Client
  }

  /** One audit row more: the caller's org key, the caller, the e-mail of the caller's row, and what was done. */
  predicate Logs(t: Tables, t': Tables, c: Claims, payload: Payload) {
    && c.tenant in t.orgs && c.user in t.admins
    && t'.audit == t.audit + [AuditRow(t.orgs[c.tenant], c.user, t.admins[c.user].email, payload)]
  }

  lemma RemoveMemberLeaves(t: Tables, clerk: Members, c: Claims, id: nat, env: Env)
    requires Coherent(t) && OrgAdmin(t, c) && RemoveMemberSpec(t, clerk, c, id, env).reply == Ok && Knows(t, c.tenant, id)
    ensures var o, u := RemoveMemberSpec(t, clerk, c, id, env), t.userIds[id];
            var row := t.users[u];
            && o.clerk == clerk - {(c.tenant, u)} && o.tables.Some?
            && var t' := o.tables.value;
               && t'.users == t.users[u := UserRow(row.org, row.email, row.role, Inactive, Some(env.at))]
               && t'.admins == (if u in ActiveAdmins(t, c.tenant)
                                then WithAdmin(t.admins, c.tenant, u, Inactive, KindNow(t.admins, u), env.at) else t.admins)
               && Logs(t, t', c, MemberRemoved(c.tenant, u, row.email, u in ActiveAdmins(t, c.tenant)))
  {
  }

  lemma UpdateMemberRoleLeaves(t: Tables, clerk: Members, cfg: Config, c: Claims, id: nat, role: Role, env: Env)
    requires Coherent(t) && OrgAdmin(t, c) && Knows(t, c.tenant, id) && !HoldsRole(t, t.userIds[id], role)
    requires UpdateMemberRoleSpec(t, clerk, cfg, c, id, role, env).reply == Ok
    ensures var o, u := UpdateMemberRoleSpec(t, clerk, cfg, c, id, role, env), t.userIds[id];
            var row := t.users[u];
            var name := if role == Admin then "admin" else "member";
            && o.clerk == clerk[(c.tenant, u) := if role == Admin then "org:admin" else "org:member"] && o.tables.Some?
            && var t' := o.tables.value;
               && t'.users == t.users[u := UserRow(row.org, row.email, name, row.status, row.deactivatedAt)]
               && t'.admins == (if role == Member then WithAdmin(t.admins, c.tenant, u, Inactive, KindNow(t.admins, u), env.at)
                                else if u in t.admins
                                then WithAdmin(t.admins, c.tenant, u, Active, if c.tenant == cfg.platformOrg then Platform else Client, env.at)
                                else t.admins[u := AdminRow(c.tenant, t.orgs[c.tenant], row.email,
                                                            if c.tenant == cfg.platformOrg then Platform else Client, Active, None)])
               && Logs(t, t', c, RoleChanged(c.tenant, u, row.email, row.role, name, true))
  {
  }

  lemma CrossOrgChangeOfUsers(t: Tables, clerk: Members, cfg: Config, c: Claims, org: OrgId, u: UserId, role: Role, env: Env)
    requires Coherent(t) && OrgAdmin(t, c) && UpdateOrgMemberRoleSpec(t, clerk, cfg, c, org, u, role, env).reply == Ok
    requires clerk[(org, u)] != (if role == Admin then "org:admin" else "org:member")
    ensures var o := UpdateOrgMemberRoleSpec(t, clerk, cfg, c, org, u, role, env);
            && o.clerk == clerk[(org, u) := if role == Admin then "org:admin" else "org:member"] && o.tables.Some?
            && o.tables.value.users ==
               if u in t.users && t.users[u].org == org
               then t.users[u := UserRow(org, t.users[u].email, if role == Admin then "admin" else "member",
                                         t.users[u].status, t.users[u].deactivatedAt)]
               else t.users
  {
  }

  lemma ExecLeaves(t: Tables, org: OrgId, stmt: AdminStmt)
    requires !stmt.ReactivateOrCreate?
    ensures Exec(t, Some(org), stmt).Some?
    ensures Exec(t, Some(org), stmt).value.admins ==
            if stmt.Deactivate? then WithAdmin(t.admins, org, stmt.user, Inactive, KindNow(t.admins, stmt.user), stmt.at)
            else WithAdmin(t.admins, org, stmt.user, Active, stmt.kind, stmt.at)
  {
  }

  lemma CrossOrgChangeOfAdmins(t: Tables, clerk: Members, cfg: Config, c: Claims, org: OrgId, u: UserId, role: Role, env: Env)
    requires Coherent(t) && OrgAdmin(t, c) && UpdateOrgMemberRoleSpec(t, clerk, cfg, c, org, u, role, env).reply == Ok
    requires clerk[(org, u)] != (if role == Admin then "org:admin" else "org:member")
    ensures var o := UpdateOrgMemberRoleSpec(t, clerk, cfg, c, org, u, role, env);
            o.tables.Some? && o.tables.value.admins ==
              if role == Member then WithAdmin(t.admins, org, u, Inactive, KindNow(t.admins, u), env.at)
              else WithAdmin(t.admins, org, u, Active, Client, env.at)
  {
    UpdateOrgMemberRoleEffect(t, clerk, cfg, c, org, u, role, env);
    ExecLeaves(t, org, Deactivate(u, env.at));
    ExecLeaves(t, org, ReactivateIfExists(u, Client, env.at));
  }

  lemma UpdateOrgMemberRoleLeaves(t: Tables, clerk: Members, cfg: Config, c: Claims, org: OrgId, u: UserId, role: Role, env: Env)
    requires Coherent(t) && OrgAdmin(t, c) && UpdateOrgMemberRoleSpec(t, clerk, cfg, c, org, u, role, env).reply == Ok
    requires clerk[(org, u)] != (if role == Admin then "org:admin" else "org:member")
    ensures var o := UpdateOrgMemberRoleSpec(t, clerk, cfg, c, org, u, role, env);
            var found := u in t.users && t.users[u].org == org;
            var name, clerkName := (if role == Admin then "admin" else "member"), (if role == Admin then "org:admin" else "org:member");
            && o.clerk == clerk[(org, u) := clerkName] && o.tables.Some?
            && var t' := o.tables.value;
               && t'.users == (if found then t.users[u := UserRow(org, t.users[u].email, name, t.users[u].status, t.users[u].deactivatedAt)]
                               else t.users)
               && t'.admins == (if role == Member then WithAdmin(t.admins, org, u, Inactive, KindNow(t.admins, u), env.at)
                                else WithAdmin(t.admins, org, u, Active, Client, env.at))
  {
    CrossOrgChangeOfUsers(t, clerk, cfg, c, org, u, role, env);
    CrossOrgChangeOfAdmins(t, clerk, cfg, c, org, u, role, env);
  }

  lemma UpdateOrgMemberRoleLogs(t: Tables, clerk: Members, cfg: Config, c: Claims, org: OrgId, u: UserId, role: Role, env: Env)
    requires Coherent(t) && OrgAdmin(t, c) && UpdateOrgMemberRoleSpec(t, clerk, cfg, c, org, u, role, env).reply == Ok
    requires clerk[(org, u)] != (if role == Admin then "org:admin" else "org:member")
    ensures var o := UpdateOrgMemberRoleSpec(t, clerk, cfg, c, org, u, role, env);
            o.tables.Some? && Logs(t, o.tables.value, c,
                                   RoleChanged(org, u, if u in env.emails then Some(env.emails[u]) else None, clerk[(org, u)],
                                               if role == Admin then "org:admin" else "org:member",
                                               u in t.users && t.users[u].org == org))
  {
  }

  lemma RemoveOrgMemberLeaves(t: Tables, clerk: Members, cfg: Config, c: Claims, org: OrgId, u: UserId, env: Env)
    requires Coherent(t) && OrgAdmin(t, c) && RemoveOrgMemberSpec(t, clerk, cfg, c, org, u, env).reply == Ok
    ensures var o := RemoveOrgMemberSpec(t, clerk, cfg, c, org, u, env);
            var found, wasAdmin := u in t.users && t.users[u].org == org, clerk[(org, u)] == "org:admin";
            && o.clerk == clerk - {(org, u)} && o.tables.Some?
            && var t' := o.tables.value;
               && t'.users == (if found then t.users[u := UserRow(org, t.users[u].email, t.users[u].role, Inactive, Some(env.at))]
                               else t.users)
               && t'.admins == (if wasAdmin then WithAdmin(t.admins, org, u, Inactive, KindNow(t.admins, u), env.at) else t.admins)
  {
  }

  lemma RemoveOrgMemberLogs(t: Tables, clerk: Members, cfg: Config, c: Claims, org: OrgId, u: UserId, env: Env)
    requires Coherent(t) && OrgAdmin(t, c) && RemoveOrgMemberSpec(t, clerk, cfg, c, org, u, env).reply == Ok
    ensures var o := RemoveOrgMemberSpec(t, clerk, cfg, c, org, u, env);
            o.tables.Some? && Logs(t, o.tables.value, c,
                                   MemberRemoved(org, u, if u in env.emails then Some(env.emails[u]) else None, clerk[(org, u)] == "org:admin"))
  {
  }

  /** A request that is refused or fails leaves the directory alone, unless the handler raised after its call. */
  lemma RefusalsLeaveDirectory(t: Tables, clerk: Members, cfg: Config, c: Claims, req: Request, env: Env)
    requires Handle(t, clerk, cfg, c, req, env).reply != Ok && Handle(t, clerk, cfg, c, req, env).reply != Raised
    ensures Handle(t, clerk, cfg, c, req, env).clerk == clerk && Handle(t, clerk, cfg, c, req, env).tables == None
  {
  }

  // ---------- provisioning ----------

  /** An admin token whose user has no row elsewhere is let in by its first request: afterwards there is an active
      row of the token's org, made with the org's key and the user's e-mail if there was none. */
  lemma AdminTokenIsLetIn(t: Tables, cfg: Config, c: Claims, env: Env)
    requires IsAdminToken(c) && Provision(t, cfg, c, env).Some?
    ensures var t1 := Provision(t, cfg, c, env).value;
            && OrgAdmin(t1, c) && c.tenant in t1.orgs
            && (c.user !in t.admins ==>
                  t1.admins == t.admins[c.user := AdminRow(c.tenant, t1.orgs[c.tenant],
                                                           if c.user in env.emails then Some(env.emails[c.user]) else None,
                                                           if c.tenant == cfg.platformOrg then Platform else Client, Active, None)])
            && t1.users == t.users && t1.audit == t.audit
  {
  }

  /** Provisioning adds at most the organisation of the token, with the next key, and at most the row of an admin
      token's user. */
  lemma ProvisioningAddsOnly(t: Tables, cfg: Config, c: Claims, env: Env)
    requires Provision(t, cfg, c, env).Some?
    ensures var t1 := Provision(t, cfg, c, env).value;
            && t1.orgs == (if c.tenant in t.orgs then t.orgs else t.orgs[c.tenant := t.nextPk])
            && t1.admins.Keys == t.admins.Keys + (if IsAdminToken(c) then {c.user} else {})
            && t1.users == t.users && t1.userIds == t.userIds && t1.audit == t.audit
  {
    ProvisioningOrgs(t, cfg, c, env);
    ProvisioningRows(t, cfg, c, env);
  }

  lemma EnsureAdminKeepsRest(t: Tables, cfg: Config, c: Claims, env: Env)
    requires c.tenant in t.orgs && EnsureAdmin(t, cfg, c, env).Some?
    ensures var r := EnsureAdmin(t, cfg, c, env).value;
            r.orgs == t.orgs && r.users == t.users && r.userIds == t.userIds && r.audit == t.audit
  {
  }

  lemma ProvisioningOrgs(t: Tables, cfg: Config, c: Claims, env: Env)
    requires Provision(t, cfg, c, env).Some?
    ensures var t1 := Provision(t, cfg, c, env).value;
            && t1.orgs == (if c.tenant in t.orgs then t.orgs else t.orgs[c.tenant := t.nextPk])
            && t1.users == t.users && t1.userIds == t.userIds && t1.audit == t.audit
  {
    EnsureAdminKeepsRest(EnsureOrg(t, c.tenant, env).value, cfg, c, env);
  }

  lemma ProvisioningRows(t: Tables, cfg: Config, c: Claims, env: Env)
    requires Provision(t, cfg, c, env).Some?
    ensures Provision(t, cfg, c, env).value.admins.Keys == t.admins.Keys + (if IsAdminToken(c) then {c.user} else {})
  {
  }

  // ---------- the policies ----------

  /** What row-level security lets a queued write do: an update only of a row of the scope's org, an audit row only
      with the key of the scope's org. */
  lemma PoliciesExactly(t: Tables, scope: Scope, p: Pending)
    ensures Emit(t, scope, p).Some? <==>
            if p.AddAudit? then scope.Some? && scope.value in t.orgs && t.orgs[scope.value] == p.row.orgPk
            else p.user in t.users && scope == Some(t.users[p.user].org)
  {
  }
}
