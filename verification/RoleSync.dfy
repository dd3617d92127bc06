/** Three stores hold a member's role: the directory, the users table and the admin table. What role
    changes and removals leave in all three together. */
module RoleSync {
  import opened Prelude
  import opened Tenancy
  import opened AdminAccess
  import opened MemberRoutes
  import opened AdminTheorems
  import opened AdminRuns

  /** For a user the org knows, the three stores agree on being an admin of the org. */
  predicate InSync(t: Tables, clerk: Members, org: OrgId, u: UserId) {
    u in t.users && t.users[u].org == org ==>
      && (t.users[u].role == "admin" <==> AdminInDirectory(clerk, org, u))
      && (u in ActiveAdmins(t, org) <==> AdminInDirectory(clerk, org, u))
  }

  /** A committed own-org role change puts the three stores in agreement for its target, whatever they
      held before. */
  lemma RoleChangeSyncsTarget(t: Tables, clerk: Members, cfg: Config, c: Claims, id: nat, role: Role, env: Env)
    requires var o := UpdateMemberRoleSpec(t, clerk, cfg, c, id, role, env); o.reply == Ok && o.tables.Some?
    requires t.users[GetUser(t, Some(c.tenant), id).value].role != RoleName(role)
    ensures var o := UpdateMemberRoleSpec(t, clerk, cfg, c, id, role, env);
            var u := GetUser(t, Some(c.tenant), id).value;
            && InSync(o.tables.value, o.clerk, c.tenant, u)
            && u in o.tables.value.users && o.tables.value.users[u].role == RoleName(role)
            && (AdminInDirectory(o.clerk, c.tenant, u) <==> role == Admin)
  {
    var o := UpdateMemberRoleSpec(t, clerk, cfg, c, id, role, env);
    var u := GetUser(t, Some(c.tenant), id).value;
    assert |"admin"| != |"member"| && |"org:admin"| != |"org:member"|;
    assert o.clerk == clerk[(c.tenant, u) := ClerkRole(role)];
  }

  /** It leaves every other user's rows and directory role alone, so agreement is kept for everybody. */
  lemma RoleChangeKeepsOthers(t: Tables, clerk: Members, cfg: Config, c: Claims, id: nat, role: Role, env: Env, v: UserId)
    requires var o := UpdateMemberRoleSpec(t, clerk, cfg, c, id, role, env); o.reply == Ok && o.tables.Some?
    requires GetUser(t, Some(c.tenant), id) != Some(v)
    ensures var o := UpdateMemberRoleSpec(t, clerk, cfg, c, id, role, env);
            InSync(o.tables.value, o.clerk, c.tenant, v) <==> InSync(t, clerk, c.tenant, v)
  {
  }

  lemma RoleChangeKeepsSync(t: Tables, clerk: Members, cfg: Config, c: Claims, id: nat, role: Role, env: Env, v: UserId)
    requires var o := UpdateMemberRoleSpec(t, clerk, cfg, c, id, role, env); o.reply == Ok && o.tables.Some?
    requires InSync(t, clerk, c.tenant, v)
    ensures var o := UpdateMemberRoleSpec(t, clerk, cfg, c, id, role, env);
            InSync(o.tables.value, o.clerk, c.tenant, v)
  {
    var target := GetUser(t, Some(c.tenant), id);
    if target != Some(v) {
      RoleChangeKeepsOthers(t, clerk, cfg, c, id, role, env, v);
    } else if t.users[v].role != RoleName(role) {
      RoleChangeSyncsTarget(t, clerk, cfg, c, id, role, env);
    }
  }

  /** A committed cross-org role change is best-effort on the tables: the stores agree on its target
      afterwards if and only if it demoted, or there was an admin row to promote, or the org knows no
      such user. */
  lemma CrossOrgChangeSyncsExactly(t: Tables, clerk: Members, cfg: Config, c: Claims, org: OrgId, u: UserId, role: Role, env: Env)
    requires var o := UpdateOrgMemberRoleSpec(t, clerk, cfg, c, org, u, role, env); o.reply == Ok && o.tables.Some?
    requires clerk[(org, u)] != ClerkRole(role)
    ensures var o := UpdateOrgMemberRoleSpec(t, clerk, cfg, c, org, u, role, env);
            && (AdminInDirectory(o.clerk, org, u) <==> role == Admin)
            && (InSync(o.tables.value, o.clerk, org, u) <==>
                role == Member || Holds(t, org, u) || SelectUser(t, Some(org), u).None?)
  {
    var o := UpdateOrgMemberRoleSpec(t, clerk, cfg, c, org, u, role, env);
    assert |"admin"| != |"member"| && |"org:admin"| != |"org:member"|;
    assert o.clerk == clerk[(org, u) := ClerkRole(role)];
    CrossOrgRow(t, clerk, cfg, c, org, u, role, env);
  }

  lemma CrossOrgRow(t: Tables, clerk: Members, cfg: Config, c: Claims, org: OrgId, u: UserId, role: Role, env: Env)
    requires UpdateOrgMemberRoleSpec(t, clerk, cfg, c, org, u, role, env).tables.Some?
    requires clerk[(org, u)] != ClerkRole(role)
    ensures var t' := UpdateOrgMemberRoleSpec(t, clerk, cfg, c, org, u, role, env).tables.value;
            && (u in ActiveAdmins(t', org) <==> role == Admin && Holds(t, org, u))
            && (SelectUser(t', Some(org), u).Some? <==> SelectUser(t, Some(org), u).Some?)
            && (SelectUser(t, Some(org), u).Some? ==> t'.users[u].role == RoleName(role))
  {
  }

  /** Own-org removal leaves neither a membership nor an active admin row nor an active user row. */
  lemma RemovalLeavesNoAccess(t: Tables, clerk: Members, c: Claims, id: nat, env: Env)
    requires RemoveMemberSpec(t, clerk, c, id, env).tables.Some?
    ensures var o := RemoveMemberSpec(t, clerk, c, id, env);
            var u := GetUser(t, Some(c.tenant), id).value;
            && (c.tenant, u) !in o.clerk
            && u !in ActiveAdmins(o.tables.value, c.tenant)
            && u in o.tables.value.users && o.tables.value.users[u].status == Inactive
  {
  }

  /** Cross-org removal decides by the directory's role instead of the row: it leaves the removed user an
      active admin row if and only if there was one and the directory did not say org:admin. When the
      stores agreed before, it leaves none to a user the org knows. */
  lemma CrossOrgRemovalLeavesAccessExactly(t: Tables, clerk: Members, cfg: Config, c: Claims, org: OrgId, u: UserId, env: Env)
    requires RemoveOrgMemberSpec(t, clerk, cfg, c, org, u, env).tables.Some?
    ensures var o := RemoveOrgMemberSpec(t, clerk, cfg, c, org, u, env);
            && (org, u) !in o.clerk
            && (u in ActiveAdmins(o.tables.value, org) <==> u in ActiveAdmins(t, org) && clerk[(org, u)] != "org:admin")
            && (InSync(t, clerk, org, u) && SelectUser(t, Some(org), u).Some? ==> u !in ActiveAdmins(o.tables.value, org))
  {
    var isAdmin := clerk[(org, u)] == "org:admin";
    var t1 := if isAdmin then Exec(t, Some(org), Deactivate(u, env.at)).value else t;
    assert ActiveAdmins(t1, org) == ActiveAdmins(RemoveOrgMemberSpec(t, clerk, cfg, c, org, u, env).tables.value, org);
  }
}
