/** What one admin request can and cannot do, for every table contents, directory contents,
    token and request. */
module AdminTheorems {
  import opened Prelude
  import opened Tenancy
  import opened AdminAccess
  import opened MemberRoutes

  // ---------- invariants ----------

  /** An admin row is of the platform kind exactly when its org is the configured, non-empty
      platform org. */
  ghost predicate KindsMatch(t: Tables, cfg: Config) {
    forall u :: u in t.admins ==>
      (t.admins[u].kind == Platform <==> cfg.platformOrg.clerkId != "" && t.admins[u].org == cfg.platformOrg)
  }

  /** Every admin row is still there, in the same org, under the same org key. */
  ghost predicate NoRowMoves(t: Tables, t': Tables) {
    forall u :: u in t.admins ==>
      u in t'.admins && t'.admins[u].org == t.admins[u].org && t'.admins[u].orgPk == t.admins[u].orgPk
  }

  ghost predicate Good(t: Tables, cfg: Config) {
    Coherent(t) && KindsMatch(t, cfg)
  }

  /** A statement whose inserted or written values agree with the org it is scoped to. */
  predicate Fits(t: Tables, cfg: Config, org: OrgId, s: AdminStmt) {
    match s
    case Deactivate(_, _) => true
    case ReactivateIfExists(_, kind, _) => kind == KindOf(cfg, org)
    case ReactivateOrCreate(_, _, orgPk, _, kind, _) =>
      org.clerkId != "" && org in t.orgs && t.orgs[org] == orgPk && kind == KindOf(cfg, org)
  }

  lemma ExecKeepsCoherent(t: Tables, cfg: Config, org: OrgId, s: AdminStmt)
    requires Coherent(t) && Fits(t, cfg, org, s)
    ensures var r := Exec(t, Some(org), s); r.Some? ==> Coherent(r.value)
  {
  }

  lemma ExecKeepsKinds(t: Tables, cfg: Config, org: OrgId, s: AdminStmt)
    requires KindsMatch(t, cfg) && Fits(t, cfg, org, s) && org.clerkId != ""
    ensures var r := Exec(t, Some(org), s); r.Some? ==> KindsMatch(r.value, cfg)
  {
  }

  lemma ExecMovesNoRow(t: Tables, org: OrgId, s: AdminStmt)
    ensures var r := Exec(t, Some(org), s); r.Some? ==> NoRowMoves(t, r.value)
  {
  }

  lemma ExecKeepsGood(t: Tables, cfg: Config, org: OrgId, s: AdminStmt)
    requires Good(t, cfg) && Fits(t, cfg, org, s) && org.clerkId != ""
    ensures var r := Exec(t, Some(org), s);
            r.Some? ==> Good(r.value, cfg) && NoRowMoves(t, r.value)
  {
    ExecKeepsCoherent(t, cfg, org, s);
    ExecKeepsKinds(t, cfg, org, s);
    ExecMovesNoRow(t, org, s);
  }

  lemma EnsureOrgKeepsGood(t: Tables, cfg: Config, tenant: OrgId, env: Env)
    requires Good(t, cfg)
    ensures var r := EnsureOrg(t, tenant, env);
            r.Some? ==> Good(r.value, cfg) && tenant in r.value.orgs && r.value == t.(orgs := r.value.orgs, nextPk := r.value.nextPk)
  {
    if tenant !in t.orgs && env.orgFetched {
      var t' := EnsureOrg(t, tenant, env).value;
      forall o, p | o in t'.orgs && p in t'.orgs && o != p ensures t'.orgs[o] != t'.orgs[p] {
        assert o != tenant ==> t.orgs[o] < t.nextPk;
        assert p != tenant ==> t.orgs[p] < t.nextPk;
      }
    }
  }

  /** The statement that provisioning runs on the admin table, if any. */
  function ProvisionStmt(t: Tables, cfg: Config, c: Claims, env: Env): Option<AdminStmt>
    requires c.tenant in t.orgs
  {
    var row := SelectAdmin(t, Some(c.tenant), c.user);
    if OrgAdmin(t, c) then
      if IsAdminToken(c) || InGrace(cfg, row.value, env.now) then None else Some(Deactivate(c.user, env.now))
    else if IsAdminToken(c) then
      Some(ReactivateOrCreate(c.user, c.tenant, t.orgs[c.tenant], EmailOf(env, c.user), KindOf(cfg, c.tenant), env.now))
    else None
  }

  lemma ProvisionKeepsGood(t: Tables, cfg: Config, c: Claims, env: Env)
    requires Good(t, cfg) && c.tenant.clerkId != ""
    ensures var r := Provision(t, cfg, c, env);
            r.Some? ==> Good(r.value, cfg) && NoRowMoves(t, r.value) && c.tenant in r.value.orgs
                        && SameOutside(t, r.value, c.tenant) && r.value.audit == t.audit
  {
    EnsureOrgKeepsGood(t, cfg, c.tenant, env);
    var r := EnsureOrg(t, c.tenant, env);
    if r.Some? {
      var stmt := ProvisionStmt(r.value, cfg, c, env);
      assert EnsureAdmin(r.value, cfg, c, env) ==
             if stmt.None? then r else Exec(r.value, Some(c.tenant), stmt.value);
      if stmt.Some? {
        ExecKeepsGood(r.value, cfg, c.tenant, stmt.value);
        ExecStaysInScope(r.value, c.tenant, stmt.value);
      }
    }
  }

  /** The org whose rows a request may touch besides the caller's own. */
  function TargetOrg(c: Claims, req: Request): OrgId {
    match req
    case UpdateOrgMemberRole(org, _, _) => org
    case RemoveOrgMember(org, _) => org
    case _ => c.tenant
  }

  /** The admin statement a handler runs on its way to a commit, if any. */
  function HandlerStmt(t: Tables, clerk: Members, cfg: Config, c: Claims, req: Request, env: Env): Option<AdminStmt> {
    match req
    case GetContext => None
    case RemoveMember(id) =>
      var target := GetUser(t, Some(c.tenant), id);
      if target.Some? && OrgAdmin(t, c.(user := target.value)) then Some(Deactivate(target.value, env.at)) else None
    case UpdateMemberRole(id, role) =>
      var target := GetUser(t, Some(c.tenant), id);
      var actor := SelectAdmin(t, Some(c.tenant), c.user);
      if target.None? || actor.None? || RoleName(role) == t.users[target.value].role then None
      else if role == Member then Some(Deactivate(target.value, env.at))
      else Some(ReactivateOrCreate(target.value, c.tenant, actor.value.orgPk, t.users[target.value].email,
                                   KindOf(cfg, c.tenant), env.at))
    case UpdateOrgMemberRole(org, u, role) =>
      if (org, u) !in clerk || ClerkRole(role) == clerk[(org, u)] then None
      else if role == Member then Some(Deactivate(u, env.at))
      else Some(ReactivateIfExists(u, Client, env.at))
    case RemoveOrgMember(org, u) =>
      if (org, u) in clerk && clerk[(org, u)] == "org:admin" then Some(Deactivate(u, env.at)) else None
  }

  /** The effect of a committed request: `stmt` on the admin table under `org`'s scope, no user row
      outside `org`, no organisation, and at most one audit row, keyed by the caller's own org. */
  ghost predicate Effect(t: Tables, t': Tables, tenant: OrgId, org: OrgId, stmt: Option<AdminStmt>) {
    && (match stmt
        case None => t'.admins == t.admins
        case Some(s) => Exec(t, Some(org), s).Some? && t'.admins == Exec(t, Some(org), s).value.admins)
    && t'.orgs == t.orgs && t'.nextPk == t.nextPk && t'.userIds == t.userIds
    && t'.users.Keys == t.users.Keys
    && (forall u :: u in t.users && t.users[u].org != org ==> t'.users[u] == t.users[u])
    && (t'.audit == t.audit || (tenant in t.orgs && Appended(t.audit, t'.audit, t.orgs[tenant])))
  }

  predicate Appended(before: seq<AuditRow>, after: seq<AuditRow>, orgPk: nat) {
    |after| == |before| + 1 && after[..|before|] == before && after[|before|].orgPk == orgPk
  }

  lemma AuditedAppends(t: Tables, c: Claims, payload: Payload)
    requires Audited(t, c, payload).Some?
    ensures var t' := Audited(t, c, payload).value;
            t' == t.(audit := t'.audit) && c.tenant in t.orgs && Appended(t.audit, t'.audit, t.orgs[c.tenant])
  {
  }

  lemma RemoveMemberEffect(t: Tables, clerk: Members, cfg: Config, c: Claims, id: nat, env: Env)
    requires RemoveMemberSpec(t, clerk, c, id, env).tables.Some?
    ensures Effect(t, RemoveMemberSpec(t, clerk, c, id, env).tables.value, c.tenant, c.tenant,
                   HandlerStmt(t, clerk, cfg, c, RemoveMember(id), env))
  {
  }

  lemma UpdateMemberRoleEffect(t: Tables, clerk: Members, cfg: Config, c: Claims, id: nat, role: Role, env: Env)
    requires UpdateMemberRoleSpec(t, clerk, cfg, c, id, role, env).tables.Some?
    ensures Effect(t, UpdateMemberRoleSpec(t, clerk, cfg, c, id, role, env).tables.value, c.tenant, c.tenant,
                   HandlerStmt(t, clerk, cfg, c, UpdateMemberRole(id, role), env))
  {
  }

  lemma StatementEffect(t: Tables, t1: Tables, tenant: OrgId, org: OrgId, stmt: Option<AdminStmt>)
    requires if stmt.None? then t1 == t else Exec(t, Some(org), stmt.value) == Some(t1)
    ensures Effect(t, t1, tenant, org, stmt) && t1.audit == t.audit
  {
  }

  lemma UserWriteEffect(t: Tables, t1: Tables, t2: Tables, tenant: OrgId, org: OrgId, u: UserId, stmt: Option<AdminStmt>)
    requires Effect(t, t1, tenant, org, stmt) && u in t.users && t.users[u].org == org
    requires u in t2.users && t2 == t1.(users := t1.users[u := t2.users[u]])
    ensures Effect(t, t2, tenant, org, stmt)
  {
  }

  /** The cross-org handlers' writes one after the other: the statement, the target user's row if the
      target org has it, the audit row. */
  lemma CrossOrgEffect(t: Tables, t1: Tables, t2: Tables, t3: Tables, tenant: OrgId, org: OrgId, u: UserId, stmt: Option<AdminStmt>)
    requires if stmt.None? then t1 == t else Exec(t, Some(org), stmt.value) == Some(t1)
    requires t2 == t1 || (SelectUser(t, Some(org), u).Some? && u in t2.users && t2 == t1.(users := t1.users[u := t2.users[u]]))
    requires t3 == t2.(audit := t3.audit) && tenant in t2.orgs && Appended(t2.audit, t3.audit, t2.orgs[tenant])
    ensures Effect(t, t3, tenant, org, stmt)
  {
    StatementEffect(t, t1, tenant, org, stmt);
    if t2 != t1 {
      UserWriteEffect(t, t1, t2, tenant, org, u, stmt);
    }
    AuditWriteEffect(t, t2, t3, tenant, org, stmt);
  }

  lemma AuditWriteEffect(t: Tables, t2: Tables, t3: Tables, tenant: OrgId, org: OrgId, stmt: Option<AdminStmt>)
    requires Effect(t, t2, tenant, org, stmt) && t2.audit == t.audit
    requires t3 == t2.(audit := t3.audit) && tenant in t2.orgs && Appended(t2.audit, t3.audit, t2.orgs[tenant])
    ensures Effect(t, t3, tenant, org, stmt)
  {
  }

  lemma UpdateOrgMemberRoleEffect(t: Tables, clerk: Members, cfg: Config, c: Claims, org: OrgId, u: UserId, role: Role, env: Env)
    requires UpdateOrgMemberRoleSpec(t, clerk, cfg, c, org, u, role, env).tables.Some?
    ensures Effect(t, UpdateOrgMemberRoleSpec(t, clerk, cfg, c, org, u, role, env).tables.value, c.tenant, org,
                   HandlerStmt(t, clerk, cfg, c, UpdateOrgMemberRole(org, u, role), env))
  {
    if ClerkRole(role) != clerk[(org, u)] {
      var stmt := if role == Admin then ReactivateIfExists(u, Client, env.at) else Deactivate(u, env.at);
      var t1 := Exec(t, Some(org), stmt).value;
      var found := SelectUser(t1, Some(org), u).Some?;
      var t2 := if found then WithRole(t1, u, RoleName(role)) else t1;
      var payload := RoleChanged(org, u, EmailOf(env, u), clerk[(org, u)], ClerkRole(role), found);
      AuditedAppends(t2, c, payload);
      CrossOrgEffect(t, t1, t2, Audited(t2, c, payload).value, c.tenant, org, u, Some(stmt));
    }
  }

  lemma RemoveOrgMemberEffect(t: Tables, clerk: Members, cfg: Config, c: Claims, org: OrgId, u: UserId, env: Env)
    requires RemoveOrgMemberSpec(t, clerk, cfg, c, org, u, env).tables.Some?
    ensures Effect(t, RemoveOrgMemberSpec(t, clerk, cfg, c, org, u, env).tables.value, c.tenant, org,
                   HandlerStmt(t, clerk, cfg, c, RemoveOrgMember(org, u), env))
  {
    var isAdmin := clerk[(org, u)] == "org:admin";
    var stmt := if isAdmin then Some(Deactivate(u, env.at)) else None;
    var t1 := if isAdmin then Exec(t, Some(org), Deactivate(u, env.at)).value else t;
    var t2 := if SelectUser(t1, Some(org), u).Some? then WithSoftDelete(t1, u, env.at) else t1;
    var payload := MemberRemoved(org, u, EmailOf(env, u), isAdmin);
    AuditedAppends(t2, c, payload);
    CrossOrgEffect(t, t1, t2, Audited(t2, c, payload).value, c.tenant, org, u, stmt);
  }

  lemma HandlerEffect(t: Tables, clerk: Members, cfg: Config, c: Claims, req: Request, env: Env)
    requires Handle(t, clerk, cfg, c, req, env).tables.Some?
    ensures Effect(t, Handle(t, clerk, cfg, c, req, env).tables.value, c.tenant, TargetOrg(c, req),
                   HandlerStmt(t, clerk, cfg, c, req, env))
  {
    match req
    case GetContext =>
    case RemoveMember(id) => RemoveMemberEffect(t, clerk, cfg, c, id, env);
    case UpdateMemberRole(id, role) => UpdateMemberRoleEffect(t, clerk, cfg, c, id, role, env);
    case UpdateOrgMemberRole(org, u, role) => UpdateOrgMemberRoleEffect(t, clerk, cfg, c, org, u, role, env);
    case RemoveOrgMember(org, u) => RemoveOrgMemberEffect(t, clerk, cfg, c, org, u, env);
  }

  lemma HandlerStmtFits(t: Tables, clerk: Members, cfg: Config, c: Claims, req: Request, env: Env)
    requires Good(t, cfg) && c.tenant.clerkId != "" && TargetOrg(c, req).clerkId != "" && c.tenant in t.orgs
    requires Handle(t, clerk, cfg, c, req, env).tables.Some?
    ensures var stmt := HandlerStmt(t, clerk, cfg, c, req, env);
            stmt.Some? ==> Fits(t, cfg, TargetOrg(c, req), stmt.value)
  {
  }

  lemma EffectKeepsGood(t: Tables, t': Tables, cfg: Config, tenant: OrgId, org: OrgId, stmt: Option<AdminStmt>)
    requires Good(t, cfg) && org.clerkId != "" && Effect(t, t', tenant, org, stmt)
    requires stmt.Some? ==> Fits(t, cfg, org, stmt.value)
    ensures Good(t', cfg) && NoRowMoves(t, t')
  {
    if stmt.Some? {
      var t1 := Exec(t, Some(org), stmt.value).value;
      ExecKeepsGood(t, cfg, org, stmt.value);
      ExecStaysInScope(t, org, stmt.value);
      assert t1.nextPk == t.nextPk;
      SameAdminsSameGood(t1, t', cfg);
    } else {
      SameAdminsSameGood(t, t', cfg);
    }
  }

  lemma HandleKeepsGood(t: Tables, clerk: Members, cfg: Config, c: Claims, req: Request, env: Env)
    requires Good(t, cfg) && c.tenant.clerkId != "" && TargetOrg(c, req).clerkId != "" && c.tenant in t.orgs
    requires Handle(t, clerk, cfg, c, req, env).tables.Some?
    ensures var t' := Handle(t, clerk, cfg, c, req, env).tables.value;
            Good(t', cfg) && NoRowMoves(t, t')
  {
    var t' := Handle(t, clerk, cfg, c, req, env).tables.value;
    var stmt := HandlerStmt(t, clerk, cfg, c, req, env);
    HandlerEffect(t, clerk, cfg, c, req, env);
    HandlerStmtFits(t, clerk, cfg, c, req, env);
    EffectKeepsGood(t, t', cfg, c.tenant, TargetOrg(c, req), stmt);
  }

  lemma SameAdminsSameGood(t: Tables, t': Tables, cfg: Config)
    requires Good(t, cfg) && t'.admins == t.admins && t'.orgs == t.orgs && t'.nextPk == t.nextPk
    ensures Good(t', cfg)
  {
  }

  /** Preserved by provisioning and by all four writing endpoints, whatever the reply. */
  lemma ServeKeepsGood(t: Tables, clerk: Members, cfg: Config, c: Claims, req: Request, env: Env)
    requires Good(t, cfg) && c.tenant.clerkId != "" && TargetOrg(c, req).clerkId != ""
    ensures var s := Serve(t, clerk, cfg, c, req, env);
            Good(s.tables, cfg) && NoRowMoves(t, s.tables)
  {
    ProvisionKeepsGood(t, cfg, c, env);
    var r := Provision(t, cfg, c, env);
    if r.Some? && Handle(r.value, clerk, cfg, c, req, env).tables.Some? {
      HandleKeepsGood(r.value, clerk, cfg, c, req, env);
    }
  }

  // ---------- tenant isolation of one request ----------

  /** The admin and user rows of `other` are the same, and no admin row was added to it. */
  ghost predicate OrgKept(t: Tables, t': Tables, other: OrgId) {
    && (forall u :: u in t.admins && t.admins[u].org == other ==> u in t'.admins && t'.admins[u] == t.admins[u])
    && (forall u :: u in t'.admins && t'.admins[u].org == other ==> u in t.admins && t'.admins[u] == t.admins[u])
    && (forall u :: u in t.users && t.users[u].org == other ==> u in t'.users && t'.users[u] == t.users[u])
  }

  ghost predicate AuditGrows(t: Tables, t': Tables, tenant: OrgId) {
    t'.audit == t.audit || (tenant in t'.orgs && Appended(t.audit, t'.audit, t'.orgs[tenant]))
  }

  lemma EffectKeepsThird(t: Tables, t': Tables, tenant: OrgId, org: OrgId, stmt: Option<AdminStmt>, other: OrgId)
    requires Effect(t, t', tenant, org, stmt) && other != org
    ensures OrgKept(t, t', other) && AuditGrows(t, t', tenant)
  {
    if stmt.Some? {
      ExecStaysInScope(t, org, stmt.value);
    }
  }

  lemma OrgKeptTransitive(a: Tables, b: Tables, c: Tables, other: OrgId)
    requires OrgKept(a, b, other) && OrgKept(b, c, other)
    ensures OrgKept(a, c, other)
  {
  }

  /** Rows of third orgs are never changed, a request without a cross-org target stays inside
      the token's org, and at most one audit row is appended, to the caller's own org. */
  lemma ServeIsolatesThirdOrgs(t: Tables, clerk: Members, cfg: Config, c: Claims, req: Request, env: Env, other: OrgId)
    requires Good(t, cfg) && c.tenant.clerkId != ""
    requires other != c.tenant && other != TargetOrg(c, req)
    ensures var t' := Serve(t, clerk, cfg, c, req, env).tables;
            OrgKept(t, t', other) && AuditGrows(t, t', c.tenant)
  {
    ProvisionKeepsGood(t, cfg, c, env);
    var r := Provision(t, cfg, c, env);
    if r.Some? {
      assert OrgKept(t, r.value, other);
      var o := Handle(r.value, clerk, cfg, c, req, env);
      if o.tables.Some? {
        HandlerEffect(r.value, clerk, cfg, c, req, env);
        EffectKeepsThird(r.value, o.tables.value, c.tenant, TargetOrg(c, req), HandlerStmt(r.value, clerk, cfg, c, req, env), other);
        OrgKeptTransitive(t, r.value, o.tables.value, other);
      }
    }
  }

  // ---------- provisioning survives rejection ----------

  /** A request that is not answered Ok leaves exactly what provisioning alone left, or the
      original tables when provisioning itself raised. */
  lemma RejectionKeepsProvisioning(t: Tables, clerk: Members, cfg: Config, c: Claims, req: Request, env: Env)
    requires Serve(t, clerk, cfg, c, req, env).reply != Ok
    ensures Serve(t, clerk, cfg, c, req, env).tables ==
            match Provision(t, cfg, c, env) case None => t case Some(t1) => t1
  {
  }

  /** Why there are two: when the sync revokes the caller, the guard of every guarded endpoint
      then refuses. Two transactions keep the revocation; a single one would lose it each time. */
  lemma OneTransactionLosesRevocation(t: Tables, clerk: Members, cfg: Config, c: Claims, req: Request, env: Env)
    requires c.tenant in t.orgs && OrgAdmin(t, c) && !IsAdminToken(c)
    requires !InGrace(cfg, t.admins[c.user], env.now)
    requires !req.GetContext?
    ensures Serve(t, clerk, cfg, c, req, env).reply == Forbidden
    ensures !OrgAdmin(Serve(t, clerk, cfg, c, req, env).tables, c)
    ensures OrgAdmin(ServeInOneTransaction(t, clerk, cfg, c, req, env).tables, c)
  {
  }

  lemma GuardMatchesRow(t1: Tables, cfg: Config, c: Claims, req: Request)
    requires KindsMatch(t1, cfg) && c.tenant.clerkId != "" && !req.GetContext?
    ensures GuardPasses(t1, cfg, c, req) <==>
              && c.user in t1.admins && t1.admins[c.user].org == c.tenant && t1.admins[c.user].status == Active
              && (req.UpdateOrgMemberRole? || req.RemoveOrgMember? ==> c.tenant == cfg.platformOrg)
  {
  }

  /** The guard of a guarded endpoint decides on the row that provisioning committed: it lets the
      caller through exactly when that row is active (and, for the cross-org endpoints, of the
      platform kind in the platform org); by the kinds invariant the kind test never decides alone. */
  lemma GuardMatchesCommittedRow(t: Tables, cfg: Config, c: Claims, req: Request, env: Env)
    requires Good(t, cfg) && c.tenant.clerkId != "" && Provision(t, cfg, c, env).Some? && !req.GetContext?
    ensures var t1 := Provision(t, cfg, c, env).value;
            GuardPasses(t1, cfg, c, req) <==>
              && c.user in t1.admins && t1.admins[c.user].org == c.tenant && t1.admins[c.user].status == Active
              && (req.UpdateOrgMemberRole? || req.RemoveOrgMember? ==> c.tenant == cfg.platformOrg)
  {
    ProvisionKeepsGood(t, cfg, c, env);
    GuardMatchesRow(Provision(t, cfg, c, env).value, cfg, c, req);
  }

  // ---------- crashes ----------

  lemma RemoveMemberNeverRaises(t: Tables, clerk: Members, c: Claims, id: nat, env: Env)
    requires Coherent(t) && OrgAdmin(t, c)
    ensures RemoveMemberSpec(t, clerk, c, id, env).reply != Raised
  {
  }

  lemma UpdateOrgMemberRoleNeverRaises(t: Tables, clerk: Members, cfg: Config, c: Claims, org: OrgId, u: UserId, role: Role, env: Env)
    requires Coherent(t) && OrgAdmin(t, c)
    ensures UpdateOrgMemberRoleSpec(t, clerk, cfg, c, org, u, role, env).reply != Raised
  {
  }

  lemma RemoveOrgMemberNeverRaises(t: Tables, clerk: Members, cfg: Config, c: Claims, org: OrgId, u: UserId, env: Env)
    requires Coherent(t) && OrgAdmin(t, c)
    ensures RemoveOrgMemberSpec(t, clerk, cfg, c, org, u, env).reply != Raised
  {
  }

  /** An own-org promotion of a user whose admin row belongs to another org. */
  predicate PromotesForeignAdmin(t: Tables, clerk: Members, c: Claims, id: nat, role: Role, env: Env) {
    && role == Admin
    && GetUser(t, Some(c.tenant), id).Some?
    && var u := GetUser(t, Some(c.tenant), id).value;
       && u != c.user && t.users[u].role != "admin"
       && env.clerkWrote && (c.tenant, u) in clerk
       && u in t.admins && t.admins[u].org != c.tenant
  }

  lemma UpdateMemberRoleRaisesExactly(t: Tables, clerk: Members, cfg: Config, c: Claims, id: nat, role: Role, env: Env)
    requires Coherent(t) && OrgAdmin(t, c)
    ensures var o := UpdateMemberRoleSpec(t, clerk, cfg, c, id, role, env);
            && (o.reply == Raised <==> PromotesForeignAdmin(t, clerk, c, id, role, env))
            && (o.reply == Raised ==> o.clerk == clerk[(c.tenant, GetUser(t, Some(c.tenant), id).value) := "org:admin"])
  {
  }

  /** With the invariant, the handlers never fail an assertion, a flush or a policy check, except
      for one case: an own-org promotion of a user whose admin row belongs to another org. There
      the directory's role has already been changed while the tables stay as they were. */
  lemma HandlerRaisesExactly(t: Tables, clerk: Members, cfg: Config, c: Claims, req: Request, env: Env)
    requires Good(t, cfg) && GuardPasses(t, cfg, c, req)
    ensures Handle(t, clerk, cfg, c, req, env).reply == Raised <==>
            req.UpdateMemberRole? && PromotesForeignAdmin(t, clerk, c, req.id, req.role, env)
    ensures Handle(t, clerk, cfg, c, req, env).reply == Raised ==>
            var u := GetUser(t, Some(c.tenant), req.id).value;
            Handle(t, clerk, cfg, c, req, env).clerk == clerk[(c.tenant, u) := "org:admin"]
  {
    match req
    case GetContext =>
    case RemoveMember(id) => RemoveMemberNeverRaises(t, clerk, c, id, env);
    case UpdateMemberRole(id, role) => UpdateMemberRoleRaisesExactly(t, clerk, cfg, c, id, role, env);
    case UpdateOrgMemberRole(org, u, role) => UpdateOrgMemberRoleNeverRaises(t, clerk, cfg, c, org, u, role, env);
    case RemoveOrgMember(org, u) => RemoveOrgMemberNeverRaises(t, clerk, cfg, c, org, u, env);
  }

  /** Provisioning raises exactly when the organisation cannot be fetched, or an admin token meets
      an admin row that its user holds in another org. */
  lemma ProvisionRaisesExactly(t: Tables, cfg: Config, c: Claims, env: Env)
    ensures Provision(t, cfg, c, env).None? <==>
            || (c.tenant !in t.orgs && !env.orgFetched)
            || (IsAdminToken(c) && c.user in t.admins && t.admins[c.user].org != c.tenant)
  {
  }

  // ---------- the last active admin ----------

  lemma RemovingOneKeepsAnother(t: Tables, t': Tables, org: OrgId, u: UserId, w: UserId)
    requires w in ActiveAdmins(t, org) && w != u
    requires w in t'.admins && t'.admins[w] == t.admins[w]
    ensures |ActiveAdmins(t', org)| > 0
  {
    assert w in ActiveAdmins(t', org);
  }

  lemma AnotherActiveAdmin(t: Tables, org: OrgId, u: UserId) returns (w: UserId)
    requires |ActiveAdmins(t, org)| > 1
    ensures w in ActiveAdmins(t, org) && w != u
  {
    var rest := ActiveAdmins(t, org) - {u};
    assert ActiveAdmins(t, org) <= rest + {u};
    if rest == {} {
      assert ActiveAdmins(t, org) <= {u};
      assert |ActiveAdmins(t, org)| <= |{u}| by { SubsetSize(ActiveAdmins(t, org), {u}); }
    }
    w :| w in rest;
  }

  lemma {:induction false} SubsetSize<T>(a: set<T>, b: set<T>)
    requires a <= b
    ensures |a| <= |b|
    decreases |a|
  {
    if a != {} {
      var x :| x in a;
      SubsetSize(a - {x}, b - {x});
    }
  }

  /** In an own-org request the caller's row is untouched by the handler, so its org keeps an
      active admin, whatever roles the directory and the users table hold. */
  lemma OwnOrgCallerSurvives(t: Tables, clerk: Members, cfg: Config, c: Claims, req: Request, env: Env)
    requires OrgAdmin(t, c) && (req.RemoveMember? || req.UpdateMemberRole?)
    ensures var o := Handle(t, clerk, cfg, c, req, env);
            o.tables.Some? ==> && c.user in o.tables.value.admins
                               && o.tables.value.admins[c.user] == t.admins[c.user]
                               && |ActiveAdmins(o.tables.value, c.tenant)| > 0
  {
    var o := Handle(t, clerk, cfg, c, req, env);
    if o.tables.Some? {
      assert o.tables.value.admins[c.user] == t.admins[c.user];
      assert c.user in ActiveAdmins(o.tables.value, c.tenant);
    }
  }

  lemma UntouchedOrgKeepsCount(t: Tables, t': Tables, org: OrgId)
    requires |ActiveAdmins(t, org)| > 0
    requires forall u :: u in t.admins && t.admins[u].org == org && t.admins[u].status == Active ==>
               u in t'.admins && t'.admins[u].org == org && t'.admins[u].status == Active
    ensures |ActiveAdmins(t', org)| > 0
  {
    var u :| u in ActiveAdmins(t, org);
    assert u in ActiveAdmins(t', org);
  }

  /** The one handler path that takes an org's last active admin: a cross-org demotion of a user
      whose role in the directory is neither org:admin nor org:member, so that the count check is
      skipped and the row is still deactivated. */
  predicate SkipsCountCheck(t: Tables, clerk: Members, c: Claims, req: Request, env: Env, org: OrgId) {
    && req.UpdateOrgMemberRole? && req.org == org && req.role == Member && req.user != c.user
    && env.clerkListed && env.clerkWrote
    && OnPage(clerk, env, org, req.user)
    && clerk[(org, req.user)] != "org:admin" && clerk[(org, req.user)] != "org:member"
    && ActiveAdmins(t, org) == {req.user}
  }

  /** No handler takes an org from some active admins to none, except through that path, and that
      path always does. */
  lemma LastActiveAdmin(t: Tables, clerk: Members, cfg: Config, c: Claims, req: Request, env: Env, org: OrgId)
    requires Good(t, cfg) && GuardPasses(t, cfg, c, req)
    requires |ActiveAdmins(t, org)| > 0
    ensures var o := Handle(t, clerk, cfg, c, req, env);
            (o.tables.Some? && |ActiveAdmins(o.tables.value, org)| == 0) <==>
            (org != cfg.platformOrg && SkipsCountCheck(t, clerk, c, req, env, org))
  {
    var o := Handle(t, clerk, cfg, c, req, env);
    HandlerRaisesExactly(t, clerk, cfg, c, req, env);
    if org != cfg.platformOrg && SkipsCountCheck(t, clerk, c, req, env, org) {
      assert o.tables.Some?;
      LoneAdminDemoted(t, o.tables.value, org, req.user);
    } else if o.tables.Some? {
      HandlerKeepsAnAdmin(t, clerk, cfg, c, req, env, org);
    }
  }

  lemma LoneAdminDemoted(t: Tables, t': Tables, org: OrgId, u: UserId)
    requires ActiveAdmins(t, org) == {u}
    requires u in t'.admins && t'.admins[u].status == Inactive
    requires t'.admins.Keys == t.admins.Keys && forall v :: v in t.admins && v != u ==> t'.admins[v] == t.admins[v]
    ensures |ActiveAdmins(t', org)| == 0
  {
    assert forall v :: v in t'.admins && t'.admins[v].status == Active && t'.admins[v].org == org ==> v in ActiveAdmins(t, org);
    assert ActiveAdmins(t', org) == {};
  }

  /** A statement that deactivates at most one of two active admins, or promotes, leaves one. */
  lemma StatementKeepsAnAdmin(t: Tables, scopeOrg: OrgId, s: AdminStmt, org: OrgId)
    requires Exec(t, Some(scopeOrg), s).Some?
    requires |ActiveAdmins(t, org)| > 0
    requires s.Deactivate? && scopeOrg == org ==> ActiveAdmins(t, org) != {s.user}
    ensures |ActiveAdmins(Exec(t, Some(scopeOrg), s).value, org)| > 0
  {
    var t' := Exec(t, Some(scopeOrg), s).value;
    if s.Deactivate? && scopeOrg == org && s.user in ActiveAdmins(t, org) {
      if |ActiveAdmins(t, org)| <= 1 {
        LoneElement(ActiveAdmins(t, org), s.user);
      }
      var w := AnotherActiveAdmin(t, org, s.user);
      RemovingOneKeepsAnother(t, t', org, s.user, w);
    } else {
      UntouchedOrgKeepsCount(t, t', org);
    }
  }

  lemma HandlerKeepsAnAdmin(t: Tables, clerk: Members, cfg: Config, c: Claims, req: Request, env: Env, org: OrgId)
    requires GuardPasses(t, cfg, c, req)
    requires |ActiveAdmins(t, org)| > 0
    requires !(org != cfg.platformOrg && SkipsCountCheck(t, clerk, c, req, env, org))
    requires Handle(t, clerk, cfg, c, req, env).tables.Some?
    ensures |ActiveAdmins(Handle(t, clerk, cfg, c, req, env).tables.value, org)| > 0
  {
    var t' := Handle(t, clerk, cfg, c, req, env).tables.value;
    var stmt := HandlerStmt(t, clerk, cfg, c, req, env);
    HandlerEffect(t, clerk, cfg, c, req, env);
    if stmt.None? {
      assert ActiveAdmins(t', org) == ActiveAdmins(t, org);
    } else {
      var t1 := Exec(t, Some(TargetOrg(c, req)), stmt.value).value;
      if stmt.value.Deactivate? && TargetOrg(c, req) == org {
        NeverTheLoneAdmin(t, clerk, cfg, c, req, env, stmt.value.user);
      }
      StatementKeepsAnAdmin(t, TargetOrg(c, req), stmt.value, org);
      assert ActiveAdmins(t', org) == ActiveAdmins(t1, org);
    }
  }

  /** The guards that stand before every deactivation. */
  lemma NeverTheLoneAdmin(t: Tables, clerk: Members, cfg: Config, c: Claims, req: Request, env: Env, u: UserId)
    requires GuardPasses(t, cfg, c, req)
    requires Handle(t, clerk, cfg, c, req, env).tables.Some?
    requires var stmt := HandlerStmt(t, clerk, cfg, c, req, env);
             stmt.Some? && stmt.value.Deactivate? && stmt.value.user == u
    requires !SkipsCountCheck(t, clerk, c, req, env, TargetOrg(c, req))
    ensures ActiveAdmins(t, TargetOrg(c, req)) != {u}
  {
    var org := TargetOrg(c, req);
    assert ActiveAdmins(t, org) == {u} ==> |ActiveAdmins(t, org)| == 1;
    assert req.RemoveMember? || req.UpdateMemberRole? ==> c.user in ActiveAdmins(t, org);
  }

  lemma LoneElement<T>(s: set<T>, x: T)
    requires x in s && |s| <= 1
    ensures s == {x}
  {
    SubsetSize({x}, s);
    assert |s - {x}| == 0;
    assert s == s - {x} + {x};
  }

  /** The downgrade sync: the caller holds an active row, shows a non-admin token, and is outside the window. */
  predicate SyncRevokes(t: Tables, cfg: Config, c: Claims, env: Env) {
    c.user in ActiveAdmins(t, c.tenant) && !IsAdminToken(c) && !InGrace(cfg, t.admins[c.user], env.now)
  }

  lemma SyncDeactivatesCaller(t: Tables, cfg: Config, c: Claims, env: Env)
    requires Provision(t, cfg, c, env).Some? && SyncRevokes(t, cfg, c, env)
    ensures var t' := Provision(t, cfg, c, env).value;
            t'.admins == t.admins[c.user := t.admins[c.user].(status := Inactive, updatedAt := Some(env.now))]
  {
  }

  lemma NoSyncKeepsActive(t: Tables, cfg: Config, c: Claims, env: Env, u: UserId)
    requires Provision(t, cfg, c, env).Some? && u in t.admins && t.admins[u].status == Active
    requires u == c.user && t.admins[u].org == c.tenant ==> !SyncRevokes(t, cfg, c, env)
    ensures var t' := Provision(t, cfg, c, env).value;
            u in t'.admins && t'.admins[u].org == t.admins[u].org && t'.admins[u].status == Active
  {
  }

  /** Provisioning can take the last active admin, and only by the downgrade sync: the caller was
      the org's sole active admin, came with a non-admin token, and was outside the window. */
  lemma SyncTakesLastAdminExactly(t: Tables, cfg: Config, c: Claims, env: Env, org: OrgId)
    requires Provision(t, cfg, c, env).Some? && |ActiveAdmins(t, org)| > 0
    ensures |ActiveAdmins(Provision(t, cfg, c, env).value, org)| == 0 <==>
            org == c.tenant && ActiveAdmins(t, org) == {c.user} && SyncRevokes(t, cfg, c, env)
  {
    var t' := Provision(t, cfg, c, env).value;
    if org == c.tenant && SyncRevokes(t, cfg, c, env) {
      SyncDeactivatesCaller(t, cfg, c, env);
      RevokingKeepsAnother(t, t', org, c.user);
    } else {
      NoSyncKeepsAnAdmin(t, cfg, c, env, org);
    }
  }

  lemma NoSyncKeepsAnAdmin(t: Tables, cfg: Config, c: Claims, env: Env, org: OrgId)
    requires Provision(t, cfg, c, env).Some? && |ActiveAdmins(t, org)| > 0
    requires !(org == c.tenant && SyncRevokes(t, cfg, c, env))
    ensures |ActiveAdmins(Provision(t, cfg, c, env).value, org)| > 0
  {
    var u :| u in ActiveAdmins(t, org);
    NoSyncKeepsActive(t, cfg, c, env, u);
    assert u in ActiveAdmins(Provision(t, cfg, c, env).value, org);
  }

  lemma RevokingKeepsAnother(t: Tables, t': Tables, org: OrgId, u: UserId)
    requires u in ActiveAdmins(t, org) && t'.admins.Keys == t.admins.Keys && t'.admins[u].status == Inactive
    requires forall v :: v in t.admins && v != u ==> t'.admins[v] == t.admins[v]
    ensures |ActiveAdmins(t', org)| == 0 <==> ActiveAdmins(t, org) == {u}
  {
    if ActiveAdmins(t, org) == {u} {
      LoneAdminDemoted(t, t', org, u);
    } else {
      if |ActiveAdmins(t, org)| <= 1 {
        LoneElement(ActiveAdmins(t, org), u);
      }
      var w := AnotherActiveAdmin(t, org, u);
      RemovingOneKeepsAnother(t, t', org, u, w);
    }
  }

  // ---------- what a token can grant ----------

  /** Provisioning with a non-admin token never enlarges any org's set of active admins; with an
      admin token it adds at most the caller, in the token's org. */
  lemma ProvisioningGrantsNothing(t: Tables, cfg: Config, c: Claims, env: Env, org: OrgId)
    requires Provision(t, cfg, c, env).Some?
    ensures ActiveAdmins(Provision(t, cfg, c, env).value, org) <=
            ActiveAdmins(t, org) + (if IsAdminToken(c) && org == c.tenant then {c.user} else {})
  {
    var t' := Provision(t, cfg, c, env).value;
    forall u | u in ActiveAdmins(t', org)
      ensures u in ActiveAdmins(t, org) + (if IsAdminToken(c) && org == c.tenant then {c.user} else {})
    {
    }
  }

  /** The user that a request promotes, in the org it promotes in. */
  predicate Promotes(t: Tables, c: Claims, req: Request, org: OrgId, u: UserId) {
    || (req.UpdateMemberRole? && req.role == Admin && c.tenant == org && GetUser(t, Some(c.tenant), req.id) == Some(u))
    || req == UpdateOrgMemberRole(org, u, Admin)
  }

  /** A committed handler makes an active admin only of the user it promotes. */
  lemma HandlerGrantsOnly(t: Tables, clerk: Members, cfg: Config, c: Claims, req: Request, env: Env, org: OrgId, u: UserId)
    requires Handle(t, clerk, cfg, c, req, env).tables.Some?
    requires u in ActiveAdmins(Handle(t, clerk, cfg, c, req, env).tables.value, org) && u !in ActiveAdmins(t, org)
    ensures Promotes(t, c, req, org, u)
  {
    HandlerEffect(t, clerk, cfg, c, req, env);
    StatementGrants(t, Handle(t, clerk, cfg, c, req, env).tables.value, c.tenant, TargetOrg(c, req),
                    HandlerStmt(t, clerk, cfg, c, req, env), org, u);
  }

  lemma StatementGrants(t: Tables, t': Tables, tenant: OrgId, scopeOrg: OrgId, stmt: Option<AdminStmt>, org: OrgId, u: UserId)
    requires Effect(t, t', tenant, scopeOrg, stmt)
    requires u in ActiveAdmins(t', org) && u !in ActiveAdmins(t, org)
    ensures stmt.Some? && !stmt.value.Deactivate? && stmt.value.user == u && scopeOrg == org
  {
  }

  /** Over a whole request: whoever is newly an active admin of an org is the caller, with an admin token
      of that org, or the target of a promotion that the request asked for and a guard let through. A
      non-admin token promotes only through an active row inside its window. */
  lemma RequestGrantsOnly(t: Tables, clerk: Members, cfg: Config, c: Claims, req: Request, env: Env, org: OrgId, u: UserId)
    requires u in ActiveAdmins(Serve(t, clerk, cfg, c, req, env).tables, org) && u !in ActiveAdmins(t, org)
    ensures || (IsAdminToken(c) && c.tenant == org && c.user == u)
            || (Promotes(t, c, req, org, u) && OrgAdmin(Provision(t, cfg, c, env).value, c))
    ensures !IsAdminToken(c) ==> OrgAdmin(t, c) && InGrace(cfg, t.admins[c.user], env.now)
  {
    var r := Provision(t, cfg, c, env);
    ProvisioningGrantsNothing(t, cfg, c, env, org);
    if u !in ActiveAdmins(r.value, org) {
      HandlerGrantsOnly(r.value, clerk, cfg, c, req, env, org, u);
      ProvisionKeepsUsers(t, cfg, c, env);
      if !IsAdminToken(c) {
        StaleCallerPassesOnlyInGrace(t, cfg, c, env);
      }
    }
  }

  /** With a non-admin token the caller is an active admin after provisioning only inside the window. */
  lemma StaleCallerPassesOnlyInGrace(t: Tables, cfg: Config, c: Claims, env: Env)
    requires Provision(t, cfg, c, env).Some? && OrgAdmin(Provision(t, cfg, c, env).value, c) && !IsAdminToken(c)
    ensures OrgAdmin(t, c) && InGrace(cfg, t.admins[c.user], env.now)
  {
  }

  lemma ProvisionKeepsUsers(t: Tables, cfg: Config, c: Claims, env: Env)
    requires Provision(t, cfg, c, env).Some?
    ensures var t1 := Provision(t, cfg, c, env).value; t1.users == t.users && t1.userIds == t.userIds
  {
  }

  /** The request asks to promote `u` in `org`, and nothing on the way to its write stops it: the guard, the
      self-check, the directory, the no-op check, and where the user's admin row may lie. */
  predicate PromotionTakes(t: Tables, clerk: Members, cfg: Config, c: Claims, req: Request, env: Env, org: OrgId, u: UserId) {
    && GuardPasses(t, cfg, c, req) && u != c.user && env.clerkWrote && (org, u) in clerk
    && ((&& req.UpdateMemberRole? && req.role == Admin && org == c.tenant
         && GetUser(t, Some(c.tenant), req.id) == Some(u) && t.users[u].role != "admin"
         && (u in t.admins ==> t.admins[u].org == org))
        || (&& req == UpdateOrgMemberRole(org, u, Admin) && org != cfg.platformOrg && env.clerkListed
            && OnPage(clerk, env, org, u) && clerk[(org, u)] != "org:admin"
            && u in t.admins && t.admins[u].org == org))
  }

  lemma OwnOrgGrantsExactly(t: Tables, clerk: Members, cfg: Config, c: Claims, id: nat, role: Role, env: Env, org: OrgId, u: UserId)
    requires Coherent(t) && OrgAdmin(t, c) && u !in ActiveAdmins(t, org)
    ensures var o := UpdateMemberRoleSpec(t, clerk, cfg, c, id, role, env);
            o.tables.Some? && u in ActiveAdmins(o.tables.value, org) <==>
            PromotionTakes(t, clerk, cfg, c, UpdateMemberRole(id, role), env, org, u)
  {
    assert |"admin"| != |"member"|;
  }

  lemma CrossOrgPromotionTakes(t: Tables, clerk: Members, cfg: Config, c: Claims, org: OrgId, u: UserId, env: Env)
    requires Coherent(t) && PromotionTakes(t, clerk, cfg, c, UpdateOrgMemberRole(org, u, Admin), env, org, u)
    ensures var o := UpdateOrgMemberRoleSpec(t, clerk, cfg, c, org, u, Admin, env);
            o.tables.Some? && u in ActiveAdmins(o.tables.value, org)
  {
  }

  lemma CrossOrgGrantTook(t: Tables, clerk: Members, cfg: Config, c: Claims, target: OrgId, v: UserId, role: Role, env: Env, org: OrgId, u: UserId)
    requires PlatformAdmin(t, cfg, c) && u !in ActiveAdmins(t, org)
    requires var o := UpdateOrgMemberRoleSpec(t, clerk, cfg, c, target, v, role, env);
             o.tables.Some? && u in ActiveAdmins(o.tables.value, org)
    ensures target == org && v == u && role == Admin
    ensures PromotionTakes(t, clerk, cfg, c, UpdateOrgMemberRole(target, v, role), env, org, u)
  {
    var stmt := HandlerStmt(t, clerk, cfg, c, UpdateOrgMemberRole(target, v, role), env);
    UpdateOrgMemberRoleEffect(t, clerk, cfg, c, target, v, role, env);
    StatementGrants(t, UpdateOrgMemberRoleSpec(t, clerk, cfg, c, target, v, role, env).tables.value, c.tenant, target, stmt, org, u);
  }

  lemma CrossOrgGrantsExactly(t: Tables, clerk: Members, cfg: Config, c: Claims, target: OrgId, v: UserId, role: Role, env: Env, org: OrgId, u: UserId)
    requires Coherent(t) && PlatformAdmin(t, cfg, c) && u !in ActiveAdmins(t, org)
    ensures var o := UpdateOrgMemberRoleSpec(t, clerk, cfg, c, target, v, role, env);
            o.tables.Some? && u in ActiveAdmins(o.tables.value, org) <==>
            PromotionTakes(t, clerk, cfg, c, UpdateOrgMemberRole(target, v, role), env, org, u)
  {
    var o := UpdateOrgMemberRoleSpec(t, clerk, cfg, c, target, v, role, env);
    if o.tables.Some? && u in ActiveAdmins(o.tables.value, org) {
      CrossOrgGrantTook(t, clerk, cfg, c, target, v, role, env, org, u);
    }
    if PromotionTakes(t, clerk, cfg, c, UpdateOrgMemberRole(target, v, role), env, org, u) {
      CrossOrgPromotionTakes(t, clerk, cfg, c, org, u, env);
    }
  }

  /** A handler makes an active admin of `u` if and only if its promotion takes. */
  lemma HandlerGrantsExactly(t: Tables, clerk: Members, cfg: Config, c: Claims, req: Request, env: Env, org: OrgId, u: UserId)
    requires Coherent(t) && u !in ActiveAdmins(t, org)
    ensures var o := Handle(t, clerk, cfg, c, req, env);
            o.tables.Some? && u in ActiveAdmins(o.tables.value, org) <==> PromotionTakes(t, clerk, cfg, c, req, env, org, u)
  {
    if GuardPasses(t, cfg, c, req) {
      match req {
        case UpdateMemberRole(id, role) => OwnOrgGrantsExactly(t, clerk, cfg, c, id, role, env, org, u);
        case UpdateOrgMemberRole(target, v, role) => CrossOrgGrantsExactly(t, clerk, cfg, c, target, v, role, env, org, u);
        case _ =>
          if Handle(t, clerk, cfg, c, req, env).tables.Some? && u in ActiveAdmins(Handle(t, clerk, cfg, c, req, env).tables.value, org) {
            HandlerGrantsOnly(t, clerk, cfg, c, req, env, org, u);
          }
      }
    }
  }

  /** Exactly when a request with a non-admin token makes a new active admin: its caller's active row is inside
      the window, and its promotion takes. */
  lemma RequestGrantsExactly(t: Tables, clerk: Members, cfg: Config, c: Claims, req: Request, env: Env, org: OrgId, u: UserId)
    requires Good(t, cfg) && c.tenant.clerkId != "" && !IsAdminToken(c) && u !in ActiveAdmins(t, org)
    ensures u in ActiveAdmins(Serve(t, clerk, cfg, c, req, env).tables, org) <==>
            OrgAdmin(t, c) && InGrace(cfg, t.admins[c.user], env.now) && PromotionTakes(t, clerk, cfg, c, req, env, org, u)
  {
    var r := Provision(t, cfg, c, env);
    if OrgAdmin(t, c) && InGrace(cfg, t.admins[c.user], env.now) {
      InGraceChangesNothing(t, cfg, c, env);
      HandlerGrantsExactly(t, clerk, cfg, c, req, env, org, u);
    } else if u in ActiveAdmins(Serve(t, clerk, cfg, c, req, env).tables, org) {
      RequestGrantsOnly(t, clerk, cfg, c, req, env, org, u);
      assert false;
    }
  }

  lemma InGraceChangesNothing(t: Tables, cfg: Config, c: Claims, env: Env)
    requires Coherent(t) && OrgAdmin(t, c) && (IsAdminToken(c) || InGrace(cfg, t.admins[c.user], env.now))
    ensures Provision(t, cfg, c, env) == Some(t)
  {
  }
}
