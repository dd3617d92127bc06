/** The cross-org role change and removal as programs of scope changes, Core statements and queued writes:
    the deferred session commits what an immediate one would, and the handlers' explicit flush
    is what makes that so. */
module CrossOrgProgram {
  import opened Prelude
  import opened Tenancy
  import opened DeferredWrites
  import opened AdminAccess
  import opened MemberRoutes

  /** What both handlers do after the directory call: under the target org a statement, if any, and the write
      of the target's user row, if there is one; under the caller's org the audit row. */
  function CrossOrgOps(tenant: OrgId, org: OrgId, stmt: Option<AdminStmt>, write: Option<Pending>, audit: AuditRow, flush: bool): seq<Op> {
    [Rescope(org)]
    + (if stmt.Some? then [Core(stmt.value)] else [])
    + (if write.Some? then [Queue(write.value)] else [])
    + (if write.Some? && flush then [Flush] else [])
    + [Rescope(tenant), Queue(AddAudit(audit))]
  }

  /** The same effects one after the other. */
  function CrossOrgTables(t: Tables, tenant: OrgId, org: OrgId, stmt: Option<AdminStmt>, write: Option<Pending>, audit: AuditRow): Option<Tables> {
    var t1 := if stmt.Some? then Exec(t, Some(org), stmt.value) else Some(t);
    if t1.None? then None
    else
      var t2 := if write.Some? then Emit(t1.value, Some(org), write.value) else t1;
      if t2.None? then None else Emit(t2.value, Some(tenant), AddAudit(audit))
  }

  // ---------- one step at a time ----------

  lemma ConsDisciplined(scope: Scope, dirty: bool, op: Op, ops: seq<Op>)
    ensures Disciplined(scope, dirty, [op] + ops) <==>
            if op.Rescope? then (dirty ==> scope == Some(op.org)) && Disciplined(Some(op.org), dirty, ops)
            else Disciplined(scope, if op.Queue? then true else if op.Flush? then false else dirty, ops)
  {
    assert ([op] + ops)[1..] == ops;
  }

  function ThenDeferred(t: Option<Tables>, scope: Scope, queued: seq<Pending>, ops: seq<Op>): Option<Tables> {
    if t.None? then None else RunDeferred(t.value, scope, queued, ops)
  }

  lemma ConsDeferred(t: Tables, scope: Scope, queued: seq<Pending>, op: Op, ops: seq<Op>)
    ensures RunDeferred(t, scope, queued, [op] + ops) ==
            if op.Rescope? then RunDeferred(t, Some(op.org), queued, ops)
            else if op.Core? then ThenDeferred(Exec(t, scope, op.stmt), scope, queued, ops)
            else if op.Queue? then RunDeferred(t, scope, queued + [op.write], ops)
            else ThenDeferred(EmitAll(t, scope, queued), scope, [], ops)
  {
    assert ([op] + ops)[1..] == ops;
  }

  function ThenImmediate(t: Option<Tables>, scope: Scope, ops: seq<Op>): Option<Tables> {
    if t.None? then None else RunImmediate(t.value, scope, ops)
  }

  lemma ConsImmediate(t: Tables, scope: Scope, op: Op, ops: seq<Op>)
    ensures RunImmediate(t, scope, [op] + ops) ==
            if op.Rescope? then RunImmediate(t, Some(op.org), ops)
            else if op.Core? then ThenImmediate(Exec(t, scope, op.stmt), scope, ops)
            else if op.Queue? then ThenImmediate(Emit(t, scope, op.write), scope, ops)
            else RunImmediate(t, scope, ops)
  {
    assert ([op] + ops)[1..] == ops;
  }

  function Tail(tenant: OrgId, audit: AuditRow): seq<Op> {
    [Rescope(tenant)] + ([Queue(AddAudit(audit))] + [])
  }

  function WriteOps(write: Option<Pending>, flush: bool, tail: seq<Op>): seq<Op> {
    if write.None? then tail else [Queue(write.value)] + (if flush then [Flush] + tail else tail)
  }

  lemma Unfolded(tenant: OrgId, org: OrgId, stmt: Option<AdminStmt>, write: Option<Pending>, audit: AuditRow, flush: bool)
    ensures var rest := WriteOps(write, flush, Tail(tenant, audit));
            CrossOrgOps(tenant, org, stmt, write, audit, flush) ==
            [Rescope(org)] + (if stmt.Some? then [Core(stmt.value)] + rest else rest)
  {
  }

  // ---------- the programs ----------

  /** With its flush the program never re-points the scope over a waiting write. */
  lemma FlushedProgramIsDisciplined(tenant: OrgId, org: OrgId, stmt: Option<AdminStmt>, write: Option<Pending>, audit: AuditRow)
    ensures Disciplined(Some(tenant), false, CrossOrgOps(tenant, org, stmt, write, audit, true))
  {
    var tail := Tail(tenant, audit);
    var rest := WriteOps(write, true, tail);
    Unfolded(tenant, org, stmt, write, audit, true);
    ConsDisciplined(Some(org), false, Rescope(tenant), [Queue(AddAudit(audit))] + []);
    ConsDisciplined(Some(tenant), false, Queue(AddAudit(audit)), []);
    if write.Some? {
      ConsDisciplined(Some(org), false, Queue(write.value), [Flush] + tail);
      ConsDisciplined(Some(org), true, Flush, tail);
    }
    if stmt.Some? {
      ConsDisciplined(Some(org), false, Core(stmt.value), rest);
      ConsDisciplined(Some(tenant), false, Rescope(org), [Core(stmt.value)] + rest);
    } else {
      ConsDisciplined(Some(tenant), false, Rescope(org), rest);
    }
  }

  lemma TailImmediate(t: Tables, org: OrgId, tenant: OrgId, audit: AuditRow)
    ensures RunImmediate(t, Some(org), Tail(tenant, audit)) == Emit(t, Some(tenant), AddAudit(audit))
  {
    ConsImmediate(t, Some(org), Rescope(tenant), [Queue(AddAudit(audit))] + []);
    ConsImmediate(t, Some(tenant), Queue(AddAudit(audit)), []);
  }

  lemma RestImmediate(t: Tables, tenant: OrgId, org: OrgId, write: Option<Pending>, audit: AuditRow)
    ensures RunImmediate(t, Some(org), WriteOps(write, true, Tail(tenant, audit))) == CrossOrgTables(t, tenant, org, None, write, audit)
  {
    var tail := Tail(tenant, audit);
    if write.None? {
      TailImmediate(t, org, tenant, audit);
    } else {
      ConsImmediate(t, Some(org), Queue(write.value), [Flush] + tail);
      var t2 := Emit(t, Some(org), write.value);
      if t2.Some? {
        ConsImmediate(t2.value, Some(org), Flush, tail);
        TailImmediate(t2.value, org, tenant, audit);
      }
    }
  }

  lemma ImmediateTables(t: Tables, tenant: OrgId, org: OrgId, stmt: Option<AdminStmt>, write: Option<Pending>, audit: AuditRow)
    ensures RunImmediate(t, Some(tenant), CrossOrgOps(tenant, org, stmt, write, audit, true)) == CrossOrgTables(t, tenant, org, stmt, write, audit)
  {
    var rest := WriteOps(write, true, Tail(tenant, audit));
    Unfolded(tenant, org, stmt, write, audit, true);
    if stmt.None? {
      ConsImmediate(t, Some(tenant), Rescope(org), rest);
      RestImmediate(t, tenant, org, write, audit);
    } else {
      ConsImmediate(t, Some(tenant), Rescope(org), [Core(stmt.value)] + rest);
      ConsImmediate(t, Some(org), Core(stmt.value), rest);
      var t1 := Exec(t, Some(org), stmt.value);
      if t1.Some? {
        RestImmediate(t1.value, tenant, org, write, audit);
      }
    }
  }

  /** For every tables, statement, user write and audit row: the queued program ends in the tables of the
      immediate one, or aborts as it does. */
  lemma DeferredIsImmediate(t: Tables, tenant: OrgId, org: OrgId, stmt: Option<AdminStmt>, write: Option<Pending>, audit: AuditRow)
    ensures RunDeferred(t, Some(tenant), [], CrossOrgOps(tenant, org, stmt, write, audit, true)) == CrossOrgTables(t, tenant, org, stmt, write, audit)
  {
    FlushedProgramIsDisciplined(tenant, org, stmt, write, audit);
    DeferralIsImmediate(t, Some(tenant), [], CrossOrgOps(tenant, org, stmt, write, audit, true));
    ImmediateTables(t, tenant, org, stmt, write, audit);
  }

  /** Without the flush the program aborts whenever the target org is another one and the write changes a row
      that it has: the waiting update meets the caller's scope. */
  lemma WithoutFlushItAborts(t: Tables, tenant: OrgId, org: OrgId, stmt: Option<AdminStmt>, write: Pending, audit: AuditRow)
    requires org != tenant && !write.AddAudit? && SelectUser(t, Some(org), write.user).Some? && NetChange(t.users, write)
    ensures RunDeferred(t, Some(tenant), [], CrossOrgOps(tenant, org, stmt, Some(write), audit, false)) == None
  {
    var tail := Tail(tenant, audit);
    var rest := WriteOps(Some(write), false, tail);
    Unfolded(tenant, org, stmt, Some(write), audit, false);
    if stmt.None? {
      ConsDeferred(t, Some(tenant), [], Rescope(org), rest);
      UnflushedRestAborts(t, tenant, org, write, audit);
    } else {
      ConsDeferred(t, Some(tenant), [], Rescope(org), [Core(stmt.value)] + rest);
      ConsDeferred(t, Some(org), [], Core(stmt.value), rest);
      var t1 := Exec(t, Some(org), stmt.value);
      if t1.Some? {
        UnflushedRestAborts(t1.value, tenant, org, write, audit);
      }
    }
  }

  lemma UnflushedRestAborts(t: Tables, tenant: OrgId, org: OrgId, write: Pending, audit: AuditRow)
    requires org != tenant && !write.AddAudit? && SelectUser(t, Some(org), write.user).Some?
    ensures RunDeferred(t, Some(org), [], WriteOps(Some(write), false, Tail(tenant, audit))) == None
  {
    var q := [] + [write];
    ConsDeferred(t, Some(org), [], Queue(write), Tail(tenant, audit));
    ConsDeferred(t, Some(org), q, Rescope(tenant), [Queue(AddAudit(audit))] + []);
    ConsDeferred(t, Some(tenant), q, Queue(AddAudit(audit)), []);
    assert q + [AddAudit(audit)] == [write] + [AddAudit(audit)];
    assert Emit(t, Some(tenant), write) == None;
  }

  // ---------- the two handlers ----------

  function RoleWrite(t: Tables, org: OrgId, u: UserId, role: Role): Option<Pending> {
    if SelectUser(t, Some(org), u).Some? && NetChange(t.users, SetRole(u, RoleName(role)))
    then Some(SetRole(u, RoleName(role))) else None
  }

  function RoleStmt(u: UserId, role: Role, env: Env): AdminStmt {
    if role == Admin then ReactivateIfExists(u, Client, env.at) else Deactivate(u, env.at)
  }

  function AuditBy(t: Tables, c: Claims, payload: Payload): AuditRow
    requires c.user in t.admins
  {
    AuditRow(t.admins[c.user].orgPk, c.user, t.admins[c.user].email, payload)
  }

  /** The program of a cross-org role change, for a caller who is an admin of their org. */
  function RoleChangeOps(t: Tables, clerk: Members, c: Claims, org: OrgId, u: UserId, role: Role, flush: bool, env: Env): seq<Op>
    requires c.user in t.admins && (org, u) in clerk
  {
    CrossOrgOps(c.tenant, org, Some(RoleStmt(u, role, env)), RoleWrite(t, org, u, role),
                AuditBy(t, c, RoleChanged(org, u, EmailOf(env, u), clerk[(org, u)], ClerkRole(role), SelectUser(t, Some(org), u).Some?)),
                flush)
  }

  /** A committed cross-org role change is that program. */
  lemma DeferredRoleChangeCommitsTheSame(t: Tables, clerk: Members, cfg: Config, c: Claims, org: OrgId, u: UserId, role: Role, env: Env)
    requires UpdateOrgMemberRoleSpec(t, clerk, cfg, c, org, u, role, env).reply == Ok
    requires clerk[(org, u)] != ClerkRole(role) && OrgAdmin(t, c)
    ensures RunDeferred(t, Some(c.tenant), [], RoleChangeOps(t, clerk, c, org, u, role, true, env)) ==
            UpdateOrgMemberRoleSpec(t, clerk, cfg, c, org, u, role, env).tables
  {
    var payload := RoleChanged(org, u, EmailOf(env, u), clerk[(org, u)], ClerkRole(role), SelectUser(t, Some(org), u).Some?);
    DeferredIsImmediate(t, c.tenant, org, Some(RoleStmt(u, role, env)), RoleWrite(t, org, u, role), AuditBy(t, c, payload));
    RoleChangeSpecTables(t, clerk, cfg, c, org, u, role, env, payload);
  }

  /** The user's row after the statement, with its role set if there is one. */
  lemma RoleWriteSets(t: Tables, org: OrgId, u: UserId, role: Role, env: Env)
    ensures var t1 := Exec(t, Some(org), RoleStmt(u, role, env)).value;
            var write := RoleWrite(t, org, u, role);
            (if write.Some? then Emit(t1, Some(org), write.value) else Some(t1)) ==
            Some(if SelectUser(t1, Some(org), u).Some? then WithRole(t1, u, RoleName(role)) else t1)
  {
    var t1 := Exec(t, Some(org), RoleStmt(u, role, env)).value;
    if SelectUser(t, Some(org), u).Some? && RoleWrite(t, org, u, role).None? {
      NoNetChange(t1, Some(org), SetRole(u, RoleName(role)));
    }
  }

  /** The caller's own row is not the one that was written. */
  lemma ActorUnchanged(t: Tables, c: Claims, org: OrgId, u: UserId, role: Role, env: Env, payload: Payload)
    requires OrgAdmin(t, c) && u != c.user
    ensures var t1 := Exec(t, Some(org), RoleStmt(u, role, env)).value;
            var t2 := if SelectUser(t1, Some(org), u).Some? then WithRole(t1, u, RoleName(role)) else t1;
            Audited(t2, c, payload) == Emit(t2, Some(c.tenant), AddAudit(AuditBy(t, c, payload)))
  {
  }

  lemma RoleChangeSpecTables(t: Tables, clerk: Members, cfg: Config, c: Claims, org: OrgId, u: UserId, role: Role, env: Env, payload: Payload)
    requires UpdateOrgMemberRoleSpec(t, clerk, cfg, c, org, u, role, env).reply == Ok
    requires clerk[(org, u)] != ClerkRole(role) && OrgAdmin(t, c)
    requires payload == RoleChanged(org, u, EmailOf(env, u), clerk[(org, u)], ClerkRole(role), SelectUser(t, Some(org), u).Some?)
    ensures UpdateOrgMemberRoleSpec(t, clerk, cfg, c, org, u, role, env).tables ==
            CrossOrgTables(t, c.tenant, org, Some(RoleStmt(u, role, env)), RoleWrite(t, org, u, role), AuditBy(t, c, payload))
  {
    RoleWriteSets(t, org, u, role, env);
    ActorUnchanged(t, c, org, u, role, env, payload);
  }

  function RemovalWrite(t: Tables, org: OrgId, u: UserId, env: Env): Option<Pending> {
    if SelectUser(t, Some(org), u).Some? && NetChange(t.users, SoftDelete(u, env.at))
    then Some(SoftDelete(u, env.at)) else None
  }

  function RemovalStmt(clerk: Members, org: OrgId, u: UserId, env: Env): Option<AdminStmt> {
    if (org, u) in clerk && clerk[(org, u)] == "org:admin" then Some(Deactivate(u, env.at)) else None
  }

  /** And so is a committed cross-org removal. */
  lemma DeferredRemovalCommitsTheSame(t: Tables, clerk: Members, cfg: Config, c: Claims, org: OrgId, u: UserId, env: Env)
    requires RemoveOrgMemberSpec(t, clerk, cfg, c, org, u, env).reply == Ok && OrgAdmin(t, c)
    ensures var payload := MemberRemoved(org, u, EmailOf(env, u), RemovalStmt(clerk, org, u, env).Some?);
            var ops := CrossOrgOps(c.tenant, org, RemovalStmt(clerk, org, u, env), RemovalWrite(t, org, u, env), AuditBy(t, c, payload), true);
            RunDeferred(t, Some(c.tenant), [], ops) == RemoveOrgMemberSpec(t, clerk, cfg, c, org, u, env).tables
  {
    var payload := MemberRemoved(org, u, EmailOf(env, u), RemovalStmt(clerk, org, u, env).Some?);
    DeferredIsImmediate(t, c.tenant, org, RemovalStmt(clerk, org, u, env), RemovalWrite(t, org, u, env), AuditBy(t, c, payload));
    RemovalSpecTables(t, clerk, cfg, c, org, u, env, payload);
  }

  lemma RemovalSpecTables(t: Tables, clerk: Members, cfg: Config, c: Claims, org: OrgId, u: UserId, env: Env, payload: Payload)
    requires RemoveOrgMemberSpec(t, clerk, cfg, c, org, u, env).reply == Ok && OrgAdmin(t, c)
    requires payload == MemberRemoved(org, u, EmailOf(env, u), RemovalStmt(clerk, org, u, env).Some?)
    ensures RemoveOrgMemberSpec(t, clerk, cfg, c, org, u, env).tables ==
            CrossOrgTables(t, c.tenant, org, RemovalStmt(clerk, org, u, env), RemovalWrite(t, org, u, env), AuditBy(t, c, payload))
  {
    var stmt := RemovalStmt(clerk, org, u, env);
    var t1 := if stmt.Some? then Exec(t, Some(org), stmt.value).value else t;
    if SelectUser(t, Some(org), u).Some? && RemovalWrite(t, org, u, env).None? {
      NoNetChange(t1, Some(org), SoftDelete(u, env.at));
    }
  }

  /** When the flush of the role change matters: without it the transaction aborts if and only if the target org
      has the user's row with another role. */
  lemma RoleChangeNeedsFlushExactly(t: Tables, clerk: Members, cfg: Config, c: Claims, org: OrgId, u: UserId, role: Role, env: Env)
    requires UpdateOrgMemberRoleSpec(t, clerk, cfg, c, org, u, role, env).reply == Ok
    requires clerk[(org, u)] != ClerkRole(role) && OrgAdmin(t, c) && org != c.tenant
    ensures RunDeferred(t, Some(c.tenant), [], RoleChangeOps(t, clerk, c, org, u, role, false, env)).None? <==>
            SelectUser(t, Some(org), u).Some? && t.users[u].role != RoleName(role)
  {
    if RoleWrite(t, org, u, role).Some? {
      UnflushedRoleChangeAborts(t, clerk, c, org, u, role, env);
    } else {
      DeferredRoleChangeCommitsTheSame(t, clerk, cfg, c, org, u, role, env);
      OkHasTables(t, clerk, cfg, c, org, u, role, env);
      assert RoleChangeOps(t, clerk, c, org, u, role, false, env) == RoleChangeOps(t, clerk, c, org, u, role, true, env);
    }
  }

  lemma UnflushedRoleChangeAborts(t: Tables, clerk: Members, c: Claims, org: OrgId, u: UserId, role: Role, env: Env)
    requires c.user in t.admins && (org, u) in clerk && org != c.tenant && RoleWrite(t, org, u, role).Some?
    ensures RunDeferred(t, Some(c.tenant), [], RoleChangeOps(t, clerk, c, org, u, role, false, env)) == None
  {
    WithoutFlushItAborts(t, c.tenant, org, Some(RoleStmt(u, role, env)), RoleWrite(t, org, u, role).value,
                         AuditBy(t, c, RoleChanged(org, u, EmailOf(env, u), clerk[(org, u)], ClerkRole(role), SelectUser(t, Some(org), u).Some?)));
  }

  lemma OkHasTables(t: Tables, clerk: Members, cfg: Config, c: Claims, org: OrgId, u: UserId, role: Role, env: Env)
    requires UpdateOrgMemberRoleSpec(t, clerk, cfg, c, org, u, role, env).reply == Ok
    ensures UpdateOrgMemberRoleSpec(t, clerk, cfg, c, org, u, role, env).tables.Some?
  {
  }
}
