/** The four member-management endpoints: own-org role change and removal, and their
    cross-org counterparts that re-point the session at the target org and back. For each
    one an immediate-write specification over the tables, and the handler that executes it
    on a session with queued writes. */
module MemberRoutes {
  import opened Prelude
  import opened Tenancy
  import opened OrmSession
  import opened AdminAccess

  type Members = map<(OrgId, UserId), string>

  datatype Role = Member | Admin

  datatype Request =
    | GetContext
    | RemoveMember(id: nat)
    | UpdateMemberRole(id: nat, role: Role)
    | UpdateOrgMemberRole(org: OrgId, user: UserId, role: Role)
    | RemoveOrgMember(org: OrgId, user: UserId)

  // Raised is an exception that is not an HTTP error: a refused statement, a failed flush or
  // the assertion of _admin_actor.
  datatype Reply = Ok | Forbidden | NotFound | ClerkError | Raised

  datatype Outcome = Outcome(reply: Reply, tables: Option<Tables>, clerk: Members)

  function RoleName(r: Role): string {
    if r == Admin then "admin" else "member"
  }

  function ClerkRole(r: Role): string {
    if r == Admin then "org:admin" else "org:member"
  }

  /** The external directory: its calls take effect at once and are never rolled back. */
  class Clerk {
    var members: Members

    constructor (m: Members)
      ensures members == m
    {
      members := m;
    }

    /** PATCH of a membership's role; an error status when the call fails or there is no membership. */
    method UpdateMembership(org: OrgId, u: UserId, role: string, reachable: bool) returns (ok: bool)
      modifies this
      ensures ok <==> reachable && (org, u) in old(members)
      ensures members == if ok then old(members)[(org, u) := role] else old(members)
    {
      ok := reachable && (org, u) in members;
      if ok {
        members := members[(org, u) := role];
      }
    }

    /** DELETE of a membership. */
    method RemoveMembership(org: OrgId, u: UserId, reachable: bool) returns (ok: bool)
      modifies this
      ensures ok <==> reachable && (org, u) in old(members)
      ensures members == if ok then old(members) - {(org, u)} else old(members)
    {
      ok := reachable && (org, u) in members;
      if ok {
        members := members - {(org, u)};
      }
    }
  }

  // ---------- immediate-write specifications ----------

  /** The audit row appended by the caller's own org, written at once; None when the caller has
      no visible admin row or the row's org is not the scope's. */
  function Audited(t: Tables, c: Claims, payload: Payload): Option<Tables> {
    var actor := SelectAdmin(t, Some(c.tenant), c.user);
    if actor.None? then None
    else Emit(t, Some(c.tenant), AddAudit(AuditRow(actor.value.orgPk, c.user, actor.value.email, payload)))
  }

  function Finish(t: Option<Tables>, clerk: Members): Outcome {
    if t.Some? then Outcome(Ok, t, clerk) else Outcome(Raised, None, clerk)
  }

  function WithRole(t: Tables, u: UserId, role: string): Tables
    requires u in t.users
  {
    t.(users := t.users[u := t.users[u].(role := role)])
  }

  function WithSoftDelete(t: Tables, u: UserId, at: Time): Tables
    requires u in t.users
  {
    t.(users := t.users[u := t.users[u].(status := Inactive, deactivatedAt := Some(at))])
  }

  function RemoveMemberSpec(t: Tables, clerk: Members, c: Claims, id: nat, env: Env): Outcome {
    var scope := Some(c.tenant);
    var target := GetUser(t, scope, id);
    if target.None? then Outcome(NotFound, None, clerk)
    else if target.value == c.user then Outcome(Forbidden, None, clerk)
    else
      var u := target.value;
      var row := SelectAdmin(t, scope, u);
      var isAdmin := row.Some? && row.value.status == Active;
      if isAdmin && CountActive(t, scope) <= 1 then Outcome(Forbidden, None, clerk)
      else if !(env.clerkWrote && (c.tenant, u) in clerk) then Outcome(ClerkError, None, clerk)
      else
        var t1 := WithSoftDelete(t, u, env.at);
        var t2 := if isAdmin then Exec(t1, scope, Deactivate(u, env.at)).value else t1;
        Finish(Audited(t2, c, MemberRemoved(c.tenant, u, t.users[u].email, isAdmin)),
               clerk - {(c.tenant, u)})
  }

  function UpdateMemberRoleSpec(t: Tables, clerk: Members, cfg: Config, c: Claims, id: nat, role: Role, env: Env): Outcome {
    var scope := Some(c.tenant);
    var target := GetUser(t, scope, id);
    if target.None? then Outcome(NotFound, None, clerk)
    else if target.value == c.user then Outcome(Forbidden, None, clerk)
    else
      var u := target.value;
      var user := t.users[u];
      if user.role == "admin" && role == Member && CountActive(t, scope) <= 1 then Outcome(Forbidden, None, clerk)
      else if RoleName(role) == user.role then Outcome(Ok, Some(t), clerk)
      else if !(env.clerkWrote && (c.tenant, u) in clerk) then Outcome(ClerkError, None, clerk)
      else
        var clerk' := clerk[(c.tenant, u) := ClerkRole(role)];
        var actor := SelectAdmin(t, scope, c.user);
        if actor.None? then Outcome(Raised, None, clerk')
        else
          var stmt := if role == Admin
                      then ReactivateOrCreate(u, c.tenant, actor.value.orgPk, user.email, KindOf(cfg, c.tenant), env.at)
                      else Deactivate(u, env.at);
          match Exec(t, scope, stmt)
          case None => Outcome(Raised, None, clerk')
          case Some(t1) =>
            var payload := RoleChanged(c.tenant, u, user.email, user.role, RoleName(role), true);
            Finish(Emit(WithRole(t1, u, RoleName(role)), scope,
                        AddAudit(AuditRow(actor.value.orgPk, c.user, actor.value.email, payload))),
                   clerk')
  }

  /** The membership is on the page that the directory's list call returns. */
  predicate OnPage(clerk: Members, env: Env, org: OrgId, u: UserId) {
    (org, u) in clerk && (org, u) !in env.unlisted
  }

  function UpdateOrgMemberRoleSpec(t: Tables, clerk: Members, cfg: Config, c: Claims,
                                   org: OrgId, u: UserId, role: Role, env: Env): Outcome {
    if org == cfg.platformOrg || u == c.user then Outcome(Forbidden, None, clerk)
    else if !env.clerkListed then Outcome(ClerkError, None, clerk)
    else if !OnPage(clerk, env, org, u) then Outcome(NotFound, None, clerk)
    else
      var current := clerk[(org, u)];
      if ClerkRole(role) == current then Outcome(Ok, Some(t), clerk)
      else if current == "org:admin" && role == Member && CountActive(t, Some(org)) <= 1 then
        Outcome(Forbidden, None, clerk)
      else if !env.clerkWrote then Outcome(ClerkError, None, clerk)
      else
        var stmt := if role == Admin then ReactivateIfExists(u, Client, env.at) else Deactivate(u, env.at);
        var t1 := Exec(t, Some(org), stmt).value;
        var found := SelectUser(t1, Some(org), u).Some?;
        var t2 := if found then WithRole(t1, u, RoleName(role)) else t1;
        Finish(Audited(t2, c, RoleChanged(org, u, EmailOf(env, u), current, ClerkRole(role), found)),
               clerk[(org, u) := ClerkRole(role)])
  }

  function RemoveOrgMemberSpec(t: Tables, clerk: Members, cfg: Config, c: Claims,
                               org: OrgId, u: UserId, env: Env): Outcome {
    if org == cfg.platformOrg || u == c.user then Outcome(Forbidden, None, clerk)
    else if !env.clerkListed then Outcome(ClerkError, None, clerk)
    else if !OnPage(clerk, env, org, u) then Outcome(NotFound, None, clerk)
    else
      var isAdmin := clerk[(org, u)] == "org:admin";
      if isAdmin && CountActive(t, Some(org)) <= 1 then Outcome(Forbidden, None, clerk)
      else if !env.clerkWrote then Outcome(ClerkError, None, clerk)
      else
        var t1 := if isAdmin then Exec(t, Some(org), Deactivate(u, env.at)).value else t;
        var t2 := if SelectUser(t1, Some(org), u).Some? then WithSoftDelete(t1, u, env.at) else t1;
        Finish(Audited(t2, c, MemberRemoved(org, u, EmailOf(env, u), isAdmin)), clerk - {(org, u)})
  }

  predicate GuardPasses(t: Tables, cfg: Config, c: Claims, req: Request) {
    match req
    case GetContext => true
    case RemoveMember(_) => OrgAdmin(t, c)
    case UpdateMemberRole(_, _) => OrgAdmin(t, c)
    case UpdateOrgMemberRole(_, _, _) => PlatformAdmin(t, cfg, c)
    case RemoveOrgMember(_, _) => PlatformAdmin(t, cfg, c)
  }

  /** Guard and handler on the tables that provisioning committed. */
  function Handle(t: Tables, clerk: Members, cfg: Config, c: Claims, req: Request, env: Env): Outcome {
    if !GuardPasses(t, cfg, c, req) then Outcome(Forbidden, None, clerk)
    else
      match req
      case GetContext => Outcome(Ok, Some(t), clerk)
      case RemoveMember(id) => RemoveMemberSpec(t, clerk, c, id, env)
      case UpdateMemberRole(id, role) => UpdateMemberRoleSpec(t, clerk, cfg, c, id, role, env)
      case UpdateOrgMemberRole(org, u, role) => UpdateOrgMemberRoleSpec(t, clerk, cfg, c, org, u, role, env)
      case RemoveOrgMember(org, u) => RemoveOrgMemberSpec(t, clerk, cfg, c, org, u, env)
  }

  datatype Served = Served(tables: Tables, clerk: Members, reply: Reply)

  function Serve(t: Tables, clerk: Members, cfg: Config, c: Claims, req: Request, env: Env): Served {
    match Provision(t, cfg, c, env)
    case None => Served(t, clerk, Raised)
    case Some(t1) =>
      var o := Handle(t1, clerk, cfg, c, req, env);
      Served(if o.tables.Some? then o.tables.value else t1, o.clerk, o.reply)
  }

  // ---------- the handlers, on a session with queued writes ----------

  /** What a handler leaves for the commit: on Ok, flushing the queue at the end of the
      transaction gives exactly the immediate-write outcome; otherwise the reply is final. */
  ghost predicate Leaves(reply: Reply, work: Tables, scope: Scope, queued: seq<Pending>, clerk: Members, o: Outcome) {
    if reply == Ok then o == Finish(EmitAll(work, scope, queued), clerk)
    else o == Outcome(reply, None, clerk)
  }

  /** `_admin_actor`, with a failed assertion reported as None. */
  method AdminActor(s: Session, c: Claims) returns (actor: Option<AdminRow>)
    ensures actor == SelectAdmin(s.work, s.scope, c.user)
  {
    actor := SelectAdmin(s.work, s.scope, c.user);
  }

  lemma EmitOne(t: Tables, scope: Scope, p: Pending)
    ensures EmitAll(t, scope, [] + [p]) == Emit(t, scope, p)
  {
    match Emit(t, scope, p)
    case None =>
    case Some(t') => assert EmitAll(t', scope, ([] + [p])[1..]) == Some(t');
  }

  lemma EmitTwo(t: Tables, scope: Scope, p: Pending, q: Pending)
    ensures EmitAll(t, scope, [] + [p] + [q]) ==
            match Emit(t, scope, p) case None => None case Some(t') => Emit(t', scope, q)
  {
    EmitOne(t, scope, p);
    EmitAllConcat(t, scope, [] + [p], [q]);
    match Emit(t, scope, p)
    case None =>
    case Some(t') => EmitOne(t', scope, q); assert [] + [q] == [q];
  }

  /** Flushing an assignment to a visible row writes it, whether or not it queued anything. */
  lemma EmitAssigned(t: Tables, scope: Scope, p: Pending, queued: seq<Pending>)
    requires !p.AddAudit? && SelectUser(t, scope, p.user).Some?
    requires queued == if NetChange(t.users, p) then [] + [p] else []
    ensures EmitAll(t, scope, queued) == Emit(t, scope, p)
  {
    if NetChange(t.users, p) {
      EmitOne(t, scope, p);
    } else {
      NoNetChange(t, scope, p);
    }
  }

  lemma EmitAssignedTwo(t: Tables, scope: Scope, p: Pending, queued: seq<Pending>, q: Pending)
    requires !p.AddAudit? && SelectUser(t, scope, p.user).Some?
    requires queued == (if NetChange(t.users, p) then [] + [p] else []) + [q]
    ensures EmitAll(t, scope, queued) == Emit(Emit(t, scope, p).value, scope, q)
  {
    if NetChange(t.users, p) {
      EmitTwo(t, scope, p, q);
    } else {
      NoNetChange(t, scope, p);
      EmitOne(t, scope, q);
    }
  }

  method RemoveMemberHandler(s: Session, clerk: Clerk, c: Claims, id: nat, env: Env) returns (reply: Reply)
    requires s.scope == Some(c.tenant) && s.queued == []
    modifies s`work, s`queued, clerk
    ensures Leaves(reply, s.work, s.scope, s.queued, clerk.members,
                   RemoveMemberSpec(old(s.work), old(clerk.members), c, id, env))
  {
    var target := GetUser(s.work, s.scope, id);
    if target.None? {
      return NotFound;
    }
    var u := target.value;
    if u == c.user {
      return Forbidden;
    }
    var email := s.work.users[u].email;
    var row := SelectAdmin(s.work, s.scope, u);
    var isAdmin := row.Some? && row.value.status == Active;
    if isAdmin {
      var n := CountActive(s.work, s.scope);
      if n <= 1 {
        return Forbidden;
      }
    }
    var ok := clerk.RemoveMembership(c.tenant, u, env.clerkWrote);
    if !ok {
      return ClerkError;
    }
    s.Assign(SoftDelete(u, env.at));
    if isAdmin {
      ok := s.Execute(Deactivate(u, env.at));
    }
    var actor := AdminActor(s, c);
    if actor.None? {
      return Raised;
    }
    var audit := AddAudit(AuditRow(actor.value.orgPk, c.user, actor.value.email,
                                   MemberRemoved(c.tenant, u, email, isAdmin)));
    s.Enqueue(audit);
    EmitAssignedTwo(s.work, s.scope, SoftDelete(u, env.at), s.queued, audit);
    reply := Ok;
  }

  method UpdateMemberRoleHandler(s: Session, clerk: Clerk, cfg: Config, c: Claims, id: nat, role: Role, env: Env)
    returns (reply: Reply)
    requires s.scope == Some(c.tenant) && s.queued == []
    modifies s`work, s`queued, clerk
    ensures Leaves(reply, s.work, s.scope, s.queued, clerk.members,
                   UpdateMemberRoleSpec(old(s.work), old(clerk.members), cfg, c, id, role, env))
  {
    var target := GetUser(s.work, s.scope, id);
    if target.None? {
      return NotFound;
    }
    var u := target.value;
    if u == c.user {
      return Forbidden;
    }
    var user := s.work.users[u];
    var newRole := RoleName(role);
    if user.role == "admin" && newRole == "member" {
      var n := CountActive(s.work, s.scope);
      if n <= 1 {
        return Forbidden;
      }
    }
    if newRole == user.role {
      return Ok;
    }
    var ok := clerk.UpdateMembership(c.tenant, u, ClerkRole(role), env.clerkWrote);
    if !ok {
      return ClerkError;
    }
    var actor := AdminActor(s, c);
    if actor.None? {
      return Raised;
    }
    if newRole == "admin" {
      var kind := if c.tenant == cfg.platformOrg then Platform else Client;
      ok := s.Execute(ReactivateOrCreate(u, c.tenant, actor.value.orgPk, user.email, kind, env.at));
      if !ok {
        return Raised;
      }
    } else {
      ok := s.Execute(Deactivate(u, env.at));
    }
    s.Assign(SetRole(u, newRole));
    var audit := AddAudit(AuditRow(actor.value.orgPk, c.user, actor.value.email,
                                   RoleChanged(c.tenant, u, user.email, user.role, newRole, true)));
    s.Enqueue(audit);
    EmitAssignedTwo(s.work, s.scope, SetRole(u, newRole), s.queued, audit);
    reply := Ok;
  }

  method UpdateOrgMemberRoleHandler(s: Session, clerk: Clerk, cfg: Config, c: Claims, org: OrgId, u: UserId, role: Role, env: Env)
    returns (reply: Reply)
    requires s.scope == Some(c.tenant) && s.queued == []
    modifies s`work, s`queued, s`scope, clerk
    ensures Leaves(reply, s.work, s.scope, s.queued, clerk.members,
                   UpdateOrgMemberRoleSpec(old(s.work), old(clerk.members), cfg, c, org, u, role, env))
  {
    if org == cfg.platformOrg {
      return Forbidden;
    }
    if u == c.user {
      return Forbidden;
    }
    if !env.clerkListed {
      return ClerkError;
    }
    if !OnPage(clerk.members, env, org, u) {
      return NotFound;
    }
    var current := clerk.members[(org, u)];
    if ClerkRole(role) == current {
      return Ok;
    }
    if current == "org:admin" && role == Member {
      s.SetScope(org);
      var n := CountActive(s.work, s.scope);
      if n <= 1 {
        return Forbidden;
      }
    }
    var ok := clerk.UpdateMembership(org, u, ClerkRole(role), env.clerkWrote);
    if !ok {
      return ClerkError;
    }
    s.SetScope(org);
    if role == Admin {
      ok := s.Execute(ReactivateIfExists(u, Client, env.at));
    } else {
      ok := s.Execute(Deactivate(u, env.at));
    }
    var found := SelectUser(s.work, s.scope, u).Some?;
    if found {
      s.Assign(SetRole(u, RoleName(role)));
      EmitAssigned(s.work, s.scope, SetRole(u, RoleName(role)), s.queued);
      ok := s.Flush();
    }
    s.SetScope(c.tenant);
    var actor := AdminActor(s, c);
    if actor.None? {
      return Raised;
    }
    var audit := AddAudit(AuditRow(actor.value.orgPk, c.user, actor.value.email,
                                   RoleChanged(org, u, EmailOf(env, u), current, ClerkRole(role), found)));
    s.Enqueue(audit);
    EmitOne(s.work, s.scope, audit);
    reply := Ok;
  }

  method RemoveOrgMemberHandler(s: Session, clerk: Clerk, cfg: Config, c: Claims, org: OrgId, u: UserId, env: Env)
    returns (reply: Reply)
    requires s.scope == Some(c.tenant) && s.queued == []
    modifies s`work, s`queued, s`scope, clerk
    ensures Leaves(reply, s.work, s.scope, s.queued, clerk.members,
                   RemoveOrgMemberSpec(old(s.work), old(clerk.members), cfg, c, org, u, env))
  {
    if org == cfg.platformOrg {
      return Forbidden;
    }
    if u == c.user {
      return Forbidden;
    }
    if !env.clerkListed {
      return ClerkError;
    }
    if !OnPage(clerk.members, env, org, u) {
      return NotFound;
    }
    var isAdmin := clerk.members[(org, u)] == "org:admin";
    if isAdmin {
      s.SetScope(org);
      var n := CountActive(s.work, s.scope);
      if n <= 1 {
        return Forbidden;
      }
    }
    var ok := clerk.RemoveMembership(org, u, env.clerkWrote);
    if !ok {
      return ClerkError;
    }
    s.SetScope(org);
    if isAdmin {
      ok := s.Execute(Deactivate(u, env.at));
    }
    if SelectUser(s.work, s.scope, u).Some? {
      s.Assign(SoftDelete(u, env.at));
      EmitAssigned(s.work, s.scope, SoftDelete(u, env.at), s.queued);
      ok := s.Flush();
    }
    s.SetScope(c.tenant);
    var actor := AdminActor(s, c);
    if actor.None? {
      return Raised;
    }
    var audit := AddAudit(AuditRow(actor.value.orgPk, c.user, actor.value.email,
                                   MemberRemoved(org, u, EmailOf(env, u), isAdmin)));
    s.Enqueue(audit);
    EmitOne(s.work, s.scope, audit);
    reply := Ok;
  }

  /** The guard of the endpoint and then its handler, in the open transaction of the caller's org. */
  method GuardAndHandle(s: Session, clerk: Clerk, cfg: Config, c: Claims, req: Request, env: Env) returns (reply: Reply)
    requires s.scope == Some(c.tenant) && s.queued == []
    modifies s`work, s`queued, s`scope, clerk
    ensures Leaves(reply, s.work, s.scope, s.queued, clerk.members,
                   Handle(old(s.work), old(clerk.members), cfg, c, req, env))
  {
    var ok := true;
    match req {
      case GetContext =>
      case RemoveMember(_) => ok := RequireOrgAdmin(s, c);
      case UpdateMemberRole(_, _) => ok := RequireOrgAdmin(s, c);
      case UpdateOrgMemberRole(_, _, _) => ok := RequirePlatformAdmin(s, cfg, c);
      case RemoveOrgMember(_, _) => ok := RequirePlatformAdmin(s, cfg, c);
    }
    if !ok {
      return Forbidden;
    }
    match req {
      case GetContext => reply := Ok;
      case RemoveMember(id) => reply := RemoveMemberHandler(s, clerk, c, id, env);
      case UpdateMemberRole(id, role) => reply := UpdateMemberRoleHandler(s, clerk, cfg, c, id, role, env);
      case UpdateOrgMemberRole(org, u, role) =>
        reply := UpdateOrgMemberRoleHandler(s, clerk, cfg, c, org, u, role, env);
      case RemoveOrgMember(org, u) => reply := RemoveOrgMemberHandler(s, clerk, cfg, c, org, u, env);
    }
  }

  /** The end of the transaction: a commit on Ok, a rollback on every other reply. */
  method Conclude(s: Session, reply: Reply) returns (final: Reply)
    modifies s, s.db
    ensures final == (if reply == Ok && EmitAll(old(s.work), old(s.scope), old(s.queued)).None? then Raised else reply)
    ensures s.db.tables == if final == Ok then EmitAll(old(s.work), old(s.scope), old(s.queued)).value else old(s.db.tables)
  {
    final := reply;
    if reply == Ok {
      var ok := s.Commit();
      if !ok {
        final := Raised;
      }
    } else {
      s.Rollback();
    }
  }

  /** One request end to end: two transactions, the guard between them, and a rollback of the
      second one on every reply but Ok. It leaves what the immediate-write specification says. */
  method ServeRequest(db: Db, clerk: Clerk, cfg: Config, c: Claims, req: Request, env: Env) returns (reply: Reply)
    modifies db, clerk
    ensures Served(db.tables, clerk.members, reply) == Serve(old(db.tables), old(clerk.members), cfg, c, req, env)
  {
    var s, ok := OpenAdminSession(db, cfg, c, env);
    if !ok {
      return Raised;
    }
    reply := GuardAndHandle(s, clerk, cfg, c, req, env);
    reply := Conclude(s, reply);
  }

  /** For contrast, the design the code avoids: provisioning, guard and handler share one transaction. */
  function ServeInOneTransaction(t: Tables, clerk: Members, cfg: Config, c: Claims, req: Request, env: Env): Served {
    match Provision(t, cfg, c, env)
    case None => Served(t, clerk, Raised)
    case Some(t1) =>
      var o := Handle(t1, clerk, cfg, c, req, env);
      Served(if o.tables.Some? then o.tables.value else t, o.clerk, o.reply)
  }

  method ServeRequestInOneTransaction(db: Db, clerk: Clerk, cfg: Config, c: Claims, req: Request, env: Env) returns (reply: Reply)
    modifies db, clerk
    ensures Served(db.tables, clerk.members, reply) == ServeInOneTransaction(old(db.tables), old(clerk.members), cfg, c, req, env)
  {
    var s := new Session(db);
    s.SetScope(c.tenant);
    var ok := EnsureOrgProvisioned(s, c, env);
    if ok {
      ok := EnsureAdminProvisioned(s, cfg, c, env);
    }
    if !ok {
      s.Rollback();
      return Raised;
    }
    reply := GuardAndHandle(s, clerk, cfg, c, req, env);
    reply := Conclude(s, reply);
  }
}
