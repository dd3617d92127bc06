/** Admin identity: just-in-time provisioning, the downgrade-only sync with its grace window,
    re-invite reactivation, and the guards. Each request runs two transactions: provisioning
    commits before the guard and the handler start. */
module AdminAccess {
  import opened Prelude
  import opened Tenancy
  import opened OrmSession

  /** Verified token claims: the token's organisation and user, and its role without the `org:` prefix. */
  datatype Claims = Claims(tenant: OrgId, user: UserId, orgRole: Option<string>)

  datatype Config = Config(platformOrg: OrgId, grace: Time)

  /** What the outside world answers during one request. `now` is the clock during provisioning
      and `at` the clock during the handler's writes; `unlisted` are the memberships beyond the one page
      that a list call fetches. */
  datatype Env = Env(now: Time, at: Time, orgFetched: bool, clerkListed: bool, clerkWrote: bool,
                     unlisted: set<(OrgId, UserId)>, emails: map<UserId, string>)

  predicate IsAdminToken(c: Claims) {
    c.orgRole == Some("admin")
  }

  function KindOf(cfg: Config, tenant: OrgId): AdminKind {
    if tenant == cfg.platformOrg then Platform else Client
  }

  function EmailOf(env: Env, u: UserId): Option<string> {
    if u in env.emails then Some(env.emails[u]) else None
  }

  predicate InGrace(cfg: Config, row: AdminRow, now: Time) {
    row.updatedAt.Some? && now - row.updatedAt.value < cfg.grace
  }

  // ---------- provisioning, as a function of the tables ----------

  /** The organisation row of the token's org, fetched and inserted when absent; None when the
      fetch raises. */
  function EnsureOrg(t: Tables, tenant: OrgId, env: Env): Option<Tables> {
    if tenant in t.orgs then Some(t)
    else if env.orgFetched then Some(t.(orgs := t.orgs[tenant := t.nextPk], nextPk := t.nextPk + 1))
    else None
  }

  function EnsureAdmin(t: Tables, cfg: Config, c: Claims, env: Env): Option<Tables>
    requires c.tenant in t.orgs
  {
    var scope := Some(c.tenant);
    var existing := SelectAdmin(t, scope, c.user);
    if existing.Some? && existing.value.status == Active then
      if !IsAdminToken(c) && !InGrace(cfg, existing.value, env.now)
      then Exec(t, scope, Deactivate(c.user, env.now))
      else Some(t)
    else if !IsAdminToken(c) then Some(t)
    else Exec(t, scope, ReactivateOrCreate(c.user, c.tenant, t.orgs[c.tenant], EmailOf(env, c.user),
                                           KindOf(cfg, c.tenant), env.now))
  }

  function Provision(t: Tables, cfg: Config, c: Claims, env: Env): Option<Tables> {
    match EnsureOrg(t, c.tenant, env)
    case None => None
    case Some(t') => EnsureAdmin(t', cfg, c, env)
  }

  // ---------- guards ----------

  predicate OrgAdmin(t: Tables, c: Claims) {
    var row := SelectAdmin(t, Some(c.tenant), c.user);
    row.Some? && row.value.status == Active
  }

  predicate PlatformAdmin(t: Tables, cfg: Config, c: Claims) {
    && cfg.platformOrg.clerkId != ""
    && OrgAdmin(t, c)
    && SelectAdmin(t, Some(c.tenant), c.user).value.kind == Platform
    && c.tenant == cfg.platformOrg
  }

  // ---------- the same, as the session executes it ----------

  method EnsureOrgProvisioned(s: Session, c: Claims, env: Env) returns (ok: bool)
    requires s.scope == Some(c.tenant)
    modifies s`work
    ensures ok <==> EnsureOrg(old(s.work), c.tenant, env).Some?
    ensures ok ==> s.work == EnsureOrg(old(s.work), c.tenant, env).value && c.tenant in s.work.orgs
  {
    if c.tenant in s.work.orgs {
      return true;
    }
    if !env.orgFetched {
      return false;
    }
    s.work := s.work.(orgs := s.work.orgs[c.tenant := s.work.nextPk], nextPk := s.work.nextPk + 1);
    ok := true;
  }

  method EnsureAdminProvisioned(s: Session, cfg: Config, c: Claims, env: Env) returns (ok: bool)
    requires s.scope == Some(c.tenant) && c.tenant in s.work.orgs
    modifies s`work
    ensures ok <==> EnsureAdmin(old(s.work), cfg, c, env).Some?
    ensures ok ==> s.work == EnsureAdmin(old(s.work), cfg, c, env).value
  {
    var existing := SelectAdmin(s.work, s.scope, c.user);
    var isAdminNow := c.orgRole == Some("admin");
    if existing.Some? && existing.value.status == Active {
      if !isAdminNow {
        if existing.value.updatedAt.Some? && env.now - existing.value.updatedAt.value < cfg.grace {
          return true;
        }
        ok := s.Execute(Deactivate(c.user, env.now));
        return;
      }
      return true;
    }
    if !isAdminNow {
      return true;
    }
    var orgPk := s.work.orgs[c.tenant];
    var email := EmailOf(env, c.user);
    var kind := if c.tenant == cfg.platformOrg then Platform else Client;
    ok := s.Execute(ReactivateOrCreate(c.user, c.tenant, orgPk, email, kind, env.now));
  }

  /** The first transaction of get_admin_db, then the opening of the second. When provisioning
      raises nothing is committed and no second transaction opens. */
  method OpenAdminSession(db: Db, cfg: Config, c: Claims, env: Env) returns (s: Session, ok: bool)
    modifies db
    ensures fresh(s) && s.db == db
    ensures ok <==> Provision(old(db.tables), cfg, c, env).Some?
    ensures db.tables == if ok then Provision(old(db.tables), cfg, c, env).value else old(db.tables)
    ensures ok ==> s.work == db.tables && s.scope == Some(c.tenant) && s.queued == []
  {
    s := new Session(db);
    s.Begin();
    s.SetScope(c.tenant);
    ok := EnsureOrgProvisioned(s, c, env);
    if ok {
      ok := EnsureAdminProvisioned(s, cfg, c, env);
    }
    if !ok {
      s.Rollback();
      return;
    }
    ok := s.Commit();
    s.Begin();
    s.SetScope(c.tenant);
  }

  method RequireOrgAdmin(s: Session, c: Claims) returns (ok: bool)
    requires s.scope == Some(c.tenant)
    ensures ok <==> OrgAdmin(s.work, c)
  {
    var row := SelectAdmin(s.work, s.scope, c.user);
    ok := row.Some? && row.value.status == Active;
  }

  method RequirePlatformAdmin(s: Session, cfg: Config, c: Claims) returns (ok: bool)
    requires s.scope == Some(c.tenant)
    ensures ok <==> PlatformAdmin(s.work, cfg, c)
  {
    if cfg.platformOrg.clerkId == "" {
      return false;
    }
    var row := SelectAdmin(s.work, s.scope, c.user);
    ok := row.Some? && row.value.status == Active && row.value.kind == Platform && c.tenant == cfg.platformOrg;
  }
}
