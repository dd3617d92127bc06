/** Runs of any length: the directory changes, tokens are minted and used later, the product API
    rewrites users, and admin requests are served one after the other under a clock. */
module AdminRuns {
  import opened Prelude
  import opened Tenancy
  import opened AdminAccess
  import opened MemberRoutes
  import opened AdminTheorems

  // A token carries the role its user had in the directory when it was minted.
  datatype Token = Token(claims: Claims, mintedAt: Time)

  datatype World = World(tables: Tables, clerk: Members, clock: Time, tokens: set<Token>)

  datatype Event =
    | Tick(to: Time)
    | Mint(org: OrgId, user: UserId)
    | DirectoryChange(members: Members)
    | ProductChange(users: map<UserId, UserRow>, userIds: map<nat, UserId>)
    | Call(token: Token, req: Request, env: Env)

  /** The directory's role with the `org:` prefix removed, as the token decoder delivers it. */
  function TokenRole(clerkRole: string): string {
    if "org:" <= clerkRole then clerkRole[4..] else clerkRole
  }

  predicate Enabled(w: World, e: Event) {
    match e
    case Tick(to) => w.clock <= to
    case Mint(org, u) => (org, u) in w.clerk && org.clerkId != ""
    case DirectoryChange(_) => true
    case ProductChange(_, _) => true
    case Call(token, req, env) =>
      && token in w.tokens && w.clock <= env.now < env.at
      && token.claims.tenant.clerkId != "" && TargetOrg(token.claims, req).clerkId != ""
  }

  function Step(w: World, cfg: Config, e: Event): World {
    match e
    case Tick(to) => w.(clock := to)
    case Mint(org, u) =>
      var role := if (org, u) in w.clerk then Some(TokenRole(w.clerk[(org, u)])) else None;
      w.(tokens := w.tokens + {Token(Claims(org, u, role), w.clock)})
    case DirectoryChange(members) => w.(clerk := members)
    case ProductChange(users, userIds) => w.(tables := w.tables.(users := users, userIds := userIds))
    case Call(token, req, env) =>
      var s := Serve(w.tables, w.clerk, cfg, token.claims, req, env);
      World(s.tables, s.clerk, env.at, w.tokens)
  }

  function Run(w: World, cfg: Config, events: seq<Event>): World
    decreases events
  {
    if events == [] then w else Run(Step(w, cfg, events[0]), cfg, events[1..])
  }

  predicate Legal(w: World, cfg: Config, events: seq<Event>)
    decreases events
  {
    events == [] || (Enabled(w, events[0]) && Legal(Step(w, cfg, events[0]), cfg, events[1..]))
  }

  lemma {:induction false} RunAppend(w: World, cfg: Config, xs: seq<Event>, ys: seq<Event>)
    ensures Run(w, cfg, xs + ys) == Run(Run(w, cfg, xs), cfg, ys)
    ensures Legal(w, cfg, xs + ys) <==> Legal(w, cfg, xs) && Legal(Run(w, cfg, xs), cfg, ys)
    decreases xs
  {
    if xs == [] {
      assert xs + ys == ys;
    } else {
      assert (xs + ys)[1..] == xs[1..] + ys;
      RunAppend(Step(w, cfg, xs[0]), cfg, xs[1..], ys);
    }
  }

  // ---------- invariants of every run ----------

  /** Kinds match orgs, admin rows carry their org's key, and no admin row ever disappears or moves
      to another org. */
  lemma {:induction false} RunKeepsGood(w: World, cfg: Config, events: seq<Event>)
    requires Good(w.tables, cfg) && Legal(w, cfg, events)
    ensures var w' := Run(w, cfg, events); Good(w'.tables, cfg) && NoRowMoves(w.tables, w'.tables)
    decreases events
  {
    if events != [] {
      var w1 := Step(w, cfg, events[0]);
      StepKeepsGood(w, cfg, events[0]);
      RunKeepsGood(w1, cfg, events[1..]);
      NoRowMovesTransitive(w.tables, w1.tables, Run(w, cfg, events).tables);
    }
  }

  lemma StepKeepsGood(w: World, cfg: Config, e: Event)
    requires Good(w.tables, cfg) && Enabled(w, e)
    ensures Good(Step(w, cfg, e).tables, cfg) && NoRowMoves(w.tables, Step(w, cfg, e).tables)
  {
    if e.Call? {
      ServeKeepsGood(w.tables, w.clerk, cfg, e.token.claims, e.req, e.env);
    } else {
      SameAdminsSameGood(w.tables, Step(w, cfg, e).tables, cfg);
    }
  }

  lemma NoRowMovesTransitive(a: Tables, b: Tables, c: Tables)
    requires NoRowMoves(a, b) && NoRowMoves(b, c)
    ensures NoRowMoves(a, c)
  {
  }

  /** A fresh deployment satisfies the invariant, so every reachable state does. */
  lemma EmptyIsGood(t: Tables, cfg: Config)
    requires t.orgs == map[] && t.admins == map[]
    ensures Good(t, cfg)
  {
  }

  /** Every state that a run reaches from a database without organisations and admins. */
  lemma ReachableIsGood(w: World, cfg: Config, events: seq<Event>)
    requires w.tables.orgs == map[] && w.tables.admins == map[] && Legal(w, cfg, events)
    ensures Good(Run(w, cfg, events).tables, cfg)
  {
    EmptyIsGood(w.tables, cfg);
    RunKeepsGood(w, cfg, events);
  }

  // ---------- how one request can change one admin row ----------

  predicate Holds(t: Tables, org: OrgId, u: UserId) {
    u in t.admins && t.admins[u].org == org
  }

  /** Provisioning writes `u`'s row only when `u` is the caller in the row's own org, and then only
      to revoke an active row outside the window or to reactivate an inactive one. */
  lemma ProvisionOnRow(t: Tables, cfg: Config, c: Claims, env: Env, org: OrgId, u: UserId)
    requires Holds(t, org, u) && Provision(t, cfg, c, env).Some?
    ensures var t1 := Provision(t, cfg, c, env).value;
            var row := t.admins[u];
            && Holds(t1, org, u)
            && t1.users == t.users && t1.userIds == t.userIds
            && t1.admins[u] ==
               if c.user == u && c.tenant == org && row.status == Active && !IsAdminToken(c) && !InGrace(cfg, row, env.now)
               then row.(status := Inactive, updatedAt := Some(env.now))
               else if c.user == u && c.tenant == org && row.status == Inactive && IsAdminToken(c)
               then row.(status := Active, kind := KindOf(cfg, org), updatedAt := Some(env.now))
               else row
  {
    EnsureOrgLeavesRows(t, c.tenant, env);
    EnsureAdminOnRow(EnsureOrg(t, c.tenant, env).value, cfg, c, env, org, u);
  }

  lemma EnsureOrgLeavesRows(t: Tables, tenant: OrgId, env: Env)
    ensures var r := EnsureOrg(t, tenant, env);
            r.Some? ==> tenant in r.value.orgs && r.value.admins == t.admins && r.value.users == t.users && r.value.userIds == t.userIds
  {
  }

  lemma EnsureAdminOnRow(t: Tables, cfg: Config, c: Claims, env: Env, org: OrgId, u: UserId)
    requires Holds(t, org, u) && c.tenant in t.orgs && EnsureAdmin(t, cfg, c, env).Some?
    ensures var t1 := EnsureAdmin(t, cfg, c, env).value;
            var row := t.admins[u];
            && Holds(t1, org, u)
            && t1.users == t.users && t1.userIds == t.userIds
            && t1.admins[u] ==
               if c.user == u && c.tenant == org && row.status == Active && !IsAdminToken(c) && !InGrace(cfg, row, env.now)
               then row.(status := Inactive, updatedAt := Some(env.now))
               else if c.user == u && c.tenant == org && row.status == Inactive && IsAdminToken(c)
               then row.(status := Active, kind := KindOf(cfg, org), updatedAt := Some(env.now))
               else row
  {
  }

  lemma EffectOnRow(t: Tables, t': Tables, tenant: OrgId, target: OrgId, stmt: Option<AdminStmt>, org: OrgId, u: UserId)
    requires Holds(t, org, u) && Effect(t, t', tenant, target, stmt)
    ensures Holds(t', org, u)
    ensures if stmt.Some? && stmt.value.user == u && target == org
            then t'.admins[u].updatedAt == Some(stmt.value.at)
                 && t'.admins[u].status == (if stmt.value.Deactivate? then Inactive else Active)
            else t'.admins[u] == t.admins[u]
  {
  }

  /** A committed handler writes `u`'s row only as the target of its one statement. */
  lemma HandlerOnRow(t: Tables, clerk: Members, cfg: Config, c: Claims, req: Request, env: Env, org: OrgId, u: UserId)
    requires Holds(t, org, u) && Handle(t, clerk, cfg, c, req, env).tables.Some?
    ensures var t' := Handle(t, clerk, cfg, c, req, env).tables.value;
            var stmt := HandlerStmt(t, clerk, cfg, c, req, env);
            && Holds(t', org, u)
            && (if stmt.Some? && stmt.value.user == u && TargetOrg(c, req) == org
                then t'.admins[u].updatedAt == Some(env.at)
                     && t'.admins[u].status == (if stmt.value.Deactivate? then Inactive else Active)
                else t'.admins[u] == t.admins[u])
  {
    HandlerEffect(t, clerk, cfg, c, req, env);
    EffectOnRow(t, Handle(t, clerk, cfg, c, req, env).tables.value, c.tenant, TargetOrg(c, req),
                HandlerStmt(t, clerk, cfg, c, req, env), org, u);
  }

  /** A handler that deactivates has first taken the admin role away in the directory. */
  lemma DeactivationFollowsDirectory(t: Tables, clerk: Members, cfg: Config, c: Claims, req: Request, env: Env, u: UserId)
    requires Handle(t, clerk, cfg, c, req, env).tables.Some?
    requires var stmt := HandlerStmt(t, clerk, cfg, c, req, env);
             stmt.Some? && stmt.value.Deactivate? && stmt.value.user == u
    ensures !AdminInDirectory(Handle(t, clerk, cfg, c, req, env).clerk, TargetOrg(c, req), u)
  {
  }

  predicate AdminInDirectory(clerk: Members, org: OrgId, u: UserId) {
    (org, u) in clerk && clerk[(org, u)] == "org:admin"
  }

  // ---------- no false revocation ----------

  /** `u` stays an org:admin in the directory at every point of the run. */
  predicate AdminThroughout(w: World, cfg: Config, events: seq<Event>, org: OrgId, u: UserId)
    decreases events
  {
    && AdminInDirectory(w.clerk, org, u)
    && (events == [] || AdminThroughout(Step(w, cfg, events[0]), cfg, events[1..], org, u))
  }

  /** Tokens are not used more than `grace` after they were minted. */
  predicate UsedInTime(cfg: Config, events: seq<Event>) {
    forall i :: 0 <= i < |events| && events[i].Call? ==> events[i].env.now - events[i].token.mintedAt <= cfg.grace
  }

  /** An active row, stamped at or after `since`; every stale token of its user is older than `since`. */
  ghost predicate Protected(w: World, org: OrgId, u: UserId, since: Time) {
    && Holds(w.tables, org, u)
    && w.tables.admins[u].status == Active
    && w.tables.admins[u].updatedAt.Some?
    && since <= w.tables.admins[u].updatedAt.value
    && since <= w.clock
    && forall k :: k in w.tokens && k.claims.tenant == org && k.claims.user == u && !IsAdminToken(k.claims) ==>
         k.mintedAt < since
  }

  lemma CallKeepsProtected(w: World, cfg: Config, token: Token, req: Request, env: Env, org: OrgId, u: UserId, since: Time)
    requires Protected(w, org, u, since) && Enabled(w, Call(token, req, env))
    requires env.now - token.mintedAt <= cfg.grace
    requires AdminInDirectory(Step(w, cfg, Call(token, req, env)).clerk, org, u)
    ensures Protected(Step(w, cfg, Call(token, req, env)), org, u, since)
  {
    var c := token.claims;
    var r := Provision(w.tables, cfg, c, env);
    if r.Some? {
      var t1 := r.value;
      ProvisionOnRow(w.tables, cfg, c, env, org, u);
      assert t1.admins[u] == w.tables.admins[u];
      var o := Handle(t1, w.clerk, cfg, c, req, env);
      if o.tables.Some? {
        HandlerOnRow(t1, w.clerk, cfg, c, req, env, org, u);
        var stmt := HandlerStmt(t1, w.clerk, cfg, c, req, env);
        if stmt.Some? && stmt.value.user == u && TargetOrg(c, req) == org && stmt.value.Deactivate? {
          DeactivationFollowsDirectory(t1, w.clerk, cfg, c, req, env, u);
        }
      }
    }
  }

  lemma StepKeepsProtected(w: World, cfg: Config, e: Event, org: OrgId, u: UserId, since: Time)
    requires Protected(w, org, u, since) && Enabled(w, e)
    requires e.Call? ==> e.env.now - e.token.mintedAt <= cfg.grace
    requires AdminInDirectory(w.clerk, org, u) && AdminInDirectory(Step(w, cfg, e).clerk, org, u)
    ensures Protected(Step(w, cfg, e), org, u, since)
  {
    if e.Call? {
      CallKeepsProtected(w, cfg, e.token, e.req, e.env, org, u, since);
    } else if e.Mint? {
      assert TokenRole("org:admin") == "admin";
    }
  }

  /** No false revocation: however long the run, whatever else happens in it, a stamped active row
      stays active while its user stays an admin in the directory. */
  lemma {:induction false} NoFalseRevocation(w: World, cfg: Config, events: seq<Event>, org: OrgId, u: UserId, since: Time)
    requires Protected(w, org, u, since) && Legal(w, cfg, events)
    requires AdminThroughout(w, cfg, events, org, u) && UsedInTime(cfg, events)
    ensures Protected(Run(w, cfg, events), org, u, since)
    ensures u in ActiveAdmins(Run(w, cfg, events).tables, org)
    decreases events
  {
    if events != [] {
      assert events[0].Call? ==> events[0].env.now - events[0].token.mintedAt <= cfg.grace;
      StepKeepsProtected(w, cfg, events[0], org, u, since);
      assert forall i :: 0 <= i < |events[1..]| ==> events[1..][i] == events[i + 1];
      NoFalseRevocation(Step(w, cfg, events[0]), cfg, events[1..], org, u, since);
    }
  }

  /** The run starts protected after a promotion that found a row: own-org or cross-org. */
  lemma PromotionProtects(w: World, cfg: Config, token: Token, req: Request, env: Env, org: OrgId, u: UserId)
    requires Good(w.tables, cfg) && Enabled(w, Call(token, req, env))
    requires forall k :: k in w.tokens ==> k.mintedAt <= w.clock
    requires org == TargetOrg(token.claims, req) && Holds(w.tables, org, u) && u != token.claims.user
    requires var r := Provision(w.tables, cfg, token.claims, env);
             && r.Some? && Handle(r.value, w.clerk, cfg, token.claims, req, env).tables.Some?
             && (var stmt := HandlerStmt(r.value, w.clerk, cfg, token.claims, req, env);
                 stmt.Some? && stmt.value.user == u && !stmt.value.Deactivate?)
    ensures Protected(Step(w, cfg, Call(token, req, env)), org, u, env.at)
  {
    var t1 := Provision(w.tables, cfg, token.claims, env).value;
    ProvisionOnRow(w.tables, cfg, token.claims, env, org, u);
    HandlerOnRow(t1, w.clerk, cfg, token.claims, req, env, org, u);
  }

  /** No handler commits a statement on the caller's own row. */
  lemma NeverOnCaller(t: Tables, clerk: Members, cfg: Config, c: Claims, req: Request, env: Env)
    requires Handle(t, clerk, cfg, c, req, env).tables.Some?
    ensures var stmt := HandlerStmt(t, clerk, cfg, c, req, env); stmt.Some? ==> stmt.value.user != c.user
  {
  }

  /** A run also starts protected after a re-invite: the first call with an admin token reactivates the
      inactive row and stamps it, whatever the rest of the call does. */
  lemma ReinviteProtects(w: World, cfg: Config, token: Token, req: Request, env: Env, org: OrgId, u: UserId)
    requires Good(w.tables, cfg) && Enabled(w, Call(token, req, env))
    requires token.claims.tenant == org && token.claims.user == u && IsAdminToken(token.claims)
    requires Holds(w.tables, org, u) && w.tables.admins[u].status == Inactive
    requires forall k :: k in w.tokens && k.claims.tenant == org && k.claims.user == u && !IsAdminToken(k.claims) ==>
               k.mintedAt < env.now
    ensures Protected(Step(w, cfg, Call(token, req, env)), org, u, env.now)
  {
    ProvisionRaisesExactly(w.tables, cfg, token.claims, env);
    var t1 := Provision(w.tables, cfg, token.claims, env).value;
    ProvisionOnRow(w.tables, cfg, token.claims, env, org, u);
    if Handle(t1, w.clerk, cfg, token.claims, req, env).tables.Some? {
      HandlerOnRow(t1, w.clerk, cfg, token.claims, req, env, org, u);
      NeverOnCaller(t1, w.clerk, cfg, token.claims, req, env);
    }
  }

  /** End to end: a re-invited admin's reactivation is never undone by the sync. */
  lemma ReinviteNotRevoked(w: World, cfg: Config, token: Token, req: Request, env: Env, events: seq<Event>, org: OrgId, u: UserId)
    requires Good(w.tables, cfg) && Legal(w, cfg, [Call(token, req, env)] + events)
    requires token.claims.tenant == org && token.claims.user == u && IsAdminToken(token.claims)
    requires Holds(w.tables, org, u) && w.tables.admins[u].status == Inactive
    requires forall k :: k in w.tokens && k.claims.tenant == org && k.claims.user == u && !IsAdminToken(k.claims) ==>
               k.mintedAt < env.now
    requires UsedInTime(cfg, events)
    requires AdminThroughout(Step(w, cfg, Call(token, req, env)), cfg, events, org, u)
    ensures u in ActiveAdmins(Run(w, cfg, [Call(token, req, env)] + events).tables, org)
  {
    RunAppend(w, cfg, [Call(token, req, env)], events);
    ReinviteProtects(w, cfg, token, req, env, org, u);
    var w1 := Step(w, cfg, Call(token, req, env));
    assert Run(w, cfg, [Call(token, req, env)]) == w1;
    NoFalseRevocation(w1, cfg, events, org, u, env.now);
  }

  /** End to end: a promotion that found a row is never undone by the sync. */
  lemma PromotionNotRevoked(w: World, cfg: Config, token: Token, req: Request, env: Env, events: seq<Event>, org: OrgId, u: UserId)
    requires Good(w.tables, cfg) && Legal(w, cfg, [Call(token, req, env)] + events)
    requires forall k :: k in w.tokens ==> k.mintedAt <= w.clock
    requires org == TargetOrg(token.claims, req) && Holds(w.tables, org, u) && u != token.claims.user
    requires var r := Provision(w.tables, cfg, token.claims, env);
             && r.Some? && Handle(r.value, w.clerk, cfg, token.claims, req, env).tables.Some?
             && (var stmt := HandlerStmt(r.value, w.clerk, cfg, token.claims, req, env);
                 stmt.Some? && stmt.value.user == u && !stmt.value.Deactivate?)
    requires UsedInTime(cfg, events)
    requires AdminThroughout(Step(w, cfg, Call(token, req, env)), cfg, events, org, u)
    ensures u in ActiveAdmins(Run(w, cfg, [Call(token, req, env)] + events).tables, org)
  {
    RunAppend(w, cfg, [Call(token, req, env)], events);
    PromotionProtects(w, cfg, token, req, env, org, u);
    var w1 := Step(w, cfg, Call(token, req, env));
    assert Run(w, cfg, [Call(token, req, env)]) == w1;
    NoFalseRevocation(w1, cfg, events, org, u, env.at);
  }

  /** A committed own-org promotion leaves an active row, stamped only if it was there before. */
  lemma PromotedRow(t: Tables, clerk: Members, cfg: Config, c: Claims, id: nat, env: Env)
    requires GetUser(t, Some(c.tenant), id).Some? && t.users[GetUser(t, Some(c.tenant), id).value].role != "admin"
    requires UpdateMemberRoleSpec(t, clerk, cfg, c, id, Admin, env).tables.Some?
    ensures var u := GetUser(t, Some(c.tenant), id).value;
            var t' := UpdateMemberRoleSpec(t, clerk, cfg, c, id, Admin, env).tables.value;
            && Holds(t', c.tenant, u) && t'.orgs == t.orgs
            && t'.admins[u].status == Active
            && t'.admins[u].updatedAt == (if u in t.admins then Some(env.at) else None)
  {
  }

  /** The promise of the window fails for a promotion that creates the row: the insert leaves
      `updated_at` NULL. After an own-org promotion, a stale token used at `env'.now` leaves the
      row active if and only if the row existed before the promotion and the window is open. */
  lemma PromotionGraceExactly(t: Tables, clerk: Members, cfg: Config, c: Claims, id: nat, env: Env, stale: Claims, env': Env)
    requires Coherent(t) && GuardPasses(t, cfg, c, UpdateMemberRole(id, Admin))
    requires UpdateMemberRoleSpec(t, clerk, cfg, c, id, Admin, env).tables.Some?
    requires var u := GetUser(t, Some(c.tenant), id).value;
             t.users[u].role != "admin" && stale.user == u && stale.tenant == c.tenant && !IsAdminToken(stale)
    ensures var u := GetUser(t, Some(c.tenant), id).value;
            var t' := UpdateMemberRoleSpec(t, clerk, cfg, c, id, Admin, env).tables.value;
            && u in ActiveAdmins(t', c.tenant)
            && Provision(t', cfg, stale, env').Some?
            && (u in ActiveAdmins(Provision(t', cfg, stale, env').value, c.tenant) <==>
                u in t.admins && env'.now - env.at < cfg.grace)
  {
    var t' := UpdateMemberRoleSpec(t, clerk, cfg, c, id, Admin, env).tables.value;
    PromotedRow(t, clerk, cfg, c, id, env);
    ProvisionRaisesExactly(t', cfg, stale, env');
    ProvisionOnRow(t', cfg, stale, env', c.tenant, stale.user);
  }

  /** The bound on token age is tight: one tick past it, a stale token minted just before the stamp
      revokes the row. */
  lemma LateStaleTokenRevokes(t: Tables, cfg: Config, c: Claims, env: Env, since: Time)
    requires c.tenant in t.orgs && OrgAdmin(t, c) && !IsAdminToken(c)
    requires t.admins[c.user].updatedAt == Some(since)
    requires env.now - (since - 1) == cfg.grace + 1
    ensures c.user !in ActiveAdmins(Provision(t, cfg, c, env).value, c.tenant)
  {
  }

  // ---------- bounded revocation ----------

  /** The events that may make `u` an active admin of `org`: a call with one of its admin tokens, or
      a promotion of `u` by somebody. */
  predicate Grants(w: World, e: Event, org: OrgId, u: UserId) {
    e.Call? &&
    var c := e.token.claims;
    || (c.tenant == org && c.user == u && IsAdminToken(c))
    || (e.req.UpdateMemberRole? && e.req.role == Admin && c.tenant == org
        && e.req.id in w.tables.userIds && w.tables.userIds[e.req.id] == u)
    || e.req == UpdateOrgMemberRole(org, u, Admin)
  }

  predicate NoGrants(w: World, cfg: Config, events: seq<Event>, org: OrgId, u: UserId)
    decreases events
  {
    events == [] || (!Grants(w, events[0], org, u) && NoGrants(Step(w, cfg, events[0]), cfg, events[1..], org, u))
  }

  lemma {:induction false} NoGrantsAppend(w: World, cfg: Config, xs: seq<Event>, ys: seq<Event>, org: OrgId, u: UserId)
    ensures NoGrants(w, cfg, xs + ys, org, u) <==>
            NoGrants(w, cfg, xs, org, u) && NoGrants(Run(w, cfg, xs), cfg, ys, org, u)
    decreases xs
  {
    if xs == [] {
      assert xs + ys == ys;
    } else {
      assert (xs + ys)[1..] == xs[1..] + ys;
      NoGrantsAppend(Step(w, cfg, xs[0]), cfg, xs[1..], ys, org, u);
    }
  }

  /** The row as revocation sees it: inactive, or still active under the stamp it had. */
  predicate Fading(t: Tables, org: OrgId, u: UserId, stamp: Option<Time>) {
    Holds(t, org, u) && (t.admins[u].status == Inactive || t.admins[u].updatedAt == stamp)
  }

  lemma StepFades(w: World, cfg: Config, e: Event, org: OrgId, u: UserId, stamp: Option<Time>)
    requires Fading(w.tables, org, u, stamp) && !Grants(w, e, org, u)
    ensures var t' := Step(w, cfg, e).tables;
            && Fading(t', org, u, stamp)
            && (w.tables.admins[u].status == Inactive ==> t'.admins[u].status == Inactive)
  {
    if e.Call? {
      var c := e.token.claims;
      var r := Provision(w.tables, cfg, c, e.env);
      if r.Some? {
        ProvisionOnRow(w.tables, cfg, c, e.env, org, u);
        var o := Handle(r.value, w.clerk, cfg, c, e.req, e.env);
        if o.tables.Some? {
          HandlerOnRow(r.value, w.clerk, cfg, c, e.req, e.env, org, u);
        }
      }
    }
  }

  /** Without grants an inactive row never comes back, and an active one keeps its stamp: no call
      inside the window moves `updated_at`. */
  lemma {:induction false} RunFades(w: World, cfg: Config, events: seq<Event>, org: OrgId, u: UserId, stamp: Option<Time>)
    requires Fading(w.tables, org, u, stamp) && NoGrants(w, cfg, events, org, u)
    ensures var t' := Run(w, cfg, events).tables;
            && Fading(t', org, u, stamp)
            && (w.tables.admins[u].status == Inactive ==> t'.admins[u].status == Inactive)
    decreases events
  {
    if events != [] {
      StepFades(w, cfg, events[0], org, u, stamp);
      RunFades(Step(w, cfg, events[0]), cfg, events[1..], org, u, stamp);
    }
  }

  /** Bounded revocation: in a run without grants, the user's first call at or after stamp + grace
      (any call when there is no stamp) leaves the row inactive, and it is inactive at the end. */
  lemma BoundedRevocation(w: World, cfg: Config, pre: seq<Event>, call: Event, post: seq<Event>, org: OrgId, u: UserId)
    requires Good(w.tables, cfg) && Holds(w.tables, org, u)
    requires Legal(w, cfg, pre + [call] + post) && NoGrants(w, cfg, pre + [call] + post, org, u)
    requires call.Call? && call.token.claims.tenant == org && call.token.claims.user == u
    requires var stamp := w.tables.admins[u].updatedAt;
             stamp.Some? ==> call.env.now >= stamp.value + cfg.grace
    ensures u !in ActiveAdmins(Run(w, cfg, pre + [call] + post).tables, org)
  {
    var stamp := w.tables.admins[u].updatedAt;
    RunAppend(w, cfg, pre + [call], post);
    RunAppend(w, cfg, pre, [call]);
    NoGrantsAppend(w, cfg, pre + [call], post, org, u);
    NoGrantsAppend(w, cfg, pre, [call], org, u);
    var w1 := Run(w, cfg, pre);
    RunKeepsGood(w, cfg, pre);
    RunFades(w, cfg, pre, org, u, stamp);
    var w2 := Step(w1, cfg, call);
    assert Run(w1, cfg, [call]) == w2;
    CallRevokes(w1, cfg, call, org, u, stamp);
    RunFades(w2, cfg, post, org, u, w2.tables.admins[u].updatedAt);
  }

  lemma CallRevokes(w: World, cfg: Config, call: Event, org: OrgId, u: UserId, stamp: Option<Time>)
    requires Good(w.tables, cfg) && Fading(w.tables, org, u, stamp) && !Grants(w, call, org, u)
    requires call.Call? && call.token.claims.tenant == org && call.token.claims.user == u
    requires stamp.Some? ==> call.env.now >= stamp.value + cfg.grace
    ensures var t' := Step(w, cfg, call).tables; Holds(t', org, u) && t'.admins[u].status == Inactive
  {
    var c := call.token.claims;
    ProvisionRaisesExactly(w.tables, cfg, c, call.env);
    var t1 := Provision(w.tables, cfg, c, call.env).value;
    ProvisionOnRow(w.tables, cfg, c, call.env, org, u);
    assert t1.admins[u].status == Inactive;
    if Handle(t1, w.clerk, cfg, c, call.req, call.env).tables.Some? {
      HandlerOnRow(t1, w.clerk, cfg, c, call.req, call.env, org, u);
    }
  }

  // ---------- the last active admin, over runs ----------

  predicate KnownRoles(clerk: Members) {
    forall k :: k in clerk ==> clerk[k] == "org:admin" || clerk[k] == "org:member"
  }

  ghost predicate KnownRolesThroughout(w: World, cfg: Config, events: seq<Event>)
    decreases events
  {
    KnownRoles(w.clerk) && (events == [] || KnownRolesThroughout(Step(w, cfg, events[0]), cfg, events[1..]))
  }

  predicate HasAdmin(t: Tables, org: OrgId) {
    |ActiveAdmins(t, org)| > 0
  }

  /** The call's provisioning transaction is what takes the org's last active admin. */
  predicate SyncTakesLast(w: World, cfg: Config, e: Event, org: OrgId) {
    e.Call? && HasAdmin(w.tables, org) &&
    var r := Provision(w.tables, cfg, e.token.claims, e.env);
    r.Some? && !HasAdmin(r.value, org)
  }

  lemma StepLosesOnlyInSync(w: World, cfg: Config, e: Event, org: OrgId)
    requires Good(w.tables, cfg) && Enabled(w, e) && KnownRoles(w.clerk)
    requires HasAdmin(w.tables, org) && !HasAdmin(Step(w, cfg, e).tables, org)
    ensures SyncTakesLast(w, cfg, e, org)
  {
    assert !e.Call? ==> ActiveAdmins(Step(w, cfg, e).tables, org) == ActiveAdmins(w.tables, org);
    if e.Call? {
      var c := e.token.claims;
      var r := Provision(w.tables, cfg, c, e.env);
      if r.Some? && HasAdmin(r.value, org) {
        ProvisionKeepsGood(w.tables, cfg, c, e.env);
        if GuardPasses(r.value, cfg, c, e.req) {
          LastActiveAdmin(r.value, w.clerk, cfg, c, e.req, e.env, org);
        }
      }
    }
  }

  /** What holds of a run holds of each of its prefixes, and each event is a step. */
  lemma PrefixOfRun(w: World, cfg: Config, events: seq<Event>, i: nat)
    requires Legal(w, cfg, events) && i < |events|
    ensures Legal(w, cfg, events[..i])
    ensures Enabled(Run(w, cfg, events[..i]), events[i])
    ensures Run(w, cfg, events[..i + 1]) == Step(Run(w, cfg, events[..i]), cfg, events[i])
  {
    assert events == events[..i] + events[i..];
    assert events[..i + 1] == events[..i] + [events[i]];
    RunAppend(w, cfg, events[..i], events[i..]);
    RunAppend(w, cfg, events[..i], [events[i]]);
    assert Run(Run(w, cfg, events[..i]), cfg, [events[i]]) == Step(Run(w, cfg, events[..i]), cfg, events[i]);
  }

  lemma {:induction false} KnownRolesAt(w: World, cfg: Config, events: seq<Event>, i: nat)
    requires KnownRolesThroughout(w, cfg, events) && i <= |events|
    ensures KnownRoles(Run(w, cfg, events[..i]).clerk)
    decreases i
  {
    if i > 0 {
      KnownRolesAt(Step(w, cfg, events[0]), cfg, events[1..], i - 1);
      assert events[..i][1..] == events[1..][..i - 1];
    }
  }

  /** The point of a run at which the org's last active admin is lost. */
  lemma PointOfLoss(w: World, cfg: Config, events: seq<Event>, org: OrgId) returns (i: nat)
    requires HasAdmin(w.tables, org) && !HasAdmin(Run(w, cfg, events).tables, org)
    ensures i < |events|
    ensures HasAdmin(Run(w, cfg, events[..i]).tables, org) && !HasAdmin(Run(w, cfg, events[..i + 1]).tables, org)
  {
    assert events[..|events|] == events;
    i := 0;
    while i < |events| && HasAdmin(Run(w, cfg, events[..i + 1]).tables, org)
      invariant 0 <= i <= |events|
      invariant HasAdmin(Run(w, cfg, events[..i]).tables, org)
    {
      i := i + 1;
    }
  }

  /** An org that had an active admin and has none at the end lost it in a provisioning sync. */
  lemma LastAdminLostOnlyInSync(w: World, cfg: Config, events: seq<Event>, org: OrgId) returns (i: nat)
    requires Good(w.tables, cfg) && Legal(w, cfg, events) && KnownRolesThroughout(w, cfg, events)
    requires HasAdmin(w.tables, org) && !HasAdmin(Run(w, cfg, events).tables, org)
    ensures i < |events| && SyncTakesLast(Run(w, cfg, events[..i]), cfg, events[i], org)
  {
    i := PointOfLoss(w, cfg, events, org);
    PrefixOfRun(w, cfg, events, i);
    KnownRolesAt(w, cfg, events, i);
    RunKeepsGood(w, cfg, events[..i]);
    StepLosesOnlyInSync(Run(w, cfg, events[..i]), cfg, events[i], org);
  }
}
