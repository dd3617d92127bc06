/** Inputs on which the portal misses what it sets out to do. Each one starts from tables that satisfy the
    invariant, behind a guard that lets the caller through. */
module Witnesses {
  import opened Prelude
  import opened Tenancy
  import opened AdminAccess
  import opened MemberRoutes
  import opened AdminTheorems
  import opened AdminRuns
  import opened RoleSync
  import opened MemberListing

  const HOME := OrgId("p")
  const CLIENT := OrgId("c")
  const OTHER := OrgId("o")
  const ANN := UserId("a")
  const BOB := UserId("b")
  const BOB_ID := 7
  const CONFIG := Config(HOME, 60)
  const ENV := Env(100, 101, true, true, true, {}, map[])

  function Portal(admins: map<UserId, AdminRow>, users: map<UserId, UserRow>): Tables {
    Tables(map[HOME := 0, CLIENT := 1, OTHER := 2], 3, admins, users, map[BOB_ID := BOB], [])
  }

  function PlatformRow(): AdminRow { AdminRow(HOME, 0, None, Platform, Active, None) }
  function ClientRow(updatedAt: Option<Time>): AdminRow { AdminRow(CLIENT, 1, None, AdminKind.Client, Active, updatedAt) }
  function ClientMember(): UserRow { UserRow(CLIENT, None, "member", Active, None) }

  lemma PortalIsGood(admins: map<UserId, AdminRow>, users: map<UserId, UserRow>)
    requires forall u :: u in admins ==>
               || (admins[u].org == HOME && admins[u].orgPk == 0 && admins[u].kind == Platform)
               || (admins[u].org == CLIENT && admins[u].orgPk == 1 && admins[u].kind == AdminKind.Client)
               || (admins[u].org == OTHER && admins[u].orgPk == 2 && admins[u].kind == AdminKind.Client)
    ensures Good(Portal(admins, users), CONFIG)
  {
  }

  /** A cross-org demotion that skips the count takes the client org's last active admin. */
  lemma LastAdminTaken() returns (t: Tables, clerk: Members, c: Claims, req: Request)
    ensures Good(t, CONFIG) && GuardPasses(t, CONFIG, c, req) && |ActiveAdmins(t, CLIENT)| > 0
    ensures SkipsCountCheck(t, clerk, c, req, ENV, CLIENT)
    ensures var o := Handle(t, clerk, CONFIG, c, req, ENV);
            o.reply == Ok && o.tables.Some? && |ActiveAdmins(o.tables.value, CLIENT)| == 0
  {
    t := Portal(map[ANN := PlatformRow(), BOB := ClientRow(None)], map[]);
    clerk, c, req := map[(CLIENT, BOB) := "org:viewer"], Claims(HOME, ANN, Some("admin")), UpdateOrgMemberRole(CLIENT, BOB, Member);
    PortalIsGood(t.admins, t.users);
    assert ActiveAdmins(t, CLIENT) == {BOB};
    assert |"org:viewer"| != |"org:admin"| && "org:viewer"[4] != "org:member"[4];
    LastActiveAdmin(t, clerk, CONFIG, c, req, ENV, CLIENT);
  }

  /** An own-org promotion of a user who is an admin elsewhere raises, with the directory already changed. */
  lemma PromotionRaises() returns (t: Tables, clerk: Members, c: Claims, req: Request)
    ensures Good(t, CONFIG) && GuardPasses(t, CONFIG, c, req)
    ensures var o := Handle(t, clerk, CONFIG, c, req, ENV);
            o.reply == Raised && o.tables == None && o.clerk != clerk && AdminInDirectory(o.clerk, CLIENT, BOB)
  {
    t := Portal(map[ANN := ClientRow(None), BOB := AdminRow(OTHER, 2, None, AdminKind.Client, Active, None)],
                map[BOB := ClientMember()]);
    clerk, c, req := map[(CLIENT, BOB) := "org:member"], Claims(CLIENT, ANN, Some("admin")), UpdateMemberRole(BOB_ID, Admin);
    PortalIsGood(t.admins, t.users);
    assert |"member"| != |"admin"| && |"org:member"| != |"org:admin"|;
    HandlerRaisesExactly(t, clerk, CONFIG, c, req, ENV);
    assert clerk[(CLIENT, BOB)] == "org:member";
  }

  /** A first promotion creates the row without a stamp, and the promoted user's stale token, used in the
      very second of the promotion, revokes it. */
  lemma FirstPromotionRevoked() returns (t: Tables, clerk: Members, c: Claims, stale: Claims, later: Env)
    ensures Good(t, CONFIG) && GuardPasses(t, CONFIG, c, UpdateMemberRole(BOB_ID, Admin))
    ensures stale.user == BOB && stale.tenant == CLIENT && later.now == ENV.at
    ensures var o := UpdateMemberRoleSpec(t, clerk, CONFIG, c, BOB_ID, Admin, ENV);
            && o.tables.Some? && BOB in ActiveAdmins(o.tables.value, CLIENT)
            && Provision(o.tables.value, CONFIG, stale, later).Some?
            && BOB !in ActiveAdmins(Provision(o.tables.value, CONFIG, stale, later).value, CLIENT)
  {
    t := Portal(map[ANN := ClientRow(None)], map[BOB := ClientMember()]);
    clerk, c := map[(CLIENT, BOB) := "org:member"], Claims(CLIENT, ANN, Some("admin"));
    stale, later := Claims(CLIENT, BOB, Some("member")), ENV.(now := ENV.at, at := ENV.at + 1);
    PortalIsGood(t.admins, t.users);
    assert |"member"| != |"admin"|;
    PromotionGraceExactly(t, clerk, CONFIG, c, BOB_ID, ENV, stale, later);
  }

  /** A cross-org promotion of a user without an admin row: the three stores agreed before and do not after. */
  lemma CrossOrgPromotionDisagrees() returns (t: Tables, clerk: Members, c: Claims, req: Request)
    ensures Good(t, CONFIG) && GuardPasses(t, CONFIG, c, req) && InSync(t, clerk, CLIENT, BOB)
    ensures var o := Handle(t, clerk, CONFIG, c, req, ENV);
            o.reply == Ok && o.tables.Some? && !InSync(o.tables.value, o.clerk, CLIENT, BOB)
  {
    t := Portal(map[ANN := PlatformRow()], map[BOB := ClientMember()]);
    clerk, c, req := map[(CLIENT, BOB) := "org:member"], Claims(HOME, ANN, Some("admin")), UpdateOrgMemberRole(CLIENT, BOB, Admin);
    PortalIsGood(t.admins, t.users);
    assert |"member"| != |"admin"| && |"org:member"| != |"org:admin"|;
    CrossOrgChangeSyncsExactly(t, clerk, CONFIG, c, CLIENT, BOB, Admin, ENV);
  }

  /** A cross-org removal of a user whom the directory calls a member leaves the active admin row. */
  lemma CrossOrgRemovalLeavesAccess() returns (t: Tables, clerk: Members, c: Claims, req: Request)
    ensures Good(t, CONFIG) && GuardPasses(t, CONFIG, c, req)
    ensures var o := Handle(t, clerk, CONFIG, c, req, ENV);
            o.reply == Ok && o.tables.Some? && (CLIENT, BOB) !in o.clerk && BOB in ActiveAdmins(o.tables.value, CLIENT)
  {
    t := Portal(map[ANN := PlatformRow(), BOB := ClientRow(None)], map[BOB := ClientMember()]);
    clerk, c, req := map[(CLIENT, BOB) := "org:member"], Claims(HOME, ANN, Some("admin")), RemoveOrgMember(CLIENT, BOB);
    PortalIsGood(t.admins, t.users);
    assert |"org:member"| != |"org:admin"|;
    CrossOrgRemovalLeavesAccessExactly(t, clerk, CONFIG, c, CLIENT, BOB, ENV);
  }

  /** A non-admin token inside the window still grants: its caller's row passes the guard and promotes. */
  lemma StaleTokenGrants() returns (t: Tables, clerk: Members, c: Claims, req: Request)
    ensures Good(t, CONFIG) && !IsAdminToken(c)
    ensures BOB !in ActiveAdmins(t, CLIENT) && BOB in ActiveAdmins(Serve(t, clerk, CONFIG, c, req, ENV).tables, CLIENT)
  {
    t := Portal(map[ANN := ClientRow(Some(ENV.now - 1))], map[BOB := ClientMember()]);
    clerk, c, req := map[(CLIENT, BOB) := "org:member"], Claims(CLIENT, ANN, Some("member")), UpdateMemberRole(BOB_ID, Admin);
    PortalIsGood(t.admins, t.users);
    assert |"member"| != |"admin"|;
    assert Provision(t, CONFIG, c, ENV) == Some(t);
  }

  // ---------- one member more than a page ----------

  /** Names of different lengths. */
  function Nth(i: nat): UserId {
    UserId(seq(i, _ => 'm'))
  }

  lemma NthDiffer(i: nat, j: nat)
    requires i != j
    ensures Nth(i) != Nth(j)
  {
    assert |Nth(i).clerkId| == i && |Nth(j).clerkId| == j;
  }

  function Crowd(): seq<UserId> {
    seq(PAGE + 1, i requires 0 <= i => Nth(i))
  }

  function CrowdDirectory(): Members {
    map u | u in Crowd() :: (CLIENT, u) := "org:member"
  }

  function PageEntries(): seq<Listed> {
    seq(PAGE, i requires 0 <= i => Listed(Nth(i), "org:member", Active))
  }

  lemma CrowdIsPaged()
    ensures Paged(CrowdDirectory(), ENV.(unlisted := {(CLIENT, Nth(PAGE))}), CLIENT, Crowd())
  {
    forall i: nat, j: nat | i < j ensures Nth(i) != Nth(j) {
      NthDiffer(i, j);
    }
    var order, env := Crowd(), ENV.(unlisted := {(CLIENT, Nth(PAGE))});
    forall i | 0 <= i < |order| ensures i < PAGE <==> (CLIENT, order[i]) !in env.unlisted {
      assert order[i] == Nth(i);
    }
  }

  lemma PageEntriesAreLive(x: Listed)
    ensures x in PageEntries() <==> IsLiveEntry(Fetched(CrowdDirectory(), ENV.(unlisted := {(CLIENT, Nth(PAGE))})), CLIENT, x)
  {
    var entries, order := PageEntries(), Crowd();
    forall i: nat | i != PAGE ensures Nth(i) != Nth(PAGE) {
      NthDiffer(i, PAGE);
    }
    if x in entries {
      var i :| 0 <= i < |entries| && entries[i] == x;
      assert order[i] == x.user && x.user in order;
    }
    if x.user in order && x.user != Nth(PAGE) && x.role == "org:member" && x.status == Active {
      var i :| 0 <= i < |order| && order[i] == x.user;
      assert order[i] == Nth(i) && entries[i] == x;
    }
  }

  /** An org of 501 members whose 501st was removed before and is back: the list shows that member, and only
      as removed. */
  lemma LiveMemberListedAsRemoved() returns (t: Tables, clerk: Members, env: Env, order: seq<UserId>, r: seq<Listed>)
    ensures Good(t, CONFIG) && Paged(clerk, env, CLIENT, order) && |order| == PAGE + 1
    ensures IsListing(r, t, Fetched(clerk, env), CLIENT) && !IsListing(r, t, clerk, CLIENT)
    ensures (CLIENT, order[PAGE]) in clerk && Listed(order[PAGE], "org:member", Inactive) in r
  {
    var last := Nth(PAGE);
    order, clerk, env := Crowd(), CrowdDirectory(), ENV.(unlisted := {(CLIENT, last)});
    t := Portal(map[], map[last := ClientMember().(status := Inactive)]);
    r := PageEntries() + [Listed(last, "org:member", Inactive)];
    PortalIsGood(t.admins, t.users);
    CrowdIsPaged();
    assert order[PAGE] == last && last in order;
    assert "org:" + "member" == "org:member";
    forall x ensures x in r <==> IsLiveEntry(Fetched(clerk, env), CLIENT, x) || IsRemovedEntry(t, Fetched(clerk, env), CLIENT, x) {
      PageEntriesAreLive(x);
    }
    forall i: nat, j: nat | i < j ensures Nth(i) != Nth(j) {
      NthDiffer(i, j);
    }
    assert r[PAGE] == Listed(last, "org:member", Inactive);
    forall i, j | 0 <= i < j < |r| ensures r[i].user != r[j].user {
      assert r[i].user == Nth(i) && r[j].user == Nth(j);
    }
    ListsDirectoryExactly(r, t, clerk, env, CLIENT, order);
  }
}
