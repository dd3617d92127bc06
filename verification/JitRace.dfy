/** Racing first requests: many transactions provision the same organisation and user at once,
    each statement seeing the rows committed so far plus its own, with unique indexes and
    ON CONFLICT DO NOTHING as the only arbiters. */
module JitRace {
  import opened Prelude
  import opened Tenancy

  type ReqId = nat

  datatype OrgRow = OrgRow(org: OrgId, pk: nat)

  datatype Member = Member(user: UserId, org: OrgId, orgPk: nat, active: bool)

  // The statement a request executes next.
  datatype At = SelectUser | SelectOrg | InsertOrg | ReselectOrg | InsertUser | Provisioned

  datatype Proc = Proc(user: UserId, tenant: OrgId, at: At, newOrg: Option<OrgRow>, newUser: Option<Member>, reactivate: bool,
                       orgPk: Option<nat>)

  // `orgs` and `users` are the committed rows; the lock maps are the uncommitted entries of the
  // unique indexes; `done` lists the committed requests.
  datatype State = State(orgs: seq<OrgRow>, users: seq<Member>, nextPk: nat, procs: map<ReqId, Proc>,
                         orgLocks: map<OrgId, ReqId>, userLocks: map<UserId, ReqId>, done: seq<Proc>)

  datatype Event =
    | Arrive(r: ReqId, user: UserId, tenant: OrgId)
    | Advance(r: ReqId)
    | Commit(r: ReqId)
    | Abort(r: ReqId)

  function LookupOrg(orgs: seq<OrgRow>, org: OrgId): Option<nat> {
    if orgs == [] then None else if orgs[0].org == org then Some(orgs[0].pk) else LookupOrg(orgs[1..], org)
  }

  function LookupUser(users: seq<Member>, u: UserId): Option<Member> {
    if users == [] then None else if users[0].user == u then Some(users[0]) else LookupUser(users[1..], u)
  }

  lemma {:induction false} LookupOrgFinds(orgs: seq<OrgRow>, org: OrgId)
    ensures LookupOrg(orgs, org).None? <==> forall i :: 0 <= i < |orgs| ==> orgs[i].org != org
  {
    if orgs != [] && orgs[0].org != org {
      LookupOrgFinds(orgs[1..], org);
      assert forall i :: 0 < i < |orgs| ==> orgs[i] == orgs[1..][i - 1];
      assert forall i :: 0 <= i < |orgs[1..]| ==> orgs[1..][i] == orgs[i + 1];
    }
  }

  lemma {:induction false} LookupUserFinds(users: seq<Member>, u: UserId)
    ensures LookupUser(users, u).None? <==> forall i :: 0 <= i < |users| ==> users[i].user != u
    ensures LookupUser(users, u).Some? ==> LookupUser(users, u).value in users && LookupUser(users, u).value.user == u
  {
    if users != [] && users[0].user != u {
      LookupUserFinds(users[1..], u);
      assert forall i :: 0 < i < |users| ==> users[i] == users[1..][i - 1];
      assert forall i :: 0 <= i < |users[1..]| ==> users[1..][i] == users[i + 1];
    }
  }

  /** `select id from organisation where clerk_org_id = tenant` inside the request's transaction. */
  function VisibleOrg(s: State, p: Proc): Option<nat> {
    if p.newOrg.Some? then Some(p.newOrg.value.pk) else LookupOrg(s.orgs, p.tenant)
  }

  /** `select ... from users where clerk_user_id = user` under the policy of the token's org. */
  function VisibleUser(s: State, p: Proc): Option<Member> {
    if p.newUser.Some? then p.newUser
    else
      var row := LookupUser(s.users, p.user);
      if row.Some? && row.value.org == p.tenant then row else None
  }

  function Reactivated(users: seq<Member>, u: UserId, org: OrgId): (r: seq<Member>)
    ensures |r| == |users|
  {
    seq(|users|, i requires 0 <= i < |users| =>
      if users[i].user == u && users[i].org == org then users[i].(active := true) else users[i])
  }

  function Without<K>(locks: map<K, ReqId>, r: ReqId): map<K, ReqId> {
    map k | k in locks && locks[k] != r :: locks[k]
  }

  /** One statement of `r`; a statement that meets an uncommitted index entry of another
      transaction waits, which is a step that changes nothing. */
  function AdvanceStep(s: State, r: ReqId): State
    requires r in s.procs
  {
    var p := s.procs[r];
    match p.at
    case SelectUser =>
      var existing := VisibleUser(s, p);
      s.(procs := s.procs[r := if existing.Some? then p.(at := Provisioned, reactivate := !existing.value.active)
                               else p.(at := SelectOrg)])
    case SelectOrg =>
      var pk := VisibleOrg(s, p);
      s.(procs := s.procs[r := if pk.Some? then p.(at := InsertUser, orgPk := pk) else p.(at := InsertOrg)])
    case InsertOrg =>
      if p.tenant in s.orgLocks then s
      else if LookupOrg(s.orgs, p.tenant).Some? then s.(procs := s.procs[r := p.(at := ReselectOrg)])
      else s.(procs := s.procs[r := p.(at := ReselectOrg, newOrg := Some(OrgRow(p.tenant, s.nextPk)))],
              nextPk := s.nextPk + 1, orgLocks := s.orgLocks[p.tenant := r])
    case ReselectOrg =>
      var pk := VisibleOrg(s, p);
      if pk.Some? then s.(procs := s.procs[r := p.(at := InsertUser, orgPk := pk)]) else AbortStep(s, r)
    case InsertUser =>
      if p.user in s.userLocks then s
      else if LookupUser(s.users, p.user).Some? then s.(procs := s.procs[r := p.(at := Provisioned)])
      else if p.orgPk.None? then s
      else s.(procs := s.procs[r := p.(at := Provisioned, newUser := Some(Member(p.user, p.tenant, p.orgPk.value, true)))],
              userLocks := s.userLocks[p.user := r])
    case Provisioned => s
  }

  function AbortStep(s: State, r: ReqId): State {
    s.(procs := s.procs - {r}, orgLocks := Without(s.orgLocks, r), userLocks := Without(s.userLocks, r))
  }

  function CommitStep(s: State, r: ReqId): State
    requires r in s.procs
  {
    var p := s.procs[r];
    var users := if p.reactivate then Reactivated(s.users, p.user, p.tenant) else s.users;
    AbortStep(s, r).(orgs := s.orgs + (if p.newOrg.Some? then [p.newOrg.value] else []),
                     users := users + (if p.newUser.Some? then [p.newUser.value] else []),
                     done := s.done + [p])
  }

  /** Events that are not possible where they stand change nothing. */
  function Step(s: State, e: Event): State {
    match e
    case Arrive(r, u, tenant) =>
      if r in s.procs then s else s.(procs := s.procs[r := Proc(u, tenant, SelectUser, None, None, false, None)])
    case Advance(r) => if r in s.procs then AdvanceStep(s, r) else s
    case Commit(r) => if r in s.procs && s.procs[r].at == Provisioned then CommitStep(s, r) else s
    case Abort(r) => if r in s.procs then AbortStep(s, r) else s
  }

  function Run(s: State, events: seq<Event>): State
    decreases events
  {
    if events == [] then s else Run(Step(s, events[0]), events[1..])
  }

  // ---------- the invariant ----------

  ghost predicate UniqueRows(s: State) {
    && (forall i, j :: 0 <= i < j < |s.orgs| ==> s.orgs[i].org != s.orgs[j].org)
    && (forall i, j :: 0 <= i < j < |s.users| ==> s.users[i].user != s.users[j].user)
  }

  /** Every committed user row carries the key of the committed row of its organisation. */
  ghost predicate KeysAgree(s: State) {
    forall i :: 0 <= i < |s.users| ==> LookupOrg(s.orgs, s.users[i].org) == Some(s.users[i].orgPk)
  }

  /** Locked index entries are uncommitted, and each open request's own facts hold. */
  ghost predicate LocksHold(s: State) {
    && (forall o :: o in s.orgLocks ==> LookupOrg(s.orgs, o).None?)
    && (forall u :: u in s.userLocks ==> LookupUser(s.users, u).None?)
  }

  ghost predicate ProcOk(s: State, r: ReqId, p: Proc) {
    && (p.newOrg.Some? ==> p.newOrg.value.org == p.tenant && p.tenant in s.orgLocks && s.orgLocks[p.tenant] == r)
    && (p.newUser.Some? ==> p.newUser.value.user == p.user && p.newUser.value.org == p.tenant
                            && p.user in s.userLocks && s.userLocks[p.user] == r
                            && VisibleOrg(s, p) == Some(p.newUser.value.orgPk))
    && (p.at == ReselectOrg ==> VisibleOrg(s, p).Some?)
    && (p.at == InsertUser ==> p.orgPk.Some? && VisibleOrg(s, p) == p.orgPk)
    && (p.at == Provisioned ==> p.newUser.Some? || LookupUser(s.users, p.user).Some?)
    && (p.newUser.Some? ==> p.at == Provisioned)
    && (p.reactivate ==> p.newUser.None? && p.at == Provisioned)
    && (p.newUser.Some? ==> p.newUser.value.active)
    && (p.at != SelectUser && !p.reactivate ==> NotLockedOut(s, p))
  }

  /** No inactive row of the request's own org stands for its user. */
  predicate NotLockedOut(s: State, p: Proc) {
    var row := LookupUser(s.users, p.user);
    row.Some? && row.value.org == p.tenant ==> row.value.active
  }

  ghost predicate Inv(s: State) {
    UniqueRows(s) && KeysAgree(s) && LocksHold(s) && forall r :: r in s.procs ==> ProcOk(s, r, s.procs[r])
  }

  lemma LookupOrgAppend(orgs: seq<OrgRow>, x: OrgRow, org: OrgId)
    ensures LookupOrg(orgs + [x], org) ==
            if LookupOrg(orgs, org).Some? then LookupOrg(orgs, org) else if x.org == org then Some(x.pk) else None
  {
    if orgs == [] {
      assert orgs + [x] == [x];
    } else {
      assert (orgs + [x])[1..] == orgs[1..] + [x];
      LookupOrgAppend(orgs[1..], x, org);
    }
  }

  lemma LookupUserAppend(users: seq<Member>, x: Member, u: UserId)
    ensures LookupUser(users + [x], u) ==
            if LookupUser(users, u).Some? then LookupUser(users, u) else if x.user == u then Some(x) else None
  {
    if users == [] {
      assert users + [x] == [x];
    } else {
      assert (users + [x])[1..] == users[1..] + [x];
      LookupUserAppend(users[1..], x, u);
    }
  }

  /** Reactivation changes no identity column. */
  lemma LookupReactivated(users: seq<Member>, u: UserId, org: OrgId, v: UserId)
    ensures var a, b := LookupUser(users, v), LookupUser(Reactivated(users, u, org), v);
            a.Some? == b.Some? && (a.Some? ==> b.value.(active := a.value.active) == a.value)
  {
    if users != [] {
      assert Reactivated(users, u, org)[1..] == Reactivated(users[1..], u, org);
      LookupReactivated(users[1..], u, org, v);
    }
  }

  /** Reactivation makes the user's row of that org active, and changes no other row. */
  lemma {:induction false} ReactivatedRow(users: seq<Member>, u: UserId, org: OrgId, v: UserId)
    ensures var a, b := LookupUser(users, v), LookupUser(Reactivated(users, u, org), v);
            && (b.Some? && v == u && b.value.org == org ==> b.value.active)
            && (a.Some? && b.Some? && a.value.active ==> b.value.active)
            && (v != u ==> b == a)
  {
    if users != [] {
      assert Reactivated(users, u, org)[1..] == Reactivated(users[1..], u, org);
      ReactivatedRow(users[1..], u, org, v);
    }
  }

  lemma AbortKeepsInv(s: State, r: ReqId)
    requires Inv(s)
    ensures Inv(AbortStep(s, r))
  {
    var s' := AbortStep(s, r);
    forall q | q in s'.procs ensures ProcOk(s', q, s'.procs[q]) {
      assert ProcOk(s, q, s.procs[q]);
    }
  }

  /** A statement of `r` commits nothing, changes no other request, and takes away no lock. */
  lemma AdvanceFrame(s: State, r: ReqId)
    requires r in s.procs && ProcOk(s, r, s.procs[r])
    ensures var s' := AdvanceStep(s, r);
            && s'.orgs == s.orgs && s'.users == s.users && s'.procs.Keys == s.procs.Keys
            && (forall q :: q in s.procs && q != r ==> s'.procs[q] == s.procs[q])
  {
  }

  lemma AdvanceKeepsLocks(s: State, r: ReqId)
    requires r in s.procs && ProcOk(s, r, s.procs[r])
    ensures var s' := AdvanceStep(s, r);
            && (forall o :: o in s.orgLocks ==> o in s'.orgLocks && s'.orgLocks[o] == s.orgLocks[o])
            && (forall u :: u in s.userLocks ==> u in s'.userLocks && s'.userLocks[u] == s.userLocks[u])
  {
  }

  lemma AdvanceLocksFreeEntries(s: State, r: ReqId)
    requires LocksHold(s) && r in s.procs && ProcOk(s, r, s.procs[r])
    ensures LocksHold(AdvanceStep(s, r))
  {
  }

  lemma AdvanceOrgFacts(s: State, r: ReqId)
    requires r in s.procs && ProcOk(s, r, s.procs[r])
    requires s.procs[r].at == SelectOrg || s.procs[r].at == InsertOrg || s.procs[r].at == ReselectOrg
    ensures var s' := AdvanceStep(s, r); r in s'.procs && ProcOk(s', r, s'.procs[r])
  {
  }

  lemma AdvanceUserFacts(s: State, r: ReqId)
    requires r in s.procs && ProcOk(s, r, s.procs[r])
    requires s.procs[r].at == SelectUser || s.procs[r].at == InsertUser || s.procs[r].at == Provisioned
    ensures var s' := AdvanceStep(s, r); r in s'.procs && ProcOk(s', r, s'.procs[r])
  {
  }

  lemma AdvanceOwnFacts(s: State, r: ReqId)
    requires r in s.procs && ProcOk(s, r, s.procs[r])
    ensures var s' := AdvanceStep(s, r); r in s'.procs && ProcOk(s', r, s'.procs[r])
  {
    match s.procs[r].at
    case SelectUser => AdvanceUserFacts(s, r);
    case InsertUser => AdvanceUserFacts(s, r);
    case Provisioned => AdvanceUserFacts(s, r);
    case SelectOrg => AdvanceOrgFacts(s, r);
    case InsertOrg => AdvanceOrgFacts(s, r);
    case ReselectOrg => AdvanceOrgFacts(s, r);
  }

  lemma AdvanceKeepsInv(s: State, r: ReqId)
    requires Inv(s) && r in s.procs
    ensures Inv(AdvanceStep(s, r))
  {
    var s' := AdvanceStep(s, r);
    assert ProcOk(s, r, s.procs[r]);
    AdvanceFrame(s, r);
    AdvanceKeepsLocks(s, r);
    AdvanceLocksFreeEntries(s, r);
    AdvanceOwnFacts(s, r);
    forall q | q in s'.procs ensures ProcOk(s', q, s'.procs[q]) {
      assert q in s.procs && ProcOk(s, q, s.procs[q]);
    }
  }

  /** Lookups after the commit of `r`: what was there stays, and only r's own rows are new. */
  lemma CommitLookups(s: State, r: ReqId, o: OrgId, u: UserId)
    requires Inv(s) && r in s.procs
    ensures var p, s' := s.procs[r], CommitStep(s, r);
            && LookupOrg(s'.orgs, o) == (if p.newOrg.Some? && o == p.tenant then Some(p.newOrg.value.pk) else LookupOrg(s.orgs, o))
            && (LookupUser(s'.users, u).Some? <==> LookupUser(s.users, u).Some? || (p.newUser.Some? && u == p.user))
            && (LookupUser(s.users, u).Some? ==>
                  && LookupUser(s'.users, u).value.(active := LookupUser(s.users, u).value.active) == LookupUser(s.users, u).value
                  && (LookupUser(s.users, u).value.active ==> LookupUser(s'.users, u).value.active))
            && (LookupUser(s.users, u).None? && p.newUser.Some? && u == p.user ==> LookupUser(s'.users, u) == p.newUser)
            && (p.reactivate && u == p.user && LookupUser(s'.users, u).Some? && LookupUser(s'.users, u).value.org == p.tenant ==>
                  LookupUser(s'.users, u).value.active)
            && (u != p.user ==> LookupUser(s'.users, u) == LookupUser(s.users, u))
  {
    var p := s.procs[r];
    assert ProcOk(s, r, p);
    assert s.orgs + [] == s.orgs;
    if p.newOrg.Some? {
      LookupOrgAppend(s.orgs, p.newOrg.value, o);
    }
    var users := if p.reactivate then Reactivated(s.users, p.user, p.tenant) else s.users;
    LookupReactivated(s.users, p.user, p.tenant, u);
    ReactivatedRow(s.users, p.user, p.tenant, u);
    assert users + [] == users;
    if p.newUser.Some? {
      LookupUserAppend(users, p.newUser.value, u);
    }
  }

  lemma CommitKeepsUnique(s: State, r: ReqId)
    requires Inv(s) && r in s.procs
    ensures UniqueRows(CommitStep(s, r))
  {
    var p, s' := s.procs[r], CommitStep(s, r);
    assert ProcOk(s, r, p);
    LookupOrgFinds(s.orgs, p.tenant);
    LookupUserFinds(s.users, p.user);
    assert forall i :: 0 <= i < |s.users| ==> s'.users[i].user == s.users[i].user;
  }

  lemma CommitKeepsKeys(s: State, r: ReqId)
    requires Inv(s) && r in s.procs
    ensures KeysAgree(CommitStep(s, r))
  {
    var p, s' := s.procs[r], CommitStep(s, r);
    assert ProcOk(s, r, p);
    forall i | 0 <= i < |s'.users| ensures LookupOrg(s'.orgs, s'.users[i].org) == Some(s'.users[i].orgPk) {
      CommitLookups(s, r, s'.users[i].org, p.user);
      if i < |s.users| {
        assert s'.users[i].org == s.users[i].org && s'.users[i].orgPk == s.users[i].orgPk;
      } else {
        assert s'.users[i] == p.newUser.value;
      }
    }
  }

  lemma CommitKeepsInv(s: State, r: ReqId)
    requires Inv(s) && r in s.procs && s.procs[r].at == Provisioned
    ensures Inv(CommitStep(s, r))
  {
    var p, s' := s.procs[r], CommitStep(s, r);
    CommitKeepsUnique(s, r);
    CommitKeepsKeys(s, r);
    assert ProcOk(s, r, p);
    forall o | o in s'.orgLocks ensures LookupOrg(s'.orgs, o).None? {
      CommitLookups(s, r, o, p.user);
    }
    forall u | u in s'.userLocks ensures LookupUser(s'.users, u).None? {
      CommitLookups(s, r, p.tenant, u);
    }
    forall q | q in s'.procs ensures ProcOk(s', q, s'.procs[q]) {
      assert ProcOk(s, q, s.procs[q]);
      CommitLookups(s, r, s.procs[q].tenant, s.procs[q].user);
    }
  }

  lemma StepKeepsInv(s: State, e: Event)
    requires Inv(s)
    ensures Inv(Step(s, e))
  {
    match e
    case Arrive(r, u, tenant) =>
      var s' := Step(s, e);
      forall q | q in s'.procs ensures ProcOk(s', q, s'.procs[q]) {
        assert q in s.procs ==> ProcOk(s, q, s.procs[q]);
      }
    case Advance(r) => if r in s.procs { AdvanceKeepsInv(s, r); }
    case Commit(r) => if r in s.procs && s.procs[r].at == Provisioned { CommitKeepsInv(s, r); }
    case Abort(r) => AbortKeepsInv(s, r);
  }

  /** With nothing open, the rows' own properties are the whole invariant: an empty database has them. */
  lemma QuiescentStart(s: State)
    requires s.procs == map[] && s.orgLocks == map[] && s.userLocks == map[] && s.done == []
    requires UniqueRows(s) && KeysAgree(s)
    ensures Inv(s) && AllSettled(s)
  {
  }

  /** One row per organisation and per user, and agreeing keys, in every interleaving. */
  lemma {:induction false} RunKeepsInv(s: State, events: seq<Event>)
    requires Inv(s)
    ensures var s' := Run(s, events); UniqueRows(s') && KeysAgree(s') && Inv(s')
    decreases events
  {
    if events != [] {
      StepKeepsInv(s, events[0]);
      RunKeepsInv(Step(s, events[0]), events[1..]);
    }
  }

  // ---------- what a request sees ----------

  /** A provisioned request sees its own user row exactly when its user has no row in another org;
      the row it sees carries the key of the organisation row it sees. The re-select after the
      organisation insert never comes back empty. */
  lemma ProvisionedRequestSeesItself(s: State, events: seq<Event>, r: ReqId)
    requires Inv(s) && r in Run(s, events).procs
    ensures var s', p := Run(s, events), Run(s, events).procs[r];
            && (p.at == ReselectOrg ==> VisibleOrg(s', p).Some?)
            && (p.at == Provisioned ==>
                  (VisibleUser(s', p).Some? <==> !(var row := LookupUser(s'.users, p.user); row.Some? && row.value.org != p.tenant))
                  && (VisibleUser(s', p).Some? ==>
                        VisibleUser(s', p).value.org == p.tenant && VisibleOrg(s', p) == Some(VisibleUser(s', p).value.orgPk)))
  {
    RunKeepsInv(s, events);
    var s' := Run(s, events);
    LookupUserFinds(s'.users, s'.procs[r].user);
    assert ProcOk(s', r, s'.procs[r]);
  }

  /** What a committed request leaves behind. */
  ghost predicate AllSettled(s: State) {
    forall i :: 0 <= i < |s.done| ==> Settled(s, s.done[i])
  }

  ghost predicate Settled(s: State, p: Proc) {
    var row := LookupUser(s.users, p.user);
    && row.Some?
    && (row.value.org == p.tenant ==> LookupOrg(s.orgs, p.tenant) == Some(row.value.orgPk) && row.value.active)
  }

  lemma StepKeepsSettled(s: State, e: Event, p: Proc)
    requires Inv(s) && Settled(s, p)
    ensures Settled(Step(s, e), p)
  {
    StepKeepsInv(s, e);
    var s' := Step(s, e);
    LookupUserFinds(s'.users, p.user);
    if e.Commit? && e.r in s.procs && s.procs[e.r].at == Provisioned {
      CommitLookups(s, e.r, p.tenant, p.user);
    }
  }

  lemma CommitSettles(s: State, r: ReqId)
    requires Inv(s) && r in s.procs && s.procs[r].at == Provisioned
    ensures Settled(CommitStep(s, r), s.procs[r])
  {
    CommitKeepsInv(s, r);
    assert ProcOk(s, r, s.procs[r]);
    CommitLookups(s, r, s.procs[r].tenant, s.procs[r].user);
    LookupUserFinds(CommitStep(s, r).users, s.procs[r].user);
  }

  /** A provisioned request that commits leaves its user with a row, active if it is of the request's org (so a
      removed member who was invited again is let in), and leaves every other user's row as it was. */
  lemma CommitLetsItsUserIn(s: State, events: seq<Event>, r: ReqId)
    requires Inv(s) && r in Run(s, events).procs && Run(s, events).procs[r].at == Provisioned
    ensures var s1 := Run(s, events);
            var p, s2 := s1.procs[r], Step(s1, Commit(r));
            var row := LookupUser(s2.users, p.user);
            && row.Some? && (row.value.org == p.tenant ==> row.value.active)
            && forall v :: v != p.user ==> LookupUser(s2.users, v) == LookupUser(s1.users, v)
  {
    RunKeepsInv(s, events);
    var s1 := Run(s, events);
    CommitSettles(s1, r);
    forall v | v != s1.procs[r].user ensures LookupUser(CommitStep(s1, r).users, v) == LookupUser(s1.users, v) {
      CommitLookups(s1, r, s1.procs[r].tenant, v);
    }
  }

  /** Every request that committed, whatever raced with it: its user has a row for good, and unless
      that row is another org's, its key is the one key of the request's organisation and it is active. */
  lemma {:induction false} CommittedRequestsAgree(s: State, events: seq<Event>)
    requires Inv(s) && AllSettled(s)
    ensures AllSettled(Run(s, events))
    decreases events
  {
    if events != [] {
      var e, s1 := events[0], Step(s, events[0]);
      StepKeepsInv(s, e);
      forall i | 0 <= i < |s1.done| ensures Settled(s1, s1.done[i]) {
        if i < |s.done| {
          StepKeepsSettled(s, e, s.done[i]);
        } else {
          CommitSettles(s, e.r);
        }
      }
      CommittedRequestsAgree(s1, events[1..]);
    }
  }

  // ---------- a request that nothing disturbs ----------

  lemma RunCons(s: State, e: Event, events: seq<Event>)
    ensures Run(s, [e] + events) == Run(Step(s, e), events)
  {
    assert ([e] + events)[1..] == events;
  }

  predicate Idle(s: State) {
    s.procs == map[] && s.orgLocks == map[] && s.userLocks == map[]
  }

  // The state while `p` is the only open request.
  function Serving(s: State, r: ReqId, p: Proc, taken: nat, orgLocks: map<OrgId, ReqId>, userLocks: map<UserId, ReqId>): State {
    State(s.orgs, s.users, s.nextPk + taken, map[r := p], orgLocks, userLocks, s.done)
  }

  lemma LoneSelects(s: State, r: ReqId, u: UserId, org: OrgId)
    requires Idle(s) && LookupUser(s.users, u).None? && LookupOrg(s.orgs, org).None?
    ensures Step(s, Arrive(r, u, org)) == Serving(s, r, Proc(u, org, SelectUser, None, None, false, None), 0, map[], map[])
    ensures Step(Serving(s, r, Proc(u, org, SelectUser, None, None, false, None), 0, map[], map[]), Advance(r)) ==
            Serving(s, r, Proc(u, org, SelectOrg, None, None, false, None), 0, map[], map[])
    ensures Step(Serving(s, r, Proc(u, org, SelectOrg, None, None, false, None), 0, map[], map[]), Advance(r)) ==
            Serving(s, r, Proc(u, org, InsertOrg, None, None, false, None), 0, map[], map[])
  {
  }

  lemma LoneInserts(s: State, r: ReqId, u: UserId, org: OrgId)
    requires LookupUser(s.users, u).None? && LookupOrg(s.orgs, org).None?
    ensures var row, member := OrgRow(org, s.nextPk), Member(u, org, s.nextPk, true);
            && Step(Serving(s, r, Proc(u, org, InsertOrg, None, None, false, None), 0, map[], map[]), Advance(r)) ==
               Serving(s, r, Proc(u, org, ReselectOrg, Some(row), None, false, None), 1, map[org := r], map[])
            && Step(Serving(s, r, Proc(u, org, ReselectOrg, Some(row), None, false, None), 1, map[org := r], map[]), Advance(r)) ==
               Serving(s, r, Proc(u, org, InsertUser, Some(row), None, false, Some(s.nextPk)), 1, map[org := r], map[])
            && Step(Serving(s, r, Proc(u, org, InsertUser, Some(row), None, false, Some(s.nextPk)), 1, map[org := r], map[]), Advance(r)) ==
               Serving(s, r, Proc(u, org, Provisioned, Some(row), Some(member), false, Some(s.nextPk)), 1, map[org := r], map[u := r])
  {
  }

  lemma LoneCommits(s: State, r: ReqId, u: UserId, org: OrgId)
    ensures var row, member := OrgRow(org, s.nextPk), Member(u, org, s.nextPk, true);
            var p := Proc(u, org, Provisioned, Some(row), Some(member), false, Some(s.nextPk));
            Step(Serving(s, r, p, 1, map[org := r], map[u := r]), Commit(r)) ==
            State(s.orgs + [row], s.users + [member], s.nextPk + 1, map[], map[], map[], s.done + [p])
  {
    var row, member := OrgRow(org, s.nextPk), Member(u, org, s.nextPk, true);
    var p := Proc(u, org, Provisioned, Some(row), Some(member), false, Some(s.nextPk));
    var s' := Step(Serving(s, r, p, 1, map[org := r], map[u := r]), Commit(r));
    assert s'.procs == map[] && s'.orgLocks == map[] && s'.userLocks == map[];
  }

  lemma RunThree(s: State, a: Event, b: Event, c: Event)
    ensures Run(s, [a, b, c]) == Step(Step(Step(s, a), b), c)
  {
    RunCons(s, a, [b, c]);
    RunCons(Step(s, a), b, [c]);
    RunCons(Step(Step(s, a), b), c, []);
    assert [a] + [b, c] == [a, b, c] && [b] + [c] == [b, c] && [c] + [] == [c];
  }

  lemma {:induction false} RunAppend(s: State, xs: seq<Event>, ys: seq<Event>)
    ensures Run(s, xs + ys) == Run(Run(s, xs), ys)
    decreases xs
  {
    if xs == [] {
      assert xs + ys == ys;
    } else {
      assert (xs + ys)[1..] == xs[1..] + ys;
      RunAppend(Step(s, xs[0]), xs[1..], ys);
    }
  }

  /** The first request of a new user in a new organisation, with nothing to disturb it, creates both rows. */
  lemma LoneRequestCreates(s: State, r: ReqId, u: UserId, org: OrgId)
    requires Idle(s) && LookupUser(s.users, u).None? && LookupOrg(s.orgs, org).None?
    ensures var s' := Run(s, [Arrive(r, u, org), Advance(r), Advance(r)] + [Advance(r), Advance(r), Advance(r)] + [Commit(r)]);
            && s'.orgs == s.orgs + [OrgRow(org, s.nextPk)]
            && s'.users == s.users + [Member(u, org, s.nextPk, true)]
            && Idle(s')
  {
    var selects, inserts := [Arrive(r, u, org), Advance(r), Advance(r)], [Advance(r), Advance(r), Advance(r)];
    LoneSelects(s, r, u, org);
    LoneInserts(s, r, u, org);
    LoneCommits(s, r, u, org);
    RunThree(s, Arrive(r, u, org), Advance(r), Advance(r));
    RunThree(Run(s, selects), Advance(r), Advance(r), Advance(r));
    RunAppend(s, selects, inserts);
    RunAppend(s, selects + inserts, [Commit(r)]);
    RunCons(Run(s, selects + inserts), Commit(r), []);
    assert [Commit(r)] + [] == [Commit(r)];
  }

  /** The request of a known user of the org is provisioned by its first statement, and commits with the row
      active whatever it was. */
  lemma LoneRequestReactivates(s: State, r: ReqId, u: UserId, org: OrgId)
    requires Idle(s) && LookupUser(s.users, u).Some? && LookupUser(s.users, u).value.org == org
    ensures var s' := Run(s, [Arrive(r, u, org)] + ([Advance(r)] + ([Commit(r)] + [])));
            && s'.orgs == s.orgs && |s'.users| == |s.users| && Idle(s')
            && LookupUser(s'.users, u) == Some(LookupUser(s.users, u).value.(active := true))
  {
    var e2 := [Commit(r)] + [];
    var e1 := [Advance(r)] + e2;
    RunCons(s, Arrive(r, u, org), e1);
    var s1 := Step(s, Arrive(r, u, org));
    RunCons(s1, Advance(r), e2);
    var s2 := Step(s1, Advance(r));
    assert s2.procs[r].at == Provisioned && s2.procs[r].reactivate == !LookupUser(s.users, u).value.active;
    RunCons(s2, Commit(r), []);
    LookupReactivated(s.users, u, org, u);
    ReactivatedRow(s.users, u, org, u);
    LookupUserFinds(s.users, u);
    assert s.users + [] == s.users && s.orgs + [] == s.orgs;
    assert Reactivated(s.users, u, org) + [] == Reactivated(s.users, u, org);
  }
}
