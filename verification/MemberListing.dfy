/** The cross-org member list: live memberships of the directory merged with the removed members that
    the target org's own table still knows. */
module MemberListing {
  import opened Prelude
  import opened Tenancy
  import opened OrmSession
  import opened AdminAccess
  import opened MemberRoutes

  datatype Listed = Listed(user: UserId, role: string, status: Status)

  // KeyError: a removed member's local role is not one that the API can name.
  datatype ListError = DirectoryFailed | KeyError

  predicate NamedRole(role: string) {
    role == "admin" || role == "member"
  }

  /** A removed member of the org with no live membership. */
  predicate Removed(t: Tables, clerk: Members, org: OrgId, u: UserId) {
    u in t.users && t.users[u].org == org && t.users[u].status == Inactive && (org, u) !in clerk
  }

  /** `order` enumerates, once each and in any order, what a query or an API page returned. */
  ghost predicate Enumerates(order: seq<UserId>, us: iset<UserId>) {
    && (forall i, j :: 0 <= i < j < |order| ==> order[i] != order[j])
    && (forall u :: u in order <==> u in us)
  }

  ghost function LiveMembers(clerk: Members, org: OrgId): iset<UserId> {
    iset u | (org, u) in clerk
  }

  ghost function InactiveRows(t: Tables, org: OrgId): iset<UserId> {
    iset u | u in t.users && t.users[u].org == org && t.users[u].status == Inactive
  }

  predicate IsLiveEntry(clerk: Members, org: OrgId, x: Listed) {
    (org, x.user) in clerk && x.role == clerk[(org, x.user)] && x.status == Active
  }

  predicate IsRemovedEntry(t: Tables, clerk: Members, org: OrgId, x: Listed) {
    Removed(t, clerk, org, x.user) && x.role == "org:" + t.users[x.user].role && x.status == Inactive
  }

  ghost predicate EachOnce(r: seq<Listed>) {
    forall i, j :: 0 <= i < j < |r| ==> r[i].user != r[j].user
  }

  /** Each user once; every live member with the directory's role, and every other removed member. */
  ghost predicate IsListing(r: seq<Listed>, t: Tables, clerk: Members, org: OrgId) {
    EachOnce(r) && forall x :: x in r <==> IsLiveEntry(clerk, org, x) || IsRemovedEntry(t, clerk, org, x)
  }

  method ListLive(clerk: Members, org: OrgId, live: seq<UserId>) returns (r: seq<Listed>)
    requires Enumerates(live, LiveMembers(clerk, org))
    ensures EachOnce(r) && forall x :: x in r <==> IsLiveEntry(clerk, org, x)
  {
    r := [];
    var i := 0;
    while i < |live|
      invariant 0 <= i <= |live|
      invariant EachOnce(r) && forall x :: x in r <==> x.user in live[..i] && IsLiveEntry(clerk, org, x)
    {
      assert live[i] in live;
      assert live[..i + 1] == live[..i] + [live[i]];
      assert forall x :: x in r ==> x.user != live[i];
      r := r + [Listed(live[i], clerk[(org, live[i])], Active)];
      i := i + 1;
    }
    assert live[..i] == live;
  }

  // A list call asks for one page.
  const PAGE := 500

  /** `order` is the directory's order of the org's memberships, and those beyond its first page are not returned. */
  ghost predicate Paged(clerk: Members, env: Env, org: OrgId, order: seq<UserId>) {
    && Enumerates(order, LiveMembers(clerk, org))
    && forall i :: 0 <= i < |order| ==> (i < PAGE <==> (org, order[i]) !in env.unlisted)
  }

  function FirstPage(order: seq<UserId>): seq<UserId> {
    if |order| <= PAGE then order else order[..PAGE]
  }

  /** The memberships on the page that the list call returns. */
  function Fetched(clerk: Members, env: Env): Members {
    map k | k in clerk && k !in env.unlisted :: clerk[k]
  }

  lemma FirstPageIsFetched(clerk: Members, env: Env, org: OrgId, order: seq<UserId>)
    requires Paged(clerk, env, org, order)
    ensures Enumerates(FirstPage(order), LiveMembers(Fetched(clerk, env), org))
  {
    var page := FirstPage(order);
    forall u ensures u in page <==> (org, u) in Fetched(clerk, env) {
      if (org, u) in Fetched(clerk, env) {
        assert u in order;
        var i :| 0 <= i < |order| && order[i] == u;
        assert page[i] == u;
      }
      if u in page {
        var i :| 0 <= i < |page| && page[i] == u;
        assert order[i] == u && u in order;
      }
    }
  }

  method ListOrgMembers(s: Session, clerk: Members, org: OrgId, env: Env, order: seq<UserId>, local: seq<UserId>)
      returns (r: Result<seq<Listed>, ListError>)
    requires Paged(clerk, env, org, order) && Enumerates(local, InactiveRows(s.work, org))
    modifies s`scope
    ensures r == Failure(DirectoryFailed) <==> !env.clerkListed
    ensures r == Failure(KeyError) <==>
              env.clerkListed && exists u :: Removed(s.work, Fetched(clerk, env), org, u)
                                          && s.work.users[u].role != "admin" && s.work.users[u].role != "member"
    ensures r.Success? ==> IsListing(r.value, s.work, Fetched(clerk, env), org) && s.scope == Some(org)
  {
    if !env.clerkListed {
      return Failure(DirectoryFailed);
    }
    var page, live := Fetched(clerk, env), FirstPage(order);
    FirstPageIsFetched(clerk, env, org, order);
    s.SetScope(org);
    var result := ListLive(page, org, live);
    var i := 0;
    while i < |local|
      invariant 0 <= i <= |local|
      invariant EachOnce(result)
      invariant forall x :: x in result <==>
                  IsLiveEntry(page, org, x) || (x.user in local[..i] && IsRemovedEntry(s.work, page, org, x))
      invariant forall u :: u in local[..i] && Removed(s.work, page, org, u) ==> NamedRole(s.work.users[u].role)
    {
      var u := local[i];
      assert u in local;
      assert local[..i + 1] == local[..i] + [u];
      if u !in live {
        var role := s.work.users[u].role;
        assert Removed(s.work, page, org, u);
        if !NamedRole(role) {
          return Failure(KeyError);
        }
        assert forall x :: x in result ==> x.user != u;
        result := result + [Listed(u, "org:" + role, Inactive)];
      }
      i := i + 1;
    }
    assert local[..i] == local;
    r := Success(result);
  }

  // ---------- across operations ----------

  /** The list speaks for the whole directory if and only if the org has at most one page of members. */
  lemma ListsDirectoryExactly(r: seq<Listed>, t: Tables, clerk: Members, env: Env, org: OrgId, order: seq<UserId>)
    requires Paged(clerk, env, org, order) && IsListing(r, t, Fetched(clerk, env), org)
    ensures IsListing(r, t, clerk, org) <==> |order| <= 500
  {
    if |order| > PAGE {
      var u := order[PAGE];
      assert u in order;
      var x := Listed(u, clerk[(org, u)], Active);
      assert IsLiveEntry(clerk, org, x);
      assert !IsLiveEntry(Fetched(clerk, env), org, x) && !IsRemovedEntry(t, Fetched(clerk, env), org, x);
    } else {
      forall u ensures (org, u) in clerk <==> (org, u) in Fetched(clerk, env) {
        if (org, u) in clerk {
          assert u in order;
        }
      }
    }
  }

  /** After a committed cross-org removal the user is no longer listed as active: the list shows the user
      as removed when the org's table knows the user, and not at all otherwise. */
  lemma RemovalMovesToRemoved(t: Tables, clerk: Members, cfg: Config, c: Claims, org: OrgId, u: UserId, env: Env, later: Env, r: seq<Listed>)
    requires RemoveOrgMemberSpec(t, clerk, cfg, c, org, u, env).tables.Some?
    requires var o := RemoveOrgMemberSpec(t, clerk, cfg, c, org, u, env); IsListing(r, o.tables.value, Fetched(o.clerk, later), org)
    ensures forall x :: x in r && x.user == u ==> x.status == Inactive
    ensures (exists x :: x in r && x.user == u) <==> u in t.users && t.users[u].org == org
  {
    var o := RemoveOrgMemberSpec(t, clerk, cfg, c, org, u, env);
    var t' := o.tables.value;
    RemovedUserRow(t, clerk, cfg, c, org, u, env);
    if u in t.users && t.users[u].org == org {
      var x := Listed(u, "org:" + t'.users[u].role, Inactive);
      assert IsRemovedEntry(t', Fetched(o.clerk, later), org, x);
      assert x in r;
    }
  }

  lemma RemovedUserRow(t: Tables, clerk: Members, cfg: Config, c: Claims, org: OrgId, u: UserId, env: Env)
    requires RemoveOrgMemberSpec(t, clerk, cfg, c, org, u, env).tables.Some?
    ensures var o := RemoveOrgMemberSpec(t, clerk, cfg, c, org, u, env);
            && (org, u) !in o.clerk
            && (u in o.tables.value.users && o.tables.value.users[u].org == org <==> u in t.users && t.users[u].org == org)
            && (u in t.users && t.users[u].org == org ==> o.tables.value.users[u].status == Inactive)
  {
  }

  /** A user who was removed and is a live member again is listed once: as the directory says if and only
      if the membership is among the first page of the directory's order, and else still as removed. */
  lemma ReinvitedListedExactly(t: Tables, clerk: Members, org: OrgId, order: seq<UserId>, i: nat, env: Env, r: seq<Listed>)
    requires Paged(clerk, env, org, order) && i < |order| && IsListing(r, t, Fetched(clerk, env), org)
    requires order[i] in t.users && t.users[order[i]].org == org && t.users[order[i]].status == Inactive
    ensures (org, order[i]) in clerk
    ensures exists x :: x in r && x.user == order[i]
    ensures forall x :: x in r && x.user == order[i] ==>
              x == if i < PAGE then Listed(order[i], clerk[(org, order[i])], Active)
                   else Listed(order[i], "org:" + t.users[order[i]].role, Inactive)
  {
    var u, page := order[i], Fetched(clerk, env);
    assert u in order;
    var x := if i < PAGE then Listed(u, clerk[(org, u)], Active) else Listed(u, "org:" + t.users[u].role, Inactive);
    assert IsLiveEntry(page, org, x) || IsRemovedEntry(t, page, org, x);
    assert x in r;
  }
}
