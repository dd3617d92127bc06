/** Tenant isolation over pooled database backends. A pooler hands a backend to a client for one
    transaction at a time; `app.org_id` is a setting of the backend, not of the client. With
    transaction-local settings every row a transaction reads or writes belongs to the org its own
    client set last in that same transaction, however the clients interleave. */
module PooledScopes {
  import opened Prelude
  import opened Tenancy

  type Client = nat
  type Key = nat

  datatype Row = Row(org: OrgId, content: int)

  // The two layers of a backend's setting: SET LOCAL shadows the session-level value. `owner` is
  // the client whose transaction the pooler has put on the backend.
  datatype Backend = Backend(owner: Option<Client>, local: Scope, session: Scope)

  // An open transaction: its backend, its uncommitted rows, and the session setting to restore on rollback.
  datatype Txn = Txn(backend: nat, overlay: map<Key, Row>, sessionBefore: Scope)

  // `locks` maps a row written by an open transaction to its client.
  datatype State = State(rows: map<Key, Row>, backends: seq<Backend>, open: map<Client, Txn>, locks: map<Key, Client>)

  datatype Event =
    | Begin(c: Client, backend: nat)
    | SetConfig(c: Client, org: OrgId, isLocal: bool)
    | Read(c: Client, key: Key)
    | Write(c: Client, key: Key, row: Row)
    | Commit(c: Client)
    | Rollback(c: Client)

  function Setting(b: Backend): Scope {
    if b.local.Some? then b.local else b.session
  }

  predicate InTxn(s: State, c: Client) {
    c in s.open && s.open[c].backend < |s.backends|
  }

  /** `current_setting('app.org_id', true)` in the client's open transaction. */
  function ScopeOf(s: State, c: Client): Scope
    requires InTxn(s, c)
  {
    Setting(s.backends[s.open[c].backend])
  }

  /** The row the transaction would see without row-level security: its own write, else the committed row. */
  function Latest(s: State, c: Client, key: Key): Option<Row>
    requires c in s.open
  {
    if key in s.open[c].overlay then Some(s.open[c].overlay[key])
    else if key in s.rows then Some(s.rows[key]) else None
  }

  /** What a select by key returns under the policy. */
  function Select(s: State, c: Client, key: Key): Option<Row>
    requires InTxn(s, c)
  {
    var r := Latest(s, c, key);
    if r.Some? && ScopeOf(s, c) == Some(r.value.org) then r else None
  }

  /** An insert of a new key or an update of a visible row, with the policy's check on the new row. */
  predicate WriteAllowed(s: State, c: Client, key: Key, row: Row)
    requires InTxn(s, c)
  {
    ScopeOf(s, c) == Some(row.org) && (Latest(s, c, key).None? || Select(s, c, key).Some?)
  }

  /** Idle backends only are handed out; a row locked by another transaction makes the writer wait. */
  predicate Enabled(s: State, e: Event) {
    match e
    case Begin(c, b) => c !in s.open && b < |s.backends| && s.backends[b].owner == None
    case SetConfig(c, _, _) => InTxn(s, c)
    case Read(c, _) => InTxn(s, c)
    case Write(c, key, _) => InTxn(s, c) && (key in s.locks ==> s.locks[key] == c)
    case Commit(c) => InTxn(s, c)
    case Rollback(c) => InTxn(s, c)
  }

  function Released(locks: map<Key, Client>, c: Client): map<Key, Client> {
    map k | k in locks && locks[k] != c :: locks[k]
  }

  function Step(s: State, e: Event): State
    requires Enabled(s, e)
  {
    match e
    case Begin(c, b) =>
      s.(open := s.open[c := Txn(b, map[], s.backends[b].session)],
         backends := s.backends[b := s.backends[b].(owner := Some(c))])
    case SetConfig(c, org, isLocal) =>
      var b := s.open[c].backend;
      s.(backends := s.backends[b := if isLocal then s.backends[b].(local := Some(org))
                                     else s.backends[b].(local := None, session := Some(org))])
    case Read(_, _) => s
    case Write(c, key, row) =>
      if WriteAllowed(s, c, key, row)
      then s.(open := s.open[c := s.open[c].(overlay := s.open[c].overlay[key := row])], locks := s.locks[key := c])
      else s
    case Commit(c) =>
      var b := s.open[c].backend;
      State(s.rows + s.open[c].overlay, s.backends[b := s.backends[b].(owner := None, local := None)],
            s.open - {c}, Released(s.locks, c))
    case Rollback(c) =>
      var b := s.open[c].backend;
      State(s.rows, s.backends[b := Backend(None, None, s.open[c].sessionBefore)], s.open - {c}, Released(s.locks, c))
  }

  /** The state after a history; None when some event was not possible where it stands. */
  function Run(s0: State, h: seq<Event>): Option<State>
    decreases |h|
  {
    if h == [] then Some(s0)
    else
      match Run(s0, h[..|h| - 1])
      case None => None
      case Some(s) => if Enabled(s, h[|h| - 1]) then Some(Step(s, h[|h| - 1])) else None
  }

  predicate Fresh(s: State) {
    s.open == map[] && forall b :: 0 <= b < |s.backends| ==> s.backends[b] == Backend(None, None, None)
  }

  /** The application only ever issues the transaction-local form. */
  predicate OnlyLocal(h: seq<Event>) {
    forall i :: 0 <= i < |h| && h[i].SetConfig? ==> h[i].isLocal
  }

  // ---------- the reference, read off the history alone ----------

  /** The org `c` set last since its latest Begin; backends do not occur in this definition. */
  function LastSet(h: seq<Event>, c: Client): Scope
    decreases |h|
  {
    if h == [] then None
    else
      var e := h[|h| - 1];
      if e.Begin? && e.c == c then None
      else if e.SetConfig? && e.c == c then Some(e.org)
      else LastSet(h[..|h| - 1], c)
  }

  /** Every org `c` set since its latest Begin. */
  function AllSet(h: seq<Event>, c: Client): set<OrgId>
    decreases |h|
  {
    if h == [] then {}
    else
      var e := h[|h| - 1];
      if e.Begin? && e.c == c then {}
      else AllSet(h[..|h| - 1], c) + (if e.SetConfig? && e.c == c then {e.org} else {})
  }

  // ---------- the invariant ----------

  ghost predicate BackendsMatch(s: State, h: seq<Event>) {
    && (forall c :: c in s.open ==>
          InTxn(s, c) && s.backends[s.open[c].backend] == Backend(Some(c), LastSet(h, c), None) && s.open[c].sessionBefore == None)
    && (forall b :: 0 <= b < |s.backends| && s.backends[b].owner == None ==> s.backends[b] == Backend(None, None, None))
  }

  predicate Wrote(s: State, c: Client, k: Key) {
    c in s.open && k in s.open[c].overlay
  }

  ghost predicate OverlayFits(s: State, h: seq<Event>, c: Client, k: Key)
    requires Wrote(s, c, k)
  {
    && k in s.locks && s.locks[k] == c
    && s.open[c].overlay[k].org in AllSet(h, c)
    && (k in s.rows ==> s.rows[k].org == s.open[c].overlay[k].org)
  }

  ghost predicate OverlaysMatch(s: State, h: seq<Event>) {
    forall c, k :: Wrote(s, c, k) ==> OverlayFits(s, h, c, k)
  }

  lemma HistoryGrows(h: seq<Event>, e: Event, c: Client)
    ensures LastSet(h + [e], c) == if e.Begin? && e.c == c then None
                                   else if e.SetConfig? && e.c == c then Some(e.org) else LastSet(h, c)
    ensures AllSet(h + [e], c) == if e.Begin? && e.c == c then {}
                                  else AllSet(h, c) + (if e.SetConfig? && e.c == c then {e.org} else {})
  {
    assert (h + [e])[..|h + [e]| - 1] == h;
  }

  lemma StepKeepsBackends(s: State, h: seq<Event>, e: Event)
    requires BackendsMatch(s, h) && Enabled(s, e) && (e.SetConfig? ==> e.isLocal)
    ensures BackendsMatch(Step(s, e), h + [e])
  {
    var s' := Step(s, e);
    forall c | c in s'.open
      ensures InTxn(s', c) && s'.backends[s'.open[c].backend] == Backend(Some(c), LastSet(h + [e], c), None)
              && s'.open[c].sessionBefore == None
    {
      HistoryGrows(h, e, c);
      assert c != e.c ==> c in s.open && s.backends[s.open[c].backend].owner == Some(c);
    }
  }

  lemma {:induction false} LastSetInAllSet(h: seq<Event>, c: Client)
    ensures LastSet(h, c).Some? ==> LastSet(h, c).value in AllSet(h, c)
    decreases |h|
  {
    if h != [] {
      LastSetInAllSet(h[..|h| - 1], c);
    }
  }

  lemma WriteKeepsOverlay(s: State, h: seq<Event>, e: Event, c: Client, k: Key)
    requires BackendsMatch(s, h) && OverlaysMatch(s, h) && Enabled(s, e) && e.Write?
    requires Wrote(Step(s, e), c, k)
    ensures OverlayFits(Step(s, e), h + [e], c, k)
  {
    HistoryGrows(h, e, c);
    LastSetInAllSet(h, c);
    if Wrote(s, c, k) {
      assert OverlayFits(s, h, c, k);
    }
  }

  lemma EndKeepsOverlay(s: State, h: seq<Event>, e: Event, c: Client, k: Key)
    requires OverlaysMatch(s, h) && Enabled(s, e) && (e.Commit? || e.Rollback?)
    requires Wrote(Step(s, e), c, k)
    ensures OverlayFits(Step(s, e), h + [e], c, k)
  {
    HistoryGrows(h, e, c);
    assert Wrote(s, c, k) && OverlayFits(s, h, c, k);
    assert Wrote(s, e.c, k) ==> OverlayFits(s, h, e.c, k);
  }

  lemma OtherStepKeepsOverlay(s: State, h: seq<Event>, e: Event, c: Client, k: Key)
    requires OverlaysMatch(s, h) && Enabled(s, e) && (e.Begin? || e.SetConfig? || e.Read?)
    requires Wrote(Step(s, e), c, k)
    ensures OverlayFits(Step(s, e), h + [e], c, k)
  {
    HistoryGrows(h, e, c);
    assert Wrote(s, c, k) && OverlayFits(s, h, c, k);
  }

  lemma StepKeepsOverlays(s: State, h: seq<Event>, e: Event)
    requires BackendsMatch(s, h) && OverlaysMatch(s, h) && Enabled(s, e)
    ensures OverlaysMatch(Step(s, e), h + [e])
  {
    forall c, k | Wrote(Step(s, e), c, k) ensures OverlayFits(Step(s, e), h + [e], c, k) {
      if e.Write? {
        WriteKeepsOverlay(s, h, e, c, k);
      } else if e.Commit? || e.Rollback? {
        EndKeepsOverlay(s, h, e, c, k);
      } else {
        OtherStepKeepsOverlay(s, h, e, c, k);
      }
    }
  }

  lemma {:induction false} RunMatches(s0: State, h: seq<Event>)
    requires Fresh(s0) && Run(s0, h).Some? && OnlyLocal(h)
    ensures BackendsMatch(Run(s0, h).value, h) && OverlaysMatch(Run(s0, h).value, h)
    decreases |h|
  {
    if h != [] {
      var n := |h| - 1;
      RunMatches(s0, h[..n]);
      var s := Run(s0, h[..n]).value;
      StepKeepsBackends(s, h[..n], h[n]);
      StepKeepsOverlays(s, h[..n], h[n]);
      assert h[..n] + [h[n]] == h;
    }
  }

  // ---------- isolation ----------

  /** In every interleaving the scope in force is the one the client itself set last in its open
      transaction, and it is unset right after Begin whoever used the backend before. */
  lemma ScopeIsOwnLastSet(s0: State, h: seq<Event>, c: Client)
    requires Fresh(s0) && Run(s0, h).Some? && OnlyLocal(h) && c in Run(s0, h).value.open
    ensures var s := Run(s0, h).value;
            && InTxn(s, c) && ScopeOf(s, c) == LastSet(h, c)
            && (h[|h| - 1].Begin? && h[|h| - 1].c == c ==> ScopeOf(s, c) == None)
  {
    RunMatches(s0, h);
  }

  /** Every row a select returns, and every row a write puts in place or replaces, belongs to the
      org its client set last in the same transaction. */
  lemma AccessesStayInOwnScope(s0: State, h: seq<Event>, e: Event)
    requires Fresh(s0) && Run(s0, h).Some? && OnlyLocal(h) && Enabled(Run(s0, h).value, e)
    ensures var s := Run(s0, h).value;
            && (e.Read? ==> var r := Select(s, e.c, e.key); r.Some? ==> LastSet(h, e.c) == Some(r.value.org))
            && (e.Write? && Step(s, e) != s ==>
                  && LastSet(h, e.c) == Some(e.row.org)
                  && (var before := Latest(s, e.c, e.key); before.Some? ==> before.value.org == e.row.org))
  {
    RunMatches(s0, h);
  }

  lemma CommitKeepsOtherRow(s: State, h: seq<Event>, e: Event, org: OrgId, k: Key)
    requires OverlaysMatch(s, h) && Enabled(s, e) && e.Commit? && org !in AllSet(h, e.c)
    ensures var s' := Step(s, e);
            && (k in s.rows && s.rows[k].org == org ==> k in s'.rows && s'.rows[k] == s.rows[k])
            && (k in s'.rows && s'.rows[k].org == org ==> k in s.rows && s.rows[k] == s'.rows[k])
  {
    assert Wrote(s, e.c, k) ==> OverlayFits(s, h, e.c, k);
  }

  /** Committed rows of an org change only when a transaction commits that had itself set that org,
      and no row ever changes org. */
  lemma OtherOrgsUnchanged(s0: State, h: seq<Event>, e: Event, org: OrgId)
    requires Fresh(s0) && Run(s0, h).Some? && OnlyLocal(h) && Enabled(Run(s0, h).value, e)
    requires !(e.Commit? && org in AllSet(h, e.c))
    ensures var s, s' := Run(s0, h).value, Step(Run(s0, h).value, e);
            && (forall k :: k in s.rows && s.rows[k].org == org ==> k in s'.rows && s'.rows[k] == s.rows[k])
            && (forall k :: k in s'.rows && s'.rows[k].org == org ==> k in s.rows && s.rows[k] == s'.rows[k])
  {
    RunMatches(s0, h);
    var s := Run(s0, h).value;
    if e.Commit? {
      var s' := Step(s, e);
      forall k | k in s.rows && s.rows[k].org == org ensures k in s'.rows && s'.rows[k] == s.rows[k] {
        CommitKeepsOtherRow(s, h, e, org, k);
      }
      forall k | k in s'.rows && s'.rows[k].org == org ensures k in s.rows && s.rows[k] == s'.rows[k] {
        CommitKeepsOtherRow(s, h, e, org, k);
      }
    } else {
      assert Step(s, e).rows == s.rows;
    }
  }

  lemma RunSnoc(s0: State, h: seq<Event>, e: Event)
    requires Run(s0, h).Some? && Enabled(Run(s0, h).value, e)
    ensures Run(s0, h + [e]) == Some(Step(Run(s0, h).value, e))
  {
    assert (h + [e])[..|h + [e]| - 1] == h;
  }

  /** Why the setting must be transaction-local: with the session-level form, a client that has set
      nothing reads the previous client's tenant on the reused backend. */
  lemma SessionLevelSettingLeaks(key: Key, row: Row) returns (s0: State, h: seq<Event>, c: Client)
    ensures Fresh(s0) && Run(s0, h).Some? && InTxn(Run(s0, h).value, c)
    ensures LastSet(h, c) == None
    ensures Select(Run(s0, h).value, c, key) == Some(row)
  {
    s0, c := State(map[key := row], [Backend(None, None, None)], map[], map[]), 1;
    var h1 := [] + [Begin(0, 0)];
    var h2 := h1 + [SetConfig(0, row.org, false)];
    var h3 := h2 + [Commit(0)];
    h := h3 + [Begin(1, 0)];
    RunSnoc(s0, [], Begin(0, 0));
    RunSnoc(s0, h1, SetConfig(0, row.org, false));
    RunSnoc(s0, h2, Commit(0));
    RunSnoc(s0, h3, Begin(1, 0));
    HistoryGrows(h3, Begin(1, 0), 1);
  }

  // ---------- what a commit publishes ----------

  /** The row that `c` wrote last to `key` in its open transaction, among the writes the policy let through. */
  function LastWrite(s0: State, h: seq<Event>, c: Client, key: Key): Option<Row>
    decreases |h|
  {
    if h == [] then None
    else
      var before, e := h[..|h| - 1], h[|h| - 1];
      if e.Begin? && e.c == c then None
      else if e.Write? && e.c == c && e.key == key && Allowed(s0, before, e) then Some(e.row)
      else LastWrite(s0, before, c, key)
  }

  predicate Allowed(s0: State, h: seq<Event>, e: Event) {
    e.Write? && Run(s0, h).Some? && InTxn(Run(s0, h).value, e.c) && WriteAllowed(Run(s0, h).value, e.c, e.key, e.row)
  }

  function Overlay(s: State, c: Client, key: Key): Option<Row> {
    if c in s.open && key in s.open[c].overlay then Some(s.open[c].overlay[key]) else None
  }

  lemma StepOverlay(s: State, e: Event, c: Client, key: Key)
    requires Enabled(s, e) && c in Step(s, e).open
    ensures Overlay(Step(s, e), c, key) ==
            if e.Begin? && e.c == c then None
            else if e.Write? && e.c == c && e.key == key && WriteAllowed(s, c, key, e.row) then Some(e.row)
            else Overlay(s, c, key)
  {
  }

  /** An open transaction's own rows are its last allowed writes. */
  lemma {:induction false} OverlayIsLastWrites(s0: State, h: seq<Event>, c: Client, key: Key)
    requires Fresh(s0) && Run(s0, h).Some? && c in Run(s0, h).value.open
    ensures Overlay(Run(s0, h).value, c, key) == LastWrite(s0, h, c, key)
    decreases |h|
  {
    if h != [] {
      var before, e := h[..|h| - 1], h[|h| - 1];
      var s := Run(s0, before).value;
      StepOverlay(s, e, c, key);
      if c in s.open {
        OverlayIsLastWrites(s0, before, c, key);
      }
    }
  }

  /** A commit publishes, for each key, the transaction's last allowed write and nothing else; a rollback
      publishes nothing; and no other event changes a committed row. */
  lemma CommitPublishesExactly(s0: State, h: seq<Event>, e: Event, key: Key)
    requires Fresh(s0) && Run(s0, h).Some? && Enabled(Run(s0, h).value, e)
    ensures var s, s' := Run(s0, h).value, Step(Run(s0, h).value, e);
            var before, after := (if key in s.rows then Some(s.rows[key]) else None), (if key in s'.rows then Some(s'.rows[key]) else None);
            after == if e.Commit? && LastWrite(s0, h, e.c, key).Some? then LastWrite(s0, h, e.c, key) else before
  {
    if e.Commit? {
      OverlayIsLastWrites(s0, h, e.c, key);
    }
  }

  /** A select by key returns the newest row exactly when that row is of the org the client set last; a write takes
      exactly when its row is of that org and the key is free or holds a row of it, and is then what the client reads. */
  lemma AccessesTakeExactly(s0: State, h: seq<Event>, e: Event)
    requires Fresh(s0) && Run(s0, h).Some? && OnlyLocal(h) && Enabled(Run(s0, h).value, e)
    ensures var s := Run(s0, h).value;
            && (e.Read? ==> var newest := Latest(s, e.c, e.key);
                  Select(s, e.c, e.key) == if newest.Some? && LastSet(h, e.c) == Some(newest.value.org) then newest else None)
            && (e.Write? ==> var newest := Latest(s, e.c, e.key);
                  var takes := LastSet(h, e.c) == Some(e.row.org) && (newest.Some? ==> newest.value.org == e.row.org);
                  && (takes ==> InTxn(Step(s, e), e.c) && Select(Step(s, e), e.c, e.key) == Some(e.row))
                  && (!takes ==> Step(s, e) == s))
  {
    RunMatches(s0, h);
  }

  // A transaction of `c` on the first backend, with nothing else open.
  function Alone(s0: State, c: Client, local: Scope, overlay: map<Key, Row>, locks: map<Key, Client>): State
    requires |s0.backends| > 0
  {
    State(s0.rows, s0.backends[0 := Backend(Some(c), local, None)], map[c := Txn(0, overlay, None)], locks)
  }

  lemma AloneBegins(s0: State, c: Client, org: OrgId)
    requires Fresh(s0) && |s0.backends| > 0 && s0.locks == map[]
    ensures Enabled(s0, Begin(c, 0)) && Step(s0, Begin(c, 0)) == Alone(s0, c, None, map[], map[])
    ensures var s := Alone(s0, c, None, map[], map[]);
            Enabled(s, SetConfig(c, org, true)) && Step(s, SetConfig(c, org, true)) == Alone(s0, c, Some(org), map[], map[])
  {
  }

  lemma AloneWrites(s0: State, c: Client, key: Key, row: Row)
    requires Fresh(s0) && |s0.backends| > 0 && key !in s0.rows
    ensures var s := Alone(s0, c, Some(row.org), map[], map[]);
            Enabled(s, Write(c, key, row)) && Step(s, Write(c, key, row)) == Alone(s0, c, Some(row.org), map[key := row], map[key := c])
  {
  }

  lemma AloneCommits(s0: State, c: Client, key: Key, row: Row)
    requires Fresh(s0) && |s0.backends| > 0 && key !in s0.rows
    ensures var s := Alone(s0, c, Some(row.org), map[key := row], map[key := c]);
            && Enabled(s, Commit(c)) && Step(s, Commit(c)).rows == s0.rows[key := row]
            && Step(s, Commit(c)).backends == s0.backends && Step(s, Commit(c)).locks == map[]
  {
    var s := Step(Alone(s0, c, Some(row.org), map[key := row], map[key := c]), Commit(c));
    assert s.backends[0] == s0.backends[0];
  }

  /** A client that sets its org, writes and commits has its row committed, from any fresh state where the key is
      free and a backend exists. */
  lemma CommittedWriteIsKept(s0: State, c: Client, key: Key, row: Row)
    requires Fresh(s0) && |s0.backends| > 0 && key !in s0.rows && s0.locks == map[]
    ensures var r := Run(s0, [] + [Begin(c, 0)] + [SetConfig(c, row.org, true)] + [Write(c, key, row)] + [Commit(c)]);
            r.Some? && r.value.rows == s0.rows[key := row] && r.value.backends == s0.backends && r.value.locks == map[]
  {
    var h1 := [] + [Begin(c, 0)];
    var h2 := h1 + [SetConfig(c, row.org, true)];
    var h3 := h2 + [Write(c, key, row)];
    AloneBegins(s0, c, row.org);
    AloneWrites(s0, c, key, row);
    AloneCommits(s0, c, key, row);
    RunSnoc(s0, [], Begin(c, 0));
    RunSnoc(s0, h1, SetConfig(c, row.org, true));
    RunSnoc(s0, h2, Write(c, key, row));
    RunSnoc(s0, h3, Commit(c));
  }
}
