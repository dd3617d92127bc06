/** Why the session may queue writes at all. With autoflush off, assignments to mapped objects
    and added audit rows wait for the next flush and meet whatever `app.org_id` holds then,
    while Core statements run at once. A program that never re-scopes over a non-empty queue
    leaves exactly the tables of a session that writes immediately. */
module DeferredWrites {
  import opened Prelude
  import opened Tenancy

  datatype Op =
    | Rescope(org: OrgId)
    | Core(stmt: AdminStmt)
    | Queue(write: Pending)
    | Flush

  /** The session as the application configures it; the end of the program is the commit's flush. */
  function RunDeferred(t: Tables, scope: Scope, queued: seq<Pending>, ops: seq<Op>): Option<Tables>
    decreases ops
  {
    if ops == [] then EmitAll(t, scope, queued)
    else
      match ops[0]
      case Rescope(o) => RunDeferred(t, Some(o), queued, ops[1..])
      case Core(s) =>
        (match Exec(t, scope, s)
         case None => None
         case Some(t') => RunDeferred(t', scope, queued, ops[1..]))
      case Queue(p) => RunDeferred(t, scope, queued + [p], ops[1..])
      case Flush =>
        (match EmitAll(t, scope, queued)
         case None => None
         case Some(t') => RunDeferred(t', scope, [], ops[1..]))
  }

  /** The reference: every write happens where it is written down. */
  function RunImmediate(t: Tables, scope: Scope, ops: seq<Op>): Option<Tables>
    decreases ops
  {
    if ops == [] then Some(t)
    else
      match ops[0]
      case Rescope(o) => RunImmediate(t, Some(o), ops[1..])
      case Core(s) =>
        (match Exec(t, scope, s)
         case None => None
         case Some(t') => RunImmediate(t', scope, ops[1..]))
      case Queue(p) =>
        (match Emit(t, scope, p)
         case None => None
         case Some(t') => RunImmediate(t', scope, ops[1..]))
      case Flush => RunImmediate(t, scope, ops[1..])
  }

  /** No re-scoping to a different org while a write is queued (`dirty`). */
  predicate Disciplined(scope: Scope, dirty: bool, ops: seq<Op>)
    decreases ops
  {
    ops == [] ||
    match ops[0]
    case Rescope(o) => (dirty ==> scope == Some(o)) && Disciplined(Some(o), dirty, ops[1..])
    case Core(_) => Disciplined(scope, dirty, ops[1..])
    case Queue(_) => Disciplined(scope, true, ops[1..])
    case Flush => Disciplined(scope, false, ops[1..])
  }

  lemma CoreCommutesWithEmit(t: Tables, scope: Scope, s: AdminStmt, p: Pending)
    ensures (match Exec(t, scope, s) case None => None case Some(a) => Emit(a, scope, p)) ==
            (match Emit(t, scope, p) case None => None case Some(b) => Exec(b, scope, s))
  {
  }

  lemma {:induction false} CoreCommutesWithQueue(t: Tables, scope: Scope, s: AdminStmt, ps: seq<Pending>)
    ensures (match Exec(t, scope, s) case None => None case Some(a) => EmitAll(a, scope, ps)) ==
            (match EmitAll(t, scope, ps) case None => None case Some(b) => Exec(b, scope, s))
    decreases ps
  {
    if ps != [] {
      CoreCommutesWithEmit(t, scope, s, ps[0]);
      match Emit(t, scope, ps[0])
      case None =>
      case Some(b) => CoreCommutesWithQueue(b, scope, s, ps[1..]);
    }
  }

  /** The queue can be emitted first: deferral changes neither the result nor whether it aborts. */
  lemma {:induction false} DeferralIsImmediate(t: Tables, scope: Scope, queued: seq<Pending>, ops: seq<Op>)
    requires Disciplined(scope, queued != [], ops)
    ensures RunDeferred(t, scope, queued, ops) ==
            match EmitAll(t, scope, queued) case None => None case Some(t') => RunImmediate(t', scope, ops)
    decreases ops
  {
    if ops != [] {
      var rest := ops[1..];
      match ops[0]
      case Rescope(o) =>
        DeferralIsImmediate(t, Some(o), queued, rest);
      case Core(s) =>
        CoreCommutesWithQueue(t, scope, s, queued);
        match Exec(t, scope, s) {
          case None =>
          case Some(a) => DeferralIsImmediate(a, scope, queued, rest);
        }
      case Queue(p) =>
        EmitAllConcat(t, scope, queued, [p]);
        DeferralIsImmediate(t, scope, queued + [p], rest);
      case Flush =>
        match EmitAll(t, scope, queued) {
          case None =>
          case Some(b) => DeferralIsImmediate(b, scope, [], rest);
        }
    }
  }

  /** A program that never re-points the scope is disciplined, whatever it queues: the own-org handlers, and
      every job that sets its scope once. */
  lemma {:induction false} OneScopeIsDisciplined(scope: Scope, dirty: bool, ops: seq<Op>)
    requires forall i :: 0 <= i < |ops| ==> !ops[i].Rescope?
    ensures Disciplined(scope, dirty, ops)
    decreases ops
  {
    if ops != [] {
      OneScopeIsDisciplined(scope, if ops[0].Queue? then true else if ops[0].Flush? then false else dirty, ops[1..]);
    }
  }

  /** The discipline is needed: a user update that changes its row and is still queued when the session moves to
      another org aborts the whole transaction, for every table contents and whatever follows
      up to the next flush. */
  lemma {:induction false} UnflushedUpdateAborts(t: Tables, target: OrgId, home: OrgId, user: UserId, role: string, audit: AuditRow)
    requires target != home && SelectUser(t, Some(target), user).Some? && NetChange(t.users, SetRole(user, role))
    ensures RunImmediate(t, Some(target), [Queue(SetRole(user, role)), Rescope(home)]).Some?
    ensures RunDeferred(t, Some(target), [], [Queue(SetRole(user, role)), Rescope(home), Queue(AddAudit(audit))]).None?
  {
    var a, b, c := Queue(SetRole(user, role)), Rescope(home), Queue(AddAudit(audit));
    assert [a, b, c][1..] == [b, c] && [b, c][1..] == [c] && [c][1..] == [];
    assert [a, b][1..] == [b] && [b][1..] == [];
    var q := [SetRole(user, role)];
    assert [] + q == q;
    assert RunDeferred(t, Some(target), q, [b, c]) == RunDeferred(t, Some(home), q, [c]);
    assert RunDeferred(t, Some(home), q, [c]) == EmitAll(t, Some(home), q + [AddAudit(audit)]);
    var t' := Emit(t, Some(target), SetRole(user, role)).value;
    assert RunImmediate(t', Some(target), [b]) == RunImmediate(t', Some(home), []);
  }
}
