/** The database session of one request: an open transaction's working tables, the
    transaction-scoped `app.org_id`, and the unit-of-work queue. */
module OrmSession {
  import opened Prelude
  import opened Tenancy

  /** The committed tables. */
  class Db {
    var tables: Tables

    constructor (t: Tables)
      ensures tables == t
    {
      tables := t;
    }
  }

  class Session {
    const db: Db
    var work: Tables
    var scope: Scope
    var queued: seq<Pending>

    constructor (db: Db)
      ensures this.db == db && work == db.tables && scope == None && queued == []
    {
      this.db := db;
      work := db.tables;
      scope := None;
      queued := [];
    }

    /** A new transaction: the setting made by SET LOCAL in the previous one is gone. */
    method Begin()
      modifies this
      ensures work == db.tables && scope == None && queued == []
    {
      work, scope, queued := db.tables, None, [];
    }

    /** `select set_config('app.org_id', org, true)`; queued writes are not flushed by it. */
    method SetScope(org: OrgId)
      modifies this`scope
      ensures scope == Some(org)
    {
      scope := Some(org);
    }

    method Enqueue(p: Pending)
      modifies this`queued
      ensures queued == old(queued) + [p]
    {
      queued := queued + [p];
    }

    /** Assigns attributes of a loaded user row. */
    method Assign(p: Pending)
      modifies this`queued
      ensures queued == if NetChange(work.users, p) then old(queued) + [p] else old(queued)
    {
      if NetChange(work.users, p) {
        queued := queued + [p];
      }
    }

    /** A Core statement: runs at once, never waits for the queue. */
    method Execute(s: AdminStmt) returns (ok: bool)
      modifies this`work
      ensures ok <==> Exec(old(work), scope, s).Some?
      ensures ok ==> work == Exec(old(work), scope, s).value
      ensures !ok ==> work == old(work)
    {
      var r := Exec(work, scope, s);
      ok := r.Some?;
      if ok {
        work := r.value;
      }
    }

    /** Emits the queue in order, one row at a time. */
    method Flush() returns (ok: bool)
      modifies this`work, this`queued
      ensures ok <==> EmitAll(old(work), scope, old(queued)).Some?
      ensures ok ==> work == EmitAll(old(work), scope, old(queued)).value && queued == []
    {
      var i := 0;
      while i < |queued|
        modifies this`work
        invariant 0 <= i <= |queued|
        invariant queued == old(queued)
        invariant EmitAll(old(work), scope, old(queued)) == EmitAll(work, scope, queued[i..])
      {
        var r := Emit(work, scope, queued[i]);
        if r.None? {
          return false;
        }
        assert queued[i..][1..] == queued[i + 1..];
        work := r.value;
        i := i + 1;
      }
      queued := [];
      ok := true;
    }

    /** The end of `session.begin()` without an exception; a failing flush rolls back. */
    method Commit() returns (ok: bool)
      modifies this`work, this`queued, this`scope, db
      ensures ok <==> EmitAll(old(work), old(scope), old(queued)).Some?
      ensures db.tables == if ok then EmitAll(old(work), old(scope), old(queued)).value else old(db.tables)
      ensures scope == None
    {
      ok := Flush();
      if ok {
        db.tables := work;
      }
      scope := None;
    }

    /** The end of `session.begin()` with an exception: committed tables are as before. */
    method Rollback()
      modifies this
      ensures work == db.tables && scope == None && queued == []
    {
      work, scope, queued := db.tables, None, [];
    }
  }
}
