/** The upload endpoints and the ingest job as they execute, each proved against the steps of the
    interleaved protocol. */
module IngestJob {
  import opened Prelude
  import opened Ingest

  datatype Reply = Done | NotFound | Conflict | Raised

  /** The committed tables the uploads share, and the job queue. */
  class Store {
    var rows: map<UploadId, Row>
    var log: seq<Entry>
    var uploads: seq<Completion>
    var queue: set<Job>

    /** The store as a protocol state with nothing in flight. */
    ghost function Quiet(): State
      reads this
    {
      State(rows, map[], queue, map[], map[], log, uploads, true)
    }
  }

  /** The presign-time verdict on the deal's rows; no write. */
  method CreatePresignedUrl(db: Store, org: OrgKey, deal: nat, declared: Hash) returns (reply: Reply)
    ensures reply == Conflict <==>
            exists id :: id in db.rows && db.rows[id].org == org && db.rows[id].deal == deal && db.rows[id].status != Mismatch
                         && (db.rows[id].declared == declared || db.rows[id].fingerprint == Some(declared))
    ensures reply == Conflict || reply == Done
  {
    var hits := set id | id in db.rows && db.rows[id].org == org && db.rows[id].deal == deal && db.rows[id].status != Mismatch
                         && (db.rows[id].declared == declared || db.rows[id].fingerprint == Some(declared));
    if hits != {} {
      var id :| id in hits;
      assert id in db.rows;
      return Conflict;
    }
    assert forall id :: id in db.rows ==> id !in hits;
    reply := Done;
  }

  /** Confirms the object, adds the row to the session, enqueues the job at once, and only then
      commits: a second completion of the same id fails on the primary key, its job stays queued. */
  method CompleteUpload(db: Store, objectExists: bool, id: UploadId, org: OrgKey, deal: nat, storageKey: ObjectKey, declared: Hash)
    returns (reply: Reply)
    modifies db
    ensures !objectExists ==> reply == NotFound && db.Quiet() == old(db.Quiet())
    ensures objectExists ==>
              && db.Quiet() == Run(old(db.Quiet()), [Complete(0, id, org, deal, storageKey, declared), CompleteCommit(0)])
              && Job(id, org, storageKey, declared) in db.queue
              && (reply == Raised <==> id in old(db.rows))
              && (id !in old(db.rows) ==>
                    && db.rows == old(db.rows)[id := Row(org, deal, storageKey, declared, Pending, None)]
                    && db.uploads == old(db.uploads) + [Completion(id, org, deal, storageKey)])
  {
    if !objectExists {
      return NotFound;
    }
    ghost var s := db.Quiet();
    var added := Row(org, deal, storageKey, declared, Pending, None);
    db.queue := db.queue + {Job(id, org, storageKey, declared)};
    if id in db.rows {
      reply := Raised;
    } else {
      db.rows := db.rows[id := added];
      db.uploads := db.uploads + [Completion(id, org, deal, storageKey)];
      reply := Done;
    }
    ghost var e := [Complete(0, id, org, deal, storageKey, declared), CompleteCommit(0)];
    assert e[0..] == e && e[2..] == [];
    RunTail(s, e, 0);
    RunTail(Step(s, e[0]), e, 1);
    assert Step(Step(s, e[0]), e[1]).inserts == map[];
  }

  /** `update ... where id = ... returning`, with the one-way trigger. */
  method UpdateStatus(rows: map<UploadId, Row>, job: Job, status: Status, fingerprint: Option<Hash>)
    returns (work: map<UploadId, Row>, raised: bool)
    ensures raised <==> job.id in rows && rows[job.id].org == job.org && rows[job.id].status != Pending
    ensures work == if job.id in rows && rows[job.id].org == job.org && !raised
                    then rows[job.id := rows[job.id].(status := status, fingerprint := fingerprint)] else rows
  {
    work, raised := rows, false;
    if job.id in rows && rows[job.id].org == job.org {
      if rows[job.id].status != Pending {
        return rows, true;
      }
      work := rows[job.id := rows[job.id].(status := status, fingerprint := fingerprint)];
    }
  }

  /** One delivery, run to its end with nothing else in flight. `body` is what hashing the stored
      object comes back with. */
  method IngestDataSource(db: Store, job: Job, body: Outcome) returns (reply: Reply)
    requires job in db.queue
    modifies db`rows, db`log
    ensures reply == Raised <==> !Visible(old(db.Quiet()), job)
    ensures db.Quiet() == Run(old(db.Quiet()), [Deliver(0, job), Check(0), HashObject(0, body), Update(0), WorkerCommit(0)])
  {
    ghost var s := db.Quiet();
    ghost var e := [Deliver(0, job), Check(0), HashObject(0, body), Update(0), WorkerCommit(0)];
    assert e[0..] == e && e[5..] == [];
    ghost var s1 := Step(s, e[0]);
    ghost var s2 := Step(s1, e[1]);
    ghost var s3 := Step(s2, e[2]);
    ghost var s4 := Step(s3, e[3]);
    RunTail(s, e, 0);
    RunTail(s1, e, 1);
    RunTail(s2, e, 2);
    RunTail(s3, e, 3);
    RunTail(s4, e, 4);
    if job.id !in db.rows || db.rows[job.id].org != job.org {
      NothingInFlight(s, job, body);
      return Raised;
    }
    var row := db.rows[job.id];
    if row.status != Pending {
      NothingInFlight(s, job, body);
      return Done;
    }
    var status, fingerprint := Quarantined, None;
    match body {
      case TooLarge =>
      case Digest(h) =>
        fingerprint := Some(h);
        status := if h == job.declared then Verified else Mismatch;
    }
    var work, raised := UpdateStatus(db.rows, job, status, fingerprint);
    var audit := Entry(job.id, row.org, row.deal, status, fingerprint);
    PendingDelivery(s, job, body);
    db.rows := work;
    db.log := db.log + [audit];
    reply := Done;
  }
}
