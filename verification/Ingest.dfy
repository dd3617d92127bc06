/** The upload-to-ingest protocol: a completion enqueues its job before its row commits, the queue
    delivers jobs at least once and to any number of workers, workers crash at any point, and a
    one-way trigger under row locks arbitrates. */
module Ingest {
  import opened Prelude

  datatype Hash = Sha256(hex: string)
  datatype ObjectKey = ObjectKey(path: string)
  type UploadId = nat
  type WorkerId = nat
  type OrgKey = nat

  datatype Status = Pending | Verified | Mismatch | Quarantined

  // A data_source row; `declared` and the columns before it are append-only.
  datatype Row = Row(org: OrgKey, deal: nat, storageKey: ObjectKey, declared: Hash, status: Status, fingerprint: Option<Hash>)

  datatype Job = Job(id: UploadId, org: OrgKey, storageKey: ObjectKey, declared: Hash)

  // document_upload_ingest_completed.
  datatype Entry = Entry(id: UploadId, org: OrgKey, deal: nat, status: Status, fingerprint: Option<Hash>)

  // document_upload_completed.
  datatype Completion = Completion(id: UploadId, org: OrgKey, deal: nat, storageKey: ObjectKey)

  // What stream_and_hash comes back with.
  datatype Outcome = TooLarge | Digest(hash: Hash)

  // A delivery of a job to a worker: just begun, past the idempotency check, past the hash, or
  // holding the row lock with its update and its audit row uncommitted.
  datatype Phase =
    | Begun
    | Checked(org: OrgKey, deal: nat)
    | Hashed(org: OrgKey, deal: nat, status: Status, fingerprint: Option<Hash>)
    | Updated(org: OrgKey, deal: nat, status: Status, fingerprint: Option<Hash>)

  datatype Delivery = Delivery(job: Job, phase: Phase)

  // `rows` and the two logs are committed; `inserts` are the completions in flight; `lockedBy` holds the
  // row locks; `trigger` says whether the one-way status trigger is installed.
  datatype State = State(rows: map<UploadId, Row>, inserts: map<nat, (UploadId, Row)>, queue: set<Job>,
                         workers: map<WorkerId, Delivery>, lockedBy: map<UploadId, WorkerId>, log: seq<Entry>, uploads: seq<Completion>,
                         trigger: bool)

  datatype Event =
    | Complete(req: nat, id: UploadId, org: OrgKey, deal: nat, storageKey: ObjectKey, declared: Hash)
    | CompleteCommit(req: nat)
    | CompleteAbort(req: nat)
    | Deliver(w: WorkerId, job: Job)
    | Check(w: WorkerId)
    | HashObject(w: WorkerId, outcome: Outcome)
    | Update(w: WorkerId)
    | WorkerCommit(w: WorkerId)
    | Crash(w: WorkerId)

  function VerdictOf(declared: Hash, o: Outcome): (Status, Option<Hash>) {
    match o
    case TooLarge => (Quarantined, None)
    case Digest(h) => (if h == declared then Verified else Mismatch, Some(h))
  }

  function Drop(s: State, w: WorkerId): State {
    s.(workers := s.workers - {w}, lockedBy := map id | id in s.lockedBy && s.lockedBy[id] != w :: s.lockedBy[id])
  }

  predicate Visible(s: State, job: Job) {
    job.id in s.rows && s.rows[job.id].org == job.org
  }

  function CompletionOf(id: UploadId, row: Row): Completion {
    Completion(id, row.org, row.deal, row.storageKey)
  }

  /** One step; an event that is not possible where it stands changes nothing (an update that meets
      another worker's row lock waits). */
  function Step(s: State, e: Event): State {
    match e
    case Complete(req, id, org, deal, key, declared) =>
      if req in s.inserts then s
      else s.(inserts := s.inserts[req := (id, Row(org, deal, key, declared, Pending, None))],
              queue := s.queue + {Job(id, org, key, declared)})
    case CompleteCommit(req) =>
      if req !in s.inserts then s
      else
        var (id, row) := s.inserts[req];
        if id in s.rows then s.(inserts := s.inserts - {req})
        else s.(inserts := s.inserts - {req}, rows := s.rows[id := row], uploads := s.uploads + [CompletionOf(id, row)])
    case CompleteAbort(req) => s.(inserts := s.inserts - {req})
    case Deliver(w, job) =>
      if job in s.queue && w !in s.workers then s.(workers := s.workers[w := Delivery(job, Begun)]) else s
    case Check(w) =>
      if !(w in s.workers && s.workers[w].phase.Begun?) then s
      else
        var job := s.workers[w].job;
        if !Visible(s, job) || s.rows[job.id].status != Pending then Drop(s, w)
        else s.(workers := s.workers[w := Delivery(job, Checked(s.rows[job.id].org, s.rows[job.id].deal))])
    case HashObject(w, o) =>
      if !(w in s.workers && s.workers[w].phase.Checked?) then s
      else
        var d := s.workers[w];
        var v := VerdictOf(d.job.declared, o);
        s.(workers := s.workers[w := Delivery(d.job, Hashed(d.phase.org, d.phase.deal, v.0, v.1))])
    case Update(w) =>
      if !(w in s.workers && s.workers[w].phase.Hashed?) then s
      else
        var d := s.workers[w];
        if d.job.id in s.lockedBy then s
        else if !Visible(s, d.job) then Drop(s, w)
        else if s.trigger && s.rows[d.job.id].status != Pending then Drop(s, w)
        else s.(workers := s.workers[w := Delivery(d.job, Updated(d.phase.org, d.phase.deal, d.phase.status, d.phase.fingerprint))],
                lockedBy := s.lockedBy[d.job.id := w])
    case WorkerCommit(w) =>
      if !(w in s.workers && s.workers[w].phase.Updated? && s.workers[w].job.id in s.rows) then s
      else
        var d := s.workers[w];
        Drop(s, w).(rows := s.rows[d.job.id := s.rows[d.job.id].(status := d.phase.status, fingerprint := d.phase.fingerprint)],
                    log := s.log + [Entry(d.job.id, d.phase.org, d.phase.deal, d.phase.status, d.phase.fingerprint)])
    case Crash(w) => Drop(s, w)
  }

  function Run(s: State, events: seq<Event>): State
    decreases events
  {
    if events == [] then s else Run(Step(s, events[0]), events[1..])
  }

  predicate Initial(s: State) {
    s == State(map[], map[], {}, map[], map[], [], [], s.trigger)
  }

  // ---------- exactly once ----------

  function CountEntries(log: seq<Entry>, id: UploadId): nat {
    if log == [] then 0 else CountEntries(log[..|log| - 1], id) + (if log[|log| - 1].id == id then 1 else 0)
  }

  predicate Terminal(s: State, id: UploadId) {
    id in s.rows && s.rows[id].status != Pending
  }

  function EntryFor(id: UploadId, row: Row): Entry {
    Entry(id, row.org, row.deal, row.status, row.fingerprint)
  }

  /** A worker past its check knows the row's own org and deal; one past its hash has a terminal
      verdict; one past its update holds the row's lock. */
  predicate WorkerOk(s: State, w: WorkerId)
    requires w in s.workers
  {
    var d := s.workers[w];
    d.phase.Begun? ||
    (&& d.job.id in s.rows
     && d.phase.org == s.rows[d.job.id].org && d.phase.deal == s.rows[d.job.id].deal && d.job.org == s.rows[d.job.id].org
     && (d.phase.Hashed? || d.phase.Updated? ==> d.phase.status != Pending)
     && (d.phase.Updated? ==> d.job.id in s.lockedBy && s.lockedBy[d.job.id] == w))
  }

  /** A locked row is still pending, and its holder is past its update. */
  predicate LockOk(s: State, id: UploadId)
    requires id in s.lockedBy
  {
    var w := s.lockedBy[id];
    && w in s.workers && s.workers[w].phase.Updated? && s.workers[w].job.id == id
    && id in s.rows && s.rows[id].status == Pending
  }

  ghost predicate WorkersOk(s: State) {
    && (forall w :: w in s.workers ==> WorkerOk(s, w))
    && (forall id :: id in s.lockedBy ==> LockOk(s, id))
  }

  ghost predicate OncePerRow(s: State) {
    && (forall id :: id in s.rows && s.rows[id].status == Pending ==> s.rows[id].fingerprint == None)
    && (forall id :: CountEntries(s.log, id) == if Terminal(s, id) then 1 else 0)
    && (forall e :: e in s.log ==> e.id in s.rows && e == EntryFor(e.id, s.rows[e.id]))
  }

  ghost predicate InsertsOk(s: State) {
    forall r :: r in s.inserts ==> s.inserts[r].1.status == Pending && s.inserts[r].1.fingerprint == None
  }

  ghost predicate Inv(s: State) {
    s.trigger && WorkersOk(s) && OncePerRow(s) && InsertsOk(s)
  }

  lemma AppendCounts(log: seq<Entry>, e: Entry, id: UploadId)
    ensures CountEntries(log + [e], id) == CountEntries(log, id) + (if e.id == id then 1 else 0)
  {
    assert (log + [e])[..|log + [e]| - 1] == log;
  }

  /** The worker an event is a step of. */
  function Actor(e: Event): Option<WorkerId> {
    match e
    case Complete(_, _, _, _, _, _) => None
    case CompleteCommit(_) => None
    case CompleteAbort(_) => None
    case Deliver(w, _) => Some(w)
    case Check(w) => Some(w)
    case HashObject(w, _) => Some(w)
    case Update(w) => Some(w)
    case WorkerCommit(w) => Some(w)
    case Crash(w) => Some(w)
  }

  lemma ActorStaysOk(s: State, e: Event, w: WorkerId)
    requires WorkersOk(s) && w in Step(s, e).workers && Actor(e) == Some(w)
    ensures WorkerOk(Step(s, e), w)
  {
    if w in s.workers {
      assert WorkerOk(s, w);
    }
  }

  lemma OtherWorkerKeepsSlot(s: State, e: Event, w: WorkerId)
    requires w in Step(s, e).workers && Actor(e) != Some(w)
    ensures w in s.workers && Step(s, e).workers[w] == s.workers[w]
  {
  }

  lemma OtherWorkerKeepsLocks(s: State, e: Event, w: WorkerId)
    requires Actor(e) != Some(w)
    ensures forall id :: id in s.lockedBy && s.lockedBy[id] == w ==> id in Step(s, e).lockedBy && Step(s, e).lockedBy[id] == w
  {
  }

  lemma RowsKeepIdentity(s: State, e: Event)
    ensures var s' := Step(s, e);
            forall id :: id in s.rows ==> id in s'.rows && s'.rows[id] == s.rows[id].(status := s'.rows[id].status, fingerprint := s'.rows[id].fingerprint)
  {
  }

  lemma OtherWorkerStaysOk(s: State, e: Event, w: WorkerId)
    requires WorkersOk(s) && w in Step(s, e).workers && Actor(e) != Some(w)
    ensures WorkerOk(Step(s, e), w)
  {
    OtherWorkerKeepsSlot(s, e, w);
    OtherWorkerKeepsLocks(s, e, w);
    RowsKeepIdentity(s, e);
    assert WorkerOk(s, w);
  }

  lemma StepKeepsWorker(s: State, e: Event, w: WorkerId)
    requires WorkersOk(s) && w in Step(s, e).workers
    ensures WorkerOk(Step(s, e), w)
  {
    if Actor(e) == Some(w) {
      ActorStaysOk(s, e, w);
    } else {
      OtherWorkerStaysOk(s, e, w);
    }
  }

  lemma StepKeepsLock(s: State, e: Event, id: UploadId)
    requires s.trigger && WorkersOk(s) && id in Step(s, e).lockedBy
    ensures LockOk(Step(s, e), id)
  {
    if id in s.lockedBy {
      assert LockOk(s, id);
    }
    if e.WorkerCommit? && e.w in s.workers {
      assert WorkerOk(s, e.w);
    }
  }

  lemma StepKeepsWorkers(s: State, e: Event)
    requires s.trigger && WorkersOk(s)
    ensures WorkersOk(Step(s, e))
  {
    forall w | w in Step(s, e).workers ensures WorkerOk(Step(s, e), w) {
      StepKeepsWorker(s, e, w);
    }
    forall id | id in Step(s, e).lockedBy ensures LockOk(Step(s, e), id) {
      StepKeepsLock(s, e, id);
    }
  }

  /** Only a worker's commit touches the log or an existing row. */
  lemma OtherEventsKeepRows(s: State, e: Event)
    requires !e.WorkerCommit? || Step(s, e) == s
    ensures var s' := Step(s, e);
            && s'.log == s.log && s'.trigger == s.trigger
            && (forall id :: id in s.rows ==> id in s'.rows && s'.rows[id] == s.rows[id])
            && (forall id :: id in s'.rows && id !in s.rows ==>
                  e.CompleteCommit? && e.req in s.inserts && s'.rows[id] == s.inserts[e.req].1)
  {
  }

  lemma CommitKeepsOnce(s: State, w: WorkerId)
    requires Inv(s) && Step(s, WorkerCommit(w)) != s
    ensures OncePerRow(Step(s, WorkerCommit(w)))
  {
    var s' := Step(s, WorkerCommit(w));
    assert WorkerOk(s, w);
    var d := s.workers[w];
    assert LockOk(s, d.job.id);
    var entry := Entry(d.job.id, d.phase.org, d.phase.deal, d.phase.status, d.phase.fingerprint);
    assert s'.log == s.log + [entry];
    forall id ensures CountEntries(s'.log, id) == if Terminal(s', id) then 1 else 0 {
      AppendCounts(s.log, entry, id);
    }
    NoEntryYet(s, d.job.id);
  }

  lemma StepKeepsOnce(s: State, e: Event)
    requires Inv(s)
    ensures OncePerRow(Step(s, e)) && InsertsOk(Step(s, e)) && Step(s, e).trigger
  {
    if e.WorkerCommit? && Step(s, e) != s {
      CommitKeepsOnce(s, e.w);
    } else {
      OtherEventsKeepRows(s, e);
      forall id ensures CountEntries(Step(s, e).log, id) == if Terminal(Step(s, e), id) then 1 else 0 {
      }
    }
  }

  lemma {:induction false} CountsMembers(log: seq<Entry>, e: Entry)
    requires e in log
    ensures CountEntries(log, e.id) > 0
  {
    if log[|log| - 1] != e {
      CountsMembers(log[..|log| - 1], e);
    }
  }

  lemma NoEntryYet(s: State, id: UploadId)
    requires OncePerRow(s) && id in s.rows && s.rows[id].status == Pending
    ensures forall e :: e in s.log ==> e.id != id
  {
    forall e | e in s.log ensures e.id != id {
      CountsMembers(s.log, e);
    }
  }

  lemma StepKeepsInv(s: State, e: Event)
    requires Inv(s)
    ensures Inv(Step(s, e))
  {
    StepKeepsWorkers(s, e);
    StepKeepsOnce(s, e);
  }

  lemma {:induction false} RunKeepsInv(s: State, events: seq<Event>)
    requires Inv(s)
    ensures Inv(Run(s, events))
    decreases events
  {
    if events != [] {
      StepKeepsInv(s, events[0]);
      RunKeepsInv(Step(s, events[0]), events[1..]);
    }
  }

  /** Exactly-once ingest: after any interleaving of deliveries, crashes and completions, a row has one
      committed audit entry if it is terminal and none otherwise, and the entry tells the row's
      final status and fingerprint. */
  lemma ExactlyOnce(s0: State, events: seq<Event>, id: UploadId)
    requires Initial(s0) && s0.trigger
    ensures var s := Run(s0, events);
            && CountEntries(s.log, id) == (if Terminal(s, id) then 1 else 0)
            && (Terminal(s, id) ==> EntryFor(id, s.rows[id]) in s.log)
  {
    RunKeepsInv(s0, events);
    var s := Run(s0, events);
    if Terminal(s, id) {
      CountedIsMember(s.log, id);
    }
  }

  lemma {:induction false} CountedIsMember(log: seq<Entry>, id: UploadId)
    requires CountEntries(log, id) > 0
    ensures exists e :: e in log && e.id == id
  {
    if log[|log| - 1].id != id {
      CountedIsMember(log[..|log| - 1], id);
    } else {
      assert log[|log| - 1] in log;
    }
  }

  /** The job sets its scope once and queues one audit row: in every reachable state that row's org, read from
      the data source, is the scope's, so the flush at the commit never meets a policy that refuses it. */
  lemma AuditRowFitsScope(s0: State, events: seq<Event>, w: WorkerId)
    requires Initial(s0) && s0.trigger && w in Run(s0, events).workers
    ensures var d := Run(s0, events).workers[w]; !d.phase.Begun? ==> d.phase.org == d.job.org
  {
    RunKeepsInv(s0, events);
    assert WorkerOk(Run(s0, events), w);
  }

  // ---------- the completion's own audit row ----------

  function CountCompletions(log: seq<Completion>, id: UploadId): nat {
    if log == [] then 0 else CountCompletions(log[..|log| - 1], id) + (if log[|log| - 1].id == id then 1 else 0)
  }

  ghost predicate CompletionsMatch(s: State) {
    && (forall id :: CountCompletions(s.uploads, id) == if id in s.rows then 1 else 0)
    && (forall c :: c in s.uploads ==> c.id in s.rows && c == CompletionOf(c.id, s.rows[c.id]))
  }

  lemma AppendCompletion(log: seq<Completion>, c: Completion, id: UploadId)
    ensures CountCompletions(log + [c], id) == CountCompletions(log, id) + (if c.id == id then 1 else 0)
  {
    assert (log + [c])[..|log + [c]| - 1] == log;
  }

  /** The event commits a new upload. */
  predicate Registers(s: State, e: Event) {
    e.CompleteCommit? && e.req in s.inserts && s.inserts[e.req].0 !in s.rows
  }

  lemma OtherEventsCompleteNothing(s: State, e: Event)
    requires !Registers(s, e)
    ensures Step(s, e).uploads == s.uploads && Step(s, e).rows.Keys == s.rows.Keys
  {
  }

  lemma RegisterKeepsCompletions(s: State, e: Event)
    requires CompletionsMatch(s) && Registers(s, e)
    ensures CompletionsMatch(Step(s, e))
  {
    var s' := Step(s, e);
    var (id, row) := s.inserts[e.req];
    forall i ensures CountCompletions(s'.uploads, i) == if i in s'.rows then 1 else 0 {
      AppendCompletion(s.uploads, CompletionOf(id, row), i);
    }
  }

  lemma StepKeepsCompletions(s: State, e: Event)
    requires CompletionsMatch(s)
    ensures CompletionsMatch(Step(s, e))
  {
    if Registers(s, e) {
      RegisterKeepsCompletions(s, e);
    } else {
      RowsKeepIdentity(s, e);
      OtherEventsCompleteNothing(s, e);
    }
  }

  lemma {:induction false} RunKeepsCompletions(s: State, events: seq<Event>)
    requires CompletionsMatch(s)
    ensures CompletionsMatch(Run(s, events))
    decreases events
  {
    if events != [] {
      StepKeepsCompletions(s, events[0]);
      RunKeepsCompletions(Step(s, events[0]), events[1..]);
    }
  }

  /** After any interleaving, retried completions included, each row has exactly one completion entry,
      and it tells the row's own columns; an upload that never committed has none. */
  lemma CompletedExactlyOnce(s0: State, events: seq<Event>, id: UploadId)
    requires Initial(s0)
    ensures var s := Run(s0, events);
            && CountCompletions(s.uploads, id) == (if id in s.rows then 1 else 0)
            && (forall c :: c in s.uploads && c.id == id ==> id in s.rows && c == CompletionOf(id, s.rows[id]))
  {
    RunKeepsCompletions(s0, events);
  }

  // ---------- rows, completions and jobs tell the same upload ----------

  /** The job that a row's completion queued. */
  function JobOf(id: UploadId, row: Row): Job {
    Job(id, row.org, row.storageKey, row.declared)
  }

  ghost predicate RowsHaveJobs(s: State) {
    && (forall id :: id in s.rows ==> JobOf(id, s.rows[id]) in s.queue)
    && (forall r :: r in s.inserts ==> JobOf(s.inserts[r].0, s.inserts[r].1) in s.queue)
  }

  lemma QueueGrows(s: State, e: Event)
    ensures s.queue <= Step(s, e).queue
  {
  }

  lemma StepKeepsJobOfInsert(s: State, e: Event, r: nat)
    requires RowsHaveJobs(s) && r in Step(s, e).inserts
    ensures var (id, row) := Step(s, e).inserts[r]; JobOf(id, row) in Step(s, e).queue
  {
    QueueGrows(s, e);
  }

  lemma NewRowIsRegistered(s: State, e: Event, id: UploadId)
    requires id in Step(s, e).rows && id !in s.rows
    ensures Registers(s, e) && s.inserts[e.req] == (id, Step(s, e).rows[id])
  {
  }

  lemma StepKeepsJobOfRow(s: State, e: Event, id: UploadId)
    requires RowsHaveJobs(s) && id in Step(s, e).rows
    ensures JobOf(id, Step(s, e).rows[id]) in Step(s, e).queue
  {
    QueueGrows(s, e);
    if id in s.rows {
      RowsKeepIdentity(s, e);
      assert JobOf(id, s.rows[id]) == JobOf(id, Step(s, e).rows[id]);
    } else {
      NewRowIsRegistered(s, e, id);
    }
  }

  lemma StepKeepsJobs(s: State, e: Event)
    requires RowsHaveJobs(s)
    ensures RowsHaveJobs(Step(s, e))
  {
    var s' := Step(s, e);
    forall id | id in s'.rows ensures JobOf(id, s'.rows[id]) in s'.queue {
      StepKeepsJobOfRow(s, e, id);
    }
    forall r | r in s'.inserts ensures JobOf(s'.inserts[r].0, s'.inserts[r].1) in s'.queue {
      StepKeepsJobOfInsert(s, e, r);
    }
  }

  lemma {:induction false} RunKeepsJobs(s: State, events: seq<Event>)
    requires RowsHaveJobs(s)
    ensures RowsHaveJobs(Run(s, events))
    decreases events
  {
    if events != [] {
      StepKeepsJobs(s, events[0]);
      RunKeepsJobs(Step(s, events[0]), events[1..]);
    }
  }

  /** Over every run, a committed row's org, storage key and declared hash are those of a job that was queued for
      it, so that some delivery hashes the object the row names. */
  lemma EveryRowHasItsJob(s0: State, events: seq<Event>, id: UploadId)
    requires Initial(s0) && id in Run(s0, events).rows
    ensures var s := Run(s0, events);
            Job(id, s.rows[id].org, s.rows[id].storageKey, s.rows[id].declared) in s.queue
  {
    RunKeepsJobs(s0, events);
  }

  /** A fresh upload's completion stores what the request carried: the row, its audit entry and its job. */
  lemma CompletionStoresRequest(s: State, req: nat, id: UploadId, org: OrgKey, deal: nat, key: ObjectKey, declared: Hash)
    requires req !in s.inserts && id !in s.rows
    ensures var s' := Run(s, [Complete(req, id, org, deal, key, declared), CompleteCommit(req)]);
            && s'.rows == s.rows[id := Row(org, deal, key, declared, Pending, None)]
            && s'.uploads == s.uploads + [Completion(id, org, deal, key)]
            && s'.queue == s.queue + {Job(id, org, key, declared)}
  {
    var e := [Complete(req, id, org, deal, key, declared), CompleteCommit(req)];
    assert e[0..] == e && e[2..] == [];
    RunTail(s, e, 0);
    RunTail(Step(s, e[0]), e, 1);
  }

  /** How often a row's status changes along a run. */
  function StatusChanges(s: State, events: seq<Event>, id: UploadId): nat
    decreases events
  {
    if events == [] then 0
    else
      var s' := Step(s, events[0]);
      (if id in s.rows && (id !in s'.rows || s'.rows[id].status != s.rows[id].status) then 1 else 0)
      + StatusChanges(s', events[1..], id)
  }

  /** Terminal is final: no event changes a terminal row, and the append-only columns never change. */
  lemma TerminalIsFinal(s: State, e: Event, id: UploadId)
    requires Inv(s) && id in s.rows
    ensures var s' := Step(s, e);
            && id in s'.rows && (Terminal(s, id) ==> s'.rows[id] == s.rows[id])
            && s'.rows[id] == s.rows[id].(status := s'.rows[id].status, fingerprint := s'.rows[id].fingerprint)
  {
  }

  lemma {:induction false} StatusLeavesPendingOnce(s: State, events: seq<Event>, id: UploadId)
    requires Inv(s)
    ensures StatusChanges(s, events, id) == if Terminal(Run(s, events), id) && !Terminal(s, id) then 1 else 0
    decreases events
  {
    if events != [] {
      var s' := Step(s, events[0]);
      StepKeepsInv(s, events[0]);
      StatusLeavesPendingOnce(s', events[1..], id);
      if id in s.rows {
        TerminalIsFinal(s, events[0], id);
        if Terminal(s, id) || Terminal(s', id) {
          RunKeepsTerminal(s', events[1..], id);
        }
      } else {
        InsertedPending(s, events[0], id);
      }
    }
  }

  lemma InsertedPending(s: State, e: Event, id: UploadId)
    requires Inv(s) && id !in s.rows
    ensures !Terminal(Step(s, e), id)
  {
  }

  lemma {:induction false} RunKeepsTerminal(s: State, events: seq<Event>, id: UploadId)
    requires Inv(s) && Terminal(s, id)
    ensures Terminal(Run(s, events), id) && Run(s, events).rows[id] == s.rows[id]
    decreases events
  {
    if events != [] {
      TerminalIsFinal(s, events[0], id);
      StepKeepsInv(s, events[0]);
      RunKeepsTerminal(Step(s, events[0]), events[1..], id);
    }
  }

  /** A delivery whose row is not visible (early, or in another org) raises and changes nothing but
      its own worker slot. */
  lemma InvisibleRowChangesNothing(s: State, w: WorkerId)
    requires Inv(s) && w in s.workers && s.workers[w].phase.Begun? && !Visible(s, s.workers[w].job)
    ensures Step(s, Check(w)) == s.(workers := s.workers - {w})
  {
    assert forall id :: id in s.lockedBy ==> s.lockedBy[id] != w;
  }

  // ---------- the trigger carries the guarantee ----------

  lemma HashAfterDelivery(s: State, w: WorkerId, job: Job, o: Outcome)
    requires w !in s.workers && job in s.queue && Visible(s, job) && s.rows[job.id].status == Pending
    ensures var (status, fingerprint) := VerdictOf(job.declared, o);
            Step(Step(Step(s, Deliver(w, job)), Check(w)), HashObject(w, o)) ==
            s.(workers := s.workers[w := Delivery(job, Hashed(s.rows[job.id].org, s.rows[job.id].deal, status, fingerprint))])
  {
    var s2 := Step(Step(s, Deliver(w, job)), Check(w));
    assert s2 == s.(workers := s.workers[w := Delivery(job, Checked(s.rows[job.id].org, s.rows[job.id].deal))]);
  }

  lemma UpdateThenCommit(s: State, w: WorkerId)
    requires w in s.workers && s.workers[w].phase.Hashed?
    requires Visible(s, s.workers[w].job) && s.workers[w].job.id !in s.lockedBy
    requires s.trigger ==> s.rows[s.workers[w].job.id].status == Pending
    requires forall id :: id in s.lockedBy ==> s.lockedBy[id] != w
    ensures var d := s.workers[w];
            var s' := Step(Step(s, Update(w)), WorkerCommit(w));
            && s'.log == s.log + [Entry(d.job.id, d.phase.org, d.phase.deal, d.phase.status, d.phase.fingerprint)]
            && s'.rows == s.rows[d.job.id := s.rows[d.job.id].(status := d.phase.status, fingerprint := d.phase.fingerprint)]
            && s'.workers == s.workers - {w} && s'.lockedBy == s.lockedBy && s'.trigger == s.trigger
  {
    var s1 := Step(s, Update(w));
    assert s1.workers - {w} == s.workers - {w};
  }

  /** The idempotency check alone does not: without the trigger, any two workers that both read
      `pending` and hashed commit two audit entries, and the second verdict replaces the first. */
  lemma WithoutTriggerTwice(s: State, v: WorkerId, w: WorkerId)
    requires !s.trigger && s.lockedBy == map[] && v != w && v in s.workers && w in s.workers
    requires s.workers[v].phase.Hashed? && s.workers[w].phase.Hashed?
    requires s.workers[v].job == s.workers[w].job && Visible(s, s.workers[v].job)
    ensures var s' := Run(s, [Update(v), WorkerCommit(v), Update(w), WorkerCommit(w)]);
            var id := s.workers[v].job.id;
            && CountEntries(s'.log, id) == CountEntries(s.log, id) + 2
            && id in s'.rows && s'.rows[id].status == s.workers[w].phase.status
  {
    var e := [Update(v), WorkerCommit(v), Update(w), WorkerCommit(w)];
    assert e[0..] == e && e[4..] == [];
    UpdateThenCommit(s, v);
    var s1 := Step(s, e[0]);
    var s2 := Step(s1, e[1]);
    UpdateThenCommit(s2, w);
    var s3 := Step(s2, e[2]);
    RunTail(s, e, 0);
    RunTail(s1, e, 1);
    RunTail(s2, e, 2);
    RunTail(s3, e, 3);
    var d := s.workers[v];
    AppendCounts(s.log, Entry(d.job.id, d.phase.org, d.phase.deal, d.phase.status, d.phase.fingerprint), d.job.id);
    var d' := s.workers[w];
    AppendCounts(s2.log, Entry(d'.job.id, d'.phase.org, d'.phase.deal, d'.phase.status, d'.phase.fingerprint), d'.job.id);
  }

  lemma RunTail(s: State, e: seq<Event>, i: nat)
    requires i < |e|
    ensures Run(s, e[i..]) == Run(Step(s, e[i]), e[i + 1..])
  {
    assert e[i..][1..] == e[i + 1..];
  }

  // ---------- one delivery with nothing else in flight ----------

  lemma NothingInFlight(s: State, job: Job, o: Outcome)
    requires s.workers == map[] && s.lockedBy == map[] && job in s.queue
    requires !Visible(s, job) || s.rows[job.id].status != Pending
    ensures Step(Step(Step(Step(Step(s, Deliver(0, job)), Check(0)), HashObject(0, o)), Update(0)), WorkerCommit(0)) == s
  {
    var s2 := Step(Step(s, Deliver(0, job)), Check(0));
    assert s2.workers == map[] && s2.lockedBy == map[];
  }

  lemma PendingDelivery(s: State, job: Job, o: Outcome)
    requires s.workers == map[] && s.lockedBy == map[] && s.trigger && job in s.queue
    requires Visible(s, job) && s.rows[job.id].status == Pending
    ensures var (status, fingerprint) := VerdictOf(job.declared, o);
            Step(Step(Step(Step(Step(s, Deliver(0, job)), Check(0)), HashObject(0, o)), Update(0)), WorkerCommit(0)) ==
            s.(rows := s.rows[job.id := s.rows[job.id].(status := status, fingerprint := fingerprint)],
               log := s.log + [Entry(job.id, s.rows[job.id].org, s.rows[job.id].deal, status, fingerprint)])
  {
    HashAfterDelivery(s, 0, job, o);
    var s3 := Step(Step(Step(s, Deliver(0, job)), Check(0)), HashObject(0, o));
    UpdateThenCommit(s3, 0);
    assert s3.workers - {0} == map[];
  }
}
