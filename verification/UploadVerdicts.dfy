/** What a terminal status means, and what the presign-time duplicate check guarantees. */
module UploadVerdicts {
  import opened Prelude
  import opened Ingest

  // ---------- verdicts ----------

  /** The meaning of a row's status against a declared hash. */
  predicate Faithful(declared: Hash, status: Status, fingerprint: Option<Hash>) {
    match status
    case Pending => fingerprint == None
    case Verified => fingerprint == Some(declared)
    case Mismatch => fingerprint.Some? && fingerprint != Some(declared)
    case Quarantined => fingerprint == None
  }

  /** All completions of one upload id carry the declared hash that `body` records for it. */
  predicate SameBody(events: seq<Event>, body: map<UploadId, Hash>) {
    forall i :: 0 <= i < |events| && events[i].Complete? ==> events[i].id in body && body[events[i].id] == events[i].declared
  }

  predicate WorkerTraced(d: Delivery, body: map<UploadId, Hash>) {
    && d.job.id in body && d.job.declared == body[d.job.id]
    && (d.phase.Hashed? || d.phase.Updated? ==> Faithful(d.job.declared, d.phase.status, d.phase.fingerprint))
  }

  predicate RowTraced(id: UploadId, row: Row, body: map<UploadId, Hash>) {
    id in body && row.declared == body[id] && Faithful(row.declared, row.status, row.fingerprint)
  }

  ghost predicate Traced(s: State, body: map<UploadId, Hash>) {
    && (forall j :: j in s.queue ==> j.id in body && j.declared == body[j.id])
    && (forall r :: r in s.inserts ==> RowTraced(s.inserts[r].0, s.inserts[r].1, body))
    && (forall w :: w in s.workers ==> WorkerTraced(s.workers[w], body))
    && (forall id :: id in s.rows ==> RowTraced(id, s.rows[id], body))
  }

  lemma ActorStaysTraced(s: State, e: Event, body: map<UploadId, Hash>, w: WorkerId)
    requires Traced(s, body) && w in Step(s, e).workers && Actor(e) == Some(w)
    ensures WorkerTraced(Step(s, e).workers[w], body)
  {
    if w in s.workers {
      assert WorkerTraced(s.workers[w], body);
    }
  }

  lemma StepKeepsTracedWorker(s: State, e: Event, body: map<UploadId, Hash>, w: WorkerId)
    requires Traced(s, body) && w in Step(s, e).workers
    ensures WorkerTraced(Step(s, e).workers[w], body)
  {
    if Actor(e) == Some(w) {
      ActorStaysTraced(s, e, body, w);
    } else {
      OtherWorkerKeepsSlot(s, e, w);
      assert WorkerTraced(s.workers[w], body);
    }
  }

  lemma StepKeepsTracedRow(s: State, e: Event, body: map<UploadId, Hash>, id: UploadId)
    requires Traced(s, body) && id in Step(s, e).rows
    ensures RowTraced(id, Step(s, e).rows[id], body)
  {
    if e.WorkerCommit? && e.w in s.workers {
      assert WorkerTraced(s.workers[e.w], body);
    } else if e.CompleteCommit? && e.req in s.inserts {
      assert RowTraced(s.inserts[e.req].0, s.inserts[e.req].1, body);
    }
  }

  lemma StepKeepsTracedInsert(s: State, e: Event, body: map<UploadId, Hash>, r: nat)
    requires Traced(s, body) && r in Step(s, e).inserts
    requires e.Complete? ==> e.id in body && body[e.id] == e.declared
    ensures RowTraced(Step(s, e).inserts[r].0, Step(s, e).inserts[r].1, body)
  {
    if r in s.inserts {
      assert RowTraced(s.inserts[r].0, s.inserts[r].1, body);
    }
  }

  lemma StepKeepsTracedJob(s: State, e: Event, body: map<UploadId, Hash>, j: Job)
    requires Traced(s, body) && j in Step(s, e).queue
    requires e.Complete? ==> e.id in body && body[e.id] == e.declared
    ensures j.id in body && j.declared == body[j.id]
  {
    assert j in s.queue || (e.Complete? && j.id == e.id && j.declared == e.declared);
  }

  lemma StepKeepsTraced(s: State, e: Event, body: map<UploadId, Hash>)
    requires Traced(s, body)
    requires e.Complete? ==> e.id in body && body[e.id] == e.declared
    ensures Traced(Step(s, e), body)
  {
    var s' := Step(s, e);
    forall w | w in s'.workers ensures WorkerTraced(s'.workers[w], body) {
      StepKeepsTracedWorker(s, e, body, w);
    }
    forall id | id in s'.rows ensures RowTraced(id, s'.rows[id], body) {
      StepKeepsTracedRow(s, e, body, id);
    }
    forall r | r in s'.inserts ensures RowTraced(s'.inserts[r].0, s'.inserts[r].1, body) {
      StepKeepsTracedInsert(s, e, body, r);
    }
    forall j | j in s'.queue ensures j.id in body && j.declared == body[j.id] {
      StepKeepsTracedJob(s, e, body, j);
    }
  }

  lemma {:induction false} RunKeepsTraced(s: State, events: seq<Event>, body: map<UploadId, Hash>)
    requires Traced(s, body) && SameBody(events, body)
    ensures Traced(Run(s, events), body)
    decreases events
  {
    if events != [] {
      StepKeepsTraced(s, events[0], body);
      assert forall i :: 0 <= i < |events[1..]| ==> events[1..][i] == events[i + 1];
      RunKeepsTraced(Step(s, events[0]), events[1..], body);
    }
  }

  ghost predicate AllFaithful(s: State) {
    forall id :: id in s.rows ==> Faithful(s.rows[id].declared, s.rows[id].status, s.rows[id].fingerprint)
  }

  /** With one body per upload id, in every reachable state: `verified` means the bytes hash to the
      row's declared hash, `mismatch` that they hash to something else, and `quarantined` that no
      fingerprint exists. */
  lemma VerdictsAreFaithful(s0: State, events: seq<Event>, body: map<UploadId, Hash>)
    requires Initial(s0) && SameBody(events, body)
    ensures AllFaithful(Run(s0, events))
  {
    RunKeepsTraced(s0, events, body);
    var s := Run(s0, events);
    forall id | id in s.rows ensures Faithful(s.rows[id].declared, s.rows[id].status, s.rows[id].fingerprint) {
      assert RowTraced(id, s.rows[id], body);
    }
  }

  // ---------- exactly when the verdict is faithful ----------

  /** What a worker carries is faithful to the hash its own job declares. */
  predicate WorkerSound(d: Delivery) {
    d.phase.Hashed? || d.phase.Updated? ==> Faithful(d.job.declared, d.phase.status, d.phase.fingerprint)
  }

  ghost predicate WorkersSound(s: State) {
    forall w :: w in s.workers ==> WorkerSound(s.workers[w])
  }

  lemma StepKeepsSound(s: State, e: Event)
    requires WorkersSound(s)
    ensures WorkersSound(Step(s, e))
  {
    forall w | w in Step(s, e).workers ensures WorkerSound(Step(s, e).workers[w]) {
      if Actor(e) == Some(w) {
        assert w in s.workers ==> WorkerSound(s.workers[w]);
      } else {
        OtherWorkerKeepsSlot(s, e, w);
      }
    }
  }

  /** The job declares the row's hash, or the object was too large, or it hashes to neither of the two. */
  predicate Truthful(declared: Hash, jobDeclared: Hash, fingerprint: Option<Hash>) {
    jobDeclared == declared || fingerprint == None || (fingerprint.value != jobDeclared && fingerprint.value != declared)
  }

  lemma FaithfulExactly(declared: Hash, jobDeclared: Hash, status: Status, fingerprint: Option<Hash>)
    requires Faithful(jobDeclared, status, fingerprint) && status != Pending
    ensures Faithful(declared, status, fingerprint) <==> Truthful(declared, jobDeclared, fingerprint)
  {
  }

  /** The event commits a verdict. */
  predicate Decides(s: State, e: Event) {
    e.WorkerCommit? && e.w in s.workers && s.workers[e.w].phase.Updated? && s.workers[e.w].job.id in s.rows
  }

  /** Every verdict committed along the run was reached truthfully. */
  predicate Honest(s: State, events: seq<Event>)
    decreases events
  {
    events == [] ||
    (&& (Decides(s, events[0]) ==>
           var d := s.workers[events[0].w]; Truthful(s.rows[d.job.id].declared, d.job.declared, d.phase.fingerprint))
     && Honest(Step(s, events[0]), events[1..]))
  }

  lemma DecisionFaithfulExactly(s: State, e: Event)
    requires Inv(s) && WorkersSound(s) && AllFaithful(s) && Decides(s, e)
    ensures var d := s.workers[e.w];
            var row := Step(s, e).rows[d.job.id];
            && row.status != Pending
            && (AllFaithful(Step(s, e)) <==> Truthful(s.rows[d.job.id].declared, d.job.declared, d.phase.fingerprint))
            && (Faithful(row.declared, row.status, row.fingerprint) <==> AllFaithful(Step(s, e)))
  {
    var d := s.workers[e.w];
    assert WorkerSound(d) && WorkerOk(s, e.w);
    var s' := Step(s, e);
    assert s'.rows == s.rows[d.job.id := s.rows[d.job.id].(status := d.phase.status, fingerprint := d.phase.fingerprint)];
    FaithfulExactly(s.rows[d.job.id].declared, d.job.declared, d.phase.status, d.phase.fingerprint);
  }

  lemma OtherEventsKeepFaithful(s: State, e: Event)
    requires Inv(s) && AllFaithful(s) && !Decides(s, e)
    ensures AllFaithful(Step(s, e))
  {
    OtherEventsKeepRows(s, e);
  }

  lemma {:induction false} RunFaithfulExactly(s: State, events: seq<Event>)
    requires Inv(s) && WorkersSound(s) && AllFaithful(s)
    ensures AllFaithful(Run(s, events)) <==> Honest(s, events)
    decreases events
  {
    if events != [] {
      var e, s' := events[0], Step(s, events[0]);
      StepKeepsInv(s, e);
      StepKeepsSound(s, e);
      if Decides(s, e) {
        DecisionFaithfulExactly(s, e);
      } else {
        OtherEventsKeepFaithful(s, e);
      }
      if AllFaithful(s') {
        RunFaithfulExactly(s', events[1..]);
      } else {
        RunKeepsTerminal(s', events[1..], s.workers[e.w].job.id);
      }
    }
  }

  /** Over every run of the empty system, whatever bodies the completions carried: all rows tell the truth
      about their declared hash at the end if and only if each committed verdict came from a job that
      declares the row's own hash, or from an object too large or equal to neither hash. */
  lemma VerdictsAreFaithfulExactly(s0: State, events: seq<Event>)
    requires Initial(s0) && s0.trigger
    ensures AllFaithful(Run(s0, events)) <==> Honest(s0, events)
  {
    RunFaithfulExactly(s0, events);
  }

  /** The same for one undisturbed delivery, in terms of what hashing comes back with. */
  lemma DeliveryFaithfulExactly(s: State, job: Job, o: Outcome)
    requires s.workers == map[] && s.lockedBy == map[] && s.trigger && job in s.queue
    requires Visible(s, job) && s.rows[job.id].status == Pending
    ensures var s' := Step(Step(Step(Step(Step(s, Deliver(0, job)), Check(0)), HashObject(0, o)), Update(0)), WorkerCommit(0));
            && job.id in s'.rows
            && (Faithful(s'.rows[job.id].declared, s'.rows[job.id].status, s'.rows[job.id].fingerprint) <==>
                job.declared == s.rows[job.id].declared || o.TooLarge?
                || (o.hash != job.declared && o.hash != s.rows[job.id].declared))
  {
    PendingDelivery(s, job, o);
  }

  /** As soon as the queue holds a job for a pending row with another declared hash, a free worker can mark
      the row verified with a fingerprint that is not the row's declared hash. */
  lemma OtherBodyMisleads(s: State, w: WorkerId, job: Job)
    requires Inv(s) && s.lockedBy == map[] && w !in s.workers
    requires job in s.queue && Visible(s, job) && s.rows[job.id].status == Pending && job.declared != s.rows[job.id].declared
    ensures var s' := Run(s, [Deliver(w, job), Check(w), HashObject(w, Digest(job.declared)), Update(w), WorkerCommit(w)]);
            && job.id in s'.rows && s'.rows[job.id].status == Verified
            && !Faithful(s'.rows[job.id].declared, s'.rows[job.id].status, s'.rows[job.id].fingerprint)
  {
    var e := [Deliver(w, job), Check(w), HashObject(w, Digest(job.declared)), Update(w), WorkerCommit(w)];
    assert e[0..] == e && e[5..] == [];
    var s1 := Step(s, e[0]);
    var s2 := Step(s1, e[1]);
    var s3 := Step(s2, e[2]);
    HashAfterDelivery(s, w, job, Digest(job.declared));
    UpdateThenCommit(s3, w);
    var s4 := Step(s3, e[3]);
    RunTail(s, e, 0);
    RunTail(s1, e, 1);
    RunTail(s2, e, 2);
    RunTail(s3, e, 3);
    RunTail(s4, e, 4);
  }

  /** And that is reached from the empty system: one upload id completed twice with different hashes. The
      second completion fails on the primary key, but its job is queued already. */
  lemma SecondBodyQueuesItsJob(s0: State, id: UploadId, org: OrgKey, deal: nat, key: ObjectKey, d1: Hash, d2: Hash)
    requires Initial(s0) && s0.trigger && d1 != d2
    ensures var s := Run(s0, [Complete(0, id, org, deal, key, d1), CompleteCommit(0), Complete(1, id, org, deal, key, d2)]);
            var job := Job(id, org, key, d2);
            && Inv(s) && s.lockedBy == map[] && s.workers == map[]
            && job in s.queue && Visible(s, job)
            && s.rows[id].status == Pending && s.rows[id].declared == d1
  {
    var e := [Complete(0, id, org, deal, key, d1), CompleteCommit(0), Complete(1, id, org, deal, key, d2)];
    assert e[0..] == e && e[3..] == [];
    RunKeepsInv(s0, e);
    RunTail(s0, e, 0);
    var s1 := Step(s0, e[0]);
    RunTail(s1, e, 1);
    var s2 := Step(s1, e[1]);
    RunTail(s2, e, 2);
  }

  // ---------- the duplicate check ----------

  /** `find_dedupe_candidate` under the org's scope: some row of the deal with this declared hash or
      fingerprint that is not a mismatch. */
  predicate DedupeHit(s: State, org: OrgKey, deal: nat, h: Hash) {
    exists id :: id in s.rows && s.rows[id].org == org && s.rows[id].deal == deal && s.rows[id].status != Mismatch
                 && (s.rows[id].declared == h || s.rows[id].fingerprint == Some(h))
  }

  predicate DeclaredHit(s: State, org: OrgKey, deal: nat, h: Hash) {
    exists id :: id in s.rows && s.rows[id].org == org && s.rows[id].deal == deal && s.rows[id].status != Mismatch
                 && s.rows[id].declared == h
  }

  /** Where verdicts are faithful the fingerprint half of the query finds nothing more. */
  lemma FaithfulHalfIsRedundant(s: State, org: OrgKey, deal: nat, h: Hash)
    requires AllFaithful(s)
    ensures DedupeHit(s, org, deal, h) <==> DeclaredHit(s, org, deal, h)
  {
    if DedupeHit(s, org, deal, h) {
      var id :| id in s.rows && s.rows[id].org == org && s.rows[id].deal == deal && s.rows[id].status != Mismatch
                && (s.rows[id].declared == h || s.rows[id].fingerprint == Some(h));
      assert Faithful(s.rows[id].declared, s.rows[id].status, s.rows[id].fingerprint);
    }
  }

  /** So after every run whose verdicts were reached truthfully, in particular with one body per upload id. */
  lemma FingerprintHalfIsRedundant(s0: State, events: seq<Event>, body: map<UploadId, Hash>, org: OrgKey, deal: nat, h: Hash)
    requires Initial(s0) && (SameBody(events, body) || (s0.trigger && Honest(s0, events)))
    ensures DedupeHit(Run(s0, events), org, deal, h) <==> DeclaredHit(Run(s0, events), org, deal, h)
  {
    if SameBody(events, body) {
      VerdictsAreFaithful(s0, events, body);
    } else {
      VerdictsAreFaithfulExactly(s0, events);
    }
    FaithfulHalfIsRedundant(Run(s0, events), org, deal, h);
  }

  lemma OneBodyIsHonest(s0: State, events: seq<Event>, body: map<UploadId, Hash>)
    requires Initial(s0) && s0.trigger && SameBody(events, body)
    ensures Honest(s0, events)
  {
    VerdictsAreFaithful(s0, events, body);
    VerdictsAreFaithfulExactly(s0, events);
  }

  // ---------- presigning one upload at a time ----------

  datatype ClientEvent =
    | Presign(org: OrgKey, deal: nat, declared: Hash, id: UploadId)
    | Protocol(e: Event)

  // `open` holds, per org and deal, the accepted presign that has not been completed yet.
  datatype Session = Session(s: State, open: map<(OrgKey, nat), (UploadId, Hash)>)

  function Serve(c: Session, ev: ClientEvent): Session {
    match ev
    case Presign(org, deal, h, id) =>
      if DedupeHit(c.s, org, deal, h) then c else c.(open := c.open[(org, deal) := (id, h)])
    case Protocol(e) =>
      var closes := e.CompleteCommit? && e.req in c.s.inserts && c.s.inserts[e.req].0 !in c.s.rows;
      Session(Step(c.s, e),
              if closes then c.open - {(c.s.inserts[e.req].1.org, c.s.inserts[e.req].1.deal)} else c.open)
  }

  function ServeAll(c: Session, evs: seq<ClientEvent>): Session
    decreases evs
  {
    if evs == [] then c else ServeAll(Serve(c, evs[0]), evs[1..])
  }

  /** Each accepted presign in a deal is completed, with the values it was presigned for, before the
      next presign in that deal. An upload that has committed may be completed again at any time. */
  predicate Sequential(c: Session, evs: seq<ClientEvent>)
    decreases evs
  {
    evs == [] ||
    (&& (match evs[0]
         case Presign(org, deal, _, _) => (org, deal) !in c.open
         case Protocol(e) =>
           e.Complete? ==> e.id in c.s.rows || ((e.org, e.deal) in c.open && c.open[(e.org, e.deal)] == (e.id, e.declared)))
     && Sequential(Serve(c, evs[0]), evs[1..]))
  }

  predicate SameDealLive(a: Row, b: Row) {
    a.org == b.org && a.deal == b.deal && a.status != Mismatch && b.status != Mismatch
  }

  /** Rows of one deal that are not mismatches have distinct declared hashes. */
  ghost predicate DistinctHashes(s: State) {
    forall i, j :: i in s.rows && j in s.rows && i != j && SameDealLive(s.rows[i], s.rows[j]) ==>
      s.rows[i].declared != s.rows[j].declared
  }

  predicate LiveIn(row: Row, k: (OrgKey, nat)) {
    row.org == k.0 && row.deal == k.1 && row.status != Mismatch
  }

  /** A completion in flight has either committed already or belongs to its deal's open presign. */
  predicate Accounted(c: Session, r: nat)
    requires r in c.s.inserts
  {
    var id, row := c.s.inserts[r].0, c.s.inserts[r].1;
    id in c.s.rows || ((row.org, row.deal) in c.open && c.open[(row.org, row.deal)] == (id, row.declared))
  }

  ghost predicate SessionInv(c: Session) {
    && Inv(c.s) && DistinctHashes(c.s)
    && (forall k, i :: k in c.open && i in c.s.rows && LiveIn(c.s.rows[i], k) ==> c.s.rows[i].declared != c.open[k].1)
    && (forall r :: r in c.s.inserts ==> Accounted(c, r))
  }

  /** A protocol event leaves each existing row's identity columns alone and never turns a mismatch
      into anything else. */
  lemma ProtocolKeepsIdentity(s: State, e: Event, id: UploadId)
    requires Inv(s) && id in s.rows
    ensures var s' := Step(s, e);
            && id in s'.rows && s'.rows[id].org == s.rows[id].org && s'.rows[id].deal == s.rows[id].deal
            && s'.rows[id].declared == s.rows[id].declared
            && (s.rows[id].status == Mismatch ==> s'.rows[id].status == Mismatch)
  {
    TerminalIsFinal(s, e, id);
  }

  lemma PresignKeepsInv(c: Session, org: OrgKey, deal: nat, h: Hash, id: UploadId)
    requires SessionInv(c) && (org, deal) !in c.open
    ensures SessionInv(Serve(c, Presign(org, deal, h, id)))
  {
  }

  /** The rows a protocol event adds: only a commit of a new upload does, and it adds that upload. */
  lemma AddedRow(s: State, e: Event, id: UploadId)
    requires id in Step(s, e).rows && id !in s.rows
    ensures e.CompleteCommit? && e.req in s.inserts && s.inserts[e.req].0 == id && Step(s, e).rows[id] == s.inserts[e.req].1
  {
  }

  lemma ProtocolKeepsDistinct(c: Session, e: Event)
    requires SessionInv(c)
    ensures DistinctHashes(Step(c.s, e))
  {
    var s, s' := c.s, Step(c.s, e);
    forall i, j | i in s'.rows && j in s'.rows && i != j && SameDealLive(s'.rows[i], s'.rows[j])
      ensures s'.rows[i].declared != s'.rows[j].declared
    {
      if i in s.rows {
        ProtocolKeepsIdentity(s, e, i);
      } else {
        AddedRow(s, e, i);
      }
      if j in s.rows {
        ProtocolKeepsIdentity(s, e, j);
      } else {
        AddedRow(s, e, j);
      }
    }
  }

  lemma ProtocolKeepsOpen(c: Session, e: Event, k: (OrgKey, nat), i: UploadId)
    requires SessionInv(c)
    requires var c' := Serve(c, Protocol(e));
             k in c'.open && i in c'.s.rows && LiveIn(c'.s.rows[i], k)
    ensures var c' := Serve(c, Protocol(e)); c'.s.rows[i].declared != c'.open[k].1
  {
    if i in c.s.rows {
      ProtocolKeepsIdentity(c.s, e, i);
    } else {
      AddedRow(c.s, e, i);
    }
  }

  lemma StepKeepsInsert(s: State, e: Event, r: nat)
    requires r in s.inserts && r in Step(s, e).inserts
    ensures Step(s, e).inserts[r] == s.inserts[r]
  {
  }

  /** A commit that closes a deal's open presign inserts the very upload that was presigned. */
  lemma CommitAccounts(c: Session, e: Event, id: UploadId, row: Row)
    requires e.CompleteCommit? && e.req in c.s.inserts && Accounted(c, e.req)
    requires id !in c.s.rows && (row.org, row.deal) in c.open && c.open[(row.org, row.deal)] == (id, row.declared)
    ensures var c' := Serve(c, Protocol(e));
            id in c'.s.rows || ((row.org, row.deal) in c'.open && c'.open[(row.org, row.deal)] == (id, row.declared))
  {
  }

  lemma ProtocolKeepsInsert(c: Session, e: Event, r: nat)
    requires SessionInv(c) && r in c.s.inserts && r in Step(c.s, e).inserts
    ensures Accounted(Serve(c, Protocol(e)), r)
  {
    assert Accounted(c, r);
    var id, row := c.s.inserts[r].0, c.s.inserts[r].1;
    StepKeepsInsert(c.s, e, r);
    if id in c.s.rows {
      TerminalIsFinal(c.s, e, id);
    } else if e.CompleteCommit? && e.req in c.s.inserts {
      assert Accounted(c, e.req);
      CommitAccounts(c, e, id, row);
    }
  }

  lemma ProtocolKeepsInserts(c: Session, e: Event, r: nat)
    requires SessionInv(c)
    requires e.Complete? ==> e.id in c.s.rows || ((e.org, e.deal) in c.open && c.open[(e.org, e.deal)] == (e.id, e.declared))
    requires r in Step(c.s, e).inserts
    ensures Accounted(Serve(c, Protocol(e)), r)
  {
    if r in c.s.inserts {
      ProtocolKeepsInsert(c, e, r);
    }
  }

  lemma ProtocolKeepsInv(c: Session, e: Event)
    requires SessionInv(c)
    requires e.Complete? ==> e.id in c.s.rows || ((e.org, e.deal) in c.open && c.open[(e.org, e.deal)] == (e.id, e.declared))
    ensures SessionInv(Serve(c, Protocol(e)))
  {
    var c' := Serve(c, Protocol(e));
    StepKeepsInv(c.s, e);
    ProtocolKeepsDistinct(c, e);
    forall k, i | k in c'.open && i in c'.s.rows && LiveIn(c'.s.rows[i], k) ensures c'.s.rows[i].declared != c'.open[k].1 {
      ProtocolKeepsOpen(c, e, k, i);
    }
    forall r | r in c'.s.inserts ensures Accounted(c', r) {
      ProtocolKeepsInserts(c, e, r);
    }
  }

  /** Presigning one upload at a time, a deal never holds two live uploads of the same content. */
  lemma {:induction false} SequentialUploadsAreDistinct(c: Session, evs: seq<ClientEvent>)
    requires SessionInv(c) && Sequential(c, evs)
    ensures DistinctHashes(ServeAll(c, evs).s)
    decreases evs
  {
    if evs != [] {
      match evs[0] {
        case Presign(org, deal, h, id) => PresignKeepsInv(c, org, deal, h, id);
        case Protocol(e) => ProtocolKeepsInv(c, e);
      }
      SequentialUploadsAreDistinct(Serve(c, evs[0]), evs[1..]);
    }
  }

  /** The empty system satisfies the session invariant. */
  lemma EmptySessionInv(s0: State)
    requires Initial(s0) && s0.trigger
    ensures SessionInv(Session(s0, map[]))
  {
  }

  /** From the empty system, for every client that presigns one upload at a time. */
  lemma SequentialClientsStoreOnce(s0: State, evs: seq<ClientEvent>)
    requires Initial(s0) && s0.trigger && Sequential(Session(s0, map[]), evs)
    ensures DistinctHashes(ServeAll(Session(s0, map[]), evs).s)
  {
    EmptySessionInv(s0);
    SequentialUploadsAreDistinct(Session(s0, map[]), evs);
  }

  // ---------- when duplicates get in ----------

  /** A new upload keeps the deal's live hashes distinct if and only if no live row of the deal declares its
      hash at that moment. */
  lemma CommitKeepsDistinctExactly(s: State, e: Event)
    requires Inv(s) && DistinctHashes(s) && Registers(s, e)
    ensures var row := s.inserts[e.req].1;
            DistinctHashes(Step(s, e)) <==> !DeclaredHit(s, row.org, row.deal, row.declared)
  {
    var s' := Step(s, e);
    var (id, row) := s.inserts[e.req];
    assert s'.rows == s.rows[id := row] && row.status == Pending;
    if DeclaredHit(s, row.org, row.deal, row.declared) {
      var other :| other in s.rows && s.rows[other].org == row.org && s.rows[other].deal == row.deal
                   && s.rows[other].status != Mismatch && s.rows[other].declared == row.declared;
      assert SameDealLive(s'.rows[other], s'.rows[id]);
    }
  }

  /** No other protocol event can make two live hashes of a deal equal. */
  lemma OtherEventsKeepDistinct(s: State, e: Event)
    requires Inv(s) && DistinctHashes(s) && !Registers(s, e)
    ensures DistinctHashes(Step(s, e))
  {
    var s' := Step(s, e);
    OtherEventsCompleteNothing(s, e);
    forall i, j | i in s'.rows && j in s'.rows && i != j && SameDealLive(s'.rows[i], s'.rows[j])
      ensures s'.rows[i].declared != s'.rows[j].declared
    {
      ProtocolKeepsIdentity(s, e, i);
      ProtocolKeepsIdentity(s, e, j);
    }
  }

  /** At no point of the run does a deal hold two live uploads of one declared hash. */
  ghost predicate DistinctThroughout(s: State, events: seq<Event>)
    decreases events
  {
    DistinctHashes(s) && (events == [] || DistinctThroughout(Step(s, events[0]), events[1..]))
  }

  /** Whenever the run commits a new upload, the presign check made again at that moment would find nothing. */
  predicate FreshAtCommit(s: State, events: seq<Event>)
    decreases events
  {
    events == [] ||
    (&& (Registers(s, events[0]) ==>
           var row := s.inserts[events[0].req].1; !DedupeHit(s, row.org, row.deal, row.declared))
     && FreshAtCommit(Step(s, events[0]), events[1..]))
  }

  lemma {:induction false} RunDistinctExactly(s: State, events: seq<Event>)
    requires Inv(s) && WorkersSound(s) && AllFaithful(s) && Honest(s, events) && DistinctHashes(s)
    ensures DistinctThroughout(s, events) <==> FreshAtCommit(s, events)
    decreases events
  {
    if events != [] {
      var e, s' := events[0], Step(s, events[0]);
      StepKeepsInv(s, e);
      StepKeepsSound(s, e);
      if Decides(s, e) {
        DecisionFaithfulExactly(s, e);
      } else {
        OtherEventsKeepFaithful(s, e);
      }
      if Registers(s, e) {
        var row := s.inserts[e.req].1;
        CommitKeepsDistinctExactly(s, e);
        FaithfulHalfIsRedundant(s, row.org, row.deal, row.declared);
      } else {
        OtherEventsKeepDistinct(s, e);
      }
      if DistinctHashes(s') {
        RunDistinctExactly(s', events[1..]);
      }
    }
  }

  /** The check is made at presign time, but what decides is the commit: over every run whose verdicts are
      truthful, a deal never holds two live uploads of one declared hash if and only if each upload would
      still pass the whole check when it commits. */
  lemma UploadsAreDistinctExactly(s0: State, events: seq<Event>)
    requires Initial(s0) && s0.trigger && Honest(s0, events)
    ensures DistinctThroughout(s0, events) <==> FreshAtCommit(s0, events)
  {
    RunDistinctExactly(s0, events);
  }

  lemma ServeTail(c: Session, evs: seq<ClientEvent>, i: nat)
    requires i < |evs|
    ensures ServeAll(c, evs[i..]) == ServeAll(Serve(c, evs[i]), evs[i + 1..])
  {
    assert evs[i..][1..] == evs[i + 1..];
  }

  /** Two presigns open at once are both accepted, and both uploads end up live with one declared hash. */
  lemma OpenPresignsDuplicate(s0: State, org: OrgKey, deal: nat, key: ObjectKey, h: Hash)
    requires Initial(s0) && s0.trigger
    ensures var evs := [Presign(org, deal, h, 1), Presign(org, deal, h, 2),
                        Protocol(Complete(0, 1, org, deal, key, h)), Protocol(CompleteCommit(0)),
                        Protocol(Complete(1, 2, org, deal, key, h)), Protocol(CompleteCommit(1))];
            var s := ServeAll(Session(s0, map[]), evs).s;
            && 1 in s.rows && 2 in s.rows && SameDealLive(s.rows[1], s.rows[2]) && s.rows[1].declared == s.rows[2].declared
            && !DistinctHashes(s)
  {
    var evs := [Presign(org, deal, h, 1), Presign(org, deal, h, 2),
                Protocol(Complete(0, 1, org, deal, key, h)), Protocol(CompleteCommit(0)),
                Protocol(Complete(1, 2, org, deal, key, h)), Protocol(CompleteCommit(1))];
    assert evs[0..] == evs && evs[6..] == [];
    var c0 := Session(s0, map[]);
    ServeTail(c0, evs, 0);
    var c1 := Serve(c0, evs[0]);
    ServeTail(c1, evs, 1);
    var c2 := Serve(c1, evs[1]);
    assert c2.s == s0;
    ServeTail(c2, evs, 2);
    var c3 := Serve(c2, evs[2]);
    ServeTail(c3, evs, 3);
    var c4 := Serve(c3, evs[3]);
    assert c4.s.rows == map[1 := Row(org, deal, key, h, Pending, None)] && c4.s.inserts == map[];
    ServeTail(c4, evs, 4);
    var c5 := Serve(c4, evs[4]);
    ServeTail(c5, evs, 5);
    var c6 := Serve(c5, evs[5]);
    assert c6.s.rows == c4.s.rows[2 := Row(org, deal, key, h, Pending, None)];
    assert SameDealLive(c6.s.rows[1], c6.s.rows[2]);
  }
}
