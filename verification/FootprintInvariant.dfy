/** What every transaction of the discovery protocol keeps true, and how the rows of a job
    may change from one moment to a later one. */
module FootprintInvariant {
  import opened Wrappers
  import opened FootprintModel
  import opened FootprintTransactions

  // ---------- The invariant ----------

  /** The attempts of a run carry the generations 1, 2, ... up to its current one, and only
      the current one of a running run is open. */
  predicate Ledger(record: RunRecord) {
    && |record.attempts| == record.run.generation
    && forall i | 0 <= i < |record.attempts| ::
         var a := record.attempts[i];
         && a.generation == i + 1
         && (a.finishedAt.None? <==> i + 1 == record.run.generation && record.run.status.Running?)
         && (a.status.InProgress? <==> a.finishedAt.None?)
         && (a.disposition.None? <==> a.finishedAt.None?)
  }

  predicate RecordOk(record: RunRecord, epoch: nat) {
    var run := record.run;
    && Ledger(record)
    && (run.leaseExpiresAt.Some? <==> run.status.Running?)
    && run.epoch <= epoch
    && (run.status.Running? ==> run.epoch == epoch && run.generation > 0)
    && (run.status.Pending? ==> run.generation == 0)
    && (run.status.RetryScheduled? ==> run.generation > 0)
    && (run.SingleShot() ==> run.generation <= 1 && !run.status.RetryScheduled?)
    && (run.provider.Maigret? <==> record.scan.Some?)
    && (record.scan.Some? ==> record.scan.value.status == run.status)
  }

  predicate RunsOk(db: Db)
    requires db.job.Some?
  {
    forall r | r in db.runs :: RecordOk(db.runs[r], db.job.value.epoch)
  }

  function LastKey(run: Run): nat {
    if run.status.Running? then run.generation else run.generation + 1
  }

  /** Every waiting run has the message of its next generation, and no message is ahead of
      the run it belongs to. */
  predicate HandoffOk(db: Db) {
    && (forall r | r in db.runs && db.runs[r].run.status.Waiting() ::
          DedupeKey(db.runs[r].run.provider, r, db.runs[r].run.generation + 1) in db.outbox)
    && (forall k | k in db.outbox ::
          && k.run in db.runs
          && k.provider == db.runs[k.run].run.provider
          && 1 <= k.generation <= LastKey(db.runs[k.run].run))
  }

  /** At most one synthesis run; it has the job's only result row exactly when it ended
      without being cancelled; that row repeats its status and holds an output on success. */
  predicate SynthesisOk(db: Db)
    requires db.job.Some?
  {
    && (forall r, q | r in db.runs && q in db.runs && db.runs[r].run.provider.Synthesis? && db.runs[q].run.provider.Synthesis? ::
          r == q)
    && (forall r | r in db.runs && db.runs[r].run.provider.Synthesis? ::
          && db.job.value.mode.Deep?
          && (r in db.results <==> db.runs[r].run.status.Terminal() && !db.runs[r].run.status.Cancelled?))
    && (forall r | r in db.results ::
          && r in db.runs
          && db.runs[r].run.provider.Synthesis?
          && db.results[r].status == db.runs[r].run.status
          && (db.results[r].output.Some? <==> db.results[r].status.Success?))
  }

  predicate Cites(db: Db, a: Acceptance) {
    && a.run in db.runs
    && db.runs[a.run].run.status.Terminal()
    && db.runs[a.run].run.generation == a.generation
    && db.runs[a.run].run.epoch == a.epoch
  }

  /** A run contributes at most one payload: the one its last lease delivered. */
  predicate EvidenceOk(db: Db) {
    && (forall i | 0 <= i < |db.evidence| :: Cites(db, db.evidence[i]))
    && (forall i, j | 0 <= i < j < |db.evidence| :: db.evidence[i].run != db.evidence[j].run)
  }

  predicate Numbered(events: seq<Event>) {
    forall i | 0 <= i < |events| :: events[i].sequence == i + 1
  }

  /** Sequences are 1, 2, ...; the only terminal event is the last one of a finished job. */
  predicate EventsOk(db: Db)
    requires db.job.Some?
  {
    && Numbered(db.events)
    && (forall i | 0 <= i < |db.events| ::
          db.events[i].terminal <==> i == |db.events| - 1 && db.job.value.status.Terminal())
    && (db.job.value.status.Terminal() ==> db.events != [])
  }

  predicate JobOk(db: Db)
    requires db.job.Some?
  {
    && db.runs.Keys != {}
    && (db.job.value.status.Terminal() ==> AllTerminal(db.runs))
    && (db.job.value.attempt.reported ==> db.job.value.status.Terminal())
  }

  predicate Inv(db: Db) {
    && !db.uniqueViolation
    && (db.job.None? ==> db.runs == map[] && db.results == map[] && db.outbox == map[] && db.events == [] && db.evidence == [])
    && (db.job.Some? ==>
          && !db.tombstone
          && RunsOk(db)
          && HandoffOk(db)
          && SynthesisOk(db)
          && EvidenceOk(db)
          && EventsOk(db)
          && JobOk(db))
  }

  /** The run is running in the generation and epoch of the lease, and the job is still in it. */
  predicate Owns(db: Db, lease: Lease) {
    && db.job.Some? && !db.tombstone && lease.run in db.runs
    && var run := db.runs[lease.run].run;
       run.status == Running && Lease(lease.run, run.generation, run.epoch) == lease && db.job.value.epoch == lease.epoch
  }

  /** What the invariant says of one run. */
  lemma RecordInvariant(db: Db, r: RunId)
    requires Inv(db) && db.job.Some? && r in db.runs
    ensures RecordOk(db.runs[r], db.job.value.epoch)
    ensures !db.runs[r].run.status.Terminal() ==> !db.job.value.status.Terminal()
    ensures forall k | k in db.outbox && k.run == r :: k.generation <= LastKey(db.runs[r].run)
  {}

  // ---------- Evolution ----------

  /** Configuration never changes, a finished attempt is never rewritten, and nothing about a
      run changes once it has ended. */
  predicate RecordEvolves(before: RunRecord, after: RunRecord) {
    && after.run.provider == before.run.provider
    && after.run.adaptive == before.run.adaptive
    && after.run.requestBudget == before.run.requestBudget
    && after.run.deadline == before.run.deadline
    && before.run.generation <= after.run.generation
    && before.run.epoch <= after.run.epoch
    && (after.run.generation == before.run.generation ==> after.run.epoch == before.run.epoch)
    && |before.attempts| <= |after.attempts|
    && (forall i | 0 <= i < |before.attempts| ::
          && after.attempts[i].generation == before.attempts[i].generation
          && (before.attempts[i].finishedAt.Some? ==> after.attempts[i] == before.attempts[i]))
    && (before.run.status.Terminal() ==> after == before)
  }

  predicate JobEvolves(before: Job, after: Job) {
    && after.mode == before.mode
    && after.bareHandle == before.bareHandle
    && after.deadline == before.deadline
    && before.epoch <= after.epoch
    && before.rowVersion <= after.rowVersion
    && (before.anchor.Some? ==> after.anchor.Some?)
    && (before.status.Terminal() ==> after == before)
  }

  /** Everything a client or a report can see of a job. */
  predicate SameRecordedWork(before: Db, after: Db) {
    && after.job == before.job
    && after.runs == before.runs
    && after.results == before.results
    && after.events == before.events
    && after.evidence == before.evidence
    && after.outbox.Keys == before.outbox.Keys
  }

  predicate Evolves(before: Db, after: Db) {
    && before.job.Some?
    && after.job.Some?
    && JobEvolves(before.job.value, after.job.value)
    && (forall r | r in before.runs :: r in after.runs && RecordEvolves(before.runs[r], after.runs[r]))
    && (forall r | r in before.results :: r in after.results && after.results[r] == before.results[r])
    && before.outbox.Keys <= after.outbox.Keys
    && before.events <= after.events
    && before.evidence <= after.evidence
    && (before.job.value.status.Terminal() ==> SameRecordedWork(before, after))
  }

  lemma EvolvesReflexive(db: Db)
    requires db.job.Some?
    ensures Evolves(db, db)
  {}

  lemma EvolvesTransitive(a: Db, b: Db, c: Db)
    requires Evolves(a, b) && Evolves(b, c)
    ensures Evolves(a, c)
  {
    forall r | r in a.runs
      ensures r in c.runs && RecordEvolves(a.runs[r], c.runs[r])
    {
      assert RecordEvolves(a.runs[r], b.runs[r]) && RecordEvolves(b.runs[r], c.runs[r]);
    }
  }

  /** A legal change of the rows. */
  predicate Legal(before: Db, after: Db) {
    before.job.Some? && after.job.Some? && Inv(after) && Evolves(before, after)
  }

  lemma LegalTransitive(a: Db, b: Db, c: Db)
    requires Legal(a, b) && Legal(b, c)
    ensures Legal(a, c)
  {
    EvolvesTransitive(a, b, c);
  }

  // ---------- Row operations ----------

  lemma {:induction false} MaxSequenceIsLength(events: seq<Event>)
    requires Numbered(events)
    ensures MaxSequence(events) == |events|
  {
    if events != [] {
      MaxSequenceIsLength(events[..|events| - 1]);
    }
  }

  lemma {:induction false} FindAttemptInLedger(attempts: seq<Attempt>, generation: nat, offset: nat)
    requires forall i | 0 <= i < |attempts| :: attempts[i].generation == offset + i + 1
    ensures FindAttempt(attempts, generation) ==
            if offset < generation <= offset + |attempts| then Some(generation - offset - 1) else None
  {
    if attempts != [] && attempts[0].generation != generation {
      FindAttemptInLedger(attempts[1..], generation, offset + 1);
    }
  }

  /** Closing the attempt of a running run touches its last attempt row and no other. */
  lemma CloseAttemptInLedger(record: RunRecord, now: Time, status: AttemptStatus, disposition: Disposition)
    requires Ledger(record) && record.run.status.Running? && record.run.generation > 0
    ensures CloseAttempt(record.attempts, record.run.generation, now, status, disposition) ==
            record.attempts[record.run.generation - 1 := EndAttempt(record.attempts[record.run.generation - 1], now, status, disposition)]
  {
    FindAttemptInLedger(record.attempts, record.run.generation, 0);
  }

  lemma LogEventLegal(db: Db, kind: EventKind)
    requires Inv(db) && db.job.Some? && !db.job.value.status.Terminal()
    ensures Legal(db, LogEvent(db, kind))
  {
    hide AddEvent, EventsOk, Numbered;
    LoggedEventsOk(db, kind);
  }

  lemma LoggedEventsOk(db: Db, kind: EventKind)
    requires db.job.Some? && EventsOk(db) && !db.job.value.status.Terminal()
    ensures EventsOk(LogEvent(db, kind)) && db.events <= AddEvent(db.events, kind, false)
  {
    MaxSequenceIsLength(db.events);
  }

  lemma {:induction false} LogEventsLegal(db: Db, kind: EventKind, count: nat)
    requires Inv(db) && db.job.Some? && !db.job.value.status.Terminal()
    ensures Legal(db, db.(events := AddEvents(db.events, kind, count)))
  {
    hide Inv, Evolves, AddEvent, MaxSequence;
    EvolvesReflexive(db);
    if count == 0 {
      assert db.(events := db.events) == db;
    } else {
      LogEventsLegal(db, kind, count - 1);
      var earlier := db.(events := AddEvents(db.events, kind, count - 1));
      LogEventLegal(earlier, kind);
      assert db.(events := AddEvents(db.events, kind, count)) == LogEvent(earlier, kind);
      LegalTransitive(db, earlier, LogEvent(earlier, kind));
    }
  }

  /** Change the columns of a live job that the invariant does not speak of. */
  lemma SetJobLegal(db: Db, job: Job)
    requires Inv(db) && db.job.Some? && !db.job.value.status.Terminal()
    requires JobEvolves(db.job.value, job) && job.epoch == db.job.value.epoch
    requires !job.status.Terminal() && job.attempt.reported == db.job.value.attempt.reported
    ensures Legal(db, db.(job := Some(job)))
  {}

  // Effects of overwriting or inserting one run record, one conjunct of the invariant each.

  lemma PutKeepsRuns(db: Db, r: RunId, record: RunRecord)
    requires db.job.Some? && RunsOk(db) && RecordOk(record, db.job.value.epoch)
    ensures RunsOk(PutRecord(db, r, record))
  {}

  lemma PutKeepsEvidence(db: Db, r: RunId, record: RunRecord)
    requires EvidenceOk(db)
    requires r in db.runs ==> !db.runs[r].run.status.Terminal()
    ensures EvidenceOk(PutRecord(db, r, record))
  {
    var after := PutRecord(db, r, record);
    forall i | 0 <= i < |after.evidence|
      ensures Cites(after, after.evidence[i])
    {
      assert Cites(db, db.evidence[i]);
    }
  }

  lemma PutKeepsSynthesis(db: Db, r: RunId, record: RunRecord)
    requires db.job.Some? && SynthesisOk(db)
    requires r in db.runs ==> record.run.provider == db.runs[r].run.provider && !db.runs[r].run.status.Terminal()
    requires r !in db.runs && record.run.provider.Synthesis? ==> !HasProvider(db.runs, Synthesis) && db.job.value.mode.Deep?
    requires record.run.provider.Synthesis? ==> !record.run.status.Terminal() || record.run.status.Cancelled?
    ensures SynthesisOk(PutRecord(db, r, record))
  {}

  lemma PutKeepsHandoff(db: Db, r: RunId, record: RunRecord)
    requires HandoffOk(db) && r in db.runs && record.run.provider == db.runs[r].run.provider
    requires record.run.status.Waiting() ==> DedupeKey(record.run.provider, r, record.run.generation + 1) in db.outbox
    requires LastKey(db.runs[r].run) <= LastKey(record.run)
    ensures HandoffOk(PutRecord(db, r, record))
  {}

  lemma PutKeepsJob(db: Db, r: RunId, record: RunRecord)
    requires db.job.Some? && JobOk(db) && !db.job.value.status.Terminal()
    ensures JobOk(PutRecord(db, r, record))
  {
    assert r in PutRecord(db, r, record).runs.Keys;
  }

  lemma PutEvolves(db: Db, r: RunId, record: RunRecord)
    requires db.job.Some? && !db.job.value.status.Terminal()
    requires r in db.runs ==> RecordEvolves(db.runs[r], record)
    ensures Evolves(db, PutRecord(db, r, record))
  {}

  /** Overwrite an open run; a synthesis run must not end in a status that needs a result. */
  lemma PutRecordLegal(db: Db, r: RunId, record: RunRecord)
    requires Inv(db) && db.job.Some? && !db.job.value.status.Terminal() && r in db.runs
    requires !db.runs[r].run.status.Terminal()
    requires RecordOk(record, db.job.value.epoch) && RecordEvolves(db.runs[r], record)
    requires record.run.status.Waiting() ==> DedupeKey(record.run.provider, r, record.run.generation + 1) in db.outbox
    requires LastKey(db.runs[r].run) <= LastKey(record.run)
    requires record.run.provider.Synthesis? ==> !record.run.status.Terminal() || record.run.status.Cancelled?
    ensures Legal(db, PutRecord(db, r, record))
  {
    PutKeepsRuns(db, r, record);
    PutKeepsEvidence(db, r, record);
    PutKeepsSynthesis(db, r, record);
    PutKeepsHandoff(db, r, record);
    PutKeepsJob(db, r, record);
    PutEvolves(db, r, record);
  }

  /** Record the payload of a run that ended with its current lease. */
  lemma AcceptLegal(db: Db, lease: Lease, payload: Payload)
    requires Inv(db) && db.job.Some? && !db.job.value.status.Terminal()
    requires lease.run in db.runs && db.runs[lease.run].run.status.Terminal()
    requires db.runs[lease.run].run.generation == lease.generation && db.runs[lease.run].run.epoch == lease.epoch
    requires forall i | 0 <= i < |db.evidence| :: db.evidence[i].run != lease.run
    ensures Legal(db, Accept(db, lease, payload))
  {
    AcceptKeepsEvidence(db, lease, payload);
    hide EvidenceOk, RecordOk, Cites, Numbered;
  }

  lemma AcceptKeepsEvidence(db: Db, lease: Lease, payload: Payload)
    requires EvidenceOk(db) && lease.run in db.runs && db.runs[lease.run].run.status.Terminal()
    requires db.runs[lease.run].run.generation == lease.generation && db.runs[lease.run].run.epoch == lease.epoch
    requires forall i | 0 <= i < |db.evidence| :: db.evidence[i].run != lease.run
    ensures EvidenceOk(Accept(db, lease, payload))
  {
    var after := Accept(db, lease, payload);
    forall i | 0 <= i < |after.evidence|
      ensures Cites(after, after.evidence[i])
    {
      if i < |db.evidence| {
        assert Cites(db, db.evidence[i]);
      }
    }
  }

  /** An open run has contributed no payload. */
  lemma OpenRunHasNoEvidence(db: Db, r: RunId)
    requires Inv(db) && db.job.Some? && r in db.runs && !db.runs[r].run.status.Terminal()
    ensures forall i | 0 <= i < |db.evidence| :: db.evidence[i].run != r
  {
    forall i | 0 <= i < |db.evidence|
      ensures db.evidence[i].run != r
    {
      assert Cites(db, db.evidence[i]);
    }
  }

  /** End a synthesis run together with its result row. */
  lemma EndSynthesisLegal(db: Db, r: RunId, record: RunRecord, result: SynthesisResult)
    requires Inv(db) && db.job.Some? && !db.job.value.status.Terminal() && r in db.runs
    requires db.runs[r].run.provider.Synthesis? && !db.runs[r].run.status.Terminal()
    requires RecordOk(record, db.job.value.epoch) && RecordEvolves(db.runs[r], record)
    requires record.run.status.Terminal() && !record.run.status.Cancelled?
    requires result.status == record.run.status && (result.output.Some? <==> result.status.Success?)
    requires LastKey(db.runs[r].run) <= LastKey(record.run)
    ensures r !in db.results
    ensures Legal(db, InsertResult(PutRecord(db, r, record), r, result))
  {
    PutKeepsRuns(db, r, record);
    PutKeepsEvidence(db, r, record);
    PutKeepsHandoff(db, r, record);
    PutKeepsJob(db, r, record);
    PutEvolves(db, r, record);
    ResultKeepsSynthesis(db, r, record, result);
    var put := PutRecord(db, r, record);
    assert forall i | 0 <= i < |put.evidence| :: Cites(put, put.evidence[i]);
    InsertResultLegal(db, put, r, result);
  }

  lemma ResultKeepsSynthesis(db: Db, r: RunId, record: RunRecord, result: SynthesisResult)
    requires db.job.Some? && SynthesisOk(db)
    requires r in db.runs ==> db.runs[r].run.provider.Synthesis? && !db.runs[r].run.status.Terminal()
    requires r !in db.runs ==> !HasProvider(db.runs, Synthesis) && db.job.value.mode.Deep?
    requires record.run.provider.Synthesis? && record.run.status.Terminal() && !record.run.status.Cancelled?
    requires result.status == record.run.status && (result.output.Some? <==> result.status.Success?)
    ensures db.results.Keys == {}
    ensures SynthesisOk(InsertResult(PutRecord(db, r, record), r, result))
  {
    assert db.results.Keys == {};
  }

  lemma InsertResultLegal(db: Db, put: Db, r: RunId, result: SynthesisResult)
    requires !db.job.None? && !db.uniqueViolation && !db.tombstone && db.results.Keys == {}
    requires put == db.(runs := put.runs)
    requires RunsOk(put) && EvidenceOk(put) && HandoffOk(put) && JobOk(put) && EventsOk(db) && Evolves(db, put)
    requires SynthesisOk(InsertResult(put, r, result)) && !db.job.value.status.Terminal()
    ensures Legal(db, InsertResult(put, r, result))
  {
    var after := InsertResult(put, r, result);
    forall i | 0 <= i < |after.evidence|
      ensures Cites(after, after.evidence[i])
    {
      assert Cites(put, put.evidence[i]);
    }
  }

  lemma EnqueueKeepsHandoff(db: Db, r: RunId, record: RunRecord)
    requires HandoffOk(db)
    requires record.run.status.Waiting()
    requires r in db.runs ==> record.run.provider == db.runs[r].run.provider && LastKey(db.runs[r].run) == record.run.generation
    requires r !in db.runs ==> record.run.generation == 0
    ensures DedupeKey(record.run.provider, r, record.run.generation + 1) !in db.outbox
    ensures HandoffOk(Enqueue(PutRecord(db, r, record), DedupeKey(record.run.provider, r, record.run.generation + 1)))
  {
    hide Enqueue, PutRecord, LastKey;
    var key := DedupeKey(record.run.provider, r, record.run.generation + 1);
    EnqueuedKeysOk(db, r, record, key);
    WaitingHaveMessages(db, r, record, key);
  }

  lemma WaitingHaveMessages(db: Db, r: RunId, record: RunRecord, key: DedupeKey)
    requires HandoffOk(db) && key == DedupeKey(record.run.provider, r, record.run.generation + 1)
    ensures var after := Enqueue(PutRecord(db, r, record), key);
      forall q | q in after.runs && after.runs[q].run.status.Waiting() ::
        DedupeKey(after.runs[q].run.provider, q, after.runs[q].run.generation + 1) in after.outbox
  {
    hide LastKey;
  }

  lemma EnqueuedKeysOk(db: Db, r: RunId, record: RunRecord, key: DedupeKey)
    requires HandoffOk(db)
    requires record.run.status.Waiting() && key == DedupeKey(record.run.provider, r, record.run.generation + 1)
    requires r in db.runs ==> record.run.provider == db.runs[r].run.provider && LastKey(db.runs[r].run) == record.run.generation
    requires r !in db.runs ==> record.run.generation == 0
    ensures key !in db.outbox
    ensures var after := Enqueue(PutRecord(db, r, record), key);
            forall k | k in after.outbox ::
              && k.run in after.runs
              && k.provider == after.runs[k.run].run.provider
              && 1 <= k.generation <= LastKey(after.runs[k.run].run)
  {
    assert key !in db.outbox;
    var after := Enqueue(PutRecord(db, r, record), key);
    assert forall k | k in after.outbox :: k == key || k in db.outbox;
  }

  /** Put a run back into the queue of workers, or insert a new one, with its message. */
  lemma EnqueueLegal(db: Db, r: RunId, record: RunRecord)
    requires Inv(db) && db.job.Some? && !db.job.value.status.Terminal()
    requires RecordOk(record, db.job.value.epoch) && record.run.status.Waiting()
    requires r in db.runs ==> !db.runs[r].run.status.Terminal() && RecordEvolves(db.runs[r], record)
    requires r in db.runs ==> db.runs[r].run.status.Running? && LastKey(db.runs[r].run) == record.run.generation
    requires r !in db.runs ==> record.run.generation == 0
    requires r !in db.runs && record.run.provider.Synthesis? ==> !HasProvider(db.runs, Synthesis) && db.job.value.mode.Deep?
    ensures Legal(db, Enqueue(PutRecord(db, r, record), DedupeKey(record.run.provider, r, record.run.generation + 1)))
  {
    PutKeepsRuns(db, r, record);
    PutKeepsEvidence(db, r, record);
    PutKeepsSynthesis(db, r, record);
    PutKeepsJob(db, r, record);
    PutEvolves(db, r, record);
    EnqueueKeepsHandoff(db, r, record);
    EnqueuedLegal(db, PutRecord(db, r, record), DedupeKey(record.run.provider, r, record.run.generation + 1));
  }

  lemma EnqueuedLegal(db: Db, put: Db, key: DedupeKey)
    requires !db.job.None? && !db.uniqueViolation && !db.tombstone && key !in db.outbox
    requires put == db.(runs := put.runs)
    requires RunsOk(put) && EvidenceOk(put) && SynthesisOk(put) && JobOk(put) && EventsOk(db) && Evolves(db, put)
    requires HandoffOk(Enqueue(put, key)) && !db.job.value.status.Terminal()
    ensures Legal(db, Enqueue(put, key))
  {
    var after := Enqueue(put, key);
    forall i | 0 <= i < |after.evidence|
      ensures Cites(after, after.evidence[i])
    {
      assert Cites(put, put.evidence[i]);
    }
  }
}
