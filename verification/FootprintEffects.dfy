/** What each transaction achieves for the run or the job it is about, stated as a relation
    between the rows before and after. */
module FootprintEffects {
  import opened Wrappers
  import opened FootprintModel
  import opened FootprintTransactions
  import opened FootprintInvariant
  import opened FootprintSafety

  // ---------- The rest of the rows ----------

  /** Every run there was is unchanged, except possibly `r`. */
  predicate OthersSame(before: Db, after: Db, r: RunId) {
    forall q | q in before.runs && q != r :: q in after.runs && after.runs[q] == before.runs[q]
  }

  /** New runs may have appeared, with messages and results of their own; what belongs to the
      old ones is unchanged, and so is the anchor. */
  predicate RunsKept(before: Db, after: Db) {
    && before.job.Some? && after.job.Some? && after.job.value.anchor == before.job.value.anchor
    && (forall q | q in before.results && q in before.runs :: q in after.results && after.results[q] == before.results[q])
    && before.events <= after.events
    && (forall q | q in before.runs :: q in after.runs && after.runs[q] == before.runs[q])
    && (forall k | k in after.outbox && k.run in before.runs :: k in before.outbox)
    && (forall k | k in before.outbox :: k in after.outbox)
  }

  lemma {:induction false} WaveKeepsRuns(db: Db, wave: seq<PlannedRun>)
    requires db.job.Some? && forall p | p in wave :: p.id !in db.runs
    ensures RunsKept(db, AddWave(db, wave))
  {
    if wave != [] {
      var rest := wave[..|wave| - 1];
      assert forall p | p in rest :: p in wave;
      assert wave[|wave| - 1] in wave;
      WaveKeepsRuns(db, rest);
    }
  }

  lemma SearchKeepsRuns(db: Db, now: Time, f: FollowUp)
    requires db.job.Some? && forall p | p in f.wave :: p.id !in db.runs
    ensures var (after, wave) := ScheduleProfessional(db, now, f);
      after.job.Some? && RunsKept(db, after) && (!wave ==> after.runs == db.runs && after.outbox == db.outbox && after.results == db.results)
  {
    hide ProfessionalReady, NeedsAnchor, RequireAnchor, StartWave, RunsKept;
    KeptReflexive(db);
    AskingKeepsRuns(db);
    StartKeepsRuns(db, f);
  }

  lemma AskingKeepsRuns(db: Db)
    requires db.job.Some?
    ensures var after := RequireAnchor(db);
      after.job.Some? && RunsKept(db, after) && after.runs == db.runs && after.outbox == db.outbox && after.results == db.results
  {
    hide MaxSequence;
  }

  lemma StartKeepsRuns(db: Db, f: FollowUp)
    requires db.job.Some? && forall p | p in f.wave :: p.id !in db.runs
    ensures StartWave(db, f).job.Some? && RunsKept(db, StartWave(db, f))
  {
    hide MaxSequence, AddWave;
    WaveKeepsRuns(db, f.wave);
  }

  lemma NarrativeKeepsRuns(db: Db, f: FollowUp)
    requires db.job.Some? && f.synthesisId !in db.runs
    ensures ScheduleSynthesis(db, f).0.job.Some? && RunsKept(db, ScheduleSynthesis(db, f).0)
  {
    hide SynthesisReady, MaxSequence;
  }

  lemma FinalizerKeepsRuns(db: Db, now: Time, f: FollowUp)
    requires db.job.Some?
    ensures RunsKept(db, FinalizeFootprint(db, now, f).0)
  {
    hide FinalizerReady, Verdict, MaxSequence;
  }

  lemma ExpiryKeepsRuns(db: Db, now: Time)
    requires db.job.Some?
    ensures ExpireAnchor(db, now).job.Some? && RunsKept(db, ExpireAnchor(db, now)) && ExpireAnchor(db, now).runs == db.runs
  {
    hide AnchorOpen, MaxSequence;
  }

  lemma FreshIds(f: FollowUp, used: set<RunId>)
    requires f.Fresh(used)
    ensures f.synthesisId !in used && forall p | p in f.wave :: p.id !in used
  {
    assert forall p | p in f.wave :: p.id in f.NewIds();
    assert f.synthesisId in f.NewIds();
  }

  /** Advancing a job changes none of its existing runs and queues nothing for them. */
  lemma AdvanceKeepsRuns(db: Db, now: Time, f: FollowUp)
    requires db.job.Some? && f.Fresh(db.runs.Keys)
    ensures RunsKept(db, FinalizeDiscovery(db, now, f).0)
  {
    hide ScheduleProfessional, ScheduleSynthesis, FinalizeFootprint, ExpireAnchor, AnchorOpen, RunsKept;
    KeptReflexive(db);
    FreshIds(f, db.runs.Keys);
    ExpiryKeepsRuns(db, now);
    var expired := ExpireAnchor(db, now);
    SearchKeepsRuns(expired, now, f);
    var (searched, wave) := ScheduleProfessional(expired, now, f);
    KeptTransitive(db, expired, searched);
    if !wave {
      NarrativeKeepsRuns(searched, f);
      var composed := ScheduleSynthesis(searched, f).0;
      KeptTransitive(db, searched, composed);
      FinalizerKeepsRuns(composed, now, f);
      KeptTransitive(db, composed, FinalizeFootprint(composed, now, f).0);
    }
  }

  lemma KeptReflexive(db: Db)
    requires db.job.Some?
    ensures RunsKept(db, db)
  {}

  lemma KeptTransitive(a: Db, b: Db, c: Db)
    requires RunsKept(a, b) && RunsKept(b, c)
    ensures RunsKept(a, c)
  {}

  // ---------- Leasing ----------

  predicate Live(db: Db) {
    db.job.Some? && !db.tombstone && db.job.value.status in {Queued, Discovering}
  }

  /** A run of this kind waits for a worker, in a job that is live. */
  predicate WaitsFor(db: Db, r: RunId, provider: Provider) {
    Live(db) && r in db.runs && db.runs[r].run.provider == provider && db.runs[r].run.status in {Pending, RetryScheduled}
  }

  predicate IsPast(deadline: Option<Time>, now: Time) {
    deadline.Some? && now >= deadline.value
  }

  /** Nothing changed, except that a waiting run that is no longer wanted is cancelled. */
  predicate Dropped(before: Db, after: Db, r: RunId, provider: Provider) {
    && after == before.(runs := after.runs) && after.runs.Keys == before.runs.Keys && OthersSame(before, after, r)
    && (r in before.runs ==>
          && after.runs[r].attempts == before.runs[r].attempts
          && after.runs[r].run ==
               if before.runs[r].run.provider == provider && before.runs[r].run.status in {Pending, RetryScheduled}
               then before.runs[r].run.(status := Cancelled, leaseExpiresAt := None)
               else before.runs[r].run)
  }

  /** `r` is running under its next generation, with an open attempt for it. */
  predicate Taken(before: Db, after: Db, r: RunId, now: Time, seconds: Time)
    requires r in before.runs && before.job.Some?
  {
    && after.runs.Keys == before.runs.Keys && OthersSame(before, after, r)
    && after.evidence == before.evidence && after.results == before.results && after.outbox == before.outbox
    && after.job.Some? && after.job.value.epoch == before.job.value.epoch && !after.job.value.status.Queued?
    && var was, got := before.runs[r], after.runs[r];
       && was.run.status.Waiting()
       && got.run.status.Running?
       && got.run.generation == was.run.generation + 1
       && got.run.leaseExpiresAt == Some(now + seconds)
       && got.run.epoch == before.job.value.epoch
       && got.attempts == was.attempts + [Attempt(was.run.generation + 1, InProgress, None, None)]
       && (got.scan.Some? ==> got.scan.value.status.Running? && got.scan.value.startedAt == Some(now))
  }

  lemma WaitsForIs(db: Db, r: RunId, provider: Provider)
    ensures WaitsFor(db, r, provider) <==> Leasable(db, r, provider) && !JobClosed(db)
    ensures Leasable(db, r, provider) ==> r in db.runs && db.runs[r].run.provider == provider && db.runs[r].run.status.Waiting()
    ensures !JobClosed(db) ==> db.job.Some? && !db.job.value.status.Terminal()
  {}

  lemma DroppedIs(db: Db, r: RunId, provider: Provider)
    ensures Leasable(db, r, provider) ==> Dropped(db, PutRecord(db, r, DropRun(db.runs[r])), r, provider)
    ensures !Leasable(db, r, provider) ==> Dropped(db, db, r, provider)
  {}

  /** Marking the job as started after a run was leased keeps the lease owned. */
  lemma TakenIs(db: Db, r: RunId, now: Time, seconds: Time, provider: Provider)
    requires WaitsFor(db, r, provider)
    ensures var leased := PutRecord(db, r, TakeLease(db.runs[r], db.job.value, now, seconds));
      var lease := Lease(r, db.runs[r].run.generation + 1, db.job.value.epoch);
      && LeaseOf(leased, r) == Some(lease)
      && Taken(db, StartDiscovering(leased), r, now, seconds) && Owns(StartDiscovering(leased), lease)
      && Taken(db, StartLateWorker(leased), r, now, seconds) && Owns(StartLateWorker(leased), lease)
  {
    hide AddEvent;
  }

  /** A lease is granted exactly to a waiting scan of an open job before its deadline, when
      scanning is enabled and the catalog is there; it names the new generation. Otherwise the
      scan is closed with the status of the first reason. */
  lemma LeaseScanEffect(db: Db, r: RunId, now: Time, config: ScanConfig, f: FollowUp)
    requires db.job.Some? && f.Fresh(db.runs.Keys)
    ensures var (after, lease) := LeaseScan(db, r, now, config, f);
      && (lease.Some? <==>
            WaitsFor(db, r, Maigret) && !IsPast(db.runs[r].run.deadline, now) && config.enabled && config.catalogPresent)
      && (lease.Some? ==>
            && Taken(db, after, r, now, config.leaseSeconds)
            && lease.value == Lease(r, db.runs[r].run.generation + 1, db.job.value.epoch)
            && Owns(after, lease.value))
      && (lease.None? && WaitsFor(db, r, Maigret) ==>
            && r in after.runs && OthersSame(db, after, r)
            && after.runs[r].attempts == db.runs[r].attempts
            && after.runs[r].run.leaseExpiresAt.None?
            && after.runs[r].run.status ==
                 if IsPast(db.runs[r].run.deadline, now) then ClosedAtCutoff
                 else if !config.enabled then Cancelled
                 else ProviderError)
      && (lease.None? && !WaitsFor(db, r, Maigret) ==> Dropped(db, after, r, Maigret))
  {
    hide FinalizeDiscovery, WaitsFor, Leasable, JobClosed, Taken, Owns, Dropped, StartDiscovering, TakeLease, DropRun, LeaseOf;
    WaitsForIs(db, r, Maigret);
    DroppedIs(db, r, Maigret);
    if WaitsFor(db, r, Maigret) {
      TakenIs(db, r, now, config.leaseSeconds, Maigret);
      if ScanRefusal(db.runs[r].run, now, config).Some? {
        var closed := CloseRun(db.runs[r], ScanRefusal(db.runs[r].run, now, config).value, now);
        AfterAdvance(db, PutRecord(db, r, closed), r, closed, now, f);
      }
    }
  }

  lemma LeaseProfessionalEffect(db: Db, r: RunId, now: Time, seconds: Time, f: FollowUp)
    requires db.job.Some? && f.Fresh(db.runs.Keys)
    ensures var (after, lease) := LeaseProfessional(db, r, now, seconds, f);
      && (lease.Some? <==>
            WaitsFor(db, r, Professional) && !IsPast(db.runs[r].run.deadline, now))
      && (lease.Some? ==>
            && Taken(db, after, r, now, seconds)
            && lease.value == Lease(r, db.runs[r].run.generation + 1, db.job.value.epoch)
            && Owns(after, lease.value))
      && (lease.None? && WaitsFor(db, r, Professional) ==>
            && r in after.runs && OthersSame(db, after, r)
            && after.runs[r].attempts == db.runs[r].attempts
            && after.runs[r].run.status.ClosedAtCutoff? && after.runs[r].run.leaseExpiresAt.None?)
      && (lease.None? && !WaitsFor(db, r, Professional) ==> Dropped(db, after, r, Professional))
  {
    hide FinalizeDiscovery, WaitsFor, Leasable, JobClosed, Taken, Owns, Dropped, StartLateWorker, TakeLease, DropRun, LeaseOf;
    WaitsForIs(db, r, Professional);
    DroppedIs(db, r, Professional);
    if WaitsFor(db, r, Professional) {
      TakenIs(db, r, now, seconds, Professional);
      if IsPast(db.runs[r].run.deadline, now) {
        var closed := CloseRun(db.runs[r], ClosedAtCutoff, now);
        AfterAdvance(db, PutRecord(db, r, closed), r, closed, now, f);
      }
    }
  }

  lemma LeaseSynthesisEffect(db: Db, r: RunId, now: Time, seconds: Time)
    requires db.job.Some?
    ensures var (after, lease) := LeaseSynthesis(db, r, now, seconds);
      && (lease.Some? <==> WaitsFor(db, r, Synthesis) && db.job.value.mode.Deep?)
      && (lease.Some? ==>
            && Taken(db, after, r, now, seconds)
            && lease.value == Lease(r, db.runs[r].run.generation + 1, db.job.value.epoch)
            && Owns(after, lease.value))
      && (lease.None? ==> Dropped(db, after, r, Synthesis))
  {
    hide WaitsFor, Leasable, JobClosed, Taken, Owns, Dropped, StartLateWorker, TakeLease, DropRun, LeaseOf;
    WaitsForIs(db, r, Synthesis);
    DroppedIs(db, r, Synthesis);
    if WaitsFor(db, r, Synthesis) {
      TakenIs(db, r, now, seconds, Synthesis);
    }
  }

  // ---------- Completing ----------

  /** `r` ended in `status`; its last attempt ended with it, and the earlier ones are unchanged. */
  predicate EndedWith(before: RunRecord, after: RunRecord, now: Time, status: RunStatus, ended: AttemptStatus,
                      disposition: Disposition)
  {
    && after.run.status == status && after.run.leaseExpiresAt.None?
    && after.run.generation == before.run.generation && after.run.epoch == before.run.epoch
    && |after.attempts| == |before.attempts| > 0
    && var last := |before.attempts| - 1;
       && after.attempts == before.attempts[last := after.attempts[last]]
       && after.attempts[last] == Attempt(before.attempts[last].generation, ended, Some(now), Some(disposition))
  }

  lemma {:induction false} LedgerFindsLast(attempts: seq<Attempt>, first: nat)
    requires attempts != [] && forall i | 0 <= i < |attempts| :: attempts[i].generation == first + i
    ensures FindAttempt(attempts, first + |attempts| - 1) == Some(|attempts| - 1)
  {
    if |attempts| > 1 {
      LedgerFindsLast(attempts[1..], first + 1);
    }
  }

  lemma CloseAttemptEffect(record: RunRecord, now: Time, ended: AttemptStatus, disposition: Disposition)
    requires Ledger(record) && record.run.generation > 0
    ensures var last := |record.attempts| - 1;
      CloseAttempt(record.attempts, record.run.generation, now, ended, disposition) ==
        record.attempts[last := Attempt(record.attempts[last].generation, ended, Some(now), Some(disposition))]
  {
    LedgerFindsLast(record.attempts, 1);
  }

  lemma FinishEffect(record: RunRecord, now: Time, status: RunStatus, disposition: Disposition, count: nat)
    requires Ledger(record) && record.run.generation > 0
    ensures EndedWith(record, FinishRun(record, record.run.generation, now, status, disposition, count), now, status,
                      Ended(status), disposition)
    ensures FinishRun(record, record.run.generation, now, status, disposition, count).run.resultCount == count
    ensures FinishRun(record, record.run.generation, now, status, disposition, count).run.status == status
  {
    CloseAttemptEffect(record, now, Ended(status), disposition);
    hide CloseAttempt, Ledger;
  }

  predicate Accepted(before: Db, after: Db, lease: Lease, payload: Payload) {
    after.evidence == before.evidence + [Acceptance(lease.run, lease.generation, lease.epoch, payload)]
  }

  /** A scan that is still owned ends as its outcome says, and its payload is accepted exactly
      when it was saved. */
  lemma CompleteScanEffect(db: Db, lease: Lease, now: Time, outcome: ScanOutcome)
    requires Inv(db) && Owns(db, lease) && db.runs[lease.run].run.provider.Maigret?
    ensures var after := CompleteScan(db, lease, now, outcome);
      && lease.run in after.runs && OthersSame(db, after, lease.run) && after.runs.Keys == db.runs.Keys
      && after.job == db.job && after.outbox == db.outbox && after.results == db.results
      && var was, got := db.runs[lease.run], after.runs[lease.run];
         match outcome
         case ScanFailed =>
           && EndedWith(was, got, now, ProviderError, Ended(ProviderError), InBudget)
           && after.evidence == db.evidence && after.events == db.events
         case ScanUnsaved =>
           && EndedWith(was, got, now, ProviderError, Ended(ProviderError), PayloadDiscardedPolicy)
           && got.run.resultCount == 0 && after.evidence == db.evidence
           && after.events == db.events + [Event(|db.events| + 1, CatalogProgress, false)]
         case ScanSaved(status, payload, found, newAccounts) =>
           && EndedWith(was, got, now, status, Ended(status), if status.Cancelled? then PartialPreserved else InBudget)
           && got.run.resultCount == found && Accepted(db, after, lease, payload)
           && after.events ==
              db.events + Discoveries(|db.events|, newAccounts) + [Event(|db.events| + newAccounts + 1, CatalogProgress, false)]
  {
    hide Inv, FinishRun, AddEvents, AddEvent, EndedWith, Ledger, Discoveries;
    OwnedScan(db, lease);
    OwnedRun(db, lease);
    NumberedEvents(db);
    var record := db.runs[lease.run];
    match outcome
    case ScanFailed => FinishEffect(record, now, ProviderError, InBudget, record.run.resultCount);
    case ScanUnsaved =>
      FinishEffect(record, now, ProviderError, PayloadDiscardedPolicy, 0);
      DiscoveriesLogged(db.events, 0);
    case ScanSaved(status, payload, found, newAccounts) =>
      DiscoveriesLogged(db.events, newAccounts);
      FinishEffect(record, now, status, if status.Cancelled? then PartialPreserved else InBudget, found);
  }

  /** One event for each new account, numbered on from `last`. */
  function Discoveries(last: nat, count: nat): seq<Event> {
    seq(count, i requires 0 <= i < count => Event(last + i + 1, CandidateDiscovered, false))
  }

  lemma NumberedEvents(db: Db)
    requires Inv(db) && db.job.Some?
    ensures Numbered(db.events)
  {}

  lemma {:induction false} DiscoveriesLogged(events: seq<Event>, count: nat)
    requires Numbered(events)
    ensures AddEvents(events, CandidateDiscovered, count) == events + Discoveries(|events|, count)
    ensures Numbered(events + Discoveries(|events|, count))
    ensures AddEvent(events, CatalogProgress, false) == events + [Event(|events| + 1, CatalogProgress, false)]
    ensures AddEvent(AddEvents(events, CandidateDiscovered, count), CatalogProgress, false) ==
      events + Discoveries(|events|, count) + [Event(|events| + count + 1, CatalogProgress, false)]
  {
    hide MaxSequence;
    if count > 0 {
      DiscoveriesLogged(events, count - 1);
      MaxSequenceIsLength(events + Discoveries(|events|, count - 1));
      assert Discoveries(|events|, count) ==
        Discoveries(|events|, count - 1) + [Event(|events| + count, CandidateDiscovered, false)];
    }
    MaxSequenceIsLength(events);
    MaxSequenceIsLength(events + Discoveries(|events|, count));
  }

  lemma OwnedScan(db: Db, lease: Lease)
    requires Inv(db) && Owns(db, lease) && db.runs[lease.run].run.provider.Maigret?
    ensures db.runs[lease.run].scan.Some?
  {
    RecordInvariant(db, lease.run);
    hide Inv, Ledger;
  }

  lemma OwnedRun(db: Db, lease: Lease)
    requires Inv(db) && Current(db, lease)
    ensures lease.run in db.runs && Ledger(db.runs[lease.run])
    ensures 0 < db.runs[lease.run].run.generation == lease.generation
  {
    RecordInvariant(db, lease.run);
    LedgerOf(db.runs[lease.run], db.job.value.epoch);
    hide Inv, RecordOk, Ledger;
  }

  lemma LedgerOf(record: RunRecord, epoch: nat)
    requires RecordOk(record, epoch) && record.run.status.Running?
    ensures Ledger(record) && record.run.generation > 0
  {
    hide Ledger;
  }

  const SEARCH_STATUSES: set<RunStatus> :=
    {Success, PartialSuccess, NoResult, TimedOut, RateLimited, AuthRequired, ProviderError, InvalidResponse, SkippedConfiguration, Cancelled}

  /** What a search is recorded as: whether the database took all of its profiles decides first. */
  predicate SearchRecorded(outcome: SearchOutcome, status: RunStatus) {
    && (0 == outcome.accepted < outcome.profiles ==> status == InvalidResponse)
    && (0 < outcome.accepted < outcome.profiles ==> status == PartialSuccess)
    && (outcome.accepted >= outcome.profiles && outcome.status in SEARCH_STATUSES ==> status == outcome.status)
    && (outcome.accepted >= outcome.profiles && outcome.status !in SEARCH_STATUSES ==> status == ProviderError)
  }

  lemma SearchIsRecorded(outcome: SearchOutcome)
    ensures SearchRecorded(outcome, SearchStatus(outcome))
  {}

  /** A professional search that is still owned ends as its outcome says, unless its deadline
      passed: then it is closed and its payload discarded. */
  lemma CompleteProfessionalEffect(db: Db, lease: Lease, now: Time, outcome: SearchOutcome, f: FollowUp)
    requires Inv(db) && Owns(db, lease) && f.Fresh(db.runs.Keys)
    ensures var after := CompleteProfessional(db, lease, now, outcome, f);
      && lease.run in after.runs && OthersSame(db, after, lease.run)
      && var was, got := db.runs[lease.run], after.runs[lease.run];
         if IsPast(was.run.deadline, now) then
           && EndedWith(was, got, now, ClosedAtCutoff, Ended(ClosedAtCutoff), LatePayloadDiscarded)
           && got.run.resultCount == 0 && after.evidence == db.evidence
         else
           var status := got.run.status;
           && SearchRecorded(outcome, status)
           && EndedWith(was, got, now, status, Ended(status), if status.PartialSuccess? then PartialPreserved else InBudget)
           && got.run.resultCount == outcome.accepted && Accepted(db, after, lease, outcome.payload)
  {
    SearchIsRecorded(outcome);
    hide Inv, FinishRun, AddEvents, AddEvent, EndedWith, FinalizeDiscovery, SearchStatus, SearchRecorded, Ledger, OthersSame;
    OwnedRun(db, lease);
    var record := db.runs[lease.run];
    if IsPast(record.run.deadline, now) {
      var late := FinishRun(record, lease.generation, now, ClosedAtCutoff, LatePayloadDiscarded, 0);
      FinishEffect(record, now, ClosedAtCutoff, LatePayloadDiscarded, 0);
      AfterAdvance(db, LogEvent(PutRecord(db, lease.run, late), ProfessionalProgress), lease.run, late, now, f);
    } else {
      var status := SearchStatus(outcome);
      var disposition := if status.PartialSuccess? then PartialPreserved else InBudget;
      FinishEffect(record, now, status, disposition, outcome.accepted);
      var saved := Accept(db, lease, outcome.payload);
      var finished := FinishRun(record, lease.generation, now, status, disposition, outcome.accepted);
      AfterAdvance(
        db,
        LogEvent(PutRecord(saved.(events := AddEvents(saved.events, CandidateDiscovered, outcome.newAccounts)), lease.run, finished),
                 ProfessionalProgress),
        lease.run, finished, now, f);
    }
  }

  /** Advancing a job after one of its runs was changed changes that run no further, nor others. */
  lemma AfterAdvance(db: Db, done: Db, r: RunId, record: RunRecord, now: Time, f: FollowUp)
    requires r in db.runs && done.runs == db.runs[r := record] && done.job.Some? && f.Fresh(db.runs.Keys)
    ensures var after := FinalizeDiscovery(done, now, f).0;
      && r in after.runs && after.runs[r] == record && OthersSame(db, after, r) && after.evidence == done.evidence
      && (r in done.results ==> r in after.results && after.results[r] == done.results[r])
  {
    hide FinalizeDiscovery;
    assert done.runs.Keys == db.runs.Keys;
    AdvanceKeepsRuns(done, now, f);
    FinalizeDiscoveryGrows(done, now, f);
  }

  const SYNTHESIS_STATUSES: set<RunStatus> :=
    {NoResult, SkippedConfiguration, TimedOut, RateLimited, AuthRequired, ProviderError, InvalidResponse}

  /** What a synthesis is recorded as: a success needs its output, and an unknown status is an error. */
  predicate SynthesisRecorded(outcome: SynthesisOutcome, status: RunStatus) {
    && (outcome.status == Success && outcome.output != None ==> status == Success)
    && (outcome.status == Success && outcome.output == None ==> status == InvalidResponse)
    && (outcome.status in SYNTHESIS_STATUSES ==> status == outcome.status)
    && (outcome.status !in SYNTHESIS_STATUSES + {Success} ==> status == ProviderError)
  }

  /** A synthesis that is still owned ends as its outcome says, and its job's result row repeats
      the status and holds the output exactly on success. */
  lemma CompleteSynthesisEffect(db: Db, lease: Lease, now: Time, outcome: SynthesisOutcome, f: FollowUp)
    requires Inv(db) && Owns(db, lease) && f.Fresh(db.runs.Keys)
    ensures var after := CompleteSynthesis(db, lease, now, outcome, f);
      && lease.run in after.runs && OthersSame(db, after, lease.run)
      && var status := after.runs[lease.run].run.status;
      && SynthesisRecorded(outcome, status)
      && EndedWith(db.runs[lease.run], after.runs[lease.run], now, status, Ended(status), InBudget)
      && after.runs[lease.run].run.resultCount == (if status.Success? then 1 else 0)
      && lease.run in after.results
      && after.results[lease.run] == SynthesisResult(status, if status.Success? then outcome.output else None)
      && (status.Success? ==> outcome.output.Some? && Accepted(db, after, lease, outcome.output.value))
      && (!status.Success? ==> after.evidence == db.evidence)
  {
    SynthesisIsRecorded(outcome);
    hide Inv, FinishRun, AddEvent, EndedWith, FinalizeDiscovery, SynthesisStatus, SynthesisRecorded, Ledger, OthersSame;
    OwnedJobIsLive(db, lease);
    OwnedRun(db, lease);
    var status := SynthesisStatus(outcome);
    var output := if status.Success? then outcome.output else None;
    var finished := FinishRun(db.runs[lease.run], lease.generation, now, status, InBudget, if output.Some? then 1 else 0);
    FinishEffect(db.runs[lease.run], now, status, InBudget, if output.Some? then 1 else 0);
    var stored := UpsertResult(db, lease.run, SynthesisResult(status, output));
    var accepted := if output.Some? then Accept(stored, lease, output.value) else stored;
    AfterAdvance(db, LogEvent(PutRecord(accepted, lease.run, finished), SynthesisProgress), lease.run, finished, now, f);
  }

  lemma SynthesisIsRecorded(outcome: SynthesisOutcome)
    ensures SynthesisRecorded(outcome, SynthesisStatus(outcome))
    ensures SynthesisStatus(outcome).Success? ==> outcome.output.Some?
  {}

  lemma OwnedJobIsLive(db: Db, lease: Lease)
    requires Inv(db) && Owns(db, lease)
    ensures Live(db)
  {
    hide RunsOk, HandoffOk, SynthesisOk, EvidenceOk, EventsOk;
    assert AllTerminal(db.runs) ==> db.runs[lease.run].run.status.Terminal();
  }

  /** Renewing moves the expiry of an owned run and nothing else. */
  lemma RenewLeaseEffect(db: Db, lease: Lease, now: Time, seconds: Time)
    ensures var (after, owned) := RenewLease(db, lease, now, seconds);
      && (owned <==> Owns(db, lease) && Live(db))
      && (!owned ==> after == db)
      && (owned ==>
            && after == db.(runs := after.runs) && after.runs.Keys == db.runs.Keys && OthersSame(db, after, lease.run)
            && after.runs[lease.run] ==
                 db.runs[lease.run].(run := db.runs[lease.run].run.(leaseExpiresAt := Some(now + seconds))))
  {}

  // ---------- Maintenance ----------

  /** An expired lease is fenced in one of three ways; the attempt is abandoned in all of them,
      and a run is handed to a new generation only when its call may be repeated in time. */
  lemma ReclaimEffect(db: Db, r: RunId, now: Time, f: FollowUp)
    requires Inv(db) && db.job.Some? && f.Fresh(db.runs.Keys)
    ensures var after := Reclaim(db, r, now, f);
      if !(r in db.runs && db.runs[r].run.status == Running && IsPast(db.runs[r].run.leaseExpiresAt, now)) then after == db
      else
        && r in after.runs && OthersSame(db, after, r) && after.evidence == db.evidence
        && var was, got := db.runs[r], after.runs[r];
           var once := was.run.provider == Synthesis || (was.run.provider == Professional && was.run.adaptive);
           var again := !IsPast(was.run.deadline, now) && !once;
           var status := if IsPast(was.run.deadline, now) then ClosedAtCutoff
                         else if once then ProviderError
                         else RetryScheduled;
           && EndedWith(was, got, now, status, AbandonedLeaseExpired, LatePayloadDiscarded)
           && (DedupeKey(was.run.provider, r, was.run.generation + 1) in after.outbox <==> again)
           && (again ==> after.job == db.job && after.runs.Keys == db.runs.Keys)
  {
    hide Inv, CloseAttempt, FinalizeDiscovery, Ledger, EndedWith, ReclaimClosed, CloseRun, SetStatus;
    if Reclaimable(db, r, now) {
      RunningRun(db, r);
      var record := db.runs[r];
      AbandonEffect(record, now);
      var abandoned := record.(attempts :=
        CloseAttempt(record.attempts, record.run.generation, now, AbandonedLeaseExpired, LatePayloadDiscarded));
      ReclaimClosedEffect(db, r, CloseRun(abandoned, ClosedAtCutoff, now), now, f);
      ReclaimClosedEffect(db, r, SetStatus(abandoned, ProviderError), now, f);
    }
  }

  lemma RunningRun(db: Db, r: RunId)
    requires Inv(db) && db.job.Some? && r in db.runs && db.runs[r].run.status.Running?
    ensures Ledger(db.runs[r]) && db.runs[r].run.generation > 0
    ensures DedupeKey(db.runs[r].run.provider, r, db.runs[r].run.generation + 1) !in db.outbox
  {
    hide Inv, RecordOk, Ledger;
    RecordInvariant(db, r);
    LedgerOf(db.runs[r], db.job.value.epoch);
    NoNextKey(db, r);
  }

  /** Abandoning the current attempt of a run, then closing the run in one of three ways. */
  lemma AbandonEffect(record: RunRecord, now: Time)
    requires Ledger(record) && record.run.generation > 0
    ensures var abandoned := record.(attempts :=
        CloseAttempt(record.attempts, record.run.generation, now, AbandonedLeaseExpired, LatePayloadDiscarded));
      && EndedWith(record, CloseRun(abandoned, ClosedAtCutoff, now), now, ClosedAtCutoff, AbandonedLeaseExpired, LatePayloadDiscarded)
      && EndedWith(record, SetStatus(abandoned, ProviderError), now, ProviderError, AbandonedLeaseExpired, LatePayloadDiscarded)
      && var again := SetStatus(abandoned, RetryScheduled);
         && EndedWith(record, again, now, RetryScheduled, AbandonedLeaseExpired, LatePayloadDiscarded)
         && forall scan: Option<Scan> ::
              EndedWith(record, again.(scan := scan), now, RetryScheduled, AbandonedLeaseExpired, LatePayloadDiscarded)
  {
    CloseAttemptEffect(record, now, AbandonedLeaseExpired, LatePayloadDiscarded);
    hide CloseAttempt, Ledger;
  }

  lemma NoNextKey(db: Db, r: RunId)
    requires Inv(db) && db.job.Some? && r in db.runs && db.runs[r].run.status.Running?
    ensures DedupeKey(db.runs[r].run.provider, r, db.runs[r].run.generation + 1) !in db.outbox
  {
    hide RunsOk, SynthesisOk, EvidenceOk, EventsOk, JobOk;
  }

  lemma ReclaimClosedEffect(db: Db, r: RunId, closed: RunRecord, now: Time, f: FollowUp)
    requires db.job.Some? && r in db.runs && f.Fresh(db.runs.Keys)
    ensures var after := ReclaimClosed(db, r, closed, now, f);
      && r in after.runs && after.runs[r] == closed && OthersSame(db, after, r) && after.evidence == db.evidence
      && forall k: DedupeKey | k.run == r :: k in after.outbox <==> k in db.outbox
  {
    hide FinalizeDiscovery;
    var stored := PutRecord(db, r, closed);
    var resolved := if closed.run.provider.Synthesis? then PersistFallback(stored, r, closed.run.status) else stored;
    assert resolved.runs.Keys == db.runs.Keys;
    assert f.WithoutSettings().NewIds() == f.NewIds();
    AdvanceKeepsRuns(resolved, now, f.WithoutSettings());
    FinalizeDiscoveryGrows(resolved, now, f.WithoutSettings());
  }

  /** The cutoff ends every unfinished run except syntheses, with the attempt of a running one,
      and leaves every other run alone. */
  lemma CutoffEffect(db: Db, now: Time, f: FollowUp, r: RunId)
    requires Inv(db) && db.job.Some? && !db.job.value.status.Terminal() && f.Fresh(db.runs.Keys) && r in db.runs
    ensures var after := Cutoff(db, now, f);
      && r in after.runs
      && var was, got := db.runs[r], after.runs[r];
         if was.run.status.Terminal() || was.run.provider.Synthesis? then got == was
         else
           && got.run.status.ClosedAtCutoff? && got.run.leaseExpiresAt.None?
           && (was.run.status.Running? ==>
                 EndedWith(was, got, now, ClosedAtCutoff, Ended(ClosedAtCutoff), LatePayloadDiscarded))
           && (!was.run.status.Running? ==> got.attempts == was.attempts)
  {
    hide Inv, CutoffRecord, FinalizeDiscovery, EndedWith;
    var closed := db.(runs := map q | q in db.runs :: CutoffRecord(db.runs[q], now));
    assert closed.runs.Keys == db.runs.Keys;
    AdvanceKeepsRuns(closed, now, f);
    RecordInvariant(db, r);
    CutoffRecordEffect(db.runs[r], db.job.value.epoch, now);
  }

  lemma CutoffRecordEffect(was: RunRecord, epoch: nat, now: Time)
    requires RecordOk(was, epoch)
    ensures var got := CutoffRecord(was, now);
      if was.run.status.Terminal() || was.run.provider.Synthesis? then got == was
      else
        && got.run.status.ClosedAtCutoff? && got.run.leaseExpiresAt.None?
        && (was.run.status.Running? ==>
              EndedWith(was, got, now, ClosedAtCutoff, Ended(ClosedAtCutoff), LatePayloadDiscarded))
        && (!was.run.status.Running? ==> got.attempts == was.attempts)
  {
    if was.run.status.Running? {
      LedgerOf(was, epoch);
      CloseAttemptEffect(was, now, Ended(ClosedAtCutoff), LatePayloadDiscarded);
    }
    hide CloseAttempt, Ledger, RecordOk;
  }

  // ---------- Users ----------

  /** A cancel raises the epoch, ends every open run, scan and attempt as cancelled, leaves what
      had ended alone, and logs the one terminal event. */
  lemma CancelEffect(db: Db, now: Time)
    requires Inv(db) && db.job.Some? && !db.job.value.status.Terminal()
    ensures var after := Cancel(db, now);
      && after.job.Some? && after.job.value.status.JobCancelled? && after.job.value.exploration.ExplorationCancelled?
      && after.job.value.epoch == db.job.value.epoch + 1
      && after.runs.Keys == db.runs.Keys && after.results == db.results && after.outbox == db.outbox && after.evidence == db.evidence
      && after.events == db.events + [Event(|db.events| + 1, JobStopped, true)]
      && forall r | r in db.runs ::
           var was, got := db.runs[r], after.runs[r];
           if was.run.status.Terminal() then got == was
           else
             && got.run.status.Cancelled? && got.run.leaseExpiresAt.None?
             && got.run.generation == was.run.generation
             && (was.run.status.Running? ==> EndedWith(was, got, now, Cancelled, Ended(Cancelled), LatePayloadDiscarded))
             && (!was.run.status.Running? ==> got.attempts == was.attempts)
  {
    MaxSequenceIsLength(db.events);
    forall r | r in db.runs
      ensures CancelOutcome(db.runs[r], CancelRecord(db.runs[r], now), now)
    {
      RecordInvariant(db, r);
      CancelRunEffect(db.runs[r], db.job.value.epoch, now);
    }
    hide Inv, CancelRecord, MaxSequence, EndedWith;
  }

  predicate CancelOutcome(was: RunRecord, got: RunRecord, now: Time) {
    if was.run.status.Terminal() then got == was
    else
      && got.run.status.Cancelled? && got.run.leaseExpiresAt.None?
      && got.run.generation == was.run.generation
      && (was.run.status.Running? ==> EndedWith(was, got, now, Cancelled, Ended(Cancelled), LatePayloadDiscarded))
      && (!was.run.status.Running? ==> got.attempts == was.attempts)
  }

  lemma CancelRunEffect(record: RunRecord, epoch: nat, now: Time)
    requires RecordOk(record, epoch)
    ensures CancelOutcome(record, CancelRecord(record, now), now)
  {
    var closed := CancelAttempts(record.attempts, now);
    if record.run.status.Running? {
      var last := |record.attempts| - 1;
      assert closed == record.attempts[last := closed[last]];
    } else {
      assert closed == record.attempts;
      assert CancelRecord(record, now).attempts == record.attempts;
    }
  }

  /** A choice is accepted exactly for an exact-handle candidate that is already the anchor, or
      is a hypothesis while the window is open; it is then the anchor and the choice is logged
      once. Every refusal but an expired window leaves the rows alone. */
  lemma SelectAnchorEffect(db: Db, candidate: Candidate, now: Time, f: FollowUp)
    requires Inv(db) && db.job.Some? && f.Fresh(db.runs.Keys)
    ensures var (after, reply) := SelectAnchor(db, candidate, now, f);
      var job := db.job.value;
      && (reply.AnchorAccepted? <==>
            && candidate.known && job.bareHandle && candidate.exactHandle
            && (job.anchor == Some(candidate.id)
                || (!job.status.Terminal() && job.exploration.AwaitingAnchor? && job.deadline - now >= 30.0 && candidate.eligible)))
      && (reply.SelectionExpired? <==>
            && candidate.known && job.bareHandle && candidate.exactHandle && job.anchor != Some(candidate.id)
            && !job.status.Terminal() && job.exploration.AwaitingAnchor? && job.deadline - now < 30.0)
      && after.job.Some?
      && (reply.AnchorAccepted? ==> after.job.value.anchor == Some(candidate.id))
      && (reply.AnchorAccepted? && job.anchor != Some(candidate.id) ==>
            db.events + [Event(|db.events| + 1, AnchorChosen, false)] <= after.events)
      && (reply.SelectionExpired? ==>
            && after.job.value.anchor == job.anchor
            && db.events + [Event(|db.events| + 1, AnchorWindowExpired, false)] <= after.events)
      && (!reply.AnchorAccepted? && !reply.SelectionExpired? ==> after == db)
      && (reply.AnchorAccepted? && job.anchor == Some(candidate.id) ==> after == db)
  {
    MaxSequenceOf(db);
    hide Inv, FinalizeDiscovery, AnchorOpen, MaxSequence;
    if !db.job.value.status.Terminal() {
      var expired := ExpireAnchor(db, now);
      ExpiryKeepsRuns(db, now);
      AdvanceKeepsRuns(expired, now, f);
      var chosen := ChooseAnchor(db, candidate.id);
      AdvanceKeepsRuns(chosen, now, f);
    }
  }

  lemma MaxSequenceOf(db: Db)
    requires Inv(db) && db.job.Some?
    ensures MaxSequence(db.events) == |db.events|
  {
    MaxSequenceIsLength(db.events);
  }

  // ---------- New runs ----------

  /** Runs of a wave are professional and start at generation 0. */
  predicate OnlyProfessionalAdded(before: Db, after: Db) {
    forall q | q in after.runs && q !in before.runs :: after.runs[q].run.provider.Professional?
  }

  lemma {:induction false} WaveIsProfessional(db: Db, wave: seq<PlannedRun>)
    requires db.job.Some?
    ensures OnlyProfessionalAdded(db, AddWave(db, wave))
  {
    if wave != [] {
      WaveIsProfessional(db, wave[..|wave| - 1]);
    }
  }

  lemma SearchAddsProfessional(db: Db, now: Time, f: FollowUp)
    requires db.job.Some?
    ensures OnlyProfessionalAdded(db, ScheduleProfessional(db, now, f).0)
  {
    hide ProfessionalReady, NeedsAnchor, AddEvent, AddWave;
    WaveIsProfessional(db, f.wave);
  }

  /** A synthesis run that appears comes when there was none and every other run had ended. */
  predicate SynthesisLast(before: Db, after: Db) {
    forall r | r in after.runs && r !in before.runs && after.runs[r].run.provider.Synthesis? ::
      && AllTerminal(before.runs) && !HasProvider(before.runs, Synthesis)
      && forall q | q in after.runs && q != r :: q in before.runs
  }

  lemma ScheduledSynthesisIsLast(db: Db, f: FollowUp)
    requires db.job.Some?
    ensures SynthesisLast(db, ScheduleSynthesis(db, f).0)
  {
    hide AllTerminal, HasProvider, AddEvent;
  }

  lemma SynthesisComesLast(db: Db, now: Time, f: FollowUp)
    requires db.job.Some? && f.Fresh(db.runs.Keys)
    ensures SynthesisLast(db, FinalizeDiscovery(db, now, f).0)
  {
    hide ScheduleProfessional, ScheduleSynthesis, FinalizeFootprint, ExpireAnchor, AnchorOpen, AllTerminal, HasProvider;
    FreshIds(f, db.runs.Keys);
    ExpiryKeepsRuns(db, now);
    var expired := ExpireAnchor(db, now);
    SearchKeepsRuns(expired, now, f);
    SearchAddsProfessional(expired, now, f);
    var (searched, wave) := ScheduleProfessional(expired, now, f);
    if !wave {
      ScheduledSynthesisIsLast(searched, f);
      var composed := ScheduleSynthesis(searched, f).0;
      SynthesisKeepsJob(searched, f);
      SameRunsAfterFinalizer(composed, now, f);
    }
  }

  lemma SynthesisKeepsJob(db: Db, f: FollowUp)
    requires db.job.Some?
    ensures ScheduleSynthesis(db, f).0.job.Some?
  {
    hide SynthesisReady, AddEvent;
  }

  lemma SameRunsAfterFinalizer(db: Db, now: Time, f: FollowUp)
    requires db.job.Some?
    ensures FinalizeFootprint(db, now, f).0.runs == db.runs
  {
    hide FinalizerReady, Verdict, AddEvent;
  }

  /** The job is over: its state, its verdict and its last two events. */
  predicate Finalized(before: Db, after: Db, now: Time, f: FollowUp)
    requires before.job.Some?
  {
    && after.job.Some? && after == before.(job := after.job, events := after.events)
    && after.job.value.epoch == before.job.value.epoch + 1
    && after.job.value.exploration == Completed && after.job.value.attempt == JobAttempt(false, Some(now), true)
    && after.job.value.anchor == before.job.value.anchor
    && after.events == before.events
         + [Event(|before.events| + 1, FinalizationStarted, false), Event(|before.events| + 2, JobReady, true)]
    && (after.job.value.status == ReadyPartial <==>
          || (exists r | r in before.runs :: before.runs[r].run.status !in {Success, NoResult})
          || (before.job.value.mode == Deep && forall r | r in before.runs :: before.runs[r].run.provider != Synthesis))
    && after.job.value.status in (if f.accountsFound then {ReadyPartial, Ready} else {ReadyPartial, NoCandidates})
  }

  /** What the finalizer relies on. */
  predicate Finalizable(db: Db) {
    && db.job.Some? && !db.tombstone && db.runs.Keys != {} && Numbered(db.events)
    && (db.job.value.attempt.reported ==> db.job.value.status.Terminal())
  }

  /** A job is finalized exactly when it is live and all its runs have ended. It is partial
      exactly when some run ended otherwise than with success or no result, or a deep search has
      no synthesis. */
  lemma FinalizeFootprintEffect(db: Db, now: Time, f: FollowUp)
    requires Finalizable(db)
    ensures var (after, done) := FinalizeFootprint(db, now, f);
      && (done <==> Live(db) && forall r | r in db.runs :: db.runs[r].run.status !in UNFINISHED)
      && (done ==> Finalized(db, after, now, f))
      && (!done ==> after == db)
  {
    TwoEvents(db);
    hide AddEvent;
  }

  lemma InvariantFacts(db: Db)
    requires Inv(db) && db.job.Some?
    ensures Finalizable(db)
  {}

  lemma TwoEvents(db: Db)
    requires Numbered(db.events)
    ensures AddEvent(AddEvent(db.events, FinalizationStarted, false), JobReady, true) ==
            db.events + [Event(|db.events| + 1, FinalizationStarted, false), Event(|db.events| + 2, JobReady, true)]
  {
    MaxSequenceIsLength(db.events);
    var one := AddEvent(db.events, FinalizationStarted, false);
    MaxSequenceIsLength(one);
  }

  /** A new job has one waiting scan and one message for each shard, and nothing else. */
  lemma CreateEffect(mode: SearchMode, bareHandle: bool, deadline: Time, shards: seq<RunId>, hinted: bool)
    ensures var db := Create(mode, bareHandle, deadline, shards, hinted);
      && db.job == Some(Job(mode, bareHandle, deadline, Queued, Idle, 1, 1, None, JobAttempt(false, None, false)))
      && db.runs.Keys == IdSet(shards)
      && (forall r | r in db.runs ::
            db.runs[r] == RunRecord(Run(Maigret, false, 0, Some(deadline), Pending, 0, None, 1, 0), Some(Scan(Pending, None, None)), []))
      && (forall k :: k in db.outbox <==> k.provider.Maigret? && k.generation == 1 && k.run in db.runs)
      && (forall k | k in db.outbox :: !db.outbox[k].dispatched)
      && db.results == map[] && db.evidence == []
      && db.events == [Event(1, JobAccepted, false)] + (if hinted then [Event(2, HistoryHintsApplied, false)] else [])
  {
    var job := Job(mode, bareHandle, deadline, Queued, Idle, 1, 1, None, JobAttempt(false, None, false));
    var empty := Db(Some(job), false, map[], map[], map[], [], [], false);
    ShardsEffect(empty, shards, deadline);
    FirstEvents();
    hide AddShards, AddEvent;
  }

  lemma FirstEvents()
    ensures AddEvent([], JobAccepted, false) == [Event(1, JobAccepted, false)]
    ensures AddEvent([Event(1, JobAccepted, false)], HistoryHintsApplied, false) ==
            [Event(1, JobAccepted, false), Event(2, HistoryHintsApplied, false)]
  {
    MaxSequenceIsLength([]);
    MaxSequenceIsLength([Event(1, JobAccepted, false)]);
  }

  lemma {:induction false} ShardsEffect(db: Db, shards: seq<RunId>, deadline: Time)
    requires db.runs == map[] && db.outbox == map[]
    ensures var after := AddShards(db, shards, deadline);
      && after == db.(runs := after.runs, outbox := after.outbox, uniqueViolation := after.uniqueViolation)
      && after.runs.Keys == IdSet(shards)
      && (forall r | r in after.runs ::
            after.runs[r] == RunRecord(Run(Maigret, false, 0, Some(deadline), Pending, 0, None, 1, 0), Some(Scan(Pending, None, None)), []))
      && (forall k :: k in after.outbox <==> k.provider.Maigret? && k.generation == 1 && k.run in after.runs)
      && (forall k | k in after.outbox :: !after.outbox[k].dispatched)
  {
    if shards != [] {
      var rest, last := shards[..|shards| - 1], shards[|shards| - 1];
      ShardsEffect(db, rest, deadline);
      assert shards == rest + [last];
    }
  }

  // ---------- Scheduling ----------

  const UNFINISHED: set<RunStatus> := {Pending, RetryScheduled, Running}

  /** A search of professional profiles may start: nothing of the kind was tried, the scans are
      over, they suggest a name, and there is time. */
  predicate SearchDue(db: Db, now: Time, f: FollowUp)
    requires db.job.Some?
  {
    && db.job.value.status in {Queued, Discovering} && f.professionalEnabled && now < db.job.value.deadline
    && (forall r | r in db.runs :: db.runs[r].run.provider != Professional)
    && (exists r | r in db.runs :: db.runs[r].run.provider == Maigret)
    && (forall r | r in db.runs && db.runs[r].run.provider == Maigret :: db.runs[r].run.status !in UNFINISHED + {InvalidResponse})
    && f.hypotheses >= 1
  }

  /** Before that the user is asked for an anchor: a bare handle suggests several names, and at
      least a minute is left. */
  predicate AnchorDue(db: Db, now: Time, f: FollowUp)
    requires db.job.Some?
  {
    && SearchDue(db, now, f) && f.hypotheses >= 2
    && db.job.value.bareHandle && db.job.value.anchor == None
    && f.searchAvailable && db.job.value.deadline - now >= 60.0
  }

  /** A deep search gets its one synthesis when everything else has ended. */
  predicate SynthesisDue(db: Db)
    requires db.job.Some?
  {
    && db.job.value.mode == Deep && db.job.value.status in {Queued, Discovering} && db.runs.Keys != {}
    && forall r | r in db.runs :: db.runs[r].run.provider != Synthesis && db.runs[r].run.status !in UNFINISHED
  }

  /** One more event at the end of the log. */
  predicate LogsOne(before: Db, after: Db, kind: EventKind) {
    after.events == before.events + [Event(|before.events| + 1, kind, false)]
  }

  /** The job is asked for an anchor, once. */
  predicate Asked(before: Db, after: Db)
    requires before.job.Some?
  {
    && after.job.Some? && after.job.value.exploration == AwaitingAnchor
    && after == before.(job := after.job, events := after.events)
    && (before.job.value.exploration == AwaitingAnchor ==> after == before)
    && (before.job.value.exploration != AwaitingAnchor ==>
          && LogsOne(before, after, AnchorRequired)
          && after.job.value == before.job.value.(exploration := AwaitingAnchor, rowVersion := before.job.value.rowVersion + 1))
  }

  /** A run that waits for its first worker, with its message. */
  predicate NewRun(db: Db, r: RunId, run: Run) {
    && r in db.runs && db.runs[r] == RunRecord(run, None, [])
    && DedupeKey(run.provider, r, 1) in db.outbox && db.outbox[DedupeKey(run.provider, r, 1)] == Message(0, false)
  }

  /** The planned searches are queued as planned. */
  predicate WaveStarted(before: Db, after: Db, f: FollowUp)
    requires before.job.Some?
  {
    && after.job == Some(before.job.value.(exploration := Exploring, rowVersion := before.job.value.rowVersion + 1))
    && RunsKept(before, after)
    && (forall i | 0 <= i < |f.wave| :: NewRun(after, f.wave[i].id, PlannedAs(f.wave[i], before.job.value.epoch)))
    && after.runs.Keys == before.runs.Keys + (set p | p in f.wave :: p.id)
    && after == before.(job := after.job, runs := after.runs, outbox := after.outbox, events := after.events,
                        uniqueViolation := after.uniqueViolation)
    && after.events == before.events + [Event(|before.events| + 1, ProfessionalStarted, false)]
         + (if f.hinted then [Event(|before.events| + 2, ProfessionalHintsApplied, false)] else [])
  }

  /** The synthesis is queued. */
  predicate SynthesisQueued(before: Db, after: Db, r: RunId)
    requires before.job.Some?
  {
    && after.job == Some(before.job.value.(exploration := Exploring, rowVersion := before.job.value.rowVersion + 1))
    && NewRun(after, r, Run(Synthesis, false, 0, None, Pending, 0, None, before.job.value.epoch, 0))
    && after == before.(job := after.job, runs := before.runs[r := after.runs[r]], outbox := after.outbox, events := after.events,
                        uniqueViolation := after.uniqueViolation)
    && LogsOne(before, after, SynthesisStarted)
  }

  /** The synthesis is recorded as skipped, with its result. */
  predicate SynthesisSkipped(before: Db, after: Db, r: RunId)
    requires before.job.Some?
  {
    && after == before.(runs := after.runs, results := after.results, events := after.events, uniqueViolation := after.uniqueViolation)
    && after.runs == before.runs[r := RunRecord(Run(Synthesis, false, 0, None, SkippedConfiguration, 0, None, before.job.value.epoch, 0), None, [])]
    && after.results == before.results[r := SynthesisResult(SkippedConfiguration, None)]
    && LogsOne(before, after, SynthesisProgress)
  }

  lemma LogsNext(db: Db, kind: EventKind)
    requires Numbered(db.events)
    ensures LogsOne(db, LogEvent(db, kind), kind) && Numbered(LogEvent(db, kind).events)
  {
    MaxSequenceIsLength(db.events);
  }

  function PlannedAs(p: PlannedRun, epoch: nat): Run {
    Run(Professional, p.adaptive, p.requestBudget, Some(p.deadline), Pending, 0, None, epoch, 0)
  }

  lemma PlannedEffect(db: Db, p: PlannedRun)
    requires db.job.Some?
    ensures var after := AddPlannedRun(db, p);
      && after == db.(runs := after.runs, outbox := after.outbox, uniqueViolation := after.uniqueViolation)
      && NewRun(after, p.id, PlannedAs(p, db.job.value.epoch))
      && (forall r, run | r != p.id && NewRun(db, r, run) :: NewRun(after, r, run))
      && after.runs.Keys == db.runs.Keys + {p.id}
  {}

  lemma {:induction false} WaveEffect(db: Db, wave: seq<PlannedRun>)
    requires db.job.Some? && forall i, j | 0 <= i < j < |wave| :: wave[i].id != wave[j].id
    ensures var after := AddWave(db, wave);
      && after == db.(runs := after.runs, outbox := after.outbox, uniqueViolation := after.uniqueViolation)
      && (forall i | 0 <= i < |wave| :: NewRun(after, wave[i].id, PlannedAs(wave[i], db.job.value.epoch)))
      && after.runs.Keys == db.runs.Keys + (set p | p in wave :: p.id)
  {
    hide NewRun, AddPlannedRun, PlannedAs;
    if wave != [] {
      var rest, last := wave[..|wave| - 1], wave[|wave| - 1];
      WaveEffect(db, rest);
      assert wave == rest + [last];
      PlannedEffect(AddWave(db, rest), last);
    }
  }

  lemma StartWaveEffect(db: Db, f: FollowUp)
    requires db.job.Some? && Numbered(db.events) && f.Fresh(db.runs.Keys)
    ensures WaveStarted(db, StartWave(db, f), f)
  {
    hide NewRun, AddWave, RunsKept, MaxSequence;
    FreshIds(f, db.runs.Keys);
    StartKeepsRuns(db, f);
    WaveEffect(db, f.wave);
    var filled := AddWave(db, f.wave);
    var moved := filled.(job := Some(db.job.value.(exploration := Exploring, rowVersion := db.job.value.rowVersion + 1)));
    LogsNext(moved, ProfessionalStarted);
    LogsNext(LogEvent(moved, ProfessionalStarted), ProfessionalHintsApplied);
    SameRuns(filled, StartWave(db, f), db.job.value.epoch, f.wave);
  }

  lemma SameRuns(left: Db, right: Db, epoch: nat, wave: seq<PlannedRun>)
    requires left.runs == right.runs && left.outbox == right.outbox
    ensures forall r, run :: NewRun(left, r, run) <==> NewRun(right, r, run)
  {}

  lemma DueMeansReady(db: Db, now: Time, f: FollowUp)
    requires db.job.Some?
    ensures ProfessionalReady(db, now, f) <==> SearchDue(db, now, f)
    ensures ProfessionalReady(db, now, f) && NeedsAnchor(db.job.value, now, f) <==> AnchorDue(db, now, f)
    ensures SynthesisReady(db) <==> SynthesisDue(db)
  {}

  /** Exactly a bare handle with several names, an open minute and no anchor makes the scheduler
      ask; otherwise exactly a search that is due, with runs planned for it, starts them; and
      otherwise nothing changes. */
  lemma ScheduleProfessionalEffect(db: Db, now: Time, f: FollowUp)
    requires db.job.Some? && Numbered(db.events) && f.Fresh(db.runs.Keys)
    ensures var (after, wave) := ScheduleProfessional(db, now, f);
      if AnchorDue(db, now, f) then Asked(db, after) && !wave
      else if SearchDue(db, now, f) && f.wave != [] then WaveStarted(db, after, f) && wave
      else after == db && !wave
  {
    DueMeansReady(db, now, f);
    hide ProfessionalReady, NeedsAnchor, SearchDue, AnchorDue, StartWave, WaveStarted, MaxSequence;
    StartWaveEffect(db, f);
    LogsNext(db.(job := Some(db.job.value.(exploration := AwaitingAnchor, rowVersion := db.job.value.rowVersion + 1))), AnchorRequired);
  }

  /** The synthesis is queued exactly when it is due and configured, and recorded as skipped
      exactly when it is due and not configured. */
  lemma ScheduleSynthesisEffect(db: Db, f: FollowUp)
    requires db.job.Some? && Numbered(db.events)
    ensures var (after, queued) := ScheduleSynthesis(db, f);
      if SynthesisDue(db) && f.synthesisConfigured then SynthesisQueued(db, after, f.synthesisId) && queued
      else if SynthesisDue(db) then SynthesisSkipped(db, after, f.synthesisId) && !queued
      else after == db && !queued
  {
    DueMeansReady(db, 0.0, f);
    hide SynthesisReady, SynthesisDue, MaxSequence;
    var r := f.synthesisId;
    var queued := Enqueue(PutRecord(db, r, SynthesisRecord(db.job.value, Pending)), DedupeKey(Synthesis, r, 1));
    LogsNext(queued.(job := Some(db.job.value.(exploration := Exploring, rowVersion := db.job.value.rowVersion + 1))), SynthesisStarted);
    LogsNext(InsertResult(PutRecord(db, r, SynthesisRecord(db.job.value, SkippedConfiguration)), r, SynthesisResult(SkippedConfiguration, None)),
             SynthesisProgress);
  }

  /** A window that was open is over, and the log says so; without one nothing happens. */
  predicate WindowOver(before: Db, after: Db)
    requires before.job.Some?
  {
    if before.job.value.exploration != AwaitingAnchor then after == before
    else
      && after == before.(job := after.job, events := after.events) && LogsOne(before, after, AnchorWindowExpired)
      && after.job == Some(before.job.value.(exploration := Exploring, rowVersion := before.job.value.rowVersion + 1))
  }

  /** What advancing does once no anchor choice is open. */
  ghost predicate Advanced(at: Db, after: Db, done: bool, now: Time, f: FollowUp)
    requires at.job.Some?
  {
    if AnchorDue(at, now, f) then Asked(at, after) && !done
    else if SearchDue(at, now, f) && f.wave != [] then WaveStarted(at, after, f) && !done
    else if SynthesisDue(at) && f.synthesisConfigured then SynthesisQueued(at, after, f.synthesisId) && !done
    else
      exists composed: Db ::
        && composed.job == at.job
        && (if SynthesisDue(at) then SynthesisSkipped(at, composed, f.synthesisId) else composed == at)
        && (done <==> forall r | r in composed.runs :: composed.runs[r].run.status !in UNFINISHED)
        && (if done then Finalized(composed, after, now, f) else after == composed)
  }

  /** Advancing a live job does the first of these that is due: wait for an open anchor choice,
      ask for one, start the search, queue the synthesis, or finalize. */
  lemma AdvanceEffect(db: Db, now: Time, f: FollowUp)
    requires Inv(db) && db.job.Some? && !db.job.value.status.Terminal() && f.Fresh(db.runs.Keys)
    ensures var (after, done) := FinalizeDiscovery(db, now, f);
      if db.job.value.exploration == AwaitingAnchor && db.job.value.deadline - now >= 30.0 then after == db && !done
      else exists at: Db :: at.job.Some? && WindowOver(db, at) && Advanced(at, after, done, now, f)
  {
    InvariantFacts(db);
    hide Inv, FinalizeDiscovery, Numbered, Advanced, MaxSequence, ExpireAnchor;
    if db.job.value.exploration == AwaitingAnchor && db.job.value.deadline - now >= 30.0 {
      OpenChoiceWaits(db, now, f);
    } else {
      WindowEnds(db, now, f);
      AdvancedFrom(ExpireAnchor(db, now), now, f);
    }
  }

  lemma OpenChoiceWaits(db: Db, now: Time, f: FollowUp)
    requires db.job.Some? && db.job.value.exploration == AwaitingAnchor && db.job.value.deadline - now >= 30.0
    ensures FinalizeDiscovery(db, now, f) == (db, false)
  {
    hide ScheduleProfessional, ScheduleSynthesis, FinalizeFootprint, ExpireAnchor;
  }

  lemma WindowEnds(db: Db, now: Time, f: FollowUp)
    requires Finalizable(db) && !db.job.value.status.Terminal()
    requires !(db.job.value.exploration == AwaitingAnchor && db.job.value.deadline - now >= 30.0)
    ensures var at := ExpireAnchor(db, now);
      && WindowOver(db, at) && Finalizable(at) && at.job.value.exploration != AwaitingAnchor && !at.job.value.status.Terminal()
      && at.runs == db.runs && FinalizeDiscovery(at, now, f) == FinalizeDiscovery(db, now, f)
  {
    hide ScheduleProfessional, ScheduleSynthesis, FinalizeFootprint, Numbered, MaxSequence;
    LogsNext(db.(job := Some(db.job.value.(exploration := Exploring, rowVersion := db.job.value.rowVersion + 1))), AnchorWindowExpired);
  }

  lemma AdvancedFrom(at: Db, now: Time, f: FollowUp)
    requires Finalizable(at) && !at.job.value.status.Terminal() && f.Fresh(at.runs.Keys) && at.job.value.exploration != AwaitingAnchor
    ensures Advanced(at, FinalizeDiscovery(at, now, f).0, FinalizeDiscovery(at, now, f).1, now, f)
  {
    hide ScheduleProfessional, ScheduleSynthesis, FinalizeFootprint, WaveStarted, SynthesisQueued, Numbered,
      Finalized, SearchDue, AnchorDue, SynthesisDue, Finalizable, MaxSequence, SynthesisSkipped;
    FinalizableFacts(at);
    ScheduleProfessionalEffect(at, now, f);
    ScheduleSynthesisEffect(at, f);
    WaveMovesOn(at, f);
    var composed := ScheduleSynthesis(at, f).0;
    if !AnchorDue(at, now, f) && !(SearchDue(at, now, f) && f.wave != []) && !(SynthesisDue(at) && f.synthesisConfigured) {
      SkippedIsFinalizable(at, composed, f.synthesisId);
      FinalizeFootprintEffect(composed, now, f);
    }
  }

  lemma FinalizableFacts(db: Db)
    requires Finalizable(db)
    ensures db.job.Some? && Numbered(db.events)
  {}

  lemma WaveMovesOn(db: Db, f: FollowUp)
    requires db.job.Some?
    ensures forall after | WaveStarted(db, after, f) :: after.job.Some?
    ensures forall after, r | SynthesisQueued(db, after, r) :: after.job.Some?
    ensures forall after, r | SynthesisSkipped(db, after, r) :: after.job == db.job
  {}

  lemma SkippedIsFinalizable(at: Db, composed: Db, r: RunId)
    requires Finalizable(at) && !at.job.value.status.Terminal()
    requires composed == at || SynthesisSkipped(at, composed, r)
    ensures composed.job.Some? && Finalizable(composed) && Live(composed)
  {
    if composed != at {
      assert r in composed.runs.Keys;
    }
  }
}
