/** Every transaction of the discovery protocol keeps the invariant and only changes the rows
    in the ways `Evolves` allows. */
module FootprintSafety {
  import opened Wrappers
  import opened FootprintModel
  import opened FootprintTransactions
  import opened FootprintInvariant

  // ---------- Schedulers and finalizer ----------

  lemma ExpireAnchorLegal(db: Db, now: Time)
    requires Inv(db) && db.job.Some? && !db.job.value.status.Terminal()
    ensures Legal(db, ExpireAnchor(db, now))
    ensures !ExpireAnchor(db, now).job.value.status.Terminal()
    ensures ExpireAnchor(db, now).runs == db.runs
  {
    hide Inv, Evolves;
    var job := db.job.value;
    var moved := job.(exploration := Exploring, rowVersion := job.rowVersion + 1);
    SetJobLegal(db, moved);
    LogEventLegal(db.(job := Some(moved)), AnchorWindowExpired);
    LegalTransitive(db, db.(job := Some(moved)), LogEvent(db.(job := Some(moved)), AnchorWindowExpired));
    EvolvesReflexive(db);
  }

  lemma RequireAnchorLegal(db: Db)
    requires Inv(db) && db.job.Some? && !db.job.value.status.Terminal()
    ensures Legal(db, RequireAnchor(db))
  {
    hide Inv, Evolves;
    var job := db.job.value;
    var moved := job.(exploration := AwaitingAnchor, rowVersion := job.rowVersion + 1);
    SetJobLegal(db, moved);
    LogEventLegal(db.(job := Some(moved)), AnchorRequired);
    LegalTransitive(db, db.(job := Some(moved)), LogEvent(db.(job := Some(moved)), AnchorRequired));
    EvolvesReflexive(db);
  }

  predicate FreshWave(wave: seq<PlannedRun>, used: set<RunId>) {
    && (forall p | p in wave :: p.id !in used)
    && (forall i, j | 0 <= i < j < |wave| :: wave[i].id != wave[j].id)
  }

  lemma AddPlannedRunLegal(db: Db, p: PlannedRun)
    requires Inv(db) && db.job.Some? && !db.job.value.status.Terminal() && p.id !in db.runs
    ensures Legal(db, AddPlannedRun(db, p))
  {
    hide Inv, Evolves;
    EnqueueLegal(db, p.id, PendingRun(Professional, p.adaptive, p.requestBudget, Some(p.deadline), db.job.value.epoch));
  }

  lemma LiveJob(db: Db, after: Db)
    requires Legal(db, after)
    ensures Inv(after) && after.job.Some?
  {}

  lemma {:induction false} AddWaveLegal(db: Db, wave: seq<PlannedRun>)
    requires Inv(db) && db.job.Some? && !db.job.value.status.Terminal()
    requires FreshWave(wave, db.runs.Keys)
    ensures Legal(db, AddWave(db, wave))
    ensures AddWave(db, wave).runs.Keys == db.runs.Keys + (set p | p in wave :: p.id)
  {
    hide Inv, Evolves, AddPlannedRun;
    AddWaveGrows(db, wave);
    if wave == [] {
      EvolvesReflexive(db);
    } else {
      var rest, p := wave[..|wave| - 1], wave[|wave| - 1];
      AddWaveLegal(db, rest);
      var earlier := AddWave(db, rest);
      assert wave == rest + [p];
      LiveJob(db, earlier);
      AddPlannedRunLegal(earlier, p);
      LegalTransitive(db, earlier, AddPlannedRun(earlier, p));
    }
  }

  lemma StartWaveLegal(db: Db, f: FollowUp)
    requires Inv(db) && db.job.Some? && !db.job.value.status.Terminal()
    requires FreshWave(f.wave, db.runs.Keys)
    ensures Legal(db, StartWave(db, f))
  {
    hide Inv, Evolves;
    AddWaveLegal(db, f.wave);
    var filled := AddWave(db, f.wave);
    var job := filled.job.value;
    var moved := job.(exploration := Exploring, rowVersion := job.rowVersion + 1);
    SetJobLegal(filled, moved);
    var running := filled.(job := Some(moved));
    LegalTransitive(db, filled, running);
    LogEventLegal(running, ProfessionalStarted);
    var started := LogEvent(running, ProfessionalStarted);
    LegalTransitive(db, running, started);
    LogEventLegal(started, ProfessionalHintsApplied);
    LegalTransitive(db, started, LogEvent(started, ProfessionalHintsApplied));
  }

  lemma SkipSynthesisLegal(db: Db, r: RunId)
    requires Inv(db) && db.job.Some? && SynthesisReady(db) && r !in db.runs
    ensures Legal(db, SkipSynthesis(db, r))
  {
    var record := SynthesisRecord(db.job.value, SkippedConfiguration);
    var result := SynthesisResult(SkippedConfiguration, None);
    var put := PutRecord(db, r, record);
    PutKeepsRuns(db, r, record);
    PutKeepsEvidence(db, r, record);
    PutKeepsJob(db, r, record);
    PutEvolves(db, r, record);
    ResultKeepsSynthesis(db, r, record, result);
    AddRunKeepsHandoff(db, r, record);
    InsertResultLegal(db, put, r, result);
    var stored := InsertResult(put, r, result);
    LogEventLegal(stored, SynthesisProgress);
    LegalTransitive(db, stored, LogEvent(stored, SynthesisProgress));
  }

  lemma AddRunKeepsHandoff(db: Db, r: RunId, record: RunRecord)
    requires HandoffOk(db) && r !in db.runs && record.run.status.Terminal()
    ensures HandoffOk(PutRecord(db, r, record))
  {}

  lemma StartSynthesisLegal(db: Db, r: RunId)
    requires Inv(db) && db.job.Some? && SynthesisReady(db) && r !in db.runs
    ensures Legal(db, StartSynthesis(db, r))
  {
    hide Inv, Evolves;
    var job := db.job.value;
    var record := SynthesisRecord(job, Pending);
    EnqueueLegal(db, r, record);
    var queued := Enqueue(PutRecord(db, r, record), DedupeKey(Synthesis, r, 1));
    var moved := job.(exploration := Exploring, rowVersion := job.rowVersion + 1);
    SetJobLegal(queued, moved);
    var running := queued.(job := Some(moved));
    LegalTransitive(db, queued, running);
    LogEventLegal(running, SynthesisStarted);
    LegalTransitive(db, running, LogEvent(running, SynthesisStarted));
  }

  lemma FinalizeFootprintLegal(db: Db, now: Time, f: FollowUp)
    requires Inv(db) && db.job.Some?
    ensures Legal(db, FinalizeFootprint(db, now, f).0)
  {
    if FinalizerReady(db) {
      LogEventLegal(db, FinalizationStarted);
      var started := LogEvent(db, FinalizationStarted);
      MaxSequenceIsLength(started.events);
      FinishJobLegal(started, FinalizeFootprint(db, now, f).0);
      LegalTransitive(db, started, FinalizeFootprint(db, now, f).0);
    } else {
      EvolvesReflexive(db);
    }
  }

  lemma FinishJobLegal(db: Db, after: Db)
    requires Inv(db) && db.job.Some? && !db.job.value.status.Terminal() && AllTerminal(db.runs)
    requires after.job.Some? && after.job.value.status.Terminal() && JobEvolves(db.job.value, after.job.value)
    requires after.events == db.events + [Event(|db.events| + 1, JobReady, true)]
    requires after == db.(job := after.job, events := after.events)
    ensures Legal(db, after)
  {
    forall r | r in after.runs
      ensures RecordOk(after.runs[r], after.job.value.epoch)
    {
      RecordInvariant(db, r);
    }
    forall i | 0 <= i < |after.evidence|
      ensures Cites(after, after.evidence[i])
    {
      assert Cites(db, db.evidence[i]);
    }
  }

  lemma ScheduleProfessionalLegal(db: Db, now: Time, f: FollowUp)
    requires Inv(db) && db.job.Some? && f.Fresh(db.runs.Keys)
    ensures Legal(db, ScheduleProfessional(db, now, f).0)
    ensures !ScheduleProfessional(db, now, f).1 ==> ScheduleProfessional(db, now, f).0.runs == db.runs
  {
    hide Inv, Evolves;
    EvolvesReflexive(db);
    if ProfessionalReady(db, now, f) {
      RequireAnchorLegal(db);
      assert FreshWave(f.wave, db.runs.Keys);
      StartWaveLegal(db, f);
    }
  }

  lemma ScheduleSynthesisLegal(db: Db, f: FollowUp)
    requires Inv(db) && db.job.Some? && f.synthesisId !in db.runs
    ensures Legal(db, ScheduleSynthesis(db, f).0)
  {
    EvolvesReflexive(db);
    if SynthesisReady(db) {
      SkipSynthesisLegal(db, f.synthesisId);
      StartSynthesisLegal(db, f.synthesisId);
    }
  }

  lemma FinalizeDiscoveryLegal(db: Db, now: Time, f: FollowUp)
    requires Inv(db) && db.job.Some? && f.Fresh(db.runs.Keys)
    ensures Legal(db, FinalizeDiscovery(db, now, f).0)
  {
    hide Inv, Evolves;
    EvolvesReflexive(db);
    if !db.job.value.status.Terminal() && !(db.job.value.exploration.AwaitingAnchor? && AnchorOpen(db.job.value, now)) {
      ExpireAnchorLegal(db, now);
      var expired := ExpireAnchor(db, now);
      ScheduleProfessionalLegal(expired, now, f);
      var (searched, wave) := ScheduleProfessional(expired, now, f);
      LegalTransitive(db, expired, searched);
      if !wave && !searched.job.value.exploration.AwaitingAnchor? {
        ScheduleSynthesisLegal(searched, f);
        var (composed, queued) := ScheduleSynthesis(searched, f);
        LegalTransitive(db, searched, composed);
        FinalizeFootprintLegal(composed, now, f);
        LegalTransitive(db, composed, FinalizeFootprint(composed, now, f).0);
      }
    }
  }

  /** Scheduling inserts only runs with the ids generated for it, and no evidence. */
  predicate Grows(before: Db, after: Db, f: FollowUp) {
    after.runs.Keys <= before.runs.Keys + f.NewIds() && after.evidence == before.evidence
  }

  lemma {:induction false} AddWaveGrows(db: Db, wave: seq<PlannedRun>)
    requires db.job.Some?
    ensures AddWave(db, wave).runs.Keys == db.runs.Keys + (set p | p in wave :: p.id)
    ensures AddWave(db, wave).evidence == db.evidence
  {
    if wave != [] {
      AddWaveGrows(db, wave[..|wave| - 1]);
      assert wave == wave[..|wave| - 1] + [wave[|wave| - 1]];
    }
  }

  lemma ScheduleProfessionalGrows(db: Db, now: Time, f: FollowUp)
    requires db.job.Some?
    ensures ScheduleProfessional(db, now, f).0.job.Some?
    ensures Grows(db, ScheduleProfessional(db, now, f).0, f)
  {
    hide ProfessionalReady, NeedsAnchor;
    AddWaveGrows(db, f.wave);
  }

  lemma ScheduleSynthesisGrows(db: Db, f: FollowUp)
    requires db.job.Some?
    ensures Grows(db, ScheduleSynthesis(db, f).0, f)
  {
    hide SynthesisReady;
  }

  lemma FinalizeDiscoveryGrows(db: Db, now: Time, f: FollowUp)
    requires db.job.Some?
    ensures Grows(db, FinalizeDiscovery(db, now, f).0, f)
  {
    hide ScheduleProfessional, ScheduleSynthesis, FinalizerReady;
    var expired := ExpireAnchor(db, now);
    ScheduleProfessionalGrows(expired, now, f);
    ScheduleSynthesisGrows(ScheduleProfessional(expired, now, f).0, f);
  }

  /** Follow a legal change by the job's own progress. */
  lemma ThenFinalizeLegal(db: Db, changed: Db, now: Time, f: FollowUp)
    requires Legal(db, changed) && f.Fresh(changed.runs.Keys)
    ensures Legal(db, FinalizeDiscovery(changed, now, f).0)
  {
    hide Inv, Evolves;
    FinalizeDiscoveryLegal(changed, now, f);
    LegalTransitive(db, changed, FinalizeDiscovery(changed, now, f).0);
  }

  // ---------- Leasing ----------

  /** The branch that drops a run of a finished job is never taken: a finished job has no
      waiting run. */
  lemma WaitingRunHasOpenJob(db: Db, r: RunId, provider: Provider)
    requires Inv(db) && Leasable(db, r, provider)
    ensures !JobClosed(db)
    ensures provider.Synthesis? ==> db.job.value.mode.Deep?
  {}

  lemma CloseWaitingLegal(db: Db, r: RunId, status: RunStatus, now: Time)
    requires Inv(db) && db.job.Some? && r in db.runs && db.runs[r].run.status.Waiting()
    requires status.Terminal() && !db.runs[r].run.provider.Synthesis?
    ensures Legal(db, PutRecord(db, r, CloseRun(db.runs[r], status, now)))
  {
    WaitingRunHasOpenJob(db, r, db.runs[r].run.provider);
    RecordInvariant(db, r);
    PutRecordLegal(db, r, CloseRun(db.runs[r], status, now));
  }

  lemma TakeLeaseLegal(db: Db, r: RunId, now: Time, seconds: Time)
    requires Inv(db) && db.job.Some? && r in db.runs && db.runs[r].run.status.Waiting()
    ensures Legal(db, PutRecord(db, r, TakeLease(db.runs[r], db.job.value, now, seconds)))
  {
    WaitingRunHasOpenJob(db, r, db.runs[r].run.provider);
    var before, after := db.runs[r], TakeLease(db.runs[r], db.job.value, now, seconds);
    assert RecordOk(before, db.job.value.epoch);
    PutRecordLegal(db, r, after);
  }

  lemma StartDiscoveringLegal(db: Db)
    requires Inv(db) && db.job.Some? && !db.job.value.status.Terminal()
    ensures Legal(db, StartDiscovering(db))
  {
    hide Inv, Evolves;
    EvolvesReflexive(db);
    if db.job.value.status.Queued? {
      var job := db.job.value;
      var moved := job.(status := Discovering, exploration := Exploring, rowVersion := job.rowVersion + 1,
                        attempt := job.attempt.(running := true));
      SetJobLegal(db, moved);
      LogEventLegal(db.(job := Some(moved)), CatalogScanStarted);
      LegalTransitive(db, db.(job := Some(moved)), StartDiscovering(db));
    }
  }

  lemma StartLateWorkerLegal(db: Db)
    requires Inv(db) && db.job.Some? && !db.job.value.status.Terminal()
    ensures Legal(db, StartLateWorker(db))
  {
    SetJobLegal(db, StartLateWorker(db).job.value);
  }

  lemma LeaseScanLegal(db: Db, r: RunId, now: Time, config: ScanConfig, f: FollowUp)
    requires Inv(db) && db.job.Some? && f.Fresh(db.runs.Keys)
    ensures Legal(db, LeaseScan(db, r, now, config, f).0)
  {
    hide Inv, Evolves;
    EvolvesReflexive(db);
    if Leasable(db, r, Maigret) {
      WaitingRunHasOpenJob(db, r, Maigret);
      match ScanRefusal(db.runs[r].run, now, config)
      case Some(status) =>
        CloseWaitingLegal(db, r, status, now);
        var closed := PutRecord(db, r, CloseRun(db.runs[r], status, now));
        assert closed.runs.Keys == db.runs.Keys;
        ThenFinalizeLegal(db, closed, now, f);
      case None =>
        TakeLeaseLegal(db, r, now, config.leaseSeconds);
        var leased := PutRecord(db, r, TakeLease(db.runs[r], db.job.value, now, config.leaseSeconds));
        StartDiscoveringLegal(leased);
        LegalTransitive(db, leased, StartDiscovering(leased));
    }
  }

  lemma LeaseProfessionalLegal(db: Db, r: RunId, now: Time, seconds: Time, f: FollowUp)
    requires Inv(db) && db.job.Some? && f.Fresh(db.runs.Keys)
    ensures Legal(db, LeaseProfessional(db, r, now, seconds, f).0)
  {
    hide Inv, Evolves;
    EvolvesReflexive(db);
    if Leasable(db, r, Professional) {
      WaitingRunHasOpenJob(db, r, Professional);
      if DeadlineReached(db.runs[r].run.deadline, now) {
        CloseWaitingLegal(db, r, ClosedAtCutoff, now);
        var closed := PutRecord(db, r, CloseRun(db.runs[r], ClosedAtCutoff, now));
        assert closed.runs.Keys == db.runs.Keys;
        ThenFinalizeLegal(db, closed, now, f);
      } else {
        TakeLeaseLegal(db, r, now, seconds);
        var leased := PutRecord(db, r, TakeLease(db.runs[r], db.job.value, now, seconds));
        StartLateWorkerLegal(leased);
        LegalTransitive(db, leased, StartLateWorker(leased));
      }
    }
  }

  lemma LeaseSynthesisLegal(db: Db, r: RunId, now: Time, seconds: Time)
    requires Inv(db) && db.job.Some?
    ensures Legal(db, LeaseSynthesis(db, r, now, seconds).0)
  {
    hide Inv, Evolves;
    EvolvesReflexive(db);
    if Leasable(db, r, Synthesis) {
      WaitingRunHasOpenJob(db, r, Synthesis);
      TakeLeaseLegal(db, r, now, seconds);
      var leased := PutRecord(db, r, TakeLease(db.runs[r], db.job.value, now, seconds));
      StartLateWorkerLegal(leased);
      LegalTransitive(db, leased, StartLateWorker(leased));
    }
  }

  // ---------- Completing ----------

  /** A fenced worker finds nothing left to mark: whoever took its run away has already
      closed its attempt. */
  lemma DiscardChangesNothing(db: Db, lease: Lease, now: Time)
    requires Inv(db) && !Current(db, lease)
    requires lease.run in db.runs && db.runs[lease.run].run.generation == lease.generation ==> db.runs[lease.run].run.epoch == lease.epoch
    ensures Discard(db, lease, now) == db
  {
    if lease.run in db.runs {
      var record := db.runs[lease.run];
      assert RecordOk(record, db.job.value.epoch);
      FindAttemptInLedger(record.attempts, lease.generation, 0);
    }
  }

  lemma FinishRunOk(record: RunRecord, epoch: nat, now: Time, status: RunStatus, disposition: Disposition, resultCount: nat)
    requires RecordOk(record, epoch) && record.run.status.Running? && status.Terminal()
    ensures var after := FinishRun(record, record.run.generation, now, status, disposition, resultCount);
            RecordOk(after, epoch) && RecordEvolves(record, after) && after.run.status == status
            && after.run.generation == record.run.generation && after.run.epoch == record.run.epoch
  {
    CloseAttemptInLedger(record, now, Ended(status), disposition);
  }

  /** End a running run that is not a synthesis, with or without its payload. */
  lemma FinishLegal(db: Db, lease: Lease, now: Time, status: RunStatus, disposition: Disposition, resultCount: nat)
    requires Inv(db) && Current(db, lease) && status.Terminal() && !db.runs[lease.run].run.provider.Synthesis?
    ensures var finished := PutRecord(db, lease.run, FinishRun(db.runs[lease.run], lease.generation, now, status, disposition, resultCount));
            && Legal(db, finished)
            && finished.runs.Keys == db.runs.Keys
            && !finished.job.value.status.Terminal()
            && (forall payload :: Legal(db, Accept(finished, lease, payload)))
  {
    hide Inv, Evolves;
    var record := db.runs[lease.run];
    RecordInvariant(db, lease.run);
    FinishRunOk(record, db.job.value.epoch, now, status, disposition, resultCount);
    var after := FinishRun(record, lease.generation, now, status, disposition, resultCount);
    PutRecordLegal(db, lease.run, after);
    var finished := PutRecord(db, lease.run, after);
    OpenRunHasNoEvidence(db, lease.run);
    forall payload
      ensures Legal(db, Accept(finished, lease, payload))
    {
      AcceptLegal(finished, lease, payload);
      LegalTransitive(db, finished, Accept(finished, lease, payload));
    }
  }

  lemma ThenLogLegal(db: Db, changed: Db, kind: EventKind)
    requires Legal(db, changed) && !changed.job.value.status.Terminal()
    ensures Legal(db, LogEvent(changed, kind))
  {
    hide Inv, Evolves;
    LogEventLegal(changed, kind);
    LegalTransitive(db, changed, LogEvent(changed, kind));
  }

  lemma ThenLogManyLegal(db: Db, changed: Db, kind: EventKind, count: nat)
    requires Legal(db, changed) && !changed.job.value.status.Terminal()
    ensures Legal(db, changed.(events := AddEvents(changed.events, kind, count)))
  {
    hide Inv, Evolves;
    LogEventsLegal(changed, kind, count);
    LegalTransitive(db, changed, changed.(events := AddEvents(changed.events, kind, count)));
  }

  /** Save a payload, its new accounts, its run and one progress event. */
  lemma SaveLegal(db: Db, lease: Lease, now: Time, status: RunStatus, disposition: Disposition, resultCount: nat,
                  payload: Payload, newAccounts: nat, kind: EventKind)
    requires Inv(db) && Current(db, lease) && status.Terminal() && !db.runs[lease.run].run.provider.Synthesis?
    ensures var saved := Accept(db, lease, payload);
            var after := LogEvent(
              PutRecord(saved.(events := AddEvents(saved.events, CandidateDiscovered, newAccounts)), lease.run,
                FinishRun(db.runs[lease.run], lease.generation, now, status, disposition, resultCount)),
              kind);
            Legal(db, after) && after.runs.Keys == db.runs.Keys
  {
    hide Inv, Evolves;
    FinishLegal(db, lease, now, status, disposition, resultCount);
    var finished := PutRecord(db, lease.run, FinishRun(db.runs[lease.run], lease.generation, now, status, disposition, resultCount));
    var accepted := Accept(finished, lease, payload);
    ThenLogManyLegal(db, accepted, CandidateDiscovered, newAccounts);
    var logged := accepted.(events := AddEvents(accepted.events, CandidateDiscovered, newAccounts));
    ThenLogLegal(db, logged, kind);
    assert logged.runs.Keys == db.runs.Keys;
    assert LogEvent(logged, kind) ==
      LogEvent(
        PutRecord(Accept(db, lease, payload).(events := AddEvents(db.events, CandidateDiscovered, newAccounts)), lease.run,
          FinishRun(db.runs[lease.run], lease.generation, now, status, disposition, resultCount)),
        kind);
  }

  predicate LeaseKnown(db: Db, lease: Lease) {
    lease.run in db.runs && db.runs[lease.run].run.generation == lease.generation ==> db.runs[lease.run].run.epoch == lease.epoch
  }

  lemma CompleteScanLegal(db: Db, lease: Lease, now: Time, outcome: ScanOutcome)
    requires Inv(db) && db.job.Some? && outcome.Valid() && LeaseKnown(db, lease)
    requires lease.run in db.runs ==> db.runs[lease.run].run.provider.Maigret?
    ensures Legal(db, CompleteScan(db, lease, now, outcome))
  {
    hide Inv, Evolves;
    EvolvesReflexive(db);
    if Current(db, lease) {
      RecordInvariant(db, lease.run);
      match outcome
      case ScanFailed =>
        FinishLegal(db, lease, now, ProviderError, InBudget, db.runs[lease.run].run.resultCount);
      case ScanUnsaved =>
        FinishLegal(db, lease, now, ProviderError, PayloadDiscardedPolicy, 0);
        ThenLogLegal(db, PutRecord(db, lease.run, FinishRun(db.runs[lease.run], lease.generation, now, ProviderError, PayloadDiscardedPolicy, 0)), CatalogProgress);
      case ScanSaved(status, payload, found, newAccounts) =>
        var disposition := if status.Cancelled? then PartialPreserved else InBudget;
        SaveLegal(db, lease, now, status, disposition, found, payload, newAccounts, CatalogProgress);
    } else {
      DiscardChangesNothing(db, lease, now);
    }
  }

  lemma CompleteProfessionalLegal(db: Db, lease: Lease, now: Time, outcome: SearchOutcome, f: FollowUp)
    requires Inv(db) && db.job.Some? && LeaseKnown(db, lease) && f.Fresh(db.runs.Keys)
    requires lease.run in db.runs ==> db.runs[lease.run].run.provider.Professional?
    ensures Legal(db, CompleteProfessional(db, lease, now, outcome, f))
  {
    hide Inv, Evolves;
    EvolvesReflexive(db);
    if !Current(db, lease) {
      DiscardChangesNothing(db, lease, now);
    } else if DeadlineReached(db.runs[lease.run].run.deadline, now) {
      FinishLegal(db, lease, now, ClosedAtCutoff, LatePayloadDiscarded, 0);
      var late := PutRecord(db, lease.run, FinishRun(db.runs[lease.run], lease.generation, now, ClosedAtCutoff, LatePayloadDiscarded, 0));
      ThenLogLegal(db, late, ProfessionalProgress);
      ThenFinalizeLegal(db, LogEvent(late, ProfessionalProgress), now, f);
    } else {
      var status := SearchStatus(outcome);
      var disposition := if status.PartialSuccess? then PartialPreserved else InBudget;
      SaveLegal(db, lease, now, status, disposition, outcome.accepted, outcome.payload, outcome.newAccounts, ProfessionalProgress);
      var saved := Accept(db, lease, outcome.payload);
      var stored := LogEvent(
        PutRecord(saved.(events := AddEvents(saved.events, CandidateDiscovered, outcome.newAccounts)), lease.run,
          FinishRun(db.runs[lease.run], lease.generation, now, status, disposition, outcome.accepted)),
        ProfessionalProgress);
      ThenFinalizeLegal(db, stored, now, f);
    }
  }

  /** End a running synthesis with its result row, and with its output if it succeeded. */
  lemma StoreSynthesisLegal(db: Db, lease: Lease, now: Time, status: RunStatus, output: Option<Payload>)
    requires Inv(db) && Current(db, lease) && db.runs[lease.run].run.provider.Synthesis?
    requires status.Terminal() && !status.Cancelled? && (output.Some? <==> status.Success?)
    ensures var stored := UpsertResult(db, lease.run, SynthesisResult(status, output));
            var accepted := if output.Some? then Accept(stored, lease, output.value) else stored;
            var finished := FinishRun(db.runs[lease.run], lease.generation, now, status, InBudget, if output.Some? then 1 else 0);
            var after := LogEvent(PutRecord(accepted, lease.run, finished), SynthesisProgress);
            Legal(db, after) && after.runs.Keys == db.runs.Keys
  {
    hide Inv, Evolves;
    var record := db.runs[lease.run];
    var result := SynthesisResult(status, output);
    var count := if output.Some? then 1 else 0;
    RecordInvariant(db, lease.run);
    FinishRunOk(record, db.job.value.epoch, now, status, InBudget, count);
    var finished := FinishRun(record, lease.generation, now, status, InBudget, count);
    OpenRunHasNoEvidence(db, lease.run);
    EndSynthesisLegal(db, lease.run, finished, result);
    var ended := InsertResult(PutRecord(db, lease.run, finished), lease.run, result);
    assert ended.runs.Keys == db.runs.Keys;
    if output.Some? {
      AcceptLegal(ended, lease, output.value);
      LegalTransitive(db, ended, Accept(ended, lease, output.value));
    }
    var accepted := if output.Some? then Accept(ended, lease, output.value) else ended;
    ThenLogLegal(db, accepted, SynthesisProgress);
  }

  lemma CompleteSynthesisLegal(db: Db, lease: Lease, now: Time, outcome: SynthesisOutcome, f: FollowUp)
    requires Inv(db) && db.job.Some? && LeaseKnown(db, lease) && f.Fresh(db.runs.Keys)
    requires lease.run in db.runs ==> db.runs[lease.run].run.provider.Synthesis?
    ensures Legal(db, CompleteSynthesis(db, lease, now, outcome, f))
  {
    hide Inv, Evolves;
    EvolvesReflexive(db);
    if Current(db, lease) {
      RecordInvariant(db, lease.run);
      var status := SynthesisStatus(outcome);
      var output := if status.Success? then outcome.output else None;
      StoreSynthesisLegal(db, lease, now, status, output);
      var stored := UpsertResult(db, lease.run, SynthesisResult(status, output));
      var accepted := if output.Some? then Accept(stored, lease, output.value) else stored;
      var finished := FinishRun(db.runs[lease.run], lease.generation, now, status, InBudget, if output.Some? then 1 else 0);
      ThenFinalizeLegal(db, LogEvent(PutRecord(accepted, lease.run, finished), SynthesisProgress), now, f);
    } else {
      DiscardChangesNothing(db, lease, now);
    }
  }

  lemma RenewLeaseLegal(db: Db, lease: Lease, now: Time, seconds: Time)
    requires Inv(db) && db.job.Some?
    ensures Legal(db, RenewLease(db, lease, now, seconds).0)
  {
    EvolvesReflexive(db);
    if Current(db, lease) && !db.job.value.status.Terminal() {
      RecordInvariant(db, lease.run);
      PutRecordLegal(db, lease.run, RenewLease(db, lease, now, seconds).0.runs[lease.run]);
    }
  }

  // ---------- Maintenance ----------

  lemma AbandonOk(record: RunRecord, epoch: nat, now: Time, status: RunStatus)
    requires RecordOk(record, epoch) && record.run.status.Running? && !status.Running? && !status.Pending?
    requires status.RetryScheduled? ==> !record.run.SingleShot()
    ensures var abandoned := record.(attempts :=
              CloseAttempt(record.attempts, record.run.generation, now, AbandonedLeaseExpired, LatePayloadDiscarded));
            && RecordEvolves(record, SetStatus(abandoned, status))
            && RecordEvolves(record, CloseRun(abandoned, status, now))
            && RecordOk(CloseRun(abandoned, status, now), epoch)
            && (record.scan.None? ==> RecordOk(SetStatus(abandoned, status), epoch))
            && (record.scan.Some? ==>
                  var waiting := SetStatus(abandoned, status).(scan := Some(record.scan.value.(status := status)));
                  RecordOk(waiting, epoch) && RecordEvolves(record, waiting))
  {
    CloseAttemptInLedger(record, now, AbandonedLeaseExpired, LatePayloadDiscarded);
  }

  lemma ReclaimClosedLegal(db: Db, r: RunId, closed: RunRecord, now: Time, f: FollowUp)
    requires Inv(db) && db.job.Some? && r in db.runs && db.runs[r].run.status.Running? && f.Fresh(db.runs.Keys)
    requires RecordOk(closed, db.job.value.epoch) && RecordEvolves(db.runs[r], closed)
    requires closed.run.status.ClosedAtCutoff? || closed.run.status.ProviderError?
    requires closed.run.generation == db.runs[r].run.generation
    ensures Legal(db, ReclaimClosed(db, r, closed, now, f))
  {
    hide Inv, Evolves;
    RecordInvariant(db, r);
    var stored := PutRecord(db, r, closed);
    assert stored.runs.Keys == db.runs.Keys;
    if closed.run.provider.Synthesis? {
      EndSynthesisLegal(db, r, closed, SynthesisResult(closed.run.status, None));
      ThenFinalizeLegal(db, PersistFallback(stored, r, closed.run.status), now, f.WithoutSettings());
    } else {
      PutRecordLegal(db, r, closed);
      ThenFinalizeLegal(db, stored, now, f.WithoutSettings());
    }
  }

  lemma ReclaimLegal(db: Db, r: RunId, now: Time, f: FollowUp)
    requires Inv(db) && db.job.Some? && f.Fresh(db.runs.Keys)
    ensures Legal(db, Reclaim(db, r, now, f))
  {
    hide Inv, Evolves;
    EvolvesReflexive(db);
    if Reclaimable(db, r, now) {
      var record := db.runs[r];
      RecordInvariant(db, r);
      var abandoned := record.(attempts :=
        CloseAttempt(record.attempts, record.run.generation, now, AbandonedLeaseExpired, LatePayloadDiscarded));
      if DeadlineReached(record.run.deadline, now) {
        AbandonOk(record, db.job.value.epoch, now, ClosedAtCutoff);
        ReclaimClosedLegal(db, r, CloseRun(abandoned, ClosedAtCutoff, now), now, f);
      } else if record.run.SingleShot() {
        AbandonOk(record, db.job.value.epoch, now, ProviderError);
        ReclaimClosedLegal(db, r, SetStatus(abandoned, ProviderError), now, f);
      } else {
        AbandonOk(record, db.job.value.epoch, now, RetryScheduled);
        var again := SetStatus(abandoned, RetryScheduled);
        var waiting := if again.scan.None? then again else again.(scan := Some(again.scan.value.(status := RetryScheduled)));
        EnqueueLegal(db, r, waiting);
      }
    }
  }

  lemma CutoffRecordOk(record: RunRecord, epoch: nat, now: Time)
    requires RecordOk(record, epoch)
    ensures RecordOk(CutoffRecord(record, now), epoch) && RecordEvolves(record, CutoffRecord(record, now))
  {
    if record.run.status.Running? {
      CloseAttemptInLedger(record, now, Ended(ClosedAtCutoff), LatePayloadDiscarded);
    }
  }

  /** All records are replaced at once by later versions of themselves, and no synthesis ends. */
  predicate LaterRuns(before: map<RunId, RunRecord>, after: map<RunId, RunRecord>, epoch: nat) {
    && after.Keys == before.Keys
    && (forall r | r in after :: RecordOk(after[r], epoch) && RecordEvolves(before[r], after[r]))
    && (forall r | r in after && after[r] != before[r] ::
          && after[r].run.status.Terminal()
          && after[r].run.generation == before[r].run.generation
          && (after[r].run.provider.Synthesis? ==> after[r].run.status.Cancelled?))
  }

  lemma LaterKeepsEvidence(db: Db, runs: map<RunId, RunRecord>, epoch: nat)
    requires EvidenceOk(db) && LaterRuns(db.runs, runs, epoch)
    ensures EvidenceOk(db.(runs := runs))
  {
    var after := db.(runs := runs);
    forall i | 0 <= i < |after.evidence|
      ensures Cites(after, after.evidence[i])
    {
      assert Cites(db, db.evidence[i]);
    }
  }

  lemma LaterKeepsHandoff(db: Db, runs: map<RunId, RunRecord>, epoch: nat)
    requires HandoffOk(db) && LaterRuns(db.runs, runs, epoch)
    ensures HandoffOk(db.(runs := runs))
  {
    forall k | k in db.outbox
      ensures k.run in runs && k.provider == runs[k.run].run.provider && 1 <= k.generation <= LastKey(runs[k.run].run)
    {
      assert RecordEvolves(db.runs[k.run], runs[k.run]);
    }
  }

  lemma LaterKeepsSynthesis(db: Db, runs: map<RunId, RunRecord>, epoch: nat)
    requires db.job.Some? && SynthesisOk(db) && LaterRuns(db.runs, runs, epoch)
    ensures SynthesisOk(db.(runs := runs))
  {
    forall r | r in runs
      ensures runs[r].run.provider == db.runs[r].run.provider && (db.runs[r].run.status.Terminal() ==> runs[r] == db.runs[r])
    {
      assert RecordEvolves(db.runs[r], runs[r]);
    }
  }

  lemma LaterLegal(db: Db, runs: map<RunId, RunRecord>)
    requires Inv(db) && db.job.Some? && !db.job.value.status.Terminal()
    requires LaterRuns(db.runs, runs, db.job.value.epoch)
    ensures Legal(db, db.(runs := runs))
  {
    LaterKeepsEvidence(db, runs, db.job.value.epoch);
    LaterKeepsHandoff(db, runs, db.job.value.epoch);
    LaterKeepsSynthesis(db, runs, db.job.value.epoch);
    LaterEvolves(db, runs);
  }

  lemma LaterEvolves(db: Db, runs: map<RunId, RunRecord>)
    requires db.job.Some? && !db.job.value.status.Terminal() && JobOk(db)
    requires LaterRuns(db.runs, runs, db.job.value.epoch)
    ensures Evolves(db, db.(runs := runs)) && RunsOk(db.(runs := runs)) && JobOk(db.(runs := runs))
  {
    assert db.(runs := runs).runs.Keys == db.runs.Keys;
  }

  lemma CutoffRunsAreLater(db: Db, now: Time)
    requires Inv(db) && db.job.Some?
    ensures LaterRuns(db.runs, map r | r in db.runs :: CutoffRecord(db.runs[r], now), db.job.value.epoch)
  {
    hide Inv;
    forall r | r in db.runs
      ensures RecordOk(CutoffRecord(db.runs[r], now), db.job.value.epoch)
      ensures RecordEvolves(db.runs[r], CutoffRecord(db.runs[r], now))
    {
      RecordInvariant(db, r);
      CutoffRecordOk(db.runs[r], db.job.value.epoch, now);
    }
  }

  lemma CutoffLegal(db: Db, now: Time, f: FollowUp)
    requires Inv(db) && db.job.Some? && f.Fresh(db.runs.Keys)
    ensures Legal(db, Cutoff(db, now, f))
  {
    hide Inv, Evolves, LaterRuns;
    EvolvesReflexive(db);
    if !db.job.value.status.Terminal() {
      var runs := map r | r in db.runs :: CutoffRecord(db.runs[r], now);
      CutoffRunsAreLater(db, now);
      LaterLegal(db, runs);
      assert runs.Keys == db.runs.Keys;
      ThenFinalizeLegal(db, db.(runs := runs), now, f);
    }
  }

  // ---------- Users ----------

  /** Stopping a job is two moves: cancel all open runs, then close the job itself. */
  lemma CancelLegal(db: Db, now: Time)
    requires Inv(db) && db.job.Some?
    ensures Legal(db, Cancel(db, now))
  {
    EvolvesReflexive(db);
    if !db.job.value.status.Terminal() {
      CancelKeepsRest(db, now);
      CancelKeepsRuns(db, now);
    }
  }

  lemma CancelledRunsAreLater(db: Db, now: Time)
    requires Inv(db) && db.job.Some? && !db.job.value.status.Terminal()
    ensures LaterRuns(db.runs, Cancel(db, now).runs, db.job.value.epoch + 1)
    ensures AllTerminal(Cancel(db, now).runs)
  {
    hide Inv;
    var after := Cancel(db, now);
    forall r | r in after.runs
      ensures RecordOk(after.runs[r], db.job.value.epoch + 1) && RecordEvolves(db.runs[r], after.runs[r])
      ensures after.runs[r].run.status.Terminal()
      ensures after.runs[r] != db.runs[r] ==>
        after.runs[r].run.status.Cancelled? && after.runs[r].run.generation == db.runs[r].run.generation
    {
      RecordInvariant(db, r);
      CancelRecordOk(db.runs[r], db.job.value.epoch, now);
    }
    assert after.runs.Keys == db.runs.Keys;
  }

  lemma CancelKeepsRest(db: Db, now: Time)
    requires Inv(db) && db.job.Some? && !db.job.value.status.Terminal()
    ensures var after := Cancel(db, now);
            EvidenceOk(after) && HandoffOk(after) && SynthesisOk(after) && EventsOk(after)
  {
    hide Inv, CancelRecord, LaterRuns, RecordOk, HandoffOk, EvidenceOk, SynthesisOk;
    JobInvariant(db);
    CancelledRunsAreLater(db, now);
    var runs := Cancel(db, now).runs;
    LaterKeepsEvidence(db, runs, db.job.value.epoch + 1);
    LaterKeepsHandoff(db, runs, db.job.value.epoch + 1);
    LaterKeepsSynthesis(db, runs, db.job.value.epoch + 1);
    MaxSequenceIsLength(db.events);
    ClosedJobKeepsRest(db.(runs := runs), Cancel(db, now));
  }

  lemma ClosedJobKeepsRest(db: Db, after: Db)
    requires db.job.Some? && EvidenceOk(db) && HandoffOk(db) && SynthesisOk(db) && EventsOk(db) && !db.job.value.status.Terminal()
    requires after.job.Some? && after.job.value.status.Terminal() && after.job.value.mode == db.job.value.mode
    requires after.events == db.events + [Event(|db.events| + 1, JobStopped, true)]
    requires after == db.(job := after.job, events := after.events)
    ensures EvidenceOk(after) && HandoffOk(after) && SynthesisOk(after) && EventsOk(after)
  {
    forall i | 0 <= i < |after.evidence|
      ensures Cites(after, after.evidence[i])
    {
      assert Cites(db, db.evidence[i]);
    }
  }

  lemma JobInvariant(db: Db)
    requires Inv(db) && db.job.Some?
    ensures JobOk(db) && EvidenceOk(db) && HandoffOk(db) && SynthesisOk(db) && EventsOk(db)
  {}

  lemma CancelKeepsRuns(db: Db, now: Time)
    requires Inv(db) && db.job.Some? && !db.job.value.status.Terminal()
    ensures RunsOk(Cancel(db, now)) && JobOk(Cancel(db, now)) && Evolves(db, Cancel(db, now))
  {
    hide Inv, CancelRecord, LaterRuns, AllTerminal, JobOk;
    CancelledRunsAreLater(db, now);
    JobInvariant(db);
    ClosedJobEvolves(db, Cancel(db, now));
  }

  lemma ClosedJobEvolves(db: Db, after: Db)
    requires db.job.Some? && after.job.Some? && JobOk(db) && !db.job.value.status.Terminal()
    requires JobEvolves(db.job.value, after.job.value) && after.job.value.status.Terminal()
    requires LaterRuns(db.runs, after.runs, after.job.value.epoch) && AllTerminal(after.runs)
    requires after.results == db.results && after.outbox == db.outbox && db.events <= after.events && after.evidence == db.evidence
    ensures RunsOk(after) && JobOk(after) && Evolves(db, after)
  {
    hide RecordOk, RecordEvolves;
  }

  lemma CancelRecordOk(record: RunRecord, epoch: nat, now: Time)
    requires RecordOk(record, epoch)
    ensures RecordOk(CancelRecord(record, now), epoch + 1) && RecordEvolves(record, CancelRecord(record, now))
    ensures CancelRecord(record, now).run.status.Terminal()
    ensures CancelRecord(record, now) != record ==>
      CancelRecord(record, now).run.status.Cancelled? && CancelRecord(record, now).run.generation == record.run.generation
  {
    if record.run.status.Terminal() {
      assert CancelAttempts(record.attempts, now) == record.attempts;
    }
  }

  lemma SelectAnchorLegal(db: Db, candidate: Candidate, now: Time, f: FollowUp)
    requires Inv(db) && db.job.Some? && f.Fresh(db.runs.Keys)
    ensures Legal(db, SelectAnchor(db, candidate, now, f).0)
  {
    hide Inv, Evolves;
    EvolvesReflexive(db);
    var job := db.job.value;
    if !job.status.Terminal() {
      ExpireAnchorLegal(db, now);
      ThenFinalizeLegal(db, ExpireAnchor(db, now), now, f);
      var moved := job.(anchor := Some(candidate.id), exploration := Exploring, rowVersion := job.rowVersion + 1);
      SetJobLegal(db, moved);
      ThenLogLegal(db, db.(job := Some(moved)), AnchorChosen);
      ThenFinalizeLegal(db, ChooseAnchor(db, candidate.id), now, f);
    }
  }

  lemma DispatchLegal(db: Db, key: DedupeKey)
    requires Inv(db) && db.job.Some?
    ensures Legal(db, Dispatch(db, key))
  {
    EvolvesReflexive(db);
    var after := Dispatch(db, key);
    assert after.outbox.Keys == db.outbox.Keys;
    SameRowsLegal(db, after);
  }

  /** The invariant does not look into the messages themselves. */
  lemma SameRowsLegal(db: Db, after: Db)
    requires Inv(db) && db.job.Some?
    requires after == db.(outbox := after.outbox) && after.outbox.Keys == db.outbox.Keys
    ensures Legal(db, after)
  {
    hide HandoffOk, EvidenceOk, RecordOk, Numbered;
    SameKeysHandoff(db, after);
    SameRowsEvidence(db, after);
  }

  lemma SameKeysHandoff(db: Db, after: Db)
    requires HandoffOk(db) && after.runs == db.runs && after.outbox.Keys == db.outbox.Keys
    ensures HandoffOk(after)
  {
    assert forall k :: k in after.outbox <==> k in db.outbox;
  }

  lemma SameRowsEvidence(db: Db, after: Db)
    requires EvidenceOk(db) && after.runs == db.runs && after.evidence == db.evidence
    ensures EvidenceOk(after)
  {
    forall i | 0 <= i < |after.evidence|
      ensures Cites(after, after.evidence[i])
    {
      assert Cites(db, db.evidence[i]);
    }
  }

  // ---------- Creation ----------

  predicate Building(db: Db, ids: set<RunId>) {
    && db.job.Some? && !db.uniqueViolation && !db.tombstone
    && db.job.value.epoch == 1 && !db.job.value.status.Terminal() && !db.job.value.attempt.reported
    && db.runs.Keys == ids
    && RunsOk(db) && HandoffOk(db)
    && (forall r | r in db.runs :: db.runs[r].run.provider.Maigret?)
    && db.results == map[] && db.events == [] && db.evidence == []
  }

  lemma AddShardBuilds(db: Db, ids: set<RunId>, id: RunId, deadline: Time)
    requires Building(db, ids) && id !in ids
    ensures Building(AddShard(db, id, deadline), ids + {id})
    ensures AddShard(db, id, deadline).job == db.job
  {
    var record := PendingRun(Maigret, false, 0, Some(deadline), 1);
    EnqueueKeepsHandoff(db, id, record);
    PutKeepsRuns(db, id, record);
    var after := AddShard(db, id, deadline);
    assert after.runs.Keys == db.runs.Keys + {id};
    assert RunsOk(after) && HandoffOk(after);
  }

  function IdSet(ids: seq<RunId>): set<RunId> {
    set id | id in ids
  }

  lemma {:induction false} AddShardsBuilds(db: Db, ids: seq<RunId>, deadline: Time)
    requires Building(db, {})
    requires forall i, j | 0 <= i < j < |ids| :: ids[i] != ids[j]
    ensures Building(AddShards(db, ids, deadline), IdSet(ids))
    ensures AddShards(db, ids, deadline).job == db.job
  {
    hide Building;
    if ids == [] {
      assert IdSet(ids) == {} && AddShards(db, ids, deadline) == db;
    } else {
      var rest, last := ids[..|ids| - 1], ids[|ids| - 1];
      AddShardsBuilds(db, rest, deadline);
      assert ids == rest + [last];
      assert IdSet(ids) == IdSet(rest) + {last};
      AddShardBuilds(AddShards(db, rest, deadline), IdSet(rest), last, deadline);
    }
  }

  lemma BuiltInv(db: Db, ids: set<RunId>)
    requires Building(db, ids) && ids != {}
    ensures Inv(db)
  {}

  /** A new job starts in a state that satisfies the invariant. */
  lemma CreateEstablishes(mode: SearchMode, bareHandle: bool, deadline: Time, shards: seq<RunId>, hinted: bool)
    requires shards != []
    requires forall i, j | 0 <= i < j < |shards| :: shards[i] != shards[j]
    ensures Inv(Create(mode, bareHandle, deadline, shards, hinted))
    ensures Create(mode, bareHandle, deadline, shards, hinted).runs.Keys == IdSet(shards)
    ensures Create(mode, bareHandle, deadline, shards, hinted).job.Some?
  {
    hide Inv, Evolves;
    var job := Job(mode, bareHandle, deadline, Queued, Idle, 1, 1, None, JobAttempt(false, None, false));
    var empty := Db(Some(job), false, map[], map[], map[], [], [], false);
    AddShardsBuilds(empty, shards, deadline);
    var filled := AddShards(empty, shards, deadline);
    assert shards[0] in IdSet(shards);
    BuiltInv(filled, IdSet(shards));
    LogEventLegal(filled, JobAccepted);
    LogEventLegal(LogEvent(filled, JobAccepted), HistoryHintsApplied);
  }
}
