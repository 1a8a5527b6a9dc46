/** Consequences for a single job: handoffs, whole-life budgets, progress, and the effect of
    advancing a job without settings. */
module FootprintProgress {
  import opened Wrappers
  import opened FootprintModel
  import opened FootprintTransactions
  import opened FootprintInvariant
  import opened FootprintSafety
  import opened FootprintSystem
  import opened FootprintExecutions
  import opened FootprintEffects

  /** No handoff is lost and none clashes: each waiting run has the message of its next
      generation, no insert has met an existing unique key, and reclaiming any run meets none
      either. */
  lemma HandoffsAreSafe(s: System, r: RunId, now: Time, f: FollowUp)
    requires Reachable(s) && f.Fresh(s.used)
    ensures !s.db.uniqueViolation && !Reclaim(s.db, r, now, f).uniqueViolation
    ensures r in s.db.runs && s.db.runs[r].run.status.Waiting() ==>
      DedupeKey(s.db.runs[r].run.provider, r, s.db.runs[r].run.generation + 1) in s.db.outbox
  {
    hide Reachable, Reclaim, LeasesOk, SpendingOk, RecordOk, SynthesisOk, EvidenceOk, EventsOk, JobOk, Evolves;
    ReachableStatesAreSafe(s);
    if s.db.job.Some? {
      assert f.Fresh(s.db.runs.Keys);
      ReclaimLegal(s.db, r, now, f);
    } else {
      DeletedStaysDeleted(s.db, LeaseExpired(r, now, f));
    }
  }

  /** A run whose provider call must not be repeated is leased at most once in its whole life, and
      before its one session it has cost no request. */
  lemma SingleShotRunsOnce(s: System, r: RunId)
    requires Reachable(s) && r in s.db.runs && s.db.runs[r].run.SingleShot()
    ensures |s.db.runs[r].attempts| <= 1
    ensures forall a, b | a in s.workers + s.called && b in s.workers + s.called && a.run == r && b.run == r :: a == b
    ensures (forall a | a in s.called :: a.run != r) ==> Spent(s, r) == 0
  {
    ReachableStatesAreSafe(s);
    hide Reachable;
    RecordInvariant(s.db, r);
    forall a, b | a in s.workers + s.called && b in s.workers + s.called && a.run == r && b.run == r
      ensures a == b
    {
      SingleShotLease(s, a, b);
    }
  }

  /** In every reachable state the attempts of a run are those of its generations 1, 2, ... up to
      the current one, each at most once; only the last one can be open, exactly while the run is
      running under a lease; and no run is ahead of its job's epoch. */
  lemma AttemptLedger(s: System, r: RunId)
    requires Reachable(s) && s.db.job.Some? && r in s.db.runs
    ensures var record := s.db.runs[r];
      && |record.attempts| == record.run.generation
      && (forall i | 0 <= i < |record.attempts| :: record.attempts[i].generation == i + 1)
      && (forall i | 0 <= i < |record.attempts| ::
            record.attempts[i].finishedAt.None? <==> i + 1 == record.run.generation && record.run.status.Running?)
      && (record.run.leaseExpiresAt.Some? <==> record.run.status.Running?)
      && record.run.epoch <= s.db.job.value.epoch
      && (record.run.status.Running? ==> record.run.epoch == s.db.job.value.epoch && record.attempts != [])
  {
    hide Reachable, SystemInv, Inv;
    ReachableStatesAreSafe(s);
    ReachableRows(s);
    RecordInvariant(s.db, r);
  }

  lemma ReachableRows(s: System)
    requires SystemInv(s)
    ensures Inv(s.db)
  {
    hide Inv;
  }

  /** A worker that lost its run changes nothing at all, not even its own attempt. */
  lemma LateWorkerChangesNothing(s: System, step: Step)
    requires Reachable(s) && Enabled(s, step) && step.Finishes() && !Owns(s.db, step.lease)
    ensures Apply(s, step).db == s.db
  {
    ReachableStatesAreSafe(s);
    hide Reachable, CloseAttempt, FinalizeDiscovery;
    assert step.lease in s.workers + s.called;
    DiscardChangesNothing(s.db, step.lease, step.now);
  }

  /** A job that has lost its row is gone for good. */
  lemma {:induction false} DeletionIsFinal(s: System, steps: seq<Step>)
    requires SystemInv(s) && Execution(s, steps) && s.db.job.None?
    ensures var after := After(s, steps).db;
            after.job.None? && after.runs == map[] && after.results == map[] && after.outbox == map[] && after.events == [] && after.evidence == []
  {
    if steps != [] {
      PrefixOfExecution(s, steps);
      ExecutionKeepsInvariant(s, steps[..|steps| - 1]);
      DeletionIsFinal(s, steps[..|steps| - 1]);
      DeletedStaysDeleted(After(s, steps[..|steps| - 1]).db, steps[|steps| - 1]);
    }
  }

  // ---------- Progress ----------

  predicate HasOpenRun(db: Db) {
    exists r | r in db.runs :: !db.runs[r].run.status.Terminal()
  }

  lemma WaveIsOpen(db: Db, wave: seq<PlannedRun>)
    requires db.job.Some? && wave != []
    ensures HasOpenRun(AddWave(db, wave))
  {
    var last := wave[|wave| - 1].id;
    assert last in AddWave(db, wave).runs && AddWave(db, wave).runs[last].run.status.Pending?;
  }

  lemma SkippedSynthesisIsTerminal(db: Db, r: RunId)
    requires db.job.Some? && AllTerminal(db.runs)
    ensures AllTerminal(SkipSynthesis(db, r).runs) && SkipSynthesis(db, r).runs.Keys != {}
  {
    assert r in SkipSynthesis(db, r).runs.Keys;
  }

  /** A live job never gets stuck: when all its runs have ended and no anchor choice is open,
      one maintenance pass finalizes it, opens a new run, or asks for an anchor. */
  lemma MaintenanceMakesProgress(db: Db, now: Time, f: FollowUp)
    requires Inv(db) && db.job.Some? && !db.job.value.status.Terminal() && AllTerminal(db.runs)
    requires !(db.job.value.exploration.AwaitingAnchor? && AnchorOpen(db.job.value, now))
    ensures Advance(db, now, f).job.Some?
    ensures Advance(db, now, f).job.value.status.Terminal() || HasOpenRun(Advance(db, now, f))
      || Advance(db, now, f).job.value.exploration.AwaitingAnchor?
  {
    hide Inv, ScheduleProfessional, ScheduleSynthesis, FinalizeFootprint, AllTerminal, HasOpenRun;
    LiveJobFacts(db);
    var expired := ExpireAnchor(db, now);
    ProfessionalOrNothing(expired, now, f);
    var (searched, wave) := ScheduleProfessional(expired, now, f);
    if !wave && !searched.job.value.exploration.AwaitingAnchor? {
      SynthesisOrFinal(searched, now, f);
    }
  }

  lemma LiveJobFacts(db: Db)
    requires Inv(db) && db.job.Some? && !db.job.value.status.Terminal()
    ensures !db.tombstone && !db.job.value.attempt.reported && db.runs.Keys != {}
  {}

  lemma ProfessionalOrNothing(db: Db, now: Time, f: FollowUp)
    requires db.job.Some?
    ensures var (searched, wave) := ScheduleProfessional(db, now, f);
            && searched.job.Some?
            && (wave ==> HasOpenRun(searched))
            && (!wave && !searched.job.value.exploration.AwaitingAnchor? ==> searched == db)
  {
    hide ProfessionalReady, NeedsAnchor;
    if f.wave != [] {
      WaveIsOpen(db, f.wave);
      var r :| r in AddWave(db, f.wave).runs && !AddWave(db, f.wave).runs[r].run.status.Terminal();
      assert r in StartWave(db, f).runs && !StartWave(db, f).runs[r].run.status.Terminal();
    }
  }

  lemma SynthesisOrFinal(db: Db, now: Time, f: FollowUp)
    requires db.job.Some? && !db.job.value.status.Terminal() && !db.job.value.attempt.reported
    requires AllTerminal(db.runs) && db.runs.Keys != {}
    ensures var (composed, queued) := ScheduleSynthesis(db, f);
            && composed.job.Some?
            && (queued ==> HasOpenRun(composed))
            && (!queued ==>
                  var final := FinalizeFootprint(composed, now, f).0;
                  final.job.Some? && final.job.value.status.Terminal())
  {
    hide Conclusive, HasProvider;
    if SynthesisReady(db) && !f.synthesisConfigured {
      SkippedSynthesisIsTerminal(db, f.synthesisId);
    } else if SynthesisReady(db) {
      var after := StartSynthesis(db, f.synthesisId);
      assert f.synthesisId in after.runs && !after.runs[f.synthesisId].run.status.Terminal();
    }
  }

  // ---------- Advancing a job without settings ----------

  /** A new run of `after` is a synthesis that was recorded as skipped. */
  predicate OnlySkipped(before: Db, after: Db) {
    forall q | q in after.runs && q !in before.runs ::
      after.runs[q].run.provider.Synthesis? && after.runs[q].run.status.SkippedConfiguration?
  }

  lemma SynthesisWithoutSettings(db: Db, f: FollowUp)
    requires db.job.Some? && !f.synthesisConfigured
    ensures var (composed, queued) := ScheduleSynthesis(db, f);
            composed.job.Some? && OnlySkipped(db, composed)
  {
    hide SynthesisReady;
  }

  lemma FinalizerKeepsRuns(db: Db, now: Time, f: FollowUp)
    requires db.job.Some?
    ensures FinalizeFootprint(db, now, f).0.runs == db.runs
  {
    hide FinalizerReady, Verdict;
  }

  lemma FinalizeWithoutSettings(db: Db, now: Time, f: FollowUp)
    requires db.job.Some?
    ensures OnlySkipped(db, FinalizeDiscovery(db, now, f.WithoutSettings()).0)
  {
    var expired := ExpireAnchor(db, now);
    assert expired.runs == db.runs;
    assert ScheduleProfessional(expired, now, f.WithoutSettings()) == (expired, false);
    SynthesisWithoutSettings(expired, f.WithoutSettings());
    hide ScheduleProfessional, ScheduleSynthesis, FinalizeFootprint, ExpireAnchor;
    FinalizerKeepsRuns(ScheduleSynthesis(expired, f.WithoutSettings()).0, now, f.WithoutSettings());
  }

  /** The reconciler advances the job of a run it closes with no settings at hand. So a
      synthesis run created at that moment is always recorded as skipped, and no professional
      search is started, whatever the deployment has configured. */
  lemma ReclaimNeverStartsWork(db: Db, r: RunId, now: Time, f: FollowUp)
    ensures OnlySkipped(db, Reclaim(db, r, now, f))
  {
    hide FinalizeDiscovery, CloseAttempt;
    if Reclaimable(db, r, now) {
      var record := db.runs[r];
      var abandoned := record.(attempts :=
        CloseAttempt(record.attempts, record.run.generation, now, AbandonedLeaseExpired, LatePayloadDiscarded));
      ReclaimClosedOnlySkips(db, r, CloseRun(abandoned, ClosedAtCutoff, now), now, f);
      ReclaimClosedOnlySkips(db, r, SetStatus(abandoned, ProviderError), now, f);
    }
  }

  lemma ReclaimClosedOnlySkips(db: Db, r: RunId, closed: RunRecord, now: Time, f: FollowUp)
    requires db.job.Some? && r in db.runs
    ensures OnlySkipped(db, ReclaimClosed(db, r, closed, now, f))
  {
    hide FinalizeDiscovery;
    FinalizeWithoutSettings(PutRecord(db, r, closed), now, f);
    FinalizeWithoutSettings(PersistFallback(PutRecord(db, r, closed), r, closed.run.status), now, f);
  }

  /** A new run waits for its first worker, and its message is there. */
  predicate Queued(db: Db, r: RunId) {
    && r in db.runs && db.runs[r].run.status.Pending?
    && DedupeKey(db.runs[r].run.provider, r, 1) in db.outbox
  }

  /** The same call on the same rows with settings at hand starts work: it asks for an anchor,
      queues the planned searches, or queues the synthesis. Without settings it ends the job. */
  lemma SettingsWouldStartWork(db: Db, now: Time, f: FollowUp)
    requires Inv(db) && db.job.Some? && SynthesisDue(db) && f.synthesisConfigured && f.Fresh(db.runs.Keys)
    requires !(db.job.value.exploration == AwaitingAnchor && db.job.value.deadline - now >= 30.0)
    ensures var after := FinalizeDiscovery(db, now, f).0;
      && after.job.Some? && !after.job.value.status.Terminal()
      && (if AnchorDue(db, now, f) then after.job.value.exploration.AwaitingAnchor? && after.runs == db.runs
          else if SearchDue(db, now, f) && f.wave != [] then
            forall p | p in f.wave :: Queued(after, p.id) && after.runs[p.id].run.provider.Professional?
          else
            && Queued(after, f.synthesisId)
            && after.runs ==
                 db.runs[f.synthesisId := RunRecord(Run(Synthesis, false, 0, None, Pending, 0, None, db.job.value.epoch, 0), None, [])])
    ensures var without := FinalizeDiscovery(db, now, f.WithoutSettings()).0;
      without.job.Some? && without.job.value.status.Terminal()
  {
    DueMeansReady(db, now, f);
    hide Inv, ProfessionalReady, NeedsAnchor, FinalizeDiscovery, SynthesisReady, SearchDue, AnchorDue, SynthesisDue, AnchorOpen, Queued;
    ReadyAfterExpiry(db, now, f);
    LiveJobFacts(db);
    WindowIsOpen(db.job.value, now);
    StartsWork(db, now, f);
    EndsWithout(db, now, f);
  }

  lemma WindowIsOpen(job: Job, now: Time)
    ensures AnchorOpen(job, now) <==> job.deadline - now >= 30.0
  {}

  lemma StartsWork(db: Db, now: Time, f: FollowUp)
    requires db.job.Some? && SynthesisReady(db) && f.synthesisConfigured && f.Fresh(db.runs.Keys)
    requires !(db.job.value.exploration.AwaitingAnchor? && AnchorOpen(db.job.value, now))
    ensures var after := FinalizeDiscovery(db, now, f).0;
      && after.job.Some? && !after.job.value.status.Terminal()
      && (if ProfessionalReady(db, now, f) && NeedsAnchor(db.job.value, now, f) then
            after.job.value.exploration.AwaitingAnchor? && after.runs == db.runs
          else if ProfessionalReady(db, now, f) && f.wave != [] then
            forall p | p in f.wave :: Queued(after, p.id) && after.runs[p.id].run.provider.Professional?
          else
            Queued(after, f.synthesisId) && after.runs == db.runs[f.synthesisId := SynthesisRecord(db.job.value, Pending)])
  {
    hide ProfessionalReady, NeedsAnchor, FinalizeFootprint, AnchorOpen, MaxSequence, AllTerminal, HasProvider, StartWave, StartSynthesis,
      Queued;
    var expired := ExpireAnchor(db, now);
    ReadyAfterExpiry(db, now, f);
    WaveIsQueued(expired, f);
    SynthesisIsQueued(expired, f.synthesisId);
  }

  lemma SynthesisIsQueued(db: Db, r: RunId)
    requires db.job.Some?
    ensures var after := StartSynthesis(db, r);
      && after.job.Some? && after.job.value.status == db.job.value.status
      && Queued(after, r) && after.runs == db.runs[r := SynthesisRecord(db.job.value, Pending)]
  {
    hide MaxSequence;
  }

  lemma EndsWithout(db: Db, now: Time, f: FollowUp)
    requires db.job.Some? && SynthesisReady(db) && !db.job.value.attempt.reported
    requires !(db.job.value.exploration.AwaitingAnchor? && AnchorOpen(db.job.value, now))
    ensures var without := FinalizeDiscovery(db, now, f.WithoutSettings()).0;
      without.job.Some? && without.job.value.status.Terminal()
  {
    hide ProfessionalReady, NeedsAnchor, FinalizeFootprint, AnchorOpen, MaxSequence, AllTerminal, HasProvider, StartWave, SkipSynthesis;
    ReadyAfterExpiry(db, now, f);
    SkippedIsFinal(ExpireAnchor(db, now), now, f);
  }

  lemma ReadyAfterExpiry(db: Db, now: Time, f: FollowUp)
    requires db.job.Some?
    ensures var expired := ExpireAnchor(db, now);
      && (ProfessionalReady(expired, now, f) <==> ProfessionalReady(db, now, f))
      && (NeedsAnchor(expired.job.value, now, f) <==> NeedsAnchor(db.job.value, now, f))
      && !ProfessionalReady(expired, now, f.WithoutSettings())
      && (SynthesisReady(db) ==> !db.job.value.status.Terminal())
  {
    hide HasProvider, MaigretFinished, AnchorOpen;
  }

  lemma SkippedIsFinal(db: Db, now: Time, f: FollowUp)
    requires db.job.Some? && !db.job.value.status.Terminal() && !db.job.value.attempt.reported && SynthesisReady(db)
    ensures var skipped := SkipSynthesis(db, f.synthesisId);
      var final := FinalizeFootprint(skipped, now, f.WithoutSettings()).0;
      skipped.job.Some? && final.job.Some? && final.job.value.status.Terminal()
  {
    hide Conclusive, HasProvider, MaxSequence;
    SkippedSynthesisIsTerminal(db, f.synthesisId);
  }

  lemma {:induction false} WaveQueued(db: Db, wave: seq<PlannedRun>)
    requires db.job.Some? && forall i, j | 0 <= i < j < |wave| :: wave[i].id != wave[j].id
    ensures forall i | 0 <= i < |wave| ::
      Queued(AddWave(db, wave), wave[i].id) && AddWave(db, wave).runs[wave[i].id].run.provider.Professional?
  {
    if wave != [] {
      WaveQueued(db, wave[..|wave| - 1]);
    }
  }

  lemma WaveIsQueued(db: Db, f: FollowUp)
    requires db.job.Some? && f.Fresh(db.runs.Keys)
    ensures StartWave(db, f).job.Some? && StartWave(db, f).job.value.status == db.job.value.status
    ensures StartWave(db, f).job.value.exploration.Exploring?
    ensures forall p | p in f.wave :: Queued(StartWave(db, f), p.id) && StartWave(db, f).runs[p.id].run.provider.Professional?
  {
    WaveQueued(db, f.wave);
    hide AddWave, MaxSequence;
  }
}
