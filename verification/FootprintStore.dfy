/** The rows of one footprint job as the services change them, one statement at a time. Every
    method is one transaction, or a part of one, and does to the rows what the function of the
    same purpose in `FootprintTransactions` says. */
module FootprintStore {
  import opened Wrappers
  import opened FootprintModel
  import opened FootprintTransactions

  class Store {
    var job: Option<Job>
    var tombstone: bool
    var runs: map<RunId, RunRecord>
    var results: map<RunId, SynthesisResult>
    var outbox: map<DedupeKey, Message>
    var events: seq<Event>
    var evidence: seq<Acceptance>
    var uniqueViolation: bool

    function Rows(): Db
      reads this
    {
      Db(job, tombstone, runs, results, outbox, events, evidence, uniqueViolation)
    }

    // ---------- Rows ----------

    /** Number an event after the highest number among all events of the job. */
    method RecordEvent(kind: EventKind, terminal: bool)
      modifies this`events
      ensures events == AddEvent(old(events), kind, terminal)
    {
      var highest := 0;
      for i := 0 to |events|
        invariant highest == MaxSequence(events[..i])
      {
        assert events[..i + 1][..i] == events[..i];
        if events[i].sequence > highest {
          highest := events[i].sequence;
        }
      }
      assert events[..|events|] == events;
      events := events + [Event(highest + 1, kind, terminal)];
    }

    method RecordCandidates(count: nat)
      modifies this`events
      ensures events == AddEvents(old(events), CandidateDiscovered, count)
    {
      for i := 0 to count
        invariant events == AddEvents(old(events), CandidateDiscovered, i)
      {
        RecordEvent(CandidateDiscovered, false);
      }
    }

    method QueueMessage(key: DedupeKey)
      modifies this`outbox, this`uniqueViolation
      ensures Rows() == Enqueue(old(Rows()), key)
    {
      if key in outbox {
        uniqueViolation := true;
      }
      outbox := outbox[key := Message(0, false)];
    }

    method AddResult(r: RunId, status: RunStatus, output: Option<Payload>)
      modifies this`results, this`uniqueViolation
      ensures Rows() == InsertResult(old(Rows()), r, SynthesisResult(status, output))
    {
      if results.Keys != {} {
        uniqueViolation := true;
      }
      results := results[r := SynthesisResult(status, output)];
    }

    /** Finish the first attempt of run `r` that has this generation, if there is one. */
    method FinishAttempt(r: RunId, generation: nat, now: Time, status: AttemptStatus, disposition: Disposition)
      requires r in runs
      modifies this`runs
      ensures runs == old(runs)[r := old(runs)[r].(attempts := CloseAttempt(old(runs)[r].attempts, generation, now, status, disposition))]
    {
      var attempts := runs[r].attempts;
      var i := FirstWithGeneration(attempts, generation);
      if i < |attempts| {
        var a := attempts[i];
        a := a.(status := status);
        a := a.(finishedAt := Some(now));
        a := a.(disposition := Some(disposition));
        runs := runs[r := runs[r].(attempts := attempts[i := a])];
      } else {
        assert runs[r].(attempts := attempts) == runs[r];
      }
    }

    method SetRunStatus(r: RunId, status: RunStatus)
      requires r in runs
      modifies this`runs
      ensures runs == old(runs)[r := SetStatus(old(runs)[r], status)]
    {
      runs := runs[r := runs[r].(run := runs[r].run.(status := status))];
      runs := runs[r := runs[r].(run := runs[r].run.(leaseExpiresAt := None))];
    }

    /** Close a run and its scan row. */
    method EndRun(r: RunId, status: RunStatus, now: Time)
      requires r in runs
      modifies this`runs
      ensures runs == old(runs)[r := CloseRun(old(runs)[r], status, now)]
    {
      SetRunStatus(r, status);
      if runs[r].scan.Some? {
        var scan := runs[r].scan.value;
        scan := scan.(status := status);
        scan := scan.(finishedAt := Some(now));
        runs := runs[r := runs[r].(scan := Some(scan))];
      }
    }

    // ---------- Progress of the job ----------

    method BumpVersion()
      requires job.Some?
      modifies this`job
      ensures job == Some(old(job).value.(rowVersion := old(job).value.rowVersion + 1))
    {
      job := Some(job.value.(rowVersion := job.value.rowVersion + 1));
    }

    method ExpireAnchorCheckpoint(now: Time)
      requires job.Some?
      modifies this
      ensures Rows() == ExpireAnchor(old(Rows()), now)
    {
      if !job.value.exploration.AwaitingAnchor? || AnchorOpen(job.value, now) {
        return;
      }
      job := Some(job.value.(exploration := Exploring));
      BumpVersion();
      RecordEvent(AnchorWindowExpired, false);
    }

    method AddProfessionalRun(p: PlannedRun)
      requires job.Some?
      modifies this
      ensures Rows() == AddPlannedRun(old(Rows()), p)
    {
      runs := runs[p.id := RunRecord(
        Run(Professional, p.adaptive, p.requestBudget, Some(p.deadline), Pending, 0, None, job.value.epoch, 0), None, [])];
      QueueMessage(DedupeKey(Professional, p.id, 1));
    }

    /** Add a wave of professional runs, or ask the user for an anchor first. */
    method ScheduleSearch(now: Time, f: FollowUp) returns (scheduled: bool)
      requires job.Some?
      modifies this
      ensures (Rows(), scheduled) == ScheduleProfessional(old(Rows()), now, f)
    {
      hide ProfessionalReady, NeedsAnchor, AddPlannedRun, AddEvent;
      if !ProfessionalReady(Rows(), now, f) {
        return false;
      }
      if NeedsAnchor(job.value, now, f) {
        if !job.value.exploration.AwaitingAnchor? {
          job := Some(job.value.(exploration := AwaitingAnchor));
          BumpVersion();
          RecordEvent(AnchorRequired, false);
        }
        return false;
      }
      if f.wave == [] {
        return false;
      }
      NothingAdded(Rows(), f.wave);
      for i := 0 to |f.wave|
        invariant job == old(job) && Rows() == AddWave(old(Rows()), f.wave[..i])
      {
        OneMoreAdded(old(Rows()), f.wave, i);
        AddProfessionalRun(f.wave[i]);
      }
      assert f.wave[..|f.wave|] == f.wave;
      job := Some(job.value.(exploration := Exploring));
      BumpVersion();
      RecordEvent(ProfessionalStarted, false);
      if f.hinted {
        RecordEvent(ProfessionalHintsApplied, false);
      }
      return true;
    }

    /** Queue the one synthesis run, or record that it is skipped. */
    method ScheduleNarrative(f: FollowUp) returns (queued: bool)
      requires job.Some?
      modifies this
      ensures (Rows(), queued) == ScheduleSynthesis(old(Rows()), f)
    {
      hide SynthesisReady, AddEvent;
      if !SynthesisReady(Rows()) {
        return false;
      }
      var status := if f.synthesisConfigured then Pending else SkippedConfiguration;
      runs := runs[f.synthesisId := RunRecord(Run(Synthesis, false, 0, None, status, 0, None, job.value.epoch, 0), None, [])];
      if !f.synthesisConfigured {
        AddResult(f.synthesisId, SkippedConfiguration, None);
        RecordEvent(SynthesisProgress, false);
        return false;
      }
      QueueMessage(DedupeKey(Synthesis, f.synthesisId, 1));
      job := Some(job.value.(exploration := Exploring));
      BumpVersion();
      RecordEvent(SynthesisStarted, false);
      return true;
    }

    method FinalizeReport(now: Time, f: FollowUp) returns (finalized: bool)
      requires job.Some?
      modifies this
      ensures (Rows(), finalized) == FinalizeFootprint(old(Rows()), now, f)
    {
      hide FinalizerReady, Verdict, AddEvent;
      if !FinalizerReady(Rows()) {
        return false;
      }
      var verdict := Verdict(Rows(), f);
      RecordEvent(FinalizationStarted, false);
      BumpVersion();
      job := Some(job.value.(attempt := JobAttempt(false, Some(now), true)));
      job := Some(job.value.(status := verdict, exploration := Completed));
      job := Some(job.value.(epoch := job.value.epoch + 1));
      BumpVersion();
      RecordEvent(JobReady, true);
      return true;
    }

    /** Advance the job as far as its finished work allows. */
    method AdvanceDiscovery(now: Time, f: FollowUp) returns (finalized: bool)
      requires job.Some?
      modifies this
      ensures (Rows(), finalized) == FinalizeDiscovery(old(Rows()), now, f)
      ensures job.Some?
    {
      hide ExpireAnchor, ScheduleProfessional, ScheduleSynthesis, FinalizeFootprint;
      AdvanceKeepsJob(Rows(), now, f);
      if job.value.status.Terminal() {
        return false;
      }
      if job.value.exploration.AwaitingAnchor? && AnchorOpen(job.value, now) {
        return false;
      }
      ExpireAnchorCheckpoint(now);
      var wave := ScheduleSearch(now, f);
      if wave {
        return false;
      }
      if job.value.exploration.AwaitingAnchor? {
        return false;
      }
      var queued := ScheduleNarrative(f);
      if queued {
        return false;
      }
      finalized := FinalizeReport(now, f);
    }

    // ---------- Leasing ----------

    /** The job no longer wants this run. */
    method DropWaitingRun(r: RunId)
      requires r in runs
      modifies this`runs
      ensures runs == old(runs)[r := DropRun(old(runs)[r])]
    {
      SetRunStatus(r, Cancelled);
      if runs[r].scan.Some? {
        runs := runs[r := runs[r].(scan := Some(runs[r].scan.value.(status := Cancelled)))];
      }
    }

    /** The next generation of a run, with its attempt row. */
    method TakeRun(r: RunId, now: Time, seconds: Time) returns (lease: Option<Lease>)
      requires r in runs && job.Some?
      modifies this`runs
      ensures runs == old(runs)[r := TakeLease(old(runs)[r], job.value, now, seconds)]
      ensures lease == LeaseOf(Rows(), r)
    {
      var run := runs[r].run;
      run := run.(status := Running);
      run := run.(generation := run.generation + 1);
      run := run.(leaseExpiresAt := Some(now + seconds));
      run := run.(epoch := job.value.epoch);
      var scan := runs[r].scan;
      if scan.Some? {
        scan := Some(scan.value.(status := Running, startedAt := Some(now)));
      }
      runs := runs[r := RunRecord(run, scan, runs[r].attempts + [Attempt(run.generation, InProgress, None, None)])];
      return Some(Lease(r, run.generation, run.epoch));
    }

    method CloseUnleased(r: RunId, status: RunStatus, now: Time, f: FollowUp)
      requires r in runs && job.Some?
      modifies this
      ensures Rows() == FinalizeDiscovery(PutRecord(old(Rows()), r, CloseRun(old(Rows()).runs[r], status, now)), now, f).0
    {
      hide FinalizeDiscovery, CloseRun;
      EndRun(r, status, now);
      var finalized := AdvanceDiscovery(now, f);
    }

    method LeaseScanRun(r: RunId, now: Time, config: ScanConfig, f: FollowUp) returns (lease: Option<Lease>)
      modifies this
      ensures (Rows(), lease) == LeaseScan(old(Rows()), r, now, config, f)
    {
      hide FinalizeDiscovery, CloseRun, TakeLease, DropRun, AddEvent;
      if r !in runs || !runs[r].run.provider.Maigret? || !runs[r].run.status.Waiting() {
        return None;
      }
      if job.None? || job.value.status.Terminal() || tombstone {
        DropWaitingRun(r);
        return None;
      }
      if DeadlineReached(runs[r].run.deadline, now) {
        CloseUnleased(r, ClosedAtCutoff, now, f);
        return None;
      }
      if !config.enabled {
        CloseUnleased(r, Cancelled, now, f);
        return None;
      }
      if !config.catalogPresent {
        CloseUnleased(r, ProviderError, now, f);
        return None;
      }
      lease := TakeRun(r, now, config.leaseSeconds);
      if job.value.status.Queued? {
        job := Some(job.value.(status := Discovering, exploration := Exploring));
        BumpVersion();
        job := Some(job.value.(attempt := job.value.attempt.(running := true)));
        RecordEvent(CatalogScanStarted, false);
      }
    }

    method StartAttempt()
      requires job.Some?
      modifies this`job
      ensures Rows() == StartLateWorker(old(Rows()))
    {
      job := Some(job.value.(attempt := job.value.attempt.(running := true)));
      if job.value.status.Queued? {
        job := Some(job.value.(status := Discovering));
        BumpVersion();
      }
    }

    method LeaseSearchRun(r: RunId, now: Time, seconds: Time, f: FollowUp) returns (lease: Option<Lease>)
      modifies this
      ensures (Rows(), lease) == LeaseProfessional(old(Rows()), r, now, seconds, f)
    {
      hide FinalizeDiscovery, CloseRun, TakeLease, DropRun, StartLateWorker;
      if r !in runs || !runs[r].run.provider.Professional? || !runs[r].run.status.Waiting() {
        return None;
      }
      if job.None? || job.value.status.Terminal() || tombstone {
        DropWaitingRun(r);
        return None;
      }
      if DeadlineReached(runs[r].run.deadline, now) {
        CloseUnleased(r, ClosedAtCutoff, now, f);
        return None;
      }
      lease := TakeRun(r, now, seconds);
      StartAttempt();
    }

    method LeaseNarrativeRun(r: RunId, now: Time, seconds: Time) returns (lease: Option<Lease>)
      modifies this
      ensures (Rows(), lease) == LeaseSynthesis(old(Rows()), r, now, seconds)
    {
      hide TakeLease, DropRun, StartLateWorker;
      if r !in runs || !runs[r].run.provider.Synthesis? || !runs[r].run.status.Waiting() {
        return None;
      }
      if job.None? || job.value.status.Terminal() || tombstone || job.value.mode.Quick? {
        DropWaitingRun(r);
        return None;
      }
      lease := TakeRun(r, now, seconds);
      StartAttempt();
    }

    // ---------- Completing ----------

    /** A fenced worker marks its own attempt, if that is still open. */
    method DiscardLate(lease: Lease, now: Time)
      modifies this`runs
      ensures Rows() == Discard(old(Rows()), lease, now)
    {
      if lease.run !in runs {
        return;
      }
      var attempts := runs[lease.run].attempts;
      var i := FirstWithGeneration(attempts, lease.generation);
      if i < |attempts| && attempts[i].status.InProgress? && attempts[i].finishedAt.None? {
        var a := attempts[i];
        a := a.(status := CompletedAfterFence);
        a := a.(disposition := Some(LatePayloadDiscarded));
        a := a.(finishedAt := Some(now));
        runs := runs[lease.run := runs[lease.run].(attempts := attempts[i := a])];
      }
    }

    /** Close the worker's run and its attempt. */
    method Finish(r: RunId, generation: nat, now: Time, status: RunStatus, disposition: Disposition, count: nat)
      requires r in runs
      modifies this`runs
      ensures runs == old(runs)[r := FinishRun(old(runs)[r], generation, now, status, disposition, count)]
    {
      hide CloseAttempt;
      EndRun(r, status, now);
      runs := runs[r := runs[r].(run := runs[r].run.(resultCount := count))];
      FinishAttempt(r, generation, now, Ended(status), disposition);
    }

    method CompleteScanRun(lease: Lease, now: Time, outcome: ScanOutcome)
      modifies this
      ensures Rows() == CompleteScan(old(Rows()), lease, now, outcome)
    {
      hide FinishRun, AddEvents, AddEvent, Discard;
      if !Current(Rows(), lease) || runs[lease.run].scan.None? {
        DiscardLate(lease, now);
        return;
      }
      match outcome {
        case ScanFailed =>
          Finish(lease.run, lease.generation, now, ProviderError, InBudget, runs[lease.run].run.resultCount);
        case ScanUnsaved =>
          Finish(lease.run, lease.generation, now, ProviderError, PayloadDiscardedPolicy, 0);
          RecordEvent(CatalogProgress, false);
        case ScanSaved(status, payload, found, newAccounts) =>
          evidence := evidence + [Acceptance(lease.run, lease.generation, lease.epoch, payload)];
          RecordCandidates(newAccounts);
          Finish(lease.run, lease.generation, now, status, if status.Cancelled? then PartialPreserved else InBudget, found);
          RecordEvent(CatalogProgress, false);
      }
    }

    method CompleteSearchRun(lease: Lease, now: Time, outcome: SearchOutcome, f: FollowUp)
      modifies this
      ensures Rows() == CompleteProfessional(old(Rows()), lease, now, outcome, f)
    {
      hide FinishRun, AddEvents, AddEvent, Discard, FinalizeDiscovery, SearchStatus;
      if !Current(Rows(), lease) {
        DiscardLate(lease, now);
        return;
      }
      if DeadlineReached(runs[lease.run].run.deadline, now) {
        Finish(lease.run, lease.generation, now, ClosedAtCutoff, LatePayloadDiscarded, 0);
      } else {
        evidence := evidence + [Acceptance(lease.run, lease.generation, lease.epoch, outcome.payload)];
        RecordCandidates(outcome.newAccounts);
        var status := SearchStatus(outcome);
        var disposition := if status.PartialSuccess? then PartialPreserved else InBudget;
        Finish(lease.run, lease.generation, now, status, disposition, outcome.accepted);
      }
      RecordEvent(ProfessionalProgress, false);
      var finalized := AdvanceDiscovery(now, f);
    }

    method RenewRun(lease: Lease, now: Time, seconds: Time) returns (owned: bool)
      modifies this
      ensures (Rows(), owned) == RenewLease(old(Rows()), lease, now, seconds)
    {
      if !Current(Rows(), lease) || job.value.status.Terminal() {
        return false;
      }
      runs := runs[lease.run := runs[lease.run].(run := runs[lease.run].run.(leaseExpiresAt := Some(now + seconds)))];
      return true;
    }

    method CompleteNarrativeRun(lease: Lease, now: Time, outcome: SynthesisOutcome, f: FollowUp)
      modifies this
      ensures Rows() == CompleteSynthesis(old(Rows()), lease, now, outcome, f)
    {
      hide FinishRun, AddEvent, Discard, FinalizeDiscovery, SynthesisStatus;
      if !Current(Rows(), lease) || job.value.status.Terminal() {
        DiscardLate(lease, now);
        return;
      }
      var status := SynthesisStatus(outcome);
      var output := if status.Success? then outcome.output else None;
      if lease.run in results {
        results := results[lease.run := SynthesisResult(status, output)];
      } else {
        AddResult(lease.run, status, output);
      }
      if output.Some? {
        evidence := evidence + [Acceptance(lease.run, lease.generation, lease.epoch, output.value)];
      }
      Finish(lease.run, lease.generation, now, status, InBudget, if output.Some? then 1 else 0);
      RecordEvent(SynthesisProgress, false);
      var finalized := AdvanceDiscovery(now, f);
    }

    // ---------- Maintenance ----------

    /** Resolve a lost synthesis, then advance the job without settings. */
    method FinishReclaim(r: RunId, now: Time, f: FollowUp)
      requires r in runs && job.Some?
      modifies this
      ensures Rows() == ReclaimClosed(old(Rows()), r, old(Rows()).runs[r], now, f)
    {
      hide FinalizeDiscovery;
      assert PutRecord(Rows(), r, runs[r]) == Rows() by {
        assert runs[r := runs[r]] == runs;
      }
      if runs[r].run.provider.Synthesis? && r !in results {
        AddResult(r, runs[r].run.status, None);
      }
      var finalized := AdvanceDiscovery(now, f.WithoutSettings());
    }

    method ReclaimRun(r: RunId, now: Time, f: FollowUp)
      modifies this
      ensures Rows() == Reclaim(old(Rows()), r, now, f)
    {
      hide ReclaimClosed, CloseRun, SetStatus, CloseAttempt;
      if job.None? || r !in runs {
        return;
      }
      var run := runs[r].run;
      if !run.status.Running? || run.leaseExpiresAt.None? || run.leaseExpiresAt.value > now {
        return;
      }
      FinishAttempt(r, run.generation, now, AbandonedLeaseExpired, LatePayloadDiscarded);
      if DeadlineReached(run.deadline, now) {
        EndRun(r, ClosedAtCutoff, now);
        SameReclaim(old(Rows()), Rows(), r, now, f);
        FinishReclaim(r, now, f);
      } else if run.SingleShot() {
        SetRunStatus(r, ProviderError);
        SameReclaim(old(Rows()), Rows(), r, now, f);
        FinishReclaim(r, now, f);
      } else {
        SetRunStatus(r, RetryScheduled);
        if runs[r].scan.Some? {
          runs := runs[r := runs[r].(scan := Some(runs[r].scan.value.(status := RetryScheduled)))];
        }
        QueueMessage(DedupeKey(run.provider, r, run.generation + 1));
      }
    }

    /** Close every unfinished retrieval run of a job whose window is over. */
    method CloseWindow(now: Time, f: FollowUp)
      modifies this
      ensures Rows() == Cutoff(old(Rows()), now, f)
    {
      hide FinalizeDiscovery, CutoffRecord;
      if job.None? || job.value.status.Terminal() {
        return;
      }
      ghost var before := Rows();
      CutOffRuns(now);
      assert Rows() == before.(runs := map r | r in before.runs :: CutoffRecord(before.runs[r], now));
      var finalized := AdvanceDiscovery(now, f);
    }

    method CutOffRuns(now: Time)
      modifies this`runs
      ensures runs == map q | q in old(runs) :: CutoffRecord(old(runs)[q], now)
    {
      hide CutoffRecord;
      var left := runs.Keys;
      while left != {}
        invariant left <= old(runs).Keys && runs.Keys == old(runs).Keys
        invariant forall q | q in left :: runs[q] == old(runs)[q]
        invariant forall q | q in runs && q !in left :: runs[q] == CutoffRecord(old(runs)[q], now)
        decreases |left|
      {
        var q :| q in left;
        CutOff(q, now);
        left := left - {q};
      }
    }

    method CutOff(r: RunId, now: Time)
      requires r in runs
      modifies this`runs
      ensures runs == old(runs)[r := CutoffRecord(old(runs)[r], now)]
    {
      hide CloseAttempt, CloseRun;
      var run := runs[r].run;
      if run.status.Terminal() || run.provider.Synthesis? {
        assert CutoffRecord(runs[r], now) == runs[r] && runs[r := runs[r]] == runs;
        return;
      }
      EndRun(r, ClosedAtCutoff, now);
      if run.status.Running? {
        FinishAttempt(r, run.generation, now, Ended(ClosedAtCutoff), LatePayloadDiscarded);
      }
      assert runs == old(runs)[r := runs[r]];
    }

    // ---------- Users ----------

    method CancelRun(r: RunId, now: Time)
      requires r in runs
      modifies this`runs
      ensures runs == old(runs)[r := CancelRecord(old(runs)[r], now)]
    {
      var record := runs[r];
      if !record.run.status.Terminal() {
        record := record.(run := record.run.(status := Cancelled, leaseExpiresAt := None));
      }
      if record.scan.Some? && !record.scan.value.status.Terminal() {
        record := record.(scan := Some(record.scan.value.(status := Cancelled, finishedAt := Some(now))));
      }
      var attempts := CancelOpenAttempts(record.attempts, now);
      record := record.(attempts := attempts);
      runs := runs[r := record];
    }

    method CancelJob(now: Time)
      modifies this
      ensures Rows() == Cancel(old(Rows()), now)
    {
      hide CancelRecord, AddEvent;
      if job.None? || job.value.status.Terminal() {
        return;
      }
      job := Some(job.value.(status := JobCancelled));
      job := Some(job.value.(exploration := ExplorationCancelled));
      job := Some(job.value.(epoch := job.value.epoch + 1));
      BumpVersion();
      job := Some(job.value.(attempt := job.value.attempt.(running := false, finishedAt := Some(now))));
      CancelRuns(now);
      RecordEvent(JobStopped, true);
    }

    method CancelRuns(now: Time)
      modifies this`runs
      ensures runs == map q | q in old(runs) :: CancelRecord(old(runs)[q], now)
    {
      hide CancelRecord;
      var left := runs.Keys;
      while left != {}
        invariant left <= old(runs).Keys && runs.Keys == old(runs).Keys
        invariant forall q | q in left :: runs[q] == old(runs)[q]
        invariant forall q | q in runs && q !in left :: runs[q] == CancelRecord(old(runs)[q], now)
        decreases |left|
      {
        var q :| q in left;
        CancelRun(q, now);
        left := left - {q};
      }
    }

    method PickAnchor(candidate: Candidate, now: Time, f: FollowUp) returns (reply: AnchorReply)
      modifies this
      ensures (Rows(), reply) == SelectAnchor(old(Rows()), candidate, now, f)
    {
      hide FinalizeDiscovery, ExpireAnchor, AddEvent;
      if job.None? || !candidate.known {
        return CandidateNotFound;
      }
      if !job.value.bareHandle {
        return SelectionNotRequired;
      }
      if !candidate.exactHandle {
        return CandidateInvalid;
      }
      if job.value.anchor == Some(candidate.id) {
        return AnchorAccepted;
      }
      if job.value.status.Terminal() {
        return SelectionClosed;
      }
      if !job.value.exploration.AwaitingAnchor? {
        return SelectionUnavailable;
      }
      if !AnchorOpen(job.value, now) {
        AdvanceKeepsJob(Rows(), now, f);
        ExpireAnchorCheckpoint(now);
        var finalized := AdvanceDiscovery(now, f);
        return SelectionExpired;
      }
      if !candidate.eligible {
        return CandidateNotHypothesis;
      }
      job := Some(job.value.(anchor := Some(candidate.id)));
      job := Some(job.value.(exploration := Exploring));
      BumpVersion();
      RecordEvent(AnchorChosen, false);
      var finalized := AdvanceDiscovery(now, f);
      return AnchorAccepted;
    }

    /** Publish one message and mark it. */
    method DispatchMessage(key: DedupeKey)
      modifies this`outbox
      ensures Rows() == Dispatch(old(Rows()), key)
    {
      if key !in outbox || outbox[key].dispatched {
        return;
      }
      var message := outbox[key];
      message := message.(deliveries := message.deliveries + 1);
      message := message.(dispatched := true);
      outbox := outbox[key := message];
    }

    /** A new job with one pending scan for each catalog shard. */
    constructor (mode: SearchMode, bareHandle: bool, deadline: Time, shards: seq<RunId>, hinted: bool)
      ensures Rows() == Create(mode, bareHandle, deadline, shards, hinted)
    {
      job := Some(Job(mode, bareHandle, deadline, Queued, Idle, 1, 1, None, JobAttempt(false, None, false)));
      tombstone := false;
      runs, results, outbox, events, evidence, uniqueViolation := map[], map[], map[], [], [], false;
      new;
      ghost var empty := Rows();
      NoShards(empty, shards, deadline);
      for i := 0 to |shards|
        invariant Rows() == AddShards(empty, shards[..i], deadline)
      {
        OneMoreShard(empty, shards, i, deadline);
        AddScanRun(shards[i], deadline);
      }
      assert shards[..|shards|] == shards;
      RecordEvent(JobAccepted, false);
      if hinted {
        RecordEvent(HistoryHintsApplied, false);
      }
    }

    method AddScanRun(id: RunId, deadline: Time)
      modifies this
      ensures Rows() == AddShard(old(Rows()), id, deadline)
    {
      runs := runs[id := RunRecord(
        Run(Maigret, false, 0, Some(deadline), Pending, 0, None, 1, 0), Some(Scan(Pending, None, None)), [])];
      QueueMessage(DedupeKey(Maigret, id, 1));
    }
  }

  lemma NoShards(db: Db, shards: seq<RunId>, deadline: Time)
    ensures AddShards(db, shards[..0], deadline) == db
  {}

  lemma OneMoreShard(db: Db, shards: seq<RunId>, i: nat, deadline: Time)
    requires i < |shards|
    ensures AddShards(db, shards[..i + 1], deadline) == AddShard(AddShards(db, shards[..i], deadline), shards[i], deadline)
  {
    assert shards[..i + 1][..i] == shards[..i];
  }

  /** Replacing a row twice is replacing it once. */
  lemma SameReclaim(before: Db, current: Db, r: RunId, now: Time, f: FollowUp)
    requires before.job.Some? && r in current.runs && current == PutRecord(before, r, current.runs[r])
    ensures ReclaimClosed(before, r, current.runs[r], now, f) == ReclaimClosed(current, r, current.runs[r], now, f)
  {
    hide FinalizeDiscovery;
    assert PutRecord(current, r, current.runs[r]) == current;
  }

  method CancelOpenAttempts(attempts: seq<Attempt>, now: Time) returns (closed: seq<Attempt>)
    ensures closed == CancelAttempts(attempts, now)
  {
    closed := [];
    for i := 0 to |attempts|
      invariant |closed| == i
      invariant forall j | 0 <= j < i :: closed[j] == CancelAttempts(attempts, now)[j]
    {
      var a := attempts[i];
      if a.finishedAt.None? {
        a := a.(finishedAt := Some(now));
        a := a.(status := Ended(Cancelled));
        a := a.(disposition := Some(LatePayloadDiscarded));
      }
      closed := closed + [a];
    }
  }

  method FirstWithGeneration(attempts: seq<Attempt>, generation: nat) returns (i: nat)
    ensures i <= |attempts|
    ensures FindAttempt(attempts, generation) == if i < |attempts| then Some(i) else None
  {
    i := 0;
    while i < |attempts| && attempts[i].generation != generation
      invariant i <= |attempts|
      invariant forall j | 0 <= j < i :: attempts[j].generation != generation
    {
      i := i + 1;
    }
    FindAttemptIs(attempts, generation, i);
  }

  lemma {:induction false} FindAttemptIs(attempts: seq<Attempt>, generation: nat, i: nat)
    requires i <= |attempts| && forall j | 0 <= j < i :: attempts[j].generation != generation
    requires i < |attempts| ==> attempts[i].generation == generation
    ensures FindAttempt(attempts, generation) == if i < |attempts| then Some(i) else None
  {
    if attempts != [] && i > 0 {
      FindAttemptIs(attempts[1..], generation, i - 1);
    }
  }

  lemma NothingAdded(db: Db, wave: seq<PlannedRun>)
    requires db.job.Some?
    ensures AddWave(db, wave[..0]) == db
  {}

  lemma OneMoreAdded(db: Db, wave: seq<PlannedRun>, i: nat)
    requires db.job.Some? && i < |wave|
    ensures AddWave(db, wave[..i + 1]) == AddPlannedRun(AddWave(db, wave[..i]), wave[i])
  {
    assert wave[..i + 1][..i] == wave[..i];
  }

  lemma AdvanceKeepsJob(db: Db, now: Time, f: FollowUp)
    requires db.job.Some?
    ensures FinalizeDiscovery(db, now, f).0.job.Some?
    ensures ExpireAnchor(db, now).job.Some?
    ensures forall d: Db | d.job.Some? :: ScheduleProfessional(d, now, f).0.job.Some? && ScheduleSynthesis(d, f).0.job.Some?
    ensures forall d: Db | d.job.Some? :: FinalizeFootprint(d, now, f).0.job.Some?
  {
    hide ScheduleProfessional, ScheduleSynthesis, FinalizeFootprint, AnchorOpen, AddEvent;
    forall d: Db | d.job.Some?
      ensures ScheduleProfessional(d, now, f).0.job.Some? && ScheduleSynthesis(d, f).0.job.Some?
      ensures FinalizeFootprint(d, now, f).0.job.Some?
    {
      SearchKeepsJob(d, now, f);
      NarrativeKeepsJob(d, now, f);
    }
  }

  lemma SearchKeepsJob(db: Db, now: Time, f: FollowUp)
    requires db.job.Some?
    ensures ScheduleProfessional(db, now, f).0.job.Some?
  {
    hide ProfessionalReady, NeedsAnchor, AddWave, AddEvent;
  }

  lemma NarrativeKeepsJob(db: Db, now: Time, f: FollowUp)
    requires db.job.Some?
    ensures ScheduleSynthesis(db, f).0.job.Some? && FinalizeFootprint(db, now, f).0.job.Some?
  {
    hide SynthesisReady, FinalizerReady, Verdict, AddEvent;
  }
}
