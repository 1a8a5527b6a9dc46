/** What each transaction of the discovery protocol does to the rows of its job, as a
    function from the rows before to the rows after. */
module FootprintTransactions {
  import opened Wrappers
  import opened FootprintModel

  const MIN_ANCHOR_SELECTION_SECONDS: Time := 30.0
  const MIN_PROFESSIONAL_SEARCH_SECONDS: Time := 30.0

  // ---------- Small row operations ----------

  function DeadlineReached(deadline: Option<Time>, now: Time): bool {
    deadline.Some? && deadline.value <= now
  }

  function MaxSequence(events: seq<Event>): nat {
    if events == [] then 0
    else
      var rest := MaxSequence(events[..|events| - 1]);
      var last := events[|events| - 1].sequence;
      if last > rest then last else rest
  }

  function AddEvent(events: seq<Event>, kind: EventKind, terminal: bool): seq<Event> {
    events + [Event(MaxSequence(events) + 1, kind, terminal)]
  }

  function AddEvents(events: seq<Event>, kind: EventKind, count: nat): seq<Event> {
    if count == 0 then events else AddEvent(AddEvents(events, kind, count - 1), kind, false)
  }

  function LogEvent(db: Db, kind: EventKind): Db {
    db.(events := AddEvent(db.events, kind, false))
  }

  function PutRecord(db: Db, r: RunId, record: RunRecord): Db {
    db.(runs := db.runs[r := record])
  }

  /** Insert an outbox message under its unique key. */
  function Enqueue(db: Db, key: DedupeKey): Db {
    db.(outbox := db.outbox[key := Message(0, false)],
        uniqueViolation := db.uniqueViolation || key in db.outbox)
  }

  /** Insert the result row of run `r`: the run id is its primary key, and a job has at most
      one result row. */
  function InsertResult(db: Db, r: RunId, result: SynthesisResult): Db {
    db.(results := db.results[r := result],
        uniqueViolation := db.uniqueViolation || db.results.Keys != {})
  }

  function EndAttempt(a: Attempt, now: Time, status: AttemptStatus, disposition: Disposition): Attempt {
    a.(status := status, finishedAt := Some(now), disposition := Some(disposition))
  }

  /** The first attempt row with this generation, if there is one. */
  function FindAttempt(attempts: seq<Attempt>, generation: nat): (i: Option<nat>)
    ensures i.Some? ==> i.value < |attempts| && attempts[i.value].generation == generation
  {
    if attempts == [] then None
    else if attempts[0].generation == generation then Some(0)
    else
      match FindAttempt(attempts[1..], generation)
      case None => None
      case Some(j) => Some(j + 1)
  }

  function CloseAttempt(attempts: seq<Attempt>, generation: nat, now: Time, status: AttemptStatus,
                        disposition: Disposition): seq<Attempt>
  {
    match FindAttempt(attempts, generation)
    case None => attempts
    case Some(i) => attempts[i := EndAttempt(attempts[i], now, status, disposition)]
  }

  function SetStatus(record: RunRecord, status: RunStatus): RunRecord {
    record.(run := record.run.(status := status, leaseExpiresAt := None))
  }

  function SetScan(record: RunRecord, status: RunStatus, finishedAt: Option<Time>): RunRecord {
    if record.scan.None? then record
    else record.(scan := Some(record.scan.value.(status := status, finishedAt := finishedAt)))
  }

  /** Close a run and its scan row in one terminal status. */
  function CloseRun(record: RunRecord, status: RunStatus, now: Time): RunRecord {
    SetScan(SetStatus(record, status), status, Some(now))
  }

  function PendingRun(provider: Provider, adaptive: bool, requestBudget: nat, deadline: Option<Time>, epoch: nat): RunRecord {
    RunRecord(
      Run(provider, adaptive, requestBudget, deadline, Pending, 0, None, epoch, 0),
      if provider.Maigret? then Some(Scan(Pending, None, None)) else None,
      [])
  }

  // ---------- Job progress: schedulers and finalizer ----------

  function AnchorOpen(job: Job, now: Time): bool {
    job.deadline - now >= MIN_PROFESSIONAL_SEARCH_SECONDS
  }

  function ExpireAnchor(db: Db, now: Time): Db
    requires db.job.Some?
  {
    var job := db.job.value;
    if !job.exploration.AwaitingAnchor? || AnchorOpen(job, now) then db
    else
      LogEvent(db.(job := Some(job.(exploration := Exploring, rowVersion := job.rowVersion + 1))),
               AnchorWindowExpired)
  }

  predicate HasProvider(runs: map<RunId, RunRecord>, provider: Provider) {
    exists r | r in runs :: runs[r].run.provider == provider
  }

  predicate AllTerminal(runs: map<RunId, RunRecord>) {
    forall r | r in runs :: runs[r].run.status.Terminal()
  }

  /** Root discovery is over. This set of final statuses omits `invalid_response`. */
  predicate MaigretFinished(runs: map<RunId, RunRecord>) {
    forall r | r in runs && runs[r].run.provider.Maigret? ::
      runs[r].run.status.Terminal() && !runs[r].run.status.InvalidResponse?
  }

  predicate ProfessionalReady(db: Db, now: Time, f: FollowUp)
    requires db.job.Some?
  {
    var job := db.job.value;
    && !job.status.Terminal()
    && f.professionalEnabled
    && !(job.deadline <= now)
    && !HasProvider(db.runs, Professional)
    && HasProvider(db.runs, Maigret)
    && MaigretFinished(db.runs)
    && f.hypotheses > 0
  }

  predicate NeedsAnchor(job: Job, now: Time, f: FollowUp) {
    && job.bareHandle
    && f.hypotheses > 1
    && job.anchor.None?
    && f.searchAvailable
    && job.deadline - now >= MIN_ANCHOR_SELECTION_SECONDS + MIN_PROFESSIONAL_SEARCH_SECONDS
  }

  function RequireAnchor(db: Db): Db
    requires db.job.Some?
  {
    var job := db.job.value;
    if job.exploration.AwaitingAnchor? then db
    else
      LogEvent(db.(job := Some(job.(exploration := AwaitingAnchor, rowVersion := job.rowVersion + 1))),
               AnchorRequired)
  }

  function AddPlannedRun(db: Db, p: PlannedRun): Db
    requires db.job.Some?
  {
    Enqueue(
      PutRecord(db, p.id, PendingRun(Professional, p.adaptive, p.requestBudget, Some(p.deadline), db.job.value.epoch)),
      DedupeKey(Professional, p.id, 1))
  }

  function AddWave(db: Db, wave: seq<PlannedRun>): (after: Db)
    requires db.job.Some?
    ensures after.job == db.job
  {
    if wave == [] then db else AddPlannedRun(AddWave(db, wave[..|wave| - 1]), wave[|wave| - 1])
  }

  function StartWave(db: Db, f: FollowUp): Db
    requires db.job.Some?
  {
    var filled := AddWave(db, f.wave);
    var job := filled.job.value;
    var started := LogEvent(
      filled.(job := Some(job.(exploration := Exploring, rowVersion := job.rowVersion + 1))),
      ProfessionalStarted);
    if f.hinted then LogEvent(started, ProfessionalHintsApplied) else started
  }

  /** The second component tells whether a wave was scheduled. */
  function ScheduleProfessional(db: Db, now: Time, f: FollowUp): (Db, bool)
    requires db.job.Some?
  {
    if !ProfessionalReady(db, now, f) then (db, false)
    else if NeedsAnchor(db.job.value, now, f) then (RequireAnchor(db), false)
    else if f.wave == [] then (db, false)
    else (StartWave(db, f), true)
  }

  predicate SynthesisReady(db: Db)
    requires db.job.Some?
  {
    && db.job.value.mode.Deep?
    && !db.job.value.status.Terminal()
    && !HasProvider(db.runs, Synthesis)
    && db.runs.Keys != {}
    && AllTerminal(db.runs)
  }

  function SynthesisRecord(job: Job, status: RunStatus): RunRecord {
    RunRecord(Run(Synthesis, false, 0, None, status, 0, None, job.epoch, 0), None, [])
  }

  function SkipSynthesis(db: Db, r: RunId): Db
    requires db.job.Some?
  {
    LogEvent(
      InsertResult(
        PutRecord(db, r, SynthesisRecord(db.job.value, SkippedConfiguration)),
        r,
        SynthesisResult(SkippedConfiguration, None)),
      SynthesisProgress)
  }

  function StartSynthesis(db: Db, r: RunId): Db
    requires db.job.Some?
  {
    var job := db.job.value;
    var queued := Enqueue(PutRecord(db, r, SynthesisRecord(job, Pending)), DedupeKey(Synthesis, r, 1));
    LogEvent(queued.(job := Some(job.(exploration := Exploring, rowVersion := job.rowVersion + 1))), SynthesisStarted)
  }

  /** The second component tells whether a synthesis run was queued. */
  function ScheduleSynthesis(db: Db, f: FollowUp): (Db, bool)
    requires db.job.Some?
  {
    if !SynthesisReady(db) then (db, false)
    else if !f.synthesisConfigured then (SkipSynthesis(db, f.synthesisId), false)
    else (StartSynthesis(db, f.synthesisId), true)
  }

  predicate Conclusive(db: Db)
    requires db.job.Some?
  {
    && (forall r | r in db.runs :: db.runs[r].run.status.Success? || db.runs[r].run.status.NoResult?)
    && (db.job.value.mode.Quick? || HasProvider(db.runs, Synthesis))
  }

  function Verdict(db: Db, f: FollowUp): JobStatus
    requires db.job.Some?
  {
    if !Conclusive(db) then ReadyPartial
    else if f.accountsFound then Ready
    else NoCandidates
  }

  predicate FinalizerReady(db: Db)
    requires db.job.Some?
  {
    && !db.job.value.status.Terminal()
    && !db.job.value.attempt.reported
    && db.runs.Keys != {}
    && AllTerminal(db.runs)
  }

  /** The second component tells whether the job was finalized. */
  function FinalizeFootprint(db: Db, now: Time, f: FollowUp): (Db, bool)
    requires db.job.Some?
  {
    if !FinalizerReady(db) then (db, false)
    else
      var job := db.job.value;
      var started := LogEvent(db, FinalizationStarted);
      var done := job.(
        status := Verdict(db, f),
        exploration := Completed,
        epoch := job.epoch + 1,
        rowVersion := job.rowVersion + 2,
        attempt := JobAttempt(false, Some(now), true));
      (started.(job := Some(done), events := AddEvent(started.events, JobReady, true)), true)
  }

  /** Advance a job as far as its finished work allows. The second component tells whether
      the job was finalized. */
  function FinalizeDiscovery(db: Db, now: Time, f: FollowUp): (Db, bool)
    requires db.job.Some?
  {
    if db.job.value.status.Terminal() then (db, false)
    else if db.job.value.exploration.AwaitingAnchor? && AnchorOpen(db.job.value, now) then (db, false)
    else
      var (searched, wave) := ScheduleProfessional(ExpireAnchor(db, now), now, f);
      if wave || searched.job.value.exploration.AwaitingAnchor? then (searched, false)
      else
        var (composed, queued) := ScheduleSynthesis(searched, f);
        if queued then (composed, false)
        else FinalizeFootprint(composed, now, f)
  }

  // ---------- Leasing ----------

  /** The three worker kinds share this part of taking a lease. */
  function TakeLease(record: RunRecord, job: Job, now: Time, seconds: Time): RunRecord {
    var run := record.run;
    RunRecord(
      run.(status := Running, generation := run.generation + 1, leaseExpiresAt := Some(now + seconds), epoch := job.epoch),
      if record.scan.None? then None else Some(record.scan.value.(status := Running, startedAt := Some(now))),
      record.attempts + [Attempt(run.generation + 1, InProgress, None, None)])
  }

  /** The job no longer wants this run: drop it without an attempt. */
  function DropRun(record: RunRecord): RunRecord {
    var dropped := SetStatus(record, Cancelled);
    if dropped.scan.None? then dropped
    else dropped.(scan := Some(dropped.scan.value.(status := Cancelled)))
  }

  predicate Leasable(db: Db, r: RunId, provider: Provider) {
    r in db.runs && db.runs[r].run.provider == provider && db.runs[r].run.status.Waiting()
  }

  predicate JobClosed(db: Db) {
    db.job.None? || db.job.value.status.Terminal() || db.tombstone
  }

  function LeaseOf(db: Db, r: RunId): Option<Lease>
    requires r in db.runs
  {
    Some(Lease(r, db.runs[r].run.generation, db.runs[r].run.epoch))
  }

  datatype ScanConfig = ScanConfig(enabled: bool, catalogPresent: bool, leaseSeconds: Time)

  /** Why a scan is closed instead of leased, if it is. */
  function ScanRefusal(run: Run, now: Time, config: ScanConfig): Option<RunStatus> {
    if DeadlineReached(run.deadline, now) then Some(ClosedAtCutoff)
    else if !config.enabled then Some(Cancelled)
    else if !config.catalogPresent then Some(ProviderError)
    else None
  }

  function StartDiscovering(db: Db): Db
    requires db.job.Some?
  {
    var job := db.job.value;
    if !job.status.Queued? then db
    else
      LogEvent(
        db.(job := Some(job.(
          status := Discovering,
          exploration := Exploring,
          rowVersion := job.rowVersion + 1,
          attempt := job.attempt.(running := true)))),
        CatalogScanStarted)
  }

  function LeaseScan(db: Db, r: RunId, now: Time, config: ScanConfig, f: FollowUp): (Db, Option<Lease>) {
    if !Leasable(db, r, Maigret) then (db, None)
    else if JobClosed(db) then (PutRecord(db, r, DropRun(db.runs[r])), None)
    else
      match ScanRefusal(db.runs[r].run, now, config)
      case Some(status) =>
        (FinalizeDiscovery(PutRecord(db, r, CloseRun(db.runs[r], status, now)), now, f).0, None)
      case None =>
        var leased := PutRecord(db, r, TakeLease(db.runs[r], db.job.value, now, config.leaseSeconds));
        (StartDiscovering(leased), LeaseOf(leased, r))
  }

  /** A worker other than a scan starts its job attempt, and moves a queued job on. */
  function StartLateWorker(db: Db): Db
    requires db.job.Some?
  {
    var job := db.job.value;
    var running := job.(attempt := job.attempt.(running := true));
    if !job.status.Queued? then db.(job := Some(running))
    else db.(job := Some(running.(status := Discovering, rowVersion := job.rowVersion + 1)))
  }

  function LeaseProfessional(db: Db, r: RunId, now: Time, leaseSeconds: Time, f: FollowUp): (Db, Option<Lease>) {
    if !Leasable(db, r, Professional) then (db, None)
    else if JobClosed(db) then (PutRecord(db, r, DropRun(db.runs[r])), None)
    else if DeadlineReached(db.runs[r].run.deadline, now) then
      (FinalizeDiscovery(PutRecord(db, r, CloseRun(db.runs[r], ClosedAtCutoff, now)), now, f).0, None)
    else
      var leased := PutRecord(db, r, TakeLease(db.runs[r], db.job.value, now, leaseSeconds));
      (StartLateWorker(leased), LeaseOf(leased, r))
  }

  function LeaseSynthesis(db: Db, r: RunId, now: Time, leaseSeconds: Time): (Db, Option<Lease>) {
    if !Leasable(db, r, Synthesis) then (db, None)
    else if JobClosed(db) || db.job.value.mode.Quick? then (PutRecord(db, r, DropRun(db.runs[r])), None)
    else
      var leased := PutRecord(db, r, TakeLease(db.runs[r], db.job.value, now, leaseSeconds));
      (StartLateWorker(leased), LeaseOf(leased, r))
  }

  // ---------- Completing ----------

  /** The write fence: does the worker still own the run? */
  predicate Current(db: Db, lease: Lease) {
    && lease.run in db.runs
    && db.job.Some?
    && !db.tombstone
    && db.runs[lease.run].run.status.Running?
    && db.runs[lease.run].run.generation == lease.generation
    && db.runs[lease.run].run.epoch == lease.epoch
    && db.job.value.epoch == lease.epoch
  }

  /** A fenced worker may only mark its own attempt, if that is still open. */
  function Discard(db: Db, lease: Lease, now: Time): Db {
    if lease.run !in db.runs then db
    else
      var record := db.runs[lease.run];
      match FindAttempt(record.attempts, lease.generation)
      case None => db
      case Some(i) =>
        if record.attempts[i].status.InProgress? && record.attempts[i].finishedAt.None? then
          PutRecord(db, lease.run, record.(attempts :=
            record.attempts[i := EndAttempt(record.attempts[i], now, CompletedAfterFence, LatePayloadDiscarded)]))
        else db
  }

  function FinishRun(record: RunRecord, generation: nat, now: Time, status: RunStatus, disposition: Disposition,
                     resultCount: nat): RunRecord
  {
    var closed := CloseRun(record, status, now);
    closed.(
      run := closed.run.(resultCount := resultCount),
      attempts := CloseAttempt(closed.attempts, generation, now, Ended(status), disposition))
  }

  function Accept(db: Db, lease: Lease, payload: Payload): Db {
    db.(evidence := db.evidence + [Acceptance(lease.run, lease.generation, lease.epoch, payload)])
  }

  /** How a scan ended: no result at all, a result the database refused, or a saved one. */
  datatype ScanOutcome =
    | ScanFailed
    | ScanUnsaved
    | ScanSaved(status: RunStatus, payload: Payload, found: nat, newAccounts: nat)
  {
    /** The statuses an aggregated scan result can carry. */
    predicate Valid() {
      ScanSaved? ==> status.Success? || status.PartialSuccess? || status.NoResult? || status.ProviderError? || status.Cancelled?
    }
  }

  function CompleteScan(db: Db, lease: Lease, now: Time, outcome: ScanOutcome): Db {
    if !Current(db, lease) || db.runs[lease.run].scan.None? then Discard(db, lease, now)
    else
      var record := db.runs[lease.run];
      match outcome
      case ScanFailed =>
        PutRecord(db, lease.run,
          FinishRun(record, lease.generation, now, ProviderError, InBudget, record.run.resultCount))
      case ScanUnsaved =>
        LogEvent(
          PutRecord(db, lease.run,
            FinishRun(record, lease.generation, now, ProviderError, PayloadDiscardedPolicy, 0)),
          CatalogProgress)
      case ScanSaved(status, payload, found, newAccounts) =>
        var disposition := if status.Cancelled? then PartialPreserved else InBudget;
        var saved := Accept(db, lease, payload);
        LogEvent(
          PutRecord(saved.(events := AddEvents(saved.events, CandidateDiscovered, newAccounts)), lease.run,
            FinishRun(record, lease.generation, now, status, disposition, found)),
          CatalogProgress)
  }

  datatype SearchOutcome =
    SearchOutcome(status: RunStatus, profiles: nat, accepted: nat, payload: Payload, newAccounts: nat)

  /** The stored status of a professional search. */
  function SearchStatus(outcome: SearchOutcome): RunStatus {
    if outcome.profiles > 0 && outcome.accepted < outcome.profiles then
      if outcome.accepted > 0 then PartialSuccess else InvalidResponse
    else if !outcome.status.Terminal() || outcome.status.CaptchaBlocked? || outcome.status.ClosedAtCutoff? then ProviderError
    else outcome.status
  }

  function CompleteProfessional(db: Db, lease: Lease, now: Time, outcome: SearchOutcome, f: FollowUp): Db {
    if !Current(db, lease) then Discard(db, lease, now)
    else
      var record := db.runs[lease.run];
      if DeadlineReached(record.run.deadline, now) then
        var late := FinishRun(record, lease.generation, now, ClosedAtCutoff, LatePayloadDiscarded, 0);
        FinalizeDiscovery(LogEvent(PutRecord(db, lease.run, late), ProfessionalProgress), now, f).0
      else
        var status := SearchStatus(outcome);
        var disposition := if status.PartialSuccess? then PartialPreserved else InBudget;
        var saved := Accept(db, lease, outcome.payload);
        var finished := FinishRun(record, lease.generation, now, status, disposition, outcome.accepted);
        FinalizeDiscovery(
          LogEvent(
            PutRecord(saved.(events := AddEvents(saved.events, CandidateDiscovered, outcome.newAccounts)), lease.run, finished),
            ProfessionalProgress),
          now, f).0
  }

  datatype SynthesisOutcome = SynthesisOutcome(status: RunStatus, output: Option<Payload>)

  /** The stored status of a synthesis: a success needs an output. */
  function SynthesisStatus(outcome: SynthesisOutcome): RunStatus {
    if outcome.status.Success? && outcome.output.None? then InvalidResponse
    else if
      outcome.status.Success? || outcome.status.NoResult? || outcome.status.SkippedConfiguration? ||
      outcome.status.TimedOut? || outcome.status.RateLimited? || outcome.status.AuthRequired? ||
      outcome.status.ProviderError? || outcome.status.InvalidResponse?
    then outcome.status
    else ProviderError
  }

  function UpsertResult(db: Db, r: RunId, result: SynthesisResult): Db {
    if r in db.results then db.(results := db.results[r := result]) else InsertResult(db, r, result)
  }

  function CompleteSynthesis(db: Db, lease: Lease, now: Time, outcome: SynthesisOutcome, f: FollowUp): Db {
    if !Current(db, lease) || db.job.value.status.Terminal() then Discard(db, lease, now)
    else
      var status := SynthesisStatus(outcome);
      var output := if status.Success? then outcome.output else None;
      var stored := UpsertResult(db, lease.run, SynthesisResult(status, output));
      var accepted := if output.Some? then Accept(stored, lease, output.value) else stored;
      var finished :=
        FinishRun(db.runs[lease.run], lease.generation, now, status, InBudget, if output.Some? then 1 else 0);
      FinalizeDiscovery(LogEvent(PutRecord(accepted, lease.run, finished), SynthesisProgress), now, f).0
  }

  /** The heartbeat of a synthesis worker. The second component tells whether it still owns the run. */
  function RenewLease(db: Db, lease: Lease, now: Time, seconds: Time): (Db, bool) {
    if !Current(db, lease) || db.job.value.status.Terminal() then (db, false)
    else
      var record := db.runs[lease.run];
      (PutRecord(db, lease.run, record.(run := record.run.(leaseExpiresAt := Some(now + seconds)))), true)
  }

  // ---------- Maintenance ----------

  /** A result row for a synthesis whose worker was lost, unless there already is one. */
  function PersistFallback(db: Db, r: RunId, status: RunStatus): Db {
    if r in db.results then db else InsertResult(db, r, SynthesisResult(status, None))
  }

  predicate Reclaimable(db: Db, r: RunId, now: Time) {
    && db.job.Some?
    && r in db.runs
    && db.runs[r].run.status.Running?
    && db.runs[r].run.leaseExpiresAt.Some?
    && db.runs[r].run.leaseExpiresAt.value <= now
  }

  /** Fence a run whose lease expired: close it at its deadline, close it when its call must
      not be repeated, and otherwise hand it to a new generation. */
  function Reclaim(db: Db, r: RunId, now: Time, f: FollowUp): Db {
    if !Reclaimable(db, r, now) then db
    else
      var record := db.runs[r];
      var abandoned := record.(attempts :=
        CloseAttempt(record.attempts, record.run.generation, now, AbandonedLeaseExpired, LatePayloadDiscarded));
      if DeadlineReached(record.run.deadline, now) then
        ReclaimClosed(db, r, CloseRun(abandoned, ClosedAtCutoff, now), now, f)
      else if record.run.SingleShot() then
        ReclaimClosed(db, r, SetStatus(abandoned, ProviderError), now, f)
      else
        var again := SetStatus(abandoned, RetryScheduled);
        var waiting := if again.scan.None? then again else again.(scan := Some(again.scan.value.(status := RetryScheduled)));
        Enqueue(PutRecord(db, r, waiting), DedupeKey(record.run.provider, r, record.run.generation + 1))
  }

  /** The job of a reclaimed run is advanced without settings. */
  function ReclaimClosed(db: Db, r: RunId, closed: RunRecord, now: Time, f: FollowUp): Db
    requires db.job.Some?
  {
    var stored := PutRecord(db, r, closed);
    var resolved := if closed.run.provider.Synthesis? then PersistFallback(stored, r, closed.run.status) else stored;
    FinalizeDiscovery(resolved, now, f.WithoutSettings()).0
  }

  function CutoffRecord(record: RunRecord, now: Time): RunRecord {
    if record.run.status.Terminal() || record.run.provider.Synthesis? then record
    else
      var closed := CloseRun(record, ClosedAtCutoff, now);
      if !record.run.status.Running? then closed
      else closed.(attempts :=
        CloseAttempt(closed.attempts, record.run.generation, now, Ended(ClosedAtCutoff), LatePayloadDiscarded))
  }

  /** The watchdog closes all unfinished retrieval of a job whose collection window is over. */
  function Cutoff(db: Db, now: Time, f: FollowUp): Db {
    if db.job.None? || db.job.value.status.Terminal() then db
    else FinalizeDiscovery(db.(runs := map r | r in db.runs :: CutoffRecord(db.runs[r], now)), now, f).0
  }

  function AdvanceAnchor(db: Db, now: Time, f: FollowUp): Db {
    if db.job.None? || db.job.value.status.Terminal() || !db.job.value.exploration.AwaitingAnchor? || AnchorOpen(db.job.value, now)
    then db
    else FinalizeDiscovery(db, now, f).0
  }

  /** Periodic maintenance, and the separate transaction that follows a scan. */
  function Advance(db: Db, now: Time, f: FollowUp): Db {
    if db.job.None? || db.tombstone then db else FinalizeDiscovery(db, now, f).0
  }

  // ---------- Users ----------

  function CancelAttempts(attempts: seq<Attempt>, now: Time): (after: seq<Attempt>)
    ensures |after| == |attempts|
    ensures forall i | 0 <= i < |attempts| ::
      after[i] == if attempts[i].finishedAt.None?
                  then EndAttempt(attempts[i], now, Ended(Cancelled), LatePayloadDiscarded)
                  else attempts[i]
  {
    if attempts == [] then []
    else
      var first := if attempts[0].finishedAt.None?
                   then EndAttempt(attempts[0], now, Ended(Cancelled), LatePayloadDiscarded)
                   else attempts[0];
      [first] + CancelAttempts(attempts[1..], now)
  }

  function CancelScan(scan: Option<Scan>, now: Time): Option<Scan> {
    if scan.None? || scan.value.status.Terminal() then scan
    else Some(scan.value.(status := Cancelled, finishedAt := Some(now)))
  }

  function CancelRecord(record: RunRecord, now: Time): RunRecord {
    RunRecord(
      if record.run.status.Terminal() then record.run else record.run.(status := Cancelled, leaseExpiresAt := None),
      CancelScan(record.scan, now),
      CancelAttempts(record.attempts, now))
  }

  /** A user stops the job: bump the epoch and close all open work. */
  function Cancel(db: Db, now: Time): Db {
    if db.job.None? || db.job.value.status.Terminal() then db
    else
      var job := db.job.value;
      db.(
        job := Some(job.(
          status := JobCancelled,
          exploration := ExplorationCancelled,
          epoch := job.epoch + 1,
          rowVersion := job.rowVersion + 1,
          attempt := job.attempt.(running := false, finishedAt := Some(now)))),
        runs := map r | r in db.runs :: CancelRecord(db.runs[r], now),
        events := AddEvent(db.events, JobStopped, true))
  }

  /** What is known about the account a user picked as the anchor. */
  datatype Candidate = Candidate(id: AccountId, known: bool, exactHandle: bool, eligible: bool)

  datatype AnchorReply =
    | AnchorAccepted
    | CandidateNotFound | SelectionNotRequired | CandidateInvalid | SelectionClosed
    | SelectionUnavailable | SelectionExpired | CandidateNotHypothesis

  function ChooseAnchor(db: Db, id: AccountId): Db
    requires db.job.Some?
  {
    var job := db.job.value;
    LogEvent(
      db.(job := Some(job.(anchor := Some(id), exploration := Exploring, rowVersion := job.rowVersion + 1))),
      AnchorChosen)
  }

  function SelectAnchor(db: Db, candidate: Candidate, now: Time, f: FollowUp): (Db, AnchorReply) {
    if db.job.None? || !candidate.known then (db, CandidateNotFound)
    else
      var job := db.job.value;
      if !job.bareHandle then (db, SelectionNotRequired)
      else if !candidate.exactHandle then (db, CandidateInvalid)
      else if job.anchor == Some(candidate.id) then (db, AnchorAccepted)
      else if job.status.Terminal() then (db, SelectionClosed)
      else if !job.exploration.AwaitingAnchor? then (db, SelectionUnavailable)
      else if !AnchorOpen(job, now) then (FinalizeDiscovery(ExpireAnchor(db, now), now, f).0, SelectionExpired)
      else if !candidate.eligible then (db, CandidateNotHypothesis)
      else (FinalizeDiscovery(ChooseAnchor(db, candidate.id), now, f).0, AnchorAccepted)
  }

  /** Delete the job and every row that carries its id, leaving a tombstone. */
  function Delete(db: Db): Db {
    if db.job.None? then db
    else Db(None, true, map[], map[], map[], [], [], db.uniqueViolation)
  }

  function ExpireTombstone(db: Db): Db {
    db.(tombstone := false)
  }

  /** The dispatcher publishes one message and marks it. */
  function Dispatch(db: Db, key: DedupeKey): Db {
    if key !in db.outbox || db.outbox[key].dispatched then db
    else db.(outbox := db.outbox[key := Message(db.outbox[key].deliveries + 1, true)])
  }

  // ---------- Creation ----------

  function AddShard(db: Db, id: RunId, deadline: Time): Db {
    Enqueue(PutRecord(db, id, PendingRun(Maigret, false, 0, Some(deadline), 1)), DedupeKey(Maigret, id, 1))
  }

  function AddShards(db: Db, ids: seq<RunId>, deadline: Time): Db {
    if ids == [] then db else AddShard(AddShards(db, ids[..|ids| - 1], deadline), ids[|ids| - 1], deadline)
  }

  /** A new job: one pending scan run and one message per catalog shard. */
  function Create(mode: SearchMode, bareHandle: bool, deadline: Time, shards: seq<RunId>, hinted: bool): Db {
    var job := Job(mode, bareHandle, deadline, Queued, Idle, 1, 1, None, JobAttempt(false, None, false));
    var filled := AddShards(Db(Some(job), false, map[], map[], map[], [], [], false), shards, deadline);
    var accepted := LogEvent(filled, JobAccepted);
    if hinted then LogEvent(accepted, HistoryHintsApplied) else accepted
  }
}
