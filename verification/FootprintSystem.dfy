/** All interleavings of workers, maintenance and users over the rows of one job.

    A worker takes a lease in one transaction, calls its provider outside any transaction, and
    finishes in a second transaction. In between it may be delayed, or crash, and its message
    may be delivered again, while every other transaction may run. */
module FootprintSystem {
  import opened Wrappers
  import opened FootprintModel
  import opened FootprintTransactions
  import opened FootprintInvariant
  import opened FootprintSafety

  /** `workers` are the leases held by live processes, `called` the leases whose provider work
      has been done, `spent` the provider requests made for each run, and `used` every run id
      that was ever generated. */
  datatype System = System(
    db: Db,
    workers: set<Lease>,
    called: set<Lease>,
    spent: map<RunId, nat>,
    used: set<RunId>)

  datatype Step =
    | StartScan(run: RunId, now: Time, config: ScanConfig, f: FollowUp)
    | StartSearch(run: RunId, now: Time, seconds: Time, f: FollowUp)
    | StartNarrative(run: RunId, now: Time, seconds: Time)
    | CallProvider(lease: Lease, requests: nat)
    | FinishScan(lease: Lease, now: Time, scan: ScanOutcome)
    | FinishSearch(lease: Lease, now: Time, search: SearchOutcome, f: FollowUp)
    | FinishNarrative(lease: Lease, now: Time, narrative: SynthesisOutcome, f: FollowUp)
    | Heartbeat(lease: Lease, now: Time, seconds: Time)
    | Crash(lease: Lease)
    | LeaseExpired(run: RunId, now: Time, f: FollowUp)
    | WindowClosed(now: Time, f: FollowUp)
    | AnchorExpired(now: Time, f: FollowUp)
    | Maintain(now: Time, f: FollowUp)
    | UserCancels(now: Time)
    | UserPicks(candidate: Candidate, now: Time, f: FollowUp)
    | UserDeletes
    | TombstoneExpires
    | MessageSent(key: DedupeKey)
  {
    /** Transactions that may generate run ids. */
    predicate Plans() {
      StartScan? || StartSearch? || FinishSearch? || FinishNarrative? || LeaseExpired? || WindowClosed?
      || AnchorExpired? || Maintain? || UserPicks?
    }

    predicate Finishes() {
      FinishScan? || FinishSearch? || FinishNarrative?
    }
  }

  predicate Holds(s: System, lease: Lease, provider: Provider) {
    && lease in s.workers
    && (lease.run in s.db.runs ==> s.db.runs[lease.run].run.provider == provider)
  }

  function Spent(s: System, r: RunId): nat {
    if r in s.spent then s.spent[r] else 0
  }

  /** What limits a step besides the rows themselves: ids are generated fresh, a lease is worked
      on once, and only its holder finishes it. */
  predicate Enabled(s: System, step: Step) {
    && (step.Plans() ==> step.f.Fresh(s.used))
    && match step
       case CallProvider(lease, _) => lease in s.workers && lease !in s.called
       case FinishScan(lease, _, scan) => Holds(s, lease, Maigret) && scan.Valid()
       case FinishSearch(lease, _, _, _) => Holds(s, lease, Professional)
       case FinishNarrative(lease, _, _, _) => Holds(s, lease, Synthesis)
       case Heartbeat(lease, _, _) => Holds(s, lease, Synthesis)
       case Crash(lease) => lease in s.workers
       case _ => true
  }

  /** The rows after a step. */
  function Rows(db: Db, step: Step): Db {
    match step
    case StartScan(r, now, config, f) => LeaseScan(db, r, now, config, f).0
    case StartSearch(r, now, seconds, f) => LeaseProfessional(db, r, now, seconds, f).0
    case StartNarrative(r, now, seconds) => LeaseSynthesis(db, r, now, seconds).0
    case FinishScan(lease, now, scan) => CompleteScan(db, lease, now, scan)
    case FinishSearch(lease, now, search, f) => CompleteProfessional(db, lease, now, search, f)
    case FinishNarrative(lease, now, narrative, f) => CompleteSynthesis(db, lease, now, narrative, f)
    case Heartbeat(lease, now, seconds) => RenewLease(db, lease, now, seconds).0
    case LeaseExpired(r, now, f) => Reclaim(db, r, now, f)
    case WindowClosed(now, f) => Cutoff(db, now, f)
    case AnchorExpired(now, f) => AdvanceAnchor(db, now, f)
    case Maintain(now, f) => Advance(db, now, f)
    case UserCancels(now) => Cancel(db, now)
    case UserPicks(candidate, now, f) => SelectAnchor(db, candidate, now, f).0
    case UserDeletes => Delete(db)
    case TombstoneExpires => ExpireTombstone(db)
    case MessageSent(key) => Dispatch(db, key)
    case _ => db
  }

  /** The lease a step hands to a new worker. */
  function NewLease(db: Db, step: Step): Option<Lease> {
    match step
    case StartScan(r, now, config, f) => LeaseScan(db, r, now, config, f).1
    case StartSearch(r, now, seconds, f) => LeaseProfessional(db, r, now, seconds, f).1
    case StartNarrative(r, now, seconds) => LeaseSynthesis(db, r, now, seconds).1
    case _ => None
  }

  function Workers(s: System, step: Step): set<Lease> {
    if step.Finishes() || step.Crash? then s.workers - {step.lease}
    else if NewLease(s.db, step).Some? then s.workers + {NewLease(s.db, step).value}
    else s.workers
  }

  function Apply(s: System, step: Step): System {
    System(
      Rows(s.db, step),
      Workers(s, step),
      if step.CallProvider? then s.called + {step.lease} else s.called,
      if step.CallProvider? then s.spent[step.lease.run := Spent(s, step.lease.run) + step.requests] else s.spent,
      if step.Plans() then s.used + step.f.NewIds() else s.used)
  }

  /** The state after a whole execution. */
  function After(s: System, steps: seq<Step>): System {
    if steps == [] then s else Apply(After(s, steps[..|steps| - 1]), steps[|steps| - 1])
  }

  predicate Execution(s: System, steps: seq<Step>) {
    forall n | 0 <= n < |steps| :: Enabled(After(s, steps[..n]), steps[n])
  }

  function Start(mode: SearchMode, bareHandle: bool, deadline: Time, shards: seq<RunId>, hinted: bool): System {
    System(Create(mode, bareHandle, deadline, shards, hinted), {}, {}, map[], IdSet(shards))
  }

  predicate Shards(shards: seq<RunId>) {
    shards != [] && forall i, j | 0 <= i < j < |shards| :: shards[i] != shards[j]
  }

  // ---------- The invariant of the whole system ----------

  /** A lease names a generation its run has reached, with that generation's epoch. */
  predicate LeaseOk(db: Db, lease: Lease) {
    lease.run in db.runs ==>
      && 1 <= lease.generation <= db.runs[lease.run].run.generation
      && LeaseKnown(db, lease)
  }

  ghost predicate LeasesOk(s: System) {
    forall lease | lease in s.workers + s.called :: lease.run in s.used && LeaseOk(s.db, lease)
  }

  /** A run whose call must not be repeated has spent nothing before its one session. */
  ghost predicate SpendingOk(s: System) {
    forall r | r in s.db.runs && s.db.runs[r].run.SingleShot() ::
      (forall lease | lease in s.called :: lease.run != r) ==> Spent(s, r) == 0
  }

  ghost predicate SystemInv(s: System) {
    && Inv(s.db)
    && s.db.runs.Keys <= s.used
    && s.spent.Keys <= s.used
    && LeasesOk(s)
    && SpendingOk(s)
  }

  lemma StartSatisfiesInvariant(mode: SearchMode, bareHandle: bool, deadline: Time, shards: seq<RunId>, hinted: bool)
    requires Shards(shards)
    ensures SystemInv(Start(mode, bareHandle, deadline, shards, hinted))
  {
    CreateEstablishes(mode, bareHandle, deadline, shards, hinted);
  }

  /** The rows of a live job change legally in every step but deletion. */
  lemma RowsLegal(s: System, step: Step)
    requires SystemInv(s) && Enabled(s, step) && s.db.job.Some? && !step.UserDeletes?
    ensures Legal(s.db, Rows(s.db, step))
  {
    hide Inv, Evolves;
    EvolvesReflexive(s.db);
    if step.Plans() {
      assert step.f.Fresh(s.db.runs.Keys);
    }
    match step
    case StartScan(r, now, config, f) => LeaseScanLegal(s.db, r, now, config, f);
    case StartSearch(r, now, seconds, f) => LeaseProfessionalLegal(s.db, r, now, seconds, f);
    case StartNarrative(r, now, seconds) => LeaseSynthesisLegal(s.db, r, now, seconds);
    case FinishScan(lease, now, scan) => CompleteScanLegal(s.db, lease, now, scan);
    case FinishSearch(lease, now, search, f) => CompleteProfessionalLegal(s.db, lease, now, search, f);
    case FinishNarrative(lease, now, narrative, f) => CompleteSynthesisLegal(s.db, lease, now, narrative, f);
    case Heartbeat(lease, now, seconds) => RenewLeaseLegal(s.db, lease, now, seconds);
    case LeaseExpired(r, now, f) => ReclaimLegal(s.db, r, now, f);
    case WindowClosed(now, f) => CutoffLegal(s.db, now, f);
    case AnchorExpired(now, f) => FinalizeDiscoveryLegal(s.db, now, f);
    case Maintain(now, f) => FinalizeDiscoveryLegal(s.db, now, f);
    case UserCancels(now) => CancelLegal(s.db, now);
    case UserPicks(candidate, now, f) => SelectAnchorLegal(s.db, candidate, now, f);
    case TombstoneExpires => TombstoneStays(s.db);
    case MessageSent(key) => DispatchLegal(s.db, key);
    case _ =>
  }

  lemma TombstoneStays(db: Db)
    requires Inv(db) && db.job.Some?
    ensures ExpireTombstone(db) == db
  {}

  // ---------- One step ----------

  function StepIds(step: Step): set<RunId> {
    if step.Plans() then step.f.NewIds() else {}
  }

  /** A step inserts no run except with the ids generated for it. */
  lemma RowsGrow(db: Db, step: Step)
    requires db.job.Some?
    ensures Rows(db, step).runs.Keys <= db.runs.Keys + StepIds(step)
  {
    hide FinalizeDiscovery, LeaseScan, LeaseProfessional, CompleteScan, CompleteProfessional, CompleteSynthesis, Reclaim, Cutoff, SelectAnchor;
    match step
    case StartScan(r, now, config, f) => LeaseScanGrows(db, r, now, config, f);
    case StartSearch(r, now, seconds, f) => LeaseProfessionalGrows(db, r, now, seconds, f);
    case FinishScan(lease, now, scan) => CompleteScanGrows(db, lease, now, scan);
    case FinishSearch(lease, now, search, f) => CompleteProfessionalGrows(db, lease, now, search, f);
    case FinishNarrative(lease, now, narrative, f) => CompleteSynthesisGrows(db, lease, now, narrative, f);
    case LeaseExpired(r, now, f) => ReclaimGrows(db, r, now, f);
    case WindowClosed(now, f) => CutoffGrows(db, now, f);
    case AnchorExpired(now, f) => FinalizeDiscoveryGrows(db, now, f);
    case Maintain(now, f) => FinalizeDiscoveryGrows(db, now, f);
    case UserPicks(candidate, now, f) => SelectAnchorGrows(db, candidate, now, f);
    case _ =>
  }

  lemma LeaseScanGrows(db: Db, r: RunId, now: Time, config: ScanConfig, f: FollowUp)
    requires db.job.Some?
    ensures Grows(db, LeaseScan(db, r, now, config, f).0, f)
  {
    hide FinalizeDiscovery;
    if r in db.runs {
      match ScanRefusal(db.runs[r].run, now, config)
      case Some(status) => FinalizeDiscoveryGrows(PutRecord(db, r, CloseRun(db.runs[r], status, now)), now, f);
      case None =>
    }
  }

  lemma LeaseProfessionalGrows(db: Db, r: RunId, now: Time, seconds: Time, f: FollowUp)
    requires db.job.Some?
    ensures Grows(db, LeaseProfessional(db, r, now, seconds, f).0, f)
  {
    hide FinalizeDiscovery;
    if r in db.runs {
      FinalizeDiscoveryGrows(PutRecord(db, r, CloseRun(db.runs[r], ClosedAtCutoff, now)), now, f);
    }
  }

  function ScanPayload(scan: ScanOutcome): Option<Payload> {
    if scan.ScanSaved? then Some(scan.payload) else None
  }

  /** The payload a finishing worker delivers, if any. */
  function PayloadOf(step: Step): Option<Payload>
    requires step.Finishes()
  {
    match step
    case FinishScan(_, _, scan) => ScanPayload(scan)
    case FinishSearch(_, _, search, _) => Some(search.payload)
    case FinishNarrative(_, _, narrative, _) => narrative.output
  }

  /** Either the evidence is unchanged, or the current owner added its own payload. */
  predicate AcceptsOnlyFrom(before: Db, after: Db, lease: Lease, payload: Option<Payload>) {
    || after.evidence == before.evidence
    || (&& payload.Some?
        && Owns(before, lease)
        && after.evidence == before.evidence + [Acceptance(lease.run, lease.generation, lease.epoch, payload.value)])
  }

  lemma CompleteScanGrows(db: Db, lease: Lease, now: Time, scan: ScanOutcome)
    ensures CompleteScan(db, lease, now, scan).runs.Keys == db.runs.Keys
    ensures AcceptsOnlyFrom(db, CompleteScan(db, lease, now, scan), lease, ScanPayload(scan))
  {}

  lemma CompleteProfessionalGrows(db: Db, lease: Lease, now: Time, search: SearchOutcome, f: FollowUp)
    ensures CompleteProfessional(db, lease, now, search, f).runs.Keys <= db.runs.Keys + f.NewIds()
    ensures AcceptsOnlyFrom(db, CompleteProfessional(db, lease, now, search, f), lease, Some(search.payload))
  {
    hide FinalizeDiscovery, FinishRun;
    if Current(db, lease) {
      var record := db.runs[lease.run];
      var late := FinishRun(record, lease.generation, now, ClosedAtCutoff, LatePayloadDiscarded, 0);
      FinalizeDiscoveryGrows(LogEvent(PutRecord(db, lease.run, late), ProfessionalProgress), now, f);
      var status := SearchStatus(search);
      var disposition := if status.PartialSuccess? then PartialPreserved else InBudget;
      var saved := Accept(db, lease, search.payload);
      var finished := FinishRun(record, lease.generation, now, status, disposition, search.accepted);
      FinalizeDiscoveryGrows(
        LogEvent(
          PutRecord(saved.(events := AddEvents(saved.events, CandidateDiscovered, search.newAccounts)), lease.run, finished),
          ProfessionalProgress),
        now, f);
    }
  }

  lemma CompleteSynthesisGrows(db: Db, lease: Lease, now: Time, narrative: SynthesisOutcome, f: FollowUp)
    ensures CompleteSynthesis(db, lease, now, narrative, f).runs.Keys <= db.runs.Keys + f.NewIds()
    ensures AcceptsOnlyFrom(db, CompleteSynthesis(db, lease, now, narrative, f), lease, narrative.output)
  {
    hide FinalizeDiscovery, FinishRun, SynthesisStatus;
    if Current(db, lease) {
      var status := SynthesisStatus(narrative);
      var output := if status.Success? then narrative.output else None;
      var stored := UpsertResult(db, lease.run, SynthesisResult(status, output));
      var accepted := if output.Some? then Accept(stored, lease, output.value) else stored;
      var finished :=
        FinishRun(db.runs[lease.run], lease.generation, now, status, InBudget, if output.Some? then 1 else 0);
      FinalizeDiscoveryGrows(LogEvent(PutRecord(accepted, lease.run, finished), SynthesisProgress), now, f);
    }
  }

  lemma ReclaimGrows(db: Db, r: RunId, now: Time, f: FollowUp)
    ensures Grows(db, Reclaim(db, r, now, f), f)
  {
    hide FinalizeDiscovery, CloseAttempt;
    if Reclaimable(db, r, now) {
      var record := db.runs[r];
      var abandoned := record.(attempts :=
        CloseAttempt(record.attempts, record.run.generation, now, AbandonedLeaseExpired, LatePayloadDiscarded));
      ReclaimClosedGrows(db, r, CloseRun(abandoned, ClosedAtCutoff, now), now, f);
      ReclaimClosedGrows(db, r, SetStatus(abandoned, ProviderError), now, f);
    }
  }

  lemma ReclaimClosedGrows(db: Db, r: RunId, closed: RunRecord, now: Time, f: FollowUp)
    requires db.job.Some? && r in db.runs
    ensures Grows(db, ReclaimClosed(db, r, closed, now, f), f)
  {
    hide FinalizeDiscovery;
    var stored := PutRecord(db, r, closed);
    FinalizeDiscoveryGrows(stored, now, f.WithoutSettings());
    FinalizeDiscoveryGrows(PersistFallback(stored, r, closed.run.status), now, f.WithoutSettings());
    assert f.WithoutSettings().NewIds() == f.NewIds();
  }

  lemma CutoffGrows(db: Db, now: Time, f: FollowUp)
    ensures Grows(db, Cutoff(db, now, f), f)
  {
    hide FinalizeDiscovery;
    if db.job.Some? {
      var closed := db.(runs := map r | r in db.runs :: CutoffRecord(db.runs[r], now));
      assert closed.runs.Keys == db.runs.Keys;
      FinalizeDiscoveryGrows(closed, now, f);
    }
  }

  lemma SelectAnchorGrows(db: Db, candidate: Candidate, now: Time, f: FollowUp)
    ensures Grows(db, SelectAnchor(db, candidate, now, f).0, f)
  {
    hide FinalizeDiscovery;
    if db.job.Some? {
      FinalizeDiscoveryGrows(ExpireAnchor(db, now), now, f);
      FinalizeDiscoveryGrows(ChooseAnchor(db, candidate.id), now, f);
    }
  }

  /** A new lease is the next generation of a run of the job. */
  lemma NewLeaseIsCurrent(db: Db, step: Step)
    requires NewLease(db, step).Some?
    ensures var lease := NewLease(db, step).value;
            && lease.run in db.runs && lease.run in Rows(db, step).runs
            && lease.generation == db.runs[lease.run].run.generation + 1
            && lease.generation == Rows(db, step).runs[lease.run].run.generation
            && lease.epoch == Rows(db, step).runs[lease.run].run.epoch
  {
    hide FinalizeDiscovery;
  }

  /** Once the job row is gone nothing but the tombstone can change. */
  lemma DeletedStaysDeleted(db: Db, step: Step)
    requires Inv(db) && db.job.None?
    ensures Rows(db, step) == db || Rows(db, step) == db.(tombstone := false)
    ensures NewLease(db, step).None?
  {}

  /** Evidence is added by finishing workers only, and only by the current owner of a run. */
  lemma EvidenceComesFromOwner(db: Db, step: Step)
    requires db.job.Some? && !step.UserDeletes?
    ensures Rows(db, step).evidence != db.evidence ==>
      && step.Finishes()
      && AcceptsOnlyFrom(db, Rows(db, step), step.lease, PayloadOf(step))
  {
    hide FinalizeDiscovery, LeaseScan, LeaseProfessional, CompleteScan, CompleteProfessional, CompleteSynthesis, Reclaim, Cutoff, SelectAnchor;
    match step
    case StartScan(r, now, config, f) => LeaseScanGrows(db, r, now, config, f);
    case StartSearch(r, now, seconds, f) => LeaseProfessionalGrows(db, r, now, seconds, f);
    case FinishScan(lease, now, scan) => CompleteScanGrows(db, lease, now, scan);
    case FinishSearch(lease, now, search, f) => CompleteProfessionalGrows(db, lease, now, search, f);
    case FinishNarrative(lease, now, narrative, f) => CompleteSynthesisGrows(db, lease, now, narrative, f);
    case LeaseExpired(r, now, f) => ReclaimGrows(db, r, now, f);
    case WindowClosed(now, f) => CutoffGrows(db, now, f);
    case AnchorExpired(now, f) => FinalizeDiscoveryGrows(db, now, f);
    case Maintain(now, f) => FinalizeDiscoveryGrows(db, now, f);
    case UserPicks(candidate, now, f) => SelectAnchorGrows(db, candidate, now, f);
    case _ =>
  }
}
