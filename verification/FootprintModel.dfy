/** The rows that one footprint job owns, and the vocabulary of their columns.

    Every transaction of the discovery protocol locks the job row before it reads or
    writes anything else, so a whole transaction is one atomic step over a `Db`: the job
    and the rows that carry its id. Ids are unique tokens; timestamps are real numbers of
    seconds; a payload is an opaque token for whatever a provider returned. */
module FootprintModel {
  import opened Wrappers

  type RunId = nat
  type AccountId = nat
  type Payload = int
  type Time = real

  datatype Provider = Maigret | Professional | Synthesis

  datatype RunStatus =
    | Pending | RetryScheduled | Running
    | Success | PartialSuccess | NoResult | TimedOut | RateLimited | CaptchaBlocked
    | AuthRequired | ProviderError | InvalidResponse | SkippedConfiguration
    | Cancelled | ClosedAtCutoff
  {
    predicate Waiting() {
      Pending? || RetryScheduled?
    }

    predicate Terminal() {
      !Waiting() && !Running?
    }
  }

  /** A provider run. `adaptive` and `requestBudget` are the two entries of the stored
      query configuration that the protocol looks at. */
  datatype Run = Run(
    provider: Provider,
    adaptive: bool,
    requestBudget: nat,
    deadline: Option<Time>,
    status: RunStatus,
    generation: nat,
    leaseExpiresAt: Option<Time>,
    epoch: nat,
    resultCount: nat)
  {
    /** Runs whose provider call must never be repeated after a lost lease. */
    predicate SingleShot() {
      provider.Synthesis? || (provider.Professional? && adaptive)
    }
  }

  datatype Scan = Scan(status: RunStatus, startedAt: Option<Time>, finishedAt: Option<Time>)

  datatype AttemptStatus =
    | InProgress
    | AbandonedLeaseExpired
    | CompletedAfterFence
    | Ended(status: RunStatus)

  datatype Disposition = InBudget | PartialPreserved | LatePayloadDiscarded | PayloadDiscardedPolicy

  datatype Attempt = Attempt(
    generation: nat,
    status: AttemptStatus,
    finishedAt: Option<Time>,
    disposition: Option<Disposition>)

  /** A run row with its scan row (Maigret only) and its attempt rows, oldest first. */
  datatype RunRecord = RunRecord(run: Run, scan: Option<Scan>, attempts: seq<Attempt>)

  datatype JobStatus =
    | Queued | Discovering | Ready | ReadyPartial | NoCandidates | Failed | JobCancelled
  {
    predicate Terminal() {
      !Queued? && !Discovering?
    }

    predicate Successful() {
      Ready? || ReadyPartial? || NoCandidates?
    }
  }

  datatype Exploration = Idle | Exploring | AwaitingAnchor | Completed | ExplorationCancelled

  datatype SearchMode = Quick | Deep

  datatype JobAttempt = JobAttempt(running: bool, finishedAt: Option<Time>, reported: bool)

  datatype Job = Job(
    mode: SearchMode,
    bareHandle: bool,
    deadline: Time,
    status: JobStatus,
    exploration: Exploration,
    epoch: nat,
    rowVersion: nat,
    anchor: Option<AccountId>,
    attempt: JobAttempt)

  datatype EventKind =
    | JobAccepted | HistoryHintsApplied
    | CatalogScanStarted | CatalogProgress | CandidateDiscovered
    | AnchorRequired | AnchorChosen | AnchorWindowExpired
    | ProfessionalStarted | ProfessionalHintsApplied | ProfessionalProgress
    | SynthesisStarted | SynthesisProgress
    | FinalizationStarted | JobReady | JobStopped

  datatype Event = Event(sequence: nat, kind: EventKind, terminal: bool)

  /** The unique key of an outbox message: the provider picks the prefix. */
  datatype DedupeKey = DedupeKey(provider: Provider, run: RunId, generation: nat)

  datatype Message = Message(deliveries: nat, dispatched: bool)

  datatype SynthesisResult = SynthesisResult(status: RunStatus, output: Option<Payload>)

  /** One provider payload written into the evidence tables, with the lease it came from. */
  datatype Acceptance = Acceptance(run: RunId, generation: nat, epoch: nat, payload: Payload)

  /** All rows of one job. `uniqueViolation` records that some insert met an existing
      unique key, which the database would have refused. */
  datatype Db = Db(
    job: Option<Job>,
    tombstone: bool,
    runs: map<RunId, RunRecord>,
    results: map<RunId, SynthesisResult>,
    outbox: map<DedupeKey, Message>,
    events: seq<Event>,
    evidence: seq<Acceptance>,
    uniqueViolation: bool)

  /** A professional run that the scheduler is about to insert. */
  datatype PlannedRun = PlannedRun(id: RunId, adaptive: bool, requestBudget: nat, deadline: Time)

  /** What the schedulers and the finalizer read beyond the rows above: settings, the name
      hypotheses derived from the account rows, freshly generated ids, and whether any
      account was assessed. */
  datatype FollowUp = FollowUp(
    professionalEnabled: bool,
    hypotheses: nat,
    searchAvailable: bool,
    wave: seq<PlannedRun>,
    hinted: bool,
    synthesisId: RunId,
    synthesisConfigured: bool,
    accountsFound: bool)
  {
    /** The same call with `settings=None`: no feature is enabled and no key is present. */
    function WithoutSettings(): FollowUp {
      this.(professionalEnabled := false, synthesisConfigured := false)
    }

    function NewIds(): set<RunId> {
      (set p | p in wave :: p.id) + {synthesisId}
    }

    /** Generated ids are distinct from each other and from every id used before. */
    predicate Fresh(used: set<RunId>) {
      && NewIds() !! used
      && (forall p | p in wave :: p.id != synthesisId)
      && (forall i, j | 0 <= i < j < |wave| :: wave[i].id != wave[j].id)
    }
  }

  /** What a worker holds while it works outside any transaction. */
  datatype Lease = Lease(run: RunId, generation: nat, epoch: nat)
}
