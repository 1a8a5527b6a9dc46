/** The progress phase that clients of a Deep job see is computed from the event log. It never
    moves to an earlier phase, whatever the clocks of the transactions read. */
module FootprintPhases {
  import opened Wrappers
  import opened FootprintModel
  import opened FootprintTransactions
  import opened FootprintInvariant
  import opened FootprintSafety
  import opened FootprintSystem
  import opened FootprintExecutions

  // ---------- The phase ----------

  /** The sequence of the clock event of one of these kinds, or 0. */
  function LatestEvent(events: seq<Event>, kinds: set<EventKind>): nat {
    if events == [] then 0
    else
      var last := events[|events| - 1];
      if last.kind in kinds then last.sequence else LatestEvent(events[..|events| - 1], kinds)
  }

  /** The sequence of the first event of one of these kinds, or 0. */
  function FirstEvent(events: seq<Event>, kinds: set<EventKind>): nat {
    if events == [] then 0
    else
      var earlier := FirstEvent(events[..|events| - 1], kinds);
      var last := events[|events| - 1];
      if earlier > 0 then earlier else if last.kind in kinds then last.sequence else 0
  }

  datatype Phase =
    | InQueue | AccountScan | AwaitingChoice | ProfessionalEnrichment | ReportGeneration | Finalizing | Done
  {
    function Rank(): nat {
      match this
      case InQueue => 0
      case AccountScan => 1
      case AwaitingChoice => 2
      case ProfessionalEnrichment => 3
      case ReportGeneration => 4
      case Finalizing => 5
      case Done => 6
    }
  }

  /** What the phase depends on: the job's two states and a few event sequences. */
  datatype View = View(
    status: JobStatus,
    exploration: Exploration,
    required: nat,
    resolved: nat,
    started: nat,
    progressed: nat,
    composing: nat,
    closing: nat,
    scanning: nat)

  function ViewOf(db: Db): View
    requires db.job.Some?
  {
    View(
      db.job.value.status,
      db.job.value.exploration,
      LatestEvent(db.events, {AnchorRequired}),
      LatestEvent(db.events, {AnchorChosen, AnchorWindowExpired}),
      LatestEvent(db.events, {ProfessionalStarted}),
      FirstEvent(db.events, {ProfessionalProgress}),
      LatestEvent(db.events, {SynthesisStarted, SynthesisProgress}),
      LatestEvent(db.events, {FinalizationStarted}),
      LatestEvent(db.events, {CatalogScanStarted, CatalogProgress}))
  }

  predicate Unresolved(v: View) {
    && (v.exploration.AwaitingAnchor? || (v.status.Terminal() && !v.status.Successful()))
    && v.required > v.resolved
    && v.required > v.started
    && v.required > v.progressed
  }

  function PhaseOf(v: View): Phase {
    if v.status.Successful() then Done
    else if v.closing > 0 then Finalizing
    else if v.composing > 0 then ReportGeneration
    else if Unresolved(v) then AwaitingChoice
    else if v.started > 0 || v.resolved > 0 || v.progressed > 0 then ProfessionalEnrichment
    else if v.exploration.AwaitingAnchor? then AwaitingChoice
    else if v.scanning > 0 || v.status.Discovering? || v.exploration.Exploring? then AccountScan
    else InQueue
  }

  function DeepPhase(db: Db): Phase
    requires db.job.Some?
  {
    PhaseOf(ViewOf(db))
  }

  // ---------- What the log and the rows say about each other ----------

  /** Facts about the log that hold whatever the rows are. */
  predicate LogOk(v: View, chosen: nat, expired: nat, count: nat) {
    && v.required <= count && v.resolved <= count && v.started <= count && v.progressed <= count
    && (v.resolved > 0 <==> chosen > 0 || expired > 0)
    && (v.closing > 0 ==> v.status.Successful())
    && (v.exploration.AwaitingAnchor? ==>
          !v.status.Terminal() && v.required > v.resolved && v.started == 0 && v.progressed == 0)
    && (!v.status.Terminal() && v.required > v.resolved && v.required > v.started && v.required > v.progressed ==>
          v.exploration.AwaitingAnchor?)
    && (v.status.Discovering? || v.exploration.Exploring? ==>
          v.scanning > 0 || v.started > 0 || v.composing > 0 || v.resolved > 0)
  }

  /** What the log and the rows of a job say about each other. While a transaction that reads
      `clock` is under way, an anchor window may just have expired; once it has committed
      (`clock` is None), an expired window has led to a search, a synthesis or the end. */
  predicate PhaseOk(db: Db, clock: Option<Time>) {
    && db.job.Some?
    && db.runs.Keys != {}
    && (db.job.value.attempt.reported ==> db.job.value.status.Terminal())
    && Numbered(db.events)
    && LogOk(ViewOf(db), LatestEvent(db.events, {AnchorChosen}), LatestEvent(db.events, {AnchorWindowExpired}), |db.events|)
    && (LatestEvent(db.events, {AnchorChosen}) > 0 ==> db.job.value.anchor.Some?)
    && (LatestEvent(db.events, {AnchorWindowExpired}) > 0 ==>
          || (clock.Some? && !AnchorOpen(db.job.value, clock.value))
          || db.job.value.status.Terminal()
          || HasProvider(db.runs, Professional)
          || HasProvider(db.runs, Synthesis))
    && (HasProvider(db.runs, Professional) <==> ViewOf(db).started > 0)
    && (ViewOf(db).progressed > 0 ==> ViewOf(db).started > 0)
    && (HasProvider(db.runs, Synthesis) <==> ViewOf(db).composing > 0)
    && (db.job.value.exploration.AwaitingAnchor? ==>
          ScansEnded(db.runs) && db.job.value.bareHandle && db.job.value.anchor.None?)
  }

  predicate ScansEnded(runs: map<RunId, RunRecord>) {
    forall r | r in runs && runs[r].run.provider.Maigret? :: runs[r].run.status.Terminal()
  }

  /** The phase of `after` is no earlier. */
  predicate Forward(before: Db, after: Db, clock: Option<Time>) {
    && before.job.Some?
    && PhaseOk(after, clock)
    && DeepPhase(before).Rank() <= DeepPhase(after).Rank()
  }

  lemma ForwardTransitive(a: Db, b: Db, c: Db, clock: Option<Time>)
    requires Forward(a, b, clock) && Forward(b, c, clock)
    ensures Forward(a, c, clock)
  {}

  /** At a commit, what holds between transactions holds at the start of the next. */
  lemma AnyClock(db: Db, clock: Option<Time>)
    requires PhaseOk(db, None)
    ensures PhaseOk(db, clock)
  {}

  // ---------- Row operations ----------

  lemma LatestAfter(events: seq<Event>, e: Event, kinds: set<EventKind>)
    ensures LatestEvent(events + [e], kinds) == if e.kind in kinds then e.sequence else LatestEvent(events, kinds)
  {
    assert (events + [e])[..|events|] == events;
  }

  lemma FirstAfter(events: seq<Event>, e: Event, kinds: set<EventKind>)
    ensures FirstEvent(events + [e], kinds) ==
            if FirstEvent(events, kinds) > 0 then FirstEvent(events, kinds)
            else if e.kind in kinds then e.sequence else 0
  {
    assert (events + [e])[..|events|] == events;
  }

  /** How one more event changes the view. */
  function Logged(v: View, kind: EventKind, sequence: nat): View {
    v.(required := if kind.AnchorRequired? then sequence else v.required,
       resolved := if kind.AnchorChosen? || kind.AnchorWindowExpired? then sequence else v.resolved,
       started := if kind.ProfessionalStarted? then sequence else v.started,
       progressed := if v.progressed == 0 && kind.ProfessionalProgress? then sequence else v.progressed,
       composing := if kind.SynthesisStarted? || kind.SynthesisProgress? then sequence else v.composing,
       closing := if kind.FinalizationStarted? then sequence else v.closing,
       scanning := if kind.CatalogScanStarted? || kind.CatalogProgress? then sequence else v.scanning)
  }

  lemma AddEventView(db: Db, kind: EventKind, terminal: bool)
    requires db.job.Some? && Numbered(db.events)
    ensures var after := db.(events := AddEvent(db.events, kind, terminal));
            && Numbered(after.events)
            && |after.events| == |db.events| + 1
            && ViewOf(after) == Logged(ViewOf(db), kind, |db.events| + 1)
            && LatestEvent(after.events, {AnchorChosen}) ==
                 (if kind.AnchorChosen? then |db.events| + 1 else LatestEvent(db.events, {AnchorChosen}))
            && LatestEvent(after.events, {AnchorWindowExpired}) ==
                 (if kind.AnchorWindowExpired? then |db.events| + 1 else LatestEvent(db.events, {AnchorWindowExpired}))
  {
    hide LatestEvent, FirstEvent, AddEvent, Numbered;
    NumberedAfter(db.events, kind, terminal);
    var e := Event(|db.events| + 1, kind, terminal);
    LatestAfter(db.events, e, {AnchorRequired});
    LatestAfter(db.events, e, {AnchorChosen, AnchorWindowExpired});
    LatestAfter(db.events, e, {AnchorChosen});
    LatestAfter(db.events, e, {AnchorWindowExpired});
    LatestAfter(db.events, e, {ProfessionalStarted});
    FirstAfter(db.events, e, {ProfessionalProgress});
    LatestAfter(db.events, e, {SynthesisStarted, SynthesisProgress});
    LatestAfter(db.events, e, {FinalizationStarted});
    LatestAfter(db.events, e, {CatalogScanStarted, CatalogProgress});
  }

  lemma NumberedAfter(events: seq<Event>, kind: EventKind, terminal: bool)
    requires Numbered(events)
    ensures AddEvent(events, kind, terminal) == events + [Event(|events| + 1, kind, terminal)]
    ensures Numbered(AddEvent(events, kind, terminal))
  {
    MaxSequenceIsLength(events);
    hide MaxSequence;
  }

  /** Events that can be logged at any moment of a live job. */
  predicate Harmless(kind: EventKind) {
    kind.CatalogProgress? || kind.CandidateDiscovered? || kind.ProfessionalHintsApplied?
  }

  lemma LogForward(db: Db, kind: EventKind, clock: Option<Time>)
    requires PhaseOk(db, clock)
    requires Harmless(kind) || (kind.ProfessionalProgress? && HasProvider(db.runs, Professional))
      || (kind.SynthesisProgress? && HasProvider(db.runs, Synthesis))
    ensures Forward(db, LogEvent(db, kind), clock)
  {
    hide LatestEvent, FirstEvent, HasProvider, ScansEnded, AddEvent;
    AddEventView(db, kind, false);
  }

  lemma {:induction false} LogManyForward(db: Db, count: nat, clock: Option<Time>)
    requires PhaseOk(db, clock)
    ensures Forward(db, db.(events := AddEvents(db.events, CandidateDiscovered, count)), clock)
  {
    if count == 0 {
      assert db.(events := db.events) == db;
    } else {
      LogManyForward(db, count - 1, clock);
      var earlier := db.(events := AddEvents(db.events, CandidateDiscovered, count - 1));
      LogForward(earlier, CandidateDiscovered, clock);
      hide PhaseOk;
      assert db.(events := AddEvents(db.events, CandidateDiscovered, count)) == LogEvent(earlier, CandidateDiscovered);
    }
  }

  /** Runs may change among themselves as long as no kind of run appears and no scan reopens. */
  predicate SameKinds(before: map<RunId, RunRecord>, after: map<RunId, RunRecord>) {
    && after.Keys == before.Keys
    && (forall r | r in after :: after[r].run.provider == before[r].run.provider)
    && (forall r | r in after && after[r].run.provider.Maigret? && before[r].run.status.Terminal() :: after[r].run.status.Terminal())
  }

  lemma RunsForward(db: Db, after: Db, clock: Option<Time>)
    requires PhaseOk(db, clock) && SameKinds(db.runs, after.runs)
    requires after.job == db.job && after.events == db.events
    ensures Forward(db, after, clock)
  {
    assert HasProvider(after.runs, Professional) == HasProvider(db.runs, Professional);
    assert HasProvider(after.runs, Synthesis) == HasProvider(db.runs, Synthesis);
    assert ScansEnded(db.runs) ==> ScansEnded(after.runs);
    hide LatestEvent, FirstEvent;
  }

  // ---------- Schedulers and finalizer ----------

  lemma ExpireAnchorForward(db: Db, now: Time)
    requires PhaseOk(db, Some(now)) && !db.job.value.status.Terminal()
    ensures Forward(db, ExpireAnchor(db, now), Some(now))
  {
    var job := db.job.value;
    var moved := db.(job := Some(job.(exploration := Exploring, rowVersion := job.rowVersion + 1)));
    assert ViewOf(moved) == ViewOf(db).(exploration := Exploring);
    AddEventView(moved, AnchorWindowExpired, false);
    hide LatestEvent, FirstEvent;
  }

  lemma RequireAnchorForward(db: Db, now: Time, f: FollowUp)
    requires PhaseOk(db, Some(now))
    requires ProfessionalReady(db, now, f) && NeedsAnchor(db.job.value, now, f)
    ensures Forward(db, RequireAnchor(db), Some(now))
    ensures PhaseOk(RequireAnchor(db), None)
  {
    var job := db.job.value;
    var moved := db.(job := Some(job.(exploration := AwaitingAnchor, rowVersion := job.rowVersion + 1)));
    assert ViewOf(moved) == ViewOf(db).(exploration := AwaitingAnchor);
    AddEventView(moved, AnchorRequired, false);
    assert ScansEnded(db.runs);
    hide LatestEvent, FirstEvent;
  }

  /** The runs after adding runs of one new kind with unused ids. */
  predicate Joined(before: map<RunId, RunRecord>, after: map<RunId, RunRecord>, provider: Provider) {
    && (forall r | r in before :: r in after && after[r] == before[r])
    && (forall r | r in after && r !in before :: after[r].run.provider == provider)
    && (exists r | r in after :: r !in before)
  }

  lemma JoinedKinds(before: map<RunId, RunRecord>, after: map<RunId, RunRecord>, provider: Provider)
    requires Joined(before, after, provider) && !provider.Maigret?
    ensures HasProvider(after, provider) && after.Keys != {}
    ensures forall q: Provider | q != provider :: HasProvider(after, q) == HasProvider(before, q)
    ensures ScansEnded(after) == ScansEnded(before)
  {
    forall q: Provider | q != provider
      ensures HasProvider(after, q) == HasProvider(before, q)
    {
      if HasProvider(before, q) {
        var r :| r in before && before[r].run.provider == q;
        assert r in after && after[r].run.provider == q;
      }
    }
  }

  lemma {:induction false} AddWaveJoins(db: Db, wave: seq<PlannedRun>)
    requires db.job.Some? && FreshWave(wave, db.runs.Keys) && wave != []
    ensures Joined(db.runs, AddWave(db, wave).runs, Professional)
    ensures AddWave(db, wave).events == db.events
  {
    var rest, p := wave[..|wave| - 1], wave[|wave| - 1];
    assert p in wave;
    if rest != [] {
      assert forall q | q in rest :: q in wave;
      AddWaveJoins(db, rest);
    }
    assert p.id in AddWave(db, wave).runs;
  }

  /** `moved` differs from `db` in exploration, version, and runs that were added. */
  predicate MovedOn(db: Db, moved: Db) {
    && db.job.Some? && moved.job.Some?
    && (moved.job == db.job
        || moved.job.value == db.job.value.(exploration := Exploring, rowVersion := moved.job.value.rowVersion))
    && moved.events == db.events
    && moved.runs.Keys != {}
    && ScansEnded(moved.runs) == ScansEnded(db.runs)
  }

  lemma WaveForward(db: Db, moved: Db, clock: Option<Time>)
    requires PhaseOk(db, clock) && MovedOn(db, moved) && !db.job.value.status.Terminal() && moved.job.value.exploration.Exploring?
    requires HasProvider(moved.runs, Professional) && HasProvider(moved.runs, Synthesis) == HasProvider(db.runs, Synthesis)
    ensures Forward(db, LogEvent(moved, ProfessionalStarted), clock)
  {
    hide LatestEvent, FirstEvent, HasProvider, ScansEnded, AddEvent;
    AddEventView(moved, ProfessionalStarted, false);
  }

  lemma StartWaveForward(db: Db, f: FollowUp, clock: Option<Time>)
    requires PhaseOk(db, clock) && FreshWave(f.wave, db.runs.Keys) && f.wave != [] && !db.job.value.status.Terminal()
    ensures Forward(db, StartWave(db, f), clock)
  {
    hide PhaseOk, Forward, HasProvider, ScansEnded, AddEvent, Joined, FreshWave, AddWave;
    PhaseHasJob(db, clock);
    AddWaveJoins(db, f.wave);
    var filled := AddWave(db, f.wave);
    JoinedKinds(db.runs, filled.runs, Professional);
    var job := filled.job.value;
    var moved := filled.(job := Some(job.(exploration := Exploring, rowVersion := job.rowVersion + 1)));
    WaveForward(db, moved, clock);
    var started := LogEvent(moved, ProfessionalStarted);
    ForwardOk(db, started, clock);
    LogForward(started, ProfessionalHintsApplied, clock);
    ForwardTransitive(db, started, LogEvent(started, ProfessionalHintsApplied), clock);
  }

  lemma PhaseHasJob(db: Db, clock: Option<Time>)
    requires PhaseOk(db, clock)
    ensures db.job.Some?
  {}

  lemma ComposedForward(db: Db, moved: Db, kind: EventKind, clock: Option<Time>)
    requires PhaseOk(db, clock) && MovedOn(db, moved) && !db.job.value.status.Terminal()
    requires !db.job.value.exploration.AwaitingAnchor?
    requires HasProvider(moved.runs, Professional) == HasProvider(db.runs, Professional) && HasProvider(moved.runs, Synthesis)
    requires kind.SynthesisStarted? || kind.SynthesisProgress?
    ensures Forward(db, LogEvent(moved, kind), clock)
  {
    hide LatestEvent, FirstEvent, HasProvider, ScansEnded, AddEvent;
    AddEventView(moved, kind, false);
  }

  lemma ComposeForward(db: Db, after: Db, kind: EventKind, clock: Option<Time>)
    requires PhaseOk(db, clock) && !db.job.value.status.Terminal() && !HasProvider(db.runs, Synthesis)
    requires !db.job.value.exploration.AwaitingAnchor?
    requires Joined(db.runs, after.runs, Synthesis) && after.events == db.events
    requires after.job.Some? && (after.job == db.job || (
      after.job.value.exploration.Exploring? && after.job.value == db.job.value.(exploration := Exploring, rowVersion := after.job.value.rowVersion)))
    requires kind.SynthesisStarted? || kind.SynthesisProgress?
    ensures Forward(db, LogEvent(after, kind), clock)
  {
    hide PhaseOk, Forward, HasProvider, ScansEnded, AddEvent, Joined;
    PhaseHasJob(db, clock);
    JoinedKinds(db.runs, after.runs, Synthesis);
    ComposedForward(db, after, kind, clock);
  }

  lemma PutJoins(runs: map<RunId, RunRecord>, r: RunId, record: RunRecord)
    requires r !in runs
    ensures Joined(runs, runs[r := record], record.run.provider)
  {
    assert r in runs[r := record];
  }

  lemma ScheduleSynthesisForward(db: Db, f: FollowUp, clock: Option<Time>)
    requires PhaseOk(db, clock) && f.synthesisId !in db.runs && db.job.Some? && !db.job.value.exploration.AwaitingAnchor?
    ensures Forward(db, ScheduleSynthesis(db, f).0, clock)
  {
    ForwardReflexive(db, clock);
    hide PhaseOk, Forward, LogEvent, Joined, HasProvider, AllTerminal;
    if SynthesisReady(db) {
      var r, job := f.synthesisId, db.job.value;
      PutJoins(db.runs, r, SynthesisRecord(job, Pending));
      PutJoins(db.runs, r, SynthesisRecord(job, SkippedConfiguration));
      if f.synthesisConfigured {
        var queued := Enqueue(PutRecord(db, r, SynthesisRecord(job, Pending)), DedupeKey(Synthesis, r, 1));
        var moved := queued.(job := Some(job.(exploration := Exploring, rowVersion := job.rowVersion + 1)));
        ComposeForward(db, moved, SynthesisStarted, clock);
      } else {
        var stored := InsertResult(
          PutRecord(db, r, SynthesisRecord(job, SkippedConfiguration)), r, SynthesisResult(SkippedConfiguration, None));
        ComposeForward(db, stored, SynthesisProgress, clock);
      }
    }
  }

  lemma FinalizeFootprintForward(db: Db, now: Time, f: FollowUp, clock: Option<Time>)
    requires PhaseOk(db, clock)
    ensures Forward(db, FinalizeFootprint(db, now, f).0, clock)
  {
    hide LatestEvent, FirstEvent, HasProvider, ScansEnded, AddEvent, Conclusive;
    if FinalizerReady(db) {
      var done := FinalizeFootprint(db, now, f).0;
      AddEventView(db, FinalizationStarted, false);
      AddEventView(LogEvent(db, FinalizationStarted), JobReady, true);
      var started := LogEvent(db, FinalizationStarted);
      var ready := started.(events := AddEvent(started.events, JobReady, true));
      assert done.events == ready.events && done.runs == db.runs;
      assert ViewOf(done) == ViewOf(ready).(status := done.job.value.status, exploration := Completed);
    }
  }

  lemma ScheduleProfessionalForward(db: Db, now: Time, f: FollowUp)
    requires PhaseOk(db, Some(now)) && f.Fresh(db.runs.Keys)
    ensures Forward(db, ScheduleProfessional(db, now, f).0, Some(now))
  {
    hide PhaseOk, Forward;
    ForwardReflexive(db, Some(now));
    if ProfessionalReady(db, now, f) {
      if NeedsAnchor(db.job.value, now, f) {
        RequireAnchorForward(db, now, f);
      } else if f.wave != [] {
        assert FreshWave(f.wave, db.runs.Keys);
        StartWaveForward(db, f, Some(now));
      }
    }
  }

  lemma ForwardReflexive(db: Db, clock: Option<Time>)
    requires PhaseOk(db, clock)
    ensures Forward(db, db, clock) && db.job.Some?
  {}

  lemma ForwardOk(before: Db, after: Db, clock: Option<Time>)
    requires Forward(before, after, clock)
    ensures PhaseOk(after, clock)
  {}

  /** Advancing a job moves its phase forward, and leaves no expired window behind without a
      search, a synthesis or the end of the job. */
  lemma FinalizeDiscoveryForward(db: Db, now: Time, f: FollowUp)
    requires PhaseOk(db, None) && f.Fresh(db.runs.Keys)
    ensures Forward(db, FinalizeDiscovery(db, now, f).0, None)
  {
    hide PhaseOk, Forward, ScheduleProfessional, ScheduleSynthesis, FinalizeFootprint, AnchorOpen;
    ForwardReflexive(db, None);
    if !db.job.value.status.Terminal() && !(db.job.value.exploration.AwaitingAnchor? && AnchorOpen(db.job.value, now)) {
      AnyClock(db, Some(now));
      FinalizeFromOpen(db, now, f);
      AdvanceSettles(db, now, f);
      ForwardSettled(db, FinalizeDiscovery(db, now, f).0, Some(now));
    }
  }

  lemma FinalizeFromOpen(db: Db, now: Time, f: FollowUp)
    requires PhaseOk(db, Some(now)) && f.Fresh(db.runs.Keys)
    ensures Forward(db, FinalizeDiscovery(db, now, f).0, Some(now))
  {
    hide PhaseOk, Forward, ScheduleProfessional, ScheduleSynthesis, FinalizeFootprint, AnchorOpen;
    var clock := Some(now);
    ForwardReflexive(db, clock);
    if !db.job.value.status.Terminal() && !(db.job.value.exploration.AwaitingAnchor? && AnchorOpen(db.job.value, now)) {
      var expired := ExpireAnchor(db, now);
      assert expired.runs == db.runs;
      ExpireAnchorForward(db, now);
      ForwardOk(db, expired, clock);
      ScheduleProfessionalForward(expired, now, f);
      var (searched, wave) := ScheduleProfessional(expired, now, f);
      ForwardTransitive(db, expired, searched, clock);
      ForwardOk(db, searched, clock);
      if !wave && !searched.job.value.exploration.AwaitingAnchor? {
        NoWaveKeepsRuns(expired, now, f);
        ScheduleSynthesisForward(searched, f, clock);
        var (composed, queued) := ScheduleSynthesis(searched, f);
        ForwardTransitive(db, searched, composed, clock);
        ForwardOk(db, composed, clock);
        FinalizeFootprintForward(composed, now, f, clock);
        ForwardTransitive(db, composed, FinalizeFootprint(composed, now, f).0, clock);
      }
    }
  }

  lemma ForwardSettled(db: Db, after: Db, clock: Option<Time>)
    requires Forward(db, after, clock) && Settled(after)
    ensures Forward(db, after, None)
  {}

  /** An expired window has led to a search, a synthesis or the end of the job. */
  predicate Settled(db: Db) {
    db.job.Some? && LatestEvent(db.events, {AnchorWindowExpired}) > 0 ==>
      db.job.value.status.Terminal() || HasProvider(db.runs, Professional) || HasProvider(db.runs, Synthesis)
  }

  lemma WaveSettles(db: Db, f: FollowUp, clock: Option<Time>)
    requires PhaseOk(db, clock) && FreshWave(f.wave, db.runs.Keys) && f.wave != []
    ensures Settled(StartWave(db, f))
  {
    hide LatestEvent, FirstEvent, AddEvent, Joined, FreshWave, AddWave;
    AddWaveJoins(db, f.wave);
    JoinedKinds(db.runs, AddWave(db, f.wave).runs, Professional);
  }

  /** What no expired window, or a settled one, stays under scheduling a synthesis and finalizing. */
  lemma SynthesisSettles(db: Db, now: Time, f: FollowUp)
    requires db.job.Some? && Numbered(db.events) && f.synthesisId !in db.runs
    requires Settled(db) || FinalizerReady(db) || HasProvider(db.runs, Synthesis)
    ensures Settled(ScheduleSynthesis(db, f).0)
         || (ScheduleSynthesis(db, f).0 == db && FinalizerReady(db))
    ensures ScheduleSynthesis(db, f).1 ==> Settled(ScheduleSynthesis(db, f).0)
  {
    hide LatestEvent, FirstEvent, AddEvent, AllTerminal;
    if SynthesisReady(db) {
      assert f.synthesisId in ScheduleSynthesis(db, f).0.runs;
      assert HasProvider(ScheduleSynthesis(db, f).0.runs, Synthesis);
    }
  }

  lemma FinalizerSettles(db: Db, now: Time, f: FollowUp)
    requires db.job.Some? && (Settled(db) || FinalizerReady(db))
    ensures Settled(FinalizeFootprint(db, now, f).0)
  {
    hide LatestEvent, AddEvent, Conclusive, HasProvider;
  }

  /** When a window expires nothing but ended scans is there, so the job can be finalized. */
  lemma ExpiredIsReady(db: Db, now: Time)
    requires PhaseOk(db, None) && !db.job.value.status.Terminal() && !(db.job.value.exploration.AwaitingAnchor? && AnchorOpen(db.job.value, now))
    ensures var expired := ExpireAnchor(db, now);
      expired.job.Some? && (Settled(expired) || FinalizerReady(expired) || HasProvider(expired.runs, Synthesis))
  {
    hide LatestEvent, FirstEvent, AddEvent, AnchorOpen;
    if db.job.value.exploration.AwaitingAnchor? && !HasProvider(db.runs, Synthesis) {
      assert !HasProvider(db.runs, Professional);
      forall r | r in db.runs
        ensures db.runs[r].run.status.Terminal()
      {
        assert db.runs[r].run.provider.Maigret?;
      }
    }
  }

  lemma AdvanceSettles(db: Db, now: Time, f: FollowUp)
    requires PhaseOk(db, None) && f.Fresh(db.runs.Keys) && !db.job.value.status.Terminal()
    requires !(db.job.value.exploration.AwaitingAnchor? && AnchorOpen(db.job.value, now))
    ensures Settled(FinalizeDiscovery(db, now, f).0)
  {
    hide PhaseOk, Forward, ScheduleProfessional, ScheduleSynthesis, FinalizeFootprint, AnchorOpen, Settled, FinalizerReady,
      HasProvider, ExpireAnchor, Numbered;
    AnyClock(db, Some(now));
    ExpireAnchorForward(db, now);
    ExpiredIsReady(db, now);
    var expired := ExpireAnchor(db, now);
    ExpiryFacts(db, now);
    ForwardOk(db, expired, Some(now));
    SearchSettles(expired, now, f);
    var (searched, wave) := ScheduleProfessional(expired, now, f);
    if !wave && !searched.job.value.exploration.AwaitingAnchor? {
      SynthesisSettles(searched, now, f);
      var (composed, queued) := ScheduleSynthesis(searched, f);
      if !queued {
        SynthesisKeepsJob(searched, f);
        FinalizerSettles(composed, now, f);
      }
    }
  }

  lemma SynthesisKeepsJob(db: Db, f: FollowUp)
    requires db.job.Some?
    ensures ScheduleSynthesis(db, f).0.job.Some?
  {
    hide SynthesisReady, AddEvent;
  }

  lemma ExpiryFacts(db: Db, now: Time)
    requires PhaseOk(db, None) && !db.job.value.status.Terminal()
    requires !(db.job.value.exploration.AwaitingAnchor? && AnchorOpen(db.job.value, now))
    ensures var expired := ExpireAnchor(db, now);
      expired.job.Some? && expired.runs == db.runs && !expired.job.value.exploration.AwaitingAnchor?
  {
    hide AddEvent, AnchorOpen;
  }

  lemma SearchSettles(db: Db, now: Time, f: FollowUp)
    requires PhaseOk(db, Some(now)) && f.Fresh(db.runs.Keys) && !db.job.value.exploration.AwaitingAnchor?
    ensures var (searched, wave) := ScheduleProfessional(db, now, f);
      && searched.job.Some? && (wave ==> Settled(searched))
      && (searched.job.value.exploration.AwaitingAnchor? ==> Settled(searched))
      && (!wave && !searched.job.value.exploration.AwaitingAnchor? ==> searched == db && Numbered(db.events))
  {
    hide PhaseOk, Forward, Settled, LatestEvent, AddEvent, AddWave, NeedsAnchor, HasProvider;
    PhaseFacts(db, Some(now));
    if ProfessionalReady(db, now, f) {
      if NeedsAnchor(db.job.value, now, f) {
        RequireAnchorForward(db, now, f);
        PhaseIsSettled(RequireAnchor(db));
      } else if f.wave != [] {
        assert FreshWave(f.wave, db.runs.Keys);
        WaveSettles(db, f, Some(now));
      }
    }
  }

  lemma PhaseFacts(db: Db, clock: Option<Time>)
    requires PhaseOk(db, clock)
    ensures db.job.Some? && Numbered(db.events)
  {}

  lemma PhaseIsSettled(db: Db)
    requires PhaseOk(db, None)
    ensures Settled(db)
  {}

  lemma NoWaveKeepsRuns(db: Db, now: Time, f: FollowUp)
    requires db.job.Some? && !ScheduleProfessional(db, now, f).1
    ensures ScheduleProfessional(db, now, f).0.runs == db.runs
  {
    hide ProfessionalReady, NeedsAnchor;
  }

  lemma ThenFinalizeForward(db: Db, changed: Db, now: Time, f: FollowUp)
    requires Forward(db, changed, None) && f.Fresh(changed.runs.Keys)
    ensures changed.job.Some? && Forward(db, FinalizeDiscovery(changed, now, f).0, None)
  {
    assert PhaseOk(changed, None) && changed.job.Some?;
    hide PhaseOk, Forward;
    FinalizeDiscoveryForward(changed, now, f);
    ForwardTransitive(db, changed, FinalizeDiscovery(changed, now, f).0, None);
  }

  // ---------- Transactions ----------

  lemma PutForward(db: Db, r: RunId, record: RunRecord)
    requires PhaseOk(db, None) && r in db.runs && record.run.provider == db.runs[r].run.provider
    requires db.runs[r].run.status.Terminal() ==> record.run.status.Terminal()
    ensures Forward(db, PutRecord(db, r, record), None)
    ensures PutRecord(db, r, record).runs.Keys == db.runs.Keys
  {
    hide PhaseOk, Forward;
    assert PutRecord(db, r, record).runs.Keys == db.runs.Keys;
    RunsForward(db, PutRecord(db, r, record), None);
  }

  lemma ThenPutForward(db: Db, changed: Db, r: RunId, record: RunRecord)
    requires Forward(db, changed, None) && r in changed.runs && record.run.provider == changed.runs[r].run.provider
    requires changed.runs[r].run.status.Terminal() ==> record.run.status.Terminal()
    ensures Forward(db, PutRecord(changed, r, record), None)
    ensures PutRecord(changed, r, record).runs.Keys == changed.runs.Keys
  {
    hide PhaseOk, Forward;
    ForwardOk(db, changed, None);
    PutForward(changed, r, record);
    ForwardTransitive(db, changed, PutRecord(changed, r, record), None);
  }

  lemma ThenLogForward(db: Db, changed: Db, kind: EventKind)
    requires Forward(db, changed, None)
    requires Harmless(kind) || (kind.ProfessionalProgress? && HasProvider(changed.runs, Professional))
      || (kind.SynthesisProgress? && HasProvider(changed.runs, Synthesis))
    ensures Forward(db, LogEvent(changed, kind), None)
  {
    hide PhaseOk, Forward;
    ForwardOk(db, changed, None);
    LogForward(changed, kind, None);
    ForwardTransitive(db, changed, LogEvent(changed, kind), None);
  }

  lemma StartDiscoveringForward(db: Db)
    requires PhaseOk(db, None) && !db.job.value.status.Terminal() && !ScansEnded(db.runs)
    ensures Forward(db, StartDiscovering(db), None)
  {
    hide LatestEvent, FirstEvent, HasProvider, ScansEnded, AddEvent;
    var job := db.job.value;
    if job.status.Queued? {
      var moved := db.(job := Some(job.(
        status := Discovering, exploration := Exploring, rowVersion := job.rowVersion + 1,
        attempt := job.attempt.(running := true))));
      assert ViewOf(moved) == ViewOf(db).(status := Discovering, exploration := Exploring);
      AddEventView(moved, CatalogScanStarted, false);
    }
  }

  lemma StartLateWorkerForward(db: Db)
    requires PhaseOk(db, None) && !db.job.value.status.Terminal()
    requires HasProvider(db.runs, Professional) || HasProvider(db.runs, Synthesis)
    ensures Forward(db, StartLateWorker(db), None)
  {
    hide LatestEvent, FirstEvent, HasProvider, ScansEnded;
    assert ViewOf(StartLateWorker(db)) == ViewOf(db).(status := StartLateWorker(db).job.value.status);
  }

  lemma LeaseScanForward(db: Db, r: RunId, now: Time, config: ScanConfig, f: FollowUp)
    requires PhaseOk(db, None) && Inv(db) && f.Fresh(db.runs.Keys)
    ensures Forward(db, LeaseScan(db, r, now, config, f).0, None)
  {
    hide PhaseOk, Forward, Inv, FinalizeDiscovery, StartDiscovering, CloseRun;
    ForwardReflexive(db, None);
    if Leasable(db, r, Maigret) {
      WaitingRunHasOpenJob(db, r, Maigret);
      match ScanRefusal(db.runs[r].run, now, config)
      case Some(status) =>
        CloseKeepsProvider(db.runs[r], status, now);
        PutForward(db, r, CloseRun(db.runs[r], status, now));
        ThenFinalizeForward(db, PutRecord(db, r, CloseRun(db.runs[r], status, now)), now, f);
      case None =>
        var leased := PutRecord(db, r, TakeLease(db.runs[r], db.job.value, now, config.leaseSeconds));
        PutForward(db, r, TakeLease(db.runs[r], db.job.value, now, config.leaseSeconds));
        ForwardOk(db, leased, None);
        assert !ScansEnded(leased.runs) by {
          assert r in leased.runs && leased.runs[r].run.status.Running?;
        }
        StartDiscoveringForward(leased);
        ForwardTransitive(db, leased, StartDiscovering(leased), None);
    }
  }

  lemma CloseKeepsProvider(record: RunRecord, status: RunStatus, now: Time)
    ensures CloseRun(record, status, now).run.provider == record.run.provider
    ensures CloseRun(record, status, now).run.status == status
  {}

  lemma LeaseLateForward(db: Db, r: RunId, now: Time, seconds: Time)
    requires PhaseOk(db, None) && Inv(db) && db.job.Some? && r in db.runs && db.runs[r].run.status.Waiting()
    requires !db.runs[r].run.provider.Maigret?
    ensures Forward(db, StartLateWorker(PutRecord(db, r, TakeLease(db.runs[r], db.job.value, now, seconds))), None)
  {
    hide PhaseOk, Forward, Inv, StartLateWorker;
    WaitingRunHasOpenJob(db, r, db.runs[r].run.provider);
    var record := TakeLease(db.runs[r], db.job.value, now, seconds);
    PutForward(db, r, record);
    var leased := PutRecord(db, r, record);
    ForwardOk(db, leased, None);
    assert r in leased.runs;
    assert HasProvider(leased.runs, Professional) || HasProvider(leased.runs, Synthesis);
    StartLateWorkerForward(leased);
    ForwardTransitive(db, leased, StartLateWorker(leased), None);
  }

  lemma LeaseProfessionalForward(db: Db, r: RunId, now: Time, seconds: Time, f: FollowUp)
    requires PhaseOk(db, None) && Inv(db) && f.Fresh(db.runs.Keys)
    ensures Forward(db, LeaseProfessional(db, r, now, seconds, f).0, None)
  {
    hide PhaseOk, Forward, Inv, FinalizeDiscovery, StartLateWorker, CloseRun, TakeLease;
    ForwardReflexive(db, None);
    if Leasable(db, r, Professional) {
      WaitingRunHasOpenJob(db, r, Professional);
      CloseKeepsProvider(db.runs[r], ClosedAtCutoff, now);
      PutForward(db, r, CloseRun(db.runs[r], ClosedAtCutoff, now));
      ThenFinalizeForward(db, PutRecord(db, r, CloseRun(db.runs[r], ClosedAtCutoff, now)), now, f);
      LeaseLateForward(db, r, now, seconds);
    }
  }

  lemma LeaseSynthesisForward(db: Db, r: RunId, now: Time, seconds: Time)
    requires PhaseOk(db, None) && Inv(db)
    ensures Forward(db, LeaseSynthesis(db, r, now, seconds).0, None)
  {
    hide PhaseOk, Forward, Inv, StartLateWorker, TakeLease;
    ForwardReflexive(db, None);
    if Leasable(db, r, Synthesis) {
      WaitingRunHasOpenJob(db, r, Synthesis);
      LeaseLateForward(db, r, now, seconds);
    }
  }

  lemma FinishKeepsProvider(record: RunRecord, generation: nat, now: Time, status: RunStatus, disposition: Disposition, resultCount: nat)
    ensures FinishRun(record, generation, now, status, disposition, resultCount).run.provider == record.run.provider
    ensures FinishRun(record, generation, now, status, disposition, resultCount).run.status == status
  {
    hide CloseAttempt;
  }

  lemma AcceptForward(db: Db, lease: Lease, payload: Payload)
    requires PhaseOk(db, None)
    ensures Forward(db, Accept(db, lease, payload), None)
  {
    hide PhaseOk, Forward;
    RunsForward(db, Accept(db, lease, payload), None);
  }

  /** Saving a payload with its new accounts, its run and one progress event. */
  lemma SaveForward(db: Db, lease: Lease, payload: Payload, newAccounts: nat, record: RunRecord, kind: EventKind)
    requires PhaseOk(db, None) && lease.run in db.runs && record.run.provider == db.runs[lease.run].run.provider
    requires record.run.status.Terminal()
    requires kind.CatalogProgress? || (kind.ProfessionalProgress? && record.run.provider.Professional?)
    ensures var saved := Accept(db, lease, payload);
            var stored := PutRecord(saved.(events := AddEvents(saved.events, CandidateDiscovered, newAccounts)), lease.run, record);
            Forward(db, LogEvent(stored, kind), None) && stored.runs.Keys == db.runs.Keys
  {
    hide PhaseOk, Forward, LogEvent, AddEvents;
    var saved := Accept(db, lease, payload);
    AcceptForward(db, lease, payload);
    ForwardOk(db, saved, None);
    LogManyForward(saved, newAccounts, None);
    var logged := saved.(events := AddEvents(saved.events, CandidateDiscovered, newAccounts));
    ForwardTransitive(db, saved, logged, None);
    ThenPutForward(db, logged, lease.run, record);
    var stored := PutRecord(logged, lease.run, record);
    assert record.run.provider.Professional? ==> HasProvider(stored.runs, Professional) by {
      assert lease.run in stored.runs && stored.runs[lease.run] == record;
    }
    ThenLogForward(db, stored, kind);
  }

  lemma CompleteScanForward(db: Db, lease: Lease, now: Time, outcome: ScanOutcome)
    requires PhaseOk(db, None) && Inv(db) && outcome.Valid() && LeaseKnown(db, lease)
    ensures Forward(db, CompleteScan(db, lease, now, outcome), None)
  {
    hide PhaseOk, Forward, Inv, FinishRun, LogEvent, Discard;
    ForwardReflexive(db, None);
    if !Current(db, lease) || db.runs[lease.run].scan.None? {
      DiscardForward(db, lease, now);
    } else {
      var record := db.runs[lease.run];
      match outcome
      case ScanFailed =>
        FinishKeepsProvider(record, lease.generation, now, ProviderError, InBudget, record.run.resultCount);
        PutForward(db, lease.run, FinishRun(record, lease.generation, now, ProviderError, InBudget, record.run.resultCount));
      case ScanUnsaved =>
        FinishKeepsProvider(record, lease.generation, now, ProviderError, PayloadDiscardedPolicy, 0);
        PutForward(db, lease.run, FinishRun(record, lease.generation, now, ProviderError, PayloadDiscardedPolicy, 0));
        ThenLogForward(db, PutRecord(db, lease.run, FinishRun(record, lease.generation, now, ProviderError, PayloadDiscardedPolicy, 0)), CatalogProgress);
      case ScanSaved(status, payload, found, newAccounts) =>
        var disposition := if status.Cancelled? then PartialPreserved else InBudget;
        FinishKeepsProvider(record, lease.generation, now, status, disposition, found);
        SaveForward(db, lease, payload, newAccounts, FinishRun(record, lease.generation, now, status, disposition, found), CatalogProgress);
    }
  }

  lemma DiscardForward(db: Db, lease: Lease, now: Time)
    requires PhaseOk(db, None)
    ensures Forward(db, Discard(db, lease, now), None)
  {
    hide PhaseOk, Forward, FindAttempt;
    ForwardReflexive(db, None);
    if lease.run in db.runs {
      assert Discard(db, lease, now).runs.Keys == db.runs.Keys;
      RunsForward(db, Discard(db, lease, now), None);
    }
  }

  lemma CompleteProfessionalForward(db: Db, lease: Lease, now: Time, outcome: SearchOutcome, f: FollowUp)
    requires PhaseOk(db, None) && Inv(db) && f.Fresh(db.runs.Keys)
    requires lease.run in db.runs ==> db.runs[lease.run].run.provider.Professional?
    ensures Forward(db, CompleteProfessional(db, lease, now, outcome, f), None)
  {
    hide PhaseOk, Forward, Inv, FinishRun, LogEvent, Discard, FinalizeDiscovery, AddEvents;
    if !Current(db, lease) {
      DiscardForward(db, lease, now);
    } else if DeadlineReached(db.runs[lease.run].run.deadline, now) {
      var late := FinishRun(db.runs[lease.run], lease.generation, now, ClosedAtCutoff, LatePayloadDiscarded, 0);
      FinishKeepsProvider(db.runs[lease.run], lease.generation, now, ClosedAtCutoff, LatePayloadDiscarded, 0);
      PutForward(db, lease.run, late);
      var stored := PutRecord(db, lease.run, late);
      assert HasProvider(stored.runs, Professional) by {
        assert lease.run in stored.runs && stored.runs[lease.run] == late;
      }
      ThenLogForward(db, stored, ProfessionalProgress);
      LogKeepsRuns(stored, ProfessionalProgress);
      ThenFinalizeForward(db, LogEvent(stored, ProfessionalProgress), now, f);
    } else {
      var status := SearchStatus(outcome);
      var disposition := if status.PartialSuccess? then PartialPreserved else InBudget;
      var finished := FinishRun(db.runs[lease.run], lease.generation, now, status, disposition, outcome.accepted);
      FinishKeepsProvider(db.runs[lease.run], lease.generation, now, status, disposition, outcome.accepted);
      SaveForward(db, lease, outcome.payload, outcome.newAccounts, finished, ProfessionalProgress);
      var saved := Accept(db, lease, outcome.payload);
      var stored := PutRecord(saved.(events := AddEvents(saved.events, CandidateDiscovered, outcome.newAccounts)), lease.run, finished);
      LogKeepsRuns(stored, ProfessionalProgress);
      ThenFinalizeForward(db, LogEvent(stored, ProfessionalProgress), now, f);
    }
  }

  lemma LogKeepsRuns(db: Db, kind: EventKind)
    ensures LogEvent(db, kind).runs == db.runs && LogEvent(db, kind).job == db.job
  {}

  lemma CompleteSynthesisForward(db: Db, lease: Lease, now: Time, outcome: SynthesisOutcome, f: FollowUp)
    requires PhaseOk(db, None) && Inv(db) && f.Fresh(db.runs.Keys)
    requires lease.run in db.runs ==> db.runs[lease.run].run.provider.Synthesis?
    ensures Forward(db, CompleteSynthesis(db, lease, now, outcome, f), None)
  {
    hide PhaseOk, Forward, Inv, FinishRun, LogEvent, Discard, FinalizeDiscovery;
    if !Current(db, lease) || db.job.value.status.Terminal() {
      DiscardForward(db, lease, now);
    } else {
      var status := SynthesisStatus(outcome);
      var output := if status.Success? then outcome.output else None;
      var count := if output.Some? then 1 else 0;
      var stored := UpsertResult(db, lease.run, SynthesisResult(status, output));
      var accepted := if output.Some? then Accept(stored, lease, output.value) else stored;
      var finished := FinishRun(db.runs[lease.run], lease.generation, now, status, InBudget, count);
      RunsForward(db, accepted, None);
      FinishKeepsProvider(db.runs[lease.run], lease.generation, now, status, InBudget, count);
      ThenPutForward(db, accepted, lease.run, finished);
      var put := PutRecord(accepted, lease.run, finished);
      assert put.runs[lease.run].run.provider.Synthesis?;
      ThenLogForward(db, put, SynthesisProgress);
      LogKeepsRuns(put, SynthesisProgress);
      ThenFinalizeForward(db, LogEvent(put, SynthesisProgress), now, f);
    }
  }

  lemma RenewLeaseForward(db: Db, lease: Lease, now: Time, seconds: Time)
    requires PhaseOk(db, None)
    ensures Forward(db, RenewLease(db, lease, now, seconds).0, None)
  {
    hide PhaseOk, Forward;
    ForwardReflexive(db, None);
    if Current(db, lease) {
      PutForward(db, lease.run, db.runs[lease.run].(run := db.runs[lease.run].run.(leaseExpiresAt := Some(now + seconds))));
    }
  }

  lemma ReclaimClosedForward(db: Db, r: RunId, closed: RunRecord, now: Time, f: FollowUp)
    requires PhaseOk(db, None) && db.job.Some? && f.Fresh(db.runs.Keys)
    requires r in db.runs && closed.run.provider == db.runs[r].run.provider && closed.run.status.Terminal()
    ensures Forward(db, ReclaimClosed(db, r, closed, now, f), None)
  {
    hide PhaseOk, Forward, FinalizeDiscovery;
    var stored := PutRecord(db, r, closed);
    PutForward(db, r, closed);
    ForwardOk(db, stored, None);
    var resolved := if closed.run.provider.Synthesis? then PersistFallback(stored, r, closed.run.status) else stored;
    RunsForward(stored, resolved, None);
    ForwardTransitive(db, stored, resolved, None);
    assert resolved.runs.Keys == db.runs.Keys && f.WithoutSettings().NewIds() == f.NewIds();
    ThenFinalizeForward(db, resolved, now, f.WithoutSettings());
  }

  lemma RetryForward(db: Db, r: RunId, waiting: RunRecord, key: DedupeKey)
    requires PhaseOk(db, None) && r in db.runs && waiting.run.provider == db.runs[r].run.provider && db.runs[r].run.status.Running?
    ensures Forward(db, Enqueue(PutRecord(db, r, waiting), key), None)
  {
    hide PhaseOk, Forward;
    var queued := Enqueue(PutRecord(db, r, waiting), key);
    assert queued.runs.Keys == db.runs.Keys;
    RunsForward(db, queued, None);
  }

  lemma ReclaimForward(db: Db, r: RunId, now: Time, f: FollowUp)
    requires PhaseOk(db, None) && f.Fresh(db.runs.Keys)
    ensures Forward(db, Reclaim(db, r, now, f), None)
  {
    hide PhaseOk, Forward, CloseAttempt, ReclaimClosed, CloseRun, Enqueue;
    ForwardReflexive(db, None);
    if Reclaimable(db, r, now) {
      var record := db.runs[r];
      var abandoned := record.(attempts :=
        CloseAttempt(record.attempts, record.run.generation, now, AbandonedLeaseExpired, LatePayloadDiscarded));
      CloseKeepsProvider(abandoned, ClosedAtCutoff, now);
      ReclaimClosedForward(db, r, CloseRun(abandoned, ClosedAtCutoff, now), now, f);
      ReclaimClosedForward(db, r, SetStatus(abandoned, ProviderError), now, f);
      var again := SetStatus(abandoned, RetryScheduled);
      var waiting := if again.scan.None? then again else again.(scan := Some(again.scan.value.(status := RetryScheduled)));
      RetryForward(db, r, waiting, DedupeKey(record.run.provider, r, record.run.generation + 1));
    }
  }

  lemma CutoffForward(db: Db, now: Time, f: FollowUp)
    requires PhaseOk(db, None) && f.Fresh(db.runs.Keys)
    ensures Forward(db, Cutoff(db, now, f), None)
  {
    hide PhaseOk, Forward, CloseAttempt, FinalizeDiscovery;
    ForwardReflexive(db, None);
    if !db.job.value.status.Terminal() {
      var closed := db.(runs := map r | r in db.runs :: CutoffRecord(db.runs[r], now));
      assert closed.runs.Keys == db.runs.Keys;
      RunsForward(db, closed, None);
      ThenFinalizeForward(db, closed, now, f);
    }
  }

  lemma CancelForward(db: Db, now: Time)
    requires PhaseOk(db, None)
    ensures Forward(db, Cancel(db, now), None)
  {
    ForwardReflexive(db, None);
    if !db.job.value.status.Terminal() {
      CancelRunsForward(db, now);
      var closed := db.(runs := Cancel(db, now).runs);
      StopForward(closed, Cancel(db, now));
      ForwardTransitive(db, closed, Cancel(db, now), None);
    }
  }

  lemma CancelRunsForward(db: Db, now: Time)
    requires PhaseOk(db, None) && !db.job.value.status.Terminal()
    ensures Forward(db, db.(runs := Cancel(db, now).runs), None)
  {
    hide PhaseOk, Forward, CancelAttempts;
    ForwardReflexive(db, None);
    assert Cancel(db, now).runs.Keys == db.runs.Keys;
    RunsForward(db, db.(runs := Cancel(db, now).runs), None);
  }

  lemma StopForward(db: Db, after: Db)
    requires PhaseOk(db, None) && !db.job.value.status.Terminal()
    requires after.job.Some? && after.job.value.status.JobCancelled? && after.job.value.exploration.ExplorationCancelled?
    requires after.job.value.anchor == db.job.value.anchor && after.job.value.deadline == db.job.value.deadline
    requires after.runs == db.runs && after.events == AddEvent(db.events, JobStopped, true)
    ensures Forward(db, after, None)
  {
    hide LatestEvent, FirstEvent, HasProvider, ScansEnded, AddEvent;
    AddEventView(db, JobStopped, true);
    var logged := db.(events := AddEvent(db.events, JobStopped, true));
    assert ViewOf(after) == ViewOf(logged).(status := JobCancelled, exploration := ExplorationCancelled);
  }

  lemma ChooseAnchorForward(db: Db, id: AccountId)
    requires PhaseOk(db, None) && !db.job.value.status.Terminal()
    ensures Forward(db, ChooseAnchor(db, id), None)
  {
    hide LatestEvent, FirstEvent, HasProvider, ScansEnded, AddEvent;
    var job := db.job.value;
    var moved := db.(job := Some(job.(anchor := Some(id), exploration := Exploring, rowVersion := job.rowVersion + 1)));
    assert ViewOf(moved) == ViewOf(db).(exploration := Exploring);
    AddEventView(moved, AnchorChosen, false);
  }

  lemma SelectAnchorForward(db: Db, candidate: Candidate, now: Time, f: FollowUp)
    requires PhaseOk(db, None) && f.Fresh(db.runs.Keys)
    ensures Forward(db, SelectAnchor(db, candidate, now, f).0, None)
  {
    hide PhaseOk, Forward, FinalizeDiscovery, ExpireAnchor;
    ForwardReflexive(db, None);
    if !db.job.value.status.Terminal() {
      if db.job.value.exploration.AwaitingAnchor? && !AnchorOpen(db.job.value, now) {
        ExpiringTwice(db, now, f);
      }
      FinalizeDiscoveryForward(db, now, f);
      ChooseAnchorForward(db, candidate.id);
      ThenFinalizeForward(db, ChooseAnchor(db, candidate.id), now, f);
    }
  }

  /** Expiring the window first makes no difference to advancing the job. */
  lemma ExpiringTwice(db: Db, now: Time, f: FollowUp)
    requires db.job.Some? && !db.job.value.status.Terminal()
    requires db.job.value.exploration.AwaitingAnchor? && !AnchorOpen(db.job.value, now)
    ensures ExpireAnchor(db, now).job.Some?
    ensures FinalizeDiscovery(ExpireAnchor(db, now), now, f) == FinalizeDiscovery(db, now, f)
  {
    hide ScheduleProfessional, ScheduleSynthesis, FinalizeFootprint, AnchorOpen, AddEvent;
  }

  // ---------- Executions ----------

  lemma StepForward(s: System, step: Step)
    requires SystemInv(s) && Enabled(s, step) && s.db.job.Some? && !step.UserDeletes?
    requires PhaseOk(s.db, None)
    ensures Forward(s.db, Rows(s.db, step), None)
  {
    hide PhaseOk, Forward, Inv, FinalizeDiscovery, LeaseScan, LeaseProfessional, LeaseSynthesis, CompleteScan,
      CompleteProfessional, CompleteSynthesis, RenewLease, Reclaim, Cutoff, Cancel, SelectAnchor;
    ForwardReflexive(s.db, None);
    if step.Plans() {
      assert step.f.Fresh(s.db.runs.Keys);
    }
    match step
    case StartScan(r, now, config, f) => LeaseScanForward(s.db, r, now, config, f);
    case StartSearch(r, now, seconds, f) => LeaseProfessionalForward(s.db, r, now, seconds, f);
    case StartNarrative(r, now, seconds) => LeaseSynthesisForward(s.db, r, now, seconds);
    case FinishScan(lease, now, scan) =>
      assert lease in s.workers + s.called;
      CompleteScanForward(s.db, lease, now, scan);
    case FinishSearch(lease, now, search, f) => CompleteProfessionalForward(s.db, lease, now, search, f);
    case FinishNarrative(lease, now, narrative, f) => CompleteSynthesisForward(s.db, lease, now, narrative, f);
    case Heartbeat(lease, now, seconds) => RenewLeaseForward(s.db, lease, now, seconds);
    case LeaseExpired(r, now, f) => ReclaimForward(s.db, r, now, f);
    case WindowClosed(now, f) => CutoffForward(s.db, now, f);
    case AnchorExpired(now, f) => FinalizeDiscoveryForward(s.db, now, f);
    case Maintain(now, f) => FinalizeDiscoveryForward(s.db, now, f);
    case UserCancels(now) => CancelForward(s.db, now);
    case UserPicks(candidate, now, f) => SelectAnchorForward(s.db, candidate, now, f);
    case TombstoneExpires => TombstoneStays(s.db);
    case MessageSent(key) => RunsForward(s.db, Dispatch(s.db, key), None);
    case _ =>
  }

  /** Whatever the interleaving and whatever the clocks read, the phase of a job never moves back. */
  lemma {:induction false} ExecutionForward(s: System, steps: seq<Step>)
    requires SystemInv(s) && Execution(s, steps) && s.db.job.Some? && NoDeletion(steps)
    requires PhaseOk(s.db, None)
    ensures Forward(s.db, After(s, steps).db, None)
  {
    hide PhaseOk, Forward, SystemInv, Enabled, Rows;
    if steps == [] {
      ForwardReflexive(s.db, None);
    } else {
      var earlier, step := steps[..|steps| - 1], steps[|steps| - 1];
      PrefixOfExecution(s, steps);
      ExecutionKeepsInvariant(s, earlier);
      ExecutionForward(s, earlier);
      var before := After(s, earlier);
      ForwardOk(s.db, before.db, None);
      ForwardReflexive(before.db, None);
      StepForward(before, step);
      ForwardTransitive(s.db, before.db, Rows(before.db, step), None);
    }
  }

  /** Over every execution from a new job: whatever the interleaving and whatever the clocks read,
      the phase at a later moment is no earlier than the phase at an earlier one. */
  lemma PhaseNeverMovesBack(mode: SearchMode, bareHandle: bool, deadline: Time, shards: seq<RunId>, hinted: bool,
                            steps: seq<Step>, m: nat, n: nat)
    requires Shards(shards) && Execution(Start(mode, bareHandle, deadline, shards, hinted), steps) && NoDeletion(steps)
    requires m <= n <= |steps|
    ensures var start := Start(mode, bareHandle, deadline, shards, hinted);
      var earlier, later := After(start, steps[..m]).db, After(start, steps[..n]).db;
      && earlier.job.Some? && later.job.Some?
      && (match DeepPhase(earlier)
          case InQueue => true
          case AccountScan => DeepPhase(later) != InQueue
          case AwaitingChoice => DeepPhase(later) !in {InQueue, AccountScan}
          case ProfessionalEnrichment => DeepPhase(later) in {ProfessionalEnrichment, ReportGeneration, Finalizing, Done}
          case ReportGeneration => DeepPhase(later) in {ReportGeneration, Finalizing, Done}
          case Finalizing => DeepPhase(later) in {Finalizing, Done}
          case Done => DeepPhase(later) == Done)
  {
    hide PhaseOk, SystemInv, Enabled, Rows, Create, DeepPhase, Shards;
    var start := Start(mode, bareHandle, deadline, shards, hinted);
    NewJobPhase(mode, bareHandle, deadline, shards, hinted);
    StartSatisfiesInvariant(mode, bareHandle, deadline, shards, hinted);
    ReachesPhase(start, steps, m);
    var middle, rest := After(start, steps[..m]), steps[m..n];
    SplitExecution(start, steps, m, n);
    ExecutionForward(middle, rest);
    ForwardOk(middle.db, After(middle, rest).db, None);
    PhaseFacts(After(middle, rest).db, None);
  }

  lemma ReachesPhase(s: System, steps: seq<Step>, m: nat)
    requires SystemInv(s) && Execution(s, steps) && NoDeletion(steps) && PhaseOk(s.db, None) && m <= |steps|
    ensures SystemInv(After(s, steps[..m])) && PhaseOk(After(s, steps[..m]).db, None) && After(s, steps[..m]).db.job.Some?
  {
    hide PhaseOk, SystemInv, Enabled, Rows;
    PhaseFacts(s.db, None);
    assert Execution(s, steps[..m]) by {
      assert forall n | 0 <= n < m :: steps[..m][..n] == steps[..n];
    }
    ExecutionKeepsInvariant(s, steps[..m]);
    ExecutionForward(s, steps[..m]);
    ForwardOk(s.db, After(s, steps[..m]).db, None);
    PhaseFacts(After(s, steps[..m]).db, None);
  }

  /** The rest of an execution is an execution from where its first part leads. */
  lemma {:induction false} SplitAfter(s: System, steps: seq<Step>, m: nat, n: nat)
    requires m <= n <= |steps|
    ensures After(After(s, steps[..m]), steps[m..n]) == After(s, steps[..n])
  {
    hide Apply;
    if n == m {
      assert steps[m..n] == [];
    } else {
      SplitAfter(s, steps, m, n - 1);
      assert steps[m..n][..n - m - 1] == steps[m..n - 1] && steps[..n][..n - 1] == steps[..n - 1];
    }
  }

  lemma SplitExecution(s: System, steps: seq<Step>, m: nat, n: nat)
    requires Execution(s, steps) && m <= n <= |steps|
    ensures After(After(s, steps[..m]), steps[m..n]) == After(s, steps[..n])
    ensures Execution(After(s, steps[..m]), steps[m..n])
  {
    hide Apply, Enabled, After;
    SplitAfter(s, steps, m, n);
    var rest := steps[m..n];
    forall k | 0 <= k < |rest|
      ensures Enabled(After(After(s, steps[..m]), rest[..k]), rest[k])
    {
      SplitAfter(s, steps, m, m + k);
      assert rest[..k] == steps[m..m + k] && rest[k] == steps[m + k];
    }
  }

  /** A new job satisfies what the previous lemma asks for. */
  lemma NewJobPhase(mode: SearchMode, bareHandle: bool, deadline: Time, shards: seq<RunId>, hinted: bool)
    requires Shards(shards)
    ensures PhaseOk(Create(mode, bareHandle, deadline, shards, hinted), None)
    ensures DeepPhase(Create(mode, bareHandle, deadline, shards, hinted)).InQueue?
  {
    var job := Job(mode, bareHandle, deadline, Queued, Idle, 1, 1, None, JobAttempt(false, None, false));
    var empty := Db(Some(job), false, map[], map[], map[], [], [], false);
    ShardsAreScans(empty, shards, deadline);
    var filled := AddShards(empty, shards, deadline);
    assert PhaseOk(filled, None);
    hide PhaseOk, AddShards;
    NewJobEvents(filled, hinted);
  }

  lemma NewJobEvents(db: Db, hinted: bool)
    requires PhaseOk(db, None) && db.events == [] && db.job.value.status.Queued? && db.job.value.exploration.Idle?
    ensures var accepted := LogEvent(db, JobAccepted);
            && PhaseOk(accepted, None) && DeepPhase(accepted).InQueue?
            && PhaseOk(LogEvent(accepted, HistoryHintsApplied), None)
            && DeepPhase(LogEvent(accepted, HistoryHintsApplied)).InQueue?
  {
    assert ViewOf(db) == View(Queued, Idle, 0, 0, 0, 0, 0, 0, 0);
    hide LatestEvent, FirstEvent, AddEvent, HasProvider, ScansEnded;
    AddEventView(db, JobAccepted, false);
    AddEventView(LogEvent(db, JobAccepted), HistoryHintsApplied, false);
  }

  lemma {:induction false} ShardsAreScans(db: Db, ids: seq<RunId>, deadline: Time)
    requires db.runs == map[]
    ensures var after := AddShards(db, ids, deadline);
            && after.job == db.job && after.events == db.events && (ids != [] ==> after.runs.Keys != {})
            && forall r | r in after.runs :: after.runs[r].run.provider.Maigret?
  {
    if ids != [] {
      ShardsAreScans(db, ids[..|ids| - 1], deadline);
      assert ids[|ids| - 1] in AddShards(db, ids, deadline).runs.Keys;
    }
  }

  // ---------- What the phase says ----------

  predicate Has(events: seq<Event>, kinds: set<EventKind>) {
    exists i | 0 <= i < |events| :: events[i].kind in kinds
  }

  /** An anchor was asked for, and since then none was chosen, the window did not run out, no search
      started, and none made its first progress. */
  predicate OpenQuestion(events: seq<Event>) {
    exists i | 0 <= i < |events| && events[i].kind == AnchorRequired ::
      && (forall j | i < j < |events| :: events[j].kind !in {AnchorChosen, AnchorWindowExpired, ProfessionalStarted})
      && ((exists j | 0 <= j < i :: events[j].kind == ProfessionalProgress)
          || (forall j | i < j < |events| :: events[j].kind != ProfessionalProgress))
  }

  /** The sequence of the latest event of some kinds: there is such an event, and none after it. */
  lemma {:induction false} LatestIs(events: seq<Event>, kinds: set<EventKind>)
    requires Numbered(events)
    ensures LatestEvent(events, kinds) <= |events|
    ensures LatestEvent(events, kinds) > 0 <==> Has(events, kinds)
    ensures LatestEvent(events, kinds) > 0 ==> events[LatestEvent(events, kinds) - 1].kind in kinds
    ensures forall i | LatestEvent(events, kinds) <= i < |events| :: events[i].kind !in kinds
  {
    if events != [] && events[|events| - 1].kind !in kinds {
      var earlier := events[..|events| - 1];
      LatestIs(earlier, kinds);
      assert forall i | 0 <= i < |earlier| :: earlier[i] == events[i];
    }
  }

  lemma {:induction false} FirstIs(events: seq<Event>, kinds: set<EventKind>)
    requires Numbered(events)
    ensures FirstEvent(events, kinds) <= |events|
    ensures FirstEvent(events, kinds) > 0 <==> Has(events, kinds)
    ensures FirstEvent(events, kinds) > 0 ==> events[FirstEvent(events, kinds) - 1].kind in kinds
    ensures forall i | 0 <= i < FirstEvent(events, kinds) - 1 :: events[i].kind !in kinds
  {
    if events != [] {
      var earlier := events[..|events| - 1];
      FirstIs(earlier, kinds);
      assert forall i | 0 <= i < |earlier| :: earlier[i] == events[i];
    }
  }

  predicate AskedLast(events: seq<Event>) {
    var asked := LatestEvent(events, {AnchorRequired});
    && asked > LatestEvent(events, {AnchorChosen, AnchorWindowExpired})
    && asked > LatestEvent(events, {ProfessionalStarted})
    && asked > FirstEvent(events, {ProfessionalProgress})
  }

  lemma QuestionIs(events: seq<Event>)
    requires Numbered(events)
    ensures OpenQuestion(events) <==> AskedLast(events)
  {
    hide OpenQuestion, AskedLast, Numbered;
    if AskedLast(events) {
      AskedLastOpens(events);
    }
    if OpenQuestion(events) {
      OpenIsAskedLast(events);
    }
  }

  lemma AskedLastOpens(events: seq<Event>)
    requires Numbered(events) && AskedLast(events)
    ensures OpenQuestion(events)
  {
    hide LatestEvent, FirstEvent, OpenQuestion, Numbered;
    LatestIs(events, {AnchorRequired});
    LatestIs(events, {AnchorChosen, AnchorWindowExpired});
    LatestIs(events, {ProfessionalStarted});
    FirstIs(events, {ProfessionalProgress});
    QuestionOpens(events, LatestEvent(events, {AnchorRequired}) - 1, FirstEvent(events, {ProfessionalProgress}));
  }

  lemma OpenIsAskedLast(events: seq<Event>)
    requires Numbered(events) && OpenQuestion(events)
    ensures AskedLast(events)
  {
    hide LatestEvent, FirstEvent, OpenQuestion, Has, Numbered;
    LatestIs(events, {AnchorRequired});
    LatestIs(events, {AnchorChosen, AnchorWindowExpired});
    LatestIs(events, {ProfessionalStarted});
    FirstIs(events, {ProfessionalProgress});
    QuestionOpened(events, LatestEvent(events, {AnchorRequired}), LatestEvent(events, {AnchorChosen, AnchorWindowExpired}),
                   LatestEvent(events, {ProfessionalStarted}), FirstEvent(events, {ProfessionalProgress}));
  }

  lemma QuestionOpens(events: seq<Event>, asked: nat, progressed: nat)
    requires asked < |events| && events[asked].kind == AnchorRequired && progressed <= asked
    requires forall j | asked < j < |events| :: events[j].kind !in {AnchorChosen, AnchorWindowExpired, ProfessionalStarted}
    requires progressed > 0 ==> events[progressed - 1].kind == ProfessionalProgress
    requires progressed == 0 ==> forall j | 0 <= j < |events| :: events[j].kind != ProfessionalProgress
    ensures OpenQuestion(events)
  {
    if progressed > 0 {
      assert events[progressed - 1].kind == ProfessionalProgress;
    }
  }

  lemma QuestionOpened(events: seq<Event>, asked: nat, resolved: nat, started: nat, progressed: nat)
    requires OpenQuestion(events)
    requires asked <= |events| && resolved <= |events| && started <= |events| && progressed <= |events|
    requires forall i | asked <= i < |events| :: events[i].kind != AnchorRequired
    requires resolved > 0 ==> events[resolved - 1].kind in {AnchorChosen, AnchorWindowExpired}
    requires started > 0 ==> events[started - 1].kind == ProfessionalStarted
    requires progressed > 0 ==> events[progressed - 1].kind == ProfessionalProgress
    requires forall i | 0 <= i < progressed - 1 :: events[i].kind != ProfessionalProgress
    ensures asked > resolved && asked > started && asked > progressed
  {}

  /** The phase, spelled out over the kinds of events in the log and the two states of the job. */
  lemma PhaseIs(db: Db)
    requires db.job.Some? && Numbered(db.events)
    ensures var (job, log) := (db.job.value, db.events);
      DeepPhase(db) ==
        (if job.status in {Ready, ReadyPartial, NoCandidates} then Done
         else if Has(log, {FinalizationStarted}) then Finalizing
         else if Has(log, {SynthesisStarted, SynthesisProgress}) then ReportGeneration
         else if (job.exploration == AwaitingAnchor || job.status in {Failed, JobCancelled}) && OpenQuestion(log) then AwaitingChoice
         else if Has(log, {ProfessionalStarted, ProfessionalProgress, AnchorChosen, AnchorWindowExpired}) then ProfessionalEnrichment
         else if job.exploration == AwaitingAnchor then AwaitingChoice
         else if Has(log, {CatalogScanStarted, CatalogProgress}) || job.status == Discovering || job.exploration == Exploring then AccountScan
         else InQueue)
  {
    QuestionIs(db.events);
    LatestIs(db.events, {FinalizationStarted});
    LatestIs(db.events, {SynthesisStarted, SynthesisProgress});
    LatestIs(db.events, {ProfessionalStarted});
    FirstIs(db.events, {ProfessionalProgress});
    LatestIs(db.events, {AnchorChosen, AnchorWindowExpired});
    LatestIs(db.events, {CatalogScanStarted, CatalogProgress});
    AnyOfFour(db.events);
    hide LatestEvent, FirstEvent, OpenQuestion, Has, Numbered;
  }

  lemma AnyOfFour(events: seq<Event>)
    ensures Has(events, {ProfessionalStarted, ProfessionalProgress, AnchorChosen, AnchorWindowExpired}) <==>
      || Has(events, {ProfessionalStarted}) || Has(events, {ProfessionalProgress}) || Has(events, {AnchorChosen, AnchorWindowExpired})
  {}

  lemma PhaseOkMeans(db: Db)
    requires Inv(db) && PhaseOk(db, None)
    ensures db.job.Some? && Numbered(db.events)
    ensures Has(db.events, {FinalizationStarted}) ==> db.job.value.status.Successful()
    ensures Has(db.events, {SynthesisStarted, SynthesisProgress}) <==> HasProvider(db.runs, Synthesis)
    ensures Has(db.events, {ProfessionalStarted, ProfessionalProgress}) <==> HasProvider(db.runs, Professional)
    ensures !db.job.value.status.Terminal() ==> (db.job.value.exploration == AwaitingAnchor <==> OpenQuestion(db.events))
    ensures db.job.value.exploration == AwaitingAnchor ==>
      && !db.job.value.status.Terminal() && db.job.value.bareHandle && db.job.value.anchor == None
      && !HasProvider(db.runs, Professional)
      && forall r | r in db.runs && db.runs[r].run.provider == Maigret :: db.runs[r].run.status !in {Pending, RetryScheduled, Running}
  {
    QuestionIs(db.events);
    LatestIs(db.events, {FinalizationStarted});
    LatestIs(db.events, {SynthesisStarted, SynthesisProgress});
    LatestIs(db.events, {ProfessionalStarted});
    FirstIs(db.events, {ProfessionalProgress});
    EitherOne(db.events);
    hide LatestEvent, FirstEvent, OpenQuestion, Has, HasProvider, Numbered;
  }

  lemma EitherOne(events: seq<Event>)
    ensures Has(events, {ProfessionalStarted, ProfessionalProgress}) <==> Has(events, {ProfessionalStarted}) || Has(events, {ProfessionalProgress})
  {}

  lemma Reaches(mode: SearchMode, bareHandle: bool, deadline: Time, shards: seq<RunId>, hinted: bool, steps: seq<Step>)
    requires Shards(shards) && Execution(Start(mode, bareHandle, deadline, shards, hinted), steps) && NoDeletion(steps)
    ensures var db := After(Start(mode, bareHandle, deadline, shards, hinted), steps).db;
      db.job.Some? && Inv(db) && PhaseOk(db, None)
  {
    hide PhaseOk, Inv, Enabled, Rows, Create, Shards, LeasesOk, SpendingOk;
    var start := Start(mode, bareHandle, deadline, shards, hinted);
    NewJobPhase(mode, bareHandle, deadline, shards, hinted);
    StartSatisfiesInvariant(mode, bareHandle, deadline, shards, hinted);
    ReachesPhase(start, steps, |steps|);
    assert steps[..|steps|] == steps;
  }

  /** A job that awaits an anchor is a live search of a bare handle that has none, whose scans have
      ended and whose search has not started. */
  lemma AnchorIsAskedForBareHandles(mode: SearchMode, bareHandle: bool, deadline: Time, shards: seq<RunId>, hinted: bool, steps: seq<Step>)
    requires Shards(shards) && Execution(Start(mode, bareHandle, deadline, shards, hinted), steps) && NoDeletion(steps)
    ensures var db := After(Start(mode, bareHandle, deadline, shards, hinted), steps).db;
      db.job.Some? &&
      (db.job.value.exploration == AwaitingAnchor ==>
         && db.job.value.status in {Queued, Discovering} && db.job.value.bareHandle && db.job.value.anchor == None
         && forall r | r in db.runs ::
              && db.runs[r].run.provider != Professional
              && (db.runs[r].run.provider == Maigret ==> db.runs[r].run.status !in {Pending, RetryScheduled, Running}))
  {
    hide PhaseOk, Inv, Execution, Start, After, Has, OpenQuestion;
    Reaches(mode, bareHandle, deadline, shards, hinted, steps);
    PhaseOkMeans(After(Start(mode, bareHandle, deadline, shards, hinted), steps).db);
  }

  /** At every moment of a job's life the phase tells what its rows show: a verdict, a synthesis, an
      open question, or a search for professional profiles; a live job that shows none of these is
      scanning or still queued. */
  lemma PhaseShowsRows(mode: SearchMode, bareHandle: bool, deadline: Time, shards: seq<RunId>, hinted: bool, steps: seq<Step>)
    requires Shards(shards) && Execution(Start(mode, bareHandle, deadline, shards, hinted), steps) && NoDeletion(steps)
    ensures var db := After(Start(mode, bareHandle, deadline, shards, hinted), steps).db;
      && db.job.Some?
      && var (job, phase) := (db.job.value, DeepPhase(db));
         var composing := exists r | r in db.runs :: db.runs[r].run.provider == Synthesis;
         var searching := exists r | r in db.runs :: db.runs[r].run.provider == Professional;
         && phase != Finalizing
         && (phase == Done <==> job.status in {Ready, ReadyPartial, NoCandidates})
         && (phase == ReportGeneration <==> phase != Done && composing)
         && (job.status in {Queued, Discovering} && !composing ==>
               && (phase == AwaitingChoice <==> job.exploration == AwaitingAnchor)
               && (phase == ProfessionalEnrichment <==>
                     job.exploration != AwaitingAnchor && (searching || Has(db.events, {AnchorChosen, AnchorWindowExpired})))
               && (phase == InQueue ==> job.status == Queued && job.exploration != Exploring)
               && (job.status == Discovering && phase !in {AwaitingChoice, ProfessionalEnrichment} ==> phase == AccountScan))
  {
    hide PhaseOk, Inv, Execution, Start, After, Has, OpenQuestion, DeepPhase, Numbered;
    Reaches(mode, bareHandle, deadline, shards, hinted, steps);
    var db := After(Start(mode, bareHandle, deadline, shards, hinted), steps).db;
    PhaseOkMeans(db);
    PhaseIs(db);
    FourKinds(db.events);
  }

  lemma FourKinds(events: seq<Event>)
    ensures Has(events, {ProfessionalStarted, ProfessionalProgress, AnchorChosen, AnchorWindowExpired}) <==>
      Has(events, {ProfessionalStarted, ProfessionalProgress}) || Has(events, {AnchorChosen, AnchorWindowExpired})
  {}
}
