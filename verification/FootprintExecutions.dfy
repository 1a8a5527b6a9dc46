/** What holds along every execution of the discovery protocol. */
module FootprintExecutions {
  import opened Wrappers
  import opened FootprintModel
  import opened FootprintTransactions
  import opened FootprintInvariant
  import opened FootprintSystem

  // ---------- The invariant along executions ----------

  lemma StepKeepsLeases(s: System, step: Step)
    requires SystemInv(s) && Enabled(s, step) && s.db.job.Some? && !step.UserDeletes?
    ensures LeasesOk(Apply(s, step))
  {
    hide Inv, Rows, NewLease;
    RowsLegal(s, step);
    RowsGrow(s.db, step);
    var after := Apply(s, step);
    forall lease | lease in after.workers + after.called
      ensures lease.run in after.used && LeaseOk(after.db, lease)
    {
      if NewLease(s.db, step).Some? {
        NewLeaseIsCurrent(s.db, step);
      }
      if lease in s.workers + s.called && lease.run in s.db.runs {
        assert RecordEvolves(s.db.runs[lease.run], after.db.runs[lease.run]);
      }
    }
  }

  /** The only lease a single-shot run ever had. */
  lemma SingleShotLease(s: System, a: Lease, b: Lease)
    requires SystemInv(s) && s.db.job.Some? && a in s.workers + s.called && b in s.workers + s.called
    requires a.run == b.run && a.run in s.db.runs && s.db.runs[a.run].run.SingleShot()
    ensures a == b
  {
    RecordInvariant(s.db, a.run);
  }

  lemma StepKeepsSpending(s: System, step: Step)
    requires SystemInv(s) && Enabled(s, step) && s.db.job.Some? && !step.UserDeletes?
    ensures SpendingOk(Apply(s, step))
  {
    hide Inv, Rows, NewLease, RecordOk, LeaseOk;
    RowsLegal(s, step);
    RowsGrow(s.db, step);
    var after := Apply(s, step);
    forall r | r in after.db.runs && after.db.runs[r].run.SingleShot() && (forall lease | lease in after.called :: lease.run != r)
      ensures Spent(after, r) == 0
    {
      if r in s.db.runs {
        assert RecordEvolves(s.db.runs[r], after.db.runs[r]);
        assert forall lease | lease in s.called :: lease in after.called;
        assert step.CallProvider? ==> step.lease in after.called;
      } else {
        assert r !in s.spent;
      }
    }
  }

  /** The requests of a run whose call must not be repeated change at most once, by the session of
      its one lease. */
  lemma OneSession(s: System, step: Step, r: RunId)
    requires SystemInv(s) && Enabled(s, step) && r in s.db.runs && s.db.runs[r].run.SingleShot()
    ensures Spent(Apply(s, step), r) != Spent(s, r) ==>
      step.CallProvider? && step.lease.run == r && Spent(s, r) == 0 && Spent(Apply(s, step), r) == step.requests
  {
    hide Inv, Rows, NewLease, RecordOk, LeaseOk;
    if step.CallProvider? && step.lease.run == r {
      JobOfRun(s, r);
      forall lease | lease in s.called
        ensures lease.run != r
      {
        if lease.run == r {
          SingleShotLease(s, lease, step.lease);
        }
      }
    }
  }

  lemma JobOfRun(s: System, r: RunId)
    requires SystemInv(s) && r in s.db.runs
    ensures s.db.job.Some?
  {}

  lemma StepAfterDeletion(s: System, step: Step)
    requires SystemInv(s) && Enabled(s, step) && (s.db.job.None? || step.UserDeletes?)
    ensures SystemInv(Apply(s, step)) && Apply(s, step).db.job.None?
  {
    if s.db.job.None? {
      DeletedStaysDeleted(s.db, step);
    }
    hide Rows, NewLease;
    var after := Apply(s, step);
    assert after.db.runs == map[] by {
      if s.db.job.Some? {
        assert Rows(s.db, step) == Delete(s.db) by { assert step.UserDeletes?; }
      }
    }
  }

  lemma StepKeepsInvariant(s: System, step: Step)
    requires SystemInv(s) && Enabled(s, step)
    ensures SystemInv(Apply(s, step))
  {
    if s.db.job.None? || step.UserDeletes? {
      StepAfterDeletion(s, step);
    } else {
      RowsLegal(s, step);
      RowsGrow(s.db, step);
      StepKeepsLeases(s, step);
      StepKeepsSpending(s, step);
      SpentIdsAreUsed(s, step);
      hide Inv, Rows, NewLease, LeasesOk, SpendingOk;
    }
  }

  lemma SpentIdsAreUsed(s: System, step: Step)
    requires SystemInv(s) && Enabled(s, step)
    ensures Apply(s, step).spent.Keys <= Apply(s, step).used
  {
    hide Inv, Rows, NewLease;
    if step.CallProvider? {
      assert step.lease in s.workers + s.called;
    }
  }

  lemma PrefixOfExecution(s: System, steps: seq<Step>)
    requires Execution(s, steps) && steps != []
    ensures Execution(s, steps[..|steps| - 1])
    ensures Enabled(After(s, steps[..|steps| - 1]), steps[|steps| - 1])
  {
    var earlier := steps[..|steps| - 1];
    forall n | 0 <= n < |earlier|
      ensures Enabled(After(s, earlier[..n]), earlier[n])
    {
      assert earlier[..n] == steps[..n];
    }
  }

  /** Safety: whatever the interleaving, the invariant holds at every moment. */
  lemma {:induction false} ExecutionKeepsInvariant(s: System, steps: seq<Step>)
    requires SystemInv(s) && Execution(s, steps)
    ensures SystemInv(After(s, steps))
  {
    hide SystemInv, Enabled, Apply;
    if steps != [] {
      var earlier, step := steps[..|steps| - 1], steps[|steps| - 1];
      PrefixOfExecution(s, steps);
      ExecutionKeepsInvariant(s, earlier);
      StepKeepsInvariant(After(s, earlier), step);
    }
  }

  /** Some execution leads from a new job to this state. */
  ghost predicate Reachable(s: System) {
    exists mode: SearchMode, bareHandle: bool, deadline: Time, shards: seq<RunId>, hinted: bool, steps: seq<Step> ::
      && s == After(Start(mode, bareHandle, deadline, shards, hinted), steps)
      && Shards(shards)
      && Execution(Start(mode, bareHandle, deadline, shards, hinted), steps)
  }

  /** Every reachable state satisfies the invariant. */
  lemma ReachableStatesAreSafe(s: System)
    requires Reachable(s)
    ensures SystemInv(s)
  {
    hide SystemInv, Execution, Create;
    var mode, bareHandle, deadline, shards, hinted, steps :|
      && s == After(Start(mode, bareHandle, deadline, shards, hinted), steps)
      && Shards(shards)
      && Execution(Start(mode, bareHandle, deadline, shards, hinted), steps);
    StartSatisfiesInvariant(mode, bareHandle, deadline, shards, hinted);
    ExecutionKeepsInvariant(Start(mode, bareHandle, deadline, shards, hinted), steps);
  }

  // ---------- What a later moment may differ in ----------

  predicate NoDeletion(steps: seq<Step>) {
    forall step | step in steps :: !step.UserDeletes?
  }

  /** Until it is deleted, a job's rows only ever evolve legally. */
  lemma {:induction false} ExecutionEvolves(s: System, steps: seq<Step>)
    requires SystemInv(s) && Execution(s, steps) && s.db.job.Some? && NoDeletion(steps)
    ensures Evolves(s.db, After(s, steps).db)
  {
    hide SystemInv, Enabled, Evolves, Inv, Rows;
    if steps == [] {
      EvolvesReflexive(s.db);
    } else {
      var earlier, step := steps[..|steps| - 1], steps[|steps| - 1];
      PrefixOfExecution(s, steps);
      ExecutionKeepsInvariant(s, earlier);
      ExecutionEvolves(s, earlier);
      JobStays(s.db, After(s, earlier).db);
      RowsLegal(After(s, earlier), step);
      EvolvesTransitive(s.db, After(s, earlier).db, After(s, steps).db);
    }
  }

  lemma JobStays(before: Db, after: Db)
    requires Evolves(before, after)
    ensures after.job.Some?
  {}

  /** Cancellation, like any other end of a job, is final: no later worker, reclaim, watchdog,
      maintenance or anchor step changes anything recorded for the job. */
  lemma FinishedJobIsFinal(s: System, steps: seq<Step>)
    requires SystemInv(s) && Execution(s, steps) && NoDeletion(steps)
    requires s.db.job.Some? && s.db.job.value.status.Terminal()
    ensures SameRecordedWork(s.db, After(s, steps).db)
  {
    ExecutionEvolves(s, steps);
  }

  predicate FullyClosed(db: Db) {
    && db.job.Some?
    && db.job.value.status.Terminal()
    && AllTerminal(db.runs)
    && (forall r | r in db.runs :: forall a | a in db.runs[r].attempts :: a.finishedAt.Some?)
  }

  lemma TerminalJobIsFullyClosed(db: Db)
    requires Inv(db) && db.job.Some? && db.job.value.status.Terminal()
    ensures FullyClosed(db)
  {
    forall r, a | r in db.runs && a in db.runs[r].attempts
      ensures a.finishedAt.Some?
    {
      assert RecordOk(db.runs[r], db.job.value.epoch);
    }
  }

  lemma StopStep(s: System, now: Time)
    requires SystemInv(s) && s.db.job.Some?
    ensures SystemInv(Apply(s, UserCancels(now)))
    ensures Apply(s, UserCancels(now)).db.job.Some? && Apply(s, UserCancels(now)).db.job.value.status.Terminal()
  {
    assert Apply(s, UserCancels(now)).db == Cancel(s.db, now);
    hide SystemInv, Inv, Apply;
    assert Enabled(s, UserCancels(now));
    StepKeepsInvariant(s, UserCancels(now));
  }

  /** A stop request ends every open run and attempt, and from then on nothing changes. */
  lemma CancellationIsFinal(s: System, now: Time, steps: seq<Step>)
    requires Reachable(s) && s.db.job.Some?
    requires Execution(Apply(s, UserCancels(now)), steps) && NoDeletion(steps)
    ensures FullyClosed(Apply(s, UserCancels(now)).db)
    ensures SameRecordedWork(Apply(s, UserCancels(now)).db, After(Apply(s, UserCancels(now)), steps).db)
  {
    hide *;
    ReachableStatesAreSafe(s);
    StopStep(s, now);
    ClosedInSystem(Apply(s, UserCancels(now)));
    FinishedJobIsFinal(Apply(s, UserCancels(now)), steps);
  }

  lemma ClosedInSystem(s: System)
    requires SystemInv(s) && s.db.job.Some? && s.db.job.value.status.Terminal()
    ensures FullyClosed(s.db)
  {
    TerminalJobIsFullyClosed(s.db);
  }

  /** A run that has ended keeps its row, its scan row and its attempts for good. */
  lemma EndedRunIsFinal(s: System, steps: seq<Step>, r: RunId)
    requires SystemInv(s) && Execution(s, steps) && NoDeletion(steps) && s.db.job.Some?
    requires r in s.db.runs && s.db.runs[r].run.status.Terminal()
    ensures r in After(s, steps).db.runs && After(s, steps).db.runs[r] == s.db.runs[r]
    ensures r in s.db.results ==> r in After(s, steps).db.results && After(s, steps).db.results[r] == s.db.results[r]
  {
    ExecutionEvolves(s, steps);
  }

  // ---------- Each run is a write-once cell ----------

  datatype Cell =
    | Blank
    | Holding(generation: nat, epoch: nat, payload: Payload)
    | Sealed

  function FindEvidence(evidence: seq<Acceptance>, r: RunId): Option<Acceptance> {
    if evidence == [] then None
    else if evidence[0].run == r then Some(evidence[0])
    else FindEvidence(evidence[1..], r)
  }

  /** An open run is blank; an ended one holds its accepted payload, or none. */
  function CellOf(db: Db, r: RunId): Cell
    requires r in db.runs
  {
    if !db.runs[r].run.status.Terminal() then Blank
    else
      match FindEvidence(db.evidence, r)
      case None => Sealed
      case Some(a) => Holding(a.generation, a.epoch, a.payload)
  }

  lemma {:induction false} FindEvidenceInSum(left: seq<Acceptance>, right: seq<Acceptance>, r: RunId)
    ensures FindEvidence(left + right, r) ==
            if FindEvidence(left, r).Some? then FindEvidence(left, r) else FindEvidence(right, r)
  {
    if left == [] {
      assert left + right == right;
    } else {
      assert (left + right)[1..] == left[1..] + right;
      FindEvidenceInSum(left[1..], right, r);
    }
  }

  lemma {:induction false} NoEvidenceFound(evidence: seq<Acceptance>, r: RunId)
    requires forall i | 0 <= i < |evidence| :: evidence[i].run != r
    ensures FindEvidence(evidence, r).None?
  {
    if evidence != [] {
      NoEvidenceFound(evidence[1..], r);
    }
  }

  /** A step leaves a cell alone, seals it, or writes it once: the writer is the current owner
      of the run and the payload is the one it delivers. */
  predicate CellStep(before: Cell, after: Cell, db: Db, step: Step, r: RunId) {
    || after == before
    || (before.Blank? && after.Sealed?)
    || (&& before.Blank?
        && step.Finishes() && step.lease.run == r && Owns(db, step.lease)
        && PayloadOf(step).Some?
        && after == Holding(step.lease.generation, step.lease.epoch, PayloadOf(step).value))
  }

  /** What a cell says of its run: a blank one is open, one that holds a payload has ended and its
      payload is in the evidence, and a sealed one has ended and contributed nothing. */
  lemma CellIs(s: System, r: RunId)
    requires SystemInv(s) && r in s.db.runs
    ensures var cell := CellOf(s.db, r);
      var open := s.db.runs[r].run.status in {Pending, RetryScheduled, Running};
      && (cell == Blank <==> open)
      && (forall generation, epoch, payload ::
            cell == Holding(generation, epoch, payload) <==> Acceptance(r, generation, epoch, payload) in s.db.evidence)
      && (cell == Sealed <==> !open && forall a | a in s.db.evidence :: a.run != r)
  {
    OneAcceptance(s.db);
    FindsEvidence(s.db.evidence, r);
    if !s.db.runs[r].run.status.Terminal() {
      EvidenceIsOfEnded(s.db, r);
    }
    hide SystemInv, FindEvidence;
  }

  lemma OneAcceptance(db: Db)
    requires Inv(db)
    ensures forall a, b | a in db.evidence && b in db.evidence && a.run == b.run :: a == b
  {
    hide RunsOk, HandoffOk, SynthesisOk, EventsOk, JobOk, Cites;
  }

  lemma EvidenceIsOfEnded(db: Db, r: RunId)
    requires Inv(db) && r in db.runs && !db.runs[r].run.status.Terminal()
    ensures forall a | a in db.evidence :: a.run != r
  {
    hide RunsOk, HandoffOk, SynthesisOk, EventsOk, JobOk;
  }

  lemma {:induction false} FindsEvidence(evidence: seq<Acceptance>, r: RunId)
    ensures FindEvidence(evidence, r).None? <==> forall a | a in evidence :: a.run != r
    ensures FindEvidence(evidence, r).Some? ==> FindEvidence(evidence, r).value in evidence && FindEvidence(evidence, r).value.run == r
  {
    if evidence != [] && evidence[0].run != r {
      FindsEvidence(evidence[1..], r);
      assert evidence == [evidence[0]] + evidence[1..];
    }
  }

  lemma RunIsWriteOnce(s: System, step: Step, r: RunId)
    requires SystemInv(s) && Enabled(s, step) && s.db.job.Some? && !step.UserDeletes? && r in s.db.runs
    ensures r in Apply(s, step).db.runs
    ensures CellStep(CellOf(s.db, r), CellOf(Apply(s, step).db, r), s.db, step, r)
  {
    RunStepFacts(s, step, r);
    hide Rows, SystemInv, Enabled, RecordEvolves, CellOf;
    var after := Apply(s, step).db;
    if after.evidence == s.db.evidence {
      CellWithSameEvidence(s.db, after, r);
    } else {
      CellWithNewEvidence(s.db, after, r, step.lease, PayloadOf(step));
    }
  }

  lemma RunStepFacts(s: System, step: Step, r: RunId)
    requires SystemInv(s) && Enabled(s, step) && s.db.job.Some? && !step.UserDeletes? && r in s.db.runs
    ensures var after := Apply(s, step).db;
            && r in after.runs
            && RecordEvolves(s.db.runs[r], after.runs[r])
            && (!s.db.runs[r].run.status.Terminal() ==> NotCited(s.db.evidence, r))
            && (after.evidence != s.db.evidence ==> step.Finishes() && AcceptsOnlyFrom(s.db, after, step.lease, PayloadOf(step)))
  {
    hide Rows, Inv, LeasesOk, SpendingOk, RecordEvolves, AcceptsOnlyFrom;
    RowsLegal(s, step);
    EvidenceComesFromOwner(s.db, step);
    if !s.db.runs[r].run.status.Terminal() {
      OpenRunHasNoEvidence(s.db, r);
    }
  }

  predicate NotCited(evidence: seq<Acceptance>, r: RunId) {
    forall i | 0 <= i < |evidence| :: evidence[i].run != r
  }

  lemma CellWithSameEvidence(before: Db, after: Db, r: RunId)
    requires r in before.runs && r in after.runs && RecordEvolves(before.runs[r], after.runs[r])
    requires !before.runs[r].run.status.Terminal() ==> NotCited(before.evidence, r)
    requires after.evidence == before.evidence
    ensures CellOf(after, r) == CellOf(before, r) || (CellOf(before, r).Blank? && CellOf(after, r).Sealed?)
  {
    if !before.runs[r].run.status.Terminal() {
      NoEvidenceFound(before.evidence, r);
    }
  }

  lemma CellWithNewEvidence(before: Db, after: Db, r: RunId, lease: Lease, payload: Option<Payload>)
    requires r in before.runs && r in after.runs && RecordEvolves(before.runs[r], after.runs[r])
    requires !before.runs[r].run.status.Terminal() ==> NotCited(before.evidence, r)
    requires after.evidence != before.evidence && AcceptsOnlyFrom(before, after, lease, payload)
    ensures
      || CellOf(after, r) == CellOf(before, r)
      || (CellOf(before, r).Blank? && CellOf(after, r).Sealed?)
      || (CellOf(before, r).Blank? && lease.run == r && CellOf(after, r) == Holding(lease.generation, lease.epoch, payload.value))
  {
    if !before.runs[r].run.status.Terminal() {
      NoEvidenceFound(before.evidence, r);
    }
    FindEvidenceInSum(before.evidence, [Acceptance(lease.run, lease.generation, lease.epoch, payload.value)], r);
  }

  /** Once a run has been written or sealed, it stays so in every continuation. */
  lemma {:induction false} WrittenCellIsFinal(s: System, steps: seq<Step>, r: RunId)
    requires SystemInv(s) && Execution(s, steps) && NoDeletion(steps) && s.db.job.Some? && r in s.db.runs
    requires !CellOf(s.db, r).Blank?
    ensures r in After(s, steps).db.runs && CellOf(After(s, steps).db, r) == CellOf(s.db, r)
  {
    hide SystemInv, Enabled, Inv, Rows, CellOf;
    if steps != [] {
      var earlier, step := steps[..|steps| - 1], steps[|steps| - 1];
      PrefixOfExecution(s, steps);
      ExecutionKeepsInvariant(s, earlier);
      ExecutionEvolves(s, earlier);
      WrittenCellIsFinal(s, earlier, r);
      RunIsWriteOnce(After(s, earlier), step, r);
    }
  }
}
