/** What one session costs and what the life of its run allows, put together: the requests that
    are ever made for a run whose call must not be repeated. */
module SearchBudget {
  import opened FootprintModel
  import opened FootprintInvariant
  import opened FootprintSystem
  import opened FootprintExecutions
  import opened Wrappers
  import AdaptiveSearch
  import SynthesisRetry

  /** Which search a professional run uses. */
  datatype Engine = Exa | GitHub

  const MAX_SYNTHESIS_CALLS: nat := 5

  /** The requests a session of this run may make: the stored budget as the search clamps it, or
      the attempts of a synthesis. */
  function SessionBudget(engine: Engine, run: Run): nat {
    if run.provider.Synthesis? then MAX_SYNTHESIS_CALLS
    else if engine.Exa? then AdaptiveSearch.ClampInt(run.requestBudget, 1, 64)
    else AdaptiveSearch.ClampInt(run.requestBudget, 2, 4)
  }

  /** Some session of the adaptive search with this request budget makes `requests` calls. */
  ghost predicate ExaSession(budget: nat, requests: nat) {
    exists queries: seq<AdaptiveSearch.Query>, b: AdaptiveSearch.Budget, result: AdaptiveSearch.SearchResult, ran: nat,
      ending: AdaptiveSearch.Ending ::
      && AdaptiveSearch.AcceptedCall(queries, b)
      && b.requests == budget
      && AdaptiveSearch.Correct(queries, b, result, ran, requests, ending)
  }

  /** Some GitHub session with this request budget makes `requests` calls. */
  ghost predicate GithubSession(budget: nat, requests: nat) {
    exists w: AdaptiveSearch.GithubWorld, maxProfiles: nat, seconds: Option<real>,
      result: AdaptiveSearch.SearchResult, fetched: nat ::
      && 1 <= maxProfiles <= AdaptiveSearch.MAX_USER_RESULTS
      && AdaptiveSearch.GithubCorrect(w, AdaptiveSearch.MaxFetches(maxProfiles, Some(budget)), seconds, result, requests, fetched)
  }

  /** Some session of the synthesis loop makes `requests` calls. */
  ghost predicate SynthesisSession(requests: nat) {
    exists world: SynthesisRetry.World, first: nat, maxAttempts: nat, backoff: nat ::
      && 1 <= maxAttempts <= MAX_SYNTHESIS_CALLS
      && requests == |SynthesisRetry.Session(world, [], first, maxAttempts, backoff).0|
  }

  /** A session that a worker of this run can hold. One that is refused by its configuration
      makes no request. */
  ghost predicate RealSession(engine: Engine, run: Run, requests: nat) {
    || requests == 0
    || if run.provider.Synthesis? then SynthesisSession(requests)
       else if engine.Exa? then ExaSession(SessionBudget(engine, run), requests)
       else GithubSession(SessionBudget(engine, run), requests)
  }

  lemma ExaWithinBudget(budget: nat, requests: nat)
    requires ExaSession(budget, requests)
    ensures requests <= budget
  {
    hide AdaptiveSearch.StoppedRightly, AdaptiveSearch.Summary;
  }

  lemma GithubWithinBudget(budget: nat, requests: nat)
    requires GithubSession(budget, requests) && 2 <= budget
    ensures requests <= budget
  {
    hide AdaptiveSearch.GithubResult, AdaptiveSearch.Dedupe, AdaptiveSearch.Fetched;
  }

  lemma SynthesisWithinAttempts(requests: nat)
    requires SynthesisSession(requests)
    ensures requests <= MAX_SYNTHESIS_CALLS
  {
    hide SynthesisRetry.Session;
    var world, first, maxAttempts: nat, backoff :|
      && 1 <= maxAttempts <= MAX_SYNTHESIS_CALLS
      && requests == |SynthesisRetry.Session(world, [], first, maxAttempts, backoff).0|;
    SynthesisRetry.SessionIsBounded(world, [], first, maxAttempts, backoff);
  }

  /** A session stays within the budget of its run. */
  lemma SessionWithinBudget(engine: Engine, run: Run, requests: nat)
    requires RealSession(engine, run, requests)
    ensures requests <= SessionBudget(engine, run)
  {
    hide ExaSession, GithubSession, SynthesisSession;
    if requests == 0 {
    } else if run.provider.Synthesis? {
      SynthesisWithinAttempts(requests);
    } else if engine.Exa? {
      ExaWithinBudget(SessionBudget(engine, run), requests);
    } else {
      GithubWithinBudget(SessionBudget(engine, run), requests);
    }
  }

  /** The requests made for each run whose call must not be repeated are within its budget. */
  ghost predicate WithinBudget(s: System, engines: RunId -> Engine) {
    forall r | r in s.db.runs && s.db.runs[r].run.SingleShot() :: Spent(s, r) <= SessionBudget(engines(r), s.db.runs[r].run)
  }

  ghost predicate RealStep(s: System, step: Step, engines: RunId -> Engine) {
    step.CallProvider? && step.lease.run in s.db.runs ==>
      RealSession(engines(step.lease.run), s.db.runs[step.lease.run].run, step.requests)
  }

  /** Every session of the execution is one that a worker can hold. */
  ghost predicate RealSessions(s: System, steps: seq<Step>, engines: RunId -> Engine) {
    forall n | 0 <= n < |steps| :: RealStep(After(s, steps[..n]), steps[n], engines)
  }

  lemma StepWithinBudget(s: System, step: Step, engines: RunId -> Engine)
    requires SystemInv(s) && Enabled(s, step) && WithinBudget(s, engines) && RealStep(s, step, engines)
    ensures WithinBudget(Apply(s, step), engines)
  {
    hide SystemInv, Enabled, RealSession, Rows, NewLease, Workers, SessionBudget;
    var after := Apply(s, step);
    forall r | r in after.db.runs && after.db.runs[r].run.SingleShot()
      ensures Spent(after, r) <= SessionBudget(engines(r), after.db.runs[r].run)
    {
      if r in s.db.runs {
        SameConfiguration(s, step, r);
        OneSession(s, step, r);
        if Spent(after, r) != Spent(s, r) {
          SessionWithinBudget(engines(r), s.db.runs[r].run, step.requests);
        }
        SameBudget(engines(r), s.db.runs[r].run, after.db.runs[r].run);
      } else {
        NewRunIsFree(s, step, r);
      }
    }
  }

  lemma SameBudget(engine: Engine, before: Run, after: Run)
    requires before.provider == after.provider && before.requestBudget == after.requestBudget
    ensures SessionBudget(engine, before) == SessionBudget(engine, after)
  {}

  lemma SameConfiguration(s: System, step: Step, r: RunId)
    requires SystemInv(s) && Enabled(s, step) && r in s.db.runs && r in Apply(s, step).db.runs
    ensures var before, after := s.db.runs[r].run, Apply(s, step).db.runs[r].run;
      before.provider == after.provider && before.requestBudget == after.requestBudget && before.SingleShot() == after.SingleShot()
  {
    hide Rows, NewLease, Enabled;
    JobOfRun(s, r);
    if step.UserDeletes? {
      StepAfterDeletion(s, step);
    } else {
      RowsLegal(s, step);
    }
  }

  lemma NewRunIsFree(s: System, step: Step, r: RunId)
    requires SystemInv(s) && Enabled(s, step) && r in Apply(s, step).db.runs && r !in s.db.runs
    ensures Spent(Apply(s, step), r) == 0
  {
    hide Rows, NewLease, Inv;
    if s.db.job.None? || step.UserDeletes? {
      StepAfterDeletion(s, step);
      EmptyAfterDeletion(Apply(s, step));
    } else {
      RowsGrow(s.db, step);
    }
  }

  lemma EmptyAfterDeletion(s: System)
    requires SystemInv(s) && s.db.job.None?
    ensures s.db.runs == map[]
  {}

  lemma {:induction false} ExecutionWithinBudget(s: System, steps: seq<Step>, engines: RunId -> Engine)
    requires SystemInv(s) && Execution(s, steps) && WithinBudget(s, engines) && RealSessions(s, steps, engines)
    ensures WithinBudget(After(s, steps), engines)
  {
    hide SystemInv, Enabled, WithinBudget, RealStep, Apply;
    if steps != [] {
      var earlier, step := steps[..|steps| - 1], steps[|steps| - 1];
      PrefixOfExecution(s, steps);
      ExecutionKeepsInvariant(s, earlier);
      assert RealSessions(s, earlier, engines) by {
        assert forall n | 0 <= n < |earlier| :: earlier[..n] == steps[..n];
      }
      ExecutionWithinBudget(s, earlier, engines);
      StepWithinBudget(After(s, earlier), step, engines);
    }
  }

  /** Over the whole life of every adaptive professional run and every synthesis run, with whatever
      crashes, redeliveries and reclaimed leases, the requests made for it never exceed the budget
      of one session. */
  lemma WholeLifeBudget(mode: SearchMode, bareHandle: bool, deadline: Time, shards: seq<RunId>, hinted: bool,
                        steps: seq<Step>, engines: RunId -> Engine, r: RunId)
    requires Shards(shards) && Execution(Start(mode, bareHandle, deadline, shards, hinted), steps)
    requires RealSessions(Start(mode, bareHandle, deadline, shards, hinted), steps, engines)
    ensures var s := After(Start(mode, bareHandle, deadline, shards, hinted), steps);
      r in s.db.runs && s.db.runs[r].run.SingleShot() ==> Spent(s, r) <= SessionBudget(engines(r), s.db.runs[r].run)
  {
    hide SystemInv, Execution, RealSessions, SessionBudget, Shards;
    var start := Start(mode, bareHandle, deadline, shards, hinted);
    StartSatisfiesInvariant(mode, bareHandle, deadline, shards, hinted);
    assert WithinBudget(start, engines);
    ExecutionWithinBudget(start, steps, engines);
  }
}
