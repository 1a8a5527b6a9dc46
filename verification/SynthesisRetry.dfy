/** The bounded retry loop around one synthesis request, with escalation of the output limit. */
module SynthesisRetry {
  import opened Wrappers

  const CEILING: nat := 32_000
  const FLOOR: nat := 256
  const MAX_WAIT: nat := 30

  datatype Usage = Usage(
    inputTokens: nat, outputTokens: nat, totalTokens: nat, reasoningTokens: Option<nat>, cachedTokens: Option<nat>)

  /** Error codes, grouped as the loop distinguishes them. */
  datatype ErrorCode =
    | Truncated
    | Retryable(name: string)
    | Final(name: string)

  datatype Status =
    | Success | NoResult | SkippedConfiguration | TimedOut | RateLimited | AuthRequired | ProviderError | InvalidResponse

  datatype Outcome = Outcome(status: Status, error: Option<ErrorCode>, usage: Option<Usage>, output: Option<string>)
  {
    predicate MayRetry() {
      error.Some? && !error.value.Final?
    }
  }

  /** What one call of the runner does: refuse its input, fail unexpectedly, or return. */
  datatype Response = Refused | Crashed | Returned(outcome: Outcome)

  /** The world outside the loop. `answer` gives the response to a call, `cancelled` whether a
      stop was requested before an attempt, `interrupted` whether one arrived during a wait. */
  datatype World = World(
    answer: (nat, nat) -> Response, cancelled: nat -> bool, interrupted: (nat, nat) -> bool)

  datatype Call = Call(limit: nat, outcome: Outcome)

  function Fallback(status: Status, error: ErrorCode): Outcome {
    Outcome(status, Some(error), None, None)
  }

  const RequestCancelled: Outcome := Fallback(ProviderError, Final("request_cancelled"))
  const InputInvalid: Outcome := Fallback(InvalidResponse, Final("grounded_synthesis_input_invalid"))
  const UnexpectedFailure: Outcome := Fallback(ProviderError, Final("grounded_synthesis_unexpected_failure"))

  // ---------- Usage ----------

  function CombinedOptional(total: Option<nat>, current: Option<nat>): Option<nat> {
    if total.None? || current.None? then None else Some(total.value + current.value)
  }

  function CombinedUsage(total: Option<Usage>, current: Option<Usage>): Option<Usage> {
    if current.None? then total
    else if total.None? then current
    else
      Some(Usage(
        total.value.inputTokens + current.value.inputTokens,
        total.value.outputTokens + current.value.outputTokens,
        total.value.totalTokens + current.value.totalTokens,
        CombinedOptional(total.value.reasoningTokens, current.value.reasoningTokens),
        CombinedOptional(total.value.cachedTokens, current.value.cachedTokens)))
  }

  function TotalUsage(calls: seq<Call>): Option<Usage> {
    if calls == [] then None
    else CombinedUsage(TotalUsage(calls[..|calls| - 1]), calls[|calls| - 1].outcome.usage)
  }

  function Sum(calls: seq<Call>, column: Usage -> nat): nat {
    if calls == [] then 0
    else Sum(calls[..|calls| - 1], column) + UsageColumn(calls[|calls| - 1], column)
  }

  function UsageColumn(call: Call, column: Usage -> nat): nat {
    if call.outcome.usage.None? then 0 else column(call.outcome.usage.value)
  }

  /** Every call that reported its usage reported this detail too. */
  predicate AllReport(calls: seq<Call>, detail: Usage -> Option<nat>) {
    forall i | 0 <= i < |calls| :: calls[i].outcome.usage.Some? ==> detail(calls[i].outcome.usage.value).Some?
  }

  predicate SomeReport(calls: seq<Call>) {
    exists i | 0 <= i < |calls| :: calls[i].outcome.usage.Some?
  }

  function Detail(detail: Usage -> Option<nat>): Usage -> nat {
    u => if detail(u).None? then 0 else detail(u).value
  }

  const InputTokens: Usage -> nat := (u: Usage) => u.inputTokens
  const OutputTokens: Usage -> nat := (u: Usage) => u.outputTokens
  const TotalTokens: Usage -> nat := (u: Usage) => u.totalTokens
  const ReasoningTokens: Usage -> Option<nat> := (u: Usage) => u.reasoningTokens
  const CachedTokens: Usage -> Option<nat> := (u: Usage) => u.cachedTokens

  /** The combined usage is the column-wise sum over all calls that reported any; a detail is
      known exactly when all of them reported it. */
  lemma {:induction false} TotalIsSum(calls: seq<Call>)
    ensures TotalUsage(calls).Some? <==> SomeReport(calls)
    ensures TotalUsage(calls).Some? ==>
      var total := TotalUsage(calls).value;
      && total.inputTokens == Sum(calls, InputTokens)
      && total.outputTokens == Sum(calls, OutputTokens)
      && total.totalTokens == Sum(calls, TotalTokens)
      && total.reasoningTokens == (if AllReport(calls, ReasoningTokens) then Some(Sum(calls, Detail(ReasoningTokens))) else None)
      && total.cachedTokens == (if AllReport(calls, CachedTokens) then Some(Sum(calls, Detail(CachedTokens))) else None)
    ensures TotalUsage(calls).None? ==>
      && Sum(calls, InputTokens) == 0 && Sum(calls, OutputTokens) == 0 && Sum(calls, TotalTokens) == 0
      && Sum(calls, Detail(ReasoningTokens)) == 0 && Sum(calls, Detail(CachedTokens)) == 0
  {
    if calls != [] {
      var earlier, last := calls[..|calls| - 1], calls[|calls| - 1];
      TotalIsSum(earlier);
      ReportGrows(calls);
      AllReportGrows(calls, ReasoningTokens);
      AllReportGrows(calls, CachedTokens);
      if !SomeReport(earlier) {
        NoReportMeansAll(earlier, ReasoningTokens);
        NoReportMeansAll(earlier, CachedTokens);
      }
      hide TotalUsage, SomeReport, AllReport;
      assert TotalUsage(calls) == CombinedUsage(TotalUsage(earlier), last.outcome.usage) by {
        TotalUsageStep(calls);
      }
    }
  }

  lemma TotalUsageStep(calls: seq<Call>)
    requires calls != []
    ensures TotalUsage(calls) == CombinedUsage(TotalUsage(calls[..|calls| - 1]), calls[|calls| - 1].outcome.usage)
  {}

  lemma ReportGrows(calls: seq<Call>)
    requires calls != []
    ensures SomeReport(calls) <==> SomeReport(calls[..|calls| - 1]) || calls[|calls| - 1].outcome.usage.Some?
  {
    var earlier := calls[..|calls| - 1];
    if i :| 0 <= i < |earlier| && earlier[i].outcome.usage.Some? {
      assert calls[i] == earlier[i];
    }
    if i :| 0 <= i < |calls| && calls[i].outcome.usage.Some? && i < |earlier| {
      assert earlier[i] == calls[i];
    }
  }

  lemma AllReportGrows(calls: seq<Call>, detail: Usage -> Option<nat>)
    requires calls != []
    ensures var last := calls[|calls| - 1].outcome.usage;
      AllReport(calls, detail) <==> AllReport(calls[..|calls| - 1], detail) && (last.Some? ==> detail(last.value).Some?)
  {
    var earlier := calls[..|calls| - 1];
    assert forall i | 0 <= i < |earlier| :: earlier[i] == calls[i];
  }

  lemma NoReportMeansAll(calls: seq<Call>, detail: Usage -> Option<nat>)
    requires !SomeReport(calls)
    ensures AllReport(calls, detail)
  {}

  // ---------- Escalation ----------

  /** Widen the limit in even steps towards the ceiling; nothing once it is reached. */
  function EscalatedLimit(current: nat, remaining: int): (next: Option<nat>)
    ensures next.Some? <==> current < CEILING && remaining >= 1
    ensures next.Some? ==> current < next.value <= CEILING
    ensures next.Some? && remaining == 1 ==> next.value == CEILING
  {
    if current >= CEILING || remaining < 1 then None
    else
      var step := (CEILING - current) / remaining;
      var wider := current + (if step > 1 then step else 1);
      Some(if wider < CEILING then wider else CEILING)
  }

  /** The step is one `remaining`-th of the way to the ceiling, rounded down, and at least one. */
  lemma EscalatesEvenly(current: nat, remaining: nat)
    requires current < CEILING && remaining >= 1
    ensures EscalatedLimit(current, remaining).Some?
    ensures var (gap, step) := (CEILING - current, EscalatedLimit(current, remaining).value - current);
      if remaining > gap then step == 1 else remaining * step <= gap < remaining * (step + 1)
  {
    var gap := CEILING - current;
    Quotient(gap, remaining);
  }

  lemma Quotient(gap: nat, parts: nat)
    requires parts >= 1
    ensures parts * (gap / parts) <= gap < parts * (gap / parts + 1)
    ensures parts <= gap ==> 1 <= gap / parts <= gap
    ensures parts > gap ==> gap / parts == 0
  {
    assert gap == parts * (gap / parts) + gap % parts;
    Factors(gap / parts, parts);
  }

  lemma Factors(q: nat, parts: nat)
    requires parts >= 1
    ensures q >= 1 ==> parts * q >= parts
    ensures q == 0 ==> parts * q == 0
    ensures q <= parts * q && parts * (q + 1) == parts * q + parts
  {
    if q >= 1 {
      assert parts * q == parts * (q - 1) + parts;
    }
    assert parts * q == (parts - 1) * q + q;
  }

  function Power2(n: nat): nat {
    if n == 0 then 1 else 2 * Power2(n - 1)
  }

  function Wait(backoff: nat, attempt: nat): nat {
    if backoff * Power2(attempt) < MAX_WAIT then backoff * Power2(attempt) else MAX_WAIT
  }

  // ---------- The loop ----------

  /** The limits of consecutive calls: a truncated one is followed by a strictly wider one,
      any other retried call by the same one, and the last attempt after a truncation has
      the ceiling. */
  predicate LimitsRise(calls: seq<Call>, first: nat, maxAttempts: nat) {
    && (calls != [] ==> calls[0].limit == first)
    && (forall i | 0 <= i < |calls| :: first <= calls[i].limit <= CEILING)
    && (forall i | 0 <= i < |calls| - 1 ::
          && calls[i].outcome.MayRetry()
          && (calls[i].outcome.error == Some(Truncated) ==> calls[i].limit < calls[i + 1].limit)
          && (calls[i].outcome.error != Some(Truncated) ==> calls[i].limit == calls[i + 1].limit))
    && (forall i | 0 <= i < |calls| - 1 :: calls[i].outcome.error == Some(Truncated) && i + 2 == maxAttempts ==>
          calls[i + 1].limit == CEILING)
  }

  /** A call made at attempt `i` got the answer the world gives to it. */
  predicate Answered(world: World, calls: seq<Call>) {
    forall i | 0 <= i < |calls| ::
      match world.answer(i, calls[i].limit)
      case Refused => false
      case Crashed => calls[i].outcome == UnexpectedFailure
      case Returned(outcome) => calls[i].outcome == outcome
  }

  /** Why the loop ended: a stop or a refused input loses the usage of all earlier calls;
      otherwise the last outcome is returned with the usage of all calls. */
  datatype Ending = Stopped | InputRefused | Answer

  predicate EndsWith(ending: Ending, calls: seq<Call>, result: Outcome) {
    match ending
    case Stopped => result == RequestCancelled
    case InputRefused => result == InputInvalid
    case Answer => calls != [] && result == calls[|calls| - 1].outcome.(usage := TotalUsage(calls))
  }

  /** The limit of the next call continues the calls made so far. */
  predicate Ready(calls: seq<Call>, limit: nat, first: nat, maxAttempts: nat) {
    && first <= limit <= CEILING
    && (calls == [] ==> limit == first)
    && (calls != [] ==>
          var last := calls[|calls| - 1];
          && last.outcome.MayRetry()
          && (last.outcome.error == Some(Truncated) ==> last.limit < limit)
          && (last.outcome.error == Some(Truncated) && |calls| + 1 == maxAttempts ==> limit == CEILING)
          && (last.outcome.error != Some(Truncated) ==> last.limit == limit))
  }

  lemma NoCalls(world: World, first: nat, maxAttempts: nat, backoff: nat)
    requires first <= CEILING && maxAttempts > 0
    ensures NextLimit(world, [], first, maxAttempts, backoff) == Some(first)
    ensures LimitsRise([], first, maxAttempts) && Answered(world, []) && Ready([], first, first, maxAttempts)
    ensures TotalUsage([]) == None
  {}

  lemma AddCall(world: World, calls: seq<Call>, limit: nat, first: nat, maxAttempts: nat, outcome: Outcome)
    requires LimitsRise(calls, first, maxAttempts) && Answered(world, calls) && Ready(calls, limit, first, maxAttempts)
    requires match world.answer(|calls|, limit)
      case Refused => false
      case Crashed => outcome == UnexpectedFailure
      case Returned(answer) => outcome == answer
    ensures LimitsRise(calls + [Call(limit, outcome)], first, maxAttempts)
    ensures Answered(world, calls + [Call(limit, outcome)])
    ensures TotalUsage(calls + [Call(limit, outcome)]) == CombinedUsage(TotalUsage(calls), outcome.usage)
  {
    hide LimitsRise, Ready;
    CallsRise(calls, Call(limit, outcome), first, maxAttempts);
    var more := calls + [Call(limit, outcome)];
    assert more[..|calls|] == calls;
    assert forall i | 0 <= i < |calls| :: more[i] == calls[i];
  }

  lemma CallsRise(calls: seq<Call>, call: Call, first: nat, maxAttempts: nat)
    requires LimitsRise(calls, first, maxAttempts) && Ready(calls, call.limit, first, maxAttempts)
    ensures LimitsRise(calls + [call], first, maxAttempts)
  {
    var more := calls + [call];
    assert forall i | 0 <= i < |calls| :: more[i] == calls[i];
    forall i | 0 <= i < |more| - 1
      ensures more[i].outcome.MayRetry()
      ensures more[i].outcome.error == Some(Truncated) ==> more[i].limit < more[i + 1].limit
      ensures more[i].outcome.error != Some(Truncated) ==> more[i].limit == more[i + 1].limit
      ensures more[i].outcome.error == Some(Truncated) && i + 2 == maxAttempts ==> more[i + 1].limit == CEILING
    {
      if i + 1 < |calls| {
        assert more[i + 1] == calls[i + 1];
      }
    }
  }

  lemma NextIsReady(calls: seq<Call>, limit: nat, first: nat, maxAttempts: nat)
    requires LimitsRise(calls, first, maxAttempts) && 0 < |calls| < maxAttempts && calls[|calls| - 1].outcome.MayRetry()
    requires
      var last := calls[|calls| - 1];
      if last.outcome.error == Some(Truncated) then EscalatedLimit(last.limit, maxAttempts - |calls|) == Some(limit)
      else limit == last.limit
    ensures Ready(calls, limit, first, maxAttempts)
  {}

  /** The limit of the call after these, unless they end the loop: the last outcome is final, the
      ceiling was too low for it, or a stop arrived while waiting. */
  function NextLimit(world: World, calls: seq<Call>, first: nat, maxAttempts: nat, backoff: nat): Option<nat> {
    if |calls| >= maxAttempts then None
    else if calls == [] then Some(first)
    else
      var last := calls[|calls| - 1];
      var limit := if last.outcome.error == Some(Truncated) then EscalatedLimit(last.limit, maxAttempts - |calls|) else Some(last.limit);
      if !last.outcome.MayRetry() || limit.None? || world.interrupted(|calls| - 1, Wait(backoff, |calls| - 1)) then None
      else limit
  }

  function OutcomeOf(response: Response): Outcome {
    match response
    case Refused => InputInvalid
    case Crashed => UnexpectedFailure
    case Returned(outcome) => outcome
  }

  /** The calls that follow `calls` in this world, and why they end. */
  function Session(world: World, calls: seq<Call>, first: nat, maxAttempts: nat, backoff: nat): (seq<Call>, Ending)
    decreases maxAttempts - |calls|
  {
    match NextLimit(world, calls, first, maxAttempts, backoff)
    case None => (calls, Answer)
    case Some(limit) =>
      if world.cancelled(|calls|) then (calls, Stopped)
      else if world.answer(|calls|, limit).Refused? then (calls, InputRefused)
      else Session(world, calls + [Call(limit, OutcomeOf(world.answer(|calls|, limit)))], first, maxAttempts, backoff)
  }

  method ExecuteSynthesis(world: World, outputLimit: nat, maxAttempts: nat, backoff: nat)
    returns (result: Outcome, calls: seq<Call>, ending: Ending)
    requires FLOOR <= outputLimit <= CEILING && 1 <= maxAttempts <= 5 && backoff <= MAX_WAIT
    ensures (calls, ending) == Session(world, [], outputLimit, maxAttempts, backoff)
    ensures EndsWith(ending, calls, result)
    ensures |calls| <= maxAttempts
    ensures LimitsRise(calls, outputLimit, maxAttempts) && Answered(world, calls)
  {
    hide LimitsRise, Answered, Ready, TotalUsage, Wait, EscalatedLimit, Session, NextLimit;
    var limit := outputLimit;
    var total: Option<Usage> := None;
    calls := [];
    var attempt := 0;
    NoCalls(world, outputLimit, maxAttempts, backoff);
    while attempt < maxAttempts
      invariant attempt < maxAttempts && |calls| == attempt
      invariant outputLimit <= limit <= CEILING
      invariant total == TotalUsage(calls)
      invariant LimitsRise(calls, outputLimit, maxAttempts) && Answered(world, calls)
      invariant Ready(calls, limit, outputLimit, maxAttempts)
      invariant NextLimit(world, calls, outputLimit, maxAttempts, backoff) == Some(limit)
      invariant Session(world, [], outputLimit, maxAttempts, backoff) == Session(world, calls, outputLimit, maxAttempts, backoff)
      decreases maxAttempts - attempt
    {
      SessionStep(world, calls, limit, outputLimit, maxAttempts, backoff);
      if world.cancelled(attempt) {
        return RequestCancelled, calls, Stopped;
      }
      var outcome;
      match world.answer(attempt, limit) {
        case Refused => return InputInvalid, calls, InputRefused;
        case Crashed => outcome := UnexpectedFailure;
        case Returned(answer) => outcome := answer;
      }
      AddCall(world, calls, limit, outputLimit, maxAttempts, outcome);
      calls := calls + [Call(limit, outcome)];
      total := CombinedUsage(total, outcome.usage);
      NextAfter(world, calls, outputLimit, maxAttempts, backoff);
      if !outcome.MayRetry() || attempt + 1 >= maxAttempts {
        return outcome.(usage := total), calls, Answer;
      }
      if outcome.error == Some(Truncated) {
        var escalated := EscalatedLimit(limit, maxAttempts - attempt - 1);
        if escalated.None? {
          return outcome.(usage := total), calls, Answer;
        }
        limit := escalated.value;
      }
      NextIsReady(calls, limit, outputLimit, maxAttempts);
      if world.interrupted(attempt, Wait(backoff, attempt)) {
        return outcome.(usage := total), calls, Answer;
      }
      attempt := attempt + 1;
    }
    assert false;
  }

  lemma SessionStep(world: World, calls: seq<Call>, limit: nat, first: nat, maxAttempts: nat, backoff: nat)
    requires NextLimit(world, calls, first, maxAttempts, backoff) == Some(limit)
    ensures Session(world, calls, first, maxAttempts, backoff) ==
      if world.cancelled(|calls|) then (calls, Stopped)
      else if world.answer(|calls|, limit).Refused? then (calls, InputRefused)
      else Session(world, calls + [Call(limit, OutcomeOf(world.answer(|calls|, limit)))], first, maxAttempts, backoff)
  {
    hide NextLimit;
  }

  /** How the loop goes on after its latest call. */
  lemma NextAfter(world: World, calls: seq<Call>, first: nat, maxAttempts: nat, backoff: nat)
    requires 0 < |calls| <= maxAttempts
    ensures var last := calls[|calls| - 1];
      var limit := if last.outcome.error == Some(Truncated) then EscalatedLimit(last.limit, maxAttempts - |calls|) else Some(last.limit);
      var next := NextLimit(world, calls, first, maxAttempts, backoff);
      && (next == if !last.outcome.MayRetry() || |calls| == maxAttempts || limit.None?
                     || world.interrupted(|calls| - 1, Wait(backoff, |calls| - 1)) then None else limit)
      && (next.None? ==> Session(world, calls, first, maxAttempts, backoff) == (calls, Answer))
  {
    hide Wait;
  }

  /** The wait starts at the configured seconds and doubles with each attempt, up to 30 seconds. */
  lemma WaitDoubles(backoff: nat, attempt: nat)
    ensures Wait(backoff, 0) == if backoff <= 30 then backoff else 30
    ensures Wait(backoff, attempt + 1) == if Wait(backoff, attempt) <= 15 then 2 * Wait(backoff, attempt) else 30
  {
    assert backoff * Power2(attempt + 1) == 2 * (backoff * Power2(attempt));
  }

  /** After a call another one follows exactly when attempts are left, its error is a truncation
      below the ceiling or one worth retrying, and no stop arrives during the wait. */
  lemma NextCallExactly(world: World, calls: seq<Call>, first: nat, maxAttempts: nat, backoff: nat)
    requires calls != []
    ensures NextLimit(world, calls, first, maxAttempts, backoff).Some? <==>
      var last := calls[|calls| - 1];
      && |calls| < maxAttempts
      && !world.interrupted(|calls| - 1, Wait(backoff, |calls| - 1))
      && match last.outcome.error
         case None => false
         case Some(Truncated) => last.limit < 32_000
         case Some(Retryable(_)) => true
         case Some(Final(_)) => false
  {
    hide Wait;
  }

  /** Usage is lost exactly when a stop is noticed, or the runner refuses its input, at an attempt
      that follows a call which reported usage. */
  lemma UsageIsLostExactlyWhen(world: World, first: nat, maxAttempts: nat, backoff: nat, result: Outcome)
    requires FLOOR <= first <= CEILING && 1 <= maxAttempts <= 5
    requires var (calls, ending) := Session(world, [], first, maxAttempts, backoff); EndsWith(ending, calls, result)
    ensures var calls := Session(world, [], first, maxAttempts, backoff).0;
      var next := NextLimit(world, calls, first, maxAttempts, backoff);
      result.usage != TotalUsage(calls) <==>
        && SomeReport(calls) && next.Some?
        && (world.cancelled(|calls|) || world.answer(|calls|, next.value).Refused?)
  {
    hide NextLimit, TotalUsage, SomeReport;
    SessionEnds(world, [], first, maxAttempts, backoff);
    TotalIsSum(Session(world, [], first, maxAttempts, backoff).0);
  }

  lemma {:induction false} SessionEnds(world: World, calls: seq<Call>, first: nat, maxAttempts: nat, backoff: nat)
    ensures var (all, ending) := Session(world, calls, first, maxAttempts, backoff);
      match NextLimit(world, all, first, maxAttempts, backoff)
      case None => ending.Answer?
      case Some(limit) =>
        if world.cancelled(|all|) then ending.Stopped? else world.answer(|all|, limit).Refused? && ending.InputRefused?
    decreases maxAttempts - |calls|
  {
    hide NextLimit;
    match NextLimit(world, calls, first, maxAttempts, backoff)
    case None =>
    case Some(limit) =>
      AttemptsLeft(world, calls, first, maxAttempts, backoff);
      if !world.cancelled(|calls|) && !world.answer(|calls|, limit).Refused? {
        SessionEnds(world, calls + [Call(limit, OutcomeOf(world.answer(|calls|, limit)))], first, maxAttempts, backoff);
      }
  }

  lemma AttemptsLeft(world: World, calls: seq<Call>, first: nat, maxAttempts: nat, backoff: nat)
    ensures NextLimit(world, calls, first, maxAttempts, backoff).Some? ==> |calls| < maxAttempts
  {}

  /** A session makes at most the configured number of calls. */
  lemma {:induction false} SessionIsBounded(world: World, calls: seq<Call>, first: nat, maxAttempts: nat, backoff: nat)
    requires |calls| <= maxAttempts
    ensures |Session(world, calls, first, maxAttempts, backoff).0| <= maxAttempts
    decreases maxAttempts - |calls|
  {
    hide NextLimit;
    AttemptsLeft(world, calls, first, maxAttempts, backoff);
    match NextLimit(world, calls, first, maxAttempts, backoff)
    case None =>
    case Some(limit) =>
      if !world.cancelled(|calls|) && !world.answer(|calls|, limit).Refused? {
        SessionIsBounded(world, calls + [Call(limit, OutcomeOf(world.answer(|calls|, limit)))], first, maxAttempts, backoff);
      }
  }

  const RateLimitedOnce: Outcome := Outcome(RateLimited, Some(Retryable("rate_limited")), Some(Usage(900, 40, 940, None, None)), None)

  /** A stop between the first call and the second. */
  const StoppedWorld: World := World((i, limit) => Returned(RateLimitedOnce), i => i == 1, (i, wait) => false)

  /** For instance, a stop noticed before the second attempt loses the 940 tokens of the first. */
  lemma StopLosesUsage()
    ensures Session(StoppedWorld, [], CEILING, 3, 2) == ([Call(CEILING, RateLimitedOnce)], Stopped)
    ensures TotalUsage([Call(CEILING, RateLimitedOnce)]) == RateLimitedOnce.usage
    ensures EndsWith(Stopped, [Call(CEILING, RateLimitedOnce)], RequestCancelled) && RequestCancelled.usage == None
  {
    hide Wait;
    var w, one := StoppedWorld, [Call(CEILING, RateLimitedOnce)];
    assert NextLimit(w, [], CEILING, 3, 2) == Some(CEILING);
    SessionStep(w, [], CEILING, CEILING, 3, 2);
    assert [] + one == one;
    assert NextLimit(w, one, CEILING, 3, 2) == Some(CEILING);
    SessionStep(w, one, CEILING, CEILING, 3, 2);
    TotalUsageStep(one);
  }

  /** A run that keeps truncating either stops at the ceiling or ends with it: it never gives
      up below the ceiling with all attempts used. */
  lemma TruncationReachesCeiling(calls: seq<Call>, first: nat, maxAttempts: nat)
    requires LimitsRise(calls, first, maxAttempts) && first <= CEILING
    requires |calls| == maxAttempts >= 2
    requires calls[maxAttempts - 2].outcome.error == Some(Truncated)
    ensures calls[maxAttempts - 1].limit == CEILING
    ensures forall i | 0 <= i < |calls| - 1 && calls[i].outcome.error == Some(Truncated) :: calls[i].limit < CEILING
  {
    var i := maxAttempts - 2;
    assert calls[i].outcome.MayRetry();
    forall j | 0 <= j < |calls| - 1 && calls[j].outcome.error == Some(Truncated)
      ensures calls[j].limit < CEILING
    {
      assert calls[j].limit < calls[j + 1].limit <= CEILING;
    }
  }

  /** The caps never fall from one call to any later one. */
  lemma {:induction false} LimitsNeverFall(calls: seq<Call>, first: nat, maxAttempts: nat, i: nat, j: nat)
    requires LimitsRise(calls, first, maxAttempts) && i <= j < |calls|
    ensures calls[i].limit <= calls[j].limit
  {
    if i < j {
      LimitsNeverFall(calls, first, maxAttempts, i, j - 1);
      assert calls[j - 1].outcome.MayRetry();
    }
  }
}
