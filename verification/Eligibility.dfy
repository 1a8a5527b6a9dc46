/** Verifying that a user controls a profile: a challenge, checks that each take two
    transactions with a fetch in between, and a review decision. */
module Eligibility {
  import opened Wrappers

  type Id = nat
  type Hash = nat

  datatype State =
    | Pending | ReviewPending | Eligible | Ineligible | VerificationFailed | Expired | Superseded | Suppressed
  {
    /** States in which a verification is still going on. */
    predicate Open() {
      Pending? || ReviewPending?
    }
  }

  datatype Verification = Verification(
    user: Id, identifier: Id, state: State, challenge: Option<Hash>, challengeExpires: int, reviewExpires: Option<int>,
    attempts: nat, lastChecked: Option<int>, subject: Option<Id>, confirmedAt: Option<int>, approvedAt: Option<int>,
    expires: int, revokedAt: Option<int>)

  datatype Settings = Settings(
    maxAttempts: nat, challengeTtl: int, cooldown: int, reviewTtl: int, approvalTtl: int)

  /** What a check carries from its first transaction to its second. */
  datatype Check = Check(id: Id, generation: nat, challenge: Option<Hash>)

  datatype Status = PendingControl | InReview | Approved | Lapsed | Unavailable

  datatype Reply =
    | NotFound
    | NoLongerAvailable
    | AttemptsExhausted
    | ResultUnavailable
    | CoolingDown
    | Started(check: Check)
    | Shown(status: Status)
    | NotReady
    | InvalidDecision

  type Rows = map<Id, Verification>

  predicate IsExpired(v: Verification, now: int) {
    match v.state
    case Pending => v.challengeExpires <= now
    case ReviewPending => v.reviewExpires.Some? && v.reviewExpires.value <= now
    case _ => v.expires <= now
  }

  function PublicStatus(v: Verification, now: int): Status {
    if IsExpired(v, now) then Lapsed
    else
      match v.state
      case Pending => PendingControl
      case ReviewPending => InReview
      case Eligible => Approved
      case _ => Unavailable
  }

  function Close(v: Verification, state: State, now: int): Verification {
    v.(state := state, revokedAt := Some(now), challenge := None)
  }

  // ---------- The transactions ----------

  predicate Prior(v: Verification, user: Id, identifier: Id) {
    v.user == user && v.identifier == identifier && v.state.Open() && v.revokedAt.None?
  }

  function Create(rows: Rows, s: Settings, now: int, id: Id, user: Id, identifier: Id, challenge: Hash, suppressed: bool): Rows {
    if suppressed then rows
    else
      (map k | k in rows :: if Prior(rows[k], user, identifier) then Close(rows[k], Superseded, now) else rows[k])
      [id := Verification(user, identifier, Pending, Some(challenge), now + s.challengeTtl, None, 0, None, None, None, None,
                          now + s.challengeTtl, None)]
  }

  /** The first transaction of a check. */
  function StartCheck(rows: Rows, s: Settings, now: int, id: Id, user: Id, suppressed: bool): (Rows, Reply) {
    if id !in rows || rows[id].user != user then (rows, NotFound)
    else
      var v := rows[id];
      match PublicStatus(v, now)
      case InReview => (rows, Shown(InReview))
      case Approved => (rows, Shown(Approved))
      case Lapsed => (rows, NoLongerAvailable)
      case Unavailable => (rows, NoLongerAvailable)
      case PendingControl =>
        if suppressed then (rows[id := Close(v, Suppressed, now)], ResultUnavailable)
        else if v.attempts >= s.maxAttempts then (rows[id := Close(v, VerificationFailed, now)], AttemptsExhausted)
        else if v.lastChecked.Some? && v.lastChecked.value + s.cooldown > now then (rows, CoolingDown)
        else
          (rows[id := v.(attempts := v.attempts + 1, lastChecked := Some(now))], Started(Check(id, v.attempts + 1, v.challenge)))
  }

  /** What the fetched profile shows: the hashes of the challenges in its text, and its account. */
  datatype Profile = Profile(hashes: set<Hash>, account: Id)

  /** The second transaction of a check. */
  function FinishCheck(rows: Rows, s: Settings, now: int, check: Check, profile: Profile, suppressed: bool): (Rows, Reply) {
    if check.id !in rows then (rows, NotFound)
    else
      var v := rows[check.id];
      if !v.state.Pending? || v.attempts != check.generation then (rows, Shown(PublicStatus(v, now)))
      else if IsExpired(v, now) then Show(rows, check.id, Close(v, Expired, now), now)
      else if suppressed then Show(rows, check.id, Close(v, Suppressed, now), now)
      else if check.challenge.Some? && check.challenge.value in profile.hashes then
        Show(rows, check.id,
             v.(state := ReviewPending, subject := Some(profile.account), confirmedAt := Some(now),
                reviewExpires := Some(now + s.reviewTtl), expires := now + s.reviewTtl, challenge := None),
             now)
      else if v.attempts >= s.maxAttempts then
        Show(rows, check.id, Close(v, VerificationFailed, now).(expires := now), now)
      else (rows, Shown(PublicStatus(v, now)))
  }

  function Show(rows: Rows, id: Id, v: Verification, now: int): (Rows, Reply) {
    (rows[id := v], Shown(PublicStatus(v, now)))
  }

  datatype Decision = Decision(approve: bool, codeMatches: bool)

  function Decide(rows: Rows, s: Settings, now: int, id: Id, decision: Decision, suppressed: bool): (Rows, Reply) {
    if id !in rows then (rows, NotFound)
    else
      var v := rows[id];
      if v.state.Eligible? && decision.approve then (rows, Shown(PublicStatus(v, now)))
      else if !v.state.ReviewPending? || IsExpired(v, now) || v.subject.None? then (rows, NotReady)
      else if suppressed then Show(rows, id, Close(v, Suppressed, now), now)
      else if !decision.codeMatches then (rows, InvalidDecision)
      else if decision.approve then
        Show(rows, id,
             v.(state := Eligible, approvedAt := Some(now), expires := now + s.approvalTtl, revokedAt := None), now)
      else
        Show(rows, id, v.(state := Ineligible, revokedAt := Some(now), expires := now), now)
  }

  /** An operator suppresses an identifier: every verification of it that was not revoked. */
  function Suppress(rows: Rows, identifier: Id, now: int): Rows {
    map k | k in rows ::
      if rows[k].identifier == identifier && rows[k].revokedAt.None? then Close(rows[k], Suppressed, now) else rows[k]
  }

  // ---------- The table ----------

  class Table {
    var rows: Rows

    method CreateVerification(s: Settings, now: int, id: Id, user: Id, identifier: Id, challenge: Hash, suppressed: bool)
      returns (created: bool)
      modifies this
      ensures created == !suppressed
      ensures rows == Create(old(rows), s, now, id, user, identifier, challenge, suppressed)
    {
      if suppressed {
        return false;
      }
      var left := rows.Keys;
      while left != {}
        invariant left <= old(rows).Keys && rows.Keys == old(rows).Keys
        invariant forall k | k in left :: rows[k] == old(rows)[k]
        invariant forall k | k in old(rows) && k !in left ::
          rows[k] == if Prior(old(rows)[k], user, identifier) then Close(old(rows)[k], Superseded, now) else old(rows)[k]
        decreases |left|
      {
        var k :| k in left;
        if Prior(rows[k], user, identifier) {
          rows := rows[k := rows[k].(state := Superseded)];
          rows := rows[k := rows[k].(revokedAt := Some(now))];
          rows := rows[k := rows[k].(challenge := None)];
        }
        left := left - {k};
      }
      var expiry := now + s.challengeTtl;
      rows := rows[id := Verification(user, identifier, Pending, Some(challenge), expiry, None, 0, None, None, None, None, expiry, None)];
      return true;
    }

    method BeginCheck(s: Settings, now: int, id: Id, user: Id, suppressed: bool) returns (reply: Reply)
      modifies this
      ensures (rows, reply) == StartCheck(old(rows), s, now, id, user, suppressed)
    {
      if id !in rows || rows[id].user != user {
        return NotFound;
      }
      var v := rows[id];
      var status := PublicStatus(v, now);
      if status.InReview? || status.Approved? {
        return Shown(status);
      }
      if !status.PendingControl? {
        reply := NoLongerAvailable;
      } else if suppressed {
        rows := rows[id := v.(state := Suppressed, revokedAt := Some(now), challenge := None)];
        reply := ResultUnavailable;
      } else if v.attempts >= s.maxAttempts {
        rows := rows[id := v.(state := VerificationFailed, revokedAt := Some(now), challenge := None)];
        reply := AttemptsExhausted;
      } else if v.lastChecked.Some? && v.lastChecked.value + s.cooldown > now {
        reply := CoolingDown;
      } else {
        rows := rows[id := v.(attempts := v.attempts + 1, lastChecked := Some(now))];
        reply := Started(Check(id, rows[id].attempts, rows[id].challenge));
      }
    }

    method EndCheck(s: Settings, now: int, check: Check, profile: Profile, suppressed: bool) returns (reply: Reply)
      modifies this
      ensures (rows, reply) == FinishCheck(old(rows), s, now, check, profile, suppressed)
    {
      if check.id !in rows {
        return NotFound;
      }
      var v := rows[check.id];
      if !v.state.Pending? {
        return Shown(PublicStatus(v, now));
      }
      if v.attempts != check.generation {
        return Shown(PublicStatus(v, now));
      }
      if IsExpired(v, now) {
        v := v.(state := Expired, revokedAt := Some(now), challenge := None);
      } else if suppressed {
        v := v.(state := Suppressed, revokedAt := Some(now), challenge := None);
      } else if check.challenge.Some? && check.challenge.value in profile.hashes {
        v := v.(state := ReviewPending, subject := Some(profile.account), confirmedAt := Some(now));
        v := v.(reviewExpires := Some(now + s.reviewTtl), expires := now + s.reviewTtl, challenge := None);
      } else if v.attempts >= s.maxAttempts {
        v := v.(state := VerificationFailed, revokedAt := Some(now), challenge := None, expires := now);
      } else {
        return Shown(PublicStatus(v, now));
      }
      rows := rows[check.id := v];
      return Shown(PublicStatus(v, now));
    }
  }

  // ---------- Interleavings ----------

  /** `checks` are the checks between their two transactions, each counted as often as it was
      handed out; `used` is every id ever given out. */
  datatype System = System(rows: Rows, checks: multiset<Check>, used: set<Id>)

  datatype Step =
    | UserCreates(id: Id, user: Id, identifier: Id, challenge: Hash, now: int, suppressed: bool)
    | CheckStarts(id: Id, user: Id, now: int, suppressed: bool)
    | CheckEnds(check: Check, profile: Profile, now: int, suppressed: bool)
    | CheckLost(check: Check)
    | OperatorDecides(id: Id, decision: Decision, now: int, suppressed: bool)
    | IdentifierSuppressed(identifier: Id, now: int)

  predicate Enabled(sys: System, step: Step) {
    match step
    case UserCreates(id, _, _, _, _, _) => id !in sys.used
    case CheckEnds(check, _, _, _) => check in sys.checks
    case CheckLost(check) => check in sys.checks
    case _ => true
  }

  function RowsAfter(rows: Rows, s: Settings, step: Step): Rows {
    match step
    case UserCreates(id, user, identifier, challenge, now, suppressed) =>
      Create(rows, s, now, id, user, identifier, challenge, suppressed)
    case CheckStarts(id, user, now, suppressed) => StartCheck(rows, s, now, id, user, suppressed).0
    case CheckEnds(check, profile, now, suppressed) => FinishCheck(rows, s, now, check, profile, suppressed).0
    case CheckLost(_) => rows
    case OperatorDecides(id, decision, now, suppressed) => Decide(rows, s, now, id, decision, suppressed).0
    case IdentifierSuppressed(identifier, now) => Suppress(rows, identifier, now)
  }

  function ChecksAfter(sys: System, s: Settings, step: Step): multiset<Check> {
    match step
    case CheckStarts(id, user, now, suppressed) =>
      var reply := StartCheck(sys.rows, s, now, id, user, suppressed).1;
      if reply.Started? then sys.checks + multiset{reply.check} else sys.checks
    case CheckEnds(check, _, _, _) => sys.checks - multiset{check}
    case CheckLost(check) => sys.checks - multiset{check}
    case _ => sys.checks
  }

  function Apply(sys: System, s: Settings, step: Step): System {
    System(RowsAfter(sys.rows, s, step), ChecksAfter(sys, s, step), if step.UserCreates? then sys.used + {step.id} else sys.used)
  }

  function After(sys: System, s: Settings, steps: seq<Step>): System {
    if steps == [] then sys else Apply(After(sys, s, steps[..|steps| - 1]), s, steps[|steps| - 1])
  }

  predicate Execution(sys: System, s: Settings, steps: seq<Step>) {
    forall n | 0 <= n < |steps| :: Enabled(After(sys, s, steps[..n]), steps[n])
  }

  const Empty: System := System(map[], multiset{}, {})

  // ---------- The invariant ----------

  predicate RowOk(v: Verification, s: Settings) {
    && (v.challenge.Some? <==> v.state.Pending?)
    && v.attempts <= s.maxAttempts
    && (v.state.Open() ==> v.revokedAt.None?)
    && (v.state.ReviewPending? ==> v.subject.Some? && v.confirmedAt.Some? && v.reviewExpires.Some?)
    && (v.state.Eligible? ==> v.subject.Some? && v.confirmedAt.Some? && v.approvedAt.Some? && v.revokedAt.None?)
  }

  /** A user has at most one open verification of an identifier. */
  predicate OneOpen(rows: Rows) {
    forall j, k | j in rows && k in rows && j != k && rows[j].state.Open() && rows[k].state.Open() ::
      rows[j].user != rows[k].user || rows[j].identifier != rows[k].identifier
  }

  /** A check carries a generation that was started, and the challenge it was started with. */
  predicate CheckOk(rows: Rows, check: Check) {
    && check.id in rows
    && 1 <= check.generation <= rows[check.id].attempts
    && (rows[check.id].state.Pending? ==> check.challenge == rows[check.id].challenge)
  }

  predicate RowsOk(rows: Rows, s: Settings) {
    (forall k | k in rows :: RowOk(rows[k], s)) && OneOpen(rows)
  }

  /** No check was handed out twice, and no two have one generation of a verification. */
  ghost predicate ChecksOk(rows: Rows, checks: multiset<Check>) {
    && (forall c | c in checks :: checks[c] == 1 && CheckOk(rows, c))
    && (forall c, d | c in checks && d in checks && c.id == d.id && c.generation == d.generation :: c == d)
  }

  ghost predicate Inv(sys: System, s: Settings) {
    sys.rows.Keys <= sys.used && RowsOk(sys.rows, s) && ChecksOk(sys.rows, sys.checks)
  }

  /** What a step may do to a row that checks rely on. */
  predicate Follows(v: Verification, after: Verification) {
    v.attempts <= after.attempts && (after.state.Pending? ==> v.state.Pending? && after.challenge == v.challenge)
  }

  lemma RowsKeep(rows: Rows, s: Settings, step: Step)
    requires RowsOk(rows, s) && (step.UserCreates? ==> step.id !in rows)
    ensures RowsOk(RowsAfter(rows, s, step), s)
    ensures forall k | k in rows :: k in RowsAfter(rows, s, step) && Follows(rows[k], RowsAfter(rows, s, step)[k])
    ensures forall k | k in RowsAfter(rows, s, step) :: k in rows || (step.UserCreates? && k == step.id)
  {
    hide RowsOk, Follows, Create, StartCheck, FinishCheck, Decide, Suppress;
    match step
    case UserCreates(_, _, _, _, _, _) => CreateKeeps(rows, s, step);
    case CheckStarts(_, _, _, _) => StartKeepsRows(rows, s, step);
    case CheckEnds(_, _, _, _) => EndKeepsRows(rows, s, step);
    case CheckLost(_) => SameRowsFollow(rows);
    case OperatorDecides(_, _, _, _) => DecideKeepsRows(rows, s, step);
    case IdentifierSuppressed(_, _) => SuppressKeepsRows(rows, s, step);
  }

  lemma SameRowsFollow(rows: Rows)
    ensures forall k | k in rows :: Follows(rows[k], rows[k])
  {}

  lemma StartKeepsRows(rows: Rows, s: Settings, step: Step)
    requires RowsOk(rows, s) && step.CheckStarts?
    ensures RowsOk(RowsAfter(rows, s, step), s)
    ensures forall k | k in rows :: k in RowsAfter(rows, s, step) && Follows(rows[k], RowsAfter(rows, s, step)[k])
    ensures RowsAfter(rows, s, step).Keys == rows.Keys
  {}

  lemma EndKeepsRows(rows: Rows, s: Settings, step: Step)
    requires RowsOk(rows, s) && step.CheckEnds?
    ensures RowsOk(RowsAfter(rows, s, step), s)
    ensures forall k | k in rows :: k in RowsAfter(rows, s, step) && Follows(rows[k], RowsAfter(rows, s, step)[k])
    ensures RowsAfter(rows, s, step).Keys == rows.Keys
  {}

  lemma DecideKeepsRows(rows: Rows, s: Settings, step: Step)
    requires RowsOk(rows, s) && step.OperatorDecides?
    ensures RowsOk(RowsAfter(rows, s, step), s)
    ensures forall k | k in rows :: k in RowsAfter(rows, s, step) && Follows(rows[k], RowsAfter(rows, s, step)[k])
    ensures RowsAfter(rows, s, step).Keys == rows.Keys
  {}

  lemma SuppressKeepsRows(rows: Rows, s: Settings, step: Step)
    requires RowsOk(rows, s) && step.IdentifierSuppressed?
    ensures RowsOk(RowsAfter(rows, s, step), s)
    ensures forall k | k in rows :: k in RowsAfter(rows, s, step) && Follows(rows[k], RowsAfter(rows, s, step)[k])
    ensures RowsAfter(rows, s, step).Keys == rows.Keys
  {}

  lemma CreateKeeps(rows: Rows, s: Settings, step: Step)
    requires RowsOk(rows, s) && step.UserCreates? && step.id !in rows
    ensures RowsOk(RowsAfter(rows, s, step), s)
    ensures forall k | k in rows :: k in RowsAfter(rows, s, step) && Follows(rows[k], RowsAfter(rows, s, step)[k])
    ensures forall k | k in RowsAfter(rows, s, step) :: k in rows || k == step.id
  {}

  lemma StillOk(rows: Rows, after: Rows, check: Check)
    requires CheckOk(rows, check) && forall k | k in rows :: k in after && Follows(rows[k], after[k])
    ensures CheckOk(after, check)
  {}

  /** Every other step keeps the checks or takes one away. */
  lemma ChecksKeep(sys: System, s: Settings, step: Step, after: Rows)
    requires ChecksOk(sys.rows, sys.checks) && !step.CheckStarts?
    requires forall k | k in sys.rows :: k in after && Follows(sys.rows[k], after[k])
    ensures ChecksOk(after, ChecksAfter(sys, s, step))
  {
    hide CheckOk;
    forall c | c in ChecksAfter(sys, s, step)
      ensures c in sys.checks && ChecksAfter(sys, s, step)[c] == 1 && CheckOk(after, c)
    {
      StillOk(sys.rows, after, c);
    }
  }

  /** A check that starts has a generation that no earlier one has. */
  lemma StartedIsNew(sys: System, s: Settings, step: Step, after: Rows)
    requires ChecksOk(sys.rows, sys.checks) && step.CheckStarts? && after == RowsAfter(sys.rows, s, step)
    requires forall k | k in sys.rows :: k in after && Follows(sys.rows[k], after[k])
    requires StartCheck(sys.rows, s, step.now, step.id, step.user, step.suppressed).1.Started?
    ensures var check := StartCheck(sys.rows, s, step.now, step.id, step.user, step.suppressed).1.check;
      CheckOk(after, check) && forall c | c in sys.checks :: c.id != check.id || c.generation < check.generation
  {}

  lemma StartKeeps(sys: System, s: Settings, step: Step, after: Rows)
    requires ChecksOk(sys.rows, sys.checks) && step.CheckStarts? && after == RowsAfter(sys.rows, s, step)
    requires forall k | k in sys.rows :: k in after && Follows(sys.rows[k], after[k])
    ensures ChecksOk(after, ChecksAfter(sys, s, step))
  {
    hide CheckOk, StartCheck, Follows, RowsAfter;
    var reply := StartCheck(sys.rows, s, step.now, step.id, step.user, step.suppressed).1;
    if reply.Started? {
      StartedIsNew(sys, s, step, after);
    }
    forall c | c in sys.checks
      ensures CheckOk(after, c)
    {
      StillOk(sys.rows, after, c);
    }
  }

  lemma StepKeepsInvariant(sys: System, s: Settings, step: Step)
    requires Inv(sys, s) && Enabled(sys, step)
    ensures Inv(Apply(sys, s, step), s)
  {
    hide RowsOk, ChecksOk, RowsAfter, ChecksAfter, Follows;
    var after := RowsAfter(sys.rows, s, step);
    RowsKeep(sys.rows, s, step);
    if step.CheckStarts? {
      StartKeeps(sys, s, step, after);
    } else {
      ChecksKeep(sys, s, step, after);
    }
  }

  /** The invariant holds after every execution. */
  lemma {:induction false} ExecutionKeepsInvariant(s: Settings, steps: seq<Step>)
    requires Execution(Empty, s, steps)
    ensures Inv(After(Empty, s, steps), s)
  {
    hide Enabled, Apply;
    if steps != [] {
      var earlier := steps[..|steps| - 1];
      forall n | 0 <= n < |earlier| ensures Enabled(After(Empty, s, earlier[..n]), earlier[n]) {
        assert earlier[..n] == steps[..n];
      }
      ExecutionKeepsInvariant(s, earlier);
      StepKeepsInvariant(After(Empty, s, earlier), s, steps[|steps| - 1]);
    }
  }

  // ---------- Main results ----------

  /** The invariant spelled out: a challenge exactly while waiting, attempts within the maximum, at
      most one open verification for a user and identifier, who is eligible was confirmed and
      approved, and each check under way is the only one of its generation. */
  lemma ReachableRows(s: Settings, steps: seq<Step>)
    requires Execution(Empty, s, steps)
    ensures var sys := After(Empty, s, steps);
      && (forall k | k in sys.rows ::
            && (sys.rows[k].challenge != None <==> sys.rows[k].state == Pending)
            && sys.rows[k].attempts <= s.maxAttempts
            && (sys.rows[k].state == Eligible ==>
                  sys.rows[k].subject != None && sys.rows[k].confirmedAt != None && sys.rows[k].approvedAt != None && sys.rows[k].revokedAt == None))
      && (forall j, k | j in sys.rows && k in sys.rows && j != k
            && sys.rows[j].state in {Pending, ReviewPending} && sys.rows[k].state in {Pending, ReviewPending} ::
            sys.rows[j].user != sys.rows[k].user || sys.rows[j].identifier != sys.rows[k].identifier)
      && (forall c | c in sys.checks ::
            sys.checks[c] == 1 && c.id in sys.rows && 1 <= c.generation <= sys.rows[c.id].attempts)
      && (forall c, d | c in sys.checks && d in sys.checks && c.id == d.id && c.generation == d.generation :: c == d)
  {
    hide Execution, After;
    ExecutionKeepsInvariant(s, steps);
  }

  /** Why a verification that was awaiting its check is so no longer. */
  predicate LeftPendingBecause(v: Verification, after: Verification, s: Settings, step: Step, id: Id) {
    match step
    case UserCreates(_, user, identifier, _, _, suppressed) =>
      !suppressed && v.user == user && v.identifier == identifier && after.state.Superseded?
    case CheckStarts(i, _, now, suppressed) =>
      && i == id && !IsExpired(v, now)
      && ((suppressed && after.state.Suppressed?) || (v.attempts >= s.maxAttempts && after.state.VerificationFailed?))
    case CheckEnds(check, profile, now, suppressed) =>
      && check.id == id && check.generation == v.attempts
      && (match after.state
         case Expired => IsExpired(v, now)
         case Suppressed => suppressed
         case ReviewPending => !IsExpired(v, now) && !suppressed && v.challenge.Some? && v.challenge.value in profile.hashes
         case VerificationFailed => v.attempts >= s.maxAttempts && !(v.challenge.Some? && v.challenge.value in profile.hashes)
         case _ => false)
    case IdentifierSuppressed(identifier, _) => v.identifier == identifier && after.state.Suppressed?
    case _ => false
  }

  /** Of all checks only the latest-started one ends the wait, and it confirms control of the
      account it saw exactly when it saw the challenge in time and unsuppressed; besides checks only a new verification, a suppression,
      or a further call after the last attempt ends it. */
  lemma OnlyLatestCheckDecides(sys: System, s: Settings, step: Step, id: Id)
    requires Inv(sys, s) && Enabled(sys, step) && id in sys.rows && sys.rows[id].state.Pending?
    ensures id in Apply(sys, s, step).rows
    ensures !Apply(sys, s, step).rows[id].state.Pending? ==>
              LeftPendingBecause(sys.rows[id], Apply(sys, s, step).rows[id], s, step, id)
    ensures step.CheckEnds? && step.check.id == id ==>
      var v, after := sys.rows[id], Apply(sys, s, step).rows[id];
      if step.check.generation != v.attempts then after == v
      else
        && (after.state.ReviewPending? <==>
              !IsExpired(v, step.now) && !step.suppressed && v.challenge.Some? && v.challenge.value in step.profile.hashes)
        && (after.state.ReviewPending? ==> after.subject == Some(step.profile.account) && after.confirmedAt == Some(step.now))
  {
    hide ChecksAfter, ChecksOk, OneOpen, RowsOk;
    RowIsOk(sys, s, id);
    if step.CheckEnds? {
      LiveCheckOk(sys, s, step.check);
    }
  }

  lemma RowIsOk(sys: System, s: Settings, id: Id)
    requires Inv(sys, s) && id in sys.rows
    ensures RowOk(sys.rows[id], s)
  {
    hide ChecksOk, OneOpen;
  }

  lemma LiveCheckOk(sys: System, s: Settings, check: Check)
    requires Inv(sys, s) && check in sys.checks
    ensures CheckOk(sys.rows, check)
  {
    hide RowsOk, CheckOk;
  }

  /** A confirmed check followed by an approval is the only way to become eligible. */
  lemma EligibleOnlyByApproval(sys: System, s: Settings, step: Step, id: Id)
    requires Inv(sys, s) && Enabled(sys, step)
    requires id in Apply(sys, s, step).rows && Apply(sys, s, step).rows[id].state.Eligible?
    ensures id in sys.rows
    ensures sys.rows[id].state.Eligible? ||
      (&& step.OperatorDecides? && step.id == id && step.decision == Decision(true, true) && !step.suppressed
       && sys.rows[id].state.ReviewPending? && !IsExpired(sys.rows[id], step.now))
  {
    hide ChecksAfter, ChecksOk, OneOpen, RowsOk;
    if id in sys.rows {
      RowIsOk(sys, s, id);
    }
  }

  /** A review is reached only from a wait that the latest check ended by seeing the challenge. */
  lemma ReviewOnlyByCheck(sys: System, s: Settings, step: Step, id: Id)
    requires Inv(sys, s) && Enabled(sys, step)
    requires id in Apply(sys, s, step).rows && Apply(sys, s, step).rows[id].state.ReviewPending?
    ensures id in sys.rows
    ensures sys.rows[id].state.ReviewPending? ||
      (&& sys.rows[id].state.Pending? && step.CheckEnds? && step.check.id == id
       && step.check.generation == sys.rows[id].attempts
       && sys.rows[id].challenge.Some? && sys.rows[id].challenge.value in step.profile.hashes)
  {
    hide ChecksAfter, ChecksOk, OneOpen, RowsOk;
    if id in sys.rows {
      RowIsOk(sys, s, id);
    }
    if step.CheckEnds? {
      LiveCheckOk(sys, s, step.check);
    }
  }

  predicate ConfirmedAt(sys: System, s: Settings, steps: seq<Step>, n: nat, id: Id)
    requires n < |steps|
  {
    var before := After(sys, s, steps[..n]);
    && steps[n].CheckEnds? && steps[n].check.id == id
    && id in before.rows && before.rows[id].state.Pending? && steps[n].check.generation == before.rows[id].attempts
    && before.rows[id].challenge.Some? && before.rows[id].challenge.value in steps[n].profile.hashes
  }

  predicate ApprovedAt(steps: seq<Step>, n: nat, id: Id)
    requires n < |steps|
  {
    steps[n].OperatorDecides? && steps[n].id == id && steps[n].decision == Decision(true, true)
  }

  lemma PrefixOf(s: Settings, steps: seq<Step>)
    requires Execution(Empty, s, steps) && steps != []
    ensures Execution(Empty, s, steps[..|steps| - 1])
    ensures Enabled(After(Empty, s, steps[..|steps| - 1]), steps[|steps| - 1])
  {
    var earlier := steps[..|steps| - 1];
    forall n | 0 <= n < |earlier| ensures Enabled(After(Empty, s, earlier[..n]), earlier[n]) {
      assert earlier[..n] == steps[..n];
    }
  }

  /** Whoever is in review had a confirming check earlier in the execution. */
  lemma {:induction false} ReviewWasConfirmed(s: Settings, steps: seq<Step>, id: Id) returns (n: nat)
    requires Execution(Empty, s, steps)
    requires id in After(Empty, s, steps).rows && After(Empty, s, steps).rows[id].state.ReviewPending?
    ensures n < |steps| && ConfirmedAt(Empty, s, steps, n, id)
  {
    hide Apply, Enabled;
    var last := |steps| - 1;
    var earlier := steps[..last];
    PrefixOf(s, steps);
    ExecutionKeepsInvariant(s, earlier);
    var before := After(Empty, s, earlier);
    ReviewOnlyByCheck(before, s, steps[last], id);
    if before.rows[id].state.ReviewPending? {
      n := ReviewWasConfirmed(s, earlier, id);
      assert earlier[..n] == steps[..n];
    } else {
      n := last;
    }
  }

  /** Over whole executions: whoever is eligible had a confirming check and, after it, an approval. */
  lemma {:induction false} EligibleWasConfirmedAndApproved(s: Settings, steps: seq<Step>, id: Id) returns (confirmed: nat, approved: nat)
    requires Execution(Empty, s, steps)
    requires id in After(Empty, s, steps).rows && After(Empty, s, steps).rows[id].state.Eligible?
    ensures confirmed < approved < |steps|
    ensures ConfirmedAt(Empty, s, steps, confirmed, id) && ApprovedAt(steps, approved, id)
  {
    hide Apply, Enabled;
    var last := |steps| - 1;
    var earlier := steps[..last];
    PrefixOf(s, steps);
    ExecutionKeepsInvariant(s, earlier);
    var before := After(Empty, s, earlier);
    EligibleOnlyByApproval(before, s, steps[last], id);
    if before.rows[id].state.Eligible? {
      confirmed, approved := EligibleWasConfirmedAndApproved(s, earlier, id);
    } else {
      confirmed := ReviewWasConfirmed(s, earlier, id);
      approved := last;
    }
    assert earlier[..confirmed] == steps[..confirmed];
  }

  // ---------- What each transaction does ----------

  /** A row that ended without approval: it is revoked and its challenge is gone. */
  predicate ClosedAs(v: Verification, after: Verification, state: State, now: int) {
    after.state == state && after.revokedAt == Some(now) && after.challenge == None
    && after.user == v.user && after.identifier == v.identifier && after.attempts == v.attempts && after.confirmedAt == v.confirmedAt
  }

  /** Only the row `id` may differ. */
  predicate OnlyRow(rows: Rows, after: Rows, id: Id) {
    after.Keys == rows.Keys && forall k | k in rows && k != id :: after[k] == rows[k]
  }

  /** What a user is shown: the stage while its time lasts, that it lapsed, or that it is over. */
  lemma PublicStatusIs(v: Verification, now: int)
    ensures PublicStatus(v, now) == PendingControl <==> v.state == Pending && now < v.challengeExpires
    ensures PublicStatus(v, now) == InReview <==> v.state == ReviewPending && (v.reviewExpires == None || now < v.reviewExpires.value)
    ensures PublicStatus(v, now) == Approved <==> v.state == Eligible && now < v.expires
    ensures PublicStatus(v, now) == Unavailable <==>
      v.state in {Ineligible, VerificationFailed, Expired, Superseded, Suppressed} && now < v.expires
  {}

  /** A check starts exactly for the owner of a verification that awaits control, before its
      challenge expires, unsuppressed, with an attempt left, and after the cooldown; it is then the
      next attempt and carries the challenge. Every other reply names the first reason. */
  lemma StartCheckEffect(rows: Rows, s: Settings, now: int, id: Id, user: Id, suppressed: bool)
    ensures var (after, reply) := StartCheck(rows, s, now, id, user, suppressed);
      && OnlyRow(rows, after, id)
      && (reply == NotFound <==> id !in rows || rows[id].user != user)
      && (reply != NotFound ==>
            var v, got := rows[id], after[id];
            var waiting := v.state == Pending && now < v.challengeExpires;
            && (reply == ResultUnavailable <==> waiting && suppressed)
            && (reply == AttemptsExhausted <==> waiting && !suppressed && v.attempts >= s.maxAttempts)
            && (reply == CoolingDown <==>
                  waiting && !suppressed && v.attempts < s.maxAttempts && v.lastChecked != None && now < v.lastChecked.value + s.cooldown)
            && (reply.Started? <==>
                  waiting && !suppressed && v.attempts < s.maxAttempts && (v.lastChecked == None || now >= v.lastChecked.value + s.cooldown))
            && (reply == Shown(InReview) <==>
                  v.state == ReviewPending && (v.reviewExpires == None || now < v.reviewExpires.value))
            && (reply == Shown(Approved) <==> v.state == Eligible && now < v.expires)
            && (reply == ResultUnavailable ==> ClosedAs(v, got, Suppressed, now))
            && (reply == AttemptsExhausted ==> ClosedAs(v, got, VerificationFailed, now))
            && (reply.Started? ==>
                  && reply.check == Check(id, v.attempts + 1, v.challenge)
                  && got == v.(attempts := v.attempts + 1, lastChecked := Some(now)))
            && (reply in {CoolingDown, Shown(InReview), Shown(Approved), NoLongerAvailable} ==> got == v)
            && (reply in {NotFound, ResultUnavailable, AttemptsExhausted, CoolingDown, Shown(InReview), Shown(Approved), NoLongerAvailable}
                || reply.Started?))
  {}

  /** A check ends a wait exactly when it is the latest: as expired, suppressed, confirmed or failed,
      in that order; otherwise nothing changes. */
  lemma FinishCheckEffect(rows: Rows, s: Settings, now: int, check: Check, profile: Profile, suppressed: bool)
    ensures var (after, reply) := FinishCheck(rows, s, now, check, profile, suppressed);
      && OnlyRow(rows, after, check.id)
      && (reply == NotFound <==> check.id !in rows)
      && (check.id in rows ==> reply == Shown(PublicStatus(after[check.id], now)))
      && (check.id in rows ==>
            var v, got := rows[check.id], after[check.id];
            var seen := check.challenge != None && check.challenge.value in profile.hashes;
            if v.state != Pending || v.attempts != check.generation then got == v
            else if now >= v.challengeExpires then ClosedAs(v, got, Expired, now)
            else if suppressed then ClosedAs(v, got, Suppressed, now)
            else if seen then
              && got.state == ReviewPending && got.subject == Some(profile.account) && got.confirmedAt == Some(now)
              && got.reviewExpires == Some(now + s.reviewTtl) && got.expires == now + s.reviewTtl && got.challenge == None
              && got.attempts == v.attempts && got.user == v.user && got.identifier == v.identifier
            else if v.attempts >= s.maxAttempts then ClosedAs(v, got, VerificationFailed, now) && got.expires == now
            else got == v)
  {}

  /** A decision takes effect exactly on a verification in review whose time is not over; an approval
      also needs the reviewer's code. An approval makes it eligible for the configured time. */
  lemma DecideEffect(rows: Rows, s: Settings, now: int, id: Id, decision: Decision, suppressed: bool)
    ensures var (after, reply) := Decide(rows, s, now, id, decision, suppressed);
      && OnlyRow(rows, after, id)
      && (reply == NotFound <==> id !in rows)
      && (id in rows ==>
            var v, got := rows[id], after[id];
            var open := v.state == ReviewPending && v.subject != None && (v.reviewExpires == None || now < v.reviewExpires.value);
            && (reply == NotReady <==> !open && !(v.state == Eligible && decision.approve))
            && (reply == InvalidDecision <==> open && !suppressed && !decision.codeMatches)
            && (if !open then got == v
                else if suppressed then ClosedAs(v, got, Suppressed, now)
                else if !decision.codeMatches then got == v
                else if decision.approve then
                  got == v.(state := Eligible, approvedAt := Some(now), expires := now + s.approvalTtl, revokedAt := None)
                else got == v.(state := Ineligible, revokedAt := Some(now), expires := now)))
  {}

  /** A new verification awaits control with its challenge, and replaces exactly the open ones of the
      same user and identifier; a suppressed identifier gets none. */
  lemma CreateEffect(rows: Rows, s: Settings, now: int, id: Id, user: Id, identifier: Id, challenge: Hash, suppressed: bool)
    ensures var after := Create(rows, s, now, id, user, identifier, challenge, suppressed);
      if suppressed then after == rows
      else
        && after.Keys == rows.Keys + {id}
        && after[id].state == Pending && after[id].user == user && after[id].identifier == identifier
        && after[id].challenge == Some(challenge) && after[id].challengeExpires == now + s.challengeTtl
        && after[id].attempts == 0 && after[id].confirmedAt == None && after[id].approvedAt == None && after[id].revokedAt == None
        && forall k | k in rows && k != id ::
             if rows[k].user == user && rows[k].identifier == identifier && rows[k].state in {Pending, ReviewPending} && rows[k].revokedAt == None
             then ClosedAs(rows[k], after[k], Superseded, now)
             else after[k] == rows[k]
  {}

  /** Suppressing an identifier closes exactly its verifications that were not revoked. */
  lemma SuppressEffect(rows: Rows, identifier: Id, now: int)
    ensures var after := Suppress(rows, identifier, now);
      && after.Keys == rows.Keys
      && forall k | k in rows ::
           if rows[k].identifier == identifier && rows[k].revokedAt == None then ClosedAs(rows[k], after[k], Suppressed, now)
           else after[k] == rows[k]
  {}

  // ---------- A call after the last attempt ----------

  /** A call that starts a check ends the wait exactly when the identifier is suppressed or the
      attempts are used up, and the latter whether or not the last check is still under way. */
  lemma StartEndsWaitExactlyWhen(rows: Rows, s: Settings, now: int, id: Id, user: Id, suppressed: bool)
    requires id in rows && rows[id].state.Pending?
    ensures StartCheck(rows, s, now, id, user, suppressed).0[id].state.Pending? <==>
            !(rows[id].user == user && !IsExpired(rows[id], now) && (suppressed || rows[id].attempts >= s.maxAttempts))
  {}

  /** So a further call can end a verification while its last allowed check is still under
      way, and that check then changes nothing although it saw the challenge. */
  lemma FurtherCallPreemptsLastCheck(s: Settings)
    requires s.maxAttempts == 1 && s.challengeTtl == 600
    ensures var check := Check(1, 1, Some(7));
      var start := CheckStarts(1, 5, 10, false);
      var steps := [UserCreates(1, 5, 9, 7, 0, false), start, start];
      var sys := After(Empty, s, steps);
      && Execution(Empty, s, steps)
      && check in sys.checks && 1 in sys.rows
      && sys.rows[1].state.VerificationFailed?
      && Apply(sys, s, CheckEnds(check, Profile({7}, 3), 20, false)).rows == sys.rows
  {
    var start := CheckStarts(1, 5, 10, false);
    var steps := [UserCreates(1, 5, 9, 7, 0, false), start, start];
    AfterNext(Empty, s, steps, 0);
    AfterNext(Empty, s, steps, 1);
    AfterNext(Empty, s, steps, 2);
    hide After;
    assert steps[..3] == steps;
    assert After(Empty, s, steps[..2]).checks == multiset{Check(1, 1, Some(7))};
  }

  lemma AfterNext(sys: System, s: Settings, steps: seq<Step>, n: nat)
    requires n < |steps|
    ensures After(sys, s, steps[..n + 1]) == Apply(After(sys, s, steps[..n]), s, steps[n])
    ensures After(sys, s, steps[..0]) == sys
  {
    assert steps[..n + 1][..n] == steps[..n];
  }
}
