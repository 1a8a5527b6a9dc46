/** A user's search history: jobs grouped by handle, listed newest first in pages, and the runs
    of one group listed in pages of their own. */
module History {
  import opened Wrappers

  datatype JobStatus = Open | Ready | ReadyPartial | NoCandidates | Failed | Cancelled

  datatype Job = Job(
    id: string, user: string, discovery: bool, acceptedAt: int, expiresAt: int, status: JobStatus,
    platform: Option<string>, normalizedSeed: Option<string>, identifier: Option<string>)

  // ---------- Order ----------

  predicate Less(s: string, t: string) {
    t != "" && (s == "" || s[0] < t[0] || (s[0] == t[0] && Less(s[1..], t[1..])))
  }

  lemma {:induction false} LessIsStrict(s: string, t: string)
    ensures !(Less(s, t) && Less(t, s)) && !Less(s, s)
    ensures Less(s, t) || Less(t, s) || s == t
  {
    if s != "" {
      LessIsStrict(s[1..], s[1..]);
      if t != "" {
        LessIsStrict(s[1..], t[1..]);
        assert s == [s[0]] + s[1..] && t == [t[0]] + t[1..];
      }
    }
  }

  lemma {:induction false} LessIsTransitive(r: string, s: string, t: string)
    requires Less(r, s) && Less(s, t)
    ensures Less(r, t)
  {
    if r != "" && r[0] == s[0] && s[0] == t[0] {
      LessIsTransitive(r[1..], s[1..], t[1..]);
    }
  }

  /** A position in the listing: newer first, and larger ids first among equals. */
  datatype Cursor = Cursor(time: int, id: string)

  /** `a` is listed before `b`. */
  predicate Before(a: Cursor, b: Cursor) {
    a.time > b.time || (a.time == b.time && Less(b.id, a.id))
  }

  function At(j: Job): Cursor {
    Cursor(j.acceptedAt, j.id)
  }

  lemma BeforeIsStrict(a: Cursor, b: Cursor)
    ensures !(Before(a, b) && Before(b, a)) && !Before(a, a)
    ensures Before(a, b) || Before(b, a) || a == b
  {
    LessIsStrict(a.id, b.id);
    LessIsStrict(a.id, a.id);
  }

  lemma BeforeIsTransitive(a: Cursor, b: Cursor, c: Cursor)
    requires Before(a, b) && Before(b, c)
    ensures Before(a, c)
  {
    if a.time == b.time == c.time {
      LessIsTransitive(c.id, b.id, a.id);
    }
  }

  predicate Descending(jobs: seq<Job>) {
    forall i, j | 0 <= i < j < |jobs| :: Before(At(jobs[i]), At(jobs[j]))
  }

  predicate DistinctIds(jobs: seq<Job>) {
    forall i, j | 0 <= i < j < |jobs| :: jobs[i].id != jobs[j].id
  }

  // ---------- `order by accepted_at desc, id desc` ----------

  function Insert(j: Job, sorted: seq<Job>): seq<Job> {
    if sorted == [] || Before(At(j), At(sorted[0])) then [j] + sorted else [sorted[0]] + Insert(j, sorted[1..])
  }

  function Sort(jobs: seq<Job>): seq<Job> {
    if jobs == [] then [] else Insert(jobs[0], Sort(jobs[1..]))
  }

  lemma {:induction false} InsertKeeps(j: Job, sorted: seq<Job>)
    ensures multiset(Insert(j, sorted)) == multiset(sorted) + multiset{j}
  {
    if sorted != [] && !Before(At(j), At(sorted[0])) {
      InsertKeeps(j, sorted[1..]);
      assert sorted == [sorted[0]] + sorted[1..];
    }
  }

  lemma {:induction false} InsertDescends(j: Job, sorted: seq<Job>)
    requires Descending(sorted) && forall i | 0 <= i < |sorted| :: sorted[i].id != j.id
    ensures Descending(Insert(j, sorted))
  {
    if sorted == [] {
    } else if Before(At(j), At(sorted[0])) {
      forall i | 0 < i < |sorted| ensures Before(At(j), At(sorted[i])) {
        BeforeIsTransitive(At(j), At(sorted[0]), At(sorted[i]));
      }
    } else {
      InsertDescends(j, sorted[1..]);
      InsertKeeps(j, sorted[1..]);
      BeforeIsStrict(At(j), At(sorted[0]));
      var rest := Insert(j, sorted[1..]);
      forall i | 0 <= i < |rest| ensures Before(At(sorted[0]), At(rest[i])) {
        assert rest[i] in multiset(rest);
        if rest[i] != j {
          assert rest[i] in sorted[1..];
        }
      }
    }
  }

  lemma {:induction false} SortSorts(jobs: seq<Job>)
    requires DistinctIds(jobs)
    ensures Descending(Sort(jobs)) && multiset(Sort(jobs)) == multiset(jobs)
    ensures |Sort(jobs)| == |jobs|
  {
    hide Insert, Before;
    if jobs != [] {
      assert jobs == [jobs[0]] + jobs[1..];
      PrependDistinct(jobs, jobs[1..]);
      SortSorts(jobs[1..]);
      var rest := Sort(jobs[1..]);
      forall i | 0 <= i < |rest| ensures rest[i].id != jobs[0].id {
        assert rest[i] in multiset(jobs[1..]);
        var k :| 0 <= k < |jobs| - 1 && jobs[1..][k] == rest[i];
        assert jobs[k + 1] == rest[i];
      }
      InsertDescends(jobs[0], rest);
      InsertKeeps(jobs[0], rest);
    }
    SameSize(Sort(jobs), jobs);
  }

  lemma SameSize(s: seq<Job>, t: seq<Job>)
    requires multiset(s) == multiset(t)
    ensures |s| == |t|
  {
    assert |multiset(s)| == |s| && |multiset(t)| == |t|;
  }

  lemma SortHas(jobs: seq<Job>, j: Job)
    requires DistinctIds(jobs)
    ensures j in Sort(jobs) <==> j in jobs
  {
    SortSorts(jobs);
    assert j in Sort(jobs) <==> j in multiset(Sort(jobs));
    assert j in jobs <==> j in multiset(jobs);
  }

  /** A set of jobs has one descending listing. */
  lemma {:induction false} ListingIsUnique(s: seq<Job>, t: seq<Job>)
    requires Descending(s) && Descending(t)
    requires forall j :: j in s <==> j in t
    ensures s == t
  {
    assert |t| > 0 ==> t[0] in s;
    assert |s| > 0 ==> s[0] in t;
    if s != [] {
      FirstIsSame(s, t);
      forall j
        ensures j in s[1..] <==> j in t[1..]
      {
        InRest(s, j);
        InRest(t, j);
      }
      ListingIsUnique(s[1..], t[1..]);
      assert s == [s[0]] + s[1..] && t == [t[0]] + t[1..];
    }
  }

  lemma FirstIsSame(s: seq<Job>, t: seq<Job>)
    requires Descending(s) && Descending(t) && s != [] && t != []
    requires forall j :: j in s <==> j in t
    ensures s[0] == t[0]
  {
    assert s[0] in t && t[0] in s;
    BeforeIsStrict(At(s[0]), At(t[0]));
  }

  lemma InRest(s: seq<Job>, j: Job)
    requires Descending(s) && s != []
    ensures j in s[1..] <==> j in s && j != s[0]
  {
    BeforeIsStrict(At(s[0]), At(s[0]));
    assert s == [s[0]] + s[1..];
  }

  // ---------- Keyset pages ----------

  /** The filter that a decoded cursor adds. */
  predicate AfterCursor(j: Job, c: Option<Cursor>) {
    c.None? || j.acceptedAt < c.value.time || (j.acceptedAt == c.value.time && Less(j.id, c.value.id))
  }

  function Remaining(jobs: seq<Job>, c: Option<Cursor>): seq<Job> {
    if jobs == [] then []
    else (if AfterCursor(jobs[0], c) then [jobs[0]] else []) + Remaining(jobs[1..], c)
  }

  lemma {:induction false} RemainingIs(jobs: seq<Job>, c: Option<Cursor>)
    ensures forall j :: j in Remaining(jobs, c) <==> j in jobs && AfterCursor(j, c)
    ensures |Remaining(jobs, c)| <= |jobs|
    ensures DistinctIds(jobs) ==> DistinctIds(Remaining(jobs, c))
  {
    hide AfterCursor;
    if jobs != [] {
      RemainingIs(jobs[1..], c);
      assert jobs == [jobs[0]] + jobs[1..];
      if DistinctIds(jobs) {
        PrependDistinct(jobs, Remaining(jobs[1..], c));
      }
    }
  }

  /** Leaving out later rows keeps ids distinct. */
  lemma PrependDistinct(jobs: seq<Job>, rest: seq<Job>)
    requires jobs != [] && DistinctIds(jobs)
    requires forall j | j in rest :: j in jobs[1..]
    ensures DistinctIds(jobs[1..])
    ensures DistinctIds(rest) ==> DistinctIds([jobs[0]] + rest)
  {
    assert forall j | j in jobs[1..] :: j.id != jobs[0].id;
    assert forall i | 0 <= i < |rest| :: rest[i] in jobs[1..];
  }

  datatype Page = Page(items: seq<Job>, next: Option<Cursor>)

  function First(jobs: seq<Job>, count: nat): seq<Job> {
    if |jobs| <= count then jobs else jobs[..count]
  }

  /** One page: fetch one row more than asked for, to know whether there is another page. */
  function PageOf(jobs: seq<Job>, c: Option<Cursor>, limit: nat): Page
    requires limit > 0
  {
    var rows := First(Sort(Remaining(jobs, c)), limit + 1);
    var items := First(rows, limit);
    Page(items, if |rows| > limit && items != [] then Some(At(items[|items| - 1])) else None)
  }

  /** Follow the cursors from page to page, at most `fuel` times. */
  function Follow(jobs: seq<Job>, c: Option<Cursor>, limit: nat, fuel: nat): (listed: seq<Job>)
    requires limit > 0
    decreases fuel
  {
    if fuel == 0 then []
    else
      var page := PageOf(jobs, c, limit);
      page.items + (if page.next.None? then [] else Follow(jobs, page.next, limit, fuel - 1))
  }

  /** Past the last item of a page lies exactly the rest of the listing. */
  lemma RestOfListing(jobs: seq<Job>, c: Option<Cursor>, k: nat)
    requires DistinctIds(jobs)
    requires 0 < k <= |Sort(Remaining(jobs, c))|
    ensures Sort(Remaining(jobs, Some(At(Sort(Remaining(jobs, c))[k - 1])))) == Sort(Remaining(jobs, c))[k..]
  {
    var sorted := Sort(Remaining(jobs, c));
    var last := Some(At(sorted[k - 1]));
    RemainingIs(jobs, c);
    RemainingIs(jobs, last);
    SortSorts(Remaining(jobs, c));
    SortSorts(Remaining(jobs, last));
    forall j
      ensures j in sorted <==> j in Remaining(jobs, c)
    {
      SortHas(Remaining(jobs, c), j);
    }
    forall j
      ensures j in Sort(Remaining(jobs, last)) <==> j in sorted[k..]
    {
      SortHas(Remaining(jobs, last), j);
      CursorCuts(sorted, c, k, j);
    }
    ListingIsUnique(Sort(Remaining(jobs, last)), sorted[k..]);
  }

  lemma CursorCuts(sorted: seq<Job>, c: Option<Cursor>, k: nat, j: Job)
    requires Descending(sorted) && 0 < k <= |sorted|
    requires forall s | s in sorted :: AfterCursor(s, c)
    ensures j in sorted[k..] <==> j in sorted && AfterCursor(j, Some(At(sorted[k - 1])))
    ensures AfterCursor(j, Some(At(sorted[k - 1]))) ==> AfterCursor(j, c)
  {
    var last := At(sorted[k - 1]);
    assert AfterCursor(j, Some(last)) <==> Before(last, At(j));
    if j in sorted {
      var i :| 0 <= i < |sorted| && sorted[i] == j;
      BeforeIsStrict(last, At(j));
      if i >= k {
        assert sorted[k..][i - k] == j;
      }
    }
    if c.Some? {
      assert AfterCursor(sorted[k - 1], c);
      if Before(last, At(j)) {
        BeforeIsTransitive(c.value, last, At(j));
      }
    }
  }

  /** Following the cursors terminates and lists every row exactly once, in strictly descending
      order: the pages put together are the whole listing. */
  lemma {:induction false} PagesListEverything(jobs: seq<Job>, c: Option<Cursor>, limit: nat, fuel: nat)
    requires DistinctIds(jobs) && limit > 0
    requires fuel > |Remaining(jobs, c)|
    ensures Follow(jobs, c, limit, fuel) == Sort(Remaining(jobs, c))
    decreases fuel
  {
    hide Sort, Remaining, DistinctIds, Descending, PageOf;
    var sorted := Sort(Remaining(jobs, c));
    ListingSize(jobs, c);
    PageMeans(jobs, c, limit);
    if |sorted| > limit {
      RestOfListing(jobs, c, limit);
      var next := Some(At(sorted[limit - 1]));
      ListingSize(jobs, next);
      PagesListEverything(jobs, next, limit, fuel - 1);
      assert sorted == sorted[..limit] + sorted[limit..];
    }
  }

  lemma ListingSize(jobs: seq<Job>, c: Option<Cursor>)
    requires DistinctIds(jobs)
    ensures |Sort(Remaining(jobs, c))| == |Remaining(jobs, c)|
  {
    RemainingIs(jobs, c);
    SortSorts(Remaining(jobs, c));
  }

  /** A page is the next `limit` rows, with a cursor exactly when more rows follow. */
  lemma PageMeans(jobs: seq<Job>, c: Option<Cursor>, limit: nat)
    requires limit > 0
    ensures var sorted := Sort(Remaining(jobs, c));
      PageOf(jobs, c, limit) ==
        if |sorted| > limit then Page(sorted[..limit], Some(At(sorted[limit - 1]))) else Page(sorted, None)
  {
    hide Sort;
    var sorted := Sort(Remaining(jobs, c));
    if |sorted| > limit {
      assert sorted[..limit + 1][..limit] == sorted[..limit];
    }
  }

  // ---------- Groups ----------

  /** Text functions given from outside: lower-casing in the database, and the handle
      normalization of the application. */
  datatype Texts = Texts(lower: string -> string, fold: string -> string)

  predicate Visible(j: Job, user: string, now: int) {
    j.user == user && j.discovery && j.expiresAt > now
  }

  function VisibleJobs(jobs: seq<Job>, user: string, now: int): seq<Job> {
    if jobs == [] then []
    else (if Visible(jobs[0], user, now) then [jobs[0]] else []) + VisibleJobs(jobs[1..], user, now)
  }

  const SEPARATOR: string := ":handle:"

  function Drop(s: string, n: nat): string {
    if n <= |s| then s[n..] else ""
  }

  /** The grouping key as the database computes it. */
  function SqlKey(j: Job, x: Texts): Option<string> {
    match j.normalizedSeed
    case Some(seed) => Some(Drop(seed, (if j.platform.Some? then |j.platform.value| else 1) + |SEPARATOR|))
    case None => if j.identifier.Some? then Some(x.lower(j.identifier.value)) else None
  }

  function Prefix(j: Job): string {
    (if j.platform.Some? && j.platform.value != "" then j.platform.value else "*") + SEPARATOR
  }

  /** The stored seed starts with the platform and the separator. */
  predicate HasPrefix(j: Job) {
    && j.normalizedSeed.Some?
    && |Prefix(j)| <= |j.normalizedSeed.value|
    && j.normalizedSeed.value[..|Prefix(j)|] == Prefix(j)
  }

  predicate WellSeeded(j: Job) {
    j.platform != Some("") && HasPrefix(j)
  }

  /** The grouping key as the application computes it. */
  function HandleValue(j: Job, x: Texts): string {
    if HasPrefix(j) then j.normalizedSeed.value[|Prefix(j)|..]
    else x.fold(if j.identifier.Some? then j.identifier.value else "")
  }

  /** The application's key: what follows the platform and the separator in the stored seed, or
      else the folded identifier. */
  lemma HandleValueExactly(j: Job, x: Texts)
    ensures var platform := if j.platform in {None, Some("")} then "*" else j.platform.value;
      && (forall rest | j.normalizedSeed == Some(platform + ":handle:" + rest) :: HandleValue(j, x) == rest)
      && ((forall rest :: j.normalizedSeed != Some(platform + ":handle:" + rest)) ==>
            HandleValue(j, x) == x.fold(if j.identifier == None then "" else j.identifier.value))
  {
    var platform := if j.platform in {None, Some("")} then "*" else j.platform.value;
    forall rest | j.normalizedSeed == Some(platform + ":handle:" + rest)
      ensures HandleValue(j, x) == rest
    {
      assert j.normalizedSeed.value[..|Prefix(j)|] == Prefix(j);
      assert j.normalizedSeed.value[|Prefix(j)|..] == rest;
    }
    if HasPrefix(j) {
      var seed := j.normalizedSeed.value;
      assert seed == platform + ":handle:" + seed[|Prefix(j)|..];
    }
  }

  /** When the two keys of a job agree: with a seed that has the prefix, unless the platform is
      the empty text; with any other seed, if cutting it gives the folded identifier; without a
      seed, if there is an identifier and folding it is lower-casing it. */
  predicate KeysMatch(j: Job, x: Texts) {
    match (j.normalizedSeed, j.identifier)
    case (Some(seed), _) =>
      if HasPrefix(j) then j.platform != Some("")
      else Drop(seed, (if j.platform.Some? then |j.platform.value| else 1) + |SEPARATOR|) == x.fold(if j.identifier.Some? then j.identifier.value else "")
    case (None, Some(identifier)) => x.lower(identifier) == x.fold(identifier)
    case (None, None) => false
  }

  lemma KeysAgree(j: Job, x: Texts)
    ensures SqlKey(j, x) == Some(HandleValue(j, x)) <==> KeysMatch(j, x)
  {
    if HasPrefix(j) {
      assert |Prefix(j)| == (if j.platform.Some? && j.platform.value != "" then |j.platform.value| else 1) + |SEPARATOR|;
      assert j.platform == Some("") ==> |HandleValue(j, x)| + 1 == |SqlKey(j, x).value|;
    }
  }

  function Count(jobs: seq<Job>, key: Option<string>, x: Texts): nat {
    if jobs == [] then 0 else (if SqlKey(jobs[0], x) == key then 1 else 0) + Count(jobs[1..], key, x)
  }

  /** `row_number() over (partition by key order by ...) = 1` */
  predicate IsLatest(j: Job, jobs: seq<Job>, x: Texts) {
    forall i | 0 <= i < |jobs| :: SqlKey(jobs[i], x) == SqlKey(j, x) ==> !Before(At(jobs[i]), At(j))
  }

  function LatestOf(candidates: seq<Job>, jobs: seq<Job>, x: Texts): seq<Job> {
    if candidates == [] then []
    else (if IsLatest(candidates[0], jobs, x) then [candidates[0]] else []) + LatestOf(candidates[1..], jobs, x)
  }

  /** One job for each group: its newest. */
  function Representatives(jobs: seq<Job>, x: Texts): seq<Job> {
    LatestOf(jobs, jobs, x)
  }

  lemma {:induction false} LatestOfIs(candidates: seq<Job>, jobs: seq<Job>, x: Texts)
    ensures forall j :: j in LatestOf(candidates, jobs, x) <==> j in candidates && IsLatest(j, jobs, x)
    ensures DistinctIds(candidates) ==> DistinctIds(LatestOf(candidates, jobs, x))
  {
    hide IsLatest;
    if candidates != [] {
      LatestOfIs(candidates[1..], jobs, x);
      assert candidates == [candidates[0]] + candidates[1..];
      if DistinctIds(candidates) {
        PrependDistinct(candidates, LatestOf(candidates[1..], jobs, x));
      }
    }
  }

  predicate DistinctKeys(reps: seq<Job>, x: Texts) {
    forall i, j | 0 <= i < j < |reps| :: SqlKey(reps[i], x) != SqlKey(reps[j], x)
  }

  predicate Covers(reps: seq<Job>, jobs: seq<Job>, x: Texts) {
    forall j | j in jobs :: exists r | r in reps :: SqlKey(r, x) == SqlKey(j, x)
  }

  /** Representatives have distinct keys, and every job's key has one. */
  lemma RepresentativesAreGroups(jobs: seq<Job>, x: Texts)
    requires DistinctIds(jobs)
    ensures DistinctIds(Representatives(jobs, x))
    ensures DistinctKeys(Representatives(jobs, x), x) && Covers(Representatives(jobs, x), jobs, x)
    ensures forall r | r in Representatives(jobs, x) :: r in jobs
  {
    hide SqlKey;
    var reps := Representatives(jobs, x);
    LatestOfIs(jobs, jobs, x);
    forall i, j | 0 <= i < j < |reps|
      ensures SqlKey(reps[i], x) != SqlKey(reps[j], x)
    {
      assert reps[i] in jobs && reps[j] in jobs && reps[i].id != reps[j].id;
      BeforeIsStrict(At(reps[i]), At(reps[j]));
    }
    forall j | j in jobs
      ensures exists r | r in reps :: SqlKey(r, x) == SqlKey(j, x)
    {
      var r := LatestOfKey(jobs, jobs, j, x);
      assert r in reps;
    }
  }

  /** The newest of the `candidates` with the key of `j`, or `j` itself. */
  lemma {:induction false} LatestOfKey(candidates: seq<Job>, jobs: seq<Job>, j: Job, x: Texts) returns (r: Job)
    requires j in jobs && forall c | c in candidates :: c in jobs
    ensures r in jobs && SqlKey(r, x) == SqlKey(j, x)
    ensures forall i | 0 <= i < |candidates| :: SqlKey(candidates[i], x) == SqlKey(j, x) ==> !Before(At(candidates[i]), At(r))
  {
    hide SqlKey;
    if candidates == [] {
      r := j;
    } else {
      var rest := LatestOfKey(candidates[1..], jobs, j, x);
      var c := candidates[0];
      assert candidates == [c] + candidates[1..];
      r := if SqlKey(c, x) == SqlKey(j, x) && Before(At(c), At(rest)) then c else rest;
      BeforeIsStrict(At(c), At(c));
      forall i | 0 <= i < |candidates| && SqlKey(candidates[i], x) == SqlKey(j, x)
        ensures !Before(At(candidates[i]), At(r))
      {
        if i > 0 {
          assert candidates[i] == candidates[1..][i - 1];
          NotBeforeStays(At(candidates[i]), At(rest), At(c));
        }
      }
    }
  }

  lemma NotBeforeStays(a: Cursor, rest: Cursor, c: Cursor)
    requires !Before(a, rest)
    ensures Before(c, rest) ==> !Before(a, c)
  {
    if Before(c, rest) && Before(a, c) {
      BeforeIsTransitive(a, c, rest);
    }
  }

  function SumCounts(reps: seq<Job>, jobs: seq<Job>, x: Texts): nat {
    if reps == [] then 0 else Count(jobs, SqlKey(reps[0], x), x) + SumCounts(reps[1..], jobs, x)
  }

  function OtherKeys(jobs: seq<Job>, key: Option<string>, x: Texts): seq<Job> {
    if jobs == [] then []
    else (if SqlKey(jobs[0], x) == key then [] else [jobs[0]]) + OtherKeys(jobs[1..], key, x)
  }

  lemma {:induction false} OtherKeysAre(jobs: seq<Job>, key: Option<string>, x: Texts)
    ensures |jobs| == Count(jobs, key, x) + |OtherKeys(jobs, key, x)|
    ensures forall j :: j in OtherKeys(jobs, key, x) <==> j in jobs && SqlKey(j, x) != key
    ensures forall k | k != key :: Count(OtherKeys(jobs, key, x), k, x) == Count(jobs, k, x)
  {
    hide SqlKey;
    if jobs != [] {
      OtherKeysAre(jobs[1..], key, x);
      assert jobs == [jobs[0]] + jobs[1..];
      forall k | k != key
        ensures Count(OtherKeys(jobs, key, x), k, x) == Count(jobs, k, x)
      {
        if SqlKey(jobs[0], x) != key {
          assert OtherKeys(jobs, key, x)[1..] == OtherKeys(jobs[1..], key, x);
        } else {
          assert OtherKeys(jobs, key, x) == OtherKeys(jobs[1..], key, x);
        }
      }
    }
  }

  lemma {:induction false} SumOverOthers(reps: seq<Job>, jobs: seq<Job>, key: Option<string>, x: Texts)
    requires forall r | r in reps :: SqlKey(r, x) != key
    ensures SumCounts(reps, OtherKeys(jobs, key, x), x) == SumCounts(reps, jobs, x)
  {
    hide SqlKey, Count, OtherKeys;
    if reps != [] {
      OtherKeysAre(jobs, key, x);
      assert reps[0] in reps;
      SumOverOthers(reps[1..], jobs, key, x);
    }
  }

  /** Groups with distinct keys that cover all jobs count each job once. */
  lemma {:induction false} CountsAddUp(reps: seq<Job>, jobs: seq<Job>, x: Texts)
    requires DistinctKeys(reps, x) && Covers(reps, jobs, x)
    ensures SumCounts(reps, jobs, x) == |jobs|
  {
    hide SqlKey, Count, OtherKeys;
    assert |jobs| > 0 ==> jobs[0] in jobs;
    if reps != [] {
      var key := SqlKey(reps[0], x);
      var others := OtherKeys(jobs, key, x);
      OtherKeysAre(jobs, key, x);
      forall r | r in reps[1..] ensures SqlKey(r, x) != key {
        var i :| 0 <= i < |reps| - 1 && reps[1..][i] == r;
        assert r == reps[i + 1];
      }
      forall j | j in others
        ensures exists r | r in reps[1..] :: SqlKey(r, x) == SqlKey(j, x)
      {
        var r :| r in reps && SqlKey(r, x) == SqlKey(j, x);
        assert reps == [reps[0]] + reps[1..];
        assert r in reps[1..];
      }
      CountsAddUp(reps[1..], others, x);
      SumOverOthers(reps[1..], jobs, key, x);
    }
  }

  lemma {:induction false} VisibleJobsAre(jobs: seq<Job>, user: string, now: int)
    ensures forall j :: j in VisibleJobs(jobs, user, now) <==> j in jobs && Visible(j, user, now)
    ensures DistinctIds(jobs) ==> DistinctIds(VisibleJobs(jobs, user, now))
  {
    if jobs != [] {
      VisibleJobsAre(jobs[1..], user, now);
      assert jobs == [jobs[0]] + jobs[1..];
      if DistinctIds(jobs) {
        PrependDistinct(jobs, VisibleJobs(jobs[1..], user, now));
      }
    }
  }

  // ---------- The two listings ----------

  predicate ContainsText(text: string, part: string) {
    exists i | 0 <= i <= |text| :: StartsAt(text, i, part)
  }

  predicate StartsAt(text: string, i: nat, part: string)
    requires i <= |text|
  {
    i + |part| <= |text| && text[i..i + |part|] == part
  }

  /** Without a search text every group matches; a group without a key matches no text. */
  predicate Matches(j: Job, q: string, x: Texts) {
    q == "" || (SqlKey(j, x).Some? && ContainsText(SqlKey(j, x).value, q))
  }

  function Matching(jobs: seq<Job>, q: string, x: Texts): seq<Job> {
    if jobs == [] then [] else (if Matches(jobs[0], q, x) then [jobs[0]] else []) + Matching(jobs[1..], q, x)
  }

  lemma {:induction false} MatchingIs(jobs: seq<Job>, q: string, x: Texts)
    ensures forall j :: j in Matching(jobs, q, x) <==> j in jobs && Matches(j, q, x)
    ensures DistinctIds(jobs) ==> DistinctIds(Matching(jobs, q, x))
  {
    hide Matches;
    if jobs != [] {
      MatchingIs(jobs[1..], q, x);
      assert jobs == [jobs[0]] + jobs[1..];
      if DistinctIds(jobs) {
        PrependDistinct(jobs, Matching(jobs[1..], q, x));
      }
    }
  }

  lemma {:induction false} EverythingMatches(jobs: seq<Job>, x: Texts)
    ensures Matching(jobs, "", x) == jobs
  {
    if jobs != [] {
      EverythingMatches(jobs[1..], x);
      assert jobs == [jobs[0]] + jobs[1..];
    }
  }

  datatype Group = Group(representative: Job, runCount: nat)

  /** The rows of the group listing of a user. */
  function GroupRows(jobs: seq<Job>, user: string, now: int, q: string, x: Texts): seq<Job> {
    Matching(Representatives(VisibleJobs(jobs, user, now), x), q, x)
  }

  method ListGroups(jobs: seq<Job>, user: string, now: int, q: string, cursor: Option<Cursor>, limit: nat, x: Texts)
    returns (items: seq<Group>, next: Option<Cursor>)
    requires limit > 0
    ensures var page := PageOf(GroupRows(jobs, user, now, q, x), cursor, limit);
      && next == page.next
      && |items| == |page.items|
      && forall i | 0 <= i < |items| ::
           items[i] == Group(page.items[i], Count(VisibleJobs(jobs, user, now), SqlKey(page.items[i], x), x))
  {
    hide GroupRows, VisibleJobs, Sort, Remaining, Count, SqlKey;
    var rows := First(Sort(Remaining(GroupRows(jobs, user, now, q, x), cursor)), limit + 1);
    var more := |rows| > limit;
    var page := First(rows, limit);
    items := [];
    for i := 0 to |page|
      invariant |items| == i
      invariant forall j | 0 <= j < i :: items[j] == Group(page[j], Count(VisibleJobs(jobs, user, now), SqlKey(page[j], x), x))
    {
      items := items + [Group(page[i], Count(VisibleJobs(jobs, user, now), SqlKey(page[i], x), x))];
    }
    next := None;
    if more && page != [] {
      next := Some(At(page[|page| - 1]));
    }
  }

  function WithKey(jobs: seq<Job>, key: string, x: Texts): seq<Job> {
    if jobs == [] then []
    else (if SqlKey(jobs[0], x) == Some(key) then [jobs[0]] else []) + WithKey(jobs[1..], key, x)
  }

  /** The rows of the listing of related runs. */
  function RelatedRows(jobs: seq<Job>, representative: Job, user: string, now: int, x: Texts): seq<Job> {
    WithKey(VisibleJobs(jobs, user, now), HandleValue(representative, x), x)
  }

  datatype Related = JobNotFound | Runs(page: Page)

  predicate IsVisibleId(jobs: seq<Job>, id: string, user: string, now: int) {
    exists i | 0 <= i < |jobs| :: jobs[i].id == id && Visible(jobs[i], user, now)
  }

  method ListRelated(jobs: seq<Job>, id: string, user: string, now: int, cursor: Option<Cursor>, limit: nat, x: Texts)
    returns (r: Related)
    requires limit > 0 && DistinctIds(jobs)
    ensures r.JobNotFound? <==> !IsVisibleId(jobs, id, user, now)
    ensures forall j | j in jobs && j.id == id && Visible(j, user, now) ::
              r == Runs(PageOf(RelatedRows(jobs, j, user, now, x), cursor, limit))
  {
    var found := 0;
    while found < |jobs| && !(jobs[found].id == id && Visible(jobs[found], user, now))
      invariant 0 <= found <= |jobs|
      invariant forall i | 0 <= i < found :: !(jobs[i].id == id && Visible(jobs[i], user, now))
    {
      found := found + 1;
    }
    if found == |jobs| {
      return JobNotFound;
    }
    return Runs(PageOf(RelatedRows(jobs, jobs[found], user, now, x), cursor, limit));
  }

  lemma {:induction false} WithKeyIs(jobs: seq<Job>, key: string, x: Texts)
    ensures forall j :: j in WithKey(jobs, key, x) <==> j in jobs && SqlKey(j, x) == Some(key)
    ensures |WithKey(jobs, key, x)| == Count(jobs, Some(key), x)
    ensures DistinctIds(jobs) ==> DistinctIds(WithKey(jobs, key, x))
  {
    hide SqlKey;
    if jobs != [] {
      WithKeyIs(jobs[1..], key, x);
      assert jobs == [jobs[0]] + jobs[1..];
      if DistinctIds(jobs) {
        PrependDistinct(jobs, WithKey(jobs[1..], key, x));
      }
    }
  }

  // ---------- Main results ----------

  /** The pages of the group listing, put together, list every matching group exactly once and
      newest first. */
  lemma GroupPagesAreComplete(jobs: seq<Job>, user: string, now: int, q: string, limit: nat, x: Texts)
    requires DistinctIds(jobs) && limit > 0
    ensures var rows := GroupRows(jobs, user, now, q, x);
      var listed := Follow(rows, None, limit, |rows| + 1);
      && Descending(listed)
      && (forall j :: j in listed <==>
            j in jobs && Visible(j, user, now) && IsLatest(j, VisibleJobs(jobs, user, now), x) && Matches(j, q, x))
  {
    hide Sort, Descending, Follow, IsLatest, Matches, Visible;
    var visible := VisibleJobs(jobs, user, now);
    var rows := GroupRows(jobs, user, now, q, x);
    VisibleJobsAre(jobs, user, now);
    LatestOfIs(visible, visible, x);
    MatchingIs(Representatives(visible, x), q, x);
    NoCursor(rows);
    PagesListEverything(rows, None, limit, |rows| + 1);
    SortSorts(rows);
    forall j
      ensures j in Sort(rows) <==> j in rows
    {
      SortHas(rows, j);
    }
  }

  /** Lexicographic order of ids. */
  predicate Precedes(s: string, t: string) {
    exists k | 0 <= k <= |s| && k <= |t| ::
      s[..k] == t[..k] && k < |t| && (k == |s| || s[k] < t[k])
  }

  lemma {:induction false} LessExactly(s: string, t: string)
    ensures Less(s, t) <==> Precedes(s, t)
  {
    if s == "" || t == "" {
      assert s[..0] == t[..0];
    } else {
      LessExactly(s[1..], t[1..]);
      forall k | 0 < k <= |s| && k <= |t| && s[..k] == t[..k]
        ensures s[0] == t[0]
      {
        assert s[..k][0] == s[0] && t[..k][0] == t[0];
      }
      if s[0] == t[0] {
        SameFirst(s, t);
      } else {
        assert s[..0] == t[..0];
      }
    }
  }

  lemma SameFirst(s: string, t: string)
    requires s != "" && t != "" && s[0] == t[0]
    ensures Precedes(s, t) <==> Precedes(s[1..], t[1..])
  {
    if k :| 0 <= k <= |s| && k <= |t| && s[..k] == t[..k] && k < |t| && (k == |s| || s[k] < t[k]) {
      if k > 0 {
        assert s[1..][..k - 1] == s[..k][1..] && t[1..][..k - 1] == t[..k][1..];
      }
    }
    if k :| 0 <= k < |s| && k < |t| && s[1..][..k] == t[1..][..k] && k < |t| - 1 && (k == |s| - 1 || s[1..][k] < t[1..][k]) {
      assert s[..k + 1] == [s[0]] + s[1..][..k] && t[..k + 1] == [t[0]] + t[1..][..k];
    }
  }

  /** Newest first, and among equally old ones the larger id first. */
  predicate NewestFirst(jobs: seq<Job>) {
    forall i, j | 0 <= i < j < |jobs| ::
      || jobs[i].acceptedAt > jobs[j].acceptedAt
      || (jobs[i].acceptedAt == jobs[j].acceptedAt && Precedes(jobs[j].id, jobs[i].id))
  }

  lemma DescendingIs(jobs: seq<Job>)
    ensures Descending(jobs) <==> NewestFirst(jobs)
  {
    hide Less, Precedes;
    forall s, t ensures Less(s, t) <==> Precedes(s, t) {
      LessExactly(s, t);
    }
  }

  predicate ShownTo(j: Job, user: string, now: int) {
    j.user == user && j.discovery && now < j.expiresAt
  }

  /** The group listing, spelled out: from all visible searches with one key the newest is listed,
      if its key contains the search text. */
  lemma GroupPagesExactly(jobs: seq<Job>, user: string, now: int, q: string, limit: nat, x: Texts)
    requires DistinctIds(jobs) && limit > 0
    ensures var rows := GroupRows(jobs, user, now, q, x);
      var listed := Follow(rows, None, limit, |rows| + 1);
      && NewestFirst(listed)
      && (forall j :: j in listed <==>
            && j in jobs && ShownTo(j, user, now)
            && (q == "" || (SqlKey(j, x).Some? && exists a, b :: SqlKey(j, x).value == a + q + b))
            && forall i | i in jobs && ShownTo(i, user, now) && SqlKey(i, x) == SqlKey(j, x) ::
                 || j == i || j.acceptedAt > i.acceptedAt
                 || (j.acceptedAt == i.acceptedAt && Precedes(i.id, j.id)))
  {
    hide Descending, Follow, NewestFirst, GroupRows, SqlKey, IsLatest, Matches, Precedes;
    GroupPagesAreComplete(jobs, user, now, q, limit, x);
    var rows := GroupRows(jobs, user, now, q, x);
    DescendingIs(Follow(rows, None, limit, |rows| + 1));
    forall j | j in jobs && Visible(j, user, now)
      ensures Matches(j, q, x) <==> q == "" || (SqlKey(j, x).Some? && exists a, b :: SqlKey(j, x).value == a + q + b)
      ensures IsLatest(j, VisibleJobs(jobs, user, now), x) <==>
        forall i | i in jobs && ShownTo(i, user, now) && SqlKey(i, x) == SqlKey(j, x) ::
          || j == i || j.acceptedAt > i.acceptedAt
          || (j.acceptedAt == i.acceptedAt && Precedes(i.id, j.id))
    {
      MatchesExactly(j, q, x);
      LatestExactly(jobs, j, user, now, x);
    }
  }

  lemma MatchesExactly(j: Job, q: string, x: Texts)
    ensures Matches(j, q, x) <==> q == "" || (SqlKey(j, x).Some? && exists a, b :: SqlKey(j, x).value == a + q + b)
  {
    hide SqlKey;
    if SqlKey(j, x).Some? {
      ContainsExactly(SqlKey(j, x).value, q);
    }
  }

  lemma ContainsExactly(text: string, part: string)
    ensures ContainsText(text, part) <==> exists a, b :: text == a + part + b
  {
    if i :| 0 <= i <= |text| && StartsAt(text, i, part) {
      assert text == text[..i] + part + text[i + |part|..];
    }
    if a, b :| text == a + part + b {
      assert text[|a|..|a| + |part|] == part;
      assert StartsAt(text, |a|, part);
    }
  }

  lemma LatestExactly(jobs: seq<Job>, j: Job, user: string, now: int, x: Texts)
    requires DistinctIds(jobs) && j in jobs && Visible(j, user, now)
    ensures IsLatest(j, VisibleJobs(jobs, user, now), x) <==>
      forall i | i in jobs && ShownTo(i, user, now) && SqlKey(i, x) == SqlKey(j, x) ::
        || j == i || j.acceptedAt > i.acceptedAt
        || (j.acceptedAt == i.acceptedAt && Precedes(i.id, j.id))
  {
    hide SqlKey, Less, Precedes;
    var visible := VisibleJobs(jobs, user, now);
    VisibleJobsAre(jobs, user, now);
    forall s, t ensures Less(s, t) <==> Precedes(s, t) {
      LessExactly(s, t);
    }
    forall i | i in jobs
      ensures j == i || i.id != j.id
      ensures Before(At(i), At(j)) || Before(At(j), At(i)) || i.id == j.id
      ensures !(Before(At(i), At(j)) && Before(At(j), At(i))) && !Before(At(j), At(j))
    {
      OneOfEachId(jobs, i, j);
      BeforeIsStrict(At(i), At(j));
      BeforeIsStrict(At(j), At(j));
    }
    assert forall k | 0 <= k < |visible| :: visible[k] in visible;
  }

  lemma OneOfEachId(jobs: seq<Job>, i: Job, j: Job)
    requires DistinctIds(jobs) && i in jobs && j in jobs
    ensures i == j || i.id != j.id
  {
    var a :| 0 <= a < |jobs| && jobs[a] == i;
    var b :| 0 <= b < |jobs| && jobs[b] == j;
  }

  lemma {:induction false} NoCursor(jobs: seq<Job>)
    ensures Remaining(jobs, None) == jobs
  {
    if jobs != [] {
      NoCursor(jobs[1..]);
      assert jobs == [jobs[0]] + jobs[1..];
    }
  }

  /** Without a search text the run counts of all groups add up to the visible jobs. */
  lemma RunCountsAddUp(jobs: seq<Job>, user: string, now: int, x: Texts)
    requires DistinctIds(jobs)
    ensures SumCounts(GroupRows(jobs, user, now, "", x), VisibleJobs(jobs, user, now), x) == |VisibleJobs(jobs, user, now)|
  {
    hide SqlKey, Count;
    var visible := VisibleJobs(jobs, user, now);
    VisibleJobsAre(jobs, user, now);
    RepresentativesAreGroups(visible, x);
    EverythingMatches(Representatives(visible, x), x);
    CountsAddUp(Representatives(visible, x), visible, x);
  }

  /** The related runs of a group are the runs its count counts, all of them and newest first,
      when the two keys of its representative agree; otherwise the representative itself is
      missing from its own listing. */
  lemma RelatedRunsAreTheGroup(jobs: seq<Job>, j: Job, user: string, now: int, limit: nat, x: Texts)
    requires DistinctIds(jobs) && limit > 0 && j in jobs && Visible(j, user, now)
    ensures var rows := RelatedRows(jobs, j, user, now, x);
      var listed := Follow(rows, None, limit, |rows| + 1);
      && Descending(listed)
      && (j in listed <==> SqlKey(j, x) == Some(HandleValue(j, x)))
      && (SqlKey(j, x) == Some(HandleValue(j, x)) ==>
            && |listed| == Count(VisibleJobs(jobs, user, now), SqlKey(j, x), x)
            && forall i :: i in listed <==> i in jobs && Visible(i, user, now) && SqlKey(i, x) == SqlKey(j, x))
  {
    hide Sort, Descending, Follow, Visible, SqlKey, HandleValue, Count;
    var visible := VisibleJobs(jobs, user, now);
    var rows := RelatedRows(jobs, j, user, now, x);
    VisibleJobsAre(jobs, user, now);
    WithKeyIs(visible, HandleValue(j, x), x);
    NoCursor(rows);
    PagesListEverything(rows, None, limit, |rows| + 1);
    SortSorts(rows);
    forall i
      ensures i in Sort(rows) <==> i in rows
    {
      SortHas(rows, i);
    }
  }

  // ---------- Clearing ----------

  predicate Clearable(j: Job, user: string) {
    j.user == user && j.discovery && !j.status.Open?
  }

  /** The finished searches of a user whose rows are not locked by someone else. */
  function ClearableJobs(jobs: seq<Job>, user: string, locked: set<string>): seq<Job> {
    if jobs == [] then []
    else
      (if Clearable(jobs[0], user) && jobs[0].id !in locked then [jobs[0]] else []) + ClearableJobs(jobs[1..], user, locked)
  }

  function WithoutIds(jobs: seq<Job>, ids: set<string>): seq<Job> {
    if jobs == [] then [] else (if jobs[0].id in ids then [] else [jobs[0]]) + WithoutIds(jobs[1..], ids)
  }

  function IdsOf(jobs: seq<Job>): set<string> {
    set j | j in jobs :: j.id
  }

  /** The jobs that one clearing request deletes: the newest ones, at most `limit`. */
  function Chosen(jobs: seq<Job>, user: string, locked: set<string>, limit: nat): seq<Job> {
    First(Sort(ClearableJobs(jobs, user, locked)), limit)
  }

  method ClearTerminal(jobs: seq<Job>, user: string, locked: set<string>, limit: nat)
    returns (rest: seq<Job>, deleted: nat, hasMore: bool)
    ensures rest == WithoutIds(jobs, IdsOf(Chosen(jobs, user, locked, limit)))
    ensures deleted == |Chosen(jobs, user, locked, limit)|
    ensures hasMore <==> exists j :: j in rest && Clearable(j, user)
  {
    hide Sort, ClearableJobs, Clearable;
    var chosen := Chosen(jobs, user, locked, limit);
    rest := jobs;
    KeepAll(jobs);
    for i := 0 to |chosen|
      invariant rest == WithoutIds(jobs, IdsOf(chosen[..i]))
    {
      DropOneMore(jobs, IdsOf(chosen[..i]), chosen[i].id);
      assert IdsOf(chosen[..i + 1]) == IdsOf(chosen[..i]) + {chosen[i].id};
      rest := WithoutIds(rest, {chosen[i].id});
    }
    assert chosen[..|chosen|] == chosen;
    hasMore := false;
    for i := 0 to |rest|
      invariant hasMore <==> exists k :: 0 <= k < i && Clearable(rest[k], user)
    {
      if Clearable(rest[i], user) {
        hasMore := true;
      }
    }
    deleted := |chosen|;
  }

  lemma {:induction false} KeepAll(jobs: seq<Job>)
    ensures WithoutIds(jobs, IdsOf([])) == jobs
  {
    if jobs != [] {
      KeepAll(jobs[1..]);
      assert jobs == [jobs[0]] + jobs[1..];
    }
  }

  lemma {:induction false} DropOneMore(jobs: seq<Job>, ids: set<string>, id: string)
    ensures WithoutIds(WithoutIds(jobs, ids), {id}) == WithoutIds(jobs, ids + {id})
  {
    if jobs != [] {
      DropOneMore(jobs[1..], ids, id);
      var rest := WithoutIds(jobs[1..], ids);
      if jobs[0].id !in ids {
        assert ([jobs[0]] + rest)[1..] == rest;
      } else {
        assert WithoutIds(jobs, ids) == rest;
      }
    }
  }

  lemma {:induction false} ClearableJobsAre(jobs: seq<Job>, user: string, locked: set<string>)
    ensures forall j :: j in ClearableJobs(jobs, user, locked) <==> j in jobs && Clearable(j, user) && j.id !in locked
    ensures DistinctIds(jobs) ==> DistinctIds(ClearableJobs(jobs, user, locked))
  {
    hide Clearable;
    if jobs != [] {
      ClearableJobsAre(jobs[1..], user, locked);
      assert jobs == [jobs[0]] + jobs[1..];
      if DistinctIds(jobs) {
        PrependDistinct(jobs, ClearableJobs(jobs[1..], user, locked));
      }
    }
  }

  lemma {:induction false} WithoutIdsAre(jobs: seq<Job>, ids: set<string>)
    ensures forall j :: j in WithoutIds(jobs, ids) <==> j in jobs && j.id !in ids
    ensures DistinctIds(jobs) ==> DistinctIds(WithoutIds(jobs, ids))
  {
    if jobs != [] {
      WithoutIdsAre(jobs[1..], ids);
      assert jobs == [jobs[0]] + jobs[1..];
      if DistinctIds(jobs) {
        PrependDistinct(jobs, WithoutIds(jobs[1..], ids));
      }
    }
  }

  /** A request deletes only finished searches of the user that are not locked, the newest of
      them, and as many as it may. Everything else stays. */
  lemma ClearingIsExact(jobs: seq<Job>, user: string, locked: set<string>, limit: nat)
    requires DistinctIds(jobs)
    ensures var chosen := Chosen(jobs, user, locked, limit);
      var all := ClearableJobs(jobs, user, locked);
      var rest := WithoutIds(jobs, IdsOf(chosen));
      && |chosen| == (if |all| <= limit then |all| else limit)
      && (forall j | j in chosen :: j in jobs && Clearable(j, user) && j.id !in locked)
      && (forall j, k | j in chosen && k in all && k !in chosen :: Before(At(j), At(k)))
      && (forall j :: j in rest <==> j in jobs && j !in chosen)
      && DistinctIds(rest)
  {
    hide Sort, Clearable, ClearableJobs, WithoutIds, Before;
    var all := ClearableJobs(jobs, user, locked);
    ClearableJobsAre(jobs, user, locked);
    SortSorts(all);
    var sorted := Sort(all);
    var chosen := Chosen(jobs, user, locked, limit);
    forall j ensures j in sorted <==> j in all {
      SortHas(all, j);
    }
    forall j, k | j in chosen && k in all && k !in chosen ensures Before(At(j), At(k)) {
      ChosenComeFirst(sorted, limit, j, k);
    }
    WithoutIdsAre(jobs, IdsOf(chosen));
    forall j | j in jobs ensures j.id in IdsOf(chosen) <==> j in chosen {
      SameIdSameJob(jobs, chosen, j);
    }
  }

  lemma ChosenComeFirst(sorted: seq<Job>, limit: nat, j: Job, k: Job)
    requires Descending(sorted) && j in First(sorted, limit) && k in sorted && k !in First(sorted, limit)
    ensures Before(At(j), At(k))
  {
    var a :| 0 <= a < |First(sorted, limit)| && First(sorted, limit)[a] == j;
    var b :| 0 <= b < |sorted| && sorted[b] == k;
    InFirst(sorted, limit, b);
  }

  lemma InFirst(sorted: seq<Job>, limit: nat, b: nat)
    requires b < |sorted|
    ensures b < limit ==> sorted[b] in First(sorted, limit)
  {
    assert b < limit && limit < |sorted| ==> sorted[..limit][b] == sorted[b];
  }

  lemma SameIdSameJob(jobs: seq<Job>, chosen: seq<Job>, j: Job)
    requires DistinctIds(jobs) && j in jobs && forall c | c in chosen :: c in jobs
    ensures j.id in IdsOf(chosen) <==> j in chosen
  {
    if j.id in IdsOf(chosen) {
      var c :| c in chosen && c.id == j.id;
      var a :| 0 <= a < |jobs| && jobs[a] == c;
      var b :| 0 <= b < |jobs| && jobs[b] == j;
      assert a == b;
    }
  }

  /** The searches left after `count` requests without locked rows. */
  function ClearRepeatedly(jobs: seq<Job>, user: string, limit: nat, count: nat): seq<Job> {
    if count == 0 then jobs
    else
      var earlier := ClearRepeatedly(jobs, user, limit, count - 1);
      WithoutIds(earlier, IdsOf(Chosen(earlier, user, {}, limit)))
  }

  /** Repeating the request clears the whole history: each one takes `limit` more until nothing
      finished is left. */
  lemma {:induction false} ClearingFinishes(jobs: seq<Job>, user: string, limit: nat, count: nat)
    requires DistinctIds(jobs)
    ensures var rest := ClearRepeatedly(jobs, user, limit, count);
      var before := |ClearableJobs(jobs, user, {})|;
      && DistinctIds(rest)
      && |ClearableJobs(rest, user, {})| == (if count * limit <= before then before - count * limit else 0)
      && forall j | !Clearable(j, user) :: j in rest <==> j in jobs
  {
    hide Sort, Clearable, ClearableJobs, WithoutIds, Before, DistinctIds, Chosen;
    if count > 0 {
      ClearingFinishes(jobs, user, limit, count - 1);
      var earlier := ClearRepeatedly(jobs, user, limit, count - 1);
      ClearingIsExact(earlier, user, {}, limit);
      ClearingCounts(earlier, user, limit);
      assert count * limit == (count - 1) * limit + limit;
    }
  }

  lemma ClearingCounts(jobs: seq<Job>, user: string, limit: nat)
    requires DistinctIds(jobs)
    ensures var before := |ClearableJobs(jobs, user, {})|;
      |ClearableJobs(WithoutIds(jobs, IdsOf(Chosen(jobs, user, {}, limit))), user, {})| == if before <= limit then 0 else before - limit
  {
    hide Sort, Clearable, ClearableJobs, WithoutIds, Before;
    var chosen := Chosen(jobs, user, {}, limit);
    var rest := WithoutIds(jobs, IdsOf(chosen));
    ClearingIsExact(jobs, user, {}, limit);
    ClearableJobsAre(jobs, user, {});
    ClearableJobsAre(rest, user, {});
    SortSorts(ClearableJobs(jobs, user, {}));
    forall j ensures j in Sort(ClearableJobs(jobs, user, {})) <==> j in ClearableJobs(jobs, user, {}) {
      SortHas(ClearableJobs(jobs, user, {}), j);
    }
    RestCount(Sort(ClearableJobs(jobs, user, {})), ClearableJobs(rest, user, {}), limit);
  }

  /** Distinct rows that are exactly those past the first `limit` of a listing. */
  lemma RestCount(sorted: seq<Job>, rest: seq<Job>, limit: nat)
    requires Descending(sorted) && DistinctIds(rest)
    requires forall j :: j in rest <==> j in sorted && j !in First(sorted, limit)
    ensures |rest| == if |sorted| <= limit then 0 else |sorted| - limit
  {
    SortSorts(rest);
    var tail := if |sorted| <= limit then [] else sorted[limit..];
    forall j ensures j in Sort(rest) <==> j in tail {
      SortHas(rest, j);
      InTail(sorted, limit, j);
    }
    ListingIsUnique(Sort(rest), tail);
  }

  lemma InTail(sorted: seq<Job>, limit: nat, j: Job)
    requires Descending(sorted)
    ensures j in (if |sorted| <= limit then [] else sorted[limit..]) <==> j in sorted && j !in First(sorted, limit)
  {
    if |sorted| > limit {
      assert sorted == sorted[..limit] + sorted[limit..];
      forall a, b | 0 <= a < limit <= b < |sorted|
        ensures sorted[a] != sorted[b]
      {
        assert Before(At(sorted[a]), At(sorted[b]));
        BeforeIsStrict(At(sorted[a]), At(sorted[b]));
      }
    }
  }
}
