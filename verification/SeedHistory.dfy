/** The history of searches as footprint jobs write them: groups are folded handles. */
module SeedHistory {
  import opened Wrappers
  import opened History
  import ProfileUrls
  import Seeds = SeedNormalization

  /** The row holds a normalized seed, column by column. */
  ghost predicate Written(j: Job, t: Seeds.Texts) {
    exists s: Seeds.Seed ::
      && Seeds.Normalize(s, t).Some?
      && var n := Seeds.Normalize(s, t).value;
         j.platform == n.platform && j.normalizedSeed == Some(n.normalizedSeed) && j.identifier == Some(n.identifier)
  }

  function Handle(j: Job, t: Seeds.Texts): string {
    t.fold(if j.identifier.Some? then j.identifier.value else "")
  }

  lemma SeedTextIs(s: Seeds.Seed, t: Seeds.Texts)
    requires Seeds.Normalize(s, t).Some?
    ensures var n := Seeds.Normalize(s, t).value;
      && n.platform != Some("")
      && n.normalizedSeed == (if n.platform.Some? then n.platform.value else "*") + SEPARATOR + t.fold(n.identifier)
  {
    hide Seeds.NormalizeHandle, Seeds.PlatformKey, Seeds.Agrees, ProfileUrls.Canonicalize, Seeds.Supported, Seeds.Name;
    SupportedIsNamed();
  }

  lemma SupportedIsNamed()
    ensures !Seeds.Supported("") && forall p :: Seeds.Name(p) != ""
  {}

  /** A written row has both keys, and they are its folded handle. */
  lemma WrittenKeys(j: Job, t: Seeds.Texts, x: Texts)
    requires Written(j, t)
    ensures WellSeeded(j) && SqlKey(j, x) == Some(Handle(j, t)) && HandleValue(j, x) == Handle(j, t)
  {
    hide Seeds.Normalize;
    var s: Seeds.Seed :|
      && Seeds.Normalize(s, t).Some?
      && var n := Seeds.Normalize(s, t).value;
         j.platform == n.platform && j.normalizedSeed == Some(n.normalizedSeed) && j.identifier == Some(n.identifier);
    SeedTextIs(s, t);
    var seed := j.normalizedSeed.value;
    assert seed == Prefix(j) + Handle(j, t);
    assert seed[..|Prefix(j)|] == Prefix(j) && seed[|Prefix(j)|..] == Handle(j, t);
    KeysAgree(j, x);
  }

  /** When the user's visible rows are as footprint jobs write them, the pages of related runs of
      a row list exactly the visible runs with its folded handle, on whatever platform, each
      once, newest first, and as many as the count of its group says. */
  lemma RelatedRunsShareTheHandle(jobs: seq<Job>, j: Job, user: string, now: int, limit: nat, t: Seeds.Texts, x: Texts)
    requires DistinctIds(jobs) && limit > 0 && j in jobs && Visible(j, user, now)
    requires forall i | i in jobs && Visible(i, user, now) :: Written(i, t)
    ensures var rows := RelatedRows(jobs, j, user, now, x);
      var listed := Follow(rows, None, limit, |rows| + 1);
      && Descending(listed)
      && |listed| == Count(VisibleJobs(jobs, user, now), SqlKey(j, x), x)
      && forall i :: i in listed <==> i in jobs && Visible(i, user, now) && Handle(i, t) == Handle(j, t)
  {
    hide *;
    RelatedRunsAreTheGroup(jobs, j, user, now, limit, x);
    WrittenKeys(j, t, x);
    forall i | i in jobs && Visible(i, user, now)
      ensures SqlKey(i, x) == SqlKey(j, x) <==> Handle(i, t) == Handle(j, t)
    {
      WrittenKeys(i, t, x);
    }
  }
}
