/** Repairing the career timeline of a raw response before the data model reads it. */
module TimelineRepair {
  datatype Value =
    | Atom(text: string)
    | Nothing
    | Listing(items: seq<Value>)
    | Mapping(entries: map<string, Value>)

  const REQUIRED_KEYS: set<string> :=
    {"entry_type", "title", "currentness", "confidence", "basis", "explanation", "source_ids"}
  const ALLOWED_KEYS: set<string> := REQUIRED_KEYS + {"organization", "timeframe"}
  const MAX_ENTRIES: nat := 12

  function SetDefault(entries: map<string, Value>, key: string): map<string, Value> {
    if key in entries then entries else entries[key := Nothing]
  }

  function CleanEntry(entries: map<string, Value>): map<string, Value> {
    SetDefault(SetDefault(map k | k in entries && k in ALLOWED_KEYS :: entries[k], "organization"), "timeframe")
  }

  predicate Usable(entries: map<string, Value>) {
    && REQUIRED_KEYS <= entries.Keys
    && "source_ids" in entries
    && entries["source_ids"].Listing?
    && entries["source_ids"].items != []
  }

  /** The cleaned entry, unless the raw one cannot be used. */
  function RepairEntry(raw: Value): seq<Value> {
    if raw.Mapping? && Usable(CleanEntry(raw.entries)) then [Mapping(CleanEntry(raw.entries))] else []
  }

  function RepairEntries(raw: seq<Value>): seq<Value> {
    if raw == [] then [] else RepairEntries(raw[..|raw| - 1]) + RepairEntry(raw[|raw| - 1])
  }

  function FirstEntries(raw: seq<Value>): seq<Value> {
    if |raw| <= MAX_ENTRIES then raw else raw[..MAX_ENTRIES]
  }

  function RepairedTimeline(profile: map<string, Value>): seq<Value> {
    if "career_timeline" in profile && profile["career_timeline"].Listing?
    then RepairEntries(FirstEntries(profile["career_timeline"].items))
    else []
  }

  function Repaired(value: map<string, Value>): map<string, Value> {
    if "subject_profile" in value && value["subject_profile"].Mapping? then
      var profile := value["subject_profile"].entries;
      value["subject_profile" := Mapping(profile["career_timeline" := Listing(RepairedTimeline(profile))])]
    else value
  }

  method NormalizeExtensions(value: map<string, Value>) returns (normalized: map<string, Value>)
    ensures normalized == Repaired(value)
  {
    hide CleanEntry, Usable;
    normalized := value;
    if "subject_profile" !in value || !value["subject_profile"].Mapping? {
      return;
    }
    var profile := value["subject_profile"].entries;
    var items := [];
    if "career_timeline" in profile && profile["career_timeline"].Listing? {
      var raw := FirstEntries(profile["career_timeline"].items);
      for i := 0 to |raw|
        invariant items == RepairEntries(raw[..i])
      {
        assert raw[..i + 1][..i] == raw[..i];
        if !raw[i].Mapping? {
          continue;
        }
        var item := CleanEntry(raw[i].entries);
        if !Usable(item) {
          continue;
        }
        items := items + [Mapping(item)];
      }
      assert raw[..|raw|] == raw;
    }
    normalized := normalized["subject_profile" := Mapping(profile["career_timeline" := Listing(items)])];
  }

  // ---------- What repairing achieves ----------

  /** Exactly the allowed keys, and at least one citation. */
  predicate NormalEntry(v: Value) {
    v.Mapping? && v.entries.Keys == ALLOWED_KEYS && Usable(v.entries)
  }

  predicate NormalTimeline(v: Value) {
    v.Listing? && |v.items| <= MAX_ENTRIES && forall i | 0 <= i < |v.items| :: NormalEntry(v.items[i])
  }

  predicate Normal(value: map<string, Value>) {
    "subject_profile" in value && value["subject_profile"].Mapping? ==>
      && "career_timeline" in value["subject_profile"].entries
      && NormalTimeline(value["subject_profile"].entries["career_timeline"])
  }

  lemma CleanEntryIsNormal(raw: Value)
    ensures |RepairEntry(raw)| <= 1
    ensures RepairEntry(raw) != [] ==> NormalEntry(RepairEntry(raw)[0])
    ensures NormalEntry(raw) <==> RepairEntry(raw) == [raw]
  {
    if raw.Mapping? {
      var clean := CleanEntry(raw.entries);
      assert clean.Keys <= ALLOWED_KEYS;
      if Usable(clean) {
        assert clean.Keys == ALLOWED_KEYS;
      }
      if NormalEntry(raw) {
        assert clean == raw.entries;
      }
    }
  }

  lemma {:induction false} RepairedEntriesAreNormal(raw: seq<Value>)
    ensures |RepairEntries(raw)| <= |raw|
    ensures forall i | 0 <= i < |RepairEntries(raw)| :: NormalEntry(RepairEntries(raw)[i])
    ensures |RepairEntries(raw)| == |raw| ==> forall i | 0 <= i < |raw| :: |RepairEntry(raw[i])| == 1
  {
    hide RepairEntry, NormalEntry;
    if raw != [] {
      RepairedEntriesAreNormal(raw[..|raw| - 1]);
      CleanEntryIsNormal(raw[|raw| - 1]);
    }
  }

  lemma {:induction false} NormalEntriesStay(raw: seq<Value>)
    requires forall i | 0 <= i < |raw| :: NormalEntry(raw[i])
    ensures RepairEntries(raw) == raw
  {
    hide RepairEntry, NormalEntry;
    if raw != [] {
      NormalEntriesStay(raw[..|raw| - 1]);
      CleanEntryIsNormal(raw[|raw| - 1]);
      assert raw == raw[..|raw| - 1] + [raw[|raw| - 1]];
    }
  }

  lemma RepairedIsNormal(value: map<string, Value>)
    ensures Normal(Repaired(value))
  {
    if "subject_profile" in value && value["subject_profile"].Mapping? {
      var profile := value["subject_profile"].entries;
      if "career_timeline" in profile && profile["career_timeline"].Listing? {
        RepairedEntriesAreNormal(FirstEntries(profile["career_timeline"].items));
      }
    }
  }

  lemma NormalStays(value: map<string, Value>)
    requires Normal(value)
    ensures Repaired(value) == value
  {
    if "subject_profile" in value && value["subject_profile"].Mapping? {
      var profile := value["subject_profile"].entries;
      NormalEntriesStay(profile["career_timeline"].items);
      assert profile["career_timeline" := Listing(RepairedTimeline(profile))] == profile;
    }
  }

  /** Repairing twice is repairing once, and exactly the well-shaped values are left alone. */
  lemma RepairIsIdempotent(value: map<string, Value>)
    ensures Repaired(Repaired(value)) == Repaired(value)
    ensures Repaired(value) == value <==> Normal(value)
  {
    RepairedIsNormal(value);
    NormalStays(Repaired(value));
    if Normal(value) {
      NormalStays(value);
    }
  }

  /** An entry that survives keeps what it said under every allowed key, and one that is
      dropped lacked a required key or had no citation. */
  lemma RepairKeepsContent(raw: map<string, Value>)
    ensures RepairEntry(Mapping(raw)) == [] <==>
            !(REQUIRED_KEYS <= raw.Keys) || !raw["source_ids"].Listing? || raw["source_ids"].items == []
    ensures forall k | RepairEntry(Mapping(raw)) != [] && k in ALLOWED_KEYS ::
              && k in RepairEntry(Mapping(raw))[0].entries
              && RepairEntry(Mapping(raw))[0].entries[k] == if k in raw then raw[k] else Nothing
  {
    var clean := CleanEntry(raw);
    assert forall k | k in REQUIRED_KEYS :: k in clean <==> k in raw by {
      assert "organization" !in REQUIRED_KEYS && "timeframe" !in REQUIRED_KEYS;
    }
    assert "source_ids" in REQUIRED_KEYS;
  }

  /** A raw entry that has all required keys and a citation. */
  predicate Kept(v: Value) {
    && v.Mapping?
    && (forall k | k in REQUIRED_KEYS :: k in v.entries)
    && v.entries["source_ids"].Listing? && v.entries["source_ids"].items != []
  }

  /** An entry after repair: the allowed keys, with what the raw entry said under each. */
  predicate Cleaned(raw: Value, v: Value) {
    && raw.Mapping? && v.Mapping? && v.entries.Keys == ALLOWED_KEYS
    && forall k | k in ALLOWED_KEYS :: v.entries[k] == if k in raw.entries then raw.entries[k] else Nothing
  }

  /** Positions of the raw list, ascending: exactly those of the usable entries among the first twelve. */
  predicate KeptAt(raw: seq<Value>, at: seq<nat>) {
    && (forall i, j | 0 <= i < j < |at| :: at[i] < at[j])
    && (forall i | 0 <= i < |at| :: at[i] < |raw| && at[i] < 12 && Kept(raw[at[i]]))
    && (forall k | 0 <= k < |raw| && k < 12 && Kept(raw[k]) :: k in at)
  }

  lemma KeptExactly(raw: Value)
    ensures RepairEntry(raw) != [] <==> Kept(raw)
    ensures RepairEntry(raw) != [] ==> |RepairEntry(raw)| == 1 && Cleaned(raw, RepairEntry(raw)[0])
  {
    if raw.Mapping? {
      RepairKeepsContent(raw.entries);
      CleanEntryIsNormal(raw);
      assert Mapping(raw.entries) == raw;
    }
    assert "source_ids" in REQUIRED_KEYS;
    hide RepairEntry;
  }

  lemma KeptNext(raw: seq<Value>, earlier: seq<nat>)
    requires raw != [] && |raw| <= 12 && KeptAt(raw[..|raw| - 1], earlier)
    ensures Kept(raw[|raw| - 1]) ==> KeptAt(raw, earlier + [|raw| - 1])
    ensures !Kept(raw[|raw| - 1]) ==> KeptAt(raw, earlier)
  {
    hide Kept;
    var n := |raw| - 1;
    var shorter := raw[..n];
    assert forall k | 0 <= k < n :: shorter[k] == raw[k];
    assert forall i | 0 <= i < |earlier| :: earlier[i] < n && Kept(raw[earlier[i]]);
    assert forall k | 0 <= k < n && Kept(raw[k]) :: k in earlier;
    hide KeptAt;
    if Kept(raw[n]) {
      Extended(raw, earlier, n);
    } else {
      Unextended(raw, earlier, n);
    }
  }

  lemma Extended(raw: seq<Value>, earlier: seq<nat>, n: nat)
    requires n == |raw| - 1 < 12 && Kept(raw[n])
    requires forall i, j | 0 <= i < j < |earlier| :: earlier[i] < earlier[j]
    requires forall i | 0 <= i < |earlier| :: earlier[i] < n && Kept(raw[earlier[i]])
    requires forall k | 0 <= k < n && Kept(raw[k]) :: k in earlier
    ensures KeptAt(raw, earlier + [n])
  {
    hide Kept;
    var at := earlier + [n];
    assert forall k | k in earlier :: k in at;
    assert at[|earlier|] == n;
  }

  lemma Unextended(raw: seq<Value>, earlier: seq<nat>, n: nat)
    requires n == |raw| - 1 < 12 && !Kept(raw[n])
    requires forall i, j | 0 <= i < j < |earlier| :: earlier[i] < earlier[j]
    requires forall i | 0 <= i < |earlier| :: earlier[i] < n && Kept(raw[earlier[i]])
    requires forall k | 0 <= k < n && Kept(raw[k]) :: k in earlier
    ensures KeptAt(raw, earlier)
  {
    hide Kept;
  }

  /** The items are the cleaned entries at these positions. */
  predicate CleanedAt(raw: seq<Value>, at: seq<nat>, items: seq<Value>) {
    |at| == |items| && forall i | 0 <= i < |at| :: at[i] < |raw| && Cleaned(raw[at[i]], items[i])
  }

  lemma CleanedNext(shorter: seq<Value>, last: Value, earlier: seq<nat>, items: seq<Value>)
    requires CleanedAt(shorter, earlier, items)
    ensures CleanedAt(shorter + [last], earlier, items)
    ensures forall item | Cleaned(last, item) :: CleanedAt(shorter + [last], earlier + [|shorter|], items + [item])
  {
    hide Cleaned;
    assert forall k | 0 <= k < |shorter| :: (shorter + [last])[k] == shorter[k];
  }

  lemma RepairNext(raw: seq<Value>)
    requires raw != []
    ensures RepairEntries(raw) == RepairEntries(raw[..|raw| - 1]) + RepairEntry(raw[|raw| - 1])
  {
    hide RepairEntry;
  }

  lemma {:induction false} RepairedAt(raw: seq<Value>) returns (at: seq<nat>)
    requires |raw| <= 12
    ensures KeptAt(raw, at) && CleanedAt(raw, at, RepairEntries(raw))
    decreases |raw|, 1
  {
    hide RepairEntry, Kept, Cleaned;
    if raw == [] {
      at := [];
    } else {
      at := RepairedLast(raw);
    }
  }

  lemma {:induction false} RepairedLast(raw: seq<Value>) returns (at: seq<nat>)
    requires 0 < |raw| <= 12
    ensures KeptAt(raw, at) && CleanedAt(raw, at, RepairEntries(raw))
    decreases |raw|, 0
  {
    hide RepairEntry, RepairEntries, Kept, Cleaned, KeptAt, CleanedAt;
    var shorter, last := raw[..|raw| - 1], raw[|raw| - 1];
    at := RepairedAt(shorter);
    KeptExactly(last);
    KeptNext(raw, at);
    RepairNext(raw);
    CleanedNext(shorter, last, at, RepairEntries(shorter));
    assert raw == shorter + [last];
    if Kept(last) {
      assert RepairEntry(last) == [RepairEntry(last)[0]];
      at := at + [|shorter|];
    } else {
      assert RepairEntries(shorter) + [] == RepairEntries(shorter);
    }
  }

  lemma NothingRepaired()
    ensures RepairEntries([]) == []
  {}

  /** After repair the timeline has exactly the usable entries among the first twelve raw ones, in
      their order, each with exactly the allowed keys; and nothing else in the value changes. */
  lemma TimelineIsExactly(value: map<string, Value>, raw: seq<Value>) returns (at: seq<nat>)
    requires "subject_profile" in value && value["subject_profile"].Mapping?
    requires var profile := value["subject_profile"].entries;
      if "career_timeline" in profile && profile["career_timeline"].Listing? then raw == profile["career_timeline"].items else raw == []
    ensures KeptAt(raw, at)
    ensures exists items: seq<Value> ::
      && Repaired(value) ==
           value["subject_profile" := Mapping(value["subject_profile"].entries["career_timeline" := Listing(items)])]
      && CleanedAt(raw, at, items)
  {
    hide RepairEntries, Kept, Cleaned;
    at := RepairedAt(FirstEntries(raw));
    assert forall k | 0 <= k < |raw| && k < 12 :: FirstEntries(raw)[k] == raw[k];
    NothingRepaired();
    assert RepairedTimeline(value["subject_profile"].entries) == RepairEntries(FirstEntries(raw));
  }
}
