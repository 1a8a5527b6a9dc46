/** What a built packet says: each text of a source or an account is the cleaned text of the same
    field of one input, and no text that should be redacted is left. */
module PacketContents {
  import opened Wrappers
  import opened EvidencePacket

  // ---------- Cleaned texts, as relations ----------

  /** Only blanks surround `raw[i..j]`. */
  predicate Inside(raw: string, i: nat, j: nat) {
    i <= j <= |raw| && (forall k | 0 <= k < i :: raw[k] == ' ') && (forall k | j <= k < |raw| :: raw[k] == ' ')
  }

  /** `text` is what is left of `raw` without the blanks at its ends. */
  predicate Trimmed(raw: string, text: string) {
    && (text == "" || (text[0] != ' ' && text[|text| - 1] != ' '))
    && exists i, j | 0 <= i <= |raw| && 0 <= j <= |raw| :: Inside(raw, i, j) && raw[i..j] == text
  }

  /** Normalized, cut, redacted and trimmed, or unknown; and not too long. */
  predicate Redacted(c: Cleaner, raw: string, max: nat, text: string) {
    && 1 <= |text| <= max
    && match c.structural(raw, max)
       case None => text == "unknown"
       case Some(clean) => Trimmed(c.redact(clean), text)
  }

  /** The same without redaction. */
  predicate Normalized(c: Cleaner, raw: string, max: nat, text: string) {
    && 1 <= |text| <= max
    && c.structural(raw, max).Some? && Trimmed(c.structural(raw, max).value, text)
  }

  predicate Addressed(c: Cleaner, raw: string, url: string) {
    1 <= |url| <= 500 && c.publicUrl(raw).Some? && Trimmed(c.publicUrl(raw).value, url)
  }

  predicate SourceOf(c: Cleaner, v: SourceInput, s: Source) {
    && c.identifier(v.id) == Some(s.id)
    && Redacted(c, v.sourceType, 240, s.sourceType)
    && Redacted(c, v.trustClass, 240, s.trustClass)
    && Redacted(c, v.publisher, 240, s.publisher)
    && Redacted(c, v.title, 240, s.title)
    && Addressed(c, v.url, s.url)
    && Redacted(c, v.excerpt, 1000, s.excerpt)
    && s.fields == c.fields(v.fields)
  }

  predicate Mentions(c: Cleaner, raw: seq<string>, id: string) {
    exists k | 0 <= k < |raw| :: c.identifier(raw[k]) == Some(id)
  }

  /** Wherever `y` is cited, `x` was cited before. */
  predicate CitedBefore(c: Cleaner, raw: seq<string>, x: string, y: string) {
    forall k | 0 <= k < |raw| && c.identifier(raw[k]) == Some(y) :: Mentions(c, raw[..k], x)
  }

  /** The first eight distinct usable citations among the first sixteen, in order. */
  predicate CitedFrom(c: Cleaner, raw: seq<string>, known: set<string>, ids: seq<string>) {
    var read := if |raw| <= 16 then raw else raw[..16];
    && |ids| <= 8
    && (forall i, j | 0 <= i < j < |ids| :: ids[i] != ids[j] && CitedBefore(c, read, ids[i], ids[j]))
    && (forall i | 0 <= i < |ids| :: ids[i] in known && Mentions(c, read, ids[i]))
    && (|ids| < 8 ==> forall x | x in known && Mentions(c, read, x) :: x in ids)
    && (forall i, x | 0 <= i < |ids| && x in known && Mentions(c, read, x) && x !in ids :: CitedBefore(c, read, ids[i], x))
  }

  predicate NamedBy(c: Cleaner, raw: Option<string>, name: Option<string>) {
    if raw.None? || c.structural(raw.value, 200).None? then name.None?
    else name.Some? && 1 <= |name.value| <= 200 && Trimmed(c.redact(c.structural(raw.value, 200).value), name.value)
  }

  predicate AccountOf(c: Cleaner, v: AccountInput, known: set<string>, a: Account) {
    && c.identifier(v.id) == Some(a.id)
    && Redacted(c, v.platform, 240, a.platform)
    && Normalized(c, v.handle, 160, a.handle)
    && Addressed(c, v.url, a.url)
    && NamedBy(c, v.displayName, a.displayName)
    && CitedFrom(c, v.sourceIds, known, a.sourceIds)
  }

  predicate SeedOf(c: Cleaner, v: SeedInput, s: Seed) {
    && Redacted(c, v.platform, 240, s.platform)
    && Redacted(c, v.identifierType, 240, s.identifierType)
    && (if c.structural(v.identifier, 160).None? then s.identifier == "unknown" else Normalized(c, v.identifier, 160, s.identifier))
  }

  // ---------- The sanitizers compute them ----------

  lemma {:induction false} StripInside(raw: string) returns (i: nat, j: nat)
    ensures Inside(raw, i, j) && raw[i..j] == Strip(raw)
  {
    if raw == "" {
      i, j := 0, 0;
    } else if raw[0] == ' ' {
      var k, l := StripInside(raw[1..]);
      InsideTail(raw, k, l);
      i, j := k + 1, l + 1;
    } else if raw[|raw| - 1] == ' ' {
      i, j := StripInside(raw[..|raw| - 1]);
      InsideHead(raw, i, j);
    } else {
      i, j := 0, |raw|;
    }
  }

  lemma InsideTail(raw: string, i: nat, j: nat)
    requires raw != "" && raw[0] == ' ' && Inside(raw[1..], i, j)
    ensures Inside(raw, i + 1, j + 1) && raw[i + 1..j + 1] == raw[1..][i..j]
  {
    assert forall k | 1 <= k < |raw| :: raw[k] == raw[1..][k - 1];
  }

  lemma InsideHead(raw: string, i: nat, j: nat)
    requires raw != "" && raw[|raw| - 1] == ' ' && Inside(raw[..|raw| - 1], i, j)
    ensures Inside(raw, i, j) && raw[i..j] == raw[..|raw| - 1][i..j]
  {
    assert forall k | 0 <= k < |raw| - 1 :: raw[k] == raw[..|raw| - 1][k];
  }

  lemma {:induction false} StripEnds(raw: string)
    ensures Strip(raw) == "" || (Strip(raw)[0] != ' ' && Strip(raw)[|Strip(raw)| - 1] != ' ')
  {
    if raw != "" && raw[0] == ' ' {
      StripEnds(raw[1..]);
    } else if raw != "" && raw[|raw| - 1] == ' ' {
      StripEnds(raw[..|raw| - 1]);
    }
  }

  lemma StripTrims(raw: string)
    ensures Trimmed(raw, Strip(raw))
  {
    hide Strip;
    StripEnds(raw);
    var i, j := StripInside(raw);
  }

  lemma UnknownIsTrimmed()
    ensures Strip("unknown") == "unknown"
  {}

  lemma RequiredIs(c: Cleaner, raw: string, max: nat)
    requires Bounded(RequiredText(c, raw, max), max)
    ensures Redacted(c, raw, max, Strip(RequiredText(c, raw, max)))
  {
    hide Strip;
    UnknownIsTrimmed();
    StripTrims(RequiredText(c, raw, max));
  }

  lemma SanitizedSource(c: Cleaner, v: SourceInput)
    requires SanitizeSource(c, v).Usable?
    ensures SourceOf(c, v, SanitizeSource(c, v).value)
  {
    hide Strip, Redacted, RequiredText;
    RequiredIs(c, v.sourceType, 240);
    RequiredIs(c, v.trustClass, 240);
    RequiredIs(c, v.publisher, 240);
    RequiredIs(c, v.title, 240);
    RequiredIs(c, v.excerpt, 1000);
    StripTrims(c.publicUrl(v.url).value);
  }

  lemma AllowedAre(c: Cleaner, raw: seq<string>, known: set<string>)
    ensures CitedFrom(c, raw, known, Take(AllowedIds(c, Take(raw, 16), known), 8))
  {
    hide AllowedIds, InCitedOrder;
    AllowedComeFrom(c, Take(raw, 16), known);
    FirstEight(c, Take(raw, 16), known, AllowedIds(c, Take(raw, 16), known));
  }

  lemma FirstEight(c: Cleaner, read: seq<string>, known: set<string>, all: seq<string>)
    requires InCitedOrder(c, read, known, all) && forall i, j | 0 <= i < j < |all| :: all[i] != all[j]
    ensures var ids := Take(all, 8);
      && (forall i, j | 0 <= i < j < |ids| :: ids[i] != ids[j] && CitedBefore(c, read, ids[i], ids[j]))
      && (forall i | 0 <= i < |ids| :: ids[i] in known && Mentions(c, read, ids[i]))
      && (|ids| < 8 ==> forall x | x in known && Mentions(c, read, x) :: x in ids)
      && (forall i, x | 0 <= i < |ids| && x in known && Mentions(c, read, x) && x !in ids :: CitedBefore(c, read, ids[i], x))
  {
    hide CitedBefore, Mentions;
    var ids := Take(all, 8);
    assert forall i | 0 <= i < |ids| :: ids[i] == all[i] && ids[i] in ids;
    forall i, x | 0 <= i < |ids| && x in known && Mentions(c, read, x) && x !in ids
      ensures CitedBefore(c, read, ids[i], x)
    {
      var j :| 0 <= j < |all| && all[j] == x;
      assert ids[i] == all[i] && i < j;
    }
  }

  /** Distinct known ids, each cited after the ones before it, and all that are cited. */
  predicate InCitedOrder(c: Cleaner, raw: seq<string>, known: set<string>, ids: seq<string>) {
    && (forall i | 0 <= i < |ids| :: ids[i] in known && Mentions(c, raw, ids[i]))
    && (forall i, j | 0 <= i < j < |ids| :: CitedBefore(c, raw, ids[i], ids[j]))
    && (forall x | x in known && Mentions(c, raw, x) :: x in ids)
  }

  lemma {:induction false} AllowedComeFrom(c: Cleaner, raw: seq<string>, known: set<string>)
    ensures InCitedOrder(c, raw, known, AllowedIds(c, raw, known))
  {
    if raw == [] {
      assert forall x :: !Mentions(c, raw, x);
    } else {
      var shorter, last := raw[..|raw| - 1], raw[|raw| - 1];
      AllowedComeFrom(c, shorter, known);
      assert raw == shorter + [last];
      hide InCitedOrder;
      OneMoreCitation(c, shorter, last, known, AllowedIds(c, shorter, known));
    }
  }

  lemma OneMoreCitation(c: Cleaner, shorter: seq<string>, last: string, known: set<string>, earlier: seq<string>)
    requires InCitedOrder(c, shorter, known, earlier)
    ensures c.identifier(last).None? || c.identifier(last).value !in known || c.identifier(last).value in earlier ==>
      InCitedOrder(c, shorter + [last], known, earlier)
    ensures c.identifier(last).Some? && c.identifier(last).value in known && c.identifier(last).value !in earlier ==>
      InCitedOrder(c, shorter + [last], known, earlier + [c.identifier(last).value])
  {
    hide Mentions, CitedBefore;
    var raw := shorter + [last];
    forall x
      ensures Mentions(c, raw, x) <==> Mentions(c, shorter, x) || c.identifier(last) == Some(x)
    {
      MentionedNext(c, shorter, last, x);
    }
    forall x, y | Mentions(c, shorter, x) && (CitedBefore(c, shorter, x, y) || !Mentions(c, shorter, y))
      ensures CitedBefore(c, raw, x, y)
    {
      LaterCitation(c, shorter, last, x, y);
    }
  }

  lemma MentionedNext(c: Cleaner, shorter: seq<string>, last: string, x: string)
    ensures Mentions(c, shorter + [last], x) <==> Mentions(c, shorter, x) || c.identifier(last) == Some(x)
  {
    var raw := shorter + [last];
    assert raw[|shorter|] == last && forall k | 0 <= k < |shorter| :: raw[k] == shorter[k];
  }

  lemma LaterCitation(c: Cleaner, shorter: seq<string>, last: string, x: string, y: string)
    requires Mentions(c, shorter, x) && (CitedBefore(c, shorter, x, y) || !Mentions(c, shorter, y))
    ensures CitedBefore(c, shorter + [last], x, y)
  {
    var raw := shorter + [last];
    forall k | 0 <= k < |raw| && c.identifier(raw[k]) == Some(y)
      ensures Mentions(c, raw[..k], x)
    {
      if k < |shorter| {
        assert shorter[k] == raw[k] && shorter[..k] == raw[..k];
      } else {
        assert raw[..k] == shorter;
      }
    }
  }

  lemma SanitizedAccount(c: Cleaner, v: AccountInput, known: set<string>)
    requires SanitizeAccount(c, v, known).Usable?
    ensures AccountOf(c, v, known, SanitizeAccount(c, v, known).value)
  {
    hide Strip, Redacted, RequiredText, CitedFrom, AllowedIds;
    RequiredIs(c, v.platform, 240);
    StripTrims(c.structural(v.handle, 160).value);
    StripTrims(c.publicUrl(v.url).value);
    AllowedAre(c, v.sourceIds, known);
    if v.displayName.Some? && c.structural(v.displayName.value, 200).Some? {
      StripTrims(c.redact(c.structural(v.displayName.value, 200).value));
    }
  }

  lemma SanitizedSeed(c: Cleaner, v: SeedInput)
    requires SanitizeSeed(c, v).Some?
    ensures SeedOf(c, v, SanitizeSeed(c, v).value)
  {
    hide Strip, Redacted, RequiredText;
    RequiredIs(c, v.platform, 240);
    RequiredIs(c, v.identifierType, 240);
    UnknownIsTrimmed();
    if c.structural(v.identifier, 160).Some? {
      StripTrims(c.structural(v.identifier, 160).value);
    }
  }

  // ---------- Exactly the inputs that can be cleaned are used ----------

  lemma TrimmedIsStrip(raw: string, text: string)
    requires Trimmed(raw, text)
    ensures text == Strip(raw)
  {
    var i, j :| 0 <= i <= |raw| && 0 <= j <= |raw| && Inside(raw, i, j) && raw[i..j] == text;
    var k, l := StripInside(raw);
    StripEnds(raw);
    hide Strip, Inside;
    if i < j {
      assert text[0] == raw[i] && text[|text| - 1] == raw[j - 1];
      NoBlankOutside(raw, k, l, i);
      NoBlankOutside(raw, k, l, j - 1);
    }
    if k < l {
      assert Strip(raw)[0] == raw[k] && Strip(raw)[|Strip(raw)| - 1] == raw[l - 1];
      NoBlankOutside(raw, i, j, k);
      NoBlankOutside(raw, i, j, l - 1);
    }
  }

  lemma NoBlankOutside(raw: string, i: nat, j: nat, k: nat)
    requires Inside(raw, i, j) && k < |raw| && raw[k] != ' '
    ensures i <= k < j
  {}

  lemma RedactedIs(c: Cleaner, raw: string, max: nat, text: string)
    requires Redacted(c, raw, max, text)
    ensures Bounded(RequiredText(c, raw, max), max) && text == Strip(RequiredText(c, raw, max))
  {
    hide Strip, Trimmed;
    UnknownIsTrimmed();
    if c.structural(raw, max).Some? {
      TrimmedIsStrip(c.redact(c.structural(raw, max).value), text);
    }
  }

  /** A source can be used exactly when its id and address are accepted and none of its texts is
      too long or empty; it then has the one form that the cleaned texts give it. */
  lemma SourceIsUsedExactly(c: Cleaner, v: SourceInput)
    ensures SanitizeSource(c, v).Unusable? <==> c.identifier(v.id).None? || c.publicUrl(v.url).None?
    ensures forall s :: SanitizeSource(c, v) == Usable(s) <==> SourceOf(c, v, s)
  {
    forall s
      ensures SanitizeSource(c, v) == Usable(s) <==> SourceOf(c, v, s)
    {
      if SanitizeSource(c, v).Usable? {
        SanitizedSource(c, v);
      }
      if SourceOf(c, v, s) {
        SourceIsForced(c, v, s);
      }
    }
  }

  lemma SourceIsForced(c: Cleaner, v: SourceInput, s: Source)
    requires SourceOf(c, v, s)
    ensures SanitizeSource(c, v) == Usable(s)
  {
    hide Strip, RequiredText, Redacted, Trimmed;
    RedactedIs(c, v.sourceType, 240, s.sourceType);
    RedactedIs(c, v.trustClass, 240, s.trustClass);
    RedactedIs(c, v.publisher, 240, s.publisher);
    RedactedIs(c, v.title, 240, s.title);
    RedactedIs(c, v.excerpt, 1000, s.excerpt);
    TrimmedIsStrip(c.publicUrl(v.url).value, s.url);
  }

  lemma AccountIsUsedExactly(c: Cleaner, v: AccountInput, known: set<string>)
    ensures SanitizeAccount(c, v, known).Unusable? <==>
      c.identifier(v.id).None? || c.publicUrl(v.url).None? || c.structural(v.handle, 160).None?
    ensures SanitizeAccount(c, v, known).Usable? <==> exists a :: AccountOf(c, v, known, a)
  {
    if SanitizeAccount(c, v, known).Usable? {
      SanitizedAccount(c, v, known);
    }
    if a :| AccountOf(c, v, known, a) {
      AccountIsForced(c, v, known, a);
    }
  }

  lemma AccountIsForced(c: Cleaner, v: AccountInput, known: set<string>, a: Account)
    requires AccountOf(c, v, known, a)
    ensures SanitizeAccount(c, v, known).Usable?
  {
    hide Strip, RequiredText, Redacted, Trimmed, CitedFrom, AllowedIds;
    RedactedIs(c, v.platform, 240, a.platform);
    TrimmedIsStrip(c.structural(v.handle, 160).value, a.handle);
    TrimmedIsStrip(c.publicUrl(v.url).value, a.url);
    if a.displayName.Some? {
      TrimmedIsStrip(c.redact(c.structural(v.displayName.value, 200).value), a.displayName.value);
    }
  }

  lemma SeedIsUsedExactly(c: Cleaner, v: SeedInput)
    ensures forall s :: SanitizeSeed(c, v) == Some(s) <==> SeedOf(c, v, s)
  {
    if SanitizeSeed(c, v).Some? {
      SanitizedSeed(c, v);
    }
    forall s | SeedOf(c, v, s)
      ensures SanitizeSeed(c, v) == Some(s)
    {
      SeedIsForced(c, v, s);
    }
  }

  lemma SeedIsForced(c: Cleaner, v: SeedInput, s: Seed)
    requires SeedOf(c, v, s)
    ensures SanitizeSeed(c, v) == Some(s)
  {
    hide Strip, RequiredText, Redacted, Trimmed;
    RedactedIs(c, v.platform, 240, s.platform);
    RedactedIs(c, v.identifierType, 240, s.identifierType);
    UnknownIsTrimmed();
    if c.structural(v.identifier, 160).Some? {
      TrimmedIsStrip(c.structural(v.identifier, 160).value, s.identifier);
    }
  }

  // ---------- The packet ----------

  lemma CountGrows<I(!new), T(!new)>(inputs: seq<I>, sanitize: I -> Sanitized<T>, id: T -> string, k: nat, n: nat)
    requires k <= |inputs| && n <= |inputs|
    ensures k <= n ==> |Candidates(inputs[..k], sanitize, id)| <= |Candidates(inputs[..n], sanitize, id)|
  {
    if k <= n {
      CandidatesOfPrefix(inputs[..n], sanitize, id, k);
      assert inputs[..n][..k] == inputs[..k];
    }
  }

  lemma {:induction false} KeptInOrder<I(!new), T(!new)>(inputs: seq<I>, sanitize: I -> Sanitized<T>, id: T -> string, items: seq<T>)
    returns (at: seq<nat>)
    requires items <= Candidates(inputs, sanitize, id)
    ensures |at| == |items|
    ensures forall i | 0 <= i < |at| :: at[i] < |inputs| && sanitize(inputs[at[i]]) == Usable(items[i])
    ensures forall i, j | 0 <= i < j < |at| :: at[i] < at[j]
    ensures forall i | 0 <= i < |at| :: |Candidates(inputs[..at[i]], sanitize, id)| == i
  {
    hide Candidates;
    if items == [] {
      at := [];
    } else {
      var n := |items| - 1;
      var earlier := KeptInOrder(inputs, sanitize, id, items[..n]);
      var k := CandidateIsFirst(inputs, sanitize, id, n);
      forall i | 0 <= i < n
        ensures earlier[i] < k
      {
        CountGrows(inputs, sanitize, id, k, earlier[i]);
      }
      at := earlier + [k];
    }
  }

  /** The sources of a packet are cleaned inputs among the first 500, field by field and in order. */
  lemma PacketSourcesAre(c: Cleaner, seed: SeedInput, sources: seq<SourceInput>, accounts: seq<AccountInput>, limits: Limits, p: Packet)
    returns (at: seq<nat>)
    requires IsPacketOf(c, seed, sources, accounts, limits, p)
    ensures SeedOf(c, seed, p.seed)
    ensures |at| == |p.sources| <= limits.maxSources
    ensures forall i | 0 <= i < |at| :: at[i] < |sources| && at[i] < 500 && SourceOf(c, sources[at[i]], p.sources[i])
    ensures forall i, j | 0 <= i < j < |at| :: at[i] < at[j]
  {
    hide Candidates, SanitizeSource, SanitizeSeed, SeedOf, SourceOf, SkeletonSize, Payload;
    SanitizedSeed(c, seed);
    at := KeptInOrder(Scanned(sources), SourceRule(c), SourceId, p.sources);
    forall i | 0 <= i < |at|
      ensures at[i] < |sources| && at[i] < 500 && SourceOf(c, sources[at[i]], p.sources[i])
    {
      assert Scanned(sources)[at[i]] == sources[at[i]];
      SanitizedSource(c, sources[at[i]]);
    }
  }

  /** So are its accounts, which cite its sources. */
  lemma PacketAccountsAre(c: Cleaner, seed: SeedInput, sources: seq<SourceInput>, accounts: seq<AccountInput>, limits: Limits, p: Packet)
    returns (at: seq<nat>)
    requires IsPacketOf(c, seed, sources, accounts, limits, p)
    ensures |at| == |p.accounts| <= limits.maxAccounts
    ensures forall i | 0 <= i < |at| ::
      at[i] < |accounts| && at[i] < 500 && AccountOf(c, accounts[at[i]], set s | s in p.sources :: s.id, p.accounts[i])
    ensures forall i, j | 0 <= i < j < |at| :: at[i] < at[j]
  {
    hide Candidates, SanitizeAccount, SanitizeSeed, AccountOf, SkeletonSize, Payload;
    var known := set s | s in p.sources :: s.id;
    at := KeptInOrder(Scanned(accounts), AccountRule(c, known), AccountId, p.accounts);
    forall i | 0 <= i < |at|
      ensures at[i] < |accounts| && at[i] < 500 && AccountOf(c, accounts[at[i]], known, p.accounts[i])
    {
      assert Scanned(accounts)[at[i]] == accounts[at[i]];
      SanitizedAccount(c, accounts[at[i]], known);
    }
  }

  // ---------- Redaction ----------

  /** `contact` is something that redaction removes, and that trimming does not bring back. */
  ghost predicate Removes(c: Cleaner, contact: string -> bool) {
    && !contact("unknown")
    && (forall t :: !contact(c.redact(t)))
    && (forall t, u | Trimmed(t, u) && !contact(t) :: !contact(u))
  }

  lemma RedactedIsClean(c: Cleaner, contact: string -> bool, raw: string, max: nat, text: string)
    requires Removes(c, contact) && Redacted(c, raw, max, text)
    ensures !contact(text)
  {
    hide Trimmed;
  }

  /** Nothing that redaction removes is left in any text of a packet that is redacted. */
  lemma PacketIsRedacted(c: Cleaner, contact: string -> bool, seed: SeedInput, sources: seq<SourceInput>,
                         accounts: seq<AccountInput>, limits: Limits, p: Packet)
    requires IsPacketOf(c, seed, sources, accounts, limits, p) && Removes(c, contact)
    ensures !contact(p.seed.platform) && !contact(p.seed.identifierType)
    ensures forall s | s in p.sources ::
      !contact(s.sourceType) && !contact(s.trustClass) && !contact(s.publisher) && !contact(s.title) && !contact(s.excerpt)
    ensures forall a | a in p.accounts :: !contact(a.platform) && (a.displayName.Some? ==> !contact(a.displayName.value))
  {
    hide IsPacketOf, Redacted, Trimmed, CitedFrom;
    var at := PacketSourcesAre(c, seed, sources, accounts, limits, p);
    RedactedIsClean(c, contact, seed.platform, 240, p.seed.platform);
    RedactedIsClean(c, contact, seed.identifierType, 240, p.seed.identifierType);
    forall i | 0 <= i < |p.sources|
      ensures var s := p.sources[i];
        !contact(s.sourceType) && !contact(s.trustClass) && !contact(s.publisher) && !contact(s.title) && !contact(s.excerpt)
    {
      var v, s := sources[at[i]], p.sources[i];
      RedactedIsClean(c, contact, v.sourceType, 240, s.sourceType);
      RedactedIsClean(c, contact, v.trustClass, 240, s.trustClass);
      RedactedIsClean(c, contact, v.publisher, 240, s.publisher);
      RedactedIsClean(c, contact, v.title, 240, s.title);
      RedactedIsClean(c, contact, v.excerpt, 1000, s.excerpt);
    }
    var where := PacketAccountsAre(c, seed, sources, accounts, limits, p);
    forall i | 0 <= i < |p.accounts|
      ensures var a := p.accounts[i]; !contact(a.platform) && (a.displayName.Some? ==> !contact(a.displayName.value))
    {
      RedactedIsClean(c, contact, accounts[where[i]].platform, 240, p.accounts[i].platform);
    }
  }
}
