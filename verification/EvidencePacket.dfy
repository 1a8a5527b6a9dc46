/** Building the evidence packet of a synthesis prompt: strict limits on the number of
    sources and accounts, and on the length of the printed packet. */
module EvidencePacket {
  import opened Wrappers
  import opened JsonText

  const MIN_PACKET_CHARS: nat := 2000
  const MAX_PACKET_CHARS: nat := 100_000
  const MAX_INPUT_SCAN: nat := 500

  datatype SeedInput = SeedInput(platform: string, identifierType: string, identifier: string)

  datatype SourceInput = SourceInput(
    id: string, sourceType: string, trustClass: string, publisher: string, title: string,
    url: string, excerpt: string, fields: Json)

  datatype AccountInput = AccountInput(
    id: string, platform: string, handle: string, url: string, displayName: Option<string>, sourceIds: seq<string>)

  datatype Seed = Seed(platform: string, identifierType: string, identifier: string)

  datatype Source = Source(
    id: string, sourceType: string, trustClass: string, publisher: string, title: string,
    url: string, excerpt: string, fields: Json)

  datatype Account = Account(
    id: string, platform: string, handle: string, url: string, displayName: Option<string>, sourceIds: seq<string>)

  datatype Packet = Packet(
    seed: Seed, sources: seq<Source>, accounts: seq<Account>, sourcesTruncated: bool, accountsTruncated: bool)

  // ---------- The printed packet ----------

  function TextMember(name: string, text: string): Member {
    Member(name, Text(text))
  }

  function SeedJson(seed: Seed): Json {
    Object([
      TextMember("platform", seed.platform),
      TextMember("identifier_type", seed.identifierType),
      TextMember("identifier", seed.identifier)])
  }

  function SourceJson(s: Source): Json {
    Object([
      TextMember("source_id", s.id),
      TextMember("source_type", s.sourceType),
      TextMember("trust_class", s.trustClass),
      TextMember("publisher", s.publisher),
      TextMember("title", s.title),
      TextMember("canonical_url", s.url),
      TextMember("excerpt", s.excerpt),
      Member("extracted_fields", s.fields)])
  }

  function TextList(texts: seq<string>): Json {
    List(seq(|texts|, i requires 0 <= i < |texts| => Text(texts[i])))
  }

  function AccountJson(a: Account): Json {
    Object([
      TextMember("account_id", a.id),
      TextMember("platform", a.platform),
      TextMember("canonical_handle", a.handle),
      TextMember("canonical_url", a.url),
      Member("display_name", if a.displayName.None? then Null else Text(a.displayName.value)),
      Member("source_ids", TextList(a.sourceIds))])
  }

  function SourceList(sources: seq<Source>): Json {
    List(seq(|sources|, i requires 0 <= i < |sources| => SourceJson(sources[i])))
  }

  function AccountList(accounts: seq<Account>): Json {
    List(seq(|accounts|, i requires 0 <= i < |accounts| => AccountJson(accounts[i])))
  }

  function PacketJson(p: Packet): Json {
    Object([
      TextMember("schema_version", "grounded-synthesis-evidence-v1"),
      Member("seed", SeedJson(p.seed)),
      Member("sources", SourceList(p.sources)),
      Member("accounts", AccountList(p.accounts)),
      Member("sources_truncated", Boolean(p.sourcesTruncated)),
      Member("accounts_truncated", Boolean(p.accountsTruncated))])
  }

  function SourceSize(s: Source): nat {
    |Print(SourceJson(s))|
  }

  function AccountSize(a: Account): nat {
    |Print(AccountJson(a))|
  }

  function PacketSize(p: Packet): nat {
    |Print(PacketJson(p))|
  }

  /** The size of a packet with the seed and the flags but no list items. */
  function SkeletonSize(seed: Seed, sourcesTruncated: bool, accountsTruncated: bool): nat {
    PacketSize(Packet(seed, [], [], sourcesTruncated, accountsTruncated))
  }

  /** The running total of a list: every item's own size, and a comma before all but the first. */
  function Payload<T(!new)>(items: seq<T>, size: T -> nat): nat {
    if items == [] then 0
    else
      var earlier := items[..|items| - 1];
      Payload(earlier, size) + size(items[|items| - 1]) + (if earlier == [] then 0 else 1)
  }

  lemma {:induction false} PayloadIsJoinedLength<T(!new)>(items: seq<T>, size: T -> nat, parts: seq<string>)
    requires |parts| == |items|
    requires forall i | 0 <= i < |items| :: |parts[i]| == size(items[i])
    ensures JoinedLength(parts) == Payload(items, size)
  {
    if items != [] {
      PayloadIsJoinedLength(items[..|items| - 1], size, parts[..|items| - 1]);
    }
  }

  lemma SourceListLength(sources: seq<Source>)
    ensures |Print(SourceList(sources))| == 2 + Payload(sources, SourceSize)
  {
    hide Print, SourceJson, Join, JoinedLength, Payload;
    var parts := PrintAll(SourceList(sources).items);
    PrintedList(SourceList(sources).items);
    PayloadIsJoinedLength(sources, SourceSize, parts);
    JoinLength(parts);
  }

  lemma PrintedList(items: seq<Json>)
    ensures |Print(List(items))| == 2 + |Join(PrintAll(items))|
  {
    hide PrintAll, Join;
  }

  lemma AccountListLength(accounts: seq<Account>)
    ensures |Print(AccountList(accounts))| == 2 + Payload(accounts, AccountSize)
  {
    hide Print, AccountJson, Join, JoinedLength, Payload;
    var parts := PrintAll(AccountList(accounts).items);
    PrintedList(AccountList(accounts).items);
    PayloadIsJoinedLength(accounts, AccountSize, parts);
    JoinLength(parts);
  }

  function MemberLength(m: Member): nat {
    |Quote(m.name)| + 1 + |Print(m.value)|
  }

  lemma MembersStep(m: Member, rest: seq<Member>)
    ensures |Join(PrintMembers([m] + rest))| ==
            MemberLength(m) + (if rest == [] then 0 else 1 + |Join(PrintMembers(rest))|)
  {
    assert ([m] + rest)[1..] == rest;
    assert PrintMembers([m] + rest)[1..] == PrintMembers(rest);
  }

  lemma ObjectOfThree(a: Member, b: Member, c: Member)
    ensures |Print(Object([a, b, c]))| == 4 + MemberLength(a) + MemberLength(b) + MemberLength(c)
  {
    assert [a, b, c] == [a] + [b, c] && [b, c] == [b] + [c] && [c] == [c] + [];
    MembersStep(a, [b, c]);
    MembersStep(b, [c]);
    MembersStep(c, []);
  }

  lemma ObjectOfSix(a: Member, b: Member, c: Member, d: Member, e: Member, f: Member)
    ensures |Print(Object([a, b, c, d, e, f]))| ==
            7 + MemberLength(a) + MemberLength(b) + MemberLength(c) + MemberLength(d) + MemberLength(e) + MemberLength(f)
  {
    hide PrintMembers, MemberLength, Join;
    assert [a, b, c, d, e, f] == [a] + [b, c, d, e, f] && [b, c, d, e, f] == [b] + [c, d, e, f];
    assert [c, d, e, f] == [c] + [d, e, f];
    MembersStep(a, [b, c, d, e, f]);
    MembersStep(b, [c, d, e, f]);
    MembersStep(c, [d, e, f]);
    ObjectOfThree(d, e, f);
    ObjectLength([d, e, f]);
    ObjectLength([a, b, c, d, e, f]);
  }

  lemma ObjectLength(members: seq<Member>)
    ensures |Print(Object(members))| == 2 + |Join(PrintMembers(members))|
  {}

  function TruthLength(truth: bool): nat {
    if truth then 4 else 5
  }

  /** Counting item by item equals printing the whole packet. */
  lemma PacketSizeIsIncremental(p: Packet)
    ensures PacketSize(p) ==
            SkeletonSize(p.seed, p.sourcesTruncated, p.accountsTruncated) +
            Payload(p.sources, SourceSize) + Payload(p.accounts, AccountSize)
  {
    PacketSizeParts(p);
    PacketSizeParts(p.(sources := [], accounts := []));
  }

  lemma PacketSizeParts(p: Packet)
    ensures PacketSize(p) ==
            HeaderLength(p.seed) + TruthLength(p.sourcesTruncated) + TruthLength(p.accountsTruncated) +
            Payload(p.sources, SourceSize) + Payload(p.accounts, AccountSize)
  {
    SourceListLength(p.sources);
    AccountListLength(p.accounts);
    FlagLength(p.sourcesTruncated);
    FlagLength(p.accountsTruncated);
    NameLengths();
    hide Print, Quote, SourceList, AccountList, SeedJson, Payload;
    var m := PacketJson(p).members;
    ObjectOfSix(m[0], m[1], m[2], m[3], m[4], m[5]);
    assert m == [m[0], m[1], m[2], m[3], m[4], m[5]];
  }

  /** Everything in a packet but its items and the values of its flags. */
  function HeaderLength(seed: Seed): nat {
    |Print(SeedJson(seed))| + 97 + |Print(Text("grounded-synthesis-evidence-v1"))|
  }

  lemma FlagLength(truth: bool)
    ensures |Print(Boolean(truth))| == TruthLength(truth)
  {
    assert Print(Boolean(true)) == "true" && Print(Boolean(false)) == "false";
  }

  lemma NameLengths()
    ensures |Quote("schema_version")| == 16
    ensures |Quote("seed")| == 6
    ensures |Quote("sources")| == 9
    ensures |Quote("accounts")| == 10
    ensures |Quote("sources_truncated")| == 19
    ensures |Quote("accounts_truncated")| == 20
  {
    hide Quote;
    PlainQuote("schema_version");
    PlainQuote("seed");
    PlainQuote("sources");
    PlainQuote("accounts");
    PlainQuote("sources_truncated");
    PlainQuote("accounts_truncated");
  }

  predicate Plain(s: string) {
    forall i | 0 <= i < |s| :: s[i] >= ' ' && s[i] != '\"' && s[i] != '\\'
  }

  lemma {:induction false} PlainQuote(s: string)
    requires Plain(s)
    ensures |Quote(s)| == |s| + 2
  {
    if s != "" {
      PlainQuote(s[1..]);
    }
  }

  // ---------- Cleaning one input ----------

  /** The text filters, given from outside: identifier syntax, public addresses, structural
      normalization with a length limit, redaction of contact data, and nested fields. */
  datatype Cleaner = Cleaner(
    identifier: string -> Option<string>,
    publicUrl: string -> Option<string>,
    structural: (string, nat) -> Option<string>,
    redact: string -> string,
    fields: Json -> Json)
  {
    /** Structural text is bounded and has no control characters; redaction brings none in. */
    ghost predicate Sound() {
      && (forall v, max :: structural(v, max).Some? ==> |structural(v, max).value| <= max && Printable(structural(v, max).value))
      && (forall t :: Printable(t) ==> Printable(redact(t)))
    }
  }

  datatype Sanitized<+T> = Unusable | Invalid | Usable(value: T)

  function Strip(s: string): (r: string)
    ensures |r| <= |s|
    ensures Printable(s) ==> Printable(r)
  {
    if s == "" then s
    else if s[0] == ' ' then Strip(s[1..])
    else if s[|s| - 1] == ' ' then Strip(s[..|s| - 1])
    else s
  }

  /** The data model strips a text and then bounds its length. */
  predicate Bounded(s: string, max: nat) {
    1 <= |Strip(s)| <= max
  }

  function RequiredText(c: Cleaner, text: string, max: nat): string {
    match c.structural(text, max)
    case None => "unknown"
    case Some(clean) => c.redact(clean)
  }

  function SanitizeSeed(c: Cleaner, v: SeedInput): Option<Seed> {
    var platform := RequiredText(c, v.platform, 240);
    var kind := RequiredText(c, v.identifierType, 240);
    var identifier := match c.structural(v.identifier, 160) case None => "unknown" case Some(clean) => clean;
    if Bounded(platform, 240) && Bounded(kind, 240) && Bounded(identifier, 160) then
      Some(Seed(Strip(platform), Strip(kind), Strip(identifier)))
    else None
  }

  function SanitizeSource(c: Cleaner, v: SourceInput): Sanitized<Source> {
    match (c.identifier(v.id), c.publicUrl(v.url))
    case (Some(id), Some(url)) =>
      var sourceType := RequiredText(c, v.sourceType, 240);
      var trustClass := RequiredText(c, v.trustClass, 240);
      var publisher := RequiredText(c, v.publisher, 240);
      var title := RequiredText(c, v.title, 240);
      var excerpt := RequiredText(c, v.excerpt, 1000);
      if && Bounded(sourceType, 240) && Bounded(trustClass, 240) && Bounded(publisher, 240)
         && Bounded(title, 240) && Bounded(url, 500) && Bounded(excerpt, 1000)
      then
        Usable(Source(id, Strip(sourceType), Strip(trustClass), Strip(publisher), Strip(title), Strip(url),
                      Strip(excerpt), c.fields(v.fields)))
      else Invalid
    case _ => Unusable
  }

  function Take<T>(items: seq<T>, count: nat): seq<T> {
    if |items| <= count then items else items[..count]
  }

  /** The allowed identifiers among the raw ones, each at its first occurrence. */
  function AllowedIds(c: Cleaner, raw: seq<string>, allowed: set<string>): (ids: seq<string>)
    ensures forall i | 0 <= i < |ids| :: ids[i] in allowed
    ensures forall i, j | 0 <= i < j < |ids| :: ids[i] != ids[j]
    ensures forall i | 0 <= i < |raw| && c.identifier(raw[i]).Some? && c.identifier(raw[i]).value in allowed ::
              c.identifier(raw[i]).value in ids
  {
    if raw == [] then []
    else
      var earlier := AllowedIds(c, raw[..|raw| - 1], allowed);
      match c.identifier(raw[|raw| - 1])
      case None => earlier
      case Some(id) => if id in allowed && id !in earlier then earlier + [id] else earlier
  }

  function SanitizeAccount(c: Cleaner, v: AccountInput, allowed: set<string>): Sanitized<Account> {
    match (c.identifier(v.id), c.publicUrl(v.url), c.structural(v.handle, 160))
    case (Some(id), Some(url), Some(handle)) =>
      var platform := RequiredText(c, v.platform, 240);
      var name := match v.displayName
        case None => None
        case Some(text) => match c.structural(text, 200) case None => None case Some(clean) => Some(c.redact(clean));
      if && Bounded(platform, 240) && Bounded(handle, 160) && Bounded(url, 500)
         && (name.Some? ==> Bounded(name.value, 200))
      then
        Usable(Account(id, Strip(platform), Strip(handle), Strip(url),
                       if name.None? then None else Some(Strip(name.value)),
                       Take(AllowedIds(c, Take(v.sourceIds, 16), allowed), 8)))
      else Invalid
    case _ => Unusable
  }

  // ---------- Choosing a list ----------

  predicate HasId<T(!new)>(items: seq<T>, id: T -> string, x: string) {
    exists k | 0 <= k < |items| :: id(items[k]) == x
  }

  /** The usable inputs, each identifier at its first occurrence. */
  function Candidates<I(!new), T(!new)>(inputs: seq<I>, sanitize: I -> Sanitized<T>, id: T -> string): seq<T> {
    if inputs == [] then []
    else
      var earlier := Candidates(inputs[..|inputs| - 1], sanitize, id);
      match sanitize(inputs[|inputs| - 1])
      case Usable(value) => if HasId(earlier, id, id(value)) then earlier else earlier + [value]
      case _ => earlier
  }

  predicate Fits<T(!new)>(items: seq<T>, size: T -> nat, limit: nat, base: nat, budget: nat) {
    |items| <= limit && (items == [] || base + Payload(items, size) <= budget)
  }

  function Scanned<I>(inputs: seq<I>): seq<I> {
    Take(inputs, MAX_INPUT_SCAN)
  }

  datatype Picked<T> = Picked(items: seq<T>, truncated: bool)

  /** The longest prefix of the candidates within the limits; the flag tells whether
      anything was left out. */
  ghost predicate LongestPrefix<I(!new), T(!new)>(
    inputs: seq<I>, sanitize: I -> Sanitized<T>, id: T -> string, size: T -> nat,
    limit: nat, base: nat, budget: nat, picked: Picked<T>)
  {
    var all := Candidates(Scanned(inputs), sanitize, id);
    && picked.items <= all
    && Fits(picked.items, size, limit, base, budget)
    && (forall n | |picked.items| < n <= |all| :: !Fits(all[..n], size, limit, base, budget))
    && (picked.truncated <==> |picked.items| < |all| || |inputs| > MAX_INPUT_SCAN)
  }

  /** Input `i` is reached, since nothing before it overflows, and cannot be represented. */
  ghost predicate Spoils<I(!new), T(!new)>(
    inputs: seq<I>, sanitize: I -> Sanitized<T>, id: T -> string, size: T -> nat,
    limit: nat, base: nat, budget: nat, i: nat)
  {
    && i < |Scanned(inputs)|
    && sanitize(inputs[i]).Invalid?
    && (forall j | 0 <= j < i :: !sanitize(inputs[j]).Invalid?)
    && Fits(Candidates(inputs[..i], sanitize, id), size, limit, base, budget)
  }

  lemma {:induction false} PayloadGrows<T(!new)>(items: seq<T>, size: T -> nat, n: nat)
    requires n <= |items|
    ensures Payload(items[..n], size) <= Payload(items, size)
  {
    if n < |items| {
      PayloadGrows(items[..|items| - 1], size, n);
      assert items[..|items| - 1][..n] == items[..n];
    } else {
      assert items[..n] == items;
    }
  }

  lemma OverflowStays<T(!new)>(items: seq<T>, size: T -> nat, limit: nat, base: nat, budget: nat, n: nat)
    requires 0 < n <= |items| && !Fits(items[..n], size, limit, base, budget)
    ensures !Fits(items, size, limit, base, budget)
  {
    PayloadGrows(items, size, n);
  }

  lemma {:induction false} CandidatesOfPrefix<I(!new), T(!new)>(inputs: seq<I>, sanitize: I -> Sanitized<T>, id: T -> string, n: nat)
    requires n <= |inputs|
    ensures Candidates(inputs[..n], sanitize, id) <= Candidates(inputs, sanitize, id)
  {
    if n < |inputs| {
      CandidatesOfPrefix(inputs[..|inputs| - 1], sanitize, id, n);
      assert inputs[..|inputs| - 1][..n] == inputs[..n];
    } else {
      assert inputs[..n] == inputs;
    }
  }

  /** Candidates have distinct identifiers, and every usable input is represented. */
  lemma {:induction false} CandidatesAreDistinct<I(!new), T(!new)>(inputs: seq<I>, sanitize: I -> Sanitized<T>, id: T -> string)
    ensures var all := Candidates(inputs, sanitize, id);
      && (forall i, j | 0 <= i < j < |all| :: id(all[i]) != id(all[j]))
      && (forall i | 0 <= i < |inputs| && sanitize(inputs[i]).Usable? :: HasId(all, id, id(sanitize(inputs[i]).value)))
  {
    if inputs != [] {
      var n := |inputs| - 1;
      CandidatesAreDistinct(inputs[..n], sanitize, id);
      CandidatesOfPrefix(inputs, sanitize, id, n);
      var earlier, all := Candidates(inputs[..n], sanitize, id), Candidates(inputs, sanitize, id);
      forall i | 0 <= i < |inputs| && sanitize(inputs[i]).Usable?
        ensures HasId(all, id, id(sanitize(inputs[i]).value))
      {
        if i < n {
          assert inputs[..n][i] == inputs[i];
          var k :| 0 <= k < |earlier| && id(earlier[k]) == id(sanitize(inputs[i]).value);
          assert all[k] == earlier[k];
        } else if !HasId(earlier, id, id(sanitize(inputs[n]).value)) {
          assert all[|earlier|] == sanitize(inputs[n]).value;
        }
      }
    }
  }

  /** Candidate `k` is the value of the first usable input with its identifier. */
  lemma {:induction false} CandidateIsFirst<I(!new), T(!new)>(inputs: seq<I>, sanitize: I -> Sanitized<T>, id: T -> string, k: nat)
    returns (i: nat)
    requires k < |Candidates(inputs, sanitize, id)|
    ensures i < |inputs| && sanitize(inputs[i]) == Usable(Candidates(inputs, sanitize, id)[k])
    ensures forall j | 0 <= j < i && sanitize(inputs[j]).Usable? ::
              id(sanitize(inputs[j]).value) != id(Candidates(inputs, sanitize, id)[k])
    ensures |Candidates(inputs[..i], sanitize, id)| == k
  {
    var n := |inputs| - 1;
    var earlier := Candidates(inputs[..n], sanitize, id);
    CandidatesOfPrefix(inputs, sanitize, id, n);
    if k < |earlier| {
      i := CandidateIsFirst(inputs[..n], sanitize, id, k);
      assert inputs[..n][..i] == inputs[..i];
    } else {
      i := n;
      CandidatesAreDistinct(inputs[..n], sanitize, id);
      forall j | 0 <= j < n && sanitize(inputs[j]).Usable?
        ensures id(sanitize(inputs[j]).value) != id(Candidates(inputs, sanitize, id)[k])
      {
        assert inputs[..n][j] == inputs[j];
      }
    }
  }

  /** Scan the inputs in order, keeping those that fit. No result means that an input that
      was reached cannot be represented. */
  method Collect<I(!new), T(!new)>(
    inputs: seq<I>, sanitize: I -> Sanitized<T>, id: T -> string, size: T -> nat,
    limit: nat, base: nat, budget: nat) returns (picked: Option<Picked<T>>)
    ensures picked.Some? ==> LongestPrefix(inputs, sanitize, id, size, limit, base, budget, picked.value)
    ensures picked.None? <==> exists i :: Spoils(inputs, sanitize, id, size, limit, base, budget, i)
  {
    hide Candidates, Fits, LongestPrefix, Spoils, Payload, HasId;
    var items: seq<T> := [];
    var seen: set<string> := {};
    var truncated := false;
    var payload := 0;
    var index := 0;
    ghost var reached := 0;
    NothingYet(inputs, sanitize, id, size, limit, base, budget);
    while index < |inputs|
      invariant 0 <= index <= |inputs| && index <= MAX_INPUT_SCAN
      invariant !truncated && reached == index
      invariant Fits(items, size, limit, base, budget)
      invariant payload == Payload(items, size)
      invariant forall x :: x in seen <==> HasId(items, id, x)
      invariant NoneInvalid(inputs[..index], sanitize)
      invariant items == Candidates(inputs[..index], sanitize, id)
      decreases |inputs| - index
    {
      if index >= MAX_INPUT_SCAN {
        truncated := true;
        break;
      }
      NextInput(inputs, sanitize, id, size, limit, base, budget, index);
      match sanitize(inputs[index]) {
      case Invalid =>
        return None;
      case Unusable =>
      case Usable(value) =>
        if id(value) !in seen {
          NextItem(items, id, size, limit, base, budget, value);
          var grown := payload + size(value) + (if items != [] then 1 else 0);
          if |items| >= limit || base + grown > budget {
            truncated := true;
            reached := index + 1;
            break;
          }
          items := items + [value];
          seen := seen + {id(value)};
          payload := grown;
        }
      }
      index := index + 1;
      reached := index;
    }
    picked := Some(Picked(items, truncated));
    if truncated {
      StoppedIsLongest(inputs, sanitize, id, size, limit, base, budget, items, reached);
    } else {
      assert inputs[..index] == inputs;
      EverythingIsLongest(inputs, sanitize, id, size, limit, base, budget);
    }
  }

  predicate NoneInvalid<I(!new), T(!new)>(inputs: seq<I>, sanitize: I -> Sanitized<T>) {
    forall j | 0 <= j < |inputs| :: !sanitize(inputs[j]).Invalid?
  }

  lemma NothingYet<I(!new), T(!new)>(
    inputs: seq<I>, sanitize: I -> Sanitized<T>, id: T -> string, size: T -> nat, limit: nat, base: nat, budget: nat)
    ensures Fits([], size, limit, base, budget) && Payload([], size) == 0 && Candidates(inputs[..0], sanitize, id) == []
    ensures forall x :: !HasId([], id, x)
  {}

  /** What one more input does to the candidates. */
  lemma NextInput<I(!new), T(!new)>(
    inputs: seq<I>, sanitize: I -> Sanitized<T>, id: T -> string, size: T -> nat, limit: nat, base: nat, budget: nat,
    index: nat)
    requires index < |inputs| && index < MAX_INPUT_SCAN
    requires Fits(Candidates(inputs[..index], sanitize, id), size, limit, base, budget)
    requires NoneInvalid(inputs[..index], sanitize)
    ensures sanitize(inputs[index]).Invalid? ==> Spoils(inputs, sanitize, id, size, limit, base, budget, index)
    ensures !sanitize(inputs[index]).Invalid? ==> NoneInvalid(inputs[..index + 1], sanitize)
    ensures var items := Candidates(inputs[..index], sanitize, id);
      Candidates(inputs[..index + 1], sanitize, id) ==
        match sanitize(inputs[index])
        case Usable(value) => if HasId(items, id, id(value)) then items else items + [value]
        case _ => items
  {
    assert inputs[..index + 1][..index] == inputs[..index];
    assert forall j | 0 <= j < index :: inputs[..index][j] == inputs[j];
  }

  /** What one more item does to the totals. */
  lemma NextItem<T(!new)>(items: seq<T>, id: T -> string, size: T -> nat, limit: nat, base: nat, budget: nat, value: T)
    requires Fits(items, size, limit, base, budget)
    ensures Payload(items + [value], size) == Payload(items, size) + size(value) + (if items != [] then 1 else 0)
    ensures Fits(items + [value], size, limit, base, budget) <==>
            |items| < limit && base + Payload(items + [value], size) <= budget
    ensures forall x :: HasId(items + [value], id, x) <==> HasId(items, id, x) || id(value) == x
  {
    var longer := items + [value];
    assert longer[..|items|] == items;
    forall x
      ensures HasId(longer, id, x) <==> HasId(items, id, x) || id(value) == x
    {
      SeenGrows(items, id, value, x);
    }
  }

  lemma EverythingIsLongest<I(!new), T(!new)>(
    inputs: seq<I>, sanitize: I -> Sanitized<T>, id: T -> string, size: T -> nat,
    limit: nat, base: nat, budget: nat)
    requires |inputs| <= MAX_INPUT_SCAN && NoneInvalid(inputs, sanitize)
    requires Fits(Candidates(inputs, sanitize, id), size, limit, base, budget)
    ensures LongestPrefix(inputs, sanitize, id, size, limit, base, budget, Picked(Candidates(inputs, sanitize, id), false))
    ensures forall i :: !Spoils(inputs, sanitize, id, size, limit, base, budget, i)
  {}

  lemma SeenGrows<T(!new)>(items: seq<T>, id: T -> string, value: T, x: string)
    ensures HasId(items + [value], id, x) <==> HasId(items, id, x) || id(value) == x
  {
    var longer := items + [value];
    if HasId(items, id, x) {
      var k :| 0 <= k < |items| && id(items[k]) == x;
      assert longer[k] == items[k];
    }
    if id(value) == x {
      assert longer[|items|] == value;
    }
  }

  /** The scan ended early after `index` inputs: at the scan limit, or at a candidate that does not fit. */
  ghost predicate Stopped<I(!new), T(!new)>(
    inputs: seq<I>, sanitize: I -> Sanitized<T>, id: T -> string, size: T -> nat,
    limit: nat, base: nat, budget: nat, items: seq<T>, index: nat)
  {
    && index <= |inputs|
    && index <= MAX_INPUT_SCAN
    && var reached := Candidates(inputs[..index], sanitize, id);
       || (reached == items && index == MAX_INPUT_SCAN < |inputs|)
       || (|reached| == |items| + 1 && items <= reached && !Fits(reached, size, limit, base, budget))
  }

  lemma StoppedIsLongest<I(!new), T(!new)>(
    inputs: seq<I>, sanitize: I -> Sanitized<T>, id: T -> string, size: T -> nat,
    limit: nat, base: nat, budget: nat, items: seq<T>, index: nat)
    requires Stopped(inputs, sanitize, id, size, limit, base, budget, items, index)
    requires Fits(items, size, limit, base, budget)
    requires NoneInvalid(inputs[..index], sanitize)
    ensures LongestPrefix(inputs, sanitize, id, size, limit, base, budget, Picked(items, true))
    ensures forall i :: !Spoils(inputs, sanitize, id, size, limit, base, budget, i)
  {
    var scanned := Scanned(inputs);
    var all := Candidates(scanned, sanitize, id);
    var reached := Candidates(inputs[..index], sanitize, id);
    assert scanned[..index] == inputs[..index];
    CandidatesOfPrefix(scanned, sanitize, id, index);
    if reached == items {
      assert scanned == inputs[..index];
      return;
    }
    forall n | |items| < n <= |all|
      ensures !Fits(all[..n], size, limit, base, budget)
    {
      assert all[..n][..|reached|] == reached;
      OverflowStays(all[..n], size, limit, base, budget, |reached|);
    }
    forall i | index <= i < |scanned|
      ensures !Spoils(inputs, sanitize, id, size, limit, base, budget, i)
    {
      assert inputs[..i][..index] == inputs[..index];
      CandidatesOfPrefix(inputs[..i], sanitize, id, index);
      var later := Candidates(inputs[..i], sanitize, id);
      assert later[..|reached|] == reached;
      OverflowStays(later, size, limit, base, budget, |reached|);
    }
  }

  // ---------- The whole packet ----------

  datatype Limits = Limits(maxSources: int, maxAccounts: int, maxChars: int)
  {
    predicate Valid() {
      && 1 <= maxSources <= 40
      && 0 <= maxAccounts <= 30
      && MIN_PACKET_CHARS <= maxChars <= MAX_PACKET_CHARS
    }

    /** What sources may use, leaving room for the accounts. */
    function SourceBudget(): nat
      requires Valid()
      ensures MIN_PACKET_CHARS <= SourceBudget() <= maxChars
    {
      var reserve := if maxChars / 4 < maxAccounts * 480 then maxChars / 4 else maxAccounts * 480;
      if maxChars - reserve < MIN_PACKET_CHARS then MIN_PACKET_CHARS else maxChars - reserve
    }
  }

  /** The accounts' reserve: at most 480 characters for each, at most a quarter of the packet, and as
      much as that allows unless the sources would get less than 2,000. */
  lemma ReserveIs(limits: Limits)
    requires limits.Valid()
    ensures var reserve := limits.maxChars - limits.SourceBudget();
      && 0 <= reserve <= 480 * limits.maxAccounts && 4 * reserve <= limits.maxChars
      && (limits.SourceBudget() == 2000 || reserve == 480 * limits.maxAccounts || 4 * (reserve + 1) > limits.maxChars)
  {}

  datatype BuildResult =
    | Built(packet: Packet)
    | BadLimit
    | InvalidText
    | PacketTooLarge

  function SourceId(s: Source): string {
    s.id
  }

  function AccountId(a: Account): string {
    a.id
  }

  function SourceRule(c: Cleaner): SourceInput -> Sanitized<Source> {
    v => SanitizeSource(c, v)
  }

  function AccountRule(c: Cleaner, allowed: set<string>): AccountInput -> Sanitized<Account> {
    v => SanitizeAccount(c, v, allowed)
  }

  function IdsOf(sources: seq<Source>): set<string> {
    set s | s in sources :: s.id
  }

  function AccountBase(seed: Seed, sources: Picked<Source>): nat {
    SkeletonSize(seed, sources.truncated, false) + Payload(sources.items, SourceSize)
  }

  ghost predicate ChosenSources(c: Cleaner, seed: Seed, inputs: seq<SourceInput>, limits: Limits, picked: Picked<Source>)
    requires limits.Valid()
  {
    LongestPrefix(inputs, SourceRule(c), SourceId, SourceSize, limits.maxSources,
                  SkeletonSize(seed, false, false), limits.SourceBudget(), picked)
  }

  ghost predicate ChosenAccounts(c: Cleaner, seed: Seed, sources: Picked<Source>, inputs: seq<AccountInput>,
                                 limits: Limits, picked: Picked<Account>)
    requires limits.Valid()
  {
    LongestPrefix(inputs, AccountRule(c, IdsOf(sources.items)), AccountId, AccountSize, limits.maxAccounts,
                  AccountBase(seed, sources), limits.maxChars, picked)
  }

  /** The packet holds the cleaned seed, the longest prefix of the distinct usable sources,
      and then the longest prefix of the distinct usable accounts. */
  ghost predicate IsPacketOf(c: Cleaner, seed: SeedInput, sources: seq<SourceInput>, accounts: seq<AccountInput>,
                             limits: Limits, p: Packet)
  {
    && limits.Valid()
    && SanitizeSeed(c, seed) == Some(p.seed)
    && ChosenSources(c, p.seed, sources, limits, Picked(p.sources, p.sourcesTruncated))
    && ChosenAccounts(c, p.seed, Picked(p.sources, p.sourcesTruncated), accounts, limits, Picked(p.accounts, p.accountsTruncated))
  }

  ghost predicate SpoiledSource(c: Cleaner, seed: Seed, inputs: seq<SourceInput>, limits: Limits)
    requires limits.Valid()
  {
    exists i :: Spoils(inputs, SourceRule(c), SourceId, SourceSize, limits.maxSources,
                       SkeletonSize(seed, false, false), limits.SourceBudget(), i)
  }

  ghost predicate SpoiledAccount(c: Cleaner, seed: Seed, sources: Picked<Source>, inputs: seq<AccountInput>, limits: Limits)
    requires limits.Valid()
  {
    exists i :: Spoils(inputs, AccountRule(c, IdsOf(sources.items)), AccountId, AccountSize, limits.maxAccounts,
                       AccountBase(seed, sources), limits.maxChars, i)
  }

  /** Some text that has to be represented breaks its length limit after cleaning. */
  ghost predicate HasInvalidText(c: Cleaner, seed: SeedInput, sources: seq<SourceInput>, accounts: seq<AccountInput>, limits: Limits)
    requires limits.Valid()
  {
    match SanitizeSeed(c, seed)
    case None => true
    case Some(clean) =>
      || SpoiledSource(c, clean, sources, limits)
      || (exists picked :: ChosenSources(c, clean, sources, limits, picked) && SpoiledAccount(c, clean, picked, accounts, limits))
  }

  /** The limits determine what is chosen. */
  lemma LongestPrefixIsUnique<I(!new), T(!new)>(
    inputs: seq<I>, sanitize: I -> Sanitized<T>, id: T -> string, size: T -> nat,
    limit: nat, base: nat, budget: nat, one: Picked<T>, other: Picked<T>)
    requires LongestPrefix(inputs, sanitize, id, size, limit, base, budget, one)
    requires LongestPrefix(inputs, sanitize, id, size, limit, base, budget, other)
    ensures one == other
  {
    var all := Candidates(Scanned(inputs), sanitize, id);
    assert all[..|one.items|] == one.items && all[..|other.items|] == other.items;
  }

  method BuildPacket(c: Cleaner, seed: SeedInput, sources: seq<SourceInput>, accounts: seq<AccountInput>, limits: Limits)
    returns (r: BuildResult)
    requires c.Sound()
    ensures r.BadLimit? <==>
      !(1 <= limits.maxSources <= 40 && 0 <= limits.maxAccounts <= 30 && 2000 <= limits.maxChars <= 100_000)
    ensures r.InvalidText? <==> limits.Valid() && HasInvalidText(c, seed, sources, accounts, limits)
    ensures r.Built? ==> IsPacketOf(c, seed, sources, accounts, limits, r.packet)
    ensures !r.PacketTooLarge?
  {
    hide LongestPrefix, Spoils, PacketSize, Payload, SanitizeSeed, SkeletonSize, IdsOf;
    if !limits.Valid() {
      return BadLimit;
    }
    var clean := SanitizeSeed(c, seed);
    if clean.None? {
      return InvalidText;
    }
    var skeleton := SkeletonSize(clean.value, false, false);
    var chosen := Collect(sources, SourceRule(c), SourceId, SourceSize, limits.maxSources, skeleton, limits.SourceBudget());
    if chosen.None? {
      assert SpoiledSource(c, clean.value, sources, limits);
      return InvalidText;
    }
    var listed := chosen.value;
    assert ChosenSources(c, clean.value, sources, limits, listed);
    forall picked | ChosenSources(c, clean.value, sources, limits, picked)
      ensures picked == listed
    {
      LongestPrefixIsUnique(sources, SourceRule(c), SourceId, SourceSize, limits.maxSources, skeleton,
                            limits.SourceBudget(), picked, listed);
    }
    var base := SkeletonSize(clean.value, listed.truncated, false) + Payload(listed.items, SourceSize);
    var rule := AccountRule(c, IdsOf(listed.items));
    var named := Collect(accounts, rule, AccountId, AccountSize, limits.maxAccounts, base, limits.maxChars);
    assert base == AccountBase(clean.value, listed);
    if named.None? {
      assert SpoiledAccount(c, clean.value, listed, accounts, limits);
      return InvalidText;
    }
    var packet := Packet(clean.value, listed.items, named.value.items, listed.truncated, named.value.truncated);
    assert Picked(listed.items, listed.truncated) == listed && Picked(named.value.items, named.value.truncated) == named.value;
    PacketFits(c, seed, sources, accounts, limits, packet);
    if PacketSize(packet) > limits.maxChars {
      return PacketTooLarge;
    }
    return Built(packet);
  }

  // ---------- What a packet guarantees ----------

  /** Raising a truncation flag only shrinks a packet. */
  lemma FlagsOnlyShrink(seed: Seed, sourcesTruncated: bool, accountsTruncated: bool)
    ensures SkeletonSize(seed, sourcesTruncated, accountsTruncated) ==
            SkeletonSize(seed, false, false) - (if sourcesTruncated then 1 else 0) - (if accountsTruncated then 1 else 0)
  {
    PacketSizeParts(Packet(seed, [], [], sourcesTruncated, accountsTruncated));
    PacketSizeParts(Packet(seed, [], [], false, false));
  }

  lemma QuoteAtMostDoubles(s: string)
    requires Printable(s)
    ensures |Print(Text(s))| <= 2 * |s| + 2
  {
    EscapeAtMostDoubles(s);
  }

  lemma SeedNameLengths()
    ensures |Quote("platform")| == 10
    ensures |Quote("identifier_type")| == 17
    ensures |Quote("identifier")| == 12
    ensures |Quote("grounded-synthesis-evidence-v1")| == 32
  {
    hide Quote;
    PlainQuote("platform");
    PlainQuote("identifier_type");
    PlainQuote("identifier");
    PlainQuote("grounded-synthesis-evidence-v1");
  }

  predicate SeedBounded(seed: Seed) {
    && |seed.platform| <= 240 && Printable(seed.platform)
    && |seed.identifierType| <= 240 && Printable(seed.identifierType)
    && |seed.identifier| <= 160 && Printable(seed.identifier)
  }

  lemma CleanSeedIsBounded(c: Cleaner, v: SeedInput, seed: Seed)
    requires c.Sound() && SanitizeSeed(c, v) == Some(seed)
    ensures SeedBounded(seed)
  {
    hide Strip;
    RequiredTextIsPrintable(c, v.platform, 240);
    RequiredTextIsPrintable(c, v.identifierType, 240);
    PlainUnknown();
  }

  lemma PlainUnknown()
    ensures Printable("unknown")
  {}

  lemma RequiredTextIsPrintable(c: Cleaner, text: string, max: nat)
    requires c.Sound()
    ensures Printable(RequiredText(c, text, max))
  {
    PlainUnknown();
  }

  /** Whatever the seed, its empty packet is below the smallest limit a caller can set. */
  lemma SkeletonFits(seed: Seed, sourcesTruncated: bool, accountsTruncated: bool)
    requires SeedBounded(seed)
    ensures SkeletonSize(seed, sourcesTruncated, accountsTruncated) <= MIN_PACKET_CHARS
  {
    hide Quote, Print, PacketSize;
    PacketSizeParts(Packet(seed, [], [], sourcesTruncated, accountsTruncated));
    NoPayload();
    SeedFits(seed);
    SeedNameLengths();
    VersionIsText();
  }

  lemma NoPayload()
    ensures Payload([], SourceSize) == 0 && Payload([], AccountSize) == 0
  {}

  lemma SeedFits(seed: Seed)
    requires SeedBounded(seed)
    ensures |Print(SeedJson(seed))| <= 1332
  {
    hide Quote, Print;
    QuoteAtMostDoubles(seed.platform);
    QuoteAtMostDoubles(seed.identifierType);
    QuoteAtMostDoubles(seed.identifier);
    SeedNameLengths();
    var m := SeedJson(seed).members;
    ObjectOfThree(m[0], m[1], m[2]);
    assert m == [m[0], m[1], m[2]];
  }

  lemma VersionIsText()
    ensures |Print(Text("grounded-synthesis-evidence-v1"))| == |Quote("grounded-synthesis-evidence-v1")|
  {
    hide Quote;
  }

  /** A packet never exceeds its limit, so the final size check cannot fail; and the sources
      leave the reserve of the accounts alone. */
  lemma PacketFits(c: Cleaner, seed: SeedInput, sources: seq<SourceInput>, accounts: seq<AccountInput>,
                   limits: Limits, p: Packet)
    requires c.Sound() && IsPacketOf(c, seed, sources, accounts, limits, p)
    ensures PacketSize(p) <= limits.maxChars
    ensures PacketSize(p.(accounts := [])) <= limits.SourceBudget()
  {
    CleanSeedIsBounded(c, seed, p.seed);
    SkeletonFits(p.seed, p.sourcesTruncated, p.accountsTruncated);
    FlagsOnlyShrink(p.seed, p.sourcesTruncated, p.accountsTruncated);
    FlagsOnlyShrink(p.seed, p.sourcesTruncated, false);
    PacketSizeIsIncremental(p);
    PacketSizeIsIncremental(p.(accounts := []));
    hide PacketSize, SkeletonSize, SanitizeSeed, Candidates;
  }

  /** Identifiers are distinct, and every citation of an account is a source of the packet. */
  lemma PacketIsConsistent(c: Cleaner, seed: SeedInput, sources: seq<SourceInput>, accounts: seq<AccountInput>,
                           limits: Limits, p: Packet)
    requires IsPacketOf(c, seed, sources, accounts, limits, p)
    ensures forall i, j | 0 <= i < j < |p.sources| :: p.sources[i].id != p.sources[j].id
    ensures forall i, j | 0 <= i < j < |p.accounts| :: p.accounts[i].id != p.accounts[j].id
    ensures forall a | a in p.accounts :: |a.sourceIds| <= 8 && forall x | x in a.sourceIds :: HasId(p.sources, SourceId, x)
  {
    hide Candidates, SanitizeSeed, SkeletonSize, Payload;
    var rule := AccountRule(c, IdsOf(p.sources));
    ChosenAreDistinct(Scanned(sources), SourceRule(c), SourceId, p.sources);
    ChosenAreDistinct(Scanned(accounts), rule, AccountId, p.accounts);
    assert forall i | 0 <= i < |p.sources| :: SourceId(p.sources[i]) == p.sources[i].id;
    assert forall i | 0 <= i < |p.accounts| :: AccountId(p.accounts[i]) == p.accounts[i].id;
    forall a, x | a in p.accounts && x in a.sourceIds
      ensures HasId(p.sources, SourceId, x)
    {
      var k :| 0 <= k < |p.accounts| && p.accounts[k] == a;
      var i := CandidateIsFirst(Scanned(accounts), rule, AccountId, k);
      CitesOnly(c, Scanned(accounts)[i], IdsOf(p.sources));
      CitationIsSource(p.sources, x);
    }
    forall a | a in p.accounts
      ensures |a.sourceIds| <= 8
    {
      var k :| 0 <= k < |p.accounts| && p.accounts[k] == a;
      var i := CandidateIsFirst(Scanned(accounts), rule, AccountId, k);
      CitesOnly(c, Scanned(accounts)[i], IdsOf(p.sources));
    }
  }

  lemma ChosenAreDistinct<I(!new), T(!new)>(inputs: seq<I>, sanitize: I -> Sanitized<T>, id: T -> string, items: seq<T>)
    requires items <= Candidates(inputs, sanitize, id)
    ensures forall i, j | 0 <= i < j < |items| :: id(items[i]) != id(items[j])
  {
    CandidatesAreDistinct(inputs, sanitize, id);
    var all := Candidates(inputs, sanitize, id);
    assert forall i | 0 <= i < |items| :: items[i] == all[i];
  }

  lemma AllChosen<I(!new), T(!new)>(inputs: seq<I>, sanitize: I -> Sanitized<T>, id: T -> string, items: seq<T>)
    requires items == Candidates(inputs, sanitize, id)
    ensures forall i | 0 <= i < |inputs| && sanitize(inputs[i]).Usable? :: HasId(items, id, id(sanitize(inputs[i]).value))
  {
    CandidatesAreDistinct(inputs, sanitize, id);
  }

  lemma CitesOnly(c: Cleaner, v: AccountInput, allowed: set<string>)
    requires SanitizeAccount(c, v, allowed).Usable?
    ensures |SanitizeAccount(c, v, allowed).value.sourceIds| <= 8
    ensures forall x | x in SanitizeAccount(c, v, allowed).value.sourceIds :: x in allowed
  {
    hide RequiredText, Bounded, Strip;
  }

  lemma CitationIsSource(sources: seq<Source>, x: string)
    requires x in IdsOf(sources)
    ensures HasId(sources, SourceId, x)
  {
    var s :| s in sources && s.id == x;
    var k :| 0 <= k < |sources| && sources[k] == s;
    assert SourceId(sources[k]) == x;
  }

  /** When a flag is false, no distinct usable input was left out. */
  lemma UntruncatedMeansComplete(c: Cleaner, seed: SeedInput, sources: seq<SourceInput>, accounts: seq<AccountInput>,
                                 limits: Limits, p: Packet)
    requires IsPacketOf(c, seed, sources, accounts, limits, p)
    ensures !p.sourcesTruncated ==>
      forall i | 0 <= i < |sources| && SanitizeSource(c, sources[i]).Usable? ::
        HasId(p.sources, SourceId, SanitizeSource(c, sources[i]).value.id)
    ensures !p.accountsTruncated ==>
      forall i | 0 <= i < |accounts| && SanitizeAccount(c, accounts[i], IdsOf(p.sources)).Usable? ::
        HasId(p.accounts, AccountId, SanitizeAccount(c, accounts[i], IdsOf(p.sources)).value.id)
  {
    hide Candidates, SanitizeSource, SanitizeAccount, SanitizeSeed, SkeletonSize, Payload, HasId;
    if !p.sourcesTruncated {
      assert p.sources == Candidates(Scanned(sources), SourceRule(c), SourceId);
      AllChosen(Scanned(sources), SourceRule(c), SourceId, p.sources);
      forall i | 0 <= i < |sources| && SanitizeSource(c, sources[i]).Usable?
        ensures HasId(p.sources, SourceId, SanitizeSource(c, sources[i]).value.id)
      {
        assert SourceRule(c)(sources[i]) == SanitizeSource(c, sources[i]);
      }
    }
    if !p.accountsTruncated {
      var rule := AccountRule(c, IdsOf(p.sources));
      assert p.accounts == Candidates(Scanned(accounts), rule, AccountId);
      AllChosen(Scanned(accounts), rule, AccountId, p.accounts);
      forall i | 0 <= i < |accounts| && SanitizeAccount(c, accounts[i], IdsOf(p.sources)).Usable?
        ensures HasId(p.accounts, AccountId, SanitizeAccount(c, accounts[i], IdsOf(p.sources)).value.id)
      {
        assert rule(accounts[i]) == SanitizeAccount(c, accounts[i], IdsOf(p.sources));
      }
    }
  }
}
