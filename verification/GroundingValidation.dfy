/** Accepting a synthesis: every identifier, address and account it mentions must be in the
    packet it was given. */
module GroundingValidation {
  import opened Wrappers
  import opened JsonText
  import opened EvidencePacket
  import opened SynthesisOutput

  datatype Code = SchemaInvalid | VersionInvalid | UnknownSource | ContactData | UnknownUrl | UnknownAccount | AccountMismatch

  datatype Verdict = Accepted | Refused(code: Code)

  /** A response the data model could read, and whether every rich field was given explicitly. */
  datatype Parsed = Parsed(output: Output, explicit: bool)

  datatype Requirements = Requirements(rich: bool, v3: bool, v4: bool)

  /** Text functions given from outside: case folding, the addresses inside a text, and
      whether the narrative holds contact data other than the given literals. */
  datatype Outside = Outside(
    fold: string -> string, urls: string -> set<string>, contact: (Output, set<string>) -> bool)

  /** Every address mentioned anywhere in a printed value. */
  function UrlsIn(j: Json, urls: string -> set<string>): set<string>
    decreases j, 0
  {
    match j
    case Text(text) => urls(text)
    case List(items) => UrlsInAll(items, urls)
    case Object(members) => UrlsInMembers(members, urls)
    case _ => {}
  }

  function UrlsInAll(items: seq<Json>, urls: string -> set<string>): set<string>
    decreases items, 1
  {
    if items == [] then {} else UrlsIn(items[0], urls) + UrlsInAll(items[1..], urls)
  }

  function UrlsInMembers(members: seq<Member>, urls: string -> set<string>): set<string>
    decreases members, 1
  {
    if members == [] then {} else UrlsIn(members[0].value, urls) + UrlsInMembers(members[1..], urls)
  }

  // ---------- Accounts ----------

  /** Two rows with one id: the later one counts. */
  function AccountWith(accounts: seq<Account>, id: string): Option<Account> {
    if accounts == [] then None
    else if accounts[|accounts| - 1].id == id then Some(accounts[|accounts| - 1])
    else AccountWith(accounts[..|accounts| - 1], id)
  }

  function AssessmentProblem(a: Assessment, accounts: seq<Account>, fold: string -> string): Option<Code> {
    match AccountWith(accounts, a.accountId)
    case None => Some(UnknownAccount)
    case Some(known) =>
      if a.url != known.url || fold(a.handle) != fold(known.handle) || fold(a.platform) != fold(known.platform)
      then Some(AccountMismatch)
      else None
  }

  function CandidateProblem(c: Candidate, accounts: seq<Account>): Option<Code> {
    if c.accountId.None? then None
    else
      match AccountWith(accounts, c.accountId.value)
      case None => Some(UnknownAccount)
      case Some(known) => if c.url.Some? && c.url.value != known.url then Some(AccountMismatch) else None
  }

  /** Some entry fails with this code, and every entry before it passes. */
  ghost predicate FirstProblem(o: Output, accounts: seq<Account>, fold: string -> string, code: Code) {
    || (exists i | 0 <= i < |o.assessments| ::
          && AssessmentProblem(o.assessments[i], accounts, fold) == Some(code)
          && forall j | 0 <= j < i :: AssessmentProblem(o.assessments[j], accounts, fold).None?)
    || (&& (forall j | 0 <= j < |o.assessments| :: AssessmentProblem(o.assessments[j], accounts, fold).None?)
        && exists i | 0 <= i < |o.excluded| ::
             && CandidateProblem(o.excluded[i], accounts) == Some(code)
             && forall j | 0 <= j < i :: CandidateProblem(o.excluded[j], accounts).None?)
  }

  predicate AccountsMatch(o: Output, accounts: seq<Account>, fold: string -> string) {
    && (forall a | a in o.assessments :: AssessmentProblem(a, accounts, fold).None?)
    && (forall c | c in o.excluded :: CandidateProblem(c, accounts).None?)
  }

  method AccountsById(accounts: seq<Account>) returns (byId: map<string, Account>)
    ensures forall x :: AccountWith(accounts, x) == if x in byId then Some(byId[x]) else None
  {
    byId := map[];
    for i := 0 to |accounts|
      invariant forall x :: AccountWith(accounts[..i], x) == if x in byId then Some(byId[x]) else None
    {
      assert accounts[..i + 1][..i] == accounts[..i];
      byId := byId[accounts[i].id := accounts[i]];
    }
    assert accounts[..|accounts|] == accounts;
  }

  method CheckAccounts(o: Output, accounts: seq<Account>, fold: string -> string) returns (problem: Option<Code>)
    ensures problem.None? <==> AccountsMatch(o, accounts, fold)
    ensures problem.Some? ==> FirstProblem(o, accounts, fold, problem.value)
  {
    hide AccountWith;
    var byId := AccountsById(accounts);
    for i := 0 to |o.assessments|
      invariant forall j | 0 <= j < i :: AssessmentProblem(o.assessments[j], accounts, fold).None?
    {
      var a := o.assessments[i];
      if a.accountId !in byId {
        assert AssessmentProblem(o.assessments[i], accounts, fold) == Some(UnknownAccount);
        return Some(UnknownAccount);
      }
      var known := byId[a.accountId];
      if a.url != known.url || fold(a.handle) != fold(known.handle) || fold(a.platform) != fold(known.platform) {
        assert AssessmentProblem(o.assessments[i], accounts, fold) == Some(AccountMismatch);
        return Some(AccountMismatch);
      }
    }
    for i := 0 to |o.excluded|
      invariant forall j | 0 <= j < i :: CandidateProblem(o.excluded[j], accounts).None?
    {
      var c := o.excluded[i];
      if c.accountId.Some? {
        if c.accountId.value !in byId {
          assert CandidateProblem(o.excluded[i], accounts) == Some(UnknownAccount);
          return Some(UnknownAccount);
        }
        if c.url.Some? && c.url.value != byId[c.accountId.value].url {
          assert CandidateProblem(o.excluded[i], accounts) == Some(AccountMismatch);
          return Some(AccountMismatch);
        }
      }
    }
    return None;
  }

  // ---------- The validator ----------

  predicate VersionOk(v: Version, need: Requirements) {
    && (need.rich ==> v != V1)
    && (need.v3 ==> v == V3)
    && (need.v4 ==> v == V4)
  }

  predicate SourcesKnown(o: Output, p: Packet) {
    Cited(OutputJson(o)) <= IdsOf(p.sources)
  }

  function KnownLiterals(p: Packet): set<string> {
    {p.seed.identifier} + IdsOf(p.sources) + (set a | a in p.accounts :: a.id) + (set a | a in p.accounts :: a.handle)
  }

  predicate UrlsKnown(o: Output, p: Packet, outside: Outside) {
    UrlsIn(OutputJson(o), outside.urls) <= UrlsIn(PacketJson(p), outside.urls)
  }

  predicate WellFormed(parsed: Option<Parsed>, need: Requirements) {
    && parsed.Some?
    && VersionOk(parsed.value.output.version, need)
    && (need.rich || need.v3 || need.v4 ==> parsed.value.explicit)
  }

  /** The output mentions nothing that is not in its packet. */
  predicate Grounded(o: Output, p: Packet, outside: Outside) {
    && SourcesKnown(o, p)
    && !outside.contact(o, KnownLiterals(p))
    && UrlsKnown(o, p, outside)
    && AccountsMatch(o, p.accounts, outside.fold)
  }

  /** What each refusal tells about the output: the named check is the first that fails. */
  ghost predicate Justified(code: Code, parsed: Option<Parsed>, p: Packet, need: Requirements, outside: Outside) {
    match code
    case SchemaInvalid => parsed.None? || (VersionOk(parsed.value.output.version, need) && !WellFormed(parsed, need))
    case VersionInvalid => parsed.Some? && !VersionOk(parsed.value.output.version, need)
    case UnknownSource => WellFormed(parsed, need) && !SourcesKnown(parsed.value.output, p)
    case ContactData =>
      WellFormed(parsed, need) && SourcesKnown(parsed.value.output, p) && outside.contact(parsed.value.output, KnownLiterals(p))
    case UnknownUrl =>
      && WellFormed(parsed, need) && SourcesKnown(parsed.value.output, p)
      && !outside.contact(parsed.value.output, KnownLiterals(p)) && !UrlsKnown(parsed.value.output, p, outside)
    case _ =>
      && WellFormed(parsed, need) && SourcesKnown(parsed.value.output, p)
      && !outside.contact(parsed.value.output, KnownLiterals(p)) && UrlsKnown(parsed.value.output, p, outside)
      && FirstProblem(parsed.value.output, p.accounts, outside.fold, code)
  }

  method Validate(parsed: Option<Parsed>, p: Packet, need: Requirements, outside: Outside) returns (v: Verdict)
    ensures v.Accepted? <==>
      && parsed.Some?
      && (need.rich ==> parsed.value.output.version in {V2, V3, V4}) && (need.v3 ==> parsed.value.output.version == V3)
      && (need.v4 ==> parsed.value.output.version == V4)
      && (need.rich || need.v3 || need.v4 ==> parsed.value.explicit)
      && Grounded(parsed.value.output, p, outside)
    ensures v.Refused? ==> Justified(v.code, parsed, p, need, outside)
  {
    hide Cited, OutputJson, AccountsMatch, FirstProblem, KnownLiterals, IdsOf, UrlsIn, PacketJson;
    if parsed.None? {
      return Refused(SchemaInvalid);
    }
    var o := parsed.value.output;
    if need.rich && o.version !in {V2, V3, V4} {
      return Refused(VersionInvalid);
    }
    if need.v3 && o.version != V3 {
      return Refused(VersionInvalid);
    }
    if need.v4 && o.version != V4 {
      return Refused(VersionInvalid);
    }
    if (need.rich || need.v3 || need.v4) && !parsed.value.explicit {
      return Refused(SchemaInvalid);
    }
    var referenced := ReferencedSourceIds(o);
    if !(referenced <= IdsOf(p.sources)) {
      return Refused(UnknownSource);
    }
    if outside.contact(o, KnownLiterals(p)) {
      return Refused(ContactData);
    }
    if !(UrlsIn(OutputJson(o), outside.urls) <= UrlsIn(PacketJson(p), outside.urls)) {
      return Refused(UnknownUrl);
    }
    var problem := CheckAccounts(o, p.accounts, outside.fold);
    if problem.Some? {
      AccountCodes(o, p.accounts, outside.fold, problem.value);
      return Refused(problem.value);
    }
    return Accepted;
  }

  lemma AccountCodes(o: Output, accounts: seq<Account>, fold: string -> string, code: Code)
    requires FirstProblem(o, accounts, fold, code)
    ensures code == UnknownAccount || code == AccountMismatch
  {
    hide AccountWith;
  }

  lemma {:induction false} AccountWithIsMember(accounts: seq<Account>, id: string)
    requires AccountWith(accounts, id).Some?
    ensures AccountWith(accounts, id).value in accounts && AccountWith(accounts, id).value.id == id
  {
    if accounts[|accounts| - 1].id != id {
      AccountWithIsMember(accounts[..|accounts| - 1], id);
    }
  }

  /** In a packet that was built, the account an accepted assessment names is the one account
      with that id, and the assessment repeats its address, handle and platform. */
  lemma AcceptedAccounts(c: Cleaner, seed: SeedInput, sources: seq<SourceInput>, accounts: seq<AccountInput>, limits: Limits,
                         p: Packet, o: Output, outside: Outside, a: Assessment)
    requires IsPacketOf(c, seed, sources, accounts, limits, p)
    requires Grounded(o, p, outside) && a in o.assessments
    ensures exists k | 0 <= k < |p.accounts| ::
      && p.accounts[k].id == a.accountId
      && p.accounts[k].url == a.url
      && outside.fold(p.accounts[k].handle) == outside.fold(a.handle)
      && outside.fold(p.accounts[k].platform) == outside.fold(a.platform)
      && forall j | 0 <= j < |p.accounts| && p.accounts[j].id == a.accountId :: j == k
  {
    hide IsPacketOf, SourcesKnown, UrlsKnown, KnownLiterals, AccountWith, CandidateProblem;
    PacketIsConsistent(c, seed, sources, accounts, limits, p);
    AccountWithIsMember(p.accounts, a.accountId);
    var known := AccountWith(p.accounts, a.accountId).value;
    var k :| 0 <= k < |p.accounts| && p.accounts[k] == known;
    assert p.accounts[k].url == a.url;
  }
}
