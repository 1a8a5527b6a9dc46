/** The grounded synthesis a model returns: its data type, the identifiers it cites, and the
    checks that accept it. */
module SynthesisOutput {
  import opened Wrappers
  import opened JsonText
  import opened EvidencePacket

  // ---------- Data model ----------

  datatype ReportSynthesis = ReportSynthesis(
    reportType: string, conclusion: string, identityStatus: string, confidence: string,
    likelyIdentity: Option<string>, broadLocation: Option<string>, majorBoundary: string, sourceIds: seq<string>)

  datatype IdentityFact = IdentityFact(
    caption: string, value: string, confidence: string, status: string, qualification: Option<string>, sourceIds: seq<string>)

  datatype Answer = Answer(
    value: Option<string>, confidence: Option<string>, basis: string, explanation: string, sourceIds: seq<string>)

  datatype Trait = Trait(caption: string, confidence: string, basis: string, explanation: string, sourceIds: seq<string>)

  datatype Unknown = Unknown(topic: string, explanation: string, sourceIds: seq<string>)

  datatype TimelineEntry = TimelineEntry(
    entryType: string, title: string, organization: Option<string>, timeframe: Option<string>, currentness: string,
    confidence: string, basis: string, explanation: string, sourceIds: seq<string>)

  datatype SubjectProfile = SubjectProfile(
    identity: Answer, location: Answer, occupation: Answer, education: Answer,
    interests: seq<Trait>, likes: seq<Trait>, dislikes: seq<Trait>, unknowns: seq<Unknown>,
    careerTimeline: seq<TimelineEntry>)

  datatype Highlight = Highlight(text: string, sourceIds: seq<string>)

  datatype Assessment = Assessment(
    accountId: string, platform: string, handle: string, url: string, existence: string, association: string,
    confidence: string, rationale: string, sourceIds: seq<string>, facts: seq<Highlight>, reasons: seq<Highlight>)

  datatype Section = Section(key: string, title: string, body: string, sourceIds: seq<string>, highlights: seq<Highlight>)

  datatype Claim = Claim(
    claimId: string, predicateName: string, caption: string, value: string, confidence: string, status: string,
    sourceIds: seq<string>, contradictingIds: seq<string>, qualification: Option<string>,
    supporting: seq<Highlight>, limiting: seq<Highlight>)

  datatype Candidate = Candidate(
    accountId: Option<string>, caption: string, url: Option<string>, disposition: string, reason: string, sourceIds: seq<string>)

  datatype Coverage = Coverage(channel: string, status: string, detail: string, sourceIds: seq<string>)

  datatype Version = V1 | V2 | V3 | V4

  datatype Output = Output(
    version: Version,
    report: Option<ReportSynthesis>,
    profile: Option<SubjectProfile>,
    summary: string,
    summarySourceIds: seq<string>,
    identityFacts: seq<IdentityFact>,
    assessments: seq<Assessment>,
    sections: seq<Section>,
    claims: seq<Claim>,
    supportingReasons: seq<Highlight>,
    limitingReasons: seq<Highlight>,
    excluded: seq<Candidate>,
    coverage: seq<Coverage>,
    nextSteps: seq<Highlight>)

  // ---------- The printed form ----------

  function Cites(ids: seq<string>): Member {
    Member("source_ids", TextList(ids))
  }

  function MaybeText(name: string, text: Option<string>): Member {
    Member(name, if text.None? then Null else Text(text.value))
  }

  function Items<T>(name: string, items: seq<T>, form: T -> Json): Member {
    Member(name, List(seq(|items|, i requires 0 <= i < |items| => form(items[i]))))
  }

  function ReportJson(r: ReportSynthesis): Json {
    Object([
      TextMember("report_type", r.reportType), TextMember("one_sentence_conclusion", r.conclusion),
      TextMember("identity_status", r.identityStatus), TextMember("overall_confidence", r.confidence),
      MaybeText("likely_public_identity", r.likelyIdentity), MaybeText("broad_location", r.broadLocation),
      TextMember("major_boundary", r.majorBoundary), Cites(r.sourceIds)])
  }

  function FactJson(f: IdentityFact): Json {
    Object([
      TextMember("label", f.caption), TextMember("value", f.value), TextMember("confidence", f.confidence),
      TextMember("status", f.status), MaybeText("qualification", f.qualification), Cites(f.sourceIds)])
  }

  function AnswerJson(a: Answer): Json {
    Object([
      MaybeText("value", a.value), MaybeText("confidence", a.confidence), TextMember("basis", a.basis),
      TextMember("explanation", a.explanation), Cites(a.sourceIds)])
  }

  function TraitJson(t: Trait): Json {
    Object([
      TextMember("label", t.caption), TextMember("confidence", t.confidence), TextMember("basis", t.basis),
      TextMember("explanation", t.explanation), Cites(t.sourceIds)])
  }

  function UnknownJson(u: Unknown): Json {
    Object([TextMember("topic", u.topic), TextMember("explanation", u.explanation), Cites(u.sourceIds)])
  }

  function EntryJson(e: TimelineEntry): Json {
    Object([
      TextMember("entry_type", e.entryType), TextMember("title", e.title),
      MaybeText("organization", e.organization), MaybeText("timeframe", e.timeframe),
      TextMember("currentness", e.currentness), TextMember("confidence", e.confidence),
      TextMember("basis", e.basis), TextMember("explanation", e.explanation), Cites(e.sourceIds)])
  }

  function ProfileJson(p: SubjectProfile): Json {
    Object([
      Member("identity", AnswerJson(p.identity)), Member("location", AnswerJson(p.location)),
      Member("occupation", AnswerJson(p.occupation)), Member("education", AnswerJson(p.education)),
      Items("interests", p.interests, TraitJson), Items("likes", p.likes, TraitJson),
      Items("dislikes", p.dislikes, TraitJson), Items("unknowns", p.unknowns, UnknownJson),
      Items("career_timeline", p.careerTimeline, EntryJson)])
  }

  function HighlightJson(h: Highlight): Json {
    Object([TextMember("text", h.text), Cites(h.sourceIds)])
  }

  function AssessmentJson(a: Assessment): Json {
    Object([
      TextMember("account_id", a.accountId), TextMember("platform", a.platform),
      TextMember("canonical_handle", a.handle), TextMember("canonical_url", a.url),
      TextMember("existence_status", a.existence), TextMember("association_status", a.association),
      TextMember("confidence", a.confidence), TextMember("rationale", a.rationale), Cites(a.sourceIds),
      Items("public_facts", a.facts, HighlightJson), Items("association_reasons", a.reasons, HighlightJson)])
  }

  function SectionJson(s: Section): Json {
    Object([
      TextMember("key", s.key), TextMember("title", s.title), TextMember("body", s.body), Cites(s.sourceIds),
      Items("highlights", s.highlights, HighlightJson)])
  }

  function ClaimJson(c: Claim): Json {
    Object([
      TextMember("claim_id", c.claimId), TextMember("predicate", c.predicateName), TextMember("label", c.caption),
      TextMember("value", c.value), TextMember("confidence", c.confidence), TextMember("status", c.status),
      Cites(c.sourceIds), Member("contradicting_source_ids", TextList(c.contradictingIds)),
      MaybeText("qualification", c.qualification),
      Items("supporting_evidence", c.supporting, HighlightJson), Items("limiting_evidence", c.limiting, HighlightJson)])
  }

  function CandidateJson(c: Candidate): Json {
    Object([
      MaybeText("account_id", c.accountId), TextMember("label", c.caption), MaybeText("canonical_url", c.url),
      TextMember("disposition", c.disposition), TextMember("reason", c.reason), Cites(c.sourceIds)])
  }

  function CoverageJson(c: Coverage): Json {
    Object([
      TextMember("channel", c.channel), TextMember("status", c.status), TextMember("detail", c.detail), Cites(c.sourceIds)])
  }

  function VersionName(v: Version): string {
    match v
    case V1 => "grounded-digital-footprint-v1"
    case V2 => "grounded-digital-footprint-v2"
    case V3 => "grounded-digital-footprint-v3"
    case V4 => "grounded-digital-footprint-v4"
  }

  function OutputJson(o: Output): Json {
    Object([
      TextMember("schema_version", VersionName(o.version)),
      Member("report_synthesis", if o.report.None? then Null else ReportJson(o.report.value)),
      Member("subject_profile", if o.profile.None? then Null else ProfileJson(o.profile.value)),
      TextMember("summary", o.summary),
      Member("summary_source_ids", TextList(o.summarySourceIds)),
      Items("identity_facts", o.identityFacts, FactJson),
      Items("account_assessments", o.assessments, AssessmentJson),
      Items("narrative_sections", o.sections, SectionJson),
      Items("claims", o.claims, ClaimJson),
      Items("supporting_reasons", o.supportingReasons, HighlightJson),
      Items("limiting_reasons", o.limitingReasons, HighlightJson),
      Items("excluded_candidates", o.excluded, CandidateJson),
      Items("channel_coverage", o.coverage, CoverageJson),
      Items("next_verification_steps", o.nextSteps, HighlightJson)])
  }

  // ---------- A generic walk over printed values ----------

  /** The members that hold citations: every name that ends in `source_ids`. */
  predicate IsCitationName(name: string) {
    |name| >= 10 && name[|name| - 10..] == "source_ids"
  }

  /** The texts of a list. */
  function Texts(j: Json): set<string> {
    if !j.List? then {} else set i | 0 <= i < |j.items| && j.items[i].Text? :: j.items[i].text
  }

  /** Every identifier cited anywhere in a printed value. */
  function Cited(j: Json): set<string>
    decreases j, 0
  {
    match j
    case List(items) => CitedInAll(items)
    case Object(members) => CitedInMembers(members)
    case _ => {}
  }

  function CitedInAll(items: seq<Json>): (ids: set<string>)
    ensures forall x :: x in ids <==> exists i :: 0 <= i < |items| && x in Cited(items[i])
    decreases items, 1
  {
    if items == [] then {}
    else
      var rest := CitedInAll(items[1..]);
      assert forall i | 1 <= i < |items| :: items[i] == items[1..][i - 1];
      Cited(items[0]) + rest
  }

  function CitedInMember(m: Member): set<string>
    decreases m, 1
  {
    (if IsCitationName(m.name) then Texts(m.value) else {}) + Cited(m.value)
  }

  function CitedInMembers(members: seq<Member>): (ids: set<string>)
    ensures forall x :: x in ids <==> exists i :: 0 <= i < |members| && x in CitedInMember(members[i])
    decreases members, 2
  {
    if members == [] then {}
    else
      var rest := CitedInMembers(members[1..]);
      assert forall i | 1 <= i < |members| :: members[i] == members[1..][i - 1];
      CitedInMember(members[0]) + rest
  }

  // ---------- The hand-written walk ----------

  function IdsIn(ids: seq<string>): set<string> {
    set x | x in ids
  }

  /** What all items cite together. */
  function Gather<T(!new)>(items: seq<T>, cites: T -> set<string>): set<string> {
    if items == [] then {} else Gather(items[..|items| - 1], cites) + cites(items[|items| - 1])
  }

  function HighlightIds(h: Highlight): set<string> {
    IdsIn(h.sourceIds)
  }

  function AssessmentIds(a: Assessment): set<string> {
    IdsIn(a.sourceIds) + Gather(a.facts, HighlightIds) + Gather(a.reasons, HighlightIds)
  }

  function SectionIds(s: Section): set<string> {
    IdsIn(s.sourceIds) + Gather(s.highlights, HighlightIds)
  }

  function ClaimIds(c: Claim): set<string> {
    IdsIn(c.sourceIds) + IdsIn(c.contradictingIds) + Gather(c.supporting, HighlightIds) + Gather(c.limiting, HighlightIds)
  }

  function AnswerIds(a: Answer): set<string> {
    IdsIn(a.sourceIds)
  }

  function TraitIds(t: Trait): set<string> {
    IdsIn(t.sourceIds)
  }

  function UnknownIds(u: Unknown): set<string> {
    IdsIn(u.sourceIds)
  }

  function EntryIds(e: TimelineEntry): set<string> {
    IdsIn(e.sourceIds)
  }

  function ProfileIds(p: SubjectProfile): set<string> {
    AnswerIds(p.identity) + AnswerIds(p.location) + AnswerIds(p.occupation) + AnswerIds(p.education)
    + Gather(p.interests, TraitIds) + Gather(p.likes, TraitIds) + Gather(p.dislikes, TraitIds)
    + Gather(p.unknowns, UnknownIds) + Gather(p.careerTimeline, EntryIds)
  }

  function FactIds(f: IdentityFact): set<string> {
    IdsIn(f.sourceIds)
  }

  function CandidateIds(c: Candidate): set<string> {
    IdsIn(c.sourceIds)
  }

  function CoverageIds(c: Coverage): set<string> {
    IdsIn(c.sourceIds)
  }

  // ---------- The walk and the printed form agree ----------

  lemma TextListCites(name: string, ids: seq<string>)
    ensures CitedInMember(Member(name, TextList(ids))) == if IsCitationName(name) then IdsIn(ids) else {}
  {
    var m := Member(name, TextList(ids));
    assert Texts(m.value) == IdsIn(ids) by {
      forall x
        ensures x in Texts(m.value) <==> x in IdsIn(ids)
      {
        if x in ids {
          var i :| 0 <= i < |ids| && ids[i] == x;
          assert m.value.items[i].text == x;
        }
      }
    }
    assert Cited(m.value) == {};
  }

  lemma CitationNames()
    ensures IsCitationName("source_ids")
    ensures IsCitationName("contradicting_source_ids")
    ensures IsCitationName("summary_source_ids")
  {
    assert "source_ids"[0..] == "source_ids";
    assert "contradicting_source_ids"[14..] == "source_ids";
    assert "summary_source_ids"[8..] == "source_ids";
  }

  predicate CitesNothing(m: Member) {
    m.value.Text? || m.value.Null?
  }

  /** A record whose only citations are in one member. */
  lemma CitesOnce(members: seq<Member>, ids: seq<string>)
    requires Cites(ids) in members
    requires forall m | m in members :: m == Cites(ids) || CitesNothing(m)
    ensures Cited(Object(members)) == IdsIn(ids)
  {
    CitationNames();
    TextListCites("source_ids", ids);
    var k :| 0 <= k < |members| && members[k] == Cites(ids);
    assert CitedInMember(members[k]) == IdsIn(ids);
    forall i | 0 <= i < |members|
      ensures CitedInMember(members[i]) <= IdsIn(ids)
    {
      assert members[i] in members;
    }
  }

  lemma {:induction false} GatherMembers<T(!new)>(items: seq<T>, cites: T -> set<string>)
    ensures forall x :: x in Gather(items, cites) <==> exists i :: 0 <= i < |items| && x in cites(items[i])
  {
    if items != [] {
      var earlier := items[..|items| - 1];
      GatherMembers(earlier, cites);
      forall x
        ensures x in Gather(items, cites) <==> exists i :: 0 <= i < |items| && x in cites(items[i])
      {
        if x in Gather(earlier, cites) {
          var i :| 0 <= i < |earlier| && x in cites(earlier[i]);
          assert items[i] == earlier[i];
        }
        if i :| 0 <= i < |items| && x in cites(items[i]) && i < |earlier| {
          assert earlier[i] == items[i];
        }
      }
    }
  }

  /** The items of a list cite what each of them cites. */
  lemma ItemsCite<T(!new)>(name: string, items: seq<T>, form: T -> Json, cites: T -> set<string>)
    requires forall t | t in items :: form(t).Object? && Cited(form(t)) == cites(t)
    ensures CitedInMember(Items(name, items, form)) == Gather(items, cites)
  {
    GatherMembers(items, cites);
    var list := Items(name, items, form).value;
    assert forall i | 0 <= i < |items| :: list.items[i] == form(items[i]) && items[i] in items;
    assert Texts(list) == {};
  }

  lemma HighlightCites(h: Highlight)
    ensures HighlightJson(h).Object? && Cited(HighlightJson(h)) == HighlightIds(h)
  {
    CitesOnce(HighlightJson(h).members, h.sourceIds);
  }

  lemma AnswerCites(a: Answer)
    ensures AnswerJson(a).Object? && Cited(AnswerJson(a)) == AnswerIds(a)
  {
    CitesOnce(AnswerJson(a).members, a.sourceIds);
  }

  lemma TraitCites(t: Trait)
    ensures TraitJson(t).Object? && Cited(TraitJson(t)) == TraitIds(t)
  {
    CitesOnce(TraitJson(t).members, t.sourceIds);
  }

  lemma UnknownCites(u: Unknown)
    ensures UnknownJson(u).Object? && Cited(UnknownJson(u)) == UnknownIds(u)
  {
    CitesOnce(UnknownJson(u).members, u.sourceIds);
  }

  lemma EntryCites(e: TimelineEntry)
    ensures EntryJson(e).Object? && Cited(EntryJson(e)) == EntryIds(e)
  {
    CitesOnce(EntryJson(e).members, e.sourceIds);
  }

  lemma FactCites(f: IdentityFact)
    ensures FactJson(f).Object? && Cited(FactJson(f)) == FactIds(f)
  {
    CitesOnce(FactJson(f).members, f.sourceIds);
  }

  lemma CandidateCites(c: Candidate)
    ensures CandidateJson(c).Object? && Cited(CandidateJson(c)) == CandidateIds(c)
  {
    CitesOnce(CandidateJson(c).members, c.sourceIds);
  }

  lemma CoverageCites(c: Coverage)
    ensures CoverageJson(c).Object? && Cited(CoverageJson(c)) == CoverageIds(c)
  {
    CitesOnce(CoverageJson(c).members, c.sourceIds);
  }

  lemma ReportCites(r: ReportSynthesis)
    ensures Cited(ReportJson(r)) == IdsIn(r.sourceIds)
  {
    CitesOnce(ReportJson(r).members, r.sourceIds);
  }

  lemma HighlightsCite(name: string, items: seq<Highlight>)
    ensures CitedInMember(Items(name, items, HighlightJson)) == Gather(items, HighlightIds)
  {
    forall h | h in items
      ensures HighlightJson(h).Object? && Cited(HighlightJson(h)) == HighlightIds(h)
    {
      HighlightCites(h);
    }
    ItemsCite(name, items, HighlightJson, HighlightIds);
  }

  /** A record cites what its members cite, part by part. */
  lemma {:induction false} AppendMembers(left: seq<Member>, right: seq<Member>)
    ensures CitedInMembers(left + right) == CitedInMembers(left) + CitedInMembers(right)
  {
    if left == [] {
      assert left + right == right;
    } else {
      assert (left + right)[1..] == left[1..] + right;
      AppendMembers(left[1..], right);
    }
  }

  lemma {:induction false} PlainMembers(members: seq<Member>)
    requires forall i | 0 <= i < |members| :: CitesNothing(members[i])
    ensures CitedInMembers(members) == {}
  {
    hide CitedInMember, CitesNothing;
    if members != [] {
      NothingCited(members[0]);
      PlainMembers(members[1..]);
    }
  }

  lemma ThreeMembers(a: Member, b: Member, c: Member)
    ensures CitedInMembers([a, b, c]) == CitedInMember(a) + CitedInMember(b) + CitedInMember(c)
  {
    AppendMembers([a], [b, c]);
    AppendMembers([b], [c]);
    assert [a] + [b, c] == [a, b, c] && [b] + [c] == [b, c];
  }

  lemma SixMembers(a: Member, b: Member, c: Member, d: Member, e: Member, f: Member)
    ensures CitedInMembers([a, b, c, d, e, f]) ==
            CitedInMember(a) + CitedInMember(b) + CitedInMember(c) + CitedInMember(d) + CitedInMember(e) + CitedInMember(f)
  {
    hide CitedInMembers, CitedInMember;
    ThreeMembers(a, b, c);
    ThreeMembers(d, e, f);
    AppendMembers([a, b, c], [d, e, f]);
    assert [a, b, c] + [d, e, f] == [a, b, c, d, e, f];
  }

  /** A record whose first members cite nothing. */
  lemma AfterPlain(members: seq<Member>, n: nat)
    requires n <= |members| && forall i | 0 <= i < n :: CitesNothing(members[i])
    ensures Cited(Object(members)) == CitedInMembers(members[n..])
  {
    hide CitedInMember;
    PlainMembers(members[..n]);
    AppendMembers(members[..n], members[n..]);
    assert members[..n] + members[n..] == members;
  }

  lemma SectionCites(s: Section)
    ensures SectionJson(s).Object? && Cited(SectionJson(s)) == SectionIds(s)
  {
    hide Cited, CitedInMembers, CitedInMember, IsCitationName, TextList, Items;
    CitationNames();
    TextListCites("source_ids", s.sourceIds);
    HighlightsCite("highlights", s.highlights);
    var m := SectionJson(s).members;
    AfterPlain(m, 2);
    assert m[2..] == [m[2], m[3], m[4]];
    ThreeMembers(m[2], m[3], m[4]);
    NothingCited(m[2]);
  }

  lemma NothingCited(m: Member)
    requires CitesNothing(m)
    ensures CitedInMember(m) == {}
  {}

  lemma AssessmentCites(a: Assessment)
    ensures AssessmentJson(a).Object? && Cited(AssessmentJson(a)) == AssessmentIds(a)
  {
    hide Cited, CitedInMembers, CitedInMember, IsCitationName, TextList, Items;
    CitationNames();
    TextListCites("source_ids", a.sourceIds);
    HighlightsCite("public_facts", a.facts);
    HighlightsCite("association_reasons", a.reasons);
    var m := AssessmentJson(a).members;
    AfterPlain(m, 8);
    assert m[8..] == [m[8], m[9], m[10]];
    ThreeMembers(m[8], m[9], m[10]);
  }

  lemma ClaimCites(c: Claim)
    ensures ClaimJson(c).Object? && Cited(ClaimJson(c)) == ClaimIds(c)
  {
    hide Cited, CitedInMembers, CitedInMember, IsCitationName, TextList, Items;
    CitationNames();
    TextListCites("source_ids", c.sourceIds);
    TextListCites("contradicting_source_ids", c.contradictingIds);
    HighlightsCite("supporting_evidence", c.supporting);
    HighlightsCite("limiting_evidence", c.limiting);
    var m := ClaimJson(c).members;
    AfterPlain(m, 5);
    assert m[5..] == [m[5], m[6], m[7], m[8], m[9], m[10]];
    SixMembers(m[5], m[6], m[7], m[8], m[9], m[10]);
    NothingCited(m[5]);
    NothingCited(m[8]);
  }

  lemma ProfileListsCite(p: SubjectProfile)
    ensures CitedInMember(Items("interests", p.interests, TraitJson)) == Gather(p.interests, TraitIds)
    ensures CitedInMember(Items("likes", p.likes, TraitJson)) == Gather(p.likes, TraitIds)
    ensures CitedInMember(Items("dislikes", p.dislikes, TraitJson)) == Gather(p.dislikes, TraitIds)
    ensures CitedInMember(Items("unknowns", p.unknowns, UnknownJson)) == Gather(p.unknowns, UnknownIds)
    ensures CitedInMember(Items("career_timeline", p.careerTimeline, EntryJson)) == Gather(p.careerTimeline, EntryIds)
  {
    hide Cited, CitedInMember, Gather, Items, TraitJson, UnknownJson, EntryJson, TraitIds, UnknownIds, EntryIds;
    forall t: Trait
      ensures TraitJson(t).Object? && Cited(TraitJson(t)) == TraitIds(t)
    {
      TraitCites(t);
    }
    forall u: Unknown
      ensures UnknownJson(u).Object? && Cited(UnknownJson(u)) == UnknownIds(u)
    {
      UnknownCites(u);
    }
    forall e: TimelineEntry
      ensures EntryJson(e).Object? && Cited(EntryJson(e)) == EntryIds(e)
    {
      EntryCites(e);
    }
    ItemsCite("interests", p.interests, TraitJson, TraitIds);
    ItemsCite("likes", p.likes, TraitJson, TraitIds);
    ItemsCite("dislikes", p.dislikes, TraitJson, TraitIds);
    ItemsCite("unknowns", p.unknowns, UnknownJson, UnknownIds);
    ItemsCite("career_timeline", p.careerTimeline, EntryJson, EntryIds);
  }

  lemma AnswerMember(name: string, a: Answer)
    ensures CitedInMember(Member(name, AnswerJson(a))) == AnswerIds(a)
  {
    AnswerCites(a);
  }

  lemma ProfileCites(p: SubjectProfile)
    ensures Cited(ProfileJson(p)) == ProfileIds(p)
  {
    hide Cited, CitedInMembers, CitedInMember, IsCitationName, Items, AnswerJson, Gather, AnswerIds;
    AnswerMember("identity", p.identity);
    AnswerMember("location", p.location);
    AnswerMember("occupation", p.occupation);
    AnswerMember("education", p.education);
    ProfileListsCite(p);
    var m := ProfileJson(p).members;
    ThreeMembers(m[0], m[1], m[2]);
    SixMembers(m[3], m[4], m[5], m[6], m[7], m[8]);
    AppendMembers([m[0], m[1], m[2]], [m[3], m[4], m[5], m[6], m[7], m[8]]);
    assert m == [m[0], m[1], m[2]] + [m[3], m[4], m[5], m[6], m[7], m[8]];
    ObjectCites(m);
  }

  lemma ObjectCites(members: seq<Member>)
    ensures Cited(Object(members)) == CitedInMembers(members)
  {}

  lemma ReportMember(name: string, r: Option<ReportSynthesis>)
    ensures CitedInMember(Member(name, if r.None? then Null else ReportJson(r.value))) ==
            if r.None? then {} else IdsIn(r.value.sourceIds)
  {
    if r.Some? {
      ReportCites(r.value);
    }
  }

  lemma ProfileMember(name: string, p: Option<SubjectProfile>)
    ensures CitedInMember(Member(name, if p.None? then Null else ProfileJson(p.value))) ==
            if p.None? then {} else ProfileIds(p.value)
  {
    hide ProfileIds;
    if p.Some? {
      ProfileCites(p.value);
    }
  }

  lemma OutputListsCite(o: Output)
    ensures CitedInMember(Items("identity_facts", o.identityFacts, FactJson)) == Gather(o.identityFacts, FactIds)
    ensures CitedInMember(Items("account_assessments", o.assessments, AssessmentJson)) == Gather(o.assessments, AssessmentIds)
    ensures CitedInMember(Items("narrative_sections", o.sections, SectionJson)) == Gather(o.sections, SectionIds)
    ensures CitedInMember(Items("claims", o.claims, ClaimJson)) == Gather(o.claims, ClaimIds)
    ensures CitedInMember(Items("excluded_candidates", o.excluded, CandidateJson)) == Gather(o.excluded, CandidateIds)
    ensures CitedInMember(Items("channel_coverage", o.coverage, CoverageJson)) == Gather(o.coverage, CoverageIds)
  {
    hide *;
    forall f: IdentityFact ensures FactJson(f).Object? && Cited(FactJson(f)) == FactIds(f) { FactCites(f); }
    forall a: Assessment ensures AssessmentJson(a).Object? && Cited(AssessmentJson(a)) == AssessmentIds(a) { AssessmentCites(a); }
    forall s: Section ensures SectionJson(s).Object? && Cited(SectionJson(s)) == SectionIds(s) { SectionCites(s); }
    forall c: Claim ensures ClaimJson(c).Object? && Cited(ClaimJson(c)) == ClaimIds(c) { ClaimCites(c); }
    forall c: Candidate ensures CandidateJson(c).Object? && Cited(CandidateJson(c)) == CandidateIds(c) { CandidateCites(c); }
    forall c: Coverage ensures CoverageJson(c).Object? && Cited(CoverageJson(c)) == CoverageIds(c) { CoverageCites(c); }
    ItemsCite("identity_facts", o.identityFacts, FactJson, FactIds);
    ItemsCite("account_assessments", o.assessments, AssessmentJson, AssessmentIds);
    ItemsCite("narrative_sections", o.sections, SectionJson, SectionIds);
    ItemsCite("claims", o.claims, ClaimJson, ClaimIds);
    ItemsCite("excluded_candidates", o.excluded, CandidateJson, CandidateIds);
    ItemsCite("channel_coverage", o.coverage, CoverageJson, CoverageIds);
  }

  /** What the hand-written walk collects, in the order in which it collects it. */
  function OutputIds(o: Output): set<string> {
    IdsIn(o.summarySourceIds)
    + (if o.report.None? then {} else IdsIn(o.report.value.sourceIds))
    + (if o.profile.None? then {} else ProfileIds(o.profile.value))
    + Gather(o.identityFacts, FactIds)
    + Gather(o.assessments, AssessmentIds)
    + Gather(o.sections, SectionIds)
    + Gather(o.claims, ClaimIds)
    + Gather(o.supportingReasons, HighlightIds) + Gather(o.limitingReasons, HighlightIds)
    + Gather(o.excluded, CandidateIds)
    + Gather(o.coverage, CoverageIds)
    + Gather(o.nextSteps, HighlightIds)
  }

  /** The hand-written walk finds exactly what a walk over every `source_ids` member of the
      printed output finds. */
  lemma WalkIsComplete(o: Output)
    ensures Cited(OutputJson(o)) == OutputIds(o)
  {
    hide Cited, CitedInMembers, CitedInMember, IsCitationName, Items, TextList, ReportJson, ProfileJson, Gather, ProfileIds, IdsIn;
    CitationNames();
    TextListCites("summary_source_ids", o.summarySourceIds);
    ReportMember("report_synthesis", o.report);
    ProfileMember("subject_profile", o.profile);
    OutputListsCite(o);
    HighlightsCite("supporting_reasons", o.supportingReasons);
    HighlightsCite("limiting_reasons", o.limitingReasons);
    HighlightsCite("next_verification_steps", o.nextSteps);
    var m := OutputJson(o).members;
    NothingCited(m[0]);
    NothingCited(m[3]);
    FourteenMembers(m);
  }

  lemma FourteenMembers(m: seq<Member>)
    requires |m| == 14
    ensures Cited(Object(m)) ==
            CitedInMember(m[0]) + CitedInMember(m[1]) + CitedInMember(m[2]) + CitedInMember(m[3]) + CitedInMember(m[4])
            + CitedInMember(m[5]) + CitedInMember(m[6]) + CitedInMember(m[7]) + CitedInMember(m[8]) + CitedInMember(m[9])
            + CitedInMember(m[10]) + CitedInMember(m[11]) + CitedInMember(m[12]) + CitedInMember(m[13])
  {
    hide Cited, CitedInMembers, CitedInMember;
    ObjectCites(m);
    SixOf(m, 0);
    AppendMembers(m[..6], m[6..]);
    assert m[..6] + m[6..] == m;
    EightOf(m[6..]);
  }

  lemma EightOf(m: seq<Member>)
    requires |m| == 8
    ensures CitedInMembers(m) ==
            CitedInMember(m[0]) + CitedInMember(m[1]) + CitedInMember(m[2]) + CitedInMember(m[3])
            + CitedInMember(m[4]) + CitedInMember(m[5]) + CitedInMember(m[6]) + CitedInMember(m[7])
  {
    hide CitedInMembers, CitedInMember;
    SixOf(m, 0);
    LastTwo(m[6], m[7]);
    AppendMembers(m[..6], m[6..]);
    assert m[..6] + m[6..] == m && m[6..] == [m[6], m[7]];
  }

  lemma SixOf(m: seq<Member>, k: nat)
    requires k + 6 <= |m|
    ensures CitedInMembers(m[k..k + 6]) ==
            CitedInMember(m[k]) + CitedInMember(m[k + 1]) + CitedInMember(m[k + 2])
            + CitedInMember(m[k + 3]) + CitedInMember(m[k + 4]) + CitedInMember(m[k + 5])
  {
    hide CitedInMembers, CitedInMember;
    SixMembers(m[k], m[k + 1], m[k + 2], m[k + 3], m[k + 4], m[k + 5]);
    assert m[k..k + 6] == [m[k], m[k + 1], m[k + 2], m[k + 3], m[k + 4], m[k + 5]];
  }

  lemma LastTwo(a: Member, b: Member)
    ensures CitedInMembers([a, b]) == CitedInMember(a) + CitedInMember(b)
  {
    AppendMembers([a], [b]);
    assert [a] + [b] == [a, b];
  }

  lemma GatherNext<T(!new)>(items: seq<T>, cites: T -> set<string>, i: nat)
    requires i < |items|
    ensures Gather(items[..i + 1], cites) == Gather(items[..i], cites) + cites(items[i])
  {
    assert items[..i + 1][..i] == items[..i];
  }

  lemma GatherAll<T(!new)>(items: seq<T>, cites: T -> set<string>)
    ensures Gather(items[..0], cites) == {}
    ensures Gather(items[..|items|], cites) == Gather(items, cites)
  {
    assert items[..|items|] == items;
  }

  /** `for item in items: ids.update(...)`. */
  method Update<T(!new)>(ids: set<string>, items: seq<T>, cites: T -> set<string>) returns (more: set<string>)
    ensures more == ids + Gather(items, cites)
  {
    hide Gather;
    more := ids;
    GatherAll(items, cites);
    for i := 0 to |items|
      invariant more == ids + Gather(items[..i], cites)
    {
      GatherNext(items, cites, i);
      more := more + cites(items[i]);
    }
  }

  method ProfileSourceIds(ids: set<string>, p: SubjectProfile) returns (more: set<string>)
    ensures more == ids + ProfileIds(p)
  {
    hide Gather, IdsIn;
    var answers := [p.identity, p.location, p.occupation, p.education];
    more := ids;
    for i := 0 to 4
      invariant more == ids + (if i > 0 then AnswerIds(p.identity) else {}) + (if i > 1 then AnswerIds(p.location) else {})
                        + (if i > 2 then AnswerIds(p.occupation) else {}) + (if i > 3 then AnswerIds(p.education) else {})
    {
      more := more + IdsIn(answers[i].sourceIds);
    }
    more := Update(more, p.interests, TraitIds);
    more := Update(more, p.likes, TraitIds);
    more := Update(more, p.dislikes, TraitIds);
    more := Update(more, p.unknowns, UnknownIds);
    more := Update(more, p.careerTimeline, EntryIds);
  }

  method AssessmentSourceIds(ids: set<string>, assessments: seq<Assessment>) returns (more: set<string>)
    ensures more == ids + Gather(assessments, AssessmentIds)
  {
    hide Gather, IdsIn;
    more := ids;
    GatherAll(assessments, AssessmentIds);
    for i := 0 to |assessments|
      invariant more == ids + Gather(assessments[..i], AssessmentIds)
    {
      GatherNext(assessments, AssessmentIds, i);
      more := more + IdsIn(assessments[i].sourceIds);
      more := Update(more, assessments[i].facts, HighlightIds);
      more := Update(more, assessments[i].reasons, HighlightIds);
    }
  }

  method SectionSourceIds(ids: set<string>, sections: seq<Section>) returns (more: set<string>)
    ensures more == ids + Gather(sections, SectionIds)
  {
    hide Gather, IdsIn;
    more := ids;
    GatherAll(sections, SectionIds);
    for i := 0 to |sections|
      invariant more == ids + Gather(sections[..i], SectionIds)
    {
      GatherNext(sections, SectionIds, i);
      more := more + IdsIn(sections[i].sourceIds);
      more := Update(more, sections[i].highlights, HighlightIds);
    }
  }

  method ClaimSourceIds(ids: set<string>, claims: seq<Claim>) returns (more: set<string>)
    ensures more == ids + Gather(claims, ClaimIds)
  {
    hide Gather, IdsIn;
    more := ids;
    GatherAll(claims, ClaimIds);
    for i := 0 to |claims|
      invariant more == ids + Gather(claims[..i], ClaimIds)
    {
      GatherNext(claims, ClaimIds, i);
      more := more + IdsIn(claims[i].sourceIds);
      more := more + IdsIn(claims[i].contradictingIds);
      more := Update(more, claims[i].supporting, HighlightIds);
      more := Update(more, claims[i].limiting, HighlightIds);
    }
  }

  /** The hand-written walk over an output. */
  method ReferencedSourceIds(o: Output) returns (ids: set<string>)
    ensures ids == Cited(OutputJson(o))
  {
    WalkIsComplete(o);
    hide Gather, IdsIn, Cited, OutputJson, ProfileIds;
    ids := IdsIn(o.summarySourceIds);
    if o.report.Some? {
      ids := ids + IdsIn(o.report.value.sourceIds);
    }
    if o.profile.Some? {
      ids := ProfileSourceIds(ids, o.profile.value);
    }
    ids := Update(ids, o.identityFacts, FactIds);
    ids := AssessmentSourceIds(ids, o.assessments);
    ids := SectionSourceIds(ids, o.sections);
    ids := ClaimSourceIds(ids, o.claims);
    ids := Update(ids, o.supportingReasons, HighlightIds);
    ids := Update(ids, o.limitingReasons, HighlightIds);
    ids := Update(ids, o.excluded, CandidateIds);
    ids := Update(ids, o.coverage, CoverageIds);
    ids := Update(ids, o.nextSteps, HighlightIds);
  }
}
