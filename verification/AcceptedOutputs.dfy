/** Which texts an output and a packet contain, and what the address check of the validator
    therefore guarantees. */
module AcceptedOutputs {
  import opened Wrappers
  import opened JsonText
  import opened EvidencePacket
  import opened SynthesisOutput
  import opened GroundingValidation

  // ---------- Texts inside a value ----------

  /** The value at a path of positions. */
  function At(j: Json, path: seq<nat>): Option<Json> {
    if path == [] then Some(j)
    else
      match j
      case List(items) => if path[0] < |items| then At(items[path[0]], path[1..]) else None
      case Object(members) => if path[0] < |members| then At(members[path[0]].value, path[1..]) else None
      case _ => None
  }

  /** The text stands somewhere in the value, at any depth. */
  ghost predicate Says(j: Json, text: string) {
    exists path :: At(j, path) == Some(Text(text))
  }

  lemma TextSays(t: string, text: string)
    ensures Says(Text(t), text) <==> t == text
  {
    assert At(Text(t), []) == Some(Text(t));
  }

  lemma LeafSays(j: Json, text: string)
    requires j.Null? || j.Boolean? || j.Number?
    ensures !Says(j, text)
  {}

  lemma ListSays(items: seq<Json>, text: string)
    ensures Says(List(items), text) <==> exists i | 0 <= i < |items| :: Says(items[i], text)
  {
    if Says(List(items), text) {
      var path :| At(List(items), path) == Some(Text(text));
      assert At(items[path[0]], path[1..]) == Some(Text(text));
    }
    if i :| 0 <= i < |items| && Says(items[i], text) {
      var path :| At(items[i], path) == Some(Text(text));
      assert ([i] + path)[1..] == path;
      assert At(List(items), [i] + path) == Some(Text(text));
    }
  }

  lemma ObjectSays(members: seq<Member>, text: string)
    ensures Says(Object(members), text) <==> exists i | 0 <= i < |members| :: Says(members[i].value, text)
  {
    if Says(Object(members), text) {
      var path :| At(Object(members), path) == Some(Text(text));
      assert At(members[path[0]].value, path[1..]) == Some(Text(text));
    }
    if i :| 0 <= i < |members| && Says(members[i].value, text) {
      var path :| At(members[i].value, path) == Some(Text(text));
      assert ([i] + path)[1..] == path;
      assert At(Object(members), [i] + path) == Some(Text(text));
    }
  }

  ghost predicate Mentions(j: Json, urls: string -> set<string>, url: string) {
    exists text :: Says(j, text) && url in urls(text)
  }

  lemma {:induction false} AllUrls(items: seq<Json>, urls: string -> set<string>, url: string)
    ensures url in UrlsInAll(items, urls) <==> exists i | 0 <= i < |items| :: url in UrlsIn(items[i], urls)
  {
    hide UrlsIn;
    if items != [] {
      AllUrls(items[1..], urls, url);
      assert forall i | 1 <= i < |items| :: items[i] == items[1..][i - 1];
    }
  }

  lemma {:induction false} MemberUrls(members: seq<Member>, urls: string -> set<string>, url: string)
    ensures url in UrlsInMembers(members, urls) <==> exists i | 0 <= i < |members| :: url in UrlsIn(members[i].value, urls)
  {
    hide UrlsIn;
    if members != [] {
      MemberUrls(members[1..], urls, url);
      assert forall i | 1 <= i < |members| :: members[i] == members[1..][i - 1];
    }
  }

  /** The walk finds an address exactly when some text inside the value mentions it. */
  lemma {:induction false} UrlsInExactly(j: Json, urls: string -> set<string>, url: string)
    ensures url in UrlsIn(j, urls) <==> Mentions(j, urls, url)
    decreases j
  {
    hide Says, UrlsInAll, UrlsInMembers;
    match j
    case Text(t) =>
      forall text: string ensures Says(j, text) <==> t == text {
        TextSays(t, text);
      }
    case List(items) =>
      AllUrls(items, urls, url);
      forall i | 0 <= i < |items| ensures url in UrlsIn(items[i], urls) <==> Mentions(items[i], urls, url) {
        UrlsInExactly(items[i], urls, url);
      }
      ListMentions(items, urls, url);
    case Object(members) =>
      MemberUrls(members, urls, url);
      forall i | 0 <= i < |members| ensures url in UrlsIn(members[i].value, urls) <==> Mentions(members[i].value, urls, url) {
        UrlsInExactly(members[i].value, urls, url);
      }
      ObjectMentions(members, urls, url);
    case _ =>
      forall text: string ensures !Says(j, text) {
        LeafSays(j, text);
      }
  }

  lemma ListMentions(items: seq<Json>, urls: string -> set<string>, url: string)
    ensures Mentions(List(items), urls, url) <==> exists i | 0 <= i < |items| :: Mentions(items[i], urls, url)
  {
    hide Says;
    forall text: string
      ensures Says(List(items), text) <==> exists i | 0 <= i < |items| :: Says(items[i], text)
    {
      ListSays(items, text);
    }
  }

  lemma ObjectMentions(members: seq<Member>, urls: string -> set<string>, url: string)
    ensures Mentions(Object(members), urls, url) <==> exists i | 0 <= i < |members| :: Mentions(members[i].value, urls, url)
  {
    hide Says;
    forall text: string
      ensures Says(Object(members), text) <==> exists i | 0 <= i < |members| :: Says(members[i].value, text)
    {
      ObjectSays(members, text);
    }
  }

  // ---------- The texts of an output ----------

  predicate ReportSays(r: ReportSynthesis, text: string) {
    || text in {r.reportType, r.conclusion, r.identityStatus, r.confidence, r.majorBoundary}
    || r.likelyIdentity == Some(text) || r.broadLocation == Some(text) || text in r.sourceIds
  }

  predicate FactSays(f: IdentityFact, text: string) {
    text in {f.caption, f.value, f.confidence, f.status} || f.qualification == Some(text) || text in f.sourceIds
  }

  predicate AnswerSays(a: Answer, text: string) {
    a.value == Some(text) || a.confidence == Some(text) || text in {a.basis, a.explanation} || text in a.sourceIds
  }

  predicate TraitSays(t: Trait, text: string) {
    text in {t.caption, t.confidence, t.basis, t.explanation} || text in t.sourceIds
  }

  predicate UnknownSays(u: Unknown, text: string) {
    text in {u.topic, u.explanation} || text in u.sourceIds
  }

  predicate EntrySays(e: TimelineEntry, text: string) {
    || text in {e.entryType, e.title, e.currentness, e.confidence, e.basis, e.explanation}
    || e.organization == Some(text) || e.timeframe == Some(text) || text in e.sourceIds
  }

  predicate HighlightSays(h: Highlight, text: string) {
    text == h.text || text in h.sourceIds
  }

  predicate AnyHighlightSays(highlights: seq<Highlight>, text: string) {
    exists i | 0 <= i < |highlights| :: HighlightSays(highlights[i], text)
  }

  predicate ProfileSays(p: SubjectProfile, text: string) {
    || AnswerSays(p.identity, text) || AnswerSays(p.location, text) || AnswerSays(p.occupation, text) || AnswerSays(p.education, text)
    || (exists i | 0 <= i < |p.interests| :: TraitSays(p.interests[i], text))
    || (exists i | 0 <= i < |p.likes| :: TraitSays(p.likes[i], text))
    || (exists i | 0 <= i < |p.dislikes| :: TraitSays(p.dislikes[i], text))
    || (exists i | 0 <= i < |p.unknowns| :: UnknownSays(p.unknowns[i], text))
    || (exists i | 0 <= i < |p.careerTimeline| :: EntrySays(p.careerTimeline[i], text))
  }

  predicate AssessmentSays(a: Assessment, text: string) {
    || text in {a.accountId, a.platform, a.handle, a.url, a.existence, a.association, a.confidence, a.rationale}
    || text in a.sourceIds || AnyHighlightSays(a.facts, text) || AnyHighlightSays(a.reasons, text)
  }

  predicate SectionSays(s: Section, text: string) {
    text in {s.key, s.title, s.body} || text in s.sourceIds || AnyHighlightSays(s.highlights, text)
  }

  predicate ClaimSays(c: Claim, text: string) {
    || text in {c.claimId, c.predicateName, c.caption, c.value, c.confidence, c.status}
    || text in c.sourceIds || text in c.contradictingIds || c.qualification == Some(text)
    || AnyHighlightSays(c.supporting, text) || AnyHighlightSays(c.limiting, text)
  }

  predicate CandidateSays(c: Candidate, text: string) {
    || text in {c.caption, c.disposition, c.reason} || text in c.sourceIds
    || c.accountId == Some(text) || c.url == Some(text)
  }

  predicate CoverageSays(c: Coverage, text: string) {
    text in {c.channel, c.status, c.detail} || text in c.sourceIds
  }

  /** Some field of the output, at any depth, holds this text. */
  predicate OutputSays(o: Output, text: string) {
    || text in {VersionName(o.version), o.summary} || text in o.summarySourceIds
    || (o.report.Some? && ReportSays(o.report.value, text))
    || (o.profile.Some? && ProfileSays(o.profile.value, text))
    || (exists i | 0 <= i < |o.identityFacts| :: FactSays(o.identityFacts[i], text))
    || (exists i | 0 <= i < |o.assessments| :: AssessmentSays(o.assessments[i], text))
    || (exists i | 0 <= i < |o.sections| :: SectionSays(o.sections[i], text))
    || (exists i | 0 <= i < |o.claims| :: ClaimSays(o.claims[i], text))
    || AnyHighlightSays(o.supportingReasons, text) || AnyHighlightSays(o.limitingReasons, text)
    || (exists i | 0 <= i < |o.excluded| :: CandidateSays(o.excluded[i], text))
    || (exists i | 0 <= i < |o.coverage| :: CoverageSays(o.coverage[i], text))
    || AnyHighlightSays(o.nextSteps, text)
  }

  // ---------- They are the texts of its printed form ----------

  lemma TextsSay(ids: seq<string>, text: string)
    ensures Says(TextList(ids), text) <==> text in ids
  {
    hide Says;
    var items := TextList(ids).items;
    ListSays(items, text);
    forall i | 0 <= i < |ids| ensures Says(items[i], text) <==> ids[i] == text {
      TextSays(ids[i], text);
    }
  }

  lemma MaybeSays(name: string, t: Option<string>, text: string)
    ensures Says(MaybeText(name, t).value, text) <==> t == Some(text)
  {
    hide Says;
    if t.None? {
      LeafSays(Null, text);
    } else {
      TextSays(t.value, text);
    }
  }

  lemma TextsOfMembers(text: string)
    ensures forall t: string :: Says(Text(t), text) <==> t == text
    ensures forall ids :: Says(TextList(ids), text) <==> text in ids
    ensures forall name, t :: Says(MaybeText(name, t).value, text) <==> t == Some(text)
  {
    hide Says;
    forall t: string ensures Says(Text(t), text) <==> t == text {
      TextSays(t, text);
    }
    forall ids ensures Says(TextList(ids), text) <==> text in ids {
      TextsSay(ids, text);
    }
    forall name, t ensures Says(MaybeText(name, t).value, text) <==> t == Some(text) {
      MaybeSays(name, t, text);
    }
  }

  lemma ItemsSay<T(!new)>(name: string, items: seq<T>, form: T -> Json, says: T -> bool, text: string)
    requires forall i | 0 <= i < |items| :: Says(form(items[i]), text) <==> says(items[i])
    ensures Says(Items(name, items, form).value, text) <==> exists i | 0 <= i < |items| :: says(items[i])
  {
    hide Says;
    var list := Items(name, items, form).value.items;
    ListSays(list, text);
    assert forall i | 0 <= i < |items| :: list[i] == form(items[i]);
  }

  lemma HighlightSaysIs(h: Highlight, text: string)
    ensures Says(HighlightJson(h), text) <==> HighlightSays(h, text)
  {
    hide Says, TextList;
    TextsOfMembers(text);
    ObjectSays(HighlightJson(h).members, text);
    var m := HighlightJson(h).members;
    assert Says(m[0].value, text) <==> h.text == text;
    assert Says(m[1].value, text) <==> text in h.sourceIds;
  }

  lemma HighlightsSay(name: string, highlights: seq<Highlight>, text: string)
    ensures Says(Items(name, highlights, HighlightJson).value, text) <==> AnyHighlightSays(highlights, text)
  {
    hide Says, HighlightJson, HighlightSays;
    forall i | 0 <= i < |highlights| ensures Says(HighlightJson(highlights[i]), text) <==> HighlightSays(highlights[i], text) {
      HighlightSaysIs(highlights[i], text);
    }
    ItemsSay(name, highlights, HighlightJson, h => HighlightSays(h, text), text);
  }

  lemma ReportSaysIs(r: ReportSynthesis, text: string)
    ensures Says(ReportJson(r), text) <==> ReportSays(r, text)
  {
    hide Says, TextList, MaybeText, Items;
    TextsOfMembers(text);
    var m := ReportJson(r).members;
    ObjectSays(m, text);
    assert Says(m[0].value, text) <==> r.reportType == text;
    assert Says(m[1].value, text) <==> r.conclusion == text;
    assert Says(m[2].value, text) <==> r.identityStatus == text;
    assert Says(m[3].value, text) <==> r.confidence == text;
    assert Says(m[4].value, text) <==> r.likelyIdentity == Some(text);
    assert Says(m[5].value, text) <==> r.broadLocation == Some(text);
    assert Says(m[6].value, text) <==> r.majorBoundary == text;
    assert Says(m[7].value, text) <==> text in r.sourceIds;
  }

  lemma FactSaysIs(f: IdentityFact, text: string)
    ensures Says(FactJson(f), text) <==> FactSays(f, text)
  {
    hide Says, TextList, MaybeText, Items;
    TextsOfMembers(text);
    var m := FactJson(f).members;
    ObjectSays(m, text);
    assert Says(m[0].value, text) <==> f.caption == text;
    assert Says(m[1].value, text) <==> f.value == text;
    assert Says(m[2].value, text) <==> f.confidence == text;
    assert Says(m[3].value, text) <==> f.status == text;
    assert Says(m[4].value, text) <==> f.qualification == Some(text);
    assert Says(m[5].value, text) <==> text in f.sourceIds;
  }

  lemma AnswerSaysIs(a: Answer, text: string)
    ensures Says(AnswerJson(a), text) <==> AnswerSays(a, text)
  {
    hide Says, TextList, MaybeText, Items;
    TextsOfMembers(text);
    var m := AnswerJson(a).members;
    ObjectSays(m, text);
    assert Says(m[0].value, text) <==> a.value == Some(text);
    assert Says(m[1].value, text) <==> a.confidence == Some(text);
    assert Says(m[2].value, text) <==> a.basis == text;
    assert Says(m[3].value, text) <==> a.explanation == text;
    assert Says(m[4].value, text) <==> text in a.sourceIds;
  }

  lemma TraitSaysIs(t: Trait, text: string)
    ensures Says(TraitJson(t), text) <==> TraitSays(t, text)
  {
    hide Says, TextList, MaybeText, Items;
    TextsOfMembers(text);
    var m := TraitJson(t).members;
    ObjectSays(m, text);
    assert Says(m[0].value, text) <==> t.caption == text;
    assert Says(m[1].value, text) <==> t.confidence == text;
    assert Says(m[2].value, text) <==> t.basis == text;
    assert Says(m[3].value, text) <==> t.explanation == text;
    assert Says(m[4].value, text) <==> text in t.sourceIds;
  }

  lemma UnknownSaysIs(u: Unknown, text: string)
    ensures Says(UnknownJson(u), text) <==> UnknownSays(u, text)
  {
    hide Says, TextList, MaybeText, Items;
    TextsOfMembers(text);
    var m := UnknownJson(u).members;
    ObjectSays(m, text);
    assert Says(m[0].value, text) <==> u.topic == text;
    assert Says(m[1].value, text) <==> u.explanation == text;
    assert Says(m[2].value, text) <==> text in u.sourceIds;
  }

  lemma EntrySaysIs(e: TimelineEntry, text: string)
    ensures Says(EntryJson(e), text) <==> EntrySays(e, text)
  {
    hide Says, TextList, MaybeText, Items;
    TextsOfMembers(text);
    var m := EntryJson(e).members;
    ObjectSays(m, text);
    assert Says(m[0].value, text) <==> e.entryType == text;
    assert Says(m[1].value, text) <==> e.title == text;
    assert Says(m[2].value, text) <==> e.organization == Some(text);
    assert Says(m[3].value, text) <==> e.timeframe == Some(text);
    assert Says(m[4].value, text) <==> e.currentness == text;
    assert Says(m[5].value, text) <==> e.confidence == text;
    assert Says(m[6].value, text) <==> e.basis == text;
    assert Says(m[7].value, text) <==> e.explanation == text;
    assert Says(m[8].value, text) <==> text in e.sourceIds;
  }

  lemma AssessmentSaysIs(a: Assessment, text: string)
    ensures Says(AssessmentJson(a), text) <==> AssessmentSays(a, text)
  {
    hide Says, TextList, MaybeText, Items, AnyHighlightSays;
    TextsOfMembers(text);
    var m := AssessmentJson(a).members;
    ObjectSays(m, text);
    HighlightsSay("public_facts", a.facts, text);
    HighlightsSay("association_reasons", a.reasons, text);
    assert Says(m[0].value, text) <==> a.accountId == text;
    assert Says(m[1].value, text) <==> a.platform == text;
    assert Says(m[2].value, text) <==> a.handle == text;
    assert Says(m[3].value, text) <==> a.url == text;
    assert Says(m[4].value, text) <==> a.existence == text;
    assert Says(m[5].value, text) <==> a.association == text;
    assert Says(m[6].value, text) <==> a.confidence == text;
    assert Says(m[7].value, text) <==> a.rationale == text;
    assert Says(m[8].value, text) <==> text in a.sourceIds;
    assert Says(m[9].value, text) <==> AnyHighlightSays(a.facts, text);
    assert Says(m[10].value, text) <==> AnyHighlightSays(a.reasons, text);
  }

  lemma SectionSaysIs(s: Section, text: string)
    ensures Says(SectionJson(s), text) <==> SectionSays(s, text)
  {
    hide Says, TextList, MaybeText, Items, AnyHighlightSays;
    TextsOfMembers(text);
    var m := SectionJson(s).members;
    ObjectSays(m, text);
    HighlightsSay("highlights", s.highlights, text);
    assert Says(m[0].value, text) <==> s.key == text;
    assert Says(m[1].value, text) <==> s.title == text;
    assert Says(m[2].value, text) <==> s.body == text;
    assert Says(m[3].value, text) <==> text in s.sourceIds;
    assert Says(m[4].value, text) <==> AnyHighlightSays(s.highlights, text);
  }

  lemma ClaimSaysIs(c: Claim, text: string)
    ensures Says(ClaimJson(c), text) <==> ClaimSays(c, text)
  {
    hide Says, TextList, MaybeText, Items, AnyHighlightSays;
    TextsOfMembers(text);
    var m := ClaimJson(c).members;
    ObjectSays(m, text);
    HighlightsSay("supporting_evidence", c.supporting, text);
    HighlightsSay("limiting_evidence", c.limiting, text);
    assert Says(m[0].value, text) <==> c.claimId == text;
    assert Says(m[1].value, text) <==> c.predicateName == text;
    assert Says(m[2].value, text) <==> c.caption == text;
    assert Says(m[3].value, text) <==> c.value == text;
    assert Says(m[4].value, text) <==> c.confidence == text;
    assert Says(m[5].value, text) <==> c.status == text;
    assert Says(m[6].value, text) <==> text in c.sourceIds;
    assert Says(m[7].value, text) <==> text in c.contradictingIds;
    assert Says(m[8].value, text) <==> c.qualification == Some(text);
    assert Says(m[9].value, text) <==> AnyHighlightSays(c.supporting, text);
    assert Says(m[10].value, text) <==> AnyHighlightSays(c.limiting, text);
  }

  lemma CandidateSaysIs(c: Candidate, text: string)
    ensures Says(CandidateJson(c), text) <==> CandidateSays(c, text)
  {
    hide Says, TextList, MaybeText, Items;
    TextsOfMembers(text);
    var m := CandidateJson(c).members;
    ObjectSays(m, text);
    assert Says(m[0].value, text) <==> c.accountId == Some(text);
    assert Says(m[1].value, text) <==> c.caption == text;
    assert Says(m[2].value, text) <==> c.url == Some(text);
    assert Says(m[3].value, text) <==> c.disposition == text;
    assert Says(m[4].value, text) <==> c.reason == text;
    assert Says(m[5].value, text) <==> text in c.sourceIds;
  }

  lemma CoverageSaysIs(c: Coverage, text: string)
    ensures Says(CoverageJson(c), text) <==> CoverageSays(c, text)
  {
    hide Says, TextList, MaybeText, Items;
    TextsOfMembers(text);
    var m := CoverageJson(c).members;
    ObjectSays(m, text);
    assert Says(m[0].value, text) <==> c.channel == text;
    assert Says(m[1].value, text) <==> c.status == text;
    assert Says(m[2].value, text) <==> c.detail == text;
    assert Says(m[3].value, text) <==> text in c.sourceIds;
  }

  lemma ProfileListsSay(p: SubjectProfile, text: string)
    ensures Says(Items("interests", p.interests, TraitJson).value, text) <==> exists i | 0 <= i < |p.interests| :: TraitSays(p.interests[i], text)
    ensures Says(Items("likes", p.likes, TraitJson).value, text) <==> exists i | 0 <= i < |p.likes| :: TraitSays(p.likes[i], text)
    ensures Says(Items("dislikes", p.dislikes, TraitJson).value, text) <==> exists i | 0 <= i < |p.dislikes| :: TraitSays(p.dislikes[i], text)
    ensures Says(Items("unknowns", p.unknowns, UnknownJson).value, text) <==> exists i | 0 <= i < |p.unknowns| :: UnknownSays(p.unknowns[i], text)
    ensures Says(Items("career_timeline", p.careerTimeline, EntryJson).value, text) <==>
      exists i | 0 <= i < |p.careerTimeline| :: EntrySays(p.careerTimeline[i], text)
  {
    hide Says, Items, TraitJson, UnknownJson, EntryJson, TraitSays, UnknownSays, EntrySays;
    forall i | 0 <= i < |p.interests| ensures Says(TraitJson(p.interests[i]), text) <==> TraitSays(p.interests[i], text) {
      TraitSaysIs(p.interests[i], text);
    }
    ItemsSay("interests", p.interests, TraitJson, t => TraitSays(t, text), text);
    forall i | 0 <= i < |p.likes| ensures Says(TraitJson(p.likes[i]), text) <==> TraitSays(p.likes[i], text) {
      TraitSaysIs(p.likes[i], text);
    }
    ItemsSay("likes", p.likes, TraitJson, t => TraitSays(t, text), text);
    forall i | 0 <= i < |p.dislikes| ensures Says(TraitJson(p.dislikes[i]), text) <==> TraitSays(p.dislikes[i], text) {
      TraitSaysIs(p.dislikes[i], text);
    }
    ItemsSay("dislikes", p.dislikes, TraitJson, t => TraitSays(t, text), text);
    forall i | 0 <= i < |p.unknowns| ensures Says(UnknownJson(p.unknowns[i]), text) <==> UnknownSays(p.unknowns[i], text) {
      UnknownSaysIs(p.unknowns[i], text);
    }
    ItemsSay("unknowns", p.unknowns, UnknownJson, t => UnknownSays(t, text), text);
    forall i | 0 <= i < |p.careerTimeline| ensures Says(EntryJson(p.careerTimeline[i]), text) <==> EntrySays(p.careerTimeline[i], text) {
      EntrySaysIs(p.careerTimeline[i], text);
    }
    ItemsSay("career_timeline", p.careerTimeline, EntryJson, t => EntrySays(t, text), text);
  }

  lemma ProfileSaysIs(p: SubjectProfile, text: string)
    ensures Says(ProfileJson(p), text) <==> ProfileSays(p, text)
  {
    hide Says, Items, AnswerJson, AnswerSays, TraitSays, UnknownSays, EntrySays;
    ProfileListsSay(p, text);
    AnswerSaysIs(p.identity, text);
    AnswerSaysIs(p.location, text);
    AnswerSaysIs(p.occupation, text);
    AnswerSaysIs(p.education, text);
    var m := ProfileJson(p).members;
    ObjectSays(m, text);
    assert Says(m[0].value, text) <==> AnswerSays(p.identity, text);
    assert Says(m[1].value, text) <==> AnswerSays(p.location, text);
    assert Says(m[2].value, text) <==> AnswerSays(p.occupation, text);
    assert Says(m[3].value, text) <==> AnswerSays(p.education, text);
    assert Says(m[4].value, text) <==> exists i | 0 <= i < |p.interests| :: TraitSays(p.interests[i], text);
    assert Says(m[5].value, text) <==> exists i | 0 <= i < |p.likes| :: TraitSays(p.likes[i], text);
    assert Says(m[6].value, text) <==> exists i | 0 <= i < |p.dislikes| :: TraitSays(p.dislikes[i], text);
    assert Says(m[7].value, text) <==> exists i | 0 <= i < |p.unknowns| :: UnknownSays(p.unknowns[i], text);
    assert Says(m[8].value, text) <==> exists i | 0 <= i < |p.careerTimeline| :: EntrySays(p.careerTimeline[i], text);
  }

  lemma OutputListsSay(o: Output, text: string)
    ensures Says(Items("identity_facts", o.identityFacts, FactJson).value, text) <==>
      exists i | 0 <= i < |o.identityFacts| :: FactSays(o.identityFacts[i], text)
    ensures Says(Items("account_assessments", o.assessments, AssessmentJson).value, text) <==>
      exists i | 0 <= i < |o.assessments| :: AssessmentSays(o.assessments[i], text)
    ensures Says(Items("narrative_sections", o.sections, SectionJson).value, text) <==>
      exists i | 0 <= i < |o.sections| :: SectionSays(o.sections[i], text)
    ensures Says(Items("claims", o.claims, ClaimJson).value, text) <==> exists i | 0 <= i < |o.claims| :: ClaimSays(o.claims[i], text)
    ensures Says(Items("excluded_candidates", o.excluded, CandidateJson).value, text) <==>
      exists i | 0 <= i < |o.excluded| :: CandidateSays(o.excluded[i], text)
    ensures Says(Items("channel_coverage", o.coverage, CoverageJson).value, text) <==>
      exists i | 0 <= i < |o.coverage| :: CoverageSays(o.coverage[i], text)
  {
    hide Says, Items, FactJson, AssessmentJson, SectionJson, ClaimJson, CandidateJson, CoverageJson, FactSays, AssessmentSays, SectionSays,
      ClaimSays, CandidateSays, CoverageSays;
    forall i | 0 <= i < |o.identityFacts| ensures Says(FactJson(o.identityFacts[i]), text) <==> FactSays(o.identityFacts[i], text) {
      FactSaysIs(o.identityFacts[i], text);
    }
    ItemsSay("identity_facts", o.identityFacts, FactJson, t => FactSays(t, text), text);
    forall i | 0 <= i < |o.assessments| ensures Says(AssessmentJson(o.assessments[i]), text) <==> AssessmentSays(o.assessments[i], text) {
      AssessmentSaysIs(o.assessments[i], text);
    }
    ItemsSay("account_assessments", o.assessments, AssessmentJson, t => AssessmentSays(t, text), text);
    forall i | 0 <= i < |o.sections| ensures Says(SectionJson(o.sections[i]), text) <==> SectionSays(o.sections[i], text) {
      SectionSaysIs(o.sections[i], text);
    }
    ItemsSay("narrative_sections", o.sections, SectionJson, t => SectionSays(t, text), text);
    forall i | 0 <= i < |o.claims| ensures Says(ClaimJson(o.claims[i]), text) <==> ClaimSays(o.claims[i], text) {
      ClaimSaysIs(o.claims[i], text);
    }
    ItemsSay("claims", o.claims, ClaimJson, t => ClaimSays(t, text), text);
    forall i | 0 <= i < |o.excluded| ensures Says(CandidateJson(o.excluded[i]), text) <==> CandidateSays(o.excluded[i], text) {
      CandidateSaysIs(o.excluded[i], text);
    }
    ItemsSay("excluded_candidates", o.excluded, CandidateJson, t => CandidateSays(t, text), text);
    forall i | 0 <= i < |o.coverage| ensures Says(CoverageJson(o.coverage[i]), text) <==> CoverageSays(o.coverage[i], text) {
      CoverageSaysIs(o.coverage[i], text);
    }
    ItemsSay("channel_coverage", o.coverage, CoverageJson, t => CoverageSays(t, text), text);
  }

  lemma SectionsSay(o: Output, text: string)
    ensures Says(if o.report.None? then Null else ReportJson(o.report.value), text) <==> o.report.Some? && ReportSays(o.report.value, text)
    ensures Says(if o.profile.None? then Null else ProfileJson(o.profile.value), text) <==>
      o.profile.Some? && ProfileSays(o.profile.value, text)
  {
    hide Says, ReportJson, ProfileJson, ReportSays, ProfileSays;
    LeafSays(Null, text);
    if o.report.Some? {
      ReportSaysIs(o.report.value, text);
    }
    if o.profile.Some? {
      ProfileSaysIs(o.profile.value, text);
    }
  }

  lemma FourteenSay(m: seq<Member>, text: string)
    requires |m| == 14
    ensures (exists i | 0 <= i < |m| :: Says(m[i].value, text)) <==>
      || Says(m[0].value, text) || Says(m[1].value, text) || Says(m[2].value, text) || Says(m[3].value, text)
      || Says(m[4].value, text) || Says(m[5].value, text) || Says(m[6].value, text) || Says(m[7].value, text)
      || Says(m[8].value, text) || Says(m[9].value, text) || Says(m[10].value, text) || Says(m[11].value, text)
      || Says(m[12].value, text) || Says(m[13].value, text)
  {
    hide Says;
  }

  /** The texts of an output are exactly the texts of its printed form. */
  lemma OutputSaysIs(o: Output, text: string)
    ensures Says(OutputJson(o), text) <==> OutputSays(o, text)
  {
    hide Says, Items, TextList, MaybeText, ReportJson, ProfileJson, VersionName, FactSays, AssessmentSays, SectionSays, ClaimSays,
      CandidateSays, CoverageSays, ReportSays, ProfileSays, AnyHighlightSays;
    TextsOfMembers(text);
    SectionsSay(o, text);
    OutputListsSay(o, text);
    HighlightsSay("supporting_reasons", o.supportingReasons, text);
    HighlightsSay("limiting_reasons", o.limitingReasons, text);
    HighlightsSay("next_verification_steps", o.nextSteps, text);
    var m := OutputJson(o).members;
    ObjectSays(m, text);
    FourteenSay(m, text);
    assert Says(m[0].value, text) <==> VersionName(o.version) == text;
    assert Says(m[1].value, text) <==> o.report.Some? && ReportSays(o.report.value, text);
    assert Says(m[2].value, text) <==> o.profile.Some? && ProfileSays(o.profile.value, text);
    assert Says(m[3].value, text) <==> o.summary == text;
    assert Says(m[4].value, text) <==> text in o.summarySourceIds;
    assert Says(m[5].value, text) <==> exists i | 0 <= i < |o.identityFacts| :: FactSays(o.identityFacts[i], text);
    assert Says(m[6].value, text) <==> exists i | 0 <= i < |o.assessments| :: AssessmentSays(o.assessments[i], text);
    assert Says(m[7].value, text) <==> exists i | 0 <= i < |o.sections| :: SectionSays(o.sections[i], text);
    assert Says(m[8].value, text) <==> exists i | 0 <= i < |o.claims| :: ClaimSays(o.claims[i], text);
    assert Says(m[9].value, text) <==> AnyHighlightSays(o.supportingReasons, text);
    assert Says(m[10].value, text) <==> AnyHighlightSays(o.limitingReasons, text);
    assert Says(m[11].value, text) <==> exists i | 0 <= i < |o.excluded| :: CandidateSays(o.excluded[i], text);
    assert Says(m[12].value, text) <==> exists i | 0 <= i < |o.coverage| :: CoverageSays(o.coverage[i], text);
    assert Says(m[13].value, text) <==> AnyHighlightSays(o.nextSteps, text);
  }

  // ---------- The texts of a packet ----------

  ghost predicate SourceSays(s: Source, text: string) {
    || text in {s.id, s.sourceType, s.trustClass, s.publisher, s.title, s.url, s.excerpt}
    || exists path :: At(s.fields, path) == Some(Text(text))
  }

  predicate AccountSays(a: Account, text: string) {
    text in {a.id, a.platform, a.handle, a.url} || a.displayName == Some(text) || text in a.sourceIds
  }

  /** Some field of the packet holds this text, or it is the name of the packet's form. */
  ghost predicate PacketSays(p: Packet, text: string) {
    || text in {"grounded-synthesis-evidence-v1", p.seed.platform, p.seed.identifierType, p.seed.identifier}
    || (exists i | 0 <= i < |p.sources| :: SourceSays(p.sources[i], text))
    || (exists i | 0 <= i < |p.accounts| :: AccountSays(p.accounts[i], text))
  }

  lemma SourceSaysIs(s: Source, text: string)
    ensures Says(SourceJson(s), text) <==> SourceSays(s, text)
  {
    assert Says(s.fields, text) <==> exists path :: At(s.fields, path) == Some(Text(text));
    hide Says, At;
    TextsOfMembers(text);
    var m := SourceJson(s).members;
    ObjectSays(m, text);
    assert Says(m[0].value, text) <==> s.id == text;
    assert Says(m[1].value, text) <==> s.sourceType == text;
    assert Says(m[2].value, text) <==> s.trustClass == text;
    assert Says(m[3].value, text) <==> s.publisher == text;
    assert Says(m[4].value, text) <==> s.title == text;
    assert Says(m[5].value, text) <==> s.url == text;
    assert Says(m[6].value, text) <==> s.excerpt == text;
    assert Says(m[7].value, text) <==> Says(s.fields, text);
  }

  lemma AccountSaysIs(a: Account, text: string)
    ensures Says(AccountJson(a), text) <==> AccountSays(a, text)
  {
    hide Says, TextList;
    TextsOfMembers(text);
    MaybeSays("display_name", a.displayName, text);
    var m := AccountJson(a).members;
    ObjectSays(m, text);
    assert Says(m[0].value, text) <==> a.id == text;
    assert Says(m[1].value, text) <==> a.platform == text;
    assert Says(m[2].value, text) <==> a.handle == text;
    assert Says(m[3].value, text) <==> a.url == text;
    assert Says(m[4].value, text) <==> a.displayName == Some(text);
    assert Says(m[5].value, text) <==> text in a.sourceIds;
  }

  lemma SeedSaysIs(s: Seed, text: string)
    ensures Says(SeedJson(s), text) <==> text in {s.platform, s.identifierType, s.identifier}
  {
    hide Says;
    TextsOfMembers(text);
    var m := SeedJson(s).members;
    ObjectSays(m, text);
    assert Says(m[0].value, text) <==> s.platform == text;
    assert Says(m[1].value, text) <==> s.identifierType == text;
    assert Says(m[2].value, text) <==> s.identifier == text;
  }

  lemma ListsSay(p: Packet, text: string)
    ensures Says(SourceList(p.sources), text) <==> exists i | 0 <= i < |p.sources| :: SourceSays(p.sources[i], text)
    ensures Says(AccountList(p.accounts), text) <==> exists i | 0 <= i < |p.accounts| :: AccountSays(p.accounts[i], text)
  {
    hide Says, SourceJson, AccountJson, SourceSays, AccountSays;
    ListSays(SourceList(p.sources).items, text);
    forall i | 0 <= i < |p.sources| ensures Says(SourceList(p.sources).items[i], text) <==> SourceSays(p.sources[i], text) {
      SourceSaysIs(p.sources[i], text);
    }
    ListSays(AccountList(p.accounts).items, text);
    forall i | 0 <= i < |p.accounts| ensures Says(AccountList(p.accounts).items[i], text) <==> AccountSays(p.accounts[i], text) {
      AccountSaysIs(p.accounts[i], text);
    }
  }

  lemma PacketSaysIs(p: Packet, text: string)
    ensures Says(PacketJson(p), text) <==> PacketSays(p, text)
  {
    hide Says, SourceList, AccountList, SeedJson, SourceSays, AccountSays;
    TextSays("grounded-synthesis-evidence-v1", text);
    SeedSaysIs(p.seed, text);
    ListsSay(p, text);
    LeafSays(Boolean(p.sourcesTruncated), text);
    LeafSays(Boolean(p.accountsTruncated), text);
    var m := PacketJson(p).members;
    ObjectSays(m, text);
    assert Says(m[0].value, text) <==> "grounded-synthesis-evidence-v1" == text;
    assert Says(m[1].value, text) <==> text in {p.seed.platform, p.seed.identifierType, p.seed.identifier};
    assert Says(m[2].value, text) <==> exists i | 0 <= i < |p.sources| :: SourceSays(p.sources[i], text);
    assert Says(m[3].value, text) <==> exists i | 0 <= i < |p.accounts| :: AccountSays(p.accounts[i], text);
    assert !Says(m[4].value, text) && !Says(m[5].value, text);
  }

  // ---------- The address check ----------

  /** The address check passes exactly when every address that any text of the output mentions is
      mentioned by some text of the packet. */
  lemma AddressCheckExactly(o: Output, p: Packet, outside: Outside)
    ensures UrlsKnown(o, p, outside) <==>
      forall text, url | OutputSays(o, text) && url in outside.urls(text) ::
        exists known :: PacketSays(p, known) && url in outside.urls(known)
  {
    hide UrlsIn, OutputSays, PacketSays, Says, OutputJson, PacketJson, Mentions;
    var urls := outside.urls;
    forall url
      ensures url in UrlsIn(OutputJson(o), urls) <==> exists text :: OutputSays(o, text) && url in urls(text)
    {
      UrlsInExactly(OutputJson(o), urls, url);
      OutputMentions(o, urls, url);
    }
    forall url
      ensures url in UrlsIn(PacketJson(p), urls) <==> exists text :: PacketSays(p, text) && url in urls(text)
    {
      UrlsInExactly(PacketJson(p), urls, url);
      PacketMentions(p, urls, url);
    }
    if UrlsKnown(o, p, outside) {
      forall text, url | OutputSays(o, text) && url in urls(text)
        ensures exists known :: PacketSays(p, known) && url in urls(known)
      {
        assert url in UrlsIn(OutputJson(o), urls);
        assert url in UrlsIn(PacketJson(p), urls);
      }
    }
    if forall text, url | OutputSays(o, text) && url in urls(text) :: exists known :: PacketSays(p, known) && url in urls(known) {
      forall url | url in UrlsIn(OutputJson(o), urls)
        ensures url in UrlsIn(PacketJson(p), urls)
      {
        var text :| OutputSays(o, text) && url in urls(text);
      }
    }
  }

  lemma OutputMentions(o: Output, urls: string -> set<string>, url: string)
    ensures Mentions(OutputJson(o), urls, url) <==> exists text :: OutputSays(o, text) && url in urls(text)
  {
    hide OutputSays, Says, OutputJson;
    forall text ensures Says(OutputJson(o), text) <==> OutputSays(o, text) {
      OutputSaysIs(o, text);
    }
  }

  lemma PacketMentions(p: Packet, urls: string -> set<string>, url: string)
    ensures Mentions(PacketJson(p), urls, url) <==> exists text :: PacketSays(p, text) && url in urls(text)
  {
    hide PacketSays, Says, PacketJson;
    forall text ensures Says(PacketJson(p), text) <==> PacketSays(p, text) {
      PacketSaysIs(p, text);
    }
  }

  // ---------- The citations of an output ----------

  predicate AnyHighlightCites(highlights: seq<Highlight>, id: string) {
    exists i | 0 <= i < |highlights| :: id in highlights[i].sourceIds
  }

  predicate ProfileCitesId(p: SubjectProfile, id: string) {
    || id in p.identity.sourceIds || id in p.location.sourceIds || id in p.occupation.sourceIds || id in p.education.sourceIds
    || (exists i | 0 <= i < |p.interests| :: id in p.interests[i].sourceIds)
    || (exists i | 0 <= i < |p.likes| :: id in p.likes[i].sourceIds)
    || (exists i | 0 <= i < |p.dislikes| :: id in p.dislikes[i].sourceIds)
    || (exists i | 0 <= i < |p.unknowns| :: id in p.unknowns[i].sourceIds)
    || (exists i | 0 <= i < |p.careerTimeline| :: id in p.careerTimeline[i].sourceIds)
  }

  predicate AssessmentCitesId(a: Assessment, id: string) {
    id in a.sourceIds || AnyHighlightCites(a.facts, id) || AnyHighlightCites(a.reasons, id)
  }

  predicate SectionCitesId(s: Section, id: string) {
    id in s.sourceIds || AnyHighlightCites(s.highlights, id)
  }

  predicate ClaimCitesId(c: Claim, id: string) {
    || id in c.sourceIds || id in c.contradictingIds
    || AnyHighlightCites(c.supporting, id) || AnyHighlightCites(c.limiting, id)
  }

  /** Some list of citations of the output, at any depth, holds this id. */
  predicate OutputCitesId(o: Output, id: string) {
    || id in o.summarySourceIds
    || (o.report.Some? && id in o.report.value.sourceIds)
    || (o.profile.Some? && ProfileCitesId(o.profile.value, id))
    || (exists i | 0 <= i < |o.identityFacts| :: id in o.identityFacts[i].sourceIds)
    || (exists i | 0 <= i < |o.assessments| :: AssessmentCitesId(o.assessments[i], id))
    || (exists i | 0 <= i < |o.sections| :: SectionCitesId(o.sections[i], id))
    || (exists i | 0 <= i < |o.claims| :: ClaimCitesId(o.claims[i], id))
    || AnyHighlightCites(o.supportingReasons, id) || AnyHighlightCites(o.limitingReasons, id)
    || (exists i | 0 <= i < |o.excluded| :: id in o.excluded[i].sourceIds)
    || (exists i | 0 <= i < |o.coverage| :: id in o.coverage[i].sourceIds)
    || AnyHighlightCites(o.nextSteps, id)
  }

  lemma HighlightsGather(highlights: seq<Highlight>, id: string)
    ensures id in Gather(highlights, HighlightIds) <==> AnyHighlightCites(highlights, id)
  {
    GatherMembers(highlights, HighlightIds);
    hide Gather;
  }

  lemma ProfileGathers(p: SubjectProfile, id: string)
    ensures id in ProfileIds(p) <==> ProfileCitesId(p, id)
  {
    GatherMembers(p.interests, TraitIds);
    GatherMembers(p.likes, TraitIds);
    GatherMembers(p.dislikes, TraitIds);
    GatherMembers(p.unknowns, UnknownIds);
    GatherMembers(p.careerTimeline, EntryIds);
    hide Gather;
  }

  lemma RecordsGather(id: string)
    ensures forall a :: id in AssessmentIds(a) <==> AssessmentCitesId(a, id)
    ensures forall s :: id in SectionIds(s) <==> SectionCitesId(s, id)
    ensures forall c :: id in ClaimIds(c) <==> ClaimCitesId(c, id)
  {
    hide Gather, AnyHighlightCites;
    forall highlights ensures id in Gather(highlights, HighlightIds) <==> AnyHighlightCites(highlights, id) {
      HighlightsGather(highlights, id);
    }
  }

  /** The walk over an output finds exactly the ids in its lists of citations. */
  lemma CitedExactly(o: Output, id: string)
    ensures id in Cited(OutputJson(o)) <==> OutputCitesId(o, id)
  {
    hide Gather, AnyHighlightCites, AssessmentIds, SectionIds, ClaimIds, ProfileIds, AssessmentCitesId, SectionCitesId, ClaimCitesId,
      ProfileCitesId, Cited, OutputJson;
    WalkIsComplete(o);
    RecordsGather(id);
    if o.profile.Some? {
      ProfileGathers(o.profile.value, id);
    }
    ListsGather(o, id);
    HighlightsGather(o.supportingReasons, id);
    HighlightsGather(o.limitingReasons, id);
    HighlightsGather(o.nextSteps, id);
  }

  lemma ListsGather(o: Output, id: string)
    ensures id in Gather(o.identityFacts, FactIds) <==> exists i | 0 <= i < |o.identityFacts| :: id in o.identityFacts[i].sourceIds
    ensures id in Gather(o.assessments, AssessmentIds) <==> exists i | 0 <= i < |o.assessments| :: id in AssessmentIds(o.assessments[i])
    ensures id in Gather(o.sections, SectionIds) <==> exists i | 0 <= i < |o.sections| :: id in SectionIds(o.sections[i])
    ensures id in Gather(o.claims, ClaimIds) <==> exists i | 0 <= i < |o.claims| :: id in ClaimIds(o.claims[i])
    ensures id in Gather(o.excluded, CandidateIds) <==> exists i | 0 <= i < |o.excluded| :: id in o.excluded[i].sourceIds
    ensures id in Gather(o.coverage, CoverageIds) <==> exists i | 0 <= i < |o.coverage| :: id in o.coverage[i].sourceIds
  {
    hide Gather, AssessmentIds, SectionIds, ClaimIds;
    GatherMembers(o.identityFacts, FactIds);
    GatherMembers(o.assessments, AssessmentIds);
    GatherMembers(o.sections, SectionIds);
    GatherMembers(o.claims, ClaimIds);
    GatherMembers(o.excluded, CandidateIds);
    GatherMembers(o.coverage, CoverageIds);
  }

  // ---------- The accounts of an output ----------

  /** The last account with this id. */
  predicate Latest(accounts: seq<Account>, k: int, id: string) {
    0 <= k < |accounts| && accounts[k].id == id && forall l | k < l < |accounts| :: accounts[l].id != id
  }

  lemma {:induction false} AccountWithIs(accounts: seq<Account>, id: string)
    ensures AccountWith(accounts, id).None? <==> forall k | 0 <= k < |accounts| :: accounts[k].id != id
    ensures forall k | Latest(accounts, k, id) :: AccountWith(accounts, id) == Some(accounts[k])
    ensures AccountWith(accounts, id).Some? ==> exists k | 0 <= k < |accounts| :: Latest(accounts, k, id)
  {
    if accounts != [] {
      var n := |accounts| - 1;
      AccountWithIs(accounts[..n], id);
      if accounts[n].id == id {
        assert Latest(accounts, n, id);
      } else if AccountWith(accounts[..n], id).Some? {
        var k :| 0 <= k < n && Latest(accounts[..n], k, id);
        assert Latest(accounts, k, id);
      }
      forall k | Latest(accounts, k, id)
        ensures AccountWith(accounts, id) == Some(accounts[k])
      {
        if k < n {
          assert Latest(accounts[..n], k, id);
        }
      }
    }
  }

  /** The last account with its id has its address and, after folding, its handle and platform. */
  predicate AssessmentMatches(a: Assessment, accounts: seq<Account>, fold: string -> string) {
    exists k | 0 <= k < |accounts| && Latest(accounts, k, a.accountId) ::
      accounts[k].url == a.url && fold(accounts[k].handle) == fold(a.handle) && fold(accounts[k].platform) == fold(a.platform)
  }

  /** It names no account, or one that exists and has its address when it gives one. */
  predicate CandidateMatches(c: Candidate, accounts: seq<Account>) {
    || c.accountId == None
    || exists k | 0 <= k < |accounts| && Latest(accounts, k, c.accountId.value) :: c.url == None || c.url == Some(accounts[k].url)
  }

  lemma AssessmentProblemExactly(a: Assessment, accounts: seq<Account>, fold: string -> string)
    ensures AssessmentProblem(a, accounts, fold) == Some(UnknownAccount) <==> forall k | 0 <= k < |accounts| :: accounts[k].id != a.accountId
    ensures AssessmentProblem(a, accounts, fold) == None <==> AssessmentMatches(a, accounts, fold)
    ensures AssessmentProblem(a, accounts, fold) in {None, Some(UnknownAccount), Some(AccountMismatch)}
  {
    hide AccountWith;
    AccountWithIs(accounts, a.accountId);
  }

  lemma CandidateProblemExactly(c: Candidate, accounts: seq<Account>)
    ensures CandidateProblem(c, accounts) == Some(UnknownAccount) <==>
      c.accountId.Some? && forall k | 0 <= k < |accounts| :: accounts[k].id != c.accountId.value
    ensures CandidateProblem(c, accounts) == None <==> CandidateMatches(c, accounts)
    ensures CandidateProblem(c, accounts) in {None, Some(UnknownAccount), Some(AccountMismatch)}
  {
    hide AccountWith;
    if c.accountId.Some? {
      AccountWithIs(accounts, c.accountId.value);
    }
  }

  /** What acceptance means, field by field: every id in a list of citations is that of a source;
      every address in any text is in a text of the packet; there is no contact data besides the
      seed, the ids and the handles of the packet; and every assessment and candidate matches the
      account it names. */
  lemma AcceptedExactly(o: Output, p: Packet, outside: Outside)
    ensures Grounded(o, p, outside) <==>
      && (forall id | OutputCitesId(o, id) :: exists i | 0 <= i < |p.sources| :: p.sources[i].id == id)
      && (forall text, url | OutputSays(o, text) && url in outside.urls(text) ::
            exists known :: PacketSays(p, known) && url in outside.urls(known))
      && !outside.contact(o, {p.seed.identifier} + (set i | 0 <= i < |p.sources| :: p.sources[i].id)
                             + (set i | 0 <= i < |p.accounts| :: p.accounts[i].id) + (set i | 0 <= i < |p.accounts| :: p.accounts[i].handle))
      && (forall i | 0 <= i < |o.assessments| :: AssessmentMatches(o.assessments[i], p.accounts, outside.fold))
      && (forall i | 0 <= i < |o.excluded| :: CandidateMatches(o.excluded[i], p.accounts))
  {
    hide UrlsKnown, SourcesKnown, KnownLiterals, OutputSays, PacketSays, OutputCitesId, AssessmentProblem, CandidateProblem,
      AssessmentMatches, CandidateMatches;
    AddressCheckExactly(o, p, outside);
    SourcesExactly(o, p);
    LiteralsExactly(p);
    forall a ensures AssessmentProblem(a, p.accounts, outside.fold).None? <==> AssessmentMatches(a, p.accounts, outside.fold) {
      AssessmentProblemExactly(a, p.accounts, outside.fold);
    }
    forall c ensures CandidateProblem(c, p.accounts).None? <==> CandidateMatches(c, p.accounts) {
      CandidateProblemExactly(c, p.accounts);
    }
    assert forall i | 0 <= i < |o.assessments| :: o.assessments[i] in o.assessments;
    assert forall i | 0 <= i < |o.excluded| :: o.excluded[i] in o.excluded;
  }

  lemma SourcesExactly(o: Output, p: Packet)
    ensures SourcesKnown(o, p) <==> forall id | OutputCitesId(o, id) :: exists i | 0 <= i < |p.sources| :: p.sources[i].id == id
  {
    hide Cited, OutputJson, OutputCitesId;
    forall id ensures id in Cited(OutputJson(o)) <==> OutputCitesId(o, id) {
      CitedExactly(o, id);
    }
    forall id ensures id in IdsOf(p.sources) <==> exists i | 0 <= i < |p.sources| :: p.sources[i].id == id {
      if i :| 0 <= i < |p.sources| && p.sources[i].id == id {
        assert p.sources[i] in p.sources;
      }
    }
  }

  lemma LiteralsExactly(p: Packet)
    ensures KnownLiterals(p) ==
      {p.seed.identifier} + (set i | 0 <= i < |p.sources| :: p.sources[i].id)
      + (set i | 0 <= i < |p.accounts| :: p.accounts[i].id) + (set i | 0 <= i < |p.accounts| :: p.accounts[i].handle)
  {
    assert IdsOf(p.sources) == set i | 0 <= i < |p.sources| :: p.sources[i].id;
    assert (set a | a in p.accounts :: a.id) == set i | 0 <= i < |p.accounts| :: p.accounts[i].id;
    assert (set a | a in p.accounts :: a.handle) == set i | 0 <= i < |p.accounts| :: p.accounts[i].handle;
  }
}
