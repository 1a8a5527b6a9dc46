/** The schema generated from the output data type, what rewriting makes of it, and the outputs
    that conform to the result. */
module OutputSchema {
  import opened Wrappers
  import opened JsonText
  import opened EvidencePacket
  import opened SynthesisOutput
  import opened GroundingSchema

  // ---------- The data type, field by field ----------

  datatype Shape =
    | ReportShape | FactShape | AnswerShape | TraitShape | UnknownShape | EntryShape | ProfileShape | HighlightShape
    | AssessmentShape | SectionShape | ReasonShape | ClaimShape | CandidateShape | CoverageShape

  datatype FieldKind =
    | FreeText
    | Column
    | Choice(values: seq<string>)
    | MaybeFree
    | MaybeColumn
    | MaybeChoice(values: seq<string>)
    | Citations
    | RefTo(shape: Shape)
    | MaybeRef(shape: Shape)
    | Many(shape: Shape)

  datatype Field = Field(name: string, kind: FieldKind, fallback: Option<Json>)

  function F(name: string, kind: FieldKind): Field {
    Field(name, kind, None)
  }

  function D(name: string, kind: FieldKind, fallback: Json): Field {
    Field(name, kind, Some(fallback))
  }

  const NOTHING: Json := List([])

  function DefinitionName(s: Shape): string {
    match s
    case ReportShape => "GroundedReportSynthesis"
    case FactShape => "GroundedIdentityFact"
    case AnswerShape => "GroundedProfileAnswer"
    case TraitShape => "GroundedProfileTrait"
    case UnknownShape => "GroundedProfileUnknown"
    case EntryShape => "GroundedTimelineEntry"
    case ProfileShape => "GroundedSubjectProfile"
    case HighlightShape => "GroundedNarrativeHighlight"
    case AssessmentShape => "GroundedAccountAssessment"
    case SectionShape => "GroundedNarrativeSection"
    case ReasonShape => "GroundedReason"
    case ClaimShape => "GroundedClaim"
    case CandidateShape => "GroundedCandidateAssessment"
    case CoverageShape => "GroundedChannelCoverage"
  }

  const Shapes: seq<Shape> :=
    [ReportShape, FactShape, AnswerShape, TraitShape, UnknownShape, EntryShape, ProfileShape, HighlightShape,
     AssessmentShape, SectionShape, ReasonShape, ClaimShape, CandidateShape, CoverageShape]

  const REPORT_TYPES: seq<string> := ["person_centric", "account_centric"]
  const IDENTITY_STATUSES: seq<string> := ["confirmed", "likely", "possible", "ambiguous", "unresolved"]
  const FACT_STATUSES: seq<string> := ["observed", "self_described", "indexed", "likely", "independently_unverified", "unknown"]
  const EVIDENCE_BASES: seq<string> := ["observed", "self_described", "indexed", "inferred", "mixed", "unknown"]
  const TOPICS: seq<string> :=
    ["identity", "location", "occupation", "education", "interests", "likes", "dislikes", "projects", "other"]
  const EXISTENCES: seq<string> :=
    ["exact_verified", "indexed_profile", "candidate", "unverified", "no_exact_hit", "channel_limited", "excluded", "unknown"]
  const ASSOCIATIONS: seq<string> := ["confirmed", "likely", "possible", "unverified", "excluded", "not_applicable"]
  const SECTION_KEYS: seq<string> :=
    ["identity", "identity_resolution", "account_cluster", "professional", "education", "activity", "interests",
     "projects_and_publications", "cross_platform_links", "connections", "excluded_candidates", "coverage", "caveats",
     "limitations"]
  const PREDICATES: seq<string> :=
    ["account.association", "account.cross_platform_link", "account.display_name", "account.public_bio",
     "account.self_described_location", "activity.public_interest", "activity.public_project", "person.broad_location",
     "person.public_identity", "professional.education", "professional.public_company", "professional.public_headline",
     "professional.public_website", "professional.role"]
  const CLAIM_STATUSES: seq<string> :=
    ["confirmed", "likely", "possible", "independently_unverified", "contradicted", "unknown"]
  const DISPOSITIONS: seq<string> := ["excluded", "unverified", "derivative", "no_exact_hit", "separate_cluster"]
  const COVERAGES: seq<string> :=
    ["confirmed", "likely", "candidate", "unverified", "no_exact_hit", "channel_limited", "excluded", "not_checked"]
  const VERSIONS: seq<string> :=
    ["grounded-digital-footprint-v1", "grounded-digital-footprint-v2", "grounded-digital-footprint-v3",
     "grounded-digital-footprint-v4"]

  function FieldsOf(s: Shape): seq<Field> {
    match s
    case ReportShape =>
      [F("report_type", Choice(REPORT_TYPES)), F("one_sentence_conclusion", FreeText),
       F("identity_status", Choice(IDENTITY_STATUSES)), F("overall_confidence", Choice(CONFIDENCES)),
       F("likely_public_identity", MaybeFree), F("broad_location", MaybeFree), F("major_boundary", FreeText),
       F("source_ids", Citations)]
    case FactShape =>
      [F("label", FreeText), F("value", FreeText), F("confidence", Choice(CONFIDENCES)), F("status", Choice(FACT_STATUSES)),
       F("qualification", MaybeFree), F("source_ids", Citations)]
    case AnswerShape =>
      [F("value", MaybeFree), F("confidence", MaybeChoice(CONFIDENCES)), F("basis", Choice(EVIDENCE_BASES)),
       F("explanation", FreeText), F("source_ids", Citations)]
    case TraitShape =>
      [F("label", FreeText), F("confidence", Choice(CONFIDENCES)), F("basis", Choice(TRAIT_BASES)), F("explanation", FreeText),
       F("source_ids", Citations)]
    case UnknownShape => [F("topic", Choice(TOPICS)), F("explanation", FreeText), F("source_ids", Citations)]
    case EntryShape =>
      [F("entry_type", FreeText), F("title", FreeText), F("organization", MaybeFree), F("timeframe", MaybeFree),
       F("currentness", FreeText), F("confidence", FreeText), F("basis", FreeText), F("explanation", FreeText),
       F("source_ids", Citations)]
    case ProfileShape =>
      [F("identity", RefTo(AnswerShape)), F("location", RefTo(AnswerShape)), F("occupation", RefTo(AnswerShape)),
       F("education", RefTo(AnswerShape)), F("interests", Many(TraitShape)), F("likes", Many(TraitShape)),
       F("dislikes", Many(TraitShape)), F("unknowns", Many(UnknownShape)), D("career_timeline", Many(EntryShape), NOTHING)]
    case HighlightShape => [F("text", FreeText), F("source_ids", Citations)]
    case AssessmentShape =>
      [F("account_id", Column), F("platform", Column), F("canonical_handle", Column), F("canonical_url", Column),
       F("existence_status", Choice(EXISTENCES)), F("association_status", Choice(ASSOCIATIONS)),
       F("confidence", Choice(CONFIDENCES)), F("rationale", FreeText), F("source_ids", Citations),
       D("public_facts", Many(HighlightShape), NOTHING), D("association_reasons", Many(HighlightShape), NOTHING)]
    case SectionShape =>
      [F("key", Choice(SECTION_KEYS)), F("title", FreeText), F("body", FreeText), F("source_ids", Citations),
       D("highlights", Many(HighlightShape), NOTHING)]
    case ReasonShape => [F("text", FreeText), F("source_ids", Citations)]
    case ClaimShape =>
      [D("claim_id", FreeText, Text("legacy-claim")), F("predicate", Choice(PREDICATES)), F("label", FreeText),
       F("value", FreeText), F("confidence", Choice(CONFIDENCES)), D("status", Choice(CLAIM_STATUSES), Text("possible")),
       F("source_ids", Citations), D("contradicting_source_ids", Citations, NOTHING), F("qualification", MaybeFree),
       D("supporting_evidence", Many(HighlightShape), NOTHING), D("limiting_evidence", Many(HighlightShape), NOTHING)]
    case CandidateShape =>
      [F("account_id", MaybeColumn), F("label", FreeText), F("canonical_url", MaybeColumn),
       F("disposition", Choice(DISPOSITIONS)), F("reason", FreeText), F("source_ids", Citations)]
    case CoverageShape =>
      [F("channel", FreeText), F("status", Choice(COVERAGES)), F("detail", FreeText), F("source_ids", Citations)]
  }

  const OutputFields: seq<Field> :=
    [D("schema_version", Choice(VERSIONS), Text("grounded-digital-footprint-v1")),
     D("report_synthesis", MaybeRef(ReportShape), Null), D("subject_profile", MaybeRef(ProfileShape), Null),
     F("summary", FreeText), F("summary_source_ids", Citations), D("identity_facts", Many(FactShape), NOTHING),
     D("account_assessments", Many(AssessmentShape), NOTHING), F("narrative_sections", Many(SectionShape)),
     F("claims", Many(ClaimShape)), F("supporting_reasons", Many(ReasonShape)), F("limiting_reasons", Many(ReasonShape)),
     D("excluded_candidates", Many(CandidateShape), NOTHING), D("channel_coverage", Many(CoverageShape), NOTHING),
     D("next_verification_steps", Many(ReasonShape), NOTHING)]

  // ---------- The generated schema ----------

  function TextSchema(): (schema: Json)
    ensures schema.Object?
  {
    Object([Member("type", Text("string"))])
  }

  function NullSchema(): Json {
    Object([Member("type", Text("null"))])
  }

  function Either(one: Json): (schema: Json)
    ensures schema.Object?
  {
    Object([Member("anyOf", List([one, NullSchema()]))])
  }

  function ListSchema(item: Json): Json {
    Object([Member("type", Text("array")), Member("items", item)])
  }

  function KindSchema(kind: FieldKind): (schema: Json)
    ensures schema.Object?
  {
    match kind
    case FreeText => TextSchema()
    case Column => TextSchema()
    case Choice(values) => ChoiceSchema(values)
    case MaybeFree => Either(TextSchema())
    case MaybeColumn => Either(TextSchema())
    case MaybeChoice(values) => Either(ChoiceSchema(values))
    case Citations => ListSchema(TextSchema())
    case RefTo(shape) => ReferenceSchema(DefinitionName(shape))
    case MaybeRef(shape) => Either(ReferenceSchema(DefinitionName(shape)))
    case Many(shape) => ListSchema(ReferenceSchema(DefinitionName(shape)))
  }

  function FieldSchema(f: Field): (schema: Json)
    ensures schema.Object?
  {
    Object((if f.fallback.Some? then [Member("default", f.fallback.value)] else []) + KindSchema(f.kind).members)
  }

  function FieldMembers(fields: seq<Field>): seq<Member> {
    seq(|fields|, i requires 0 <= i < |fields| => Member(fields[i].name, FieldSchema(fields[i])))
  }

  function FieldNames(fields: seq<Field>): seq<string> {
    seq(|fields|, i requires 0 <= i < |fields| => fields[i].name)
  }

  /** The fields without a default. */
  function RequiredNames(fields: seq<Field>): seq<string> {
    if fields == [] then [] else (if fields[0].fallback.None? then [fields[0].name] else []) + RequiredNames(fields[1..])
  }

  /** The keywords of a data type that forbids extra fields. */
  function RecordKeywords(properties: seq<Member>, required: seq<string>): seq<Member> {
    [Member("additionalProperties", Boolean(false)), Member("properties", Object(properties)),
     Member("required", TextList(required)), Member("type", Text("object"))]
  }

  function RecordSchema(fields: seq<Field>): Json {
    Object(RecordKeywords(FieldMembers(fields), RequiredNames(fields)))
  }

  function GeneratedDefinitions(): seq<Member> {
    seq(|Shapes|, i requires 0 <= i < |Shapes| => Member(DefinitionName(Shapes[i]), RecordSchema(FieldsOf(Shapes[i]))))
  }

  function RootKeywords(definitions: seq<Member>, properties: seq<Member>, required: seq<string>): seq<Member> {
    [Member("$defs", Object(definitions))] + RecordKeywords(properties, required)
  }

  function GeneratedSchema(): Json {
    Object(RootKeywords(GeneratedDefinitions(), FieldMembers(OutputFields), RequiredNames(OutputFields)))
  }

  // ---------- Names ----------

  /** Two names that differ in length, first or third character. */
  predicate Differ(a: string, b: string) {
    |a| != |b| || (|a| >= 3 && (a[0] != b[0] || a[2] != b[2]))
  }

  predicate Ends(name: string) {
    name != "" && (name[|name| - 1] != 's' || (|name| >= 2 && name[|name| - 2] != 'd'))
  }

  predicate FieldOk(f: Field) {
    && |f.name| >= 3 && (|f.name| != 7 || f.name[1] != 'e' || f.name[2] != 'f') && (|f.name| != 10 || f.name[0] != 'p')
    && (f.kind.Citations? <==> IsCitationName(f.name))
    && (f.kind.Column? || f.kind.MaybeColumn? <==> IsColumnName(f.name))
  }

  predicate FieldsOk(fields: seq<Field>) {
    && (forall i | 0 <= i < |fields| :: FieldOk(fields[i]))
    && (forall i, j | 0 <= i < j < |fields| :: Differ(fields[i].name, fields[j].name))
  }

  /** A name that ends in neither `d` and `s` is no citation. */
  lemma PlainEnd(name: string)
    requires Ends(name)
    ensures !IsCitationName(name)
  {
    if |name| >= 10 {
      assert name[|name| - 10..][9] == name[|name| - 1] && name[|name| - 10..][8] == name[|name| - 2];
    }
  }

  predicate ColumnShape(name: string) {
    || (|name| == 10 && name[0] == 'a' && name[1] == 'c')
    || (|name| == 13 && name[0] == 'c' && name[10] == 'u')
    || (|name| == 16 && name[0] == 'c' && name[10] == 'h')
    || (|name| == 8 && name[0] == 'p')
  }

  lemma ColumnNames(name: string)
    ensures IsColumnName(name) ==> ColumnShape(name)
  {}

  /** What can be read off a name and a kind. */
  predicate Evident(f: Field) {
    && |f.name| >= 3 && (|f.name| != 7 || f.name[1] != 'e' || f.name[2] != 'f') && (|f.name| != 10 || f.name[0] != 'p')
    && (if f.kind.Citations?
        then f.name == "source_ids" || f.name == "contradicting_source_ids" || f.name == "summary_source_ids"
        else Ends(f.name))
    && (if f.kind.Column? || f.kind.MaybeColumn? then IsColumnName(f.name) else !ColumnShape(f.name))
  }

  lemma EvidentOk(f: Field)
    requires Evident(f)
    ensures FieldOk(f)
  {
    hide Ends, ColumnShape, IsCitationName;
    ColumnNames(f.name);
    CitationNames();
    if !f.kind.Citations? {
      PlainEnd(f.name);
    }
  }

  predicate Apart(fields: seq<Field>) {
    forall i, j | 0 <= i < j < |fields| :: Differ(fields[i].name, fields[j].name)
  }

  lemma EvidentFields(fields: seq<Field>)
    requires (forall i | 0 <= i < |fields| :: Evident(fields[i])) && Apart(fields)
    ensures FieldsOk(fields)
  {
    hide Evident, FieldOk, Differ;
    forall i | 0 <= i < |fields| ensures FieldOk(fields[i]) {
      EvidentOk(fields[i]);
    }
  }

  lemma FactFields(s: Shape)
    requires s.FactShape?
    ensures (forall i | 0 <= i < |FieldsOf(s)| :: Evident(FieldsOf(s)[i])) && Apart(FieldsOf(s))
  {
    hide REPORT_TYPES, IDENTITY_STATUSES, FACT_STATUSES, EVIDENCE_BASES, TOPICS, EXISTENCES, ASSOCIATIONS, SECTION_KEYS, PREDICATES,
      CLAIM_STATUSES, DISPOSITIONS, COVERAGES, VERSIONS, CONFIDENCES, TRAIT_BASES, NOTHING;
  }

  lemma AnswerFields(s: Shape)
    requires s.AnswerShape? || s.UnknownShape?
    ensures (forall i | 0 <= i < |FieldsOf(s)| :: Evident(FieldsOf(s)[i])) && Apart(FieldsOf(s))
  {
    hide REPORT_TYPES, IDENTITY_STATUSES, FACT_STATUSES, EVIDENCE_BASES, TOPICS, EXISTENCES, ASSOCIATIONS, SECTION_KEYS, PREDICATES,
      CLAIM_STATUSES, DISPOSITIONS, COVERAGES, VERSIONS, CONFIDENCES, TRAIT_BASES, NOTHING;
  }

  lemma TraitFields(s: Shape)
    requires s.TraitShape? || s.HighlightShape? || s.ReasonShape?
    ensures (forall i | 0 <= i < |FieldsOf(s)| :: Evident(FieldsOf(s)[i])) && Apart(FieldsOf(s))
  {
    hide REPORT_TYPES, IDENTITY_STATUSES, FACT_STATUSES, EVIDENCE_BASES, TOPICS, EXISTENCES, ASSOCIATIONS, SECTION_KEYS, PREDICATES,
      CLAIM_STATUSES, DISPOSITIONS, COVERAGES, VERSIONS, CONFIDENCES, TRAIT_BASES, NOTHING;
  }

  lemma SectionFields(s: Shape)
    requires s.SectionShape?
    ensures (forall i | 0 <= i < |FieldsOf(s)| :: Evident(FieldsOf(s)[i])) && Apart(FieldsOf(s))
  {
    hide REPORT_TYPES, IDENTITY_STATUSES, FACT_STATUSES, EVIDENCE_BASES, TOPICS, EXISTENCES, ASSOCIATIONS, SECTION_KEYS, PREDICATES,
      CLAIM_STATUSES, DISPOSITIONS, COVERAGES, VERSIONS, CONFIDENCES, TRAIT_BASES, NOTHING;
  }

  lemma CandidateFields(s: Shape)
    requires s.CandidateShape?
    ensures (forall i | 0 <= i < |FieldsOf(s)| :: Evident(FieldsOf(s)[i])) && Apart(FieldsOf(s))
  {
    hide REPORT_TYPES, IDENTITY_STATUSES, FACT_STATUSES, EVIDENCE_BASES, TOPICS, EXISTENCES, ASSOCIATIONS, SECTION_KEYS, PREDICATES,
      CLAIM_STATUSES, DISPOSITIONS, COVERAGES, VERSIONS, CONFIDENCES, TRAIT_BASES, NOTHING;
  }

  lemma CoverageFields(s: Shape)
    requires s.CoverageShape?
    ensures (forall i | 0 <= i < |FieldsOf(s)| :: Evident(FieldsOf(s)[i])) && Apart(FieldsOf(s))
  {
    hide REPORT_TYPES, IDENTITY_STATUSES, FACT_STATUSES, EVIDENCE_BASES, TOPICS, EXISTENCES, ASSOCIATIONS, SECTION_KEYS, PREDICATES,
      CLAIM_STATUSES, DISPOSITIONS, COVERAGES, VERSIONS, CONFIDENCES, TRAIT_BASES, NOTHING;
  }

  lemma ReportFields(s: Shape)
    requires s.ReportShape?
    ensures (forall i | 0 <= i < |FieldsOf(s)| :: Evident(FieldsOf(s)[i])) && Apart(FieldsOf(s))
  {
    hide REPORT_TYPES, IDENTITY_STATUSES, FACT_STATUSES, EVIDENCE_BASES, TOPICS, EXISTENCES, ASSOCIATIONS, SECTION_KEYS, PREDICATES,
      CLAIM_STATUSES, DISPOSITIONS, COVERAGES, VERSIONS, CONFIDENCES, TRAIT_BASES, NOTHING;
  }

  lemma EntryFields(s: Shape)
    requires s.EntryShape?
    ensures (forall i | 0 <= i < |FieldsOf(s)| :: Evident(FieldsOf(s)[i])) && Apart(FieldsOf(s))
  {
    hide REPORT_TYPES, IDENTITY_STATUSES, FACT_STATUSES, EVIDENCE_BASES, TOPICS, EXISTENCES, ASSOCIATIONS, SECTION_KEYS, PREDICATES,
      CLAIM_STATUSES, DISPOSITIONS, COVERAGES, VERSIONS, CONFIDENCES, TRAIT_BASES, NOTHING;
  }

  lemma ProfileFields(s: Shape)
    requires s.ProfileShape?
    ensures (forall i | 0 <= i < |FieldsOf(s)| :: Evident(FieldsOf(s)[i])) && Apart(FieldsOf(s))
  {
    hide REPORT_TYPES, IDENTITY_STATUSES, FACT_STATUSES, EVIDENCE_BASES, TOPICS, EXISTENCES, ASSOCIATIONS, SECTION_KEYS, PREDICATES,
      CLAIM_STATUSES, DISPOSITIONS, COVERAGES, VERSIONS, CONFIDENCES, TRAIT_BASES, NOTHING;
  }

  lemma AssessmentFields(s: Shape)
    requires s.AssessmentShape?
    ensures forall i | 0 <= i < |FieldsOf(s)| :: Evident(FieldsOf(s)[i])
  {
    hide REPORT_TYPES, IDENTITY_STATUSES, FACT_STATUSES, EVIDENCE_BASES, TOPICS, EXISTENCES, ASSOCIATIONS, SECTION_KEYS, PREDICATES,
      CLAIM_STATUSES, DISPOSITIONS, COVERAGES, VERSIONS, CONFIDENCES, TRAIT_BASES, NOTHING;
  }

  lemma AssessmentApart(s: Shape)
    requires s.AssessmentShape?
    ensures Apart(FieldsOf(s))
  {
    hide REPORT_TYPES, IDENTITY_STATUSES, FACT_STATUSES, EVIDENCE_BASES, TOPICS, EXISTENCES, ASSOCIATIONS, SECTION_KEYS, PREDICATES,
      CLAIM_STATUSES, DISPOSITIONS, COVERAGES, VERSIONS, CONFIDENCES, TRAIT_BASES, NOTHING;
  }

  lemma ClaimFields(s: Shape)
    requires s.ClaimShape?
    ensures forall i | 0 <= i < |FieldsOf(s)| :: Evident(FieldsOf(s)[i])
  {
    hide REPORT_TYPES, IDENTITY_STATUSES, FACT_STATUSES, EVIDENCE_BASES, TOPICS, EXISTENCES, ASSOCIATIONS, SECTION_KEYS, PREDICATES,
      CLAIM_STATUSES, DISPOSITIONS, COVERAGES, VERSIONS, CONFIDENCES, TRAIT_BASES, NOTHING;
  }

  lemma ClaimApart(s: Shape)
    requires s.ClaimShape?
    ensures Apart(FieldsOf(s))
  {
    hide REPORT_TYPES, IDENTITY_STATUSES, FACT_STATUSES, EVIDENCE_BASES, TOPICS, EXISTENCES, ASSOCIATIONS, SECTION_KEYS, PREDICATES,
      CLAIM_STATUSES, DISPOSITIONS, COVERAGES, VERSIONS, CONFIDENCES, TRAIT_BASES, NOTHING;
  }

  /** The fields of every record have distinct names of the expected kinds. */
  lemma ShapeOk(s: Shape)
    ensures FieldsOk(FieldsOf(s))
  {
    hide FieldsOf, FieldsOk, Evident, Apart;
    match s {
      case ReportShape => ReportFields(s);
      case EntryShape => EntryFields(s);
      case ProfileShape => ProfileFields(s);
      case AssessmentShape =>
        AssessmentFields(s);
        AssessmentApart(s);
      case ClaimShape =>
        ClaimFields(s);
        ClaimApart(s);
      case SectionShape => SectionFields(s);
      case CandidateShape => CandidateFields(s);
      case CoverageShape => CoverageFields(s);
      case FactShape => FactFields(s);
      case AnswerShape => AnswerFields(s);
      case UnknownShape => AnswerFields(s);
      case _ => TraitFields(s);
    }
    EvidentFields(FieldsOf(s));
  }

  lemma OutputEvident()
    ensures forall i | 0 <= i < |OutputFields| :: Evident(OutputFields[i])
  {
    hide REPORT_TYPES, IDENTITY_STATUSES, FACT_STATUSES, EVIDENCE_BASES, TOPICS, EXISTENCES, ASSOCIATIONS, SECTION_KEYS, PREDICATES,
      CLAIM_STATUSES, DISPOSITIONS, COVERAGES, VERSIONS, CONFIDENCES, TRAIT_BASES, NOTHING;
  }

  lemma OutputApart()
    ensures Apart(OutputFields)
  {
    hide REPORT_TYPES, IDENTITY_STATUSES, FACT_STATUSES, EVIDENCE_BASES, TOPICS, EXISTENCES, ASSOCIATIONS, SECTION_KEYS, PREDICATES,
      CLAIM_STATUSES, DISPOSITIONS, COVERAGES, VERSIONS, CONFIDENCES, TRAIT_BASES, NOTHING;
  }

  lemma OutputOk()
    ensures FieldsOk(OutputFields)
  {
    hide FieldsOk, Evident, Apart;
    OutputEvident();
    OutputApart();
    EvidentFields(OutputFields);
  }

  // ---------- The generated schema is a model schema ----------

  /** No member of these two names anywhere: rewriting leaves such a value alone. */
  predicate Inert(j: Json)
    decreases j
  {
    match j
    case List(items) => forall i | 0 <= i < |items| :: Inert(items[i])
    case Object(members) =>
      forall i | 0 <= i < |members| :: members[i].name != "default" && members[i].name != "properties" && Inert(members[i].value)
    case _ => true
  }

  lemma {:induction false} InertStays(j: Json, a: Allowed)
    requires Inert(j)
    ensures RequireAll(j) == j && Constrain(j, a) == j
    decreases j
  {
    match j
    case List(items) =>
      RequiredList(items);
      ConstrainedLeaf(j, a);
      forall i | 0 <= i < |items| ensures RequireAll(items[i]) == items[i] && Constrain(items[i], a) == items[i] {
        InertStays(items[i], a);
      }
      assert RequireAll(j).items == items && Constrain(j, a).items == items;
    case Object(members) =>
      NoSuchMember(members, "properties");
      RequireMembersAt(members);
      ConstrainedLeaf(j, a);
      ConstrainMembersAt(members, a);
      forall i | 0 <= i < |members|
        ensures RequireAll(members[i].value) == members[i].value && Constrain(members[i].value, a) == members[i].value
      {
        InertStays(members[i].value, a);
      }
      assert RequireMembers(members) == members && ConstrainMembers(members, a) == members;
    case _ =>
  }

  lemma TextsAreInert(texts: seq<string>)
    ensures Inert(TextList(texts))
  {}

  lemma EitherIsInert(one: Json)
    requires Inert(one)
    ensures Inert(Either(one))
  {
    assert Inert(NullSchema());
    assert Inert(List([one, NullSchema()]));
  }

  lemma ListIsInert(item: Json)
    requires Inert(item)
    ensures Inert(ListSchema(item))
  {}

  lemma KindIsInert(kind: FieldKind)
    ensures Inert(KindSchema(kind))
  {
    hide DefinitionName, TextList;
    assert Inert(TextSchema());
    match kind {
      case Choice(values) => TextsAreInert(values);
      case MaybeFree => EitherIsInert(TextSchema());
      case MaybeColumn => EitherIsInert(TextSchema());
      case MaybeChoice(values) =>
        TextsAreInert(values);
        assert Inert(ChoiceSchema(values));
        EitherIsInert(ChoiceSchema(values));
      case Citations => ListIsInert(TextSchema());
      case MaybeRef(shape) =>
        assert Inert(ReferenceSchema(DefinitionName(shape)));
        EitherIsInert(ReferenceSchema(DefinitionName(shape)));
      case Many(shape) =>
        assert Inert(ReferenceSchema(DefinitionName(shape)));
        ListIsInert(ReferenceSchema(DefinitionName(shape)));
      case _ =>
    }
  }

  function ListKey(item: Json, name: string): Option<Json> {
    if name == "type" then Some(Text("array")) else if name == "items" then Some(item) else None
  }

  function ChoiceKey(values: seq<string>, name: string): Option<Json> {
    if name == "type" then Some(Text("string")) else if name == "enum" then Some(TextList(values)) else None
  }

  function RecordKey(properties: seq<Member>, required: seq<string>, name: string): Option<Json> {
    if name == "additionalProperties" then Some(Boolean(false))
    else if name == "properties" then Some(Object(properties))
    else if name == "required" then Some(TextList(required))
    else if name == "type" then Some(Text("object"))
    else None
  }

  function RootKey(definitions: seq<Member>, properties: seq<Member>, required: seq<string>, name: string): Option<Json> {
    if name == "$defs" then Some(Object(definitions)) else RecordKey(properties, required, name)
  }

  /** The keywords of the schema of each kind. */
  lemma KindKeys(kind: FieldKind)
    ensures forall name :: Get(TextSchema().members, name) == if name == "type" then Some(Text("string")) else None
    ensures forall name :: Get(NullSchema().members, name) == if name == "type" then Some(Text("null")) else None
    ensures forall one, name :: Get(Either(one).members, name) == if name == "anyOf" then Some(List([one, NullSchema()])) else None
    ensures forall item, name :: Get(ListSchema(item).members, name) == ListKey(item, name)
    ensures forall values, name :: Get(ChoiceSchema(values).members, name) == ChoiceKey(values, name)
    ensures forall target, name :: Get(ReferenceSchema(target).members, name) == (if name == "$ref" then Some(Text("#/$defs/" + target)) else None)
  {
    hide Get, TextList;
    OneKey(Member("type", Text("string")));
    OneKey(Member("type", Text("null")));
    forall one, name ensures Get(Either(one).members, name) == if name == "anyOf" then Some(List([one, NullSchema()])) else None {
      OneKey(Member("anyOf", List([one, NullSchema()])));
    }
    forall item, name
      ensures Get(ListSchema(item).members, name) == ListKey(item, name)
    {
      KeysOf(Member("type", Text("array")), Member("items", item));
    }
    forall values, name
      ensures Get(ChoiceSchema(values).members, name) == ChoiceKey(values, name)
    {
      KeysOf(Member("type", Text("string")), Member("enum", TextList(values)));
    }
    forall target, name
      ensures Get(ReferenceSchema(target).members, name) == if name == "$ref" then Some(Text("#/$defs/" + target)) else None
    {
      OneKey(Member("$ref", Text("#/$defs/" + target)));
    }
  }

  lemma OneKey(m: Member)
    ensures forall name :: Get([m], name) == if name == m.name then Some(m.value) else None
  {
    forall name: string
      ensures Get([m], name) == if name == m.name then Some(m.value) else None
    {
      assert [m] == [m] + [];
      GetFirst(m, [], name);
    }
  }

  lemma KindProper(kind: FieldKind, closed: bool)
    ensures Proper(KindSchema(kind), closed, None)
  {
    hide Proper, Get, TextList, DefinitionName;
    KindKeys(kind);
    ProperMeans(KindSchema(kind), closed, None);
    ProperMeans(TextSchema(), closed, None);
    ProperMeans(NullSchema(), closed, None);
    match kind {
      case MaybeChoice(values) => ProperMeans(ChoiceSchema(values), closed, None);
      case MaybeRef(shape) => ProperMeans(ReferenceSchema(DefinitionName(shape)), closed, None);
      case Many(shape) => ProperMeans(ReferenceSchema(DefinitionName(shape)), closed, None);
      case _ =>
    }
  }

  /** A default does not change the other keywords. */
  lemma FieldKeys(f: Field)
    ensures forall name | name != "default" :: Get(FieldSchema(f).members, name) == Get(KindSchema(f.kind).members, name)
  {
    hide Get;
    var k := KindSchema(f.kind).members;
    if f.fallback.Some? {
      forall name | name != "default" ensures Get(FieldSchema(f).members, name) == Get(k, name) {
        GetFirst(Member("default", f.fallback.value), k, name);
      }
    } else {
      assert [] + k == k;
    }
  }

  lemma FieldProper(f: Field)
    ensures Proper(FieldSchema(f), false, None)
  {
    hide Proper, Get, KindSchema, FieldSchema, PropertiesProper;
    KindProper(f.kind, false);
    FieldKeys(f);
    ProperMeans(KindSchema(f.kind), false, None);
    ProperMeans(FieldSchema(f), false, None);
    SameKind(FieldSchema(f), KindSchema(f.kind));
  }

  lemma SameKind(one: Json, other: Json)
    requires one.Object? && other.Object?
    requires forall name | name != "default" :: Get(one.members, name) == Get(other.members, name)
    ensures KindOf(one) == KindOf(other)
  {
    hide Get;
  }

  /** A field has the form its name asks for. */
  lemma FieldPropertyOk(f: Field)
    requires FieldOk(f)
    ensures PropertyOk(Member(f.name, FieldSchema(f)), None)
  {
    hide Get, IsCitationName, IsColumnName, KindSchema, FieldSchema;
    FieldKeys(f);
    if f.kind.Citations? {
      CitationsOk(f);
    }
    if f.kind.Column? || f.kind.MaybeColumn? {
      ColumnsOk(f);
    }
  }

  lemma CitationsOk(f: Field)
    requires f.kind.Citations? && forall name | name != "default" :: Get(FieldSchema(f).members, name) == Get(KindSchema(f.kind).members, name)
    ensures CitationOk(FieldSchema(f), None)
  {
    hide Get;
    KindKeys(f.kind);
  }

  lemma ColumnsOk(f: Field)
    requires f.kind.Column? || f.kind.MaybeColumn?
    requires forall name | name != "default" :: Get(FieldSchema(f).members, name) == Get(KindSchema(f.kind).members, name)
    ensures ColumnOk(FieldSchema(f), None)
  {
    hide Get;
    KindKeys(f.kind);
  }

  lemma FieldMembersProper(fields: seq<Field>)
    requires FieldsOk(fields)
    ensures PropertiesProper(FieldMembers(fields), false, None)
  {
    hide Proper, PropertyOk, FieldSchema, FieldOk, Differ;
    forall i | 0 <= i < |fields|
      ensures Proper(FieldMembers(fields)[i].value, false, None) && PropertyOk(FieldMembers(fields)[i], None)
    {
      FieldProper(fields[i]);
      FieldPropertyOk(fields[i]);
    }
  }

  /** The keywords of a record. */
  lemma RecordKeys(properties: seq<Member>, required: seq<string>)
    ensures forall name :: Get(RecordKeywords(properties, required), name) == RecordKey(properties, required, name)
  {
    hide Get, TextList;
    var k := RecordKeywords(properties, required);
    assert k == [k[0]] + ([k[1]] + [k[2], k[3]]);
    KeysOf(k[2], k[3]);
    forall name: string
      ensures Get(k, name) == RecordKey(properties, required, name)
    {
      GetFirst(k[1], [k[2], k[3]], name);
      GetFirst(k[0], [k[1]] + [k[2], k[3]], name);
    }
  }

  lemma RecordProper(fields: seq<Field>)
    requires FieldsOk(fields)
    ensures Proper(RecordSchema(fields), false, None) && KindOf(RecordSchema(fields)).Record?
  {
    hide Proper, Get, FieldMembers, RequiredNames, RecordKeywords, PropertiesProper, TextList;
    RecordKeys(FieldMembers(fields), RequiredNames(fields));
    FieldMembersProper(fields);
    ProperMeans(RecordSchema(fields), false, None);
  }

  /** The first member with a name is the one before which no member has it. */
  lemma FindAt(members: seq<Member>, i: nat)
    requires i < |members| && forall j | 0 <= j < i :: members[j].name != members[i].name
    ensures Find(members, members[i].name) == i && Get(members, members[i].name) == Some(members[i].value)
  {}

  lemma FieldAt(fields: seq<Field>, members: seq<Member>, i: nat)
    requires (forall i, j | 0 <= i < j < |fields| :: fields[i].name != fields[j].name) && i < |fields| && |fields| == |members|
    requires forall j | 0 <= j < |fields| :: members[j].name == fields[j].name
    ensures Find(members, fields[i].name) == i && Get(members, fields[i].name) == Some(members[i].value)
  {
    hide *;
    FindAt(members, i);
  }

  lemma DistinctNames(fields: seq<Field>)
    requires FieldsOk(fields)
    ensures forall i, j | 0 <= i < j < |fields| :: fields[i].name != fields[j].name
  {
    hide FieldOk;
  }

  /** The record a definition name belongs to. */
  function ShapeNamed(name: string): Option<Shape> {
    if |name| < 13 then None
    else
      match (|name|, name[8])
      case (23, 'R') => Some(ReportShape)
      case (20, 'I') => Some(FactShape)
      case (21, 'P') => Some(AnswerShape)
      case (20, 'P') => Some(TraitShape)
      case (22, 'P') => Some(UnknownShape)
      case (21, 'T') => Some(EntryShape)
      case (22, 'S') => Some(ProfileShape)
      case (26, 'N') => Some(HighlightShape)
      case (25, 'A') => Some(AssessmentShape)
      case (24, 'N') => Some(SectionShape)
      case (14, 'R') => Some(ReasonShape)
      case (13, 'C') => Some(ClaimShape)
      case (27, 'C') => Some(CandidateShape)
      case (23, 'C') => Some(CoverageShape)
      case _ => None
  }

  lemma DefinitionNames(s: Shape)
    ensures ShapeNamed(DefinitionName(s)) == Some(s) && |DefinitionName(s)| >= 13
  {}

  function ShapeIndex(s: Shape): (i: nat)
    ensures i < |Shapes| && Shapes[i] == s
  {
    match s
    case ReportShape => 0
    case FactShape => 1
    case AnswerShape => 2
    case TraitShape => 3
    case UnknownShape => 4
    case EntryShape => 5
    case ProfileShape => 6
    case HighlightShape => 7
    case AssessmentShape => 8
    case SectionShape => 9
    case ReasonShape => 10
    case ClaimShape => 11
    case CandidateShape => 12
    case CoverageShape => 13
  }

  lemma DefinitionsApart()
    ensures forall i, j | 0 <= i < j < |Shapes| :: DefinitionName(Shapes[i]) != DefinitionName(Shapes[j])
  {
    hide DefinitionName, ShapeNamed, Shapes;
    forall i, j | 0 <= i < j < |Shapes|
      ensures DefinitionName(Shapes[i]) != DefinitionName(Shapes[j])
    {
      ShapesApart(i, j);
      DefinitionNames(Shapes[i]);
      DefinitionNames(Shapes[j]);
    }
  }

  lemma ShapesApart(i: nat, j: nat)
    requires i < j < |Shapes|
    ensures Shapes[i] != Shapes[j]
  {}

  lemma NamedAt(definitions: seq<Member>, shapes: seq<Shape>, i: nat)
    requires |definitions| == |shapes| && forall i | 0 <= i < |shapes| :: definitions[i].name == DefinitionName(shapes[i])
    requires forall i, j | 0 <= i < j < |shapes| :: DefinitionName(shapes[i]) != DefinitionName(shapes[j])
    requires i < |shapes|
    ensures Get(definitions, DefinitionName(shapes[i])) == Some(definitions[i].value)
    ensures Find(definitions, DefinitionName(shapes[i])) == i
  {
    hide *;
    FindAt(definitions, i);
  }

  /** Definitions in the order of the shapes, found by name. */
  lemma DefinitionAt(definitions: seq<Member>, s: Shape)
    requires |definitions| == |Shapes| && forall i | 0 <= i < |Shapes| :: definitions[i].name == DefinitionName(Shapes[i])
    ensures Get(definitions, DefinitionName(s)) == Some(definitions[ShapeIndex(s)].value)
  {
    hide DefinitionName, Shapes, ShapeIndex, Get;
    DefinitionsApart();
    NamedAt(definitions, Shapes, ShapeIndex(s));
  }

  lemma RootKeys(definitions: seq<Member>, properties: seq<Member>, required: seq<string>)
    ensures forall name ::
      Get(RootKeywords(definitions, properties, required), name) == RootKey(definitions, properties, required, name)
  {
    hide Get, RecordKeywords, RecordKey;
    RecordKeys(properties, required);
    forall name: string
      ensures Get(RootKeywords(definitions, properties, required), name) == RootKey(definitions, properties, required, name)
    {
      GetFirst(Member("$defs", Object(definitions)), RecordKeywords(properties, required), name);
    }
  }

  lemma EntryReady()
    ensures var entry := RecordSchema(FieldsOf(EntryShape));
      && entry.Object? && KindOf(entry).Record?
      && Get(entry.members, "properties").Some? && Get(entry.members, "properties").value.Object?
      && var properties := Get(entry.members, "properties").value.members;
         && Get(properties, "entry_type").Some? && Get(properties, "currentness").Some?
         && Get(properties, "confidence").Some? && Get(properties, "basis").Some?
  {
    hide Get, TextList, Find, FieldsOf, RecordKeywords, FieldsOk, FieldSchema, FieldNames, RequiredNames, KindOf;
    var fields := FieldsOf(EntryShape);
    EntryNamesAre();
    ShapeOk(EntryShape);
    RecordProper(fields);
    DistinctNames(fields);
    RecordKeys(FieldMembers(fields), RequiredNames(fields));
    FieldAt(fields, FieldMembers(fields), 0);
    FieldAt(fields, FieldMembers(fields), 4);
    FieldAt(fields, FieldMembers(fields), 5);
    FieldAt(fields, FieldMembers(fields), 6);
  }

  lemma EntryNamesAre()
    ensures var fields := FieldsOf(EntryShape);
      && |fields| == 9
      && fields[0].name == "entry_type" && fields[4].name == "currentness" && fields[5].name == "confidence" && fields[6].name == "basis"
  {}

  lemma OutputNames()
    ensures var properties := FieldMembers(OutputFields);
      && Get(properties, "schema_version").Some? && Get(properties, "report_synthesis").Some?
      && Get(properties, "subject_profile").Some?
  {
    hide Get, TextList, Find, FieldSchema;
    OutputOk();
    DistinctNames(OutputFields);
    FieldAt(OutputFields, FieldMembers(OutputFields), 0);
    FieldAt(OutputFields, FieldMembers(OutputFields), 1);
    FieldAt(OutputFields, FieldMembers(OutputFields), 2);
  }

  /** The schema generated from the data type meets the condition of the rewriting results. */
  lemma GeneratedIsModelSchema()
    ensures ModelSchema(GeneratedSchema())
  {
    hide Get, Proper, FieldMembers, RequiredNames, RecordKeywords, PropertiesProper, OutputFields, FieldsOf, DefinitionName;
    var definitions := GeneratedDefinitions();
    RootKeys(definitions, FieldMembers(OutputFields), RequiredNames(OutputFields));
    OutputOk();
    FieldMembersProper(OutputFields);
    ProperMeans(GeneratedSchema(), false, None);
    forall i | 0 <= i < |definitions|
      ensures definitions[i].name != "default" && definitions[i].name != "properties" && Proper(definitions[i].value, false, None)
    {
      ShapeOk(Shapes[i]);
      RecordProper(FieldsOf(Shapes[i]));
      DefinitionNames(Shapes[i]);
    }
    DefinitionAt(definitions, EntryShape);
    TimelineName();
    EntryReady();
    OutputNames();
  }

  lemma TimelineName()
    ensures DefinitionName(EntryShape) == TIMELINE
  {}

  // ---------- The schema that is sent, in closed form ----------

  function WithKind(fields: seq<Field>, i: nat, kind: FieldKind): seq<Field>
    requires i < |fields|
  {
    fields[i := F(fields[i].name, kind)]
  }

  /** The fields of a record as they are sent: four texts of a timeline entry have values. */
  function SentFields(s: Shape): seq<Field> {
    if s.EntryShape? then
      WithKind(WithKind(WithKind(WithKind(FieldsOf(s), 0, Choice(ENTRY_TYPES)), 4, Choice(CURRENTNESS)), 5, Choice(CONFIDENCES)), 6,
               Choice(TRAIT_BASES))
    else FieldsOf(s)
  }

  /** The top-level fields as they are sent: one version, and both sections are there. */
  function SentOutput(): seq<Field> {
    WithKind(WithKind(WithKind(OutputFields, 0, Choice([V4_NAME])), 1, RefTo(ReportShape)), 2, RefTo(ProfileShape))
  }

  function Slots(fields: seq<Field>): seq<Member> {
    seq(|fields|, i requires 0 <= i < |fields| => Member(fields[i].name, KindSchema(fields[i].kind)))
  }

  function StrictRecord(fields: seq<Field>): Json {
    Object(RecordKeywords(Slots(fields), FieldNames(fields)))
  }

  function SentRecord(fields: seq<Field>, a: Allowed): Json {
    Object(RecordKeywords(TightenEach(Slots(fields), a), FieldNames(fields)))
  }

  function SentDefinitions(a: Allowed): seq<Member> {
    seq(|Shapes|, i requires 0 <= i < |Shapes| => Member(DefinitionName(Shapes[i]), SentRecord(SentFields(Shapes[i]), a)))
  }

  function SentSchema(a: Allowed): Json {
    Object(RootKeywords(SentDefinitions(a), TightenEach(Slots(SentOutput()), a), FieldNames(SentOutput())))
  }

  lemma WithKindOk(fields: seq<Field>, i: nat, kind: FieldKind)
    requires FieldsOk(fields) && i < |fields|
    requires !fields[i].kind.Citations? && !fields[i].kind.Column? && !fields[i].kind.MaybeColumn?
    requires !kind.Citations? && !kind.Column? && !kind.MaybeColumn?
    ensures FieldsOk(WithKind(fields, i, kind)) && FieldNames(WithKind(fields, i, kind)) == FieldNames(fields)
  {
    hide Differ, IsCitationName, IsColumnName;
    assert FieldOk(fields[i]);
  }

  /** Replacing one property by name replaces the kind of that field. */
  lemma PutSlot(fields: seq<Field>, i: nat, kind: FieldKind)
    requires FieldsOk(fields) && i < |fields|
    ensures Put(Slots(fields), fields[i].name, KindSchema(kind)) == Slots(WithKind(fields, i, kind))
  {
    hide FieldsOk, Put, Find, Get, KindSchema;
    DistinctNames(fields);
    FieldAt(fields, Slots(fields), i);
    PutReplaces(Slots(fields), fields[i].name, KindSchema(kind));
  }

  lemma EntryKinds()
    ensures var fields := FieldsOf(EntryShape);
      |fields| == 9 && fields[0].kind.FreeText? && fields[4].kind.FreeText? && fields[5].kind.FreeText? && fields[6].kind.FreeText?
  {}

  lemma SentEntry()
    ensures LimitEntry(Slots(FieldsOf(EntryShape))) == Slots(SentFields(EntryShape))
    ensures FieldsOk(SentFields(EntryShape)) && FieldNames(SentFields(EntryShape)) == FieldNames(FieldsOf(EntryShape))
  {
    hide FieldsOf, FieldsOk, Put, Slots, FieldNames, ENTRY_TYPES, CURRENTNESS, CONFIDENCES, TRAIT_BASES;
    ShapeOk(EntryShape);
    EntryKinds();
    EntryNamesAre();
    var f0 := FieldsOf(EntryShape);
    var f1 := WithKind(f0, 0, Choice(ENTRY_TYPES));
    var f2 := WithKind(f1, 4, Choice(CURRENTNESS));
    var f3 := WithKind(f2, 5, Choice(CONFIDENCES));
    WithKindOk(f0, 0, Choice(ENTRY_TYPES));
    WithKindOk(f1, 4, Choice(CURRENTNESS));
    WithKindOk(f2, 5, Choice(CONFIDENCES));
    WithKindOk(f3, 6, Choice(TRAIT_BASES));
    PutSlot(f0, 0, Choice(ENTRY_TYPES));
    PutSlot(f1, 4, Choice(CURRENTNESS));
    PutSlot(f2, 5, Choice(CONFIDENCES));
    PutSlot(f3, 6, Choice(TRAIT_BASES));
  }

  lemma SentFieldsOk(s: Shape)
    ensures FieldsOk(SentFields(s))
  {
    hide FieldsOf, FieldsOk, WithKind;
    ShapeOk(s);
    if s.EntryShape? {
      SentEntry();
    }
  }

  lemma OutputKinds()
    ensures |OutputFields| == 14
    ensures OutputFields[0].name == "schema_version" && OutputFields[0].kind.Choice?
    ensures OutputFields[1].name == "report_synthesis" && OutputFields[1].kind.MaybeRef?
    ensures OutputFields[2].name == "subject_profile" && OutputFields[2].kind.MaybeRef?
  {}

  lemma PinnedKinds()
    ensures VersionSchema() == KindSchema(Choice([V4_NAME]))
    ensures ReferenceSchema("GroundedReportSynthesis") == KindSchema(RefTo(ReportShape))
    ensures ReferenceSchema("GroundedSubjectProfile") == KindSchema(RefTo(ProfileShape))
  {}

  lemma SentOutputOk()
    ensures PinVersion(Slots(OutputFields)) == Slots(SentOutput())
    ensures FieldsOk(SentOutput()) && FieldNames(SentOutput()) == FieldNames(OutputFields)
  {
    hide OutputFields, FieldsOk, Put, Slots, FieldNames, KindSchema, VersionSchema, ReferenceSchema;
    OutputOk();
    OutputKinds();
    PinnedKinds();
    var f0 := OutputFields;
    var f1 := WithKind(f0, 0, Choice([V4_NAME]));
    var f2 := WithKind(f1, 1, RefTo(ReportShape));
    WithKindOk(f0, 0, Choice([V4_NAME]));
    WithKindOk(f1, 1, RefTo(ReportShape));
    WithKindOk(f2, 2, RefTo(ProfileShape));
    PutSlot(f0, 0, Choice([V4_NAME]));
    PutSlot(f1, 1, RefTo(ReportShape));
    PutSlot(f2, 2, RefTo(ProfileShape));
  }

  /** Requiring drops the default of a field and leaves the rest. */
  lemma RequiredField(f: Field, a: Allowed)
    ensures RequireAll(FieldSchema(f)) == KindSchema(f.kind)
  {
    hide KindSchema;
    var k := KindSchema(f.kind).members;
    KindIsInert(f.kind);
    InertStays(KindSchema(f.kind), a);
    NoSuchMember(k, "properties");
    FieldKeys(f);
    assert RequireAll(Object(k)) == Object(RequireMembers(k));
    if f.fallback.Some? {
      assert ([Member("default", f.fallback.value)] + k)[1..] == k;
    } else {
      assert [] + k == k;
    }
  }

  /** Requiring a dictionary of schemas goes through its values. */
  lemma RequiredValues(members: seq<Member>, after: seq<Member>)
    requires |after| == |members|
    requires forall i | 0 <= i < |members| ::
      && members[i].name != "default" && members[i].name != "properties"
      && after[i] == Member(members[i].name, RequireAll(members[i].value))
    ensures RequireAll(Object(members)) == Object(after)
  {
    hide Get, RequireMembers, Put;
    RequireMembersAt(members);
    NoSuchMember(members, "properties");
    assert RequireMembers(members) == after;
  }

  lemma FieldNamesOk(f: Field)
    requires FieldOk(f)
    ensures f.name != "default" && f.name != "properties"
  {
    hide IsCitationName, IsColumnName;
  }

  lemma RequiredFields(fields: seq<Field>, a: Allowed)
    requires FieldsOk(fields)
    ensures RequireAll(Object(FieldMembers(fields))) == Object(Slots(fields))
    ensures Names(FieldMembers(fields)) == FieldNames(fields)
  {
    hide RequireAll, FieldSchema, KindSchema, FieldOk, Differ;
    forall i | 0 <= i < |fields|
      ensures Slots(fields)[i] == Member(fields[i].name, RequireAll(FieldMembers(fields)[i].value))
      ensures fields[i].name != "default" && fields[i].name != "properties"
    {
      RequiredField(fields[i], a);
      FieldNamesOk(fields[i]);
    }
    RequiredValues(FieldMembers(fields), Slots(fields));
  }

  lemma TextsStay(texts: seq<string>, a: Allowed)
    ensures RequireAll(TextList(texts)) == TextList(texts)
  {
    TextsAreInert(texts);
    InertStays(TextList(texts), a);
  }

  lemma RecordPuts(properties: seq<Member>, required: seq<string>, names: seq<string>)
    ensures Put(Put(RecordKeywords(properties, required), "required", TextList(names)), "additionalProperties", Boolean(false)) ==
      RecordKeywords(properties, names)
    ensures forall changed :: Put(RecordKeywords(properties, required), "properties", Object(changed)) == RecordKeywords(changed, required)
  {
    hide TextList, Put;
    var k := RecordKeywords(properties, required);
    FindAt(k, 1);
    FindAt(k, 2);
    PutReplaces(k, "required", TextList(names));
    var after := RecordKeywords(properties, names);
    assert k[2 := Member("required", TextList(names))] == after;
    FindAt(after, 0);
    PutReplaces(after, "additionalProperties", Boolean(false));
    forall changed
      ensures Put(k, "properties", Object(changed)) == RecordKeywords(changed, required)
    {
      PutReplaces(k, "properties", Object(changed));
    }
  }

  lemma RequiredKeywords(properties: seq<Member>, after: seq<Member>, required: seq<string>, a: Allowed)
    requires RequireAll(Object(properties)) == Object(after)
    ensures RequireMembers(RecordKeywords(properties, required)) == RecordKeywords(after, required)
  {
    hide TextList;
    var k := RecordKeywords(properties, required);
    RequireMembersAt(k);
    TextsStay(required, a);
    hide RequireMembers;
    assert RequireMembers(k)[1] == Member("properties", Object(after));
    hide RequireAll;
    assert RequireMembers(k) == [RequireMembers(k)[0], RequireMembers(k)[1], RequireMembers(k)[2], RequireMembers(k)[3]];
  }

  /** Requiring a record asks for all its fields. */
  lemma RequiredRecord(fields: seq<Field>, a: Allowed)
    requires FieldsOk(fields)
    ensures RequireAll(RecordSchema(fields)) == StrictRecord(fields)
  {
    hide FieldMembers, Slots, FieldNames, RequiredNames, RequireMembers, TextList, Get, Put, Names, FieldsOk, RecordKeywords;
    var properties := FieldMembers(fields);
    RecordKeys(properties, RequiredNames(fields));
    RequiredFields(fields, a);
    RequiredKeywords(properties, Slots(fields), RequiredNames(fields), a);
    RecordPuts(Slots(fields), RequiredNames(fields), FieldNames(fields));
  }

  lemma PutAfter(m: Member, rest: seq<Member>, name: string, value: Json)
    requires m.name != name
    ensures Put([m] + rest, name, value) == [m] + Put(rest, name, value)
  {
    assert ([m] + rest)[1..] == rest;
  }

  lemma RequiredFirst(m: Member, rest: seq<Member>)
    requires m.name != "default"
    ensures RequireMembers([m] + rest) == [Member(m.name, RequireAll(m.value))] + RequireMembers(rest)
  {
    assert ([m] + rest)[1..] == rest;
  }

  /** Requiring the root asks for all its fields. */
  lemma StrictRoot(definitions: seq<Member>, strict: seq<Member>, fields: seq<Field>, a: Allowed)
    requires FieldsOk(fields) && RequireAll(Object(definitions)) == Object(strict)
    ensures RequireAll(Object(RootKeywords(definitions, FieldMembers(fields), RequiredNames(fields)))) ==
      Object(RootKeywords(strict, Slots(fields), FieldNames(fields)))
  {
    hide FieldMembers, Slots, FieldNames, RequiredNames, RequireMembers, TextList, Get, Put, Names, FieldsOk, RecordKeywords;
    var properties := FieldMembers(fields);
    var required := RequiredNames(fields);
    RootKeys(definitions, properties, required);
    RecordKeys(properties, required);
    RequiredFields(fields, a);
    RequiredKeywords(properties, Slots(fields), required, a);
    RecordPuts(Slots(fields), required, FieldNames(fields));
    RequiredFirst(Member("$defs", Object(definitions)), RecordKeywords(properties, required));
    var visited := RecordKeywords(Slots(fields), required);
    var names := TextList(FieldNames(fields));
    PutAfter(Member("$defs", Object(strict)), visited, "required", names);
    PutAfter(Member("$defs", Object(strict)), Put(visited, "required", names), "additionalProperties", Boolean(false));
  }

  function StrictDefinitions(): seq<Member> {
    seq(|Shapes|, i requires 0 <= i < |Shapes| => Member(DefinitionName(Shapes[i]), StrictRecord(FieldsOf(Shapes[i]))))
  }

  lemma RequiredGenerated(a: Allowed)
    ensures RequireAll(GeneratedSchema()) ==
      Object(RootKeywords(StrictDefinitions(), Slots(OutputFields), FieldNames(OutputFields)))
  {
    hide RequireAll, RecordSchema, StrictRecord, FieldsOf, FieldsOk, OutputFields, DefinitionName, Shapes, RootKeywords;
    forall i | 0 <= i < |Shapes|
      ensures GeneratedDefinitions()[i].name != "default" && GeneratedDefinitions()[i].name != "properties"
      ensures StrictDefinitions()[i] == Member(GeneratedDefinitions()[i].name, RequireAll(GeneratedDefinitions()[i].value))
    {
      ShapeOk(Shapes[i]);
      RequiredRecord(FieldsOf(Shapes[i]), a);
      DefinitionNames(Shapes[i]);
    }
    RequiredValues(GeneratedDefinitions(), StrictDefinitions());
    OutputOk();
    StrictRoot(GeneratedDefinitions(), StrictDefinitions(), OutputFields, a);
  }

  lemma RootPuts(definitions: seq<Member>, properties: seq<Member>, required: seq<string>, changed: seq<Member>)
    ensures Put(RootKeywords(definitions, properties, required), "properties", Object(changed)) ==
      RootKeywords(definitions, changed, required)
    ensures Put(RootKeywords(definitions, properties, required), "$defs", Object(changed)) ==
      RootKeywords(changed, properties, required)
  {
    hide TextList, Put, RecordKeywords, Find;
    RecordPuts(properties, required, required);
    PutAfter(Member("$defs", Object(definitions)), RecordKeywords(properties, required), "properties", Object(changed));
    var k := RootKeywords(definitions, properties, required);
    FindAt(k, 0);
    PutReplaces(k, "$defs", Object(changed));
  }

  lemma PinnedGenerated(a: Allowed)
    ensures PinRoot(RequireAll(GeneratedSchema())) ==
      Object(RootKeywords(StrictDefinitions(), Slots(SentOutput()), FieldNames(SentOutput())))
  {
    hide RequireAll, GeneratedSchema, StrictDefinitions, OutputFields, SentOutput, RootKeywords, Slots, FieldNames, PinVersion, Get, Put,
      FieldsOk;
    RequiredGenerated(a);
    SentOutputOk();
    var names := FieldNames(OutputFields);
    RootKeys(StrictDefinitions(), Slots(OutputFields), names);
    RootPuts(StrictDefinitions(), Slots(OutputFields), names, Slots(SentOutput()));
  }

  function LimitedDefinitions(): seq<Member> {
    seq(|Shapes|, i requires 0 <= i < |Shapes| => Member(DefinitionName(Shapes[i]), StrictRecord(SentFields(Shapes[i]))))
  }

  lemma LimitedEntry()
    ensures LimitDefinition(StrictRecord(FieldsOf(EntryShape))) == StrictRecord(SentFields(EntryShape))
  {
    hide FieldsOf, SentFields, Slots, FieldNames, Put, Get, LimitEntry, FieldsOk, RecordKeywords;
    var slots, names := Slots(FieldsOf(EntryShape)), FieldNames(FieldsOf(EntryShape));
    SentEntry();
    RecordKeys(slots, names);
    RecordPuts(slots, names, names);
  }

  lemma EntryAlone(i: nat)
    requires i < |Shapes|
    ensures StrictRecord(SentFields(Shapes[i])) == if i == ShapeIndex(EntryShape) then StrictRecord(SentFields(EntryShape)) else StrictRecord(FieldsOf(Shapes[i]))
  {
    hide StrictRecord, FieldsOf, WithKind;
  }

  lemma TimelineGenerated(a: Allowed)
    ensures LimitTimeline(PinRoot(RequireAll(GeneratedSchema()))) ==
      Object(RootKeywords(LimitedDefinitions(), Slots(SentOutput()), FieldNames(SentOutput())))
  {
    hide RequireAll, GeneratedSchema, PinRoot, SentOutput, FieldsOf, RootKeywords, Slots, FieldNames, Get, Put, StrictRecord, SentFields,
      LimitDefinition, Shapes, DefinitionName;
    var before := StrictDefinitions();
    PinnedGenerated(a);
    RootKeys(before, Slots(SentOutput()), FieldNames(SentOutput()));
    TimelineName();
    DefinitionAt(before, EntryShape);
    LimitedEntry();
    var i := ShapeIndex(EntryShape);
    DefinitionsApart();
    NamedAt(before, Shapes, i);
    PutReplaces(before, TIMELINE, StrictRecord(SentFields(EntryShape)));
    forall j | 0 <= j < |Shapes|
      ensures before[i := Member(TIMELINE, StrictRecord(SentFields(EntryShape)))][j] == LimitedDefinitions()[j]
    {
      EntryAlone(j);
    }
    assert before[i := Member(TIMELINE, StrictRecord(SentFields(EntryShape)))] == LimitedDefinitions();
    RootPuts(before, Slots(SentOutput()), FieldNames(SentOutput()), LimitedDefinitions());
  }

  lemma ConstrainedKeywords(properties: seq<Member>, required: seq<string>, a: Allowed)
    ensures ConstrainMembers(RecordKeywords(properties, required), a) ==
      RecordKeywords(TightenEach(ConstrainMembers(properties, a), a), required)
  {
    hide TextList, TightenEach;
    var k := RecordKeywords(properties, required);
    ConstrainMembersAt(k, a);
    ConstrainedTexts(required, a);
    hide ConstrainMembers;
    ConstrainedLeaf(Boolean(false), a);
    ConstrainedLeaf(Text("object"), a);
    hide Constrain;
    var l := ConstrainMembers(k, a);
    assert l == [l[0], l[1], l[2], l[3]];
  }

  lemma ConstrainedSlots(fields: seq<Field>, a: Allowed)
    requires FieldsOk(fields)
    ensures ConstrainMembers(Slots(fields), a) == Slots(fields)
  {
    hide Constrain, ConstrainMembers, KindSchema, FieldOk, Differ;
    ConstrainMembersAt(Slots(fields), a);
    forall i | 0 <= i < |fields|
      ensures ConstrainedValue(Slots(fields)[i], a) == Slots(fields)[i].value
    {
      FieldNamesOk(fields[i]);
      KindIsInert(fields[i].kind);
      InertStays(KindSchema(fields[i].kind), a);
    }
  }

  /** Limiting a record limits each of its fields. */
  lemma ConstrainedRecord(fields: seq<Field>, a: Allowed)
    requires FieldsOk(fields)
    ensures Constrain(StrictRecord(fields), a) == SentRecord(fields, a)
  {
    hide ConstrainMembers, Slots, FieldNames, TightenEach, FieldsOk, RecordKeywords;
    ConstrainedSlots(fields, a);
    ConstrainedKeywords(Slots(fields), FieldNames(fields), a);
    ConstrainedLeaf(StrictRecord(fields), a);
  }

  lemma ConstrainedDefinitionList(a: Allowed)
    ensures Constrain(Object(LimitedDefinitions()), a) == Object(SentDefinitions(a))
  {
    hide Constrain, ConstrainMembers, StrictRecord, SentRecord, FieldsOf, SentFields, FieldsOk, Shapes, DefinitionName;
    ConstrainedLeaf(Object(LimitedDefinitions()), a);
    ConstrainMembersAt(LimitedDefinitions(), a);
    forall i | 0 <= i < |Shapes|
      ensures ConstrainMembers(LimitedDefinitions(), a)[i] == SentDefinitions(a)[i]
    {
      SentFieldsOk(Shapes[i]);
      ConstrainedRecord(SentFields(Shapes[i]), a);
      DefinitionNames(Shapes[i]);
      assert LimitedDefinitions()[i].name != "properties";
    }
  }

  /** The schema that is sent, field by field. */
  lemma SentSchemaIs(p: Packet)
    ensures ResponseSchema(GeneratedSchema(), p) == SentSchema(AllowedBy(p))
  {
    hide RequireAll, GeneratedSchema, PinRoot, LimitTimeline, LimitedDefinitions, SentDefinitions, SentOutput, RecordKeywords, Slots,
      FieldNames, Constrain, ConstrainMembers, TightenEach, AllowedBy, FieldsOk;
    var a := AllowedBy(p);
    TimelineGenerated(a);
    ConstrainedDefinitionList(a);
    var slots, names := Slots(SentOutput()), FieldNames(SentOutput());
    SentOutputOk();
    ConstrainedSlots(SentOutput(), a);
    ConstrainedKeywords(slots, names, a);
    var k := RootKeywords(LimitedDefinitions(), slots, names);
    ConstrainedLeaf(Object(k), a);
    ConstrainedFirst(Member("$defs", Object(LimitedDefinitions())), RecordKeywords(slots, names), a);
  }

  lemma ConstrainedFirst(m: Member, rest: seq<Member>, a: Allowed)
    requires m.name != "properties"
    ensures ConstrainMembers([m] + rest, a) == [Member(m.name, Constrain(m.value, a))] + ConstrainMembers(rest, a)
  {
    hide Constrain;
    FirstConstrained([m] + rest, a);
    assert ([m] + rest)[1..] == rest;
  }

  // ---------- What conforms to the schema that is sent ----------

  predicate Among(v: Json, texts: seq<string>) {
    v.Text? && v.text in texts
  }

  predicate InColumn(v: Json, name: string, a: Allowed) {
    a.Column(name).Some? && Among(v, a.Column(name).value)
  }

  /** A value is what its field asks for; citations and account columns are in the packet. */
  predicate Fits(v: Json, f: Field, a: Allowed)
    decreases v, 1
  {
    match f.kind
    case FreeText => v.Text?
    case Column => InColumn(v, f.name, a)
    case Choice(values) => Among(v, values)
    case MaybeFree => v.Null? || v.Text?
    case MaybeColumn => v.Null? || InColumn(v, f.name, a)
    case MaybeChoice(values) => v.Null? || Among(v, values)
    case Citations => v.List? && forall i | 0 <= i < |v.items| :: Among(v.items[i], a.sources)
    case RefTo(s) => FitsRecord(v, SentFields(s), a)
    case MaybeRef(s) => v.Null? || FitsRecord(v, SentFields(s), a)
    case Many(s) => v.List? && forall i | 0 <= i < |v.items| :: FitsRecord(v.items[i], SentFields(s), a)
  }

  /** An object with all the fields and no others. */
  predicate FitsRecord(v: Json, fields: seq<Field>, a: Allowed)
    decreases v, 0
  {
    && v.Object?
    && (forall i | 0 <= i < |v.members| ::
          && Find(Slots(fields), v.members[i].name) < |fields|
          && Fits(v.members[i].value, fields[Find(Slots(fields), v.members[i].name)], a))
    && (forall j | 0 <= j < |fields| :: Get(v.members, fields[j].name).Some?)
  }

  function Optional(values: Option<seq<string>>): Option<Json> {
    if values.None? then None else Some(TextList(values.value))
  }

  lemma TextListHas(texts: seq<string>, v: Json)
    ensures v in TextList(texts).items <==> Among(v, texts)
  {
    if v.Text? && v.text in texts {
      var i :| 0 <= i < |texts| && texts[i] == v.text;
      assert TextList(texts).items[i] == v;
    }
  }

  lemma StringConforms(v: Json, k: seq<Member>, values: Option<seq<string>>, root: seq<Member>, fuel: nat)
    requires fuel > 0 && Get(k, "$ref").None? && Get(k, "anyOf").None? && Get(k, "type") == Some(Text("string"))
    requires Get(k, "enum") == Optional(values)
    ensures Conforms(v, Object(k), root, fuel) <==> if values.None? then v.Text? else Among(v, values.value)
  {
    hide Get, PropertyOf;
    if values.Some? {
      TextListHas(values.value, v);
      assert Get(k, "enum").value.List?;
    }
  }

  lemma NullConforms(v: Json, root: seq<Member>, fuel: nat)
    requires fuel > 0
    ensures Conforms(v, NullSchema(), root, fuel) <==> v.Null?
  {
    hide Get, PropertyOf;
    OneKey(Member("type", Text("null")));
  }

  lemma EitherConforms(v: Json, k: seq<Member>, one: Json, root: seq<Member>, fuel: nat)
    requires fuel > 1 && forall name :: Get(k, name) == if name == "anyOf" then Some(List([one, NullSchema()])) else None
    ensures Conforms(v, Object(k), root, fuel) <==> v.Null? || Conforms(v, one, root, fuel - 1)
  {
    NullConforms(v, root, fuel - 1);
    hide Get, NullSchema, Conforms;
    var options := [one, NullSchema()];
    OptionsConform(v, k, options, root, fuel);
    if Conforms(v, one, root, fuel - 1) {
      assert Conforms(v, options[0], root, fuel - 1);
    } else if v.Null? {
      assert Conforms(v, options[1], root, fuel - 1);
    }
  }

  lemma OptionsConform(v: Json, k: seq<Member>, options: seq<Json>, root: seq<Member>, fuel: nat)
    requires fuel > 1 && forall name :: Get(k, name) == if name == "anyOf" then Some(List(options)) else None
    ensures Conforms(v, Object(k), root, fuel) <==> exists i | 0 <= i < |options| :: Conforms(v, options[i], root, fuel - 1)
  {
    hide Get, HasType, Resolve;
    assert Get(k, "$ref").None? && Get(k, "enum").None? && Get(k, "items").None? && Get(k, "type").None?;
    assert Get(k, "required").None? && Get(k, "additionalProperties").None?;
  }

  lemma ListConforms(v: Json, k: seq<Member>, item: Json, root: seq<Member>, fuel: nat)
    requires fuel > 0 && forall name :: Get(k, name) == ListKey(item, name)
    ensures Conforms(v, Object(k), root, fuel) <==> v.List? && forall i | 0 <= i < |v.items| :: Conforms(v.items[i], item, root, fuel - 1)
  {
    hide Get, PropertyOf;
  }

  lemma ReferenceConforms(v: Json, target: string, root: seq<Member>, definitions: seq<Member>, definition: Json, fuel: nat)
    requires fuel > 0 && Get(root, "$defs") == Some(Object(definitions)) && Get(definitions, target) == Some(definition)
    ensures Conforms(v, ReferenceSchema(target), root, fuel) <==> Conforms(v, definition, root, fuel - 1)
  {
    hide Get;
    OneKey(Member("$ref", Text("#/$defs/" + target)));
    assert ("#/$defs/" + target)[..8] == "#/$defs/" && ("#/$defs/" + target)[8..] == target;
    var k := ReferenceSchema(target).members;
    assert Resolve(root, Get(k, "$ref").value.text) == Some(definition);
  }

  /** Every member has a listed property and conforms to it, and every listed name is there. */
  ghost predicate ClosedFits(v: Json, properties: seq<Member>, names: seq<string>, root: seq<Member>, fuel: nat)
  {
    && v.Object?
    && (forall i | 0 <= i < |v.members| ::
          && Get(properties, v.members[i].name).Some?
          && Conforms(v.members[i].value, Get(properties, v.members[i].name).value, root, fuel))
    && (forall j | 0 <= j < |names| :: Get(v.members, names[j]).Some?)
  }

  /** The keywords of a closed record. */
  predicate ClosedKeys(k: seq<Member>, properties: seq<Member>, names: seq<string>) {
    && Get(k, "$ref").None? && Get(k, "anyOf").None? && Get(k, "enum").None? && Get(k, "items").None?
    && Get(k, "type") == Some(Text("object")) && Get(k, "additionalProperties") == Some(Boolean(false))
    && Get(k, "properties") == Some(Object(properties)) && Get(k, "required") == Some(TextList(names))
  }

  lemma FitsClosed(v: Json, k: seq<Member>, properties: seq<Member>, names: seq<string>, root: seq<Member>, fuel: nat)
    requires fuel > 0 && ClosedKeys(k, properties, names) && ClosedFits(v, properties, names, root, fuel - 1)
    ensures Conforms(v, Object(k), root, fuel)
  {
    hide Get, Resolve;
    forall i | 0 <= i < |v.members|
      ensures PropertyOf(k, v.members[i].name).Some?
      ensures Conforms(v.members[i].value, PropertyOf(k, v.members[i].name).value, root, fuel - 1)
    {}
  }

  lemma ClosedMembers(v: Json, k: seq<Member>, properties: seq<Member>, names: seq<string>, root: seq<Member>, fuel: nat)
    requires fuel > 0 && ClosedKeys(k, properties, names) && Conforms(v, Object(k), root, fuel) && v.Object?
    ensures forall i | 0 <= i < |v.members| ::
      && Get(properties, v.members[i].name).Some?
      && Conforms(v.members[i].value, Get(properties, v.members[i].name).value, root, fuel - 1)
  {
    hide Get, Conforms;
    forall i | 0 <= i < |v.members|
      ensures Get(properties, v.members[i].name).Some?
      ensures Conforms(v.members[i].value, Get(properties, v.members[i].name).value, root, fuel - 1)
    {
      MemberStep(v, Object(k), root, fuel, i);
    }
  }

  lemma ClosedRequired(v: Json, k: seq<Member>, properties: seq<Member>, names: seq<string>, root: seq<Member>, fuel: nat)
    requires fuel > 0 && ClosedKeys(k, properties, names) && Conforms(v, Object(k), root, fuel)
    ensures v.Object? && forall j | 0 <= j < |names| :: Get(v.members, names[j]).Some?
  {
    hide Get, Resolve, PropertyOf;
    forall j | 0 <= j < |names|
      ensures Get(v.members, names[j]).Some?
    {
      assert TextList(names).items[j] == Text(names[j]);
    }
  }

  /** A closed record, keyword by keyword. */
  lemma ClosedConforms(v: Json, k: seq<Member>, properties: seq<Member>, names: seq<string>, root: seq<Member>, fuel: nat)
    requires fuel > 0
    requires forall name | name != "$defs" :: Get(k, name) == RecordKey(properties, names, name)
    ensures Conforms(v, Object(k), root, fuel) <==> ClosedFits(v, properties, names, root, fuel - 1)
  {
    hide Get, Conforms, TextList;
    assert ClosedKeys(k, properties, names);
    hide ClosedKeys;
    if ClosedFits(v, properties, names, root, fuel - 1) {
      FitsClosed(v, k, properties, names, root, fuel);
    }
    if Conforms(v, Object(k), root, fuel) {
      ClosedRequired(v, k, properties, names, root, fuel);
      ClosedMembers(v, k, properties, names, root, fuel);
    }
  }

  // ---------- One field ----------

  lemma PlainField(f: Field, a: Allowed)
    requires FieldOk(f) && !f.kind.Citations? && !f.kind.Column? && !f.kind.MaybeColumn?
    ensures Tighten(f.name, KindSchema(f.kind), a) == KindSchema(f.kind)
  {
    ColumnIsKnown(f.name, a);
    hide IsCitationName, IsColumnName, KindSchema;
  }

  lemma LimitedTextKeys(texts: seq<string>)
    ensures forall name :: Get(SetEnum(TextSchema().members, texts), name) == ChoiceKey(texts, name)
  {
    hide Get, Put, TextList;
    OneKey(Member("type", Text("string")));
    PutKeywords(TextSchema().members, "enum", TextList(texts));
  }

  lemma LimitedTextConforms(v: Json, texts: seq<string>, root: seq<Member>, fuel: nat)
    requires fuel > 0
    ensures Conforms(v, Object(SetEnum(TextSchema().members, texts)), root, fuel) <==> Among(v, texts)
  {
    hide Get, SetEnum, TextSchema, Conforms;
    LimitedTextKeys(texts);
    StringConforms(v, SetEnum(TextSchema().members, texts), Some(texts), root, fuel);
  }

  lemma CitationsExactly(v: Json, f: Field, a: Allowed, root: seq<Member>, fuel: nat)
    requires FieldOk(f) && f.kind.Citations? && fuel > 1
    ensures Conforms(v, Tighten(f.name, KindSchema(f.kind), a), root, fuel) <==> Fits(v, f, a)
  {
    hide Get, Put, SetEnum, Conforms, IsCitationName, IsColumnName;
    KindKeys(f.kind);
    var item := Object(SetEnum(TextSchema().members, a.sources));
    var k := ListSchema(TextSchema()).members;
    var limited := Put(k, "items", item);
    PutKeywords(k, "items", item);
    assert Tighten(f.name, KindSchema(f.kind), a) == Object(limited);
    ListConforms(v, limited, item, root, fuel);
    if v.List? {
      forall i | 0 <= i < |v.items|
        ensures Conforms(v.items[i], item, root, fuel - 1) <==> Among(v.items[i], a.sources)
      {
        LimitedTextConforms(v.items[i], a.sources, root, fuel - 1);
      }
    }
  }

  lemma ColumnExactly(v: Json, f: Field, a: Allowed, root: seq<Member>, fuel: nat)
    requires FieldOk(f) && f.kind.Column? && fuel > 0
    ensures Conforms(v, Tighten(f.name, KindSchema(f.kind), a), root, fuel) <==> Fits(v, f, a)
  {
    ColumnIsKnown(f.name, a);
    ColumnIsNoCitation(f);
    hide Get, SetEnum, Conforms, IsCitationName, IsColumnName;
    var texts := a.Column(f.name).value;
    KindKeys(f.kind);
    LimitedTextKeys(texts);
    assert Tighten(f.name, KindSchema(f.kind), a) == Object(SetEnum(TextSchema().members, texts));
    LimitedTextConforms(v, texts, root, fuel);
  }

  lemma ColumnIsNoCitation(f: Field)
    requires FieldOk(f) && (f.kind.Column? || f.kind.MaybeColumn?)
    ensures IsColumnName(f.name) && !IsCitationName(f.name)
  {
    hide IsColumnName, IsCitationName;
  }

  lemma MaybeColumnExactly(v: Json, f: Field, a: Allowed, root: seq<Member>, fuel: nat)
    requires FieldOk(f) && f.kind.MaybeColumn? && fuel > 1
    ensures Conforms(v, Tighten(f.name, KindSchema(f.kind), a), root, fuel) <==> Fits(v, f, a)
  {
    ColumnIsKnown(f.name, a);
    ColumnIsNoCitation(f);
    hide Get, Put, SetEnum, Conforms, IsCitationName, IsColumnName;
    var texts := a.Column(f.name).value;
    var one := Object(SetEnum(TextSchema().members, texts));
    KindKeys(f.kind);
    LimitedOptions(texts);
    var k := Either(TextSchema()).members;
    var limited := Put(k, "anyOf", List([one, NullSchema()]));
    PutKeywords(k, "anyOf", List([one, NullSchema()]));
    assert Tighten(f.name, KindSchema(f.kind), a) == Object(limited);
    EitherConforms(v, limited, one, root, fuel);
    LimitedTextConforms(v, texts, root, fuel - 1);
  }

  lemma LimitedOptions(texts: seq<string>)
    ensures LimitString(Either(TextSchema()).members, texts) ==
      Put(Either(TextSchema()).members, "anyOf", List([Object(SetEnum(TextSchema().members, texts)), NullSchema()]))
  {
    hide Get, Put, SetEnum;
    KindKeys(FreeText);
    var options := [TextSchema(), NullSchema()];
    assert LimitedVariants(options, texts).items[0] == Object(SetEnum(TextSchema().members, texts));
    assert LimitedVariants(options, texts).items == [Object(SetEnum(TextSchema().members, texts)), NullSchema()];
  }

  // ---------- Records ----------

  /** How many keywords and references lead into the deepest field. */
  function Depth(s: Shape): (depth: nat)
    ensures depth >= 3
  {
    if s.ProfileShape? || s.AssessmentShape? || s.SectionShape? || s.ClaimShape? then 6 else 3
  }

  const OUTPUT_DEPTH: nat := 9

  function Within(kind: FieldKind): nat {
    match kind
    case RefTo(s) => Depth(s)
    case MaybeRef(s) => Depth(s)
    case Many(s) => Depth(s)
    case _ => 0
  }

  lemma FieldsAreShallow(s: Shape)
    ensures forall i | 0 <= i < |FieldsOf(s)| :: Within(FieldsOf(s)[i].kind) + 3 <= Depth(s) && !FieldsOf(s)[i].kind.MaybeRef?
  {
    hide REPORT_TYPES, IDENTITY_STATUSES, FACT_STATUSES, EVIDENCE_BASES, TOPICS, EXISTENCES, ASSOCIATIONS, SECTION_KEYS, PREDICATES,
      CLAIM_STATUSES, DISPOSITIONS, COVERAGES, VERSIONS, CONFIDENCES, TRAIT_BASES, NOTHING;
  }

  lemma SentFieldsAreShallow(s: Shape)
    ensures forall i | 0 <= i < |SentFields(s)| :: Within(SentFields(s)[i].kind) + 3 <= Depth(s)
  {
    hide FieldsOf, ENTRY_TYPES, CURRENTNESS, CONFIDENCES, TRAIT_BASES;
    FieldsAreShallow(s);
    EntryKinds();
  }

  lemma SentOutputIsShallow()
    ensures forall i | 0 <= i < |SentOutput()| :: Within(SentOutput()[i].kind) + 3 <= OUTPUT_DEPTH
  {
    hide REPORT_TYPES, IDENTITY_STATUSES, FACT_STATUSES, EVIDENCE_BASES, TOPICS, EXISTENCES, ASSOCIATIONS, SECTION_KEYS, PREDICATES,
      CLAIM_STATUSES, DISPOSITIONS, COVERAGES, VERSIONS, CONFIDENCES, TRAIT_BASES, NOTHING;
  }

  function Root(a: Allowed): (root: seq<Member>) {
    SentSchema(a).members
  }

  lemma DefinitionInRoot(s: Shape, a: Allowed)
    ensures Get(Root(a), "$defs") == Some(Object(SentDefinitions(a)))
    ensures Get(SentDefinitions(a), DefinitionName(s)) == Some(SentRecord(SentFields(s), a))
  {
    hide Get, RootKeywords, SentRecord, SentFields, SentOutput, TightenEach, Slots, FieldNames, DefinitionName, Shapes;
    DefinitionAt(SentDefinitions(a), s);
    RootKeys(SentDefinitions(a), TightenEach(Slots(SentOutput()), a), FieldNames(SentOutput()));
  }

  lemma SlotAt(fields: seq<Field>, name: string, a: Allowed)
    ensures var j := Find(Slots(fields), name);
      && j <= |fields|
      && Get(TightenEach(Slots(fields), a), name) ==
         if j < |fields| then Some(Tighten(fields[j].name, KindSchema(fields[j].kind), a)) else None
  {
    hide Tighten, KindSchema;
    var left, right := Slots(fields), TightenEach(Slots(fields), a);
    assert forall i | 0 <= i < |left| :: left[i].name == right[i].name;
    SameFind(left, right, name);
  }

  lemma {:induction false} SameFind(left: seq<Member>, right: seq<Member>, name: string)
    requires |left| == |right| && forall i | 0 <= i < |left| :: left[i].name == right[i].name
    ensures Find(left, name) == Find(right, name)
  {
    if left != [] && left[0].name != name {
      SameFind(left[1..], right[1..], name);
    }
  }

  /** A value conforms to a field as it is sent exactly when it is what the field asks for. */
  lemma {:induction false} FieldExactly(v: Json, f: Field, a: Allowed, fuel: nat)
    requires FieldOk(f) && Within(f.kind) + 2 <= fuel
    ensures Conforms(v, Tighten(f.name, KindSchema(f.kind), a), Root(a), fuel) <==> Fits(v, f, a)
    decreases fuel, 1
  {
    hide Conforms, FieldOk, FitsRecord, Get, TextList, IsCitationName, IsColumnName, SentFields, Tighten, Root, SentRecord, SentDefinitions, DefinitionName;
    KindKeys(f.kind);
    if !f.kind.Citations? && !f.kind.Column? && !f.kind.MaybeColumn? {
      PlainField(f, a);
    }
    match f.kind {
      case FreeText => StringConforms(v, TextSchema().members, None, Root(a), fuel);
      case Column => ColumnExactly(v, f, a, Root(a), fuel);
      case Choice(values) => StringConforms(v, ChoiceSchema(values).members, Some(values), Root(a), fuel);
      case MaybeFree =>
        EitherConforms(v, Either(TextSchema()).members, TextSchema(), Root(a), fuel);
        StringConforms(v, TextSchema().members, None, Root(a), fuel - 1);
      case MaybeColumn => MaybeColumnExactly(v, f, a, Root(a), fuel);
      case MaybeChoice(values) =>
        EitherConforms(v, Either(ChoiceSchema(values)).members, ChoiceSchema(values), Root(a), fuel);
        StringConforms(v, ChoiceSchema(values).members, Some(values), Root(a), fuel - 1);
      case Citations => CitationsExactly(v, f, a, Root(a), fuel);
      case RefTo(s) => ReferenceExactly(v, s, a, fuel);
      case MaybeRef(s) =>
        var one := ReferenceSchema(DefinitionName(s));
        EitherConforms(v, Either(one).members, one, Root(a), fuel);
        ReferenceExactly(v, s, a, fuel - 1);
      case Many(s) =>
        var item := ReferenceSchema(DefinitionName(s));
        ListConforms(v, ListSchema(item).members, item, Root(a), fuel);
        if v.List? {
          forall i | 0 <= i < |v.items|
            ensures Conforms(v.items[i], item, Root(a), fuel - 1) <==> FitsRecord(v.items[i], SentFields(s), a)
          {
            ReferenceExactly(v.items[i], s, a, fuel - 1);
          }
        }
    }
  }

  lemma {:induction false} ReferenceExactly(v: Json, s: Shape, a: Allowed, fuel: nat)
    requires Depth(s) < fuel
    ensures Conforms(v, ReferenceSchema(DefinitionName(s)), Root(a), fuel) <==> FitsRecord(v, SentFields(s), a)
    decreases fuel, 0
  {
    hide Conforms, FitsRecord, Get, SentFields, SentRecord, SentDefinitions, DefinitionName, Root, ReferenceSchema, FieldsOk, Depth;
    DefinitionInRoot(s, a);
    ReferenceConforms(v, DefinitionName(s), Root(a), SentDefinitions(a), SentRecord(SentFields(s), a), fuel);
    SentFieldsOk(s);
    SentFieldsAreShallow(s);
    var fields := SentFields(s);
    RecordIs(fields, a);
    FieldsExactly(v, SentRecord(fields, a).members, fields, a, fuel - 1, Depth(s));
  }

  lemma RecordIs(fields: seq<Field>, a: Allowed)
    ensures SentRecord(fields, a).Object?
    ensures forall name :: Get(SentRecord(fields, a).members, name) == RecordKey(TightenEach(Slots(fields), a), FieldNames(fields), name)
  {
    hide Get, RecordKeywords, RecordKey;
    RecordKeys(TightenEach(Slots(fields), a), FieldNames(fields));
  }

  lemma {:induction false} FieldsExactly(v: Json, k: seq<Member>, fields: seq<Field>, a: Allowed, fuel: nat, depth: nat)
    requires FieldsOk(fields) && 3 <= depth <= fuel
    requires forall i | 0 <= i < |fields| :: Within(fields[i].kind) + 3 <= depth
    requires forall name | name != "$defs" :: Get(k, name) == RecordKey(TightenEach(Slots(fields), a), FieldNames(fields), name)
    ensures Conforms(v, Object(k), Root(a), fuel) <==> FitsRecord(v, fields, a)
    decreases fuel, 2
  {
    hide Conforms, Get, RecordKey, Find, FieldOk, Differ, Slots, Tighten, TightenEach, Root, Fits, Within, KindSchema;
    var slots := TightenEach(Slots(fields), a);
    var names := FieldNames(fields);
    ClosedConforms(v, k, slots, names, Root(a), fuel);
    if v.Object? {
      forall i | 0 <= i < |v.members|
        ensures var j := Find(Slots(fields), v.members[i].name);
          (&& Get(slots, v.members[i].name).Some?
           && Conforms(v.members[i].value, Get(slots, v.members[i].name).value, Root(a), fuel - 1))
          <==> (j < |fields| && Fits(v.members[i].value, fields[j], a))
      {
        SlotAt(fields, v.members[i].name, a);
        var j := Find(Slots(fields), v.members[i].name);
        if j < |fields| {
          FieldExactly(v.members[i].value, fields[j], a, fuel - 1);
        }
      }
      assert forall j | 0 <= j < |fields| :: names[j] == fields[j].name;
    }
  }

  /** Exactly the values that have all the fields and no others, each with what the field asks
      for, conform to the schema sent about a packet, however deep the search. */
  lemma ConformingExactly(p: Packet, v: Json, fuel: nat)
    requires OUTPUT_DEPTH <= fuel
    ensures ResponseSchema(GeneratedSchema(), p).Object?
    ensures Conforms(v, ResponseSchema(GeneratedSchema(), p), ResponseSchema(GeneratedSchema(), p).members, fuel) <==>
      FitsRecord(v, SentOutput(), AllowedBy(p))
  {
    hide Conforms, FitsRecord, Get, SentOutput, SentDefinitions, FieldsOk, ResponseSchema, GeneratedSchema, AllowedBy, RootKeywords, Slots, FieldNames,
      TightenEach, RecordKey;
    var a := AllowedBy(p);
    SentSchemaIs(p);
    SentOutputOk();
    SentOutputIsShallow();
    RootKeys(SentDefinitions(a), TightenEach(Slots(SentOutput()), a), FieldNames(SentOutput()));
    FieldsExactly(v, Root(a), SentOutput(), a, fuel, OUTPUT_DEPTH);
  }

  // ---------- An output that conforms ----------

  /** A record whose members come in the order of its fields. */
  lemma InOrder(members: seq<Member>, fields: seq<Field>, a: Allowed)
    requires FieldsOk(fields) && |members| == |fields|
    requires forall i | 0 <= i < |fields| :: members[i].name == fields[i].name && Fits(members[i].value, fields[i], a)
    ensures FitsRecord(Object(members), fields, a)
  {
    hide Fits, FieldsOk, Find, Get, KindSchema;
    DistinctNames(fields);
    forall i | 0 <= i < |fields|
      ensures Find(Slots(fields), members[i].name) == i && Get(members, fields[i].name).Some?
    {
      FieldAt(fields, Slots(fields), i);
      FieldAt(fields, members, i);
    }
  }

  const CITES: seq<string> := ["s1"]
  const SampleAnswer: Answer := Answer(Some("Ada"), Some("high"), "observed", "Stated on the profile.", CITES)
  const SampleEntry: TimelineEntry :=
    TimelineEntry("work", "Engineer", Some("Example"), None, "current", "medium", "indexed", "Stated on the profile.", CITES)
  const SampleProfile: SubjectProfile :=
    SubjectProfile(SampleAnswer, SampleAnswer, SampleAnswer, SampleAnswer, [], [], [], [], [SampleEntry])
  const SampleReport: ReportSynthesis :=
    ReportSynthesis("person_centric", "One public account.", "likely", "medium", Some("Ada"), None, "Public pages only.", CITES)
  const SampleHighlight: Highlight := Highlight("Public page.", CITES)
  const SampleAssessment: Assessment :=
    Assessment("a1", "GitHub", "ada", "https://github.com/ada", "exact_verified", "likely", "high", "Same handle.", CITES,
               [SampleHighlight], [])
  const SampleOutput: Output :=
    Output(V4, Some(SampleReport), Some(SampleProfile), "One public account.", CITES, [], [SampleAssessment], [], [], [SampleHighlight],
           [], [], [], [])

  const SamplePacket: Packet :=
    Packet(
      Seed("github", "username", "ada"),
      [Source("s1", "profile", "primary", "GitHub", "Ada", "https://github.com/ada", "", Object([]))],
      [Account("a1", "GitHub", "ada", "https://github.com/ada", None, ["s1"])], false, false)

  /** What the sample mentions is allowed. */
  predicate SampleAllowed(a: Allowed) {
    "s1" in a.sources && "a1" in a.accounts && "https://github.com/ada" in a.urls && "ada" in a.handles && "GitHub" in a.platforms
  }

  lemma SampleIsAllowed()
    ensures SampleAllowed(AllowedBy(SamplePacket))
  {
    var a := AllowedBy(SamplePacket);
    assert a.sources[0] == "s1" && a.accounts[0] == "a1" && a.urls[0] == "https://github.com/ada" && a.handles[0] == "ada";
    var platforms := seq(|SamplePacket.accounts|, i requires 0 <= i < |SamplePacket.accounts| => SamplePacket.accounts[i].platform);
    assert platforms[0] == "GitHub";
  }

  lemma CitesFit(a: Allowed, f: Field)
    requires SampleAllowed(a) && f.kind.Citations?
    ensures Fits(TextList(CITES), f, a)
  {}

  lemma AnswerFits(a: Allowed)
    requires SampleAllowed(a)
    ensures FitsRecord(AnswerJson(SampleAnswer), SentFields(AnswerShape), a)
  {
    hide SampleAllowed, FieldsOk, TextList, FitsRecord;
    var fields, members := SentFields(AnswerShape), AnswerJson(SampleAnswer).members;
    SentFieldsOk(AnswerShape);
    assert CONFIDENCES[3] == "high" && EVIDENCE_BASES[0] == "observed";
    CitesFit(a, fields[4]);
    InOrder(members, fields, a);
  }

  lemma EntryFits(a: Allowed)
    requires SampleAllowed(a)
    ensures FitsRecord(EntryJson(SampleEntry), SentFields(EntryShape), a)
  {
    hide SampleAllowed, FieldsOk, TextList, FitsRecord;
    var fields, members := SentFields(EntryShape), EntryJson(SampleEntry).members;
    SentFieldsOk(EntryShape);
    assert ENTRY_TYPES[0] == "work" && CURRENTNESS[0] == "current" && CONFIDENCES[1] == "medium" && TRAIT_BASES[2] == "indexed";
    CitesFit(a, fields[8]);
    InOrder(members, fields, a);
  }

  lemma ReportFits(a: Allowed)
    requires SampleAllowed(a)
    ensures FitsRecord(ReportJson(SampleReport), SentFields(ReportShape), a)
  {
    hide SampleAllowed, FieldsOk, TextList, FitsRecord;
    var fields, members := SentFields(ReportShape), ReportJson(SampleReport).members;
    SentFieldsOk(ReportShape);
    assert REPORT_TYPES[0] == "person_centric" && IDENTITY_STATUSES[1] == "likely" && CONFIDENCES[1] == "medium";
    CitesFit(a, fields[7]);
    InOrder(members, fields, a);
  }

  lemma HighlightFits(a: Allowed, s: Shape)
    requires SampleAllowed(a) && (s.HighlightShape? || s.ReasonShape?)
    ensures FitsRecord(HighlightJson(SampleHighlight), SentFields(s), a)
  {
    hide SampleAllowed, FieldsOk, TextList, FitsRecord;
    var fields, members := SentFields(s), HighlightJson(SampleHighlight).members;
    SentFieldsOk(s);
    CitesFit(a, fields[1]);
    InOrder(members, fields, a);
  }

  lemma AssessmentFits(a: Allowed)
    requires SampleAllowed(a)
    ensures FitsRecord(AssessmentJson(SampleAssessment), SentFields(AssessmentShape), a)
  {
    hide FieldsOk, FitsRecord, Fits, FieldsOf, SentFields, SampleAssessment, Items, TextList, HighlightJson;
    SentFieldsOk(AssessmentShape);
    AssessmentKinds();
    AssessmentHead(a);
    AssessmentTail(a);
    InOrder(AssessmentJson(SampleAssessment).members, FieldsOf(AssessmentShape), a);
  }

  lemma AssessmentHead(a: Allowed)
    requires SampleAllowed(a)
    ensures |FieldsOf(AssessmentShape)| == 11 == |AssessmentJson(SampleAssessment).members|
    ensures forall i | 0 <= i < 5 ::
      && AssessmentJson(SampleAssessment).members[i].name == FieldsOf(AssessmentShape)[i].name
      && Fits(AssessmentJson(SampleAssessment).members[i].value, FieldsOf(AssessmentShape)[i], a)
  {
    hide TextList, HighlightJson;
    assert EXISTENCES[0] == "exact_verified";
  }

  lemma AssessmentTail(a: Allowed)
    requires SampleAllowed(a)
    ensures |FieldsOf(AssessmentShape)| == 11 == |AssessmentJson(SampleAssessment).members|
    ensures forall i | 5 <= i < 11 ::
      && AssessmentJson(SampleAssessment).members[i].name == FieldsOf(AssessmentShape)[i].name
      && Fits(AssessmentJson(SampleAssessment).members[i].value, FieldsOf(AssessmentShape)[i], a)
  {
    hide TextList, FitsRecord, HighlightJson, SentFields, SampleAllowed;
    assert ASSOCIATIONS[1] == "likely" && CONFIDENCES[3] == "high";
    CitesFit(a, FieldsOf(AssessmentShape)[8]);
    HighlightFits(a, HighlightShape);
  }

  lemma AssessmentKinds()
    ensures SentFields(AssessmentShape) == FieldsOf(AssessmentShape)
  {
    hide FieldsOf;
  }

  lemma ProfileFits(a: Allowed)
    requires SampleAllowed(a)
    ensures FitsRecord(ProfileJson(SampleProfile), SentFields(ProfileShape), a)
  {
    hide SampleAllowed, FieldsOk, TextList, FitsRecord, AnswerJson, EntryJson, TraitJson, UnknownJson, SampleAnswer, SampleEntry, NOTHING;
    var fields, members := SentFields(ProfileShape), ProfileJson(SampleProfile).members;
    SentFieldsOk(ProfileShape);
    AnswerFits(a);
    EntryFits(a);
    InOrder(members, fields, a);
  }

  lemma SampleHead(a: Allowed)
    requires SampleAllowed(a)
    ensures |SentOutput()| == 14
    ensures forall i | 0 <= i < 5 ::
      OutputJson(SampleOutput).members[i].name == SentOutput()[i].name && Fits(OutputJson(SampleOutput).members[i].value, SentOutput()[i], a)
  {
    hide SampleAllowed, FieldsOk, TextList, FitsRecord, ReportJson, ProfileJson, AssessmentJson, HighlightJson, SampleReport, SampleProfile,
      SampleAssessment, SampleHighlight, VERSIONS, NOTHING, Items;
    ReportFits(a);
    ProfileFits(a);
    CitesFit(a, SentOutput()[4]);
  }

  lemma SampleMiddle(a: Allowed)
    requires SampleAllowed(a)
    ensures |SentOutput()| == 14
    ensures forall i | 5 <= i < 10 ::
      OutputJson(SampleOutput).members[i].name == SentOutput()[i].name && Fits(OutputJson(SampleOutput).members[i].value, SentOutput()[i], a)
  {
    hide SampleAllowed, FieldsOk, TextList, FitsRecord, ReportJson, ProfileJson, AssessmentJson, HighlightJson, SampleReport, SampleProfile,
      SampleAssessment, SampleHighlight, VERSIONS, NOTHING;
    AssessmentFits(a);
    HighlightFits(a, ReasonShape);
  }

  lemma SampleTail(a: Allowed)
    requires SampleAllowed(a)
    ensures |SentOutput()| == 14
    ensures forall i | 10 <= i < 14 ::
      OutputJson(SampleOutput).members[i].name == SentOutput()[i].name && Fits(OutputJson(SampleOutput).members[i].value, SentOutput()[i], a)
  {
    hide SampleAllowed, FieldsOk, TextList, FitsRecord, ReportJson, ProfileJson, AssessmentJson, HighlightJson, SampleReport, SampleProfile,
      SampleAssessment, SampleHighlight, VERSIONS, NOTHING;
  }

  lemma SampleFits(a: Allowed)
    requires SampleAllowed(a)
    ensures FitsRecord(OutputJson(SampleOutput), SentOutput(), a)
  {
    hide SampleAllowed, FieldsOk, FitsRecord, Fits, SentOutput, SampleOutput, Items, ReportJson, ProfileJson;
    SentOutputOk();
    SampleHead(a);
    SampleMiddle(a);
    SampleTail(a);
    InOrder(OutputJson(SampleOutput).members, SentOutput(), a);
  }

  /** An output with a timeline entry and an account that conforms to the schema sent about its
      packet. */
  lemma SampleConforms(fuel: nat)
    requires OUTPUT_DEPTH <= fuel
    ensures ModelSchema(GeneratedSchema()) && ResponseSchema(GeneratedSchema(), SamplePacket).Object?
    ensures Conforms(OutputJson(SampleOutput), ResponseSchema(GeneratedSchema(), SamplePacket),
                     ResponseSchema(GeneratedSchema(), SamplePacket).members, fuel)
    ensures SampleOutput.profile.value.careerTimeline != []
  {
    hide *;
    SampleIsAllowed();
    SampleFits(AllowedBy(SamplePacket));
    ConformingExactly(SamplePacket, OutputJson(SampleOutput), fuel);
    GeneratedIsModelSchema();
    SampleHasEntry();
  }

  lemma SampleHasEntry()
    ensures SampleOutput.profile == Some(SampleProfile) && SampleProfile.careerTimeline == [SampleEntry]
  {}
}
