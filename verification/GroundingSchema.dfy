/** The response schema sent with a synthesis request: strict in shape, and limited to the
    identifiers of one evidence packet. */
module GroundingSchema {
  import opened Wrappers
  import opened JsonText
  import opened EvidencePacket
  import opened SynthesisOutput

  // ---------- Dictionaries as member lists ----------

  /** The position of the first member with this name, or the number of members. */
  function Find(members: seq<Member>, name: string): (i: nat)
    ensures i <= |members|
    ensures i < |members| ==> members[i].name == name
    ensures forall j | 0 <= j < i :: members[j].name != name
  {
    if members == [] || members[0].name == name then 0
    else
      var rest := Find(members[1..], name);
      assert forall j | 1 <= j < rest + 1 :: members[j] == members[1..][j - 1];
      rest + 1
  }

  function Get(members: seq<Member>, name: string): Option<Json> {
    if Find(members, name) < |members| then Some(members[Find(members, name)].value) else None
  }

  function Put(members: seq<Member>, name: string, value: Json): seq<Member> {
    if members == [] then [Member(name, value)]
    else if members[0].name == name then [Member(name, value)] + members[1..]
    else [members[0]] + Put(members[1..], name, value)
  }

  function Names(members: seq<Member>): seq<string> {
    seq(|members|, i requires 0 <= i < |members| => members[i].name)
  }

  lemma {:induction false} GetPut(members: seq<Member>, name: string, value: Json, k: string)
    ensures Get(Put(members, name, value), k) == if k == name then Some(value) else Get(members, k)
  {
    hide Get;
    assert [Member(name, value)] + [] == [Member(name, value)];
    if members != [] {
      assert members == [members[0]] + members[1..];
      GetFirst(members[0], members[1..], k);
      if members[0].name == name {
        GetFirst(Member(name, value), members[1..], k);
      } else {
        GetPut(members[1..], name, value, k);
        GetFirst(members[0], Put(members[1..], name, value), k);
      }
    } else {
      GetFirst(Member(name, value), [], k);
    }
  }

  lemma GetFirst(m: Member, rest: seq<Member>, k: string)
    ensures Get([m] + rest, k) == if m.name == k then Some(m.value) else Get(rest, k)
  {
    assert ([m] + rest)[1..] == rest;
  }

  // ---------- Rewriting ----------

  /** No defaults, every property required, and no other properties. */
  function RequireAll(j: Json): Json
    decreases j, 0
  {
    match j
    case List(items) => List(RequireEach(items))
    case Object(members) =>
      var visited := RequireMembers(members);
      (match Get(members, "properties")
       case Some(Object(properties)) =>
         Object(Put(Put(visited, "required", TextList(Names(properties))), "additionalProperties", Boolean(false)))
       case _ => Object(visited))
    case _ => j
  }

  function RequireEach(items: seq<Json>): (r: seq<Json>)
    ensures |r| == |items| && forall i | 0 <= i < |items| :: r[i] == RequireAll(items[i])
    decreases items, 1
  {
    if items == [] then [] else [RequireAll(items[0])] + RequireEach(items[1..])
  }

  function RequireMembers(members: seq<Member>): seq<Member>
    decreases members, 1
  {
    if members == [] then []
    else if members[0].name == "default" then RequireMembers(members[1..])
    else [Member(members[0].name, RequireAll(members[0].value))] + RequireMembers(members[1..])
  }

  /** What a packet allows: its source ids, and the texts of the four account columns. */
  datatype Allowed = Allowed(
    sources: seq<string>, accounts: seq<string>, urls: seq<string>, handles: seq<string>, platforms: seq<string>)
  {
    function Column(name: string): Option<seq<string>> {
      if name == "account_id" then Some(accounts)
      else if name == "canonical_url" then Some(urls)
      else if name == "canonical_handle" then Some(handles)
      else if name == "platform" then Some(platforms)
      else None
    }
  }

  function Distinct(texts: seq<string>): (r: seq<string>)
    ensures forall x :: x in r <==> x in texts
    ensures forall i, j | 0 <= i < j < |r| :: r[i] != r[j]
  {
    if texts == [] then []
    else
      var earlier := Distinct(texts[..|texts| - 1]);
      if texts[|texts| - 1] in earlier then earlier else earlier + [texts[|texts| - 1]]
  }

  function AllowedBy(p: Packet): Allowed {
    Allowed(
      seq(|p.sources|, i requires 0 <= i < |p.sources| => p.sources[i].id),
      seq(|p.accounts|, i requires 0 <= i < |p.accounts| => p.accounts[i].id),
      seq(|p.accounts|, i requires 0 <= i < |p.accounts| => p.accounts[i].url),
      seq(|p.accounts|, i requires 0 <= i < |p.accounts| => p.accounts[i].handle),
      Distinct(seq(|p.accounts|, i requires 0 <= i < |p.accounts| => p.accounts[i].platform)))
  }

  function SetEnum(members: seq<Member>, texts: seq<string>): seq<Member> {
    Put(members, "enum", TextList(texts))
  }

  function IsString(members: seq<Member>): bool {
    Get(members, "type") == Some(Text("string"))
  }

  function LimitVariant(variant: Json, texts: seq<string>): Json {
    if variant.Object? && IsString(variant.members) then Object(SetEnum(variant.members, texts)) else variant
  }

  function LimitString(members: seq<Member>, texts: seq<string>): seq<Member> {
    var limited := if IsString(members) then SetEnum(members, texts) else members;
    match Get(limited, "anyOf")
    case Some(List(variants)) =>
      Put(limited, "anyOf", List(seq(|variants|, i requires 0 <= i < |variants| => LimitVariant(variants[i], texts))))
    case _ => limited
  }

  /** The schema of one named property, limited to what the packet allows. */
  function Tighten(name: string, schema: Json, a: Allowed): Json {
    if !schema.Object? then schema
    else if IsCitationName(name) then
      match Get(schema.members, "items")
      case Some(Object(items)) => Object(Put(schema.members, "items", Object(SetEnum(items, a.sources))))
      case _ => schema
    else
      match a.Column(name)
      case Some(texts) => Object(LimitString(schema.members, texts))
      case None => schema
  }

  function TightenEach(properties: seq<Member>, a: Allowed): (r: seq<Member>)
    ensures |r| == |properties|
    ensures forall i | 0 <= i < |r| ::
              r[i] == Member(properties[i].name, Tighten(properties[i].name, properties[i].value, a))
  {
    seq(|properties|, i requires 0 <= i < |properties| =>
      Member(properties[i].name, Tighten(properties[i].name, properties[i].value, a)))
  }

  /** Limit every property anywhere in a schema. */
  function Constrain(j: Json, a: Allowed): Json
    decreases j, 0
  {
    match j
    case List(items) => List(ConstrainEach(items, a))
    case Object(members) => Object(ConstrainMembers(members, a))
    case _ => j
  }

  function ConstrainEach(items: seq<Json>, a: Allowed): (r: seq<Json>)
    ensures |r| == |items| && forall i | 0 <= i < |items| :: r[i] == Constrain(items[i], a)
    decreases items, 1
  {
    if items == [] then [] else [Constrain(items[0], a)] + ConstrainEach(items[1..], a)
  }

  function ConstrainMembers(members: seq<Member>, a: Allowed): seq<Member>
    decreases members, 1
  {
    if members == [] then []
    else
      var visited := match members[0]
        case Member("properties", Object(properties)) => Object(TightenEach(ConstrainMembers(properties, a), a))
        case m => Constrain(m.value, a);
      [Member(members[0].name, visited)] + ConstrainMembers(members[1..], a)
  }

  const V4_NAME: string := "grounded-digital-footprint-v4"

  /** Pin the version, and make the two top-level sections mandatory objects. */
  function PinVersion(properties: seq<Member>): seq<Member> {
    Put(
      Put(
        Put(properties, "schema_version", VersionSchema()),
        "report_synthesis", ReferenceSchema("GroundedReportSynthesis")),
      "subject_profile", ReferenceSchema("GroundedSubjectProfile"))
  }

  /** A text that is one of these. */
  function ChoiceSchema(values: seq<string>): Json {
    Object([Member("type", Text("string")), Member("enum", TextList(values))])
  }

  function VersionSchema(): Json {
    ChoiceSchema([V4_NAME])
  }

  function ReferenceSchema(target: string): Json {
    Object([Member("$ref", Text("#/$defs/" + target))])
  }

  function PinRoot(schema: Json): Json {
    if !schema.Object? then schema
    else
      match Get(schema.members, "properties")
      case Some(Object(properties)) => Object(Put(schema.members, "properties", Object(PinVersion(properties))))
      case _ => schema
  }

  const TIMELINE: string := "GroundedTimelineEntry"
  const ENTRY_TYPES: seq<string> := ["work", "education"]
  const CURRENTNESS: seq<string> := ["current", "recent", "historical", "unclear"]
  const CONFIDENCES: seq<string> := ["low", "medium", "medium_high", "high"]
  const TRAIT_BASES: seq<string> := ["observed", "self_described", "indexed", "inferred", "mixed"]

  /** Four texts of a timeline entry that the data type leaves free get their values. */
  function LimitEntry(properties: seq<Member>): seq<Member> {
    Put(
      Put(
        Put(
          Put(properties, "entry_type", ChoiceSchema(ENTRY_TYPES)),
          "currentness", ChoiceSchema(CURRENTNESS)),
        "confidence", ChoiceSchema(CONFIDENCES)),
      "basis", ChoiceSchema(TRAIT_BASES))
  }

  function LimitDefinition(definition: Json): Json {
    if !definition.Object? then definition
    else
      match Get(definition.members, "properties")
      case Some(Object(properties)) => Object(Put(definition.members, "properties", Object(LimitEntry(properties))))
      case _ => definition
  }

  function LimitTimeline(schema: Json): Json {
    if !schema.Object? then schema
    else
      match Get(schema.members, "$defs")
      case Some(Object(definitions)) =>
        if Get(definitions, TIMELINE).None? then schema
        else
          var limited := Put(definitions, TIMELINE, LimitDefinition(Get(definitions, TIMELINE).value));
          Object(Put(schema.members, "$defs", Object(limited)))
      case _ => schema
  }

  /** The schema sent with a request about packet `p`. */
  function ResponseSchema(model: Json, p: Packet): Json {
    Constrain(LimitTimeline(PinRoot(RequireAll(model))), AllowedBy(p))
  }

  // ---------- Conforming to a schema ----------

  predicate HasType(v: Json, t: string) {
    match t
    case "string" => v.Text?
    case "integer" => v.Number?
    case "number" => v.Number?
    case "boolean" => v.Boolean?
    case "null" => v.Null?
    case "array" => v.List?
    case "object" => v.Object?
    case _ => true
  }

  function Resolve(root: seq<Member>, ref: string): Option<Json> {
    if |ref| < 8 || ref[..8] != "#/$defs/" then None
    else
      match Get(root, "$defs")
      case Some(Object(definitions)) => Get(definitions, ref[8..])
      case _ => None
  }

  function PropertyOf(keywords: seq<Member>, name: string): Option<Json> {
    match Get(keywords, "properties")
    case Some(Object(properties)) => Get(properties, name)
    case _ => None
  }

  /** `v` conforms to `schema`, following at most `fuel` nested keywords and references. */
  ghost predicate Conforms(v: Json, schema: Json, root: seq<Member>, fuel: nat)
    decreases fuel
  {
    && fuel > 0
    && match schema
       case Boolean(truth) => truth
       case Object(k) =>
         && (Get(k, "$ref").Some? && Get(k, "$ref").value.Text? ==>
               var target := Resolve(root, Get(k, "$ref").value.text);
               target.Some? && Conforms(v, target.value, root, fuel - 1))
         && (Get(k, "anyOf").Some? && Get(k, "anyOf").value.List? ==>
               var options := Get(k, "anyOf").value.items;
               exists i | 0 <= i < |options| :: Conforms(v, options[i], root, fuel - 1))
         && (Get(k, "enum").Some? && Get(k, "enum").value.List? ==> v in Get(k, "enum").value.items)
         && (Get(k, "type").Some? && Get(k, "type").value.Text? ==> HasType(v, Get(k, "type").value.text))
         && (v.List? && Get(k, "items").Some? ==>
               forall i | 0 <= i < |v.items| :: Conforms(v.items[i], Get(k, "items").value, root, fuel - 1))
         && (v.Object? ==>
               && (forall i | 0 <= i < |v.members| ::
                     var property := PropertyOf(k, v.members[i].name);
                     if property.Some? then Conforms(v.members[i].value, property.value, root, fuel - 1)
                     else Get(k, "additionalProperties") != Some(Boolean(false)))
               && (Get(k, "required").Some? && Get(k, "required").value.List? ==>
                     forall i | 0 <= i < |Get(k, "required").value.items| ::
                       var name := Get(k, "required").value.items[i];
                       name.Text? ==> Get(v.members, name.text).Some?))
       case _ => false
  }

  // ---------- Well-shaped schemas ----------

  predicate IsScalar(t: string) {
    t == "string" || t == "integer" || t == "number" || t == "boolean" || t == "null"
  }

  predicate EnumIs(keywords: seq<Member>, texts: Option<seq<string>>) {
    texts.Some? ==> Get(keywords, "enum") == Some(TextList(texts.value))
  }

  /** A text limited to `texts`. */
  predicate LimitedText(schema: Json, texts: Option<seq<string>>) {
    schema.Object? && IsString(schema.members) && EnumIs(schema.members, texts)
  }

  predicate LimitedOrNull(schema: Json, texts: Option<seq<string>>) {
    || LimitedText(schema, texts)
    || (schema.Object? && Get(schema.members, "type") == Some(Text("null")))
  }

  /** A property for one account column is a text, possibly absent, limited to `texts`. */
  predicate ColumnOk(schema: Json, texts: Option<seq<string>>) {
    || LimitedText(schema, texts)
    || (&& schema.Object?
        && Get(schema.members, "anyOf").Some? && Get(schema.members, "anyOf").value.List?
        && var options := Get(schema.members, "anyOf").value.items;
           forall i | 0 <= i < |options| :: LimitedOrNull(options[i], texts))
  }

  predicate IsColumnName(name: string) {
    name == "account_id" || name == "canonical_url" || name == "canonical_handle" || name == "platform"
  }

  function ColumnOf(name: string, a: Option<Allowed>): Option<seq<string>> {
    if a.None? then None else a.value.Column(name)
  }

  predicate CitationOk(schema: Json, a: Option<Allowed>) {
    && schema.Object?
    && Get(schema.members, "items").Some? && Get(schema.members, "items").value.Object?
    && EnumIs(Get(schema.members, "items").value.members, if a.None? then None else Some(a.value.sources))
  }

  /** The two kinds of named properties have the expected form, with the limits `a` in place. */
  predicate PropertyOk(p: Member, a: Option<Allowed>) {
    && p.name != "default" && p.name != "properties"
    && (IsCitationName(p.name) ==> CitationOk(p.value, a))
    && (IsColumnName(p.name) ==> ColumnOk(p.value, ColumnOf(p.name, a)))
  }

  predicate ClosedObject(keywords: seq<Member>, properties: seq<Member>) {
    && Get(keywords, "additionalProperties") == Some(Boolean(false))
    && Get(keywords, "required") == Some(TextList(Names(properties)))
  }

  /** The fragment of JSON Schema that describes the output: references, alternatives,
      scalars, lists, and objects whose properties are listed. `closed` asks that objects
      have exactly the listed properties; `a` that the limits of a packet are in place. */
  predicate Proper(schema: Json, closed: bool, a: Option<Allowed>)
    decreases schema
  {
    && schema.Object?
    && var k := schema.members;
       var anyOf, items, properties := Find(k, "anyOf"), Find(k, "items"), Find(k, "properties");
       if Get(k, "$ref").Some? && Get(k, "$ref").value.Text? then true
       else if anyOf < |k| && k[anyOf].value.List? then
         forall i | 0 <= i < |k[anyOf].value.items| :: Proper(k[anyOf].value.items[i], closed, a)
       else if Get(k, "type") == Some(Text("array")) then
         items < |k| && Proper(k[items].value, closed, a)
       else if Get(k, "type") == Some(Text("object")) then
         && properties < |k| && k[properties].value.Object?
         && var ps := k[properties].value.members;
            && (forall i | 0 <= i < |ps| :: Proper(ps[i].value, closed, a))
            && (forall i | 0 <= i < |ps| :: PropertyOk(ps[i], a))
            && (closed ==> ClosedObject(k, ps))
       else
         Get(k, "type").Some? && Get(k, "type").value.Text? && IsScalar(Get(k, "type").value.text)
  }

  /** A whole schema: its root and all its definitions. */
  predicate ProperRoot(schema: Json, closed: bool, a: Option<Allowed>) {
    && Proper(schema, closed, a)
    && Get(schema.members, "$defs").Some? && Get(schema.members, "$defs").value.Object?
    && var definitions := Get(schema.members, "$defs").value.members;
       forall i | 0 <= i < |definitions| ::
         && definitions[i].name != "default" && definitions[i].name != "properties"
         && Proper(definitions[i].value, closed, a)
  }

  // ---------- What conforming means ----------

  function Enumerated(m: Member): set<string> {
    if m.value.Text? then {m.value.text} else {}
  }

  predicate MemberGrounded(m: Member, a: Allowed) {
    && (IsCitationName(m.name) ==> Texts(m.value) <= IdsIn(a.sources))
    && (IsColumnName(m.name) ==> Enumerated(m) <= IdsIn(a.Column(m.name).value))
  }

  /** Everywhere inside `v`, citations and account columns hold only what is allowed. */
  predicate GroundedValue(v: Json, a: Allowed)
    decreases v
  {
    match v
    case List(items) => forall i | 0 <= i < |items| :: GroundedValue(items[i], a)
    case Object(members) =>
      forall i | 0 <= i < |members| :: MemberGrounded(members[i], a) && GroundedValue(members[i].value, a)
    case _ => true
  }

  lemma TextListHolds(texts: seq<string>, v: Json)
    requires v in TextList(texts).items
    ensures v.Text? && v.text in texts
  {}

  lemma LimitedMember(v: Json, schema: Json, texts: seq<string>, root: seq<Member>, fuel: nat)
    requires Conforms(v, schema, root, fuel) && LimitedOrNull(schema, Some(texts))
    ensures v.Text? ==> v.text in texts
  {
    hide TextList;
    if LimitedText(schema, Some(texts)) {
      EnumHolds(v, schema, texts, root, fuel);
    }
  }

  lemma EnumHolds(v: Json, schema: Json, texts: seq<string>, root: seq<Member>, fuel: nat)
    requires Conforms(v, schema, root, fuel) && schema.Object? && Get(schema.members, "enum") == Some(TextList(texts))
    ensures v.Text? && v.text in texts
  {
    TextListHolds(texts, v);
  }

  lemma ColumnMember(m: Member, schema: Json, a: Allowed, root: seq<Member>, fuel: nat)
    requires IsColumnName(m.name) && ColumnOk(schema, a.Column(m.name))
    requires Conforms(m.value, schema, root, fuel)
    ensures Enumerated(m) <= IdsIn(a.Column(m.name).value)
  {
    hide TextList;
    var texts := a.Column(m.name).value;
    if LimitedText(schema, Some(texts)) {
      LimitedMember(m.value, schema, texts, root, fuel);
    } else {
      var options := Get(schema.members, "anyOf").value.items;
      var i :| 0 <= i < |options| && Conforms(m.value, options[i], root, fuel - 1);
      LimitedMember(m.value, options[i], texts, root, fuel - 1);
    }
  }

  lemma CitationMember(m: Member, schema: Json, a: Allowed, root: seq<Member>, fuel: nat)
    requires CitationOk(schema, Some(a)) && Conforms(m.value, schema, root, fuel)
    ensures Texts(m.value) <= IdsIn(a.sources)
  {
    hide TextList;
    if m.value.List? {
      var items := Get(schema.members, "items").value;
      forall i | 0 <= i < |m.value.items|
        ensures m.value.items[i].Text? && m.value.items[i].text in a.sources
      {
        assert Conforms(m.value.items[i], items, root, fuel - 1);
        EnumHolds(m.value.items[i], items, a.sources, root, fuel - 1);
      }
    }
  }

  ghost predicate DefinitionsProper(root: seq<Member>, closed: bool, a: Option<Allowed>) {
    Get(root, "$defs").Some? && Get(root, "$defs").value.Object? ==>
      var definitions := Get(root, "$defs").value.members;
      forall i | 0 <= i < |definitions| :: Proper(definitions[i].value, closed, a)
  }

  datatype Kind = Reference | Alternatives | Array | Record | Scalar

  function KindOf(schema: Json): Kind
    requires schema.Object?
  {
    var k := schema.members;
    if Get(k, "$ref").Some? && Get(k, "$ref").value.Text? then Reference
    else if Get(k, "anyOf").Some? && Get(k, "anyOf").value.List? then Alternatives
    else if Get(k, "type") == Some(Text("array")) then Array
    else if Get(k, "type") == Some(Text("object")) then Record
    else Scalar
  }

  lemma ReferenceStep(v: Json, schema: Json, root: seq<Member>, a: Allowed, fuel: nat)
    requires Conforms(v, schema, root, fuel) && schema.Object? && KindOf(schema).Reference?
    requires DefinitionsProper(root, true, Some(a))
    ensures exists target :: Proper(target, true, Some(a)) && Conforms(v, target, root, fuel - 1)
  {
    hide Proper;
    var target := Resolve(root, Get(schema.members, "$ref").value.text).value;
    assert Conforms(v, target, root, fuel - 1);
  }

  lemma AlternativesStep(v: Json, schema: Json, root: seq<Member>, a: Allowed, fuel: nat)
    requires Conforms(v, schema, root, fuel) && Proper(schema, true, Some(a)) && KindOf(schema).Alternatives?
    ensures exists option :: Proper(option, true, Some(a)) && Conforms(v, option, root, fuel - 1)
  {
    var options := Get(schema.members, "anyOf").value.items;
    var i :| 0 <= i < |options| && Conforms(v, options[i], root, fuel - 1);
    hide Conforms;
    assert Proper(options[i], true, Some(a));
  }

  lemma ArrayStep(v: Json, schema: Json, root: seq<Member>, a: Allowed, fuel: nat)
    requires Conforms(v, schema, root, fuel) && Proper(schema, true, Some(a)) && KindOf(schema).Array?
    ensures v.List?
    ensures forall i | 0 <= i < |v.items| :: exists item :: Proper(item, true, Some(a)) && Conforms(v.items[i], item, root, fuel - 1)
  {
    var item := Get(schema.members, "items").value;
    assert Proper(item, true, Some(a));
    hide Proper;
    forall i | 0 <= i < |v.items|
      ensures Conforms(v.items[i], item, root, fuel - 1)
    {}
  }

  lemma RecordStep(v: Json, schema: Json, root: seq<Member>, a: Allowed, fuel: nat)
    requires Conforms(v, schema, root, fuel) && Proper(schema, true, Some(a)) && KindOf(schema).Record?
    ensures v.Object?
    ensures forall i | 0 <= i < |v.members| :: exists property ::
      && Proper(property, true, Some(a)) && PropertyOk(Member(v.members[i].name, property), Some(a))
      && Conforms(v.members[i].value, property, root, fuel - 1)
  {
    RecordIsObject(v, schema, root, fuel);
    var properties := RecordProperties(schema, a);
    forall i | 0 <= i < |v.members|
      ensures exists property ::
        && Proper(property, true, Some(a)) && PropertyOk(Member(v.members[i].name, property), Some(a))
        && Conforms(v.members[i].value, property, root, fuel - 1)
    {
      MemberStep(v, schema, root, fuel, i);
      hide Conforms, Proper, PropertyOk;
      var j := Find(properties, v.members[i].name);
      assert Proper(properties[j].value, true, Some(a)) && PropertyOk(properties[j], Some(a));
      assert properties[j] == Member(v.members[i].name, properties[j].value);
    }
  }

  lemma RecordIsObject(v: Json, schema: Json, root: seq<Member>, fuel: nat)
    requires Conforms(v, schema, root, fuel) && schema.Object? && KindOf(schema).Record?
    ensures v.Object?
  {}

  lemma RecordProperties(schema: Json, a: Allowed) returns (properties: seq<Member>)
    requires Proper(schema, true, Some(a)) && KindOf(schema).Record?
    ensures Get(schema.members, "properties") == Some(Object(properties)) && ClosedObject(schema.members, properties)
    ensures forall i | 0 <= i < |properties| :: Proper(properties[i].value, true, Some(a)) && PropertyOk(properties[i], Some(a))
  {
    hide PropertyOk, ClosedObject;
    properties := Get(schema.members, "properties").value.members;
  }

  lemma MemberStep(v: Json, schema: Json, root: seq<Member>, fuel: nat, i: nat)
    requires Conforms(v, schema, root, fuel) && v.Object? && i < |v.members| && schema.Object?
    requires Get(schema.members, "additionalProperties") == Some(Boolean(false))
    ensures PropertyOf(schema.members, v.members[i].name).Some?
    ensures Conforms(v.members[i].value, PropertyOf(schema.members, v.members[i].name).value, root, fuel - 1)
  {}

  lemma ScalarStep(v: Json, schema: Json, root: seq<Member>, a: Allowed, fuel: nat)
    requires Conforms(v, schema, root, fuel) && Proper(schema, true, Some(a)) && KindOf(schema).Scalar?
    ensures !v.List? && !v.Object?
  {}

  /** A value that conforms to a limited schema is grounded everywhere inside. */
  lemma {:induction false} ConformingIsGrounded(v: Json, schema: Json, root: seq<Member>, a: Allowed, fuel: nat)
    requires Conforms(v, schema, root, fuel)
    requires Proper(schema, true, Some(a)) && DefinitionsProper(root, true, Some(a))
    ensures GroundedValue(v, a)
    decreases fuel
  {
    hide Conforms, KindOf, DefinitionsProper, MemberGrounded, PropertyOk;
    ConformsHasFuel(v, schema, root, fuel);
    match KindOf(schema)
    case Reference =>
      ReferenceStep(v, schema, root, a, fuel);
      var target :| Proper(target, true, Some(a)) && Conforms(v, target, root, fuel - 1);
      ConformingIsGrounded(v, target, root, a, fuel - 1);
    case Alternatives =>
      AlternativesStep(v, schema, root, a, fuel);
      var option :| Proper(option, true, Some(a)) && Conforms(v, option, root, fuel - 1);
      ConformingIsGrounded(v, option, root, a, fuel - 1);
    case Array =>
      ArrayStep(v, schema, root, a, fuel);
      forall i | 0 <= i < |v.items|
        ensures GroundedValue(v.items[i], a)
      {
        var item :| Proper(item, true, Some(a)) && Conforms(v.items[i], item, root, fuel - 1);
        ConformingIsGrounded(v.items[i], item, root, a, fuel - 1);
      }
    case Record =>
      RecordStep(v, schema, root, a, fuel);
      forall i | 0 <= i < |v.members|
        ensures MemberGrounded(v.members[i], a) && GroundedValue(v.members[i].value, a)
      {
        var property :|
          && Proper(property, true, Some(a)) && PropertyOk(Member(v.members[i].name, property), Some(a))
          && Conforms(v.members[i].value, property, root, fuel - 1);
        ConformingIsGrounded(v.members[i].value, property, root, a, fuel - 1);
        ConformingMember(v.members[i], property, a, root, fuel - 1);
      }
    case Scalar =>
      ScalarStep(v, schema, root, a, fuel);
  }

  lemma ConformsHasFuel(v: Json, schema: Json, root: seq<Member>, fuel: nat)
    requires Conforms(v, schema, root, fuel)
    ensures fuel > 0 && (schema.Object? || schema.Boolean?)
  {}

  lemma ConformingMember(m: Member, schema: Json, a: Allowed, root: seq<Member>, fuel: nat)
    requires PropertyOk(Member(m.name, schema), Some(a)) && Conforms(m.value, schema, root, fuel)
    ensures MemberGrounded(m, a)
  {
    hide Conforms, IsCitationName, Enumerated, Texts;
    if IsCitationName(m.name) {
      CitationMember(m, schema, a, root, fuel);
    }
    if IsColumnName(m.name) {
      ColumnMember(m, schema, a, root, fuel);
    }
  }

  /** A grounded value cites only what is allowed. */
  lemma {:induction false} GroundedCites(v: Json, a: Allowed)
    requires GroundedValue(v, a)
    ensures Cited(v) <= IdsIn(a.sources)
    decreases v
  {
    match v
    case List(items) =>
      forall i | 0 <= i < |items| ensures Cited(items[i]) <= IdsIn(a.sources) {
        GroundedCites(items[i], a);
      }
    case Object(members) =>
      forall i | 0 <= i < |members| ensures CitedInMember(members[i]) <= IdsIn(a.sources) {
        GroundedCites(members[i].value, a);
      }
    case _ =>
  }

  // ---------- What rewriting achieves ----------

  lemma {:induction false} GetRequired(members: seq<Member>, k: string)
    requires k != "default"
    ensures Get(RequireMembers(members), k) ==
            if Get(members, k).None? then None else Some(RequireAll(Get(members, k).value))
  {
    hide RequireAll;
    if members != [] {
      GetRequired(members[1..], k);
      assert members == [members[0]] + members[1..];
      GetFirst(members[0], members[1..], k);
      GetFirst(Member(members[0].name, RequireAll(members[0].value)), RequireMembers(members[1..]), k);
    }
  }

  lemma {:induction false} RequireMembersAt(members: seq<Member>)
    requires forall i | 0 <= i < |members| :: members[i].name != "default"
    ensures |RequireMembers(members)| == |members|
    ensures forall i | 0 <= i < |members| ::
              RequireMembers(members)[i] == Member(members[i].name, RequireAll(members[i].value))
  {
    hide RequireAll;
    if members != [] {
      RequireMembersAt(members[1..]);
    }
  }

  /** What requiring does to one keyword of an object. */
  lemma RequiredKeyword(k: seq<Member>, name: string)
    requires name != "default" && name != "required" && name != "additionalProperties"
    ensures RequireAll(Object(k)).Object?
    ensures Get(RequireAll(Object(k)).members, name) ==
            if Get(k, name).None? then None else Some(RequireAll(Get(k, name).value))
  {
    hide Get, Put, TextList;
    var visited := RequireMembers(k);
    GetRequired(k, name);
    if Get(k, "properties").Some? && Get(k, "properties").value.Object? {
      var required := TextList(Names(Get(k, "properties").value.members));
      GetPut(visited, "required", required, name);
      GetPut(Put(visited, "required", required), "additionalProperties", Boolean(false), name);
    }
  }

  lemma RequiredIsClosed(k: seq<Member>, properties: seq<Member>)
    requires Get(k, "properties") == Some(Object(properties))
    ensures ClosedObject(RequireAll(Object(k)).members, properties)
  {
    hide Get, Put, TextList;
    var visited := RequireMembers(k);
    var required := TextList(Names(properties));
    GetPut(visited, "required", required, "required");
    GetPut(Put(visited, "required", required), "additionalProperties", Boolean(false), "required");
    GetPut(Put(visited, "required", required), "additionalProperties", Boolean(false), "additionalProperties");
  }

  /** The shape of a schema, keyword by keyword. */
  lemma ProperMeans(schema: Json, closed: bool, a: Option<Allowed>)
    requires schema.Object?
    ensures Proper(schema, closed, a) <==>
      var k := schema.members;
      match KindOf(schema)
      case Reference => true
      case Alternatives => AllProper(Get(k, "anyOf").value.items, closed, a)
      case Array => Get(k, "items").Some? && Proper(Get(k, "items").value, closed, a)
      case Record =>
        && Get(k, "properties").Some? && Get(k, "properties").value.Object?
        && PropertiesProper(Get(k, "properties").value.members, closed, a)
        && (closed ==> ClosedObject(k, Get(k, "properties").value.members))
      case Scalar => Get(k, "type").Some? && Get(k, "type").value.Text? && IsScalar(Get(k, "type").value.text)
  {
    hide ClosedObject, PropertyOk, IsScalar;
  }

  predicate AllProper(items: seq<Json>, closed: bool, a: Option<Allowed>) {
    forall i | 0 <= i < |items| :: Proper(items[i], closed, a)
  }

  predicate PropertiesProper(properties: seq<Member>, closed: bool, a: Option<Allowed>) {
    && (forall i | 0 <= i < |properties| :: Proper(properties[i].value, closed, a))
    && (forall i | 0 <= i < |properties| :: PropertyOk(properties[i], a))
  }

  lemma RequiredKind(schema: Json)
    requires schema.Object?
    ensures RequireAll(schema).Object? && KindOf(RequireAll(schema)) == KindOf(schema)
    ensures Get(schema.members, "type").Some? && Get(schema.members, "type").value.Text? ==>
              Get(RequireAll(schema).members, "type") == Get(schema.members, "type")
  {
    hide Get, Put;
    var k := schema.members;
    RequiredKeyword(k, "$ref");
    RequiredKeyword(k, "anyOf");
    RequiredKeyword(k, "type");
  }

  lemma {:induction false} RequireProper(schema: Json)
    requires Proper(schema, false, None)
    ensures Proper(RequireAll(schema), true, None)
    decreases schema
  {
    var k := schema.members;
    ProperMeans(schema, false, None);
    ProperMeans(RequireAll(schema), true, None);
    RequiredKind(schema);
    hide Proper, Put, RequireAll, KindOf, PropertyOk, ClosedObject, PropertiesProper;
    match KindOf(schema)
    case Reference =>
    case Alternatives =>
      RequiredKeyword(k, "anyOf");
      var options := k[Find(k, "anyOf")].value.items;
      RequiredList(options);
      forall i | 0 <= i < |options| ensures Proper(RequireAll(options[i]), true, None) {
        RequireProper(options[i]);
      }
    case Array =>
      RequiredKeyword(k, "items");
      RequireProper(k[Find(k, "items")].value);
    case Record =>
      RequiredKeyword(k, "properties");
      var properties := k[Find(k, "properties")].value.members;
      RequiredIsClosed(k, properties);
      forall i | 0 <= i < |properties| ensures Proper(RequireAll(properties[i].value), true, None) {
        PropertyIsProper(properties, i);
        RequireProper(properties[i].value);
      }
      RequiredProperties(properties);
      SameNamesClosed(RequireAll(schema).members, properties, RequireAll(Object(properties)).members);
    case Scalar =>
      hide Get;
  }

  lemma PropertyIsProper(properties: seq<Member>, i: nat)
    requires PropertiesProper(properties, false, None) && i < |properties|
    ensures Proper(properties[i].value, false, None)
  {}

  lemma RequiredList(items: seq<Json>)
    ensures RequireAll(List(items)).List? && |RequireAll(List(items)).items| == |items|
    ensures forall i | 0 <= i < |items| :: RequireAll(List(items)).items[i] == RequireAll(items[i])
  {}

  lemma SameNamesClosed(k: seq<Member>, left: seq<Member>, right: seq<Member>)
    requires ClosedObject(k, left) && Names(left) == Names(right)
    ensures ClosedObject(k, right)
  {}

  lemma RequiredProperties(properties: seq<Member>)
    requires PropertiesProper(properties, false, None)
    requires forall i | 0 <= i < |properties| :: Proper(RequireAll(properties[i].value), true, None)
    ensures RequireAll(Object(properties)).Object?
    ensures PropertiesProper(RequireAll(Object(properties)).members, true, None)
    ensures Names(RequireAll(Object(properties)).members) == Names(properties)
  {
    hide Proper, CitationOk, ColumnOk;
    RequireMembersAt(properties);
    var visited := RequireMembers(properties);
    assert RequireAll(Object(properties)) == Object(visited);
    hide RequireAll, RequireMembers;
    forall i | 0 <= i < |properties|
      ensures PropertyOk(visited[i], None)
    {
      assert PropertyOk(properties[i], None);
      RequiredPropertyOk(properties[i]);
    }
  }

  lemma RequiredPropertyOk(p: Member)
    requires PropertyOk(p, None)
    ensures PropertyOk(Member(p.name, RequireAll(p.value)), None)
  {
    hide Get, RequireAll, IsCitationName, IsColumnName, CitationOk, ColumnOk;
    if IsCitationName(p.name) {
      RequiredCitation(p.value);
    }
    if IsColumnName(p.name) {
      RequiredColumn(p.value);
    }
  }

  lemma RequiredCitation(schema: Json)
    requires CitationOk(schema, None)
    ensures CitationOk(RequireAll(schema), None)
  {
    RequiredKeyword(schema.members, "items");
    hide Get, Put;
    assert RequireAll(Get(schema.members, "items").value).Object?;
  }

  lemma RequiredText(schema: Json)
    ensures LimitedOrNull(schema, None) ==> LimitedOrNull(RequireAll(schema), None)
    ensures LimitedText(schema, None) ==> LimitedText(RequireAll(schema), None)
  {
    if schema.Object? {
      RequiredKind(schema);
    }
    hide Get, Put, RequireAll;
  }

  lemma RequiredColumn(schema: Json)
    requires ColumnOk(schema, None)
    ensures ColumnOk(RequireAll(schema), None)
  {
    RequiredText(schema);
    if !LimitedText(schema, None) {
      RequiredKeyword(schema.members, "anyOf");
      var options := Get(schema.members, "anyOf").value.items;
      RequiredList(options);
      hide Get, Put, RequireAll;
      forall i | 0 <= i < |options| ensures LimitedOrNull(RequireAll(options[i]), None) {
        RequiredText(options[i]);
      }
    }
  }

  function ConstrainedValue(m: Member, a: Allowed): Json {
    if m.name == "properties" && m.value.Object? then Object(TightenEach(ConstrainMembers(m.value.members, a), a))
    else Constrain(m.value, a)
  }

  lemma {:induction false} ConstrainMembersAt(members: seq<Member>, a: Allowed)
    ensures |ConstrainMembers(members, a)| == |members|
    ensures forall i | 0 <= i < |members| ::
              ConstrainMembers(members, a)[i] == Member(members[i].name, ConstrainedValue(members[i], a))
  {
    hide Constrain, ConstrainedValue, TightenEach;
    if members != [] {
      ConstrainMembersAt(members[1..], a);
      FirstConstrained(members, a);
    }
  }

  lemma FirstConstrained(members: seq<Member>, a: Allowed)
    requires members != []
    ensures ConstrainMembers(members, a) ==
            [Member(members[0].name, ConstrainedValue(members[0], a))] + ConstrainMembers(members[1..], a)
  {
    hide Constrain, TightenEach;
  }

  lemma NoMembers(a: Allowed)
    ensures ConstrainMembers([], a) == []
  {}

  /** What limiting does to one keyword of an object. */
  lemma {:induction false} ConstrainedKeyword(k: seq<Member>, name: string, a: Allowed)
    ensures Get(ConstrainMembers(k, a), name) ==
            if Get(k, name).None? then None else Some(ConstrainedValue(Member(name, Get(k, name).value), a))
  {
    NoMembers(a);
    hide ConstrainMembers, ConstrainedValue;
    if k != [] {
      ConstrainedKeyword(k[1..], name, a);
      FirstConstrained(k, a);
      assert k == [k[0]] + k[1..];
      GetFirst(k[0], k[1..], name);
      GetFirst(Member(k[0].name, ConstrainedValue(k[0], a)), ConstrainMembers(k[1..], a), name);
    }
  }

  lemma ConstrainedLeaf(j: Json, a: Allowed)
    ensures !j.Object? && !j.List? ==> Constrain(j, a) == j
    ensures j.List? ==> Constrain(j, a).List? && |Constrain(j, a).items| == |j.items|
    ensures j.List? ==> forall i | 0 <= i < |j.items| :: Constrain(j, a).items[i] == Constrain(j.items[i], a)
    ensures j.Object? ==> Constrain(j, a) == Object(ConstrainMembers(j.members, a))
  {}

  lemma ConstrainedTexts(texts: seq<string>, a: Allowed)
    ensures Constrain(TextList(texts), a) == TextList(texts)
  {
    var list := TextList(texts);
    ConstrainedLeaf(list, a);
    forall i | 0 <= i < |texts| ensures Constrain(list.items[i], a) == list.items[i] {
      ConstrainedLeaf(list.items[i], a);
    }
  }

  lemma ConstrainedKind(schema: Json, a: Allowed)
    requires schema.Object?
    ensures KindOf(Object(ConstrainMembers(schema.members, a))) == KindOf(schema)
    ensures Get(schema.members, "type").Some? && Get(schema.members, "type").value.Text? ==>
              Get(ConstrainMembers(schema.members, a), "type") == Get(schema.members, "type")
  {
    hide Get, ConstrainMembers, TightenEach;
    var k := schema.members;
    ConstrainedKeyword(k, "$ref", a);
    ConstrainedKeyword(k, "anyOf", a);
    ConstrainedKeyword(k, "type", a);
    KeywordLeaf(k, "$ref", a);
    KeywordLeaf(k, "anyOf", a);
    KeywordLeaf(k, "type", a);
  }

  lemma KeywordLeaf(k: seq<Member>, name: string, a: Allowed)
    requires name != "properties"
    ensures Get(k, name).Some? ==> ConstrainedValue(Member(name, Get(k, name).value), a) == Constrain(Get(k, name).value, a)
    ensures Get(k, name).Some? && !Get(k, name).value.List? && !Get(k, name).value.Object? ==>
              Constrain(Get(k, name).value, a) == Get(k, name).value
    ensures Get(k, name).Some? && Get(k, name).value.List? ==> Constrain(Get(k, name).value, a).List?
    ensures Get(k, name).Some? && Get(k, name).value.Object? ==> Constrain(Get(k, name).value, a).Object?
  {
    if Get(k, name).Some? {
      ConstrainedLeaf(Get(k, name).value, a);
    }
    hide Get;
  }

  // ---------- Limiting one property ----------

  lemma PutKeywords(k: seq<Member>, changed: string, value: Json)
    ensures forall name :: Get(Put(k, changed, value), name) == if name == changed then Some(value) else Get(k, name)
  {
    hide Get, Put;
    forall name: string
      ensures Get(Put(k, changed, value), name) == if name == changed then Some(value) else Get(k, name)
    {
      GetPut(k, changed, value, name);
    }
  }

  lemma PutEnumProper(members: seq<Member>, value: Json, closed: bool, a: Option<Allowed>)
    requires Proper(Object(members), closed, a)
    ensures Proper(Object(Put(members, "enum", value)), closed, a)
  {
    hide Proper, Get, Put, PropertiesProper, AllProper, IsScalar;
    var k := Put(members, "enum", value);
    PutKeywords(members, "enum", value);
    ProperMeans(Object(members), closed, a);
    ProperMeans(Object(k), closed, a);
    assert KindOf(Object(k)) == KindOf(Object(members));
  }

  lemma TightenProper(name: string, schema: Json, a: Allowed)
    requires Proper(schema, true, Some(a))
    ensures Proper(Tighten(name, schema, a), true, Some(a))
  {
    if IsCitationName(name) {
      TightenItemsProper(schema, a);
    } else if a.Column(name).Some? {
      LimitStringProper(schema, a.Column(name).value, a);
    }
    hide Proper, SetEnum, LimitString, IsCitationName;
  }

  lemma TightenItemsProper(schema: Json, a: Allowed)
    requires schema.Object? && Proper(schema, true, Some(a))
    ensures Get(schema.members, "items").Some? && Get(schema.members, "items").value.Object? ==>
      Proper(Object(Put(schema.members, "items", Object(SetEnum(Get(schema.members, "items").value.members, a.sources)))),
             true, Some(a))
  {
    hide Proper, Get, Put, PropertiesProper, AllProper, IsScalar;
    if Get(schema.members, "items").Some? && Get(schema.members, "items").value.Object? {
      var items := Get(schema.members, "items").value;
      var limited := Object(SetEnum(items.members, a.sources));
      var k := Put(schema.members, "items", limited);
      if Proper(items, true, Some(a)) {
        PutEnumProper(items.members, TextList(a.sources), true, Some(a));
      }
      PutKeywords(schema.members, "items", limited);
      ProperMeans(schema, true, Some(a));
      ProperMeans(Object(k), true, Some(a));
      assert KindOf(Object(k)) == KindOf(schema);
    }
  }

  lemma LimitVariantProper(variant: Json, texts: seq<string>, a: Allowed)
    requires Proper(variant, true, Some(a))
    ensures Proper(LimitVariant(variant, texts), true, Some(a))
  {
    PutEnumProper(variant.members, TextList(texts), true, Some(a));
  }

  lemma LimitStringProper(schema: Json, texts: seq<string>, a: Allowed)
    requires Proper(schema, true, Some(a))
    ensures Proper(Object(LimitString(schema.members, texts)), true, Some(a))
  {
    PutEnumProper(schema.members, TextList(texts), true, Some(a));
    var limited := if IsString(schema.members) then SetEnum(schema.members, texts) else schema.members;
    if Get(limited, "anyOf").Some? && Get(limited, "anyOf").value.List? {
      LimitAlternativesProper(limited, texts, a);
    }
    hide Proper, Get, Put, LimitVariant;
  }

  function LimitedVariants(variants: seq<Json>, texts: seq<string>): Json {
    List(seq(|variants|, i requires 0 <= i < |variants| => LimitVariant(variants[i], texts)))
  }

  lemma LimitAlternativesProper(k: seq<Member>, texts: seq<string>, a: Allowed)
    requires Proper(Object(k), true, Some(a))
    requires Get(k, "anyOf").Some? && Get(k, "anyOf").value.List?
    ensures Proper(Object(Put(k, "anyOf", LimitedVariants(Get(k, "anyOf").value.items, texts))), true, Some(a))
  {
    hide Proper, Get, Put, PropertiesProper, IsScalar, LimitVariant;
    var variants := Get(k, "anyOf").value.items;
    var limited := LimitedVariants(variants, texts);
    var after := Put(k, "anyOf", limited);
    PutKeywords(k, "anyOf", limited);
    ProperMeans(Object(k), true, Some(a));
    ProperMeans(Object(after), true, Some(a));
    assert KindOf(Object(after)) == KindOf(Object(k));
    if KindOf(Object(k)).Alternatives? {
      forall i | 0 <= i < |variants| ensures Proper(LimitVariant(variants[i], texts), true, Some(a)) {
        LimitVariantProper(variants[i], texts, a);
      }
    }
  }

  lemma ColumnNamesAreNotCitations(name: string)
    requires IsColumnName(name)
    ensures !IsCitationName(name)
  {
    assert "canonical_url"[3..][9] == 'l';
    assert "canonical_handle"[6..][9] == 'e';
    assert "account_id"[0..][9] == 'd';
  }

  lemma ColumnIsKnown(name: string, a: Allowed)
    ensures a.Column(name).Some? <==> IsColumnName(name)
  {}

  /** A property of the expected form ends up limited to what the packet allows. */
  lemma TightenedPropertyOk(p: Member, a: Allowed)
    requires PropertyOk(p, None)
    ensures PropertyOk(Member(p.name, Tighten(p.name, p.value, a)), Some(a))
  {
    ColumnIsKnown(p.name, a);
    if IsCitationName(p.name) {
      TightenedCitation(p, a);
      if IsColumnName(p.name) {
        ColumnNamesAreNotCitations(p.name);
      }
    } else if IsColumnName(p.name) {
      TightenedColumn(p.value, a.Column(p.name).value);
    }
    hide IsCitationName, Get, Put, CitationOk, LimitString, ColumnOk, IsColumnName;
  }

  lemma TightenedCitation(p: Member, a: Allowed)
    requires IsCitationName(p.name) && CitationOk(p.value, None)
    ensures CitationOk(Tighten(p.name, p.value, a), Some(a))
  {
    var items := Get(p.value.members, "items").value.members;
    GetPut(items, "enum", TextList(a.sources), "enum");
    GetPut(p.value.members, "items", Object(SetEnum(items, a.sources)), "items");
    hide Get, Put, TextList;
  }

  lemma LimitedVariantOk(variant: Json, texts: seq<string>)
    requires LimitedOrNull(variant, None)
    ensures LimitedOrNull(LimitVariant(variant, texts), Some(texts))
  {
    if variant.Object? {
      GetPut(variant.members, "enum", TextList(texts), "enum");
      GetPut(variant.members, "enum", TextList(texts), "type");
    }
    hide Get, Put, TextList;
  }

  lemma TightenedColumn(schema: Json, texts: seq<string>)
    requires ColumnOk(schema, None)
    ensures ColumnOk(Object(LimitString(schema.members, texts)), Some(texts))
  {
    hide Get, Put, TextList, LimitVariant, LimitedOrNull;
    var k := schema.members;
    var limited := if IsString(k) then SetEnum(k, texts) else k;
    PutKeywords(k, "enum", TextList(texts));
    if Get(limited, "anyOf").Some? && Get(limited, "anyOf").value.List? {
      var variants := Get(limited, "anyOf").value.items;
      PutKeywords(limited, "anyOf", LimitedVariants(variants, texts));
      if !IsString(k) {
        forall i | 0 <= i < |variants| ensures LimitedOrNull(LimitVariant(variants[i], texts), Some(texts)) {
          LimitedVariantOk(variants[i], texts);
        }
      }
    }
  }

  // ---------- Limiting a whole schema ----------

  lemma ConstrainedProperties(properties: seq<Member>, a: Allowed)
    requires PropertiesProper(properties, true, None)
    requires forall i | 0 <= i < |properties| :: Proper(Constrain(properties[i].value, a), true, Some(a))
    ensures PropertiesProper(TightenEach(ConstrainMembers(properties, a), a), true, Some(a))
    ensures Names(TightenEach(ConstrainMembers(properties, a), a)) == Names(properties)
  {
    var limited := TightenEach(ConstrainMembers(properties, a), a);
    ConstrainMembersAt(properties, a);
    hide Proper, Constrain, ConstrainMembers, Tighten;
    forall i | 0 <= i < |properties|
      ensures Proper(limited[i].value, true, Some(a)) && PropertyOk(limited[i], Some(a)) && limited[i].name == properties[i].name
    {
      assert PropertyOk(properties[i], None);
      var p := Member(properties[i].name, Constrain(properties[i].value, a));
      assert limited[i] == Member(p.name, Tighten(p.name, p.value, a));
      TightenProper(p.name, p.value, a);
      ConstrainedPropertyOk(properties[i], a);
      TightenedPropertyOk(p, a);
    }
  }

  lemma ConstrainedPropertyOk(p: Member, a: Allowed)
    requires PropertyOk(p, None)
    ensures PropertyOk(Member(p.name, Constrain(p.value, a)), None)
  {
    hide Get, Constrain, IsCitationName, IsColumnName, CitationOk, ColumnOk;
    if IsCitationName(p.name) {
      ConstrainedCitation(p.value, a);
    }
    if IsColumnName(p.name) {
      ConstrainedColumn(p.value, a);
    }
  }

  lemma ConstrainedCitation(schema: Json, a: Allowed)
    requires CitationOk(schema, None)
    ensures CitationOk(Constrain(schema, a), None)
  {
    ConstrainedLeaf(schema, a);
    hide Get, ConstrainMembers, Constrain;
    ConstrainedKeyword(schema.members, "items", a);
    KeywordLeaf(schema.members, "items", a);
  }

  lemma ConstrainedText(schema: Json, a: Allowed)
    ensures LimitedOrNull(schema, None) ==> LimitedOrNull(Constrain(schema, a), None)
    ensures LimitedText(schema, None) ==> LimitedText(Constrain(schema, a), None)
  {
    hide Get, ConstrainMembers, Constrain;
    if schema.Object? {
      ConstrainedLeaf(schema, a);
      ConstrainedKind(schema, a);
    }
  }

  lemma ConstrainedColumn(schema: Json, a: Allowed)
    requires ColumnOk(schema, None)
    ensures ColumnOk(Constrain(schema, a), None)
  {
    hide Get, ConstrainMembers, Constrain;
    ConstrainedText(schema, a);
    if !LimitedText(schema, None) {
      ConstrainedLeaf(schema, a);
      ConstrainedKeyword(schema.members, "anyOf", a);
      KeywordLeaf(schema.members, "anyOf", a);
      var options := Get(schema.members, "anyOf").value;
      ConstrainedLeaf(options, a);
      forall i | 0 <= i < |options.items| ensures LimitedOrNull(Constrain(options.items[i], a), None) {
        ConstrainedText(options.items[i], a);
      }
    }
  }

  lemma ConstrainedIsClosed(k: seq<Member>, properties: seq<Member>, a: Allowed)
    requires ClosedObject(k, properties)
    ensures ClosedObject(ConstrainMembers(k, a), properties)
  {
    hide Get, ConstrainMembers, Constrain, TextList;
    ConstrainedKeyword(k, "additionalProperties", a);
    KeywordLeaf(k, "additionalProperties", a);
    ConstrainedKeyword(k, "required", a);
    KeywordLeaf(k, "required", a);
    ConstrainedTexts(Names(properties), a);
  }

  lemma {:induction false} ConstrainProper(schema: Json, a: Allowed)
    requires Proper(schema, true, None)
    ensures Proper(Constrain(schema, a), true, Some(a))
    decreases schema
  {
    var k := schema.members;
    ProperMeans(schema, true, None);
    ConstrainedLeaf(schema, a);
    ProperMeans(Constrain(schema, a), true, Some(a));
    ConstrainedKind(schema, a);
    hide Proper, ConstrainMembers, Constrain, KindOf, PropertyOk, ClosedObject, PropertiesProper, IsScalar, TightenEach;
    match KindOf(schema)
    case Reference =>
    case Alternatives =>
      ConstrainedKeyword(k, "anyOf", a);
      KeywordLeaf(k, "anyOf", a);
      var options := k[Find(k, "anyOf")].value.items;
      ConstrainedLeaf(List(options), a);
      forall i | 0 <= i < |options| ensures Proper(Constrain(options[i], a), true, Some(a)) {
        ConstrainProper(options[i], a);
      }
    case Array =>
      ConstrainedKeyword(k, "items", a);
      KeywordLeaf(k, "items", a);
      ConstrainProper(k[Find(k, "items")].value, a);
    case Record =>
      ConstrainedKeyword(k, "properties", a);
      var properties := k[Find(k, "properties")].value.members;
      forall i | 0 <= i < |properties| ensures Proper(Constrain(properties[i].value, a), true, Some(a)) {
        ClosedPropertyIsProper(properties, i);
        ConstrainProper(properties[i].value, a);
      }
      ConstrainedProperties(properties, a);
      ConstrainedIsClosed(k, properties, a);
      SameNamesClosed(ConstrainMembers(k, a), properties, TightenEach(ConstrainMembers(properties, a), a));
    case Scalar =>
  }

  lemma ClosedPropertyIsProper(properties: seq<Member>, i: nat)
    requires PropertiesProper(properties, true, None) && i < |properties|
    ensures Proper(properties[i].value, true, None)
  {}

  // ---------- The response schema ----------

  /** The generated schema of the output model: an object whose properties include the three
      that get pinned, with all its definitions. */
  predicate ModelSchema(model: Json) {
    && ProperRoot(model, false, None)
    && KindOf(model).Record?
    && TimelineReady(model.members)
    && var properties := Get(model.members, "properties");
       && properties.Some? && properties.value.Object?
       && Get(properties.value.members, "schema_version").Some?
       && Get(properties.value.members, "report_synthesis").Some?
       && Get(properties.value.members, "subject_profile").Some?
  }

  /** The definition of timeline entries is an object with the four properties that get values. */
  predicate TimelineReady(root: seq<Member>) {
    && Get(root, "$defs").Some? && Get(root, "$defs").value.Object?
    && var entry := Get(Get(root, "$defs").value.members, TIMELINE);
       && entry.Some? && entry.value.Object? && KindOf(entry.value).Record?
       && var properties := Get(entry.value.members, "properties");
          && properties.Some? && properties.value.Object?
          && Get(properties.value.members, "entry_type").Some?
          && Get(properties.value.members, "currentness").Some?
          && Get(properties.value.members, "confidence").Some?
          && Get(properties.value.members, "basis").Some?
  }

  lemma {:induction false} PutReplaces(members: seq<Member>, name: string, value: Json)
    ensures Find(members, name) < |members| ==>
      Put(members, name, value) == members[Find(members, name) := Member(name, value)]
  {
    if members != [] && members[0].name != name {
      PutReplaces(members[1..], name, value);
      if Find(members, name) < |members| {
        assert members == [members[0]] + members[1..];
      }
    }
  }

  lemma PutProperty(properties: seq<Member>, name: string, schema: Json)
    requires PropertiesProper(properties, true, None) && Get(properties, name).Some?
    requires Proper(schema, true, None) && PropertyOk(Member(name, schema), None)
    ensures PropertiesProper(Put(properties, name, schema), true, None)
    ensures Names(Put(properties, name, schema)) == Names(properties)
  {
    PutReplaces(properties, name, schema);
    hide Proper, PropertyOk, Put;
  }

  lemma PinnedSchemas()
    ensures Proper(VersionSchema(), true, None) && Proper(ReferenceSchema("GroundedReportSynthesis"), true, None)
    ensures Proper(ReferenceSchema("GroundedSubjectProfile"), true, None)
    ensures Get(VersionSchema().members, "enum") == Some(TextList([V4_NAME]))
  {
    hide Proper, Get, TextList;
    KeysOf(Member("type", Text("string")), Member("enum", TextList([V4_NAME])));
    ProperMeans(VersionSchema(), true, None);
    ReferenceIsProper("GroundedReportSynthesis");
    ReferenceIsProper("GroundedSubjectProfile");
  }

  lemma ReferenceIsProper(target: string)
    ensures Proper(ReferenceSchema(target), true, None)
  {
    hide Proper, Get;
    var m := Member("$ref", Text("#/$defs/" + target));
    assert [m] == [m] + [];
    GetFirst(m, [], "$ref");
    ProperMeans(ReferenceSchema(target), true, None);
  }

  lemma KeysOf(a: Member, b: Member)
    ensures forall name :: Get([a, b], name) == if name == a.name then Some(a.value) else if name == b.name then Some(b.value) else None
  {
    forall name: string
      ensures Get([a, b], name) == if name == a.name then Some(a.value) else if name == b.name then Some(b.value) else None
    {
      assert [a, b] == [a] + [b];
      GetFirst(a, [b], name);
    }
  }

  lemma PinnedNames()
    ensures !IsCitationName("schema_version") && !IsCitationName("report_synthesis") && !IsCitationName("subject_profile")
    ensures !IsColumnName("schema_version") && !IsColumnName("report_synthesis") && !IsColumnName("subject_profile")
  {
    assert "schema_version"[4..][9] == 'n';
    assert "report_synthesis"[6..][8] == 'i';
    assert "subject_profile"[5..][9] == 'e';
  }

  lemma PinnedPropertiesProper(properties: seq<Member>)
    requires PropertiesProper(properties, true, None)
    requires Get(properties, "schema_version").Some? && Get(properties, "report_synthesis").Some?
    requires Get(properties, "subject_profile").Some?
    ensures PropertiesProper(PinVersion(properties), true, None)
    ensures Names(PinVersion(properties)) == Names(properties)
    ensures Get(PinVersion(properties), "schema_version") == Some(VersionSchema())
    ensures Get(PinVersion(properties), "report_synthesis").Some? && Get(PinVersion(properties), "subject_profile").Some?
  {
    PinnedNames();
    PinnedSchemas();
    hide Get, Put, Proper, PropertiesProper, VersionSchema, ReferenceSchema, IsCitationName, IsColumnName, Names;
    var one := Put(properties, "schema_version", VersionSchema());
    var report := ReferenceSchema("GroundedReportSynthesis");
    var two := Put(one, "report_synthesis", report);
    var profile := ReferenceSchema("GroundedSubjectProfile");
    PutProperty(properties, "schema_version", VersionSchema());
    PutKeywords(properties, "schema_version", VersionSchema());
    PutProperty(one, "report_synthesis", report);
    PutKeywords(one, "report_synthesis", report);
    PutProperty(two, "subject_profile", profile);
    PutKeywords(two, "subject_profile", profile);
  }

  /** The properties of the root after each of the first two rewriting steps. */
  lemma RequiredRoot(model: Json) returns (properties: seq<Member>)
    requires ModelSchema(model)
    ensures RequireAll(model).Object? && Get(RequireAll(model).members, "properties") == Some(Object(properties))
    ensures KindOf(RequireAll(model)).Record?
    ensures PropertiesProper(properties, true, None) && ClosedObject(RequireAll(model).members, properties)
    ensures Get(properties, "schema_version").Some? && Get(properties, "report_synthesis").Some?
    ensures Get(properties, "subject_profile").Some?
    ensures DefinitionsNamed(RequireAll(model).members) && DefinitionsProper(RequireAll(model).members, true, None)
    ensures TimelineReady(RequireAll(model).members)
  {
    hide Proper, ProperRoot, TimelineReady, Get, Put, KindOf, PropertiesProper, ClosedObject, RequireMembers, PropertyOk, DefinitionsProper,
      DefinitionsNamed, RequireAll, Names;
    RootIsProper(model);
    RequireProper(model);
    RequiredKind(model);
    RequiredKeyword(model.members, "properties");
    ProperMeans(model, false, None);
    ProperMeans(RequireAll(model), true, None);
    RequiredDefinitions(model);
    RequiredTimeline(model);
    var before := Get(model.members, "properties").value.members;
    GetRequired(before, "schema_version");
    GetRequired(before, "report_synthesis");
    GetRequired(before, "subject_profile");
    RequiredInner(before);
    properties := RequireAll(Object(before)).members;
  }

  lemma RootIsProper(model: Json)
    requires ProperRoot(model, false, None)
    ensures model.Object? && Proper(model, false, None)
  {}

  /** A dictionary of properties has no property called `properties`. */
  lemma RequiredInner(properties: seq<Member>)
    requires PropertiesProper(properties, false, None)
    ensures RequireAll(Object(properties)) == Object(RequireMembers(properties))
  {
    hide RequireMembers, Proper, Get;
    NoSuchMember(properties, "properties");
  }

  predicate DefinitionsNamed(root: seq<Member>) {
    && Get(root, "$defs").Some? && Get(root, "$defs").value.Object?
    && var definitions := Get(root, "$defs").value.members;
       forall i | 0 <= i < |definitions| :: definitions[i].name != "default" && definitions[i].name != "properties"
  }

  lemma RequiredDefinitions(model: Json)
    requires ProperRoot(model, false, None)
    ensures RequireAll(model).Object?
    ensures DefinitionsNamed(RequireAll(model).members) && DefinitionsProper(RequireAll(model).members, true, None)
  {
    hide Put, KindOf;
    var definitions := Get(model.members, "$defs").value.members;
    RequiredKeyword(model.members, "$defs");
    NoSuchMember(definitions, "properties");
    RequireMembersAt(definitions);
    forall i | 0 <= i < |definitions| ensures Proper(RequireAll(definitions[i].value), true, None) {
      RequireProper(definitions[i].value);
    }
    assert RequireAll(Object(definitions)) == Object(RequireMembers(definitions));
    hide Proper, RequireMembers, RequireAll;
  }

  /** Requiring keeps the definition of timeline entries ready. */
  lemma RequiredTimeline(model: Json)
    requires model.Object? && ProperRoot(model, false, None) && TimelineReady(model.members)
    ensures TimelineReady(RequireAll(model).members)
  {
    hide Get, Put, RequireAll, KindOf, Proper, PropertiesProper;
    var definitions := Get(model.members, "$defs").value.members;
    var entry := Get(definitions, TIMELINE).value;
    RequiredKeyword(model.members, "$defs");
    DefinitionsStay(model);
    GetRequired(definitions, TIMELINE);
    EntryIsProper(model);
    RequiredKind(entry);
    ProperMeans(entry, false, None);
    RequiredKeyword(entry.members, "properties");
    var properties := Get(entry.members, "properties").value.members;
    RequiredInner(properties);
    GetRequired(properties, "entry_type");
    GetRequired(properties, "currentness");
    GetRequired(properties, "confidence");
    GetRequired(properties, "basis");
  }

  lemma DefinitionsStay(model: Json)
    requires model.Object? && ProperRoot(model, false, None)
    ensures RequireAll(Get(model.members, "$defs").value) == Object(RequireMembers(Get(model.members, "$defs").value.members))
  {
    hide Get, RequireMembers, Proper;
    NoSuchMember(Get(model.members, "$defs").value.members, "properties");
  }

  lemma EntryIsProper(model: Json)
    requires model.Object? && ProperRoot(model, false, None) && TimelineReady(model.members)
    ensures Proper(Get(Get(model.members, "$defs").value.members, TIMELINE).value, false, None)
  {
    hide Proper, KindOf;
  }

  lemma NoSuchMember(members: seq<Member>, name: string)
    requires forall i | 0 <= i < |members| :: members[i].name != name
    ensures Get(members, name).None?
  {}

  lemma PinnedRoot(model: Json) returns (k: seq<Member>, properties: seq<Member>)
    requires ModelSchema(model)
    ensures PinRoot(RequireAll(model)) == Object(k) && KindOf(Object(k)).Record?
    ensures Get(k, "properties") == Some(Object(properties))
    ensures PropertiesProper(properties, true, None) && ClosedObject(k, properties)
    ensures Get(properties, "schema_version") == Some(VersionSchema())
    ensures Get(properties, "report_synthesis").Some? && Get(properties, "subject_profile").Some?
    ensures DefinitionsNamed(k) && DefinitionsProper(k, true, None) && TimelineReady(k)
  {
    hide ModelSchema, RequireAll, Proper, Get, Put, PropertiesProper, PinVersion, Names;
    var before := RequiredRoot(model);
    PinnedPropertiesProper(before);
    properties := PinVersion(before);
    k := Put(RequireAll(model).members, "properties", Object(properties));
    PutKeywords(RequireAll(model).members, "properties", Object(properties));
  }

  lemma ChoiceIsProper(values: seq<string>)
    ensures Proper(ChoiceSchema(values), true, None)
    ensures forall name | !IsCitationName(name) && !IsColumnName(name) && name != "default" && name != "properties" ::
              PropertyOk(Member(name, ChoiceSchema(values)), None)
  {
    hide Proper, Get, TextList;
    KeysOf(Member("type", Text("string")), Member("enum", TextList(values)));
    ProperMeans(ChoiceSchema(values), true, None);
  }

  lemma EntryNames()
    ensures forall name | name == "entry_type" || name == "currentness" || name == "confidence" || name == "basis" ::
      !IsCitationName(name) && !IsColumnName(name) && name != "default" && name != "properties"
  {
    assert "entry_type"[0..][0] == 'e' && "currentness"[1..][9] == 's' && "currentness"[1..][8] == 's' && "confidence"[0..][0] == 'c';
    assert "account_id"[1] == 'c' && "confidence"[1] == 'o' && "properties"[0] == 'p';
  }

  /** Giving values to the four texts of a record keeps it proper. */
  lemma LimitedEntryProper(properties: seq<Member>)
    requires PropertiesProper(properties, true, None)
    requires Get(properties, "entry_type").Some? && Get(properties, "currentness").Some?
    requires Get(properties, "confidence").Some? && Get(properties, "basis").Some?
    ensures PropertiesProper(LimitEntry(properties), true, None) && Names(LimitEntry(properties)) == Names(properties)
  {
    hide Get, Put, Proper, PropertiesProper, PropertyOk, ChoiceSchema, IsCitationName, IsColumnName, Names;
    EntryNames();
    ChoiceIsProper(ENTRY_TYPES);
    ChoiceIsProper(CURRENTNESS);
    ChoiceIsProper(CONFIDENCES);
    ChoiceIsProper(TRAIT_BASES);
    var one := Put(properties, "entry_type", ChoiceSchema(ENTRY_TYPES));
    var two := Put(one, "currentness", ChoiceSchema(CURRENTNESS));
    var three := Put(two, "confidence", ChoiceSchema(CONFIDENCES));
    PutProperty(properties, "entry_type", ChoiceSchema(ENTRY_TYPES));
    PutKeywords(properties, "entry_type", ChoiceSchema(ENTRY_TYPES));
    PutProperty(one, "currentness", ChoiceSchema(CURRENTNESS));
    PutKeywords(one, "currentness", ChoiceSchema(CURRENTNESS));
    PutProperty(two, "confidence", ChoiceSchema(CONFIDENCES));
    PutKeywords(two, "confidence", ChoiceSchema(CONFIDENCES));
    PutProperty(three, "basis", ChoiceSchema(TRAIT_BASES));
  }

  lemma LimitedDefinitionProper(definition: Json)
    requires definition.Object? && KindOf(definition).Record? && Proper(definition, true, None)
    requires Get(definition.members, "properties").Some? && Get(definition.members, "properties").value.Object?
    requires var properties := Get(definition.members, "properties").value.members;
      && Get(properties, "entry_type").Some? && Get(properties, "currentness").Some?
      && Get(properties, "confidence").Some? && Get(properties, "basis").Some?
    ensures Proper(LimitDefinition(definition), true, None)
  {
    hide Get, Put, Proper, PropertiesProper, LimitEntry, Names;
    var properties := Get(definition.members, "properties").value.members;
    ProperMeans(definition, true, None);
    LimitedEntryProper(properties);
    var k := Put(definition.members, "properties", Object(LimitEntry(properties)));
    PutKeywords(definition.members, "properties", Object(LimitEntry(properties)));
    ProperMeans(Object(k), true, None);
    assert KindOf(Object(k)) == KindOf(definition);
    assert ClosedObject(k, LimitEntry(properties));
  }

  /** The root after all steps but the last. */
  lemma TimelineRoot(model: Json) returns (k: seq<Member>, properties: seq<Member>)
    requires ModelSchema(model)
    ensures LimitTimeline(PinRoot(RequireAll(model))) == Object(k) && KindOf(Object(k)).Record?
    ensures Get(k, "properties") == Some(Object(properties))
    ensures PropertiesProper(properties, true, None) && ClosedObject(k, properties)
    ensures Get(properties, "schema_version") == Some(VersionSchema())
    ensures Get(properties, "report_synthesis").Some? && Get(properties, "subject_profile").Some?
    ensures DefinitionsNamed(k) && DefinitionsProper(k, true, None)
  {
    hide ModelSchema, RequireAll, PinRoot, Proper, Get, Put, PropertiesProper, LimitDefinition, VersionSchema, TextList, Names;
    var before: seq<Member>;
    before, properties := PinnedRoot(model);
    var definitions := Get(before, "$defs").value.members;
    var limited := Put(definitions, TIMELINE, LimitDefinition(Get(definitions, TIMELINE).value));
    k := Put(before, "$defs", Object(limited));
    PutKeywords(before, "$defs", Object(limited));
    EntryOfRoot(before);
    LimitedDefinitionProper(Get(definitions, TIMELINE).value);
    PutDefinition(definitions, LimitDefinition(Get(definitions, TIMELINE).value), limited);
  }

  lemma EntryOfRoot(root: seq<Member>)
    requires TimelineReady(root) && DefinitionsProper(root, true, None)
    ensures Proper(Get(Get(root, "$defs").value.members, TIMELINE).value, true, None)
  {
    hide Proper, KindOf;
  }

  lemma PutDefinition(definitions: seq<Member>, entry: Json, limited: seq<Member>)
    requires forall i | 0 <= i < |definitions| ::
      && definitions[i].name != "default" && definitions[i].name != "properties" && Proper(definitions[i].value, true, None)
    requires Get(definitions, TIMELINE).Some? && Proper(entry, true, None) && limited == Put(definitions, TIMELINE, entry)
    ensures forall i | 0 <= i < |limited| ::
      limited[i].name != "default" && limited[i].name != "properties" && Proper(limited[i].value, true, None)
  {
    hide Proper, Put;
    PutReplaces(definitions, TIMELINE, entry);
  }

  lemma ConstrainedDefinitions(k: seq<Member>, a: Allowed)
    requires DefinitionsNamed(k) && DefinitionsProper(k, true, None)
    ensures DefinitionsProper(ConstrainMembers(k, a), true, Some(a))
  {
    hide Proper, TightenEach;
    var definitions := Get(k, "$defs").value.members;
    ConstrainedKeyword(k, "$defs", a);
    KeywordLeaf(k, "$defs", a);
    ConstrainedLeaf(Object(definitions), a);
    ConstrainMembersAt(definitions, a);
    hide Get, ConstrainMembers;
    forall i | 0 <= i < |definitions| ensures Proper(ConstrainedValue(definitions[i], a), true, Some(a)) {
      ConstrainProper(definitions[i].value, a);
    }
  }

  lemma VersionStays(a: Allowed)
    ensures Tighten("schema_version", Constrain(VersionSchema(), a), a).Object?
    ensures Get(Tighten("schema_version", Constrain(VersionSchema(), a), a).members, "enum") == Some(TextList([V4_NAME]))
  {
    PinnedNames();
    PinnedSchemas();
    ConstrainedLeaf(VersionSchema(), a);
    ConstrainedKeyword(VersionSchema().members, "enum", a);
    KeywordLeaf(VersionSchema().members, "enum", a);
    ConstrainedTexts([V4_NAME], a);
    ColumnIsKnown("schema_version", a);
    hide Get, ConstrainMembers, IsCitationName, TextList, IsColumnName;
  }

  /** The root of the response schema. */
  lemma ResponseRoot(model: Json, p: Packet) returns (k: seq<Member>, properties: seq<Member>)
    requires ModelSchema(model)
    ensures ResponseSchema(model, p) == Object(k) && Proper(Object(k), true, Some(AllowedBy(p)))
    ensures KindOf(Object(k)).Record?
    ensures DefinitionsProper(k, true, Some(AllowedBy(p)))
    ensures Get(k, "properties") == Some(Object(properties)) && ClosedObject(k, properties)
    ensures Get(properties, "schema_version").Some? && Get(properties, "schema_version").value.Object?
    ensures Get(Get(properties, "schema_version").value.members, "enum") == Some(TextList([V4_NAME]))
    ensures Get(properties, "report_synthesis").Some? && Get(properties, "subject_profile").Some?
  {
    hide ModelSchema, RequireAll, PinRoot, LimitTimeline, Proper, Get, PropertiesProper, TightenEach, ConstrainMembers, ClosedObject,
      VersionSchema, AllowedBy, TextList;
    var a := AllowedBy(p);
    var pinned, before := TimelineRoot(model);
    k := ConstrainMembers(pinned, a);
    properties := TightenEach(ConstrainMembers(before, a), a);
    ConstrainedLeaf(Object(pinned), a);
    PinnedProper(pinned, before);
    ConstrainProper(Object(pinned), a);
    ConstrainedKind(Object(pinned), a);
    ConstrainedDefinitions(pinned, a);
    ConstrainedKeyword(pinned, "properties", a);
    ConstrainedIsClosed(pinned, before, a);
    SameNames(before, a);
    SameNamesClosed(k, before, properties);
    LimitedProperty(before, "schema_version", a);
    LimitedProperty(before, "report_synthesis", a);
    LimitedProperty(before, "subject_profile", a);
    VersionIsNotProperties(a);
    VersionStays(a);
  }

  lemma VersionIsNotProperties(a: Allowed)
    ensures ConstrainedValue(Member("schema_version", VersionSchema()), a) == Constrain(VersionSchema(), a)
  {
    hide Constrain;
  }

  lemma PinnedProper(k: seq<Member>, properties: seq<Member>)
    requires KindOf(Object(k)).Record? && Get(k, "properties") == Some(Object(properties))
    requires PropertiesProper(properties, true, None) && ClosedObject(k, properties)
    ensures Proper(Object(k), true, None)
  {
    ProperMeans(Object(k), true, None);
    hide Proper, PropertiesProper, ClosedObject;
  }

  lemma SameNames(properties: seq<Member>, a: Allowed)
    ensures Names(TightenEach(ConstrainMembers(properties, a), a)) == Names(properties)
  {
    ConstrainMembersAt(properties, a);
    hide ConstrainMembers, Tighten, ConstrainedValue;
  }

  /** What limiting does to one property of an object. */
  lemma LimitedProperty(properties: seq<Member>, name: string, a: Allowed)
    ensures Get(TightenEach(ConstrainMembers(properties, a), a), name) ==
            if Get(properties, name).None? then None
            else Some(Tighten(name, ConstrainedValue(Member(name, Get(properties, name).value), a), a))
  {
    ConstrainMembersAt(properties, a);
    hide ConstrainMembers, Tighten, ConstrainedValue;
    var limited := TightenEach(ConstrainMembers(properties, a), a);
    assert forall i | 0 <= i < |properties| :: limited[i].name == properties[i].name;
  }

  /** Whatever conforms to the response schema is a fourth-version output with both top-level
      sections, and it cites and names only what is in the packet. */
  lemma ResponseIsGrounded(model: Json, p: Packet, v: Json, fuel: nat)
    requires ModelSchema(model)
    requires ResponseSchema(model, p).Object? && Conforms(v, ResponseSchema(model, p), ResponseSchema(model, p).members, fuel)
    ensures GroundedValue(v, AllowedBy(p)) && Cited(v) <= IdsOf(p.sources)
    ensures v.Object? && Get(v.members, "schema_version") == Some(Text(V4_NAME))
    ensures Get(v.members, "report_synthesis").Some? && Get(v.members, "subject_profile").Some?
  {
    hide ModelSchema, ResponseSchema, Conforms, Proper, DefinitionsProper, Get, GroundedValue, ClosedObject, Cited, TextList;
    var k, properties := ResponseRoot(model, p);
    ConformingIsGrounded(v, Object(k), k, AllowedBy(p), fuel);
    GroundedCites(v, AllowedBy(p));
    AllowedSources(p);
    RecordIsObject(v, Object(k), k, fuel);
    RequiredMember(v, k, properties, "schema_version", fuel);
    RequiredMember(v, k, properties, "report_synthesis", fuel);
    RequiredMember(v, k, properties, "subject_profile", fuel);
    EnumHolds(Get(v.members, "schema_version").value, Get(properties, "schema_version").value, [V4_NAME], k, fuel - 1);
  }

  /** What a packet allows: the ids of its sources, and each column of its accounts. */
  lemma AllowedExactly(p: Packet)
    ensures forall x :: x in AllowedBy(p).sources <==> exists i | 0 <= i < |p.sources| :: p.sources[i].id == x
    ensures forall x :: x in AllowedBy(p).Column("account_id").value <==> exists i | 0 <= i < |p.accounts| :: p.accounts[i].id == x
    ensures forall x :: x in AllowedBy(p).Column("canonical_url").value <==> exists i | 0 <= i < |p.accounts| :: p.accounts[i].url == x
    ensures forall x :: x in AllowedBy(p).Column("canonical_handle").value <==> exists i | 0 <= i < |p.accounts| :: p.accounts[i].handle == x
    ensures forall x :: x in AllowedBy(p).Column("platform").value <==> exists i | 0 <= i < |p.accounts| :: p.accounts[i].platform == x
  {
    var a := AllowedBy(p);
    assert forall i | 0 <= i < |p.sources| :: a.sources[i] == p.sources[i].id;
    assert forall i | 0 <= i < |p.accounts| :: a.accounts[i] == p.accounts[i].id;
    assert forall i | 0 <= i < |p.accounts| :: a.urls[i] == p.accounts[i].url;
    assert forall i | 0 <= i < |p.accounts| :: a.handles[i] == p.accounts[i].handle;
    var platforms := seq(|p.accounts|, i requires 0 <= i < |p.accounts| => p.accounts[i].platform);
    assert forall i | 0 <= i < |p.accounts| :: platforms[i] == p.accounts[i].platform;
  }

  lemma AllowedSources(p: Packet)
    ensures IdsIn(AllowedBy(p).sources) == IdsOf(p.sources)
  {
    var ids := AllowedBy(p).sources;
    forall x
      ensures x in IdsIn(ids) <==> x in IdsOf(p.sources)
    {
      if x in IdsOf(p.sources) {
        var i :| 0 <= i < |p.sources| && p.sources[i].id == x;
        assert ids[i] == x;
      }
    }
  }

  lemma RequiredMember(v: Json, k: seq<Member>, properties: seq<Member>, name: string, fuel: nat)
    requires Conforms(v, Object(k), k, fuel) && v.Object?
    requires Get(k, "properties") == Some(Object(properties)) && ClosedObject(k, properties) && Get(properties, name).Some?
    ensures fuel > 0
    ensures Get(v.members, name).Some?
    ensures Conforms(Get(v.members, name).value, Get(properties, name).value, k, fuel - 1)
  {
    var required := TextList(Names(properties)).items;
    var i := Find(properties, name);
    assert required[i] == Text(name);
    assert Get(v.members, required[i].text).Some?;
    var j := Find(v.members, name);
    MemberStep(v, Object(k), k, fuel, j);
  }

  /** An output whose printed form conforms to the schema passes the validator's checks of its
      version and of the sources it cites. */
  lemma ConformingOutputPasses(model: Json, p: Packet, o: Output, fuel: nat)
    requires ModelSchema(model)
    requires ResponseSchema(model, p).Object?
    requires Conforms(OutputJson(o), ResponseSchema(model, p), ResponseSchema(model, p).members, fuel)
    ensures o.version == V4 && Cited(OutputJson(o)) <= IdsOf(p.sources)
  {
    ResponseIsGrounded(model, p, OutputJson(o), fuel);
    VersionNames(o.version);
    hide ModelSchema, ResponseSchema, Conforms, GroundedValue, Cited, IdsOf;
    assert Get(OutputJson(o).members, "schema_version") == Some(Text(VersionName(o.version)));
  }

  lemma VersionNames(v: Version)
    ensures VersionName(v) == V4_NAME ==> v == V4
  {
    assert VersionName(V1)[28] == '1' && VersionName(V2)[28] == '2' && VersionName(V3)[28] == '3';
  }
}
