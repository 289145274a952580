/** The auditor's view of one schema: which parts of it are schemas, where its references lead,
    and the checks it makes at a single location. */
module SchemaRules {
  import opened Optional
  import opened Json
  import opened JsonPointer

  type Schema = map<string, Value>

  /** The engines the auditor and the validator share: Go's regular expressions and the percent
      decoding of a URL fragment. */
  datatype Engines = Engines(
    compiles: string -> bool,
    matches: (string, string) -> bool,
    pathUnescape: string -> Option<string>
  )

  const DRAFT_2020_12 := "https://json-schema.org/draft/2020-12/schema"

  const MAP_KEYWORDS: set<string> :=
    {"$defs", "definitions", "properties", "patternProperties", "dependentSchemas"}

  const SINGLE_KEYWORDS: set<string> :=
    {"additionalProperties", "unevaluatedProperties", "items", "contains", "not", "if", "then", "else",
     "unevaluatedItems", "contentSchema"}

  const ARRAY_KEYWORDS: set<string> := {"allOf", "anyOf", "oneOf", "prefixItems"}

  const REFERENCE_KEYWORDS: set<string> := {"$ref", "$dynamicRef"}

  const ANCHOR_KEYWORDS: set<string> := {"$anchor", "$dynamicAnchor"}

  const TYPE_NAMES: set<string> :=
    {"object", "array", "null", "boolean", "number", "integer", "string"}

  /** The Go type assertion to an object: anything else reads as empty. */
  function Members(schema: Schema, keyword: string): Schema {
    if keyword in schema && schema[keyword].Obj? then schema[keyword].fields else map[]
  }

  /** The Go type assertion to an array: anything else reads as empty. */
  function Elements(schema: Schema, keyword: string): seq<Value> {
    if keyword in schema && schema[keyword].Arr? then schema[keyword].items else []
  }

  // ----- the parts of a schema that are schemas -----

  /** `visitSubschemas`, as locations relative to the schema. */
  function Subschemas(schema: Schema): set<Location> {
    (set keyword, name | keyword in MAP_KEYWORDS && name in Members(schema, keyword) :: [keyword, name]) +
    (set keyword | keyword in SINGLE_KEYWORDS && keyword in schema :: [keyword]) +
    (set keyword, i | keyword in ARRAY_KEYWORDS && 0 <= i < |Elements(schema, keyword)| :: [keyword, Decimal(i)]) +
    (set name | name in Members(schema, "dependencies") && !Members(schema, "dependencies")[name].Arr? ::
       ["dependencies", name])
  }

  lemma AtOne(value: Value, token: Token)
    ensures At(value, [token]) == Child(value, token)
  {
    assert [token][1..] == [];
  }

  lemma AtTwo(value: Value, first: Token, second: Token)
    requires Child(value, first).Some?
    ensures At(value, [first, second]) == Child(Child(value, first).value, second)
  {
    assert [first, second][1..] == [second];
    AtOne(Child(value, first).value, second);
  }

  lemma MemberAt(schema: Schema, keyword: string, name: string)
    requires name in Members(schema, keyword)
    ensures At(Obj(schema), [keyword, name]) == Some(Members(schema, keyword)[name])
  {
    AtTwo(Obj(schema), keyword, name);
  }

  lemma ElementAt(schema: Schema, keyword: string, i: nat)
    requires i < |Elements(schema, keyword)|
    ensures At(Obj(schema), [keyword, Decimal(i)]) == Some(Elements(schema, keyword)[i])
  {
    AtTwo(Obj(schema), keyword, Decimal(i));
    DecimalRoundTrip(i);
  }

  /** A subschema is always there to be visited. */
  lemma SubschemaExists(schema: Schema, part: Location)
    requires part in Subschemas(schema)
    ensures At(Obj(schema), part).Some?
  {
    if keyword, name :| keyword in MAP_KEYWORDS && name in Members(schema, keyword) && part == [keyword, name] {
      MemberAt(schema, keyword, name);
    } else if keyword :| keyword in SINGLE_KEYWORDS && keyword in schema && part == [keyword] {
      AtOne(Obj(schema), keyword);
    } else if keyword, i :|
        keyword in ARRAY_KEYWORDS && 0 <= i < |Elements(schema, keyword)| && part == [keyword, Decimal(i)] {
      ElementAt(schema, keyword, i);
    } else {
      var name :| name in Members(schema, "dependencies") && part == ["dependencies", name];
      MemberAt(schema, "dependencies", name);
    }
  }

  // ----- where references lead -----

  /** A reference into the current document. */
  predicate IsFragment(reference: Value) {
    reference.Str? && reference.text != "" && reference.text[0] == '#'
  }

  /** `resolveJSONPointer` on a fragment that starts with a slash. The escape test comes first. */
  ghost function PointerTarget(document: Value, fragment: string): set<Location>
    requires fragment != "" && fragment[0] == '/'
  {
    if EscapesValid(fragment) && At(document, Tokens(fragment)).Some? then {Tokens(fragment)} else {}
  }

  type Anchors = map<string, set<Location>>

  function AnchorTargets(anchors: Anchors, name: string): set<Location> {
    if name in anchors then anchors[name] else {}
  }

  /** `resolveLocalReference`: the document, an anchor, or a pointer; nothing when it cannot decode. */
  ghost function ReferenceTargets(engines: Engines, document: Value, anchors: Anchors, reference: string): set<Location>
    requires reference != ""
  {
    match engines.pathUnescape(reference[1..])
    case None => {}
    case Some(fragment) =>
      if fragment == "" then {[]}
      else if fragment[0] != '/' then AnchorTargets(anchors, fragment)
      else PointerTarget(document, fragment)
  }

  ghost function TargetsUnder(engines: Engines, document: Value, anchors: Anchors, schema: Schema,
      keyword: string): set<Location> {
    if keyword in schema && IsFragment(schema[keyword])
    then ReferenceTargets(engines, document, anchors, schema[keyword].text) else {}
  }

  function Parts(at: Location, schema: Schema): set<Location> {
    set part | part in Subschemas(schema) :: at + part
  }

  /** Every location the auditor visits directly from a schema: its parts and its references. */
  ghost function Successors(engines: Engines, document: Value, anchors: Anchors, at: Location): set<Location> {
    match At(document, at)
    case Some(Obj(schema)) =>
      Parts(at, schema) +
      TargetsUnder(engines, document, anchors, schema, "$ref") +
      TargetsUnder(engines, document, anchors, schema, "$dynamicRef")
    case _ => {}
  }

  ghost predicate AnchorsExist(document: Value, anchors: Anchors) {
    forall name, target | target in AnchorTargets(anchors, name) :: At(document, target).Some?
  }

  lemma PartExists(document: Value, at: Location, schema: Schema, next: Location)
    requires At(document, at) == Some(Obj(schema)) && next in Parts(at, schema)
    ensures At(document, next).Some?
  {
    var part :| part in Subschemas(schema) && next == at + part;
    SubschemaExists(schema, part);
    AtConcat(document, at, part);
  }

  lemma SuccessorExists(engines: Engines, document: Value, anchors: Anchors, at: Location, next: Location)
    requires AnchorsExist(document, anchors) && next in Successors(engines, document, anchors, at)
    ensures At(document, next).Some?
  {
    hide Parts, Tokens, EscapesValid;
    var schema := At(document, at).value.fields;
    if next in Parts(at, schema) {
      PartExists(document, at, schema, next);
    }
  }

  // ----- the checks at one location -----

  predicate ReferencesAreLocal(schema: Schema) {
    forall keyword | keyword in REFERENCE_KEYWORDS && keyword in schema ::
      IsFragment(schema[keyword])
  }

  predicate NamesNothingReserved(names: seq<Value>) {
    forall i | 0 <= i < |names| :: names[i].Str? ==> !IsReserved(names[i].text)
  }

  predicate ReservedNamesAbsent(engines: Engines, schema: Schema) {
    && (forall name | name in Members(schema, "properties") :: !IsReserved(name))
    && (forall name | name in Members(schema, "dependentSchemas") :: !IsReserved(name))
    && NamesNothingReserved(Elements(schema, "required"))
    && (forall name | name in Members(schema, "dependentRequired") ::
          !IsReserved(name) && NamesNothingReserved(Elements(Members(schema, "dependentRequired"), name)))
    && (forall pattern | pattern in Members(schema, "patternProperties") ::
          engines.compiles(pattern) &&
          forall i | 0 <= i < |RESERVED_AUTHORITY_FIELDS| :: !engines.matches(pattern, RESERVED_AUTHORITY_FIELDS[i]))
  }

  predicate LiteralsClean(schema: Schema) {
    && ("const" in schema ==> !ContainsReserved(schema["const"]))
    && (forall i | 0 <= i < |Elements(schema, "enum")| :: !ContainsReserved(Elements(schema, "enum")[i]))
  }

  /** `schemaTypeCapabilities` */
  datatype Types = Types(allowsObject: bool, allowsArray: bool, isExplicit: bool, valid: bool)

  function TypeCapabilities(schema: Schema): Types {
    if "type" !in schema || schema["type"].Null? then Types(false, false, false, true)
    else match schema["type"]
      case Str(name) => Types(name == "object", name == "array", true, name in TYPE_NAMES)
      case Arr(names) =>
        if forall i | 0 <= i < |names| :: names[i].Str? && names[i].text in TYPE_NAMES
        then Types(Str("object") in names, Str("array") in names, true, true)
        else Types(false, false, true, false)
      case _ => Types(false, false, true, false)
  }

  predicate DelegatesValueShape(schema: Schema) {
    "$ref" in schema || "$dynamicRef" in schema || "allOf" in schema || "anyOf" in schema || "oneOf" in schema
  }

  predicate HasFiniteValues(schema: Schema) {
    "const" in schema || "enum" in schema
  }

  /** `propertyNames` is exactly a refusal of a list that covers every reserved name. */
  predicate PropertyNamesExcludeReserved(schema: Schema) {
    var refused := Members(Members(schema, "propertyNames"), "not");
    && refused.Keys == {"enum"}
    && refused["enum"].Arr?
    && (forall i | 0 <= i < |refused["enum"].items| :: refused["enum"].items[i].Str?)
    && (forall i | 0 <= i < |RESERVED_AUTHORITY_FIELDS| :: Str(RESERVED_AUTHORITY_FIELDS[i]) in refused["enum"].items)
  }

  predicate ObjectShapeSafe(schema: Schema) {
    "additionalProperties" in schema &&
    (if schema["additionalProperties"].Obj? then PropertyNamesExcludeReserved(schema)
     else schema["additionalProperties"] == Bool(false))
  }

  predicate ArrayShapeSafe(schema: Schema) {
    "items" in schema && schema["items"] != Bool(true)
  }

  /** `requireStaticallySafeValueShape` */
  predicate ValueShapeSafe(schema: Schema) {
    var types := TypeCapabilities(schema);
    types.valid ==>
      if types.isExplicit then
        (types.allowsObject ==> ObjectShapeSafe(schema)) && (types.allowsArray ==> ArrayShapeSafe(schema))
      else
        DelegatesValueShape(schema) || HasFiniteValues(schema)
  }

  /** The own checks of `auditSchema` and `auditSchemaObject`, without the descent. */
  predicate LocallySafe(engines: Engines, value: Value) {
    match value
    case Bool(accepts) => !accepts
    case Obj(schema) =>
      && ("$schema" in schema ==> schema["$schema"] == Str(DRAFT_2020_12))
      && "$id" !in schema
      && ReferencesAreLocal(schema)
      && ReservedNamesAbsent(engines, schema)
      && LiteralsClean(schema)
      && ValueShapeSafe(schema)
    case _ => true
  }

  /** `requireClosedRootObject` */
  predicate ClosedRootObject(document: Value) {
    && document.Obj?
    && "type" in document.fields && document.fields["type"] == Str("object")
    && "additionalProperties" in document.fields && document.fields["additionalProperties"] == Bool(false)
  }
}
