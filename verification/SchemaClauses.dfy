/** The auditor's checks and traversal in the reader's terms: for each reserved name, where a schema may not mention it;
    which shapes are closed; and which parts of a schema are schemas. */
module SchemaClauses {
  import opened Optional
  import opened Json
  import opened JsonPointer
  import opened SchemaRules

  // ----- the runtime check -----

  lemma ReservedExactly(name: string)
    ensures IsReserved(name) <==>
            name in {"tenant_id", "user_id", "roles", "permission", "call_id", "agent_id", "agent_version",
              "agent_run_id",
                     "business_task_id", "trace_id", "idempotency_key", "tool_id", "tool_version"}
  {
  }

  /** Somewhere in the document there is an object with a reserved member. */
  ghost predicate HasReservedMember(document: Value) {
    exists at, name :: ReservedAt(document, at, name)
  }

  ghost predicate ReservedAt(document: Value, at: Location, name: string) {
    match At(document, at)
    case Some(Obj(fields)) => name in fields && IsReserved(name)
    case _ => false
  }

  lemma ReservedBelow(document: Value, token: Token, child: Value, at: Location, name: string)
    requires Child(document, token) == Some(child)
    ensures ReservedAt(child, at, name) <==> ReservedAt(document, [token] + at, name)
  {
    assert ([token] + at)[1..] == at;
  }

  /** The runtime check finds a reserved name exactly if there is one, at whatever depth. */
  lemma {:induction false} ContainsReservedExactly(document: Value)
    ensures ContainsReserved(document) <==> HasReservedMember(document)
  {
    if ContainsReserved(document) {
      ReservedIsFound(document);
    }
    if HasReservedMember(document) {
      var at, name :| ReservedAt(document, at, name);
      FoundIsReserved(document, at, name);
    }
  }

  lemma {:induction false} ReservedIsFound(document: Value)
    requires ContainsReserved(document)
    ensures HasReservedMember(document)
  {
    match document
    case Obj(fields) =>
      var name :| name in fields && (IsReserved(name) || ContainsReserved(fields[name]));
      if IsReserved(name) {
        assert ReservedAt(document, [], name);
      } else {
        ReservedIsFound(fields[name]);
        var at, deeper :| ReservedAt(fields[name], at, deeper);
        ReservedBelow(document, name, fields[name], at, deeper);
      }
    case Arr(items) =>
      var i :| 0 <= i < |items| && ContainsReserved(items[i]);
      ReservedIsFound(items[i]);
      var at, deeper :| ReservedAt(items[i], at, deeper);
      DecimalRoundTrip(i);
      ReservedBelow(document, Decimal(i), items[i], at, deeper);
  }

  lemma {:induction false} FoundIsReserved(document: Value, at: Location, name: string)
    requires ReservedAt(document, at, name)
    ensures ContainsReserved(document)
    decreases |at|
  {
    if at != [] {
      var child := Child(document, at[0]).value;
      assert [at[0]] + at[1..] == at;
      ReservedBelow(document, at[0], child, at[1..], name);
      FoundIsReserved(child, at[1..], name);
    }
  }

  // ----- the names a schema mentions -----

  ghost predicate IsMember(schema: Schema, keyword: string, name: string) {
    keyword in schema && schema[keyword].Obj? && name in schema[keyword].fields
  }

  ghost predicate Lists(list: Value, name: string) {
    list.Arr? && Str(name) in list.items
  }

  /** The schema speaks of members of this name: it describes, requires or matches them. */
  ghost predicate Mentions(engines: Engines, schema: Schema, name: string) {
    || IsMember(schema, "properties", name)
    || IsMember(schema, "dependentSchemas", name)
    || IsMember(schema, "dependentRequired", name)
    || ("required" in schema && Lists(schema["required"], name))
    || (exists other ::
          IsMember(schema, "dependentRequired", other) && Lists(schema["dependentRequired"].fields[other], name))
    || (exists pattern :: IsMember(schema, "patternProperties", pattern) && engines.matches(pattern, name))
  }

  ghost predicate PatternsCompile(engines: Engines, schema: Schema) {
    forall pattern | IsMember(schema, "patternProperties", pattern) :: engines.compiles(pattern)
  }

  lemma ListExactly(names: seq<Value>)
    ensures NamesNothingReserved(names) <==> forall name | IsReserved(name) :: Str(name) !in names
  {
    hide IsReserved;
    if forall name | IsReserved(name) :: Str(name) !in names {
      forall i | 0 <= i < |names| && names[i].Str?
        ensures !IsReserved(names[i].text)
      {
        assert names[i] == Str(names[i].text);
      }
    }
  }

  lemma PatternsExactly(engines: Engines, schema: Schema)
    ensures (forall pattern | pattern in Members(schema, "patternProperties") ::
               engines.compiles(pattern) &&
               forall i | 0 <= i < |RESERVED_AUTHORITY_FIELDS| ::
                 !engines.matches(pattern, RESERVED_AUTHORITY_FIELDS[i])) <==>
            PatternsCompile(engines, schema) &&
            forall pattern, name | IsMember(schema, "patternProperties", pattern) && IsReserved(name) ::
              !engines.matches(pattern, name)
  {
    hide RESERVED_AUTHORITY_FIELDS;
    assert forall pattern :: IsMember(schema, "patternProperties", pattern) <==>
      pattern in Members(schema, "patternProperties");
    hide Members, IsMember;
    assert forall i | 0 <= i < |RESERVED_AUTHORITY_FIELDS| :: IsReserved(RESERVED_AUTHORITY_FIELDS[i]);
    assert forall name | IsReserved(name) :: exists i | 0 <= i < |RESERVED_AUTHORITY_FIELDS| ::
      RESERVED_AUTHORITY_FIELDS[i] == name;
  }

  /** The check of names is this, for every reserved name. */
  lemma NamesExactly(engines: Engines, schema: Schema)
    ensures ReservedNamesAbsent(engines, schema) <==>
            PatternsCompile(engines, schema) && forall name | IsReserved(name) :: !Mentions(engines, schema, name)
  {
    PatternsExactly(engines, schema);
    ListExactly(Elements(schema, "required"));
    forall other | other in Members(schema, "dependentRequired")
      ensures NamesNothingReserved(Elements(Members(schema, "dependentRequired"), other)) <==>
              forall name | IsReserved(name) :: !Lists(Members(schema, "dependentRequired")[other], name)
    {
      ListExactly(Elements(Members(schema, "dependentRequired"), other));
    }
    hide IsReserved, NamesNothingReserved;
  }

  // ----- closed shapes -----

  /** The type keyword lets values of this type through. */
  ghost predicate Admits(schema: Schema, name: string) {
    "type" in schema && (schema["type"] == Str(name) || Lists(schema["type"], name))
  }

  ghost predicate IsTypeName(name: Value) {
    name.Str? && name.text in {"object", "array", "null", "boolean", "number", "integer", "string"}
  }

  ghost predicate Typed(schema: Schema) {
    "type" in schema && schema["type"] != Null
  }

  ghost predicate TypeIsKnown(schema: Schema)
    requires Typed(schema)
  {
    IsTypeName(schema["type"]) ||
    (schema["type"].Arr? && forall i | 0 <= i < |schema["type"].items| :: IsTypeName(schema["type"].items[i]))
  }

  /** Further members are refused, or their names are, the reserved ones among them. */
  ghost predicate ClosedObject(schema: Schema) {
    && "additionalProperties" in schema
    && (schema["additionalProperties"] == Bool(false) ||
        (schema["additionalProperties"].Obj? && exists refused: seq<Value> :: RefusesNames(schema, refused)))
  }

  ghost predicate RefusesNames(schema: Schema, refused: seq<Value>) {
    && "propertyNames" in schema && schema["propertyNames"].Obj? && "not" in schema["propertyNames"].fields
    && schema["propertyNames"].fields["not"] == Obj(map["enum" := Arr(refused)])
    && (forall i | 0 <= i < |refused| :: refused[i].Str?)
    && (forall name | IsReserved(name) :: Str(name) in refused)
  }

  ghost predicate ClosedArray(schema: Schema) {
    "items" in schema && schema["items"] != Bool(true)
  }

  /** Which values the schema lets through is decided here, or handed on to other schemas, or listed. An unknown type
      is left to the compile step. */
  ghost predicate ClosedShape(schema: Schema) {
    if !Typed(schema) then
      exists keyword | keyword in {"$ref", "$dynamicRef", "allOf", "anyOf", "oneOf", "const", "enum"} ::
        keyword in schema
    else
      TypeIsKnown(schema) ==>
        (Admits(schema, "object") ==> ClosedObject(schema)) && (Admits(schema, "array") ==> ClosedArray(schema))
  }

  lemma RefusedNamesExactly(schema: Schema)
    ensures PropertyNamesExcludeReserved(schema) <==> exists refused: seq<Value> :: RefusesNames(schema, refused)
  {
    hide IsReserved;
    if PropertyNamesExcludeReserved(schema) {
      var refused := Members(Members(schema, "propertyNames"), "not");
      assert refused == map["enum" := Arr(refused["enum"].items)];
      ReservedListed(refused["enum"].items);
      assert RefusesNames(schema, refused["enum"].items);
    }
    if refused: seq<Value> :| RefusesNames(schema, refused) {
      ReservedListed(refused);
    }
  }

  lemma ReservedListed(refused: seq<Value>)
    ensures (forall i | 0 <= i < |RESERVED_AUTHORITY_FIELDS| :: Str(RESERVED_AUTHORITY_FIELDS[i]) in refused) <==>
            (forall name | IsReserved(name) :: Str(name) in refused)
  {
    hide RESERVED_AUTHORITY_FIELDS;
    assert forall i | 0 <= i < |RESERVED_AUTHORITY_FIELDS| :: IsReserved(RESERVED_AUTHORITY_FIELDS[i]);
  }

  lemma TypesExactly(schema: Schema)
    ensures TypeCapabilities(schema).isExplicit <==> Typed(schema)
    ensures Typed(schema) ==> (TypeCapabilities(schema).valid <==> TypeIsKnown(schema))
    ensures !Typed(schema) ==> TypeCapabilities(schema).valid
    ensures Typed(schema) && TypeIsKnown(schema) ==>
              (TypeCapabilities(schema).allowsObject <==> Admits(schema, "object")) &&
              (TypeCapabilities(schema).allowsArray <==> Admits(schema, "array"))
  {
  }

  lemma ShapeExactly(schema: Schema)
    ensures ValueShapeSafe(schema) <==> ClosedShape(schema)
  {
    TypesExactly(schema);
    RefusedNamesExactly(schema);
    DelegationExactly(schema);
    hide TypeCapabilities, PropertyNamesExcludeReserved, RefusesNames, Typed, TypeIsKnown, Admits, DelegatesValueShape,
      HasFiniteValues;
  }

  lemma DelegationExactly(schema: Schema)
    ensures DelegatesValueShape(schema) || HasFiniteValues(schema) <==>
            exists keyword | keyword in {"$ref", "$dynamicRef", "allOf", "anyOf", "oneOf", "const", "enum"} ::
              keyword in schema
  {
  }

  // ----- one location -----

  ghost predicate LocalReference(schema: Schema, keyword: string) {
    keyword in schema ==> schema[keyword].Str? && schema[keyword].text != "" && schema[keyword].text[0] == '#'
  }

  ghost predicate ListsNoReserved(schema: Schema) {
    && ("const" in schema ==> !ContainsReserved(schema["const"]))
    && ("enum" in schema && schema["enum"].Arr? ==>
          forall i | 0 <= i < |schema["enum"].items| :: !ContainsReserved(schema["enum"].items[i]))
  }

  /** What the audit asks of one schema. */
  ghost predicate Harmless(engines: Engines, value: Value) {
    match value
    case Bool(accepts) => !accepts
    case Obj(schema) =>
      && "$id" !in schema
      && ("$schema" in schema ==> schema["$schema"] == Str("https://json-schema.org/draft/2020-12/schema"))
      && LocalReference(schema, "$ref") && LocalReference(schema, "$dynamicRef")
      && PatternsCompile(engines, schema) && (forall name | IsReserved(name) :: !Mentions(engines, schema, name))
      && ListsNoReserved(schema) && ClosedShape(schema)
    case _ => true
  }

  /** The local checks are exactly that. */
  lemma LocallySafeExactly(engines: Engines, value: Value)
    ensures LocallySafe(engines, value) <==> Harmless(engines, value)
  {
    if value.Obj? {
      NamesExactly(engines, value.fields);
      ShapeExactly(value.fields);
      ReferencesExactly(value.fields);
      LiteralsExactly(value.fields);
      hide ReservedNamesAbsent, ValueShapeSafe, ClosedShape, PatternsCompile, Mentions, IsReserved, ReferencesAreLocal,
        LocalReference, LiteralsClean, ListsNoReserved;
    }
  }

  lemma ReferencesExactly(schema: Schema)
    ensures ReferencesAreLocal(schema) <==> LocalReference(schema, "$ref") && LocalReference(schema, "$dynamicRef")
  {
    assert REFERENCE_KEYWORDS == {"$ref", "$dynamicRef"};
  }

  lemma LiteralsExactly(schema: Schema)
    ensures LiteralsClean(schema) <==> ListsNoReserved(schema)
  {
    if "enum" in schema && schema["enum"].Arr? {
      assert Elements(schema, "enum") == schema["enum"].items;
    } else {
      assert Elements(schema, "enum") == [];
    }
  }

  // ----- the traversal -----

  /** The places in a schema that hold schemas. */
  ghost predicate HoldsSchema(schema: Schema, part: Location) {
    || (|part| == 2 && part[0] in {"$defs", "definitions", "properties", "patternProperties", "dependentSchemas"} &&
        IsMember(schema, part[0], part[1]))
    || (|part| == 1 && part[0] in schema &&
        part[0] in {"additionalProperties", "unevaluatedProperties", "items", "contains", "not", "if", "then", "else",
                    "unevaluatedItems", "contentSchema"})
    || (|part| == 2 && part[0] in {"allOf", "anyOf", "oneOf", "prefixItems"} && part[0] in schema &&
        schema[part[0]].Arr? && exists i | 0 <= i < |schema[part[0]].items| :: part[1] == Decimal(i))
    || (|part| == 2 && part[0] == "dependencies" && IsMember(schema, "dependencies", part[1]) &&
        !schema["dependencies"].fields[part[1]].Arr?)
  }

  /** The traversal goes to all of them and nowhere else. */
  lemma SubschemasExactly(schema: Schema, part: Location)
    ensures part in Subschemas(schema) <==> HoldsSchema(schema, part)
  {
    if HoldsSchema(schema, part) {
      HeldIsVisited(schema, part);
    }
    if part in Subschemas(schema) {
      VisitedIsHeld(schema, part);
    }
  }

  lemma HeldIsVisited(schema: Schema, part: Location)
    requires HoldsSchema(schema, part)
    ensures part in Subschemas(schema)
  {
    if |part| == 1 {
      assert part == [part[0]];
    } else {
      assert part == [part[0], part[1]];
    }
  }

  lemma VisitedIsHeld(schema: Schema, part: Location)
    requires part in Subschemas(schema)
    ensures HoldsSchema(schema, part)
  {
    hide Decimal;
  }
}
