/** Where soundness ends: it asks that references resolve in the auditor's own index. The traversal does not enter
    `propertyNames`, so an anchor declared there is not indexed, and a reference to it leads the audit
    nowhere although the compiled reference leads to a schema. */
module SchemaBoundary {
  import opened Optional
  import opened Json
  import opened JsonPointer
  import opened SchemaRules
  import opened SchemaValidator
  import opened SchemaSoundness
  import opened SchemaAuditor

  /** Apart from references the schema asserts nothing. */
  ghost predicate AssertsNothing(schema: Schema) {
    && schema.Keys <= SPELLED_OUT
    && "type" !in schema && "const" !in schema && "enum" !in schema
    && "allOf" !in schema && "anyOf" !in schema && "oneOf" !in schema && "not" !in schema
    && "properties" !in schema && "patternProperties" !in schema && "additionalProperties" !in schema
    && "propertyNames" !in schema && "prefixItems" !in schema && "items" !in schema
    && "dependentSchemas" !in schema && "required" !in schema && "dependentRequired" !in schema
  }

  lemma OnlyReferences(c: Compiled, at: Location, schema: Schema, value: Value, scope: Scope)
    requires AssertsNothing(schema)
    ensures Conjuncts(c, at, schema, value, scope) == References(c, at, schema, value, scope)
  {
    hide References;
    assert Branches(at, schema, "allOf", value, scope) == {};
    if value.Obj? {
      assert Fields(c, at, schema, value.fields, scope) == {};
    } else if value.Arr? {
      assert Items(at, schema, value.items, scope) == {};
    }
  }

  /** Such a schema accepts whatever its references accept. */
  lemma AcceptsWithReferences(judge: Judge, c: Compiled, at: Location, schema: Schema, value: Value, scope: Scope)
    requires AssertsNothing(schema)
    requires forall duty | duty in References(c, at, schema, value, scope) :: judge(duty) == Accept
    ensures JudgeSchema(judge, c, at, schema, value, scope) == Accept
  {
    hide Conjuncts, References;
    OnlyReferences(c, at, schema, value, scope);
  }

  lemma LooksSafe(engines: Engines, schema: Schema)
    requires AssertsNothing(schema) && "$ref" in schema && ReferencesAreLocal(schema)
    requires "$schema" !in schema && "$id" !in schema
    ensures LocallySafe(engines, Obj(schema))
  {
    hide ReferencesAreLocal;
  }

  /** A bare reference whose target is not in the index passes the audit on its own, and accepts every
      value, reserved fields included, when the compiled target asserts nothing. */
  lemma UnindexedTargetIsUnaudited(c: Compiled, anchors: Anchors, at: Location, schema: Schema, target: Schema,
      scope: Scope)
    requires At(c.document, at) == Some(Obj(schema)) && AssertsNothing(schema) && Subschemas(schema) == {}
    requires "$ref" in schema && "$dynamicRef" !in schema && ReferencesAreLocal(schema)
    requires "$schema" !in schema && "$id" !in schema
    requires TargetsUnder(c.engines, c.document, anchors, schema, "$ref") == {}
    requires At(c.document, c.link(at, "$ref", scope.Enter(at))) == Some(Obj(target)) && AssertsNothing(target)
    requires c.refusesCycles ==> at !in scope.trail && c.link(at, "$ref", scope.Enter(at)) !in scope.Enter(at).trail
    requires "$ref" !in target && "$dynamicRef" !in target
    ensures AuditClosed(c.engines, c.document, anchors, {at})
    ensures forall value :: Evaluate(2, c, Duty(at, value, scope)) == Accept
  {
    hide LocallySafe, JudgeSchema, AssertsNothing, Subschemas, ReferenceTargets;
    LooksSafe(c.engines, schema);
    forall value
      ensures Evaluate(2, c, Duty(at, value, scope)) == Accept
    {
      var inner := scope.Enter(at);
      var next := Duty(c.link(at, "$ref", inner), value, inner);
      AcceptsWithReferences(Judging(0, c), c, next.at, target, value, Inside(next));
      assert Evaluate(1, c, next) == Accept;
      assert References(c, at, schema, value, inner) == {next};
      AcceptsWithReferences(Judging(1, c), c, at, schema, value, inner);
    }
  }

  // ----- exactly when references resolve in the index -----

  ghost predicate NamesAnchor(engines: Engines, reference: string)
    requires reference != ""
  {
    var fragment := engines.pathUnescape(reference[1..]);
    fragment.Some? && fragment.value != "" && fragment.value[0] != '/'
  }

  /** Where sections 8.2.2 and 8.2.3 of JSON Schema Core lead a reference: the document, a pointer's target, or a
      schema that carries the anchor, wherever that schema is. */
  ghost predicate Designates(c: Compiled, reference: string, target: Location)
    requires reference != ""
  {
    match c.engines.pathUnescape(reference[1..])
    case None => false
    case Some(fragment) =>
      if fragment == "" then target == []
      else if fragment[0] == '/' then EscapesValid(fragment) && At(c.document, target).Some? &&
        target == Tokens(fragment)
      else Carries(c.document, target, fragment)
  }

  /** A designated target is one the auditor resolves to, unless it is an anchor the index did not reach. */
  lemma ResolvedIffIndexed(c: Compiled, anchors: Anchors, indexed: set<Location>, reference: string, target: Location)
    requires reference != "" && AnchorsExact(c.document, anchors, indexed) && Designates(c, reference, target)
    ensures target in ReferenceTargets(c.engines, c.document, anchors, reference) <==>
            (NamesAnchor(c.engines, reference) ==> target in indexed)
  {
    hide Tokens, EscapesValid, Carries, AnchorTargets, At;
  }

  /** Every reference leads where it should, and every anchor it names is indexed. */
  ghost predicate LinkedWithin(c: Compiled, indexed: set<Location>, at: Location, schema: Schema) {
    forall keyword, scope: Scope | keyword in REFERENCE_KEYWORDS && keyword in schema && IsFragment(schema[keyword]) ::
      && Designates(c, schema[keyword].text, c.link(at, keyword, scope))
      && (NamesAnchor(c.engines, schema[keyword].text) ==> c.link(at, keyword, scope) in indexed)
  }

  /** So a document is safe if it passes the audit and every anchor it refers to lies where the index goes. */
  lemma IndexedAnchorsSuffice(c: Compiled, anchors: Anchors, indexed: set<Location>, visited: set<Location>)
    requires AuditClosed(c.engines, c.document, anchors, visited) && [] in visited &&
             AnchorsExact(c.document, anchors, indexed)
    requires forall at | at in visited && At(c.document, at).Some? :: WellFormed(At(c.document, at).value)
    requires forall at | at in visited && At(c.document, at).Some? && At(c.document, at).value.Obj? ::
               LinkedWithin(c, indexed, at, At(c.document, at).value.fields)
    ensures forall value | Accepts(c, value) :: !ContainsReserved(value)
  {
    hide AuditClosed, WellFormed, Accepts, Designates, NamesAnchor, AnchorsExact, ReferenceTargets, At;
    forall at | at in visited && At(c.document, at).Some? && At(c.document, at).value.Obj?
      ensures LinksResolve(c, anchors, at, At(c.document, at).value.fields)
    {
      var schema := At(c.document, at).value.fields;
      forall keyword, scope: Scope | keyword in REFERENCE_KEYWORDS && keyword in schema && IsFragment(schema[keyword])
        ensures c.link(at, keyword, scope) in ReferenceTargets(c.engines, c.document, anchors, schema[keyword].text)
      {
        ResolvedIffIndexed(c, anchors, indexed, schema[keyword].text, c.link(at, keyword, scope));
      }
    }
    AuditImpliesRuntimeCheck(c, anchors, visited);
  }

  lemma {:induction false} OneStepFurther(next: Graph, steps: nat, from: Location, middle: Location, to: Location)
    requires ReachesIn(next, steps, from, middle) && to in next(middle)
    ensures Reaches(next, from, to)
  {
    if steps == 0 {
      ReachesSelf(next, to);
      ReachesThrough(next, from, to, to);
    } else {
      var second :| second in next(from) && ReachesIn(next, steps - 1, second, middle);
      OneStepFurther(next, steps - 1, second, middle, to);
      ReachesThrough(next, from, second, to);
    }
  }

  /** Anchors add nothing new: they lead where the index has been. */
  lemma AuditAddsIndexed(engines: Engines, document: Value, anchors: Anchors, indexed: set<Location>, at: Location)
    requires AnchorsExact(document, anchors, indexed)
    ensures Successors(engines, document, map[], at) <= Successors(engines, document, anchors, at)
    ensures Successors(engines, document, anchors, at) <= Successors(engines, document, map[], at) + indexed
  {
    hide Parts, Carries, PointerTarget, At;
  }

  /** A passing audit visits exactly what was indexed before. */
  lemma VisitedIsIndexed(engines: Engines, document: Value, anchors: Anchors, indexed: set<Location>,
      visited: set<Location>)
    requires AnchorsExact(document, anchors, indexed)
    requires forall at :: at in indexed <==> Reaches(IndexGraph(engines, document), [], at)
    requires forall at :: at in visited <==> Reaches(AuditGraph(engines, document, anchors), [], at)
    ensures visited == indexed
  {
    hide Successors, AnchorsExact, ReachesIn;
    var index, audit := IndexGraph(engines, document), AuditGraph(engines, document, anchors);
    ReachesSelf(index, []);
    ReachesSelf(audit, []);
    forall at | at in indexed
      ensures index(at) <= indexed && audit(at) <= indexed
    {
      Followed(index, indexed, at);
      AuditAddsIndexed(engines, document, anchors, indexed, at);
    }
    forall at | at in visited
      ensures index(at) <= visited
    {
      Followed(audit, visited, at);
      AuditAddsIndexed(engines, document, anchors, indexed, at);
    }
    forall at | at in visited
      ensures at in indexed
    {
      ReachedInside(audit, indexed, at);
    }
    forall at | at in indexed
      ensures at in visited
    {
      ReachedInside(index, visited, at);
    }
  }

  lemma Followed(next: Graph, reached: set<Location>, at: Location)
    requires at in reached && forall other :: other in reached <==> Reaches(next, [], other)
    ensures next(at) <= reached
  {
    forall to | to in next(at)
      ensures to in reached
    {
      var steps: nat :| ReachesIn(next, steps, [], at);
      OneStepFurther(next, steps, [], at, to);
    }
  }

  lemma ReachedInside(next: Graph, closed: set<Location>, to: Location)
    requires [] in closed && (forall at | at in closed :: next(at) <= closed) && Reaches(next, [], to)
    ensures to in closed
  {
    var steps: nat :| ReachesIn(next, steps, [], to);
    ClosedUnderReach(next, closed, steps, [], to);
  }

  /** So a reference of an audited schema leads to an audited location exactly if it names no anchor, or an indexed
      one. */
  lemma LeadsInsideExactly(c: Compiled, anchors: Anchors, visited: set<Location>, at: Location, schema: Schema)
    requires AnchorsExact(c.document, anchors, visited) && AuditClosed(c.engines, c.document, anchors, visited)
    requires at in visited && At(c.document, at) == Some(Obj(schema))
    requires forall keyword, scope: Scope | keyword in REFERENCE_KEYWORDS && keyword in schema &&
             IsFragment(schema[keyword]) ::
               Designates(c, schema[keyword].text, c.link(at, keyword, scope))
    ensures LinkedWithin(c, visited, at, schema) <==>
            forall keyword, scope: Scope | keyword in REFERENCE_KEYWORDS && keyword in schema &&
              IsFragment(schema[keyword]) ::
              c.link(at, keyword, scope) in visited
  {
    hide Designates, NamesAnchor, AnchorsExact, At;
    assert Successors(c.engines, c.document, anchors, at) <= visited;
    forall keyword, scope: Scope | keyword in REFERENCE_KEYWORDS && keyword in schema && IsFragment(schema[keyword])
      ensures (NamesAnchor(c.engines, schema[keyword].text) ==> c.link(at, keyword, scope) in visited) <==>
              c.link(at, keyword, scope) in visited
    {
      var target := c.link(at, keyword, scope);
      ResolvedIffIndexed(c, anchors, visited, schema[keyword].text, target);
      ResolvedIsSuccessor(c, anchors, at, schema, keyword, target);
    }
  }

  lemma ResolvedIsSuccessor(c: Compiled, anchors: Anchors, at: Location, schema: Schema, keyword: string,
      target: Location)
    requires At(c.document, at) == Some(Obj(schema)) && keyword in REFERENCE_KEYWORDS && keyword in schema &&
             IsFragment(schema[keyword])
    ensures target in ReferenceTargets(c.engines, c.document, anchors, schema[keyword].text) ==>
              target in Successors(c.engines, c.document, anchors, at)
  {
    hide ReferenceTargets, Parts, At;
  }

  // ----- one such document -----

  const BARE: Schema := map["$ref" := Str("#names")]

  const NAMES: Schema := map["$anchor" := Str("names")]

  const ROOT: Schema := map[
    "type" := Str("object"), "additionalProperties" := Bool(false),
    "properties" := Obj(map["x" := Obj(BARE)]), "propertyNames" := Obj(NAMES)
  ]

  const AT_X: Location := ["properties", "x"]

  const AUDITED: set<Location> := {[], AT_X, ["additionalProperties"]}

  lemma RootMembers(keyword: string)
    requires keyword in MAP_KEYWORDS
    ensures Members(ROOT, keyword) == if keyword == "properties" then map["x" := Obj(BARE)] else map[]
  {
  }

  lemma RootSingles(keyword: string)
    requires keyword in SINGLE_KEYWORDS && keyword in ROOT
    ensures keyword == "additionalProperties"
  {
  }

  lemma RootElements(keyword: string)
    requires keyword in ARRAY_KEYWORDS
    ensures Elements(ROOT, keyword) == []
  {
  }

  lemma RootDependencies()
    ensures Members(ROOT, "dependencies") == map[]
  {
  }

  lemma RootParts()
    ensures Parts([], ROOT) <= AUDITED
  {
    hide Subschemas, ROOT;
    forall at | at in Parts([], ROOT)
      ensures at in AUDITED
    {
      var part :| part in Subschemas(ROOT) && at == [] + part;
      RootPart(part);
      assert at == part;
    }
  }

  lemma BareParts()
    ensures Subschemas(BARE) == {}
  {
    hide MAP_KEYWORDS, SINGLE_KEYWORDS, ARRAY_KEYWORDS;
    assert "$ref" !in MAP_KEYWORDS + SINGLE_KEYWORDS + ARRAY_KEYWORDS + {"dependencies"} by {
      ReferenceIsNoPart();
    }
    assert forall keyword | keyword in BARE :: keyword == "$ref";
  }

  lemma ReferenceIsNoPart()
    ensures "$ref" !in MAP_KEYWORDS + SINGLE_KEYWORDS + ARRAY_KEYWORDS + {"dependencies"}
  {
    var all := MAP_KEYWORDS + SINGLE_KEYWORDS + ARRAY_KEYWORDS + {"dependencies"};
    assert forall keyword | keyword in all :: keyword[0] != '$' || keyword == "$defs";
  }

  lemma RootPart(part: Location)
    requires part in Subschemas(ROOT)
    ensures part in {AT_X, ["additionalProperties"]}
  {
    hide Members, Elements, ROOT, BARE, MAP_KEYWORDS, SINGLE_KEYWORDS, ARRAY_KEYWORDS;
    if keyword, name :| keyword in MAP_KEYWORDS && name in Members(ROOT, keyword) && part == [keyword, name] {
      RootMembers(keyword);
    } else if keyword :| keyword in SINGLE_KEYWORDS && keyword in ROOT && part == [keyword] {
      RootSingles(keyword);
    } else if keyword, i :|
        keyword in ARRAY_KEYWORDS && 0 <= i < |Elements(ROOT, keyword)| && part == [keyword, Decimal(i)] {
      RootElements(keyword);
    } else {
      RootDependencies();
    }
  }

  lemma RootLocations()
    ensures At(Obj(ROOT), []) == Some(Obj(ROOT)) && At(Obj(ROOT), AT_X) == Some(Obj(BARE))
    ensures At(Obj(ROOT), ["additionalProperties"]) == Some(Bool(false)) &&
            At(Obj(ROOT), ["propertyNames"]) == Some(Obj(NAMES))
  {
    MemberAt(ROOT, "properties", "x");
    AtOne(Obj(ROOT), "additionalProperties");
    AtOne(Obj(ROOT), "propertyNames");
  }

  lemma RootNames(engines: Engines)
    ensures ReservedNamesAbsent(engines, ROOT)
  {
    RootMembers("properties");
    RootMembers("dependentSchemas");
    RootMembers("patternProperties");
    RootOthers();
    hide ROOT, Members, Elements;
    assert !IsReserved("x");
  }

  lemma RootOthers()
    ensures Elements(ROOT, "required") == [] && Members(ROOT, "dependentRequired") == map[]
    ensures Elements(ROOT, "enum") == [] && "const" !in ROOT && "$schema" !in ROOT && "$id" !in ROOT
    ensures "$ref" !in ROOT && "$dynamicRef" !in ROOT
  {
  }

  lemma RootShape()
    ensures ValueShapeSafe(ROOT) && ClosedRootObject(Obj(ROOT))
  {
  }

  lemma RootLooksSafe(engines: Engines)
    ensures LocallySafe(engines, Obj(ROOT)) && LocallySafe(engines, Obj(BARE)) && ClosedRootObject(Obj(ROOT))
  {
    LooksSafe(engines, BARE);
    RootNames(engines);
    RootOthers();
    RootShape();
    hide ROOT, ReservedNamesAbsent, ValueShapeSafe, ClosedRootObject, Elements, Members;
  }

  lemma NoTargets(engines: Engines, anchors: Anchors, schema: Schema, keyword: string)
    requires keyword !in schema
    ensures TargetsUnder(engines, Obj(ROOT), anchors, schema, keyword) == {}
  {
  }

  lemma BareTargets(engines: Engines, anchors: Anchors)
    requires engines.pathUnescape("names") == Some("names") && AnchorTargets(anchors, "names") == {}
    ensures TargetsUnder(engines, Obj(ROOT), anchors, BARE, "$ref") == {} &&
            TargetsUnder(engines, Obj(ROOT), anchors, BARE, "$dynamicRef") == {}
  {
    hide ROOT, AnchorTargets;
    assert "#names"[1..] == "names";
  }

  lemma RootSuccessors(engines: Engines, anchors: Anchors)
    ensures Successors(engines, Obj(ROOT), anchors, []) <= AUDITED
  {
    RootLocations();
    RootParts();
    RootOthers();
    NoTargets(engines, anchors, ROOT, "$ref");
    NoTargets(engines, anchors, ROOT, "$dynamicRef");
    hide ROOT, BARE, Parts, TargetsUnder, At, AUDITED;
  }

  lemma BareSuccessors(engines: Engines, anchors: Anchors)
    requires engines.pathUnescape("names") == Some("names") && AnchorTargets(anchors, "names") == {}
    ensures Successors(engines, Obj(ROOT), anchors, AT_X) == {}
  {
    RootLocations();
    BareParts();
    BareTargets(engines, anchors);
    hide ROOT, BARE, Subschemas, TargetsUnder, At, AT_X;
    assert Parts(AT_X, BARE) == {};
  }

  lemma NoSuccessors(engines: Engines, anchors: Anchors, at: Location)
    requires At(Obj(ROOT), at) == Some(Bool(false))
    ensures Successors(engines, Obj(ROOT), anchors, at) == {} && LocallySafe(engines, Bool(false))
  {
    hide ROOT, At;
  }

  lemma ThreeClosed(engines: Engines, document: Value, anchors: Anchors, a: Location, b: Location, c: Location)
    requires forall at | at == a || at == b || at == c ::
               At(document, at).Some? && LocallySafe(engines, At(document, at).value) &&
                 Successors(engines, document, anchors, at) <= {a, b, c}
    ensures AuditClosed(engines, document, anchors, {a, b, c})
  {
    hide At, LocallySafe, Successors;
  }

  /** Without the anchor the audited locations are closed and safe. */
  lemma AuditFindsNothing(engines: Engines, anchors: Anchors)
    requires engines.pathUnescape("names") == Some("names") && AnchorTargets(anchors, "names") == {}
    ensures AuditClosed(engines, Obj(ROOT), anchors, AUDITED) && ClosedRootObject(Obj(ROOT))
  {
    RootLocations();
    RootLooksSafe(engines);
    RootSuccessors(engines, anchors);
    BareSuccessors(engines, anchors);
    NoSuccessors(engines, anchors, ["additionalProperties"]);
    hide At, LocallySafe, Successors, ROOT, BARE, ClosedRootObject, AuditClosed;
    ThreeClosed(engines, Obj(ROOT), anchors, [], AT_X, ["additionalProperties"]);
  }

  lemma ReachesOnlyAudited(engines: Engines, anchors: Anchors, at: Location)
    requires engines.pathUnescape("names") == Some("names") && AnchorTargets(anchors, "names") == {}
    requires Reaches(AuditGraph(engines, Obj(ROOT), anchors), [], at)
    ensures at in AUDITED
  {
    hide ROOT, At, LocallySafe, Successors;
    AuditFindsNothing(engines, anchors);
    var graph := AuditGraph(engines, Obj(ROOT), anchors);
    var steps: nat :| ReachesIn(graph, steps, [], at);
    ClosedUnderReach(graph, AUDITED, steps, [], at);
  }

  lemma NoAnchorAudited(at: Location, name: string)
    requires at in AUDITED
    ensures !Carries(Obj(ROOT), at, name)
  {
    hide At;
    RootLocations();
    assert "$anchor" !in ROOT && "$dynamicAnchor" !in ROOT && "$anchor" !in BARE && "$dynamicAnchor" !in BARE;
  }

  /** The auditor passes this document: the only anchor lies under `propertyNames`, where the index never goes. */
  method AuditPasses(engines: Engines) returns (ok: bool)
    requires engines.pathUnescape("names") == Some("names")
    ensures ok
  {
    hide ROOT, Locations, At, LocallySafe, Successors, ReachesIn, Carries;
    var auditor := new SchemaAuditor(engines, Obj(ROOT));
    ok := auditor.AuditDocument();
    forall at | at in AnchorTargets(auditor.anchors, "names")
      ensures false
    {
      assert Reaches(IndexGraph(engines, Obj(ROOT)), [], at);
      assert IndexGraph(engines, Obj(ROOT)) == AuditGraph(engines, Obj(ROOT), map[]);
      ReachesOnlyAudited(engines, map[], at);
      NoAnchorAudited(at, "names");
    }
    assert AnchorTargets(auditor.anchors, "names") == {};
    AuditFindsNothing(engines, auditor.anchors);
    forall at | Reaches(AuditGraph(engines, Obj(ROOT), auditor.anchors), [], at)
      ensures SafeAt(engines, Obj(ROOT), at)
    {
      ReachesOnlyAudited(engines, auditor.anchors, at);
    }
  }

  /** And yet it accepts a document with a reserved field, once the reference is linked to that anchor. */
  lemma AcceptsReservedField(c: Compiled, value: Value)
    requires c.document == Obj(ROOT) && forall scope :: c.link(AT_X, "$ref", scope) == ["propertyNames"]
    requires value == Obj(map["x" := Obj(map["tenant_id" := Null])])
    ensures Accepts(c, value) && ContainsReserved(value)
  {
    CarriesTenant(value);
    RootLocations();
    var scope := OUTERMOST.Enter([]);
    AcceptsInner(c, value.fields["x"], "x", scope.Below());
    RootAccepts(Judging(2, c), c, value, scope);
    hide ROOT, JudgeSchema, ContainsReserved;
    assert Evaluate(3, c, Duty([], value, OUTERMOST)) == Accept;
  }

  lemma CarriesTenant(value: Value)
    requires value == Obj(map["x" := Obj(map["tenant_id" := Null])])
    ensures ContainsReserved(value)
  {
    assert IsReserved(RESERVED_AUTHORITY_FIELDS[0]);
    assert ContainsReserved(value.fields["x"]);
  }

  lemma LittleAsserted()
    ensures AssertsNothing(BARE) && AssertsNothing(NAMES)
    ensures BARE.Keys * REFERENCE_KEYWORDS == {"$ref"} && NAMES.Keys * REFERENCE_KEYWORDS == {}
  {
  }

  lemma AcceptsInner(c: Compiled, value: Value, name: string, scope: Scope)
    requires c.document == Obj(ROOT) && c.link(AT_X, "$ref", scope.Enter(AT_X)) == ["propertyNames"] &&
             scope.trail == {}
    ensures Evaluate(2, c, Duty(AT_X, value, scope)) == Accept &&
            Evaluate(2, c, Duty(["propertyNames"], Str(name), scope)) == Accept
  {
    RootLocations();
    LittleAsserted();
    hide JudgeSchema, ROOT, BARE, NAMES, At, AT_X, AssertsNothing, REFERENCE_KEYWORDS;
    assert forall keyword | keyword in NAMES :: keyword !in REFERENCE_KEYWORDS by {
      assert forall keyword | keyword in NAMES && keyword in REFERENCE_KEYWORDS ::
        keyword in NAMES.Keys * REFERENCE_KEYWORDS;
    }
    var inner := scope.Enter(AT_X);
    var next := Duty(["propertyNames"], value, inner);
    AcceptsWithReferences(Judging(0, c), c, ["propertyNames"], NAMES, value, Inside(next));
    AcceptsWithReferences(Judging(1, c), c, ["propertyNames"], NAMES, Str(name), scope.Enter(["propertyNames"]));
    assert Evaluate(1, c, next) == Accept;
    forall duty | duty in References(c, AT_X, BARE, value, inner)
      ensures duty == next
    {
      var keyword :| keyword in REFERENCE_KEYWORDS && keyword in BARE &&
        duty == Duty(c.link(AT_X, keyword, inner), value, inner);
      assert keyword in BARE.Keys * REFERENCE_KEYWORDS;
    }
    AcceptsWithReferences(Judging(1, c), c, AT_X, BARE, value, inner);
  }

  lemma RootAsserts(c: Compiled, value: Value)
    requires value.Obj?
    ensures AssertionsHold(c, [], ROOT, value)
    ensures "anyOf" !in ROOT && "oneOf" !in ROOT && "not" !in ROOT && Elements(ROOT, "allOf") == []
  {
  }

  lemma RootFields(c: Compiled, fields: map<string, Value>, duty: Duty, scope: Scope)
    requires fields.Keys == {"x"} && duty in Fields(c, [], ROOT, fields, scope)
    ensures duty == Duty(AT_X, fields["x"], scope.Below()) || duty == Duty(["propertyNames"], Str("x"), scope.Below())
  {
    RootMembers("properties");
    RootMembers("patternProperties");
    hide ROOT, Members;
    assert [] + AT_X == AT_X && [] + ["propertyNames"] == ["propertyNames"];
  }

  lemma RootAccepts(judge: Judge, c: Compiled, value: Value, scope: Scope)
    requires value.Obj? && value.fields.Keys == {"x"}
    requires judge(Duty(AT_X, value.fields["x"], scope.Below())) == Accept &&
             judge(Duty(["propertyNames"], Str("x"), scope.Below())) == Accept
    ensures JudgeSchema(judge, c, [], ROOT, value, scope) == Accept
  {
    RootAsserts(c, value);
    RootOthers();
    hide ROOT, AssertionsHold, Fields, Elements;
    assert References(c, [], ROOT, value, scope) == {} && Branches([], ROOT, "allOf", value, scope) == {};
    forall duty | duty in Conjuncts(c, [], ROOT, value, scope)
      ensures judge(duty) == Accept
    {
      RootFields(c, value.fields, duty, scope);
    }
  }
}
