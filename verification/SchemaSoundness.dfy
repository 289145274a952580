/** Why an audited schema cannot accept a reserved authority field: the static audit implies the
    runtime check, also when references form cycles. */
module SchemaSoundness {
  import opened Optional
  import opened Json
  import opened JsonPointer
  import opened SchemaRules
  import opened SchemaValidator

  /** What a finished audit leaves behind: every visited location is safe on its own and leads only
      to visited locations. */
  ghost predicate AuditClosed(engines: Engines, document: Value, anchors: Anchors, visited: set<Location>) {
    forall at | at in visited ::
      && At(document, at).Some?
      && LocallySafe(engines, At(document, at).value)
      && Successors(engines, document, anchors, at) <= visited
  }

  /** The keyword shapes the Draft 2020-12 meta-schema enforces and the proof uses. */
  ghost predicate WellFormed(value: Value) {
    match value
    case Bool(_) => true
    case Obj(schema) =>
      && ("type" in schema ==> !schema["type"].Null? && TypeCapabilities(schema).valid)
      && ("enum" in schema ==> schema["enum"].Arr?)
      && (forall keyword | keyword in {"allOf", "anyOf", "oneOf"} && keyword in schema ::
        Elements(schema, keyword) != [])
    case _ => false
  }

  ghost predicate LinksResolve(c: Compiled, anchors: Anchors, at: Location, schema: Schema) {
    forall keyword, scope: Scope | keyword in REFERENCE_KEYWORDS && keyword in schema && IsFragment(schema[keyword]) ::
      c.link(at, keyword, scope) in ReferenceTargets(c.engines, c.document, anchors, schema[keyword].text)
  }

  /** Taken from the compile step: shapes are well formed, and a reference resolves to a target the
      auditor resolves it to. */
  ghost predicate CompileGuarantees(c: Compiled, anchors: Anchors, visited: set<Location>) {
    forall at | at in visited && At(c.document, at).Some? ::
      && WellFormed(At(c.document, at).value)
      && (At(c.document, at).value.Obj? ==> LinksResolve(c, anchors, at, At(c.document, at).value.fields))
  }

  ghost predicate Sealed(c: Compiled, anchors: Anchors, visited: set<Location>) {
    AuditClosed(c.engines, c.document, anchors, visited) && CompileGuarantees(c, anchors, visited)
  }

  lemma PartVisited(c: Compiled, anchors: Anchors, visited: set<Location>, at: Location, part: Location)
    requires Sealed(c, anchors, visited) && at in visited
    requires At(c.document, at).value.Obj?
    requires part in Subschemas(At(c.document, at).value.fields)
    ensures at + part in visited
  {
    assert at + part in Successors(c.engines, c.document, anchors, at);
  }

  lemma LinkVisited(c: Compiled, anchors: Anchors, visited: set<Location>, at: Location, keyword: string, scope: Scope)
    requires Sealed(c, anchors, visited) && at in visited
    requires At(c.document, at).value.Obj?
    requires keyword in REFERENCE_KEYWORDS && keyword in At(c.document, at).value.fields
    ensures c.link(at, keyword, scope) in visited
  {
    var schema := At(c.document, at).value.fields;
    assert ReferencesAreLocal(schema);
    assert c.link(at, keyword, scope) in Successors(c.engines, c.document, anchors, at);
  }

  lemma DutyAccepted(judge: Judge, c: Compiled, at: Location, schema: Schema, value: Value, duty: Duty, scope: Scope)
    requires JudgeSchema(judge, c, at, schema, value, scope) == Accept
    requires duty in Conjuncts(c, at, schema, value, scope)
    ensures judge(duty) == Accept
  {
    assert judge(duty) in Verdicts(judge, Conjuncts(c, at, schema, value, scope));
  }

  lemma FieldAccepted(judge: Judge, c: Compiled, at: Location, schema: Schema, value: Value, duty: Duty, scope: Scope)
    requires JudgeSchema(judge, c, at, schema, value, scope) == Accept
    requires value.Obj? && duty in Fields(c, at, schema, value.fields, scope)
    ensures judge(duty) == Accept
  {
    hide JudgeSchema, Fields;
    DutyAccepted(judge, c, at, schema, value, duty, scope);
  }

  // ----- one level of a document -----

  /** The location refuses every reserved name. */
  ghost predicate RefusesReserved(judge: Judge, at: Location, scope: Scope) {
    forall name | IsReserved(name) :: judge(Duty(at, Str(name), scope)) != Accept
  }

  /** In an accepted object every name is allowed and every member was judged at a visited location. */
  lemma MemberJudged(judge: Judge, c: Compiled, anchors: Anchors, visited: set<Location>, at: Location, schema: Schema,
                     value: Value, name: string, scope: Scope) returns (duty: Duty)
    requires Sealed(c, anchors, visited) && at in visited && At(c.document, at) == Some(Obj(schema))
    requires ObjectShapeSafe(schema) && ReservedNamesAbsent(c.engines, schema)
    requires schema["additionalProperties"].Obj? ==> RefusesReserved(judge, at + ["propertyNames"], scope.Below())
    requires schema["additionalProperties"].Bool? ==> forall v ::
             judge(Duty(at + ["additionalProperties"], v, scope.Below())) != Accept
    requires value.Obj? && name in value.fields
    requires JudgeSchema(judge, c, at, schema, value, scope) == Accept
    ensures !IsReserved(name)
    ensures duty.at in visited && duty.value == value.fields[name] && judge(duty) == Accept
  {
    hide Sealed, JudgeSchema, Conjuncts;
    var duties := Fields(c, at, schema, value.fields, scope);
    if name in Members(schema, "properties") {
      duty := Duty(at + ["properties", name], value.fields[name], scope.Below());
      PartVisited(c, anchors, visited, at, ["properties", name]);
    } else if pattern :| pattern in Members(schema, "patternProperties") && c.engines.matches(pattern, name) {
      duty := Duty(at + ["patternProperties", pattern], value.fields[name], scope.Below());
      PartVisited(c, anchors, visited, at, ["patternProperties", pattern]);
    } else {
      duty := Duty(at + ["additionalProperties"], value.fields[name], scope.Below());
      assert Additional(c, schema, name);
      PartVisited(c, anchors, visited, at, ["additionalProperties"]);
      FieldAccepted(judge, c, at, schema, value, duty, scope);
      if schema["additionalProperties"].Obj? {
        FieldAccepted(judge, c, at, schema, value, Duty(at + ["propertyNames"], Str(name), scope.Below()), scope);
      }
    }
    FieldAccepted(judge, c, at, schema, value, duty, scope);
  }

  /** In an accepted array every element was judged at a visited location. */
  lemma ElementJudged(judge: Judge, c: Compiled, anchors: Anchors, visited: set<Location>, at: Location, schema: Schema,
                      value: Value, i: nat, scope: Scope) returns (duty: Duty)
    requires Sealed(c, anchors, visited) && at in visited && At(c.document, at) == Some(Obj(schema))
    requires ArrayShapeSafe(schema)
    requires value.Arr? && i < |value.items|
    requires JudgeSchema(judge, c, at, schema, value, scope) == Accept
    ensures duty.at in visited && duty.value == value.items[i] && judge(duty) == Accept
  {
    var part := if i < |Elements(schema, "prefixItems")| then ["prefixItems", Decimal(i)] else ["items"];
    duty := Duty(at + part, value.items[i], scope.Below());
    PartVisited(c, anchors, visited, at, part);
    assert duty in Items(at, schema, value.items, scope);
    DutyAccepted(judge, c, at, schema, value, duty, scope);
  }

  /** Where a schema delegates, an accepted value was judged, itself, at a visited location. */
  lemma Delegated(judge: Judge, c: Compiled, anchors: Anchors, visited: set<Location>, at: Location, schema: Schema,
                  value: Value, scope: Scope) returns (duty: Duty)
    requires Sealed(c, anchors, visited) && at in visited && At(c.document, at) == Some(Obj(schema))
    requires DelegatesValueShape(schema)
    requires JudgeSchema(judge, c, at, schema, value, scope) == Accept
    ensures duty.at in visited && duty.value == value && judge(duty) == Accept
  {
    if keyword :| keyword in REFERENCE_KEYWORDS && keyword in schema {
      duty := Duty(c.link(at, keyword, scope), value, scope);
      LinkVisited(c, anchors, visited, at, keyword, scope);
      assert duty in References(c, at, schema, value, scope);
      DutyAccepted(judge, c, at, schema, value, duty, scope);
    } else {
      var keyword := if "allOf" in schema then "allOf" else if "anyOf" in schema then "anyOf" else "oneOf";
      assert WellFormed(Obj(schema));
      var i := BranchJudged(judge, c, at, schema, keyword, value, scope);
      duty := Duty(at + [keyword, Decimal(i)], value, scope);
      PartVisited(c, anchors, visited, at, [keyword, Decimal(i)]);
    }
  }

  lemma BranchJudged(judge: Judge, c: Compiled, at: Location, schema: Schema, keyword: string, value: Value,
      scope: Scope) returns (i: nat)
    requires keyword in {"allOf", "anyOf", "oneOf"} && Elements(schema, keyword) != []
    requires JudgeSchema(judge, c, at, schema, value, scope) == Accept
    ensures i < |Elements(schema, keyword)|
    ensures judge(Duty(at + [keyword, Decimal(i)], value, scope)) == Accept
  {
    var branches := Branches(at, schema, keyword, value, scope);
    if keyword == "allOf" {
      i := 0;
      assert Duty(at + [keyword, Decimal(0)], value, scope) in branches;
      DutyAccepted(judge, c, at, schema, value, Duty(at + [keyword, Decimal(0)], value, scope), scope);
    } else {
      var duty: Duty;
      if keyword == "anyOf" {
        assert Accept in Verdicts(judge, branches);
        duty :| duty in branches && judge(duty) == Accept;
      } else {
        assert |Accepting(judge, branches)| == 1;
        duty :| duty in Accepting(judge, branches);
      }
      i :| 0 <= i < |Elements(schema, keyword)| && duty == Duty(at + [keyword, Decimal(i)], value, scope);
    }
  }

  // ----- what a location refuses -----

  /** A schema with `enum` alone accepts what its list holds. */
  lemma OnlyEnum(judge: Judge, c: Compiled, at: Location, schema: Schema, value: Value, scope: Scope)
    requires schema.Keys == {"enum"} && schema["enum"].Arr? && value in schema["enum"].items
    requires value.Str?
    ensures JudgeSchema(judge, c, at, schema, value, scope) == Accept
  {
    assert "enum" in schema && forall keyword | keyword != "enum" :: keyword !in schema;
    assert Conjuncts(c, at, schema, value, scope) == {};
  }

  lemma ChildAt(c: Compiled, at: Location, schema: Schema, keyword: string)
    requires At(c.document, at) == Some(Obj(schema)) && keyword in schema
    ensures At(c.document, at + [keyword]) == Some(schema[keyword])
  {
    AtConcat(c.document, at, [keyword]);
    AtOne(Obj(schema), keyword);
  }

  lemma NamesRefuseReserved(fuel: nat, c: Compiled, at: Location, schema: Schema, name: string, scope: Scope)
    requires At(c.document, at) == Some(Obj(schema)) && PropertyNamesExcludeReserved(schema)
    requires IsReserved(name) && scope.trail == {}
    ensures Evaluate(fuel, c, Duty(at + ["propertyNames"], Str(name), scope)) != Accept
  {
    var names := schema["propertyNames"].fields;
    var refused := names["not"].fields;
    ChildAt(c, at, schema, "propertyNames");
    ChildAt(c, at + ["propertyNames"], names, "not");
    if fuel > 1 {
      var negated := Duty(at + ["propertyNames"] + ["not"], Str(name),
        Inside(Duty(at + ["propertyNames"], Str(name), scope)));
      OnlyEnum(Judging(fuel - 2, c), c, negated.at, refused, Str(name), Inside(negated));
      assert Evaluate(fuel - 1, c, negated) == Accept;
    }
  }

  lemma AdditionalRefused(fuel: nat, c: Compiled, at: Location, schema: Schema, value: Value, scope: Scope)
    requires At(c.document, at) == Some(Obj(schema))
    requires "additionalProperties" in schema && schema["additionalProperties"] == Bool(false)
    ensures Evaluate(fuel, c, Duty(at + ["additionalProperties"], value, scope)) != Accept
  {
    ChildAt(c, at, schema, "additionalProperties");
  }

  // ----- the whole document -----

  lemma TypedValue(schema: Schema, value: Value)
    requires WellFormed(Obj(schema)) && TypeCapabilities(schema).isExplicit
    requires TypeHolds(schema, value)
    ensures value.Obj? ==> TypeCapabilities(schema).allowsObject
    ensures value.Arr? ==> TypeCapabilities(schema).allowsArray
  {
    match schema["type"]
    case Arr(names) =>
      var i :| 0 <= i < |names| && names[i].Str? && HasType(value, names[i].text);
      assert names[i] == Str(names[i].text);
    case _ =>
  }

  lemma LiteralIsClean(schema: Schema, value: Value)
    requires WellFormed(Obj(schema)) && LiteralsClean(schema) && HasFiniteValues(schema)
    requires LiteralsHold(schema, value)
    ensures !ContainsReserved(value)
  {
    if "const" !in schema {
      var i :| 0 <= i < |Elements(schema, "enum")| && value == Elements(schema, "enum")[i];
    }
  }

  /** A visited location that accepts anything holds a schema object. */
  lemma AcceptingNode(judge: Judge, c: Compiled, anchors: Anchors, visited: set<Location>, duty: Duty)
    requires Sealed(c, anchors, visited) && duty.at in visited
    requires JudgeAt(judge, c, duty) == Accept
    ensures At(c.document, duty.at).Some? && At(c.document, duty.at).value.Obj?
    ensures JudgeSchema(judge, c, duty.at, At(c.document, duty.at).value.fields, duty.value, Inside(duty)) == Accept
  {
    hide JudgeSchema;
    assert WellFormed(At(c.document, duty.at).value);
  }

  lemma VisitedSchema(c: Compiled, anchors: Anchors, visited: set<Location>, at: Location, schema: Schema)
    requires Sealed(c, anchors, visited) && at in visited && At(c.document, at) == Some(Obj(schema))
    ensures WellFormed(Obj(schema)) && ReservedNamesAbsent(c.engines, schema)
    ensures LiteralsClean(schema) && ValueShapeSafe(schema) && TypeCapabilities(schema).valid
  {
    hide ReservedNamesAbsent, LiteralsClean, ValueShapeSafe, Successors, LinksResolve;
  }

  /** A value accepted at an audited location carries no reserved field at any depth. */
  lemma {:induction false} AcceptedIsClean(fuel: nat, c: Compiled, anchors: Anchors, visited: set<Location>, duty: Duty)
    requires Sealed(c, anchors, visited) && duty.at in visited
    requires Evaluate(fuel, c, duty) == Accept
    ensures !ContainsReserved(duty.value)
    decreases fuel, 0
  {
    hide JudgeAt, JudgeSchema, Sealed, ContainsReserved;
    AcceptingNode(Judging(fuel - 1, c), c, anchors, visited, duty);
    SchemaIsClean(fuel - 1, c, anchors, visited, duty, At(c.document, duty.at).value.fields);
  }

  lemma {:induction false} SchemaIsClean(fuel: nat, c: Compiled, anchors: Anchors, visited: set<Location>, duty: Duty,
      schema: Schema)
    requires Sealed(c, anchors, visited) && duty.at in visited && At(c.document, duty.at) == Some(Obj(schema))
    requires JudgeSchema(Judging(fuel, c), c, duty.at, schema, duty.value, Inside(duty)) == Accept
    ensures !ContainsReserved(duty.value)
    decreases fuel, 4
  {
    hide Sealed, Conjuncts, TypeHolds, LiteralsHold, FurtherHolds, WellFormed, TypeCapabilities, LiteralsClean,
      Any, One, Not, ObjectShapeSafe, ArrayShapeSafe, DelegatesValueShape, HasFiniteValues, ReservedNamesAbsent,
        JudgeAt;
    VisitedSchema(c, anchors, visited, duty.at, schema);
    if TypeCapabilities(schema).isExplicit {
      TypedValue(schema, duty.value);
      if duty.value.Obj? {
        ObjectIsClean(fuel, c, anchors, visited, duty, schema);
      } else if duty.value.Arr? {
        ArrayIsClean(fuel, c, anchors, visited, duty, schema);
      }
    } else if DelegatesValueShape(schema) {
      var sub := Delegated(Judging(fuel, c), c, anchors, visited, duty.at, schema, duty.value, Inside(duty));
      AcceptedIsClean(fuel, c, anchors, visited, sub);
    } else {
      LiteralIsClean(schema, duty.value);
    }
  }

  lemma {:induction false} ObjectIsClean(fuel: nat, c: Compiled, anchors: Anchors, visited: set<Location>, duty: Duty,
      schema: Schema)
    requires Sealed(c, anchors, visited) && duty.at in visited && At(c.document, duty.at) == Some(Obj(schema))
    requires ObjectShapeSafe(schema) && ReservedNamesAbsent(c.engines, schema) && duty.value.Obj?
    requires JudgeSchema(Judging(fuel, c), c, duty.at, schema, duty.value, Inside(duty)) == Accept
    ensures !ContainsReserved(duty.value)
    decreases fuel, 3
  {
    hide Sealed, JudgeSchema, JudgeAt, ReservedNamesAbsent, PropertyNamesExcludeReserved, IsReserved;
    var judge := Judging(fuel, c);
    if schema["additionalProperties"].Obj? {
      forall name | IsReserved(name)
        ensures judge(Duty(duty.at + ["propertyNames"], Str(name), Inside(duty).Below())) != Accept
      {
        NamesRefuseReserved(fuel, c, duty.at, schema, name, Inside(duty).Below());
      }
    } else {
      forall value
        ensures judge(Duty(duty.at + ["additionalProperties"], value, Inside(duty).Below())) != Accept
      {
        AdditionalRefused(fuel, c, duty.at, schema, value, Inside(duty).Below());
      }
    }
    forall name | name in duty.value.fields
      ensures !IsReserved(name) && !ContainsReserved(duty.value.fields[name])
    {
      var sub := MemberJudged(judge, c, anchors, visited, duty.at, schema, duty.value, name, Inside(duty));
      AcceptedIsClean(fuel, c, anchors, visited, sub);
    }
  }

  lemma {:induction false} ArrayIsClean(fuel: nat, c: Compiled, anchors: Anchors, visited: set<Location>, duty: Duty,
      schema: Schema)
    requires Sealed(c, anchors, visited) && duty.at in visited && At(c.document, duty.at) == Some(Obj(schema))
    requires ArrayShapeSafe(schema) && duty.value.Arr?
    requires JudgeSchema(Judging(fuel, c), c, duty.at, schema, duty.value, Inside(duty)) == Accept
    ensures !ContainsReserved(duty.value)
    decreases fuel, 3
  {
    hide Sealed, JudgeSchema, JudgeAt, ArrayShapeSafe;
    forall i | 0 <= i < |duty.value.items|
      ensures !ContainsReserved(duty.value.items[i])
    {
      var sub := ElementJudged(Judging(fuel, c), c, anchors, visited, duty.at, schema, duty.value, i, Inside(duty));
      AcceptedIsClean(fuel, c, anchors, visited, sub);
    }
  }

  /** The main result: whatever the compiled schema accepts passes the runtime check. */
  lemma AuditImpliesRuntimeCheck(c: Compiled, anchors: Anchors, visited: set<Location>)
    requires Sealed(c, anchors, visited) && [] in visited
    ensures forall value | Accepts(c, value) :: !ContainsReserved(value)
  {
    forall value | Accepts(c, value)
      ensures !ContainsReserved(value)
    {
      var fuel: nat :| Evaluate(fuel, c, Duty([], value, OUTERMOST)) == Accept;
      AcceptedIsClean(fuel, c, anchors, visited, Duty([], value, OUTERMOST));
    }
  }
}
