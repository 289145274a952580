/** Cyclic references: they do not empty the notion of acceptance, and a validator that refuses a schema which it
    is already applying to the same instance decides every value. */
module SchemaCycles {
  import opened Optional
  import opened Json
  import opened JsonPointer
  import opened SchemaRules
  import opened SchemaValidator

  // ----- one alternative is enough -----

  /** A validator enters the location: it is not already applying it to this instance. */
  ghost predicate Enters(c: Compiled, duty: Duty) {
    !(c.refusesCycles && duty.at in duty.scope.trail)
  }

  lemma OtherKeywordsAbsent(schema: Schema)
    requires forall keyword | keyword in schema :: keyword == "anyOf"
    ensures Elements(schema, "allOf") == [] && Elements(schema, "prefixItems") == [] && "items" !in schema
    ensures Members(schema, "properties") == map[] && Members(schema, "patternProperties") == map[]
    ensures "additionalProperties" !in schema && "propertyNames" !in schema && "anyOf" !in REFERENCE_KEYWORDS
  {
  }

  lemma NothingElseAsked(c: Compiled, at: Location, schema: Schema, value: Value, scope: Scope)
    requires forall keyword | keyword in schema :: keyword == "anyOf"
    ensures Conjuncts(c, at, schema, value, scope) == {}
  {
    hide REFERENCE_KEYWORDS, Additional, Elements, Members;
    OtherKeywordsAbsent(schema);
  }

  lemma NothingElseAsserted(c: Compiled, at: Location, schema: Schema, value: Value)
    requires forall keyword | keyword in schema :: keyword == "anyOf"
    ensures AssertionsHold(c, at, schema, value) && "oneOf" !in schema && "not" !in schema
  {
    assert "anyOf" in SPELLED_OUT;
    assert "type" !in schema && "const" !in schema && "enum" !in schema;
  }

  lemma OnlyAlternatives(judge: Judge, c: Compiled, at: Location, schema: Schema, value: Value, scope: Scope)
    requires schema.Keys == {"anyOf"} && Accept in Verdicts(judge, Branches(at, schema, "anyOf", value, scope))
    ensures JudgeSchema(judge, c, at, schema, value, scope) == Accept
  {
    hide Verdicts, Conjuncts, AssertionsHold, Branches;
    assert forall keyword | keyword in schema :: keyword in schema.Keys;
    NothingElseAsked(c, at, schema, value, scope);
    NothingElseAsserted(c, at, schema, value);
    NoVerdicts(judge);
  }

  lemma NoVerdicts(judge: Judge)
    ensures Verdicts(judge, {}) == {}
  {
  }

  /** What one alternative accepts is accepted, even if another one leads straight back here. */
  lemma AlternativeSuffices(fuel: nat, c: Compiled, duty: Duty, schema: Schema, i: nat)
    requires At(c.document, duty.at) == Some(Obj(schema)) && schema.Keys == {"anyOf"} && i < |Elements(schema, "anyOf")|
    requires Enters(c, duty) && Evaluate(fuel, c, Duty(duty.at + ["anyOf", Decimal(i)], duty.value, Inside(duty)))
             == Accept
    ensures Evaluate(fuel + 1, c, duty) == Accept
  {
    hide JudgeSchema;
    var judge := Judging(fuel, c);
    var branches := Branches(duty.at, schema, "anyOf", duty.value, Inside(duty));
    var branch := Duty(duty.at + ["anyOf", Decimal(i)], duty.value, Inside(duty));
    assert branch in branches;
    assert judge(branch) in Verdicts(judge, branches);
    OnlyAlternatives(judge, c, duty.at, schema, duty.value, Inside(duty));
  }

  // ----- refusing cycles -----

  lemma {:induction false} MoreFuel(fuel: nat, more: nat, c: Compiled, duty: Duty)
    requires fuel <= more && Evaluate(fuel, c, duty) != Diverges
    ensures Evaluate(more, c, duty) == Evaluate(fuel, c, duty)
    decreases more - fuel
  {
    hide JudgeAt;
    if fuel < more {
      FuelIrrelevant(fuel, c, duty);
      MoreFuel(fuel + 1, more, c, duty);
    }
  }

  ghost predicate Decided(c: Compiled, duty: Duty) {
    exists fuel: nat :: Evaluate(fuel, c, duty) != Diverges
  }

  /** One fuel decides finitely many duties. */
  lemma {:induction false} CommonFuel(c: Compiled, duties: set<Duty>) returns (fuel: nat)
    requires forall duty | duty in duties :: Decided(c, duty)
    ensures forall duty | duty in duties :: Evaluate(fuel, c, duty) != Diverges
    decreases duties
  {
    hide Evaluate;
    fuel := 0;
    if duties != {} {
      var first :| first in duties;
      var own: nat :| Evaluate(own, c, first) != Diverges;
      var others := CommonFuel(c, duties - {first});
      fuel := own + others;
      forall duty | duty in duties
        ensures Evaluate(fuel, c, duty) != Diverges
      {
        MoreFuel(if duty == first then own else others, fuel, c, duty);
      }
    }
  }

  /** Everything a schema asks about a value. */
  ghost function Subduties(c: Compiled, at: Location, schema: Schema, value: Value, scope: Scope): set<Duty> {
    Conjuncts(c, at, schema, value, scope) +
    Branches(at, schema, "anyOf", value, scope) +
    Branches(at, schema, "oneOf", value, scope) +
    (if "not" in schema then {Duty(at + ["not"], value, scope)} else {})
  }

  lemma NoneDiverges(judge: Judge, duties: set<Duty>)
    requires forall duty | duty in duties :: judge(duty) != Diverges
    ensures Diverges !in Verdicts(judge, duties)
  {
  }

  lemma SchemaDecided(judge: Judge, c: Compiled, at: Location, schema: Schema, value: Value, scope: Scope)
    requires forall duty | duty in Subduties(c, at, schema, value, scope) :: judge(duty) != Diverges
    ensures JudgeSchema(judge, c, at, schema, value, scope) != Diverges
  {
    hide Verdicts, Conjuncts, Branches, Accepting, AssertionsHold;
    NoneDiverges(judge, Conjuncts(c, at, schema, value, scope));
    NoneDiverges(judge, Branches(at, schema, "anyOf", value, scope));
    NoneDiverges(judge, Branches(at, schema, "oneOf", value, scope));
    if "not" in schema {
      assert judge(Duty(at + ["not"], value, scope)) != Diverges;
    }
  }

  /** A part of an instance that a schema can look at. */
  ghost predicate IsPart(part: Value, value: Value) {
    match value
    case Obj(fields) => exists name | name in fields :: part == fields[name] || part == Str(name)
    case Arr(items) => exists i | 0 <= i < |items| :: part == items[i]
    case _ => false
  }

  lemma FieldDescends(c: Compiled, at: Location, schema: Schema, fields: map<string, Value>, scope: Scope, sub: Duty)
    requires sub in Fields(c, at, schema, fields, scope)
    ensures sub.scope == scope.Below() && exists name | name in fields ::
            sub.value == fields[name] || sub.value == Str(name)
  {
    hide Members, Additional;
  }

  lemma ItemDescends(at: Location, schema: Schema, items: seq<Value>, scope: Scope, sub: Duty)
    requires sub in Items(at, schema, items, scope)
    ensures sub.scope == scope.Below() && exists i | 0 <= i < |items| :: sub.value == items[i]
  {
    hide Elements;
  }

  lemma SameInstance(c: Compiled, at: Location, schema: Schema, keyword: string, value: Value, scope: Scope, sub: Duty)
    requires sub in References(c, at, schema, value, scope) || sub in Branches(at, schema, keyword, value, scope)
    ensures sub.value == value && sub.scope == scope
  {
    hide Elements;
  }

  /** A duty leads to duties about the same value further along the trail, or about a part of it. */
  lemma Descends(c: Compiled, at: Location, schema: Schema, value: Value, scope: Scope, sub: Duty)
    requires sub in Subduties(c, at, schema, value, scope)
    ensures (sub.value == value && sub.scope == scope) || (IsPart(sub.value, value) && sub.scope == scope.Below())
  {
    hide Fields, Items, References, Branches;
    if value.Obj? && sub in Fields(c, at, schema, value.fields, scope) {
      FieldDescends(c, at, schema, value.fields, scope, sub);
    } else if value.Arr? && sub in Items(at, schema, value.items, scope) {
      ItemDescends(at, schema, value.items, scope, sub);
    } else if sub in Branches(at, schema, "allOf", value, scope) + References(c, at, schema, value, scope) {
      SameInstance(c, at, schema, "allOf", value, scope, sub);
    } else if sub in Branches(at, schema, "anyOf", value, scope) {
      SameInstance(c, at, schema, "anyOf", value, scope, sub);
    } else if sub in Branches(at, schema, "oneOf", value, scope) {
      SameInstance(c, at, schema, "oneOf", value, scope, sub);
    }
  }

  function Nests(value: Value): nat {
    if value.Obj? || value.Arr? then 1 else 0
  }

  ghost function Untried(c: Compiled, scope: Scope): nat {
    |Locations(c.document) - scope.trail|
  }

  lemma TrailGrows(c: Compiled, duty: Duty)
    requires At(c.document, duty.at).Some? && duty.at !in duty.scope.trail
    ensures Untried(c, Inside(duty)) < Untried(c, duty.scope)
  {
    hide Locations;
    LocationsComplete(c.document, duty.at);
    var before, after := Locations(c.document) - duty.scope.trail, Locations(c.document) - Inside(duty).trail;
    assert before == after + {duty.at} && duty.at !in after;
  }

  /** A validator that refuses cycles decides every value at every location. */
  lemma {:induction false} CycleRefusalDecides(c: Compiled, duty: Duty)
    requires c.refusesCycles
    ensures Decided(c, duty)
    decreases Nests(duty.value), duty.value, Untried(c, duty.scope)
  {
    hide JudgeSchema, Subduties, Untried, At, Evaluate;
    if duty.at in duty.scope.trail || At(c.document, duty.at).None? || !At(c.document, duty.at).value.Obj? {
      DecidedAtOnce(c, duty);
    } else {
      var schema := At(c.document, duty.at).value.fields;
      TrailGrows(c, duty);
      forall sub | sub in Subduties(c, duty.at, schema, duty.value, Inside(duty))
        ensures Decided(c, sub)
      {
        Descends(c, duty.at, schema, duty.value, Inside(duty), sub);
        if sub.value == duty.value && sub.scope == Inside(duty) {
          CycleRefusalDecides(c, sub);
        } else if duty.value.Arr? {
          var i :| 0 <= i < |duty.value.items| && sub.value == duty.value.items[i];
          CycleRefusalDecides(c, sub.(value := duty.value.items[i]));
        } else {
          var name :| name in duty.value.fields && (sub.value == duty.value.fields[name] || sub.value == Str(name));
          if sub.value == Str(name) {
            CycleRefusalDecides(c, sub.(value := Str(name)));
          } else {
            CycleRefusalDecides(c, sub.(value := duty.value.fields[name]));
          }
        }
      }
      var fuel := CommonFuel(c, Subduties(c, duty.at, schema, duty.value, Inside(duty)));
      DecidedNext(fuel, c, duty, schema);
    }
  }

  lemma DecidedAtOnce(c: Compiled, duty: Duty)
    requires c.refusesCycles
    requires duty.at in duty.scope.trail || At(c.document, duty.at).None? || !At(c.document, duty.at).value.Obj?
    ensures Decided(c, duty)
  {
    hide JudgeSchema, At;
    assert Evaluate(1, c, duty) != Diverges;
  }

  lemma DecidedNext(fuel: nat, c: Compiled, duty: Duty, schema: Schema)
    requires At(c.document, duty.at) == Some(Obj(schema))
    requires forall sub | sub in Subduties(c, duty.at, schema, duty.value, Inside(duty)) ::
             Evaluate(fuel, c, sub) != Diverges
    ensures Decided(c, duty)
  {
    hide JudgeSchema, Subduties, At;
    SchemaDecided(Judging(fuel, c), c, duty.at, schema, duty.value, Inside(duty));
    assert Evaluate(fuel + 1, c, duty) != Diverges;
  }
}
