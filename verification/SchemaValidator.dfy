/** What a compiled schema accepts: JSON Schema Draft 2020-12 for the keywords the auditor relies on
    (Core, sections 8.2.3, 10.2.1, 10.3.1 and 10.3.2; Validation, section 6.1).

    References may form cycles, so evaluation carries fuel and has three verdicts, combined by Kleene's
    three-valued logic: a branch that diverges does not spoil a verdict that the other branches decide.
    A verdict other than `Diverges` does not depend on the fuel (`FuelIrrelevant`). A validator may also
    refuse a schema that it is already applying to the same instance; such a validator decides every
    value (`CycleRefusalDecides`). */
module SchemaValidator {
  import opened Json
  import opened JsonPointer
  import opened SchemaRules

  datatype Verdict = Accept | Reject | Diverges

  /** The dynamic scope (Core, section 7.1): the schemas entered so far, outermost first, and those
      among them that were entered for the instance at hand. */
  datatype Scope = Scope(schemas: seq<Location>, trail: set<Location>) {
    ghost function Enter(at: Location): Scope {
      Scope(schemas + [at], trail + {at})
    }

    /** The same schemas, for a member, a member's name or an element of the instance. */
    ghost function Below(): Scope {
      this.(trail := {})
    }
  }

  const OUTERMOST := Scope([], {})

  /** The result of the compile step. `link` is the location each reference keyword resolves to; for
      `$dynamicRef` that may depend on the dynamic scope.
      `refusesCycles` tells whether a schema already on the trail is refused; `further` stands for every
      keyword that this model does not spell out. */
  datatype Compiled = Compiled(
    document: Value,
    engines: Engines,
    link: (Location, string, Scope) -> Location,
    refusesCycles: bool,
    further: (Location, Value) -> bool
  )

  /** Keywords spelled out below, with those that assert nothing. */
  const SPELLED_OUT: set<string> :=
    {"type", "const", "enum", "$ref", "$dynamicRef", "allOf", "anyOf", "oneOf", "not", "properties",
     "patternProperties", "additionalProperties", "propertyNames", "prefixItems", "items",
     "$schema", "$anchor", "$dynamicAnchor", "$defs", "definitions"}

  ghost function All(verdicts: set<Verdict>): Verdict {
    if Reject in verdicts then Reject else if Diverges in verdicts then Diverges else Accept
  }

  ghost function Both(a: Verdict, b: Verdict): Verdict {
    if a == Reject || b == Reject then Reject else if a == Accept then b else a
  }

  ghost function Some'(verdicts: set<Verdict>): Verdict {
    if Accept in verdicts then Accept else if Diverges in verdicts then Diverges else Reject
  }

  ghost function Check(holds: bool): Verdict {
    if holds then Accept else Reject
  }

  ghost predicate HasType(value: Value, name: string) {
    match value
    case Null => name == "null"
    case Bool(_) => name == "boolean"
    case Num(n) => name == "number" || (name == "integer" && n.Floor as real == n)
    case Str(_) => name == "string"
    case Arr(_) => name == "array"
    case Obj(_) => name == "object"
  }

  ghost predicate TypeHolds(schema: Schema, value: Value) {
    "type" in schema ==>
      match schema["type"]
      case Str(name) => HasType(value, name)
      case Arr(names) => exists i | 0 <= i < |names| :: names[i].Str? && HasType(value, names[i].text)
      case _ => true
  }

  ghost predicate LiteralsHold(schema: Schema, value: Value) {
    && ("const" in schema ==> value == schema["const"])
    && ("enum" in schema && schema["enum"].Arr? ==> value in schema["enum"].items)
  }

  ghost predicate FurtherHolds(c: Compiled, at: Location, schema: Schema, value: Value) {
    schema.Keys <= SPELLED_OUT || c.further(at, value)
  }

  /** One value that must be judged at one location, reached through the schemas of a scope. */
  datatype Duty = Duty(at: Location, value: Value, scope: Scope)

  /** The scope of everything that a duty leads to. */
  ghost function Inside(duty: Duty): Scope {
    duty.scope.Enter(duty.at)
  }

  ghost function Branches(at: Location, schema: Schema, keyword: string, value: Value, scope: Scope): set<Duty> {
    set i | 0 <= i < |Elements(schema, keyword)| :: Duty(at + [keyword, Decimal(i)], value, scope)
  }

  ghost function References(c: Compiled, at: Location, schema: Schema, value: Value, scope: Scope): set<Duty> {
    set keyword | keyword in REFERENCE_KEYWORDS && keyword in schema :: Duty(c.link(at, keyword, scope), value, scope)
  }

  ghost predicate Additional(c: Compiled, schema: Schema, name: string) {
    && name !in Members(schema, "properties")
    && (forall pattern | pattern in Members(schema, "patternProperties") :: !c.engines.matches(pattern, name))
  }

  /** Core, sections 10.3.2.1 to 10.3.2.4. */
  ghost function Fields(c: Compiled, at: Location, schema: Schema, fields: map<string, Value>,
      scope: Scope): set<Duty> {
    (set name | name in fields && name in Members(schema, "properties") ::
       Duty(at + ["properties", name], fields[name], scope.Below())) +
    (set name, pattern | name in fields && pattern in Members(schema, "patternProperties") &&
      c.engines.matches(pattern, name) ::
       Duty(at + ["patternProperties", pattern], fields[name], scope.Below())) +
    (set name | name in fields && "additionalProperties" in schema && Additional(c, schema, name) ::
       Duty(at + ["additionalProperties"], fields[name], scope.Below())) +
    (set name | name in fields && "propertyNames" in schema ::
       Duty(at + ["propertyNames"], Str(name), scope.Below()))
  }

  /** Core, sections 10.3.1.1 and 10.3.1.2: `items` governs what `prefixItems` leaves. */
  ghost function Items(at: Location, schema: Schema, items: seq<Value>, scope: Scope): set<Duty> {
    var prefix := |Elements(schema, "prefixItems")|;
    (set i | 0 <= i < |items| && i < prefix :: Duty(at + ["prefixItems", Decimal(i)], items[i], scope.Below())) +
    (set i | prefix <= i < |items| && "items" in schema :: Duty(at + ["items"], items[i], scope.Below()))
  }

  /** Everything an instance must satisfy at once. */
  ghost function Conjuncts(c: Compiled, at: Location, schema: Schema, value: Value, scope: Scope): set<Duty> {
    References(c, at, schema, value, scope) +
    Branches(at, schema, "allOf", value, scope) +
    (if value.Obj? then Fields(c, at, schema, value.fields, scope) else {}) +
    (if value.Arr? then Items(at, schema, value.items, scope) else {})
  }

  ghost predicate AssertionsHold(c: Compiled, at: Location, schema: Schema, value: Value) {
    TypeHolds(schema, value) && LiteralsHold(schema, value) && FurtherHolds(c, at, schema, value)
  }

  ghost function Negate(verdict: Verdict): Verdict {
    match verdict
    case Accept => Reject
    case Reject => Accept
    case Diverges => Diverges
  }

  /** How sub-judgements are obtained. */
  type Judge = Duty -> Verdict

  ghost function Verdicts(judge: Judge, duties: set<Duty>): set<Verdict> {
    set duty | duty in duties :: judge(duty)
  }

  ghost function Accepting(judge: Judge, duties: set<Duty>): set<Duty> {
    set duty | duty in duties && judge(duty) == Accept
  }

  ghost function Any(judge: Judge, at: Location, schema: Schema, value: Value, scope: Scope): Verdict {
    if "anyOf" in schema then Some'(Verdicts(judge, Branches(at, schema, "anyOf", value, scope))) else Accept
  }

  ghost function One(judge: Judge, at: Location, schema: Schema, value: Value, scope: Scope): Verdict {
    if "oneOf" !in schema then Accept
    else
      var branches := Branches(at, schema, "oneOf", value, scope);
      if |Accepting(judge, branches)| > 1 then Reject
      else if Diverges in Verdicts(judge, branches) then Diverges
      else Check(|Accepting(judge, branches)| == 1)
  }

  ghost function Not(judge: Judge, at: Location, schema: Schema, value: Value, scope: Scope): Verdict {
    if "not" in schema then Negate(judge(Duty(at + ["not"], value, scope))) else Accept
  }

  ghost function JudgeSchema(judge: Judge, c: Compiled, at: Location, schema: Schema, value: Value,
      scope: Scope): Verdict {
    Both(Both(Check(AssertionsHold(c, at, schema, value)),
      All(Verdicts(judge, Conjuncts(c, at, schema, value, scope)))),
         Both(Any(judge, at, schema, value, scope), Both(One(judge, at, schema, value, scope),
           Not(judge, at, schema, value, scope))))
  }

  /** A location without a schema is taken to accept: nothing is assumed in its favour. */
  ghost function JudgeAt(judge: Judge, c: Compiled, duty: Duty): Verdict {
    if c.refusesCycles && duty.at in duty.scope.trail then Reject
    else match At(c.document, duty.at)
    case Some(Bool(accepts)) => Check(accepts)
    case Some(Obj(schema)) => JudgeSchema(judge, c, duty.at, schema, duty.value, Inside(duty))
    case _ => Accept
  }

  ghost function Evaluate(fuel: nat, c: Compiled, duty: Duty): Verdict
    decreases fuel, 0
  {
    if fuel == 0 then Diverges else JudgeAt(Judging(fuel - 1, c), c, duty)
  }

  ghost function Judging(fuel: nat, c: Compiled): Judge
    decreases fuel, 1
  {
    duty => Evaluate(fuel, c, duty)
  }

  ghost predicate Accepts(c: Compiled, value: Value) {
    exists fuel: nat :: Evaluate(fuel, c, Duty([], value, OUTERMOST)) == Accept
  }

  // ----- a verdict does not depend on the fuel -----

  /** `later` repeats every verdict `earlier` reached. */
  ghost predicate Refines(later: Judge, earlier: Judge) {
    forall duty :: earlier(duty) != Diverges ==> later(duty) == earlier(duty)
  }

  /** A verdict once among those of a set of duties stays among them. */
  lemma VerdictKept(later: Judge, earlier: Judge, duties: set<Duty>, verdict: Verdict)
    requires Refines(later, earlier) && verdict != Diverges && verdict in Verdicts(earlier, duties)
    ensures verdict in Verdicts(later, duties)
  {
    var duty :| duty in duties && earlier(duty) == verdict;
    assert later(duty) == verdict;
  }

  lemma AcceptingKept(later: Judge, earlier: Judge, duties: set<Duty>)
    requires Refines(later, earlier)
    ensures |Accepting(earlier, duties)| <= |Accepting(later, duties)|
  {
    SizeOfSubset(Accepting(earlier, duties), Accepting(later, duties));
  }

  lemma VerdictsStable(later: Judge, earlier: Judge, duties: set<Duty>)
    requires Refines(later, earlier)
    requires Diverges !in Verdicts(earlier, duties)
    ensures Verdicts(later, duties) == Verdicts(earlier, duties)
    ensures Accepting(later, duties) == Accepting(earlier, duties)
  {
    forall duty | duty in duties
      ensures later(duty) == earlier(duty)
    {
      assert earlier(duty) in Verdicts(earlier, duties);
    }
  }

  lemma SizeOfSubset<T>(small: set<T>, large: set<T>)
    requires small <= large
    ensures |small| <= |large|
  {
    assert large == small + (large - small);
  }

  lemma AllStable(later: Judge, earlier: Judge, duties: set<Duty>)
    requires Refines(later, earlier)
    ensures All(Verdicts(earlier, duties)) != Diverges ==>
            All(Verdicts(later, duties)) == All(Verdicts(earlier, duties))
  {
    hide Verdicts, Accepting, Refines;
    if Reject in Verdicts(earlier, duties) {
      VerdictKept(later, earlier, duties, Reject);
    } else if Diverges !in Verdicts(earlier, duties) {
      VerdictsStable(later, earlier, duties);
    }
  }

  lemma AnyStable(later: Judge, earlier: Judge, at: Location, schema: Schema, value: Value, scope: Scope)
    requires Refines(later, earlier)
    ensures Any(earlier, at, schema, value, scope) != Diverges ==>
            Any(later, at, schema, value, scope) == Any(earlier, at, schema, value, scope)
  {
    hide Verdicts, Accepting, Branches, Refines;
    var branches := Branches(at, schema, "anyOf", value, scope);
    if Accept in Verdicts(earlier, branches) {
      VerdictKept(later, earlier, branches, Accept);
    } else if Diverges !in Verdicts(earlier, branches) {
      VerdictsStable(later, earlier, branches);
    }
  }

  lemma OneStable(later: Judge, earlier: Judge, at: Location, schema: Schema, value: Value, scope: Scope)
    requires Refines(later, earlier)
    ensures One(earlier, at, schema, value, scope) != Diverges ==>
            One(later, at, schema, value, scope) == One(earlier, at, schema, value, scope)
  {
    hide Verdicts, Accepting, Branches, Refines;
    var branches := Branches(at, schema, "oneOf", value, scope);
    AcceptingKept(later, earlier, branches);
    if Diverges !in Verdicts(earlier, branches) {
      VerdictsStable(later, earlier, branches);
    }
  }

  lemma SchemaStable(later: Judge, earlier: Judge, c: Compiled, at: Location, schema: Schema, value: Value,
      scope: Scope)
    requires Refines(later, earlier)
    requires JudgeSchema(earlier, c, at, schema, value, scope) != Diverges
    ensures JudgeSchema(later, c, at, schema, value, scope) == JudgeSchema(earlier, c, at, schema, value, scope)
  {
    hide All, Any, One, Verdicts, Conjuncts, AssertionsHold;
    AllStable(later, earlier, Conjuncts(c, at, schema, value, scope));
    AnyStable(later, earlier, at, schema, value, scope);
    OneStable(later, earlier, at, schema, value, scope);
  }

  lemma JudgeStable(later: Judge, earlier: Judge, c: Compiled, duty: Duty)
    requires Refines(later, earlier)
    requires JudgeAt(earlier, c, duty) != Diverges
    ensures JudgeAt(later, c, duty) == JudgeAt(earlier, c, duty)
  {
    hide JudgeSchema, Refines;
    if !(c.refusesCycles && duty.at in duty.scope.trail) {
      match At(c.document, duty.at)
      case Some(Obj(schema)) => SchemaStable(later, earlier, c, duty.at, schema, duty.value, Inside(duty));
      case _ =>
    }
  }

  lemma {:induction false} FuelIrrelevant(fuel: nat, c: Compiled, duty: Duty)
    requires Evaluate(fuel, c, duty) != Diverges
    ensures Evaluate(fuel + 1, c, duty) == Evaluate(fuel, c, duty)
  {
    hide JudgeAt;
    var later, earlier := Judging(fuel, c), Judging(fuel - 1, c);
    forall sub | earlier(sub) != Diverges
      ensures later(sub) == earlier(sub)
    {
      FuelIrrelevant(fuel - 1, c, sub);
    }
    JudgeStable(later, earlier, c, duty);
  }
}
