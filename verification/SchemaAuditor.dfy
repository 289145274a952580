/** The schema auditor: two depth-first traversals of a document whose references may be cyclic. The
    first collects anchors, the second audits. Both remember where they have been by path text.

    The order in which the source visits the parts of a schema decides only which error is reported,
    so the traversals here take the pending locations in any order and report a flag. */
module SchemaAuditor {
  import opened Optional
  import opened Json
  import opened JsonPointer
  import opened SchemaRules
  import opened SchemaValidator
  import opened SchemaSoundness
  import opened SchemaClauses

  ghost function Marked(document: Value, texts: set<string>): set<Location> {
    set at | at in Locations(document) && Render(at) in texts
  }

  lemma MarkedByText(document: Value, texts: set<string>, at: Location)
    requires At(document, at).Some?
    ensures at in Marked(document, texts) <==> Render(at) in texts
  {
    LocationsComplete(document, at);
  }

  /** Marking one text marks one location. */
  lemma MarkOne(document: Value, texts: set<string>, at: Location)
    requires At(document, at).Some?
    ensures Marked(document, texts + {Render(at)}) == Marked(document, texts) + {at}
  {
    LocationsComplete(document, at);
    forall other | other in Locations(document) && Render(other) == Render(at)
      ensures other == at
    {
      RenderInjective(other, at);
    }
  }

  // ----- reachability -----

  type Graph = Location -> set<Location>

  ghost predicate ReachesIn(next: Graph, steps: nat, from: Location, to: Location) {
    if steps == 0 then from == to
    else exists middle :: middle in next(from) && ReachesIn(next, steps - 1, middle, to)
  }

  ghost predicate Reaches(next: Graph, from: Location, to: Location) {
    exists steps: nat :: ReachesIn(next, steps, from, to)
  }

  lemma ReachesSelf(next: Graph, at: Location)
    ensures Reaches(next, at, at)
  {
    assert ReachesIn(next, 0, at, at);
  }

  lemma ReachesThrough(next: Graph, from: Location, middle: Location, to: Location)
    requires middle in next(from) && Reaches(next, middle, to)
    ensures Reaches(next, from, to)
  {
    var steps: nat :| ReachesIn(next, steps, middle, to);
    assert ReachesIn(next, steps + 1, from, to);
  }

  /** A set closed under the graph holds everything reachable from it. */
  lemma {:induction false} ClosedUnderReach(next: Graph, closed: set<Location>, steps: nat, from: Location,
      to: Location)
    requires forall at | at in closed :: next(at) <= closed
    requires from in closed && ReachesIn(next, steps, from, to)
    ensures to in closed
  {
    if steps > 0 {
      var middle :| middle in next(from) && ReachesIn(next, steps - 1, middle, to);
      ClosedUnderReach(next, closed, steps - 1, middle, to);
    }
  }

  /** A traversal from `starts` grew its marks from `before` to `after`: it marked every start, it
      finished whatever it newly marked, and it marked nothing out of reach. */
  ghost predicate Explored(next: Graph, starts: set<Location>, before: set<Location>, after: set<Location>) {
    && before + starts <= after
    && (forall at | at in after && at !in before :: next(at) <= after)
    && (forall at | at in after && at !in before :: exists start | start in starts :: Reaches(next, start, at))
  }

  lemma ExploredMore(next: Graph, done: set<Location>, start: Location, before: set<Location>, middle: set<Location>,
      after: set<Location>)
    requires Explored(next, done, before, middle) && Explored(next, {start}, middle, after)
    ensures Explored(next, done + {start}, before, after)
  {
    forall at | at in after && at !in before
      ensures next(at) <= after && exists from | from in done + {start} :: Reaches(next, from, at)
    {
      if at in middle {
        assert next(at) <= middle;
      }
    }
  }

  /** Exploring all successors of a freshly marked location explores that location. */
  lemma ExploredNode(next: Graph, at: Location, before: set<Location>, after: set<Location>)
    requires at !in before && Explored(next, next(at), before + {at}, after)
    ensures Explored(next, {at}, before, after)
  {
    ReachesSelf(next, at);
    forall found | found in after && found !in before
      ensures next(found) <= after && Reaches(next, at, found)
    {
      if found != at {
        var start :| start in next(at) && Reaches(next, start, found);
        ReachesThrough(next, at, start, found);
      }
    }
  }

  lemma ExploredNothing(next: Graph, marks: set<Location>)
    ensures Explored(next, {}, marks, marks)
  {
  }

  lemma ExploredAlready(next: Graph, at: Location, marks: set<Location>)
    requires at in marks
    ensures Explored(next, {at}, marks, marks)
  {
  }

  /** Exploring from the root with nothing marked marks exactly what the root reaches. */
  lemma ExploredExactly(next: Graph, marks: set<Location>)
    requires Explored(next, {[]}, {}, marks)
    ensures forall at :: at in marks <==> Reaches(next, [], at)
  {
    forall at | Reaches(next, [], at)
      ensures at in marks
    {
      var steps: nat :| ReachesIn(next, steps, [], at);
      ClosedUnderReach(next, marks, steps, [], at);
    }
  }

  // ----- safety -----

  ghost predicate SafeAt(engines: Engines, document: Value, at: Location) {
    At(document, at).Some? && LocallySafe(engines, At(document, at).value)
  }

  ghost predicate AllSafe(engines: Engines, document: Value, locations: set<Location>) {
    forall at | at in locations :: SafeAt(engines, document, at)
  }

  ghost predicate LeadsToUnsafe(engines: Engines, document: Value, anchors: Anchors, from: Location) {
    exists at :: Reaches(AuditGraph(engines, document, anchors), from, at) && !SafeAt(engines, document, at)
  }

  /** Safe is what the reader's terms call harmless. */
  lemma SafeExactly(engines: Engines, document: Value, at: Location)
    ensures SafeAt(engines, document, at) <==>
            At(document, at).Some? && Harmless(engines, At(document, at).value)
  {
    hide LocallySafe, Harmless, At;
    if At(document, at).Some? {
      LocallySafeExactly(engines, At(document, at).value);
    }
  }

  lemma AllSafeExactly(engines: Engines, document: Value, next: Graph)
    ensures (forall at | Reaches(next, [], at) :: SafeAt(engines, document, at)) <==>
            (forall at | Reaches(next, [], at) :: At(document, at).Some? && Harmless(engines, At(document, at).value))
  {
    hide SafeAt, Harmless, At, Reaches;
    forall at
      ensures SafeAt(engines, document, at) <==> At(document, at).Some? && Harmless(engines, At(document, at).value)
    {
      SafeExactly(engines, document, at);
    }
  }

  lemma UnsafeThrough(engines: Engines, document: Value, anchors: Anchors, at: Location, pending: set<Location>)
    requires pending == Successors(engines, document, anchors, at)
    requires exists next | next in pending :: LeadsToUnsafe(engines, document, anchors, next)
    ensures LeadsToUnsafe(engines, document, anchors, at)
  {
    hide Successors, SafeAt, Reaches;
    var graph := AuditGraph(engines, document, anchors);
    var next :| next in pending && LeadsToUnsafe(engines, document, anchors, next);
    var culprit :| Reaches(graph, next, culprit) && !SafeAt(engines, document, culprit);
    ReachesThrough(graph, at, next, culprit);
  }

  // ----- anchors -----

  ghost predicate Carries(document: Value, at: Location, name: string) {
    match At(document, at)
    case Some(Obj(schema)) => exists keyword | keyword in ANCHOR_KEYWORDS && keyword in schema ::
      schema[keyword] == Str(name)
    case _ => false
  }

  /** The index holds exactly the anchors of the indexed locations. */
  ghost predicate AnchorsExact(document: Value, anchors: Anchors, indexed: set<Location>) {
    forall name, at :: at in AnchorTargets(anchors, name) <==> at in indexed && Carries(document, at, name)
  }

  function AddAnchor(anchors: Anchors, schema: Schema, keyword: string, at: Location): Anchors {
    if keyword in schema && schema[keyword].Str?
    then anchors[schema[keyword].text := AnchorTargets(anchors, schema[keyword].text) + {at}]
    else anchors
  }

  function AddAnchors(anchors: Anchors, value: Value, at: Location): Anchors {
    match value
    case Obj(schema) => AddAnchor(AddAnchor(anchors, schema, "$anchor", at), schema, "$dynamicAnchor", at)
    case _ => anchors
  }

  lemma AddAnchorTargets(anchors: Anchors, schema: Schema, keyword: string, at: Location, name: string)
    ensures AnchorTargets(AddAnchor(anchors, schema, keyword, at), name) ==
            AnchorTargets(anchors, name) + (if keyword in schema && schema[keyword] == Str(name) then {at} else {})
  {
  }

  lemma CarriesHere(document: Value, at: Location, schema: Schema, name: string)
    requires At(document, at) == Some(Obj(schema))
    ensures Carries(document, at, name) <==>
            ("$anchor" in schema && schema["$anchor"] == Str(name)) ||
            ("$dynamicAnchor" in schema && schema["$dynamicAnchor"] == Str(name))
  {
    assert "$anchor" in ANCHOR_KEYWORDS && "$dynamicAnchor" in ANCHOR_KEYWORDS;
  }

  lemma AnchorsExtended(document: Value, anchors: Anchors, indexed: set<Location>, at: Location)
    requires AnchorsExact(document, anchors, indexed)
    requires At(document, at).Some?
    ensures AnchorsExact(document, AddAnchors(anchors, At(document, at).value, at), indexed + {at})
  {
    match At(document, at).value
    case Obj(schema) =>
      var once := AddAnchor(anchors, schema, "$anchor", at);
      var twice := AddAnchor(once, schema, "$dynamicAnchor", at);
      forall name, other
        ensures other in AnchorTargets(twice, name) <==> other in indexed + {at} && Carries(document, other, name)
      {
        CarriesHere(document, at, schema, name);
        hide AddAnchor, AnchorTargets, Carries;
        AddAnchorTargets(anchors, schema, "$anchor", at, name);
        AddAnchorTargets(once, schema, "$dynamicAnchor", at, name);
      }
    case _ =>
  }

  lemma ExactAnchorsExist(document: Value, anchors: Anchors, indexed: set<Location>)
    requires AnchorsExact(document, anchors, indexed)
    ensures AnchorsExist(document, anchors)
  {
    forall name, at | at in AnchorTargets(anchors, name)
      ensures At(document, at).Some?
    {
      assert Carries(document, at, name);
    }
  }

  /** The index follows parts and pointers; anchors are not known yet. */
  ghost function IndexGraph(engines: Engines, document: Value): Graph {
    at => Successors(engines, document, map[], at)
  }

  ghost function AuditGraph(engines: Engines, document: Value, anchors: Anchors): Graph {
    at => Successors(engines, document, anchors, at)
  }

  class SchemaAuditor {
    const engines: Engines
    const document: Value
    var visited: set<string>
    var indexed: set<string>
    var anchors: Anchors

    constructor (engines: Engines, document: Value)
      ensures this.engines == engines && this.document == document
      ensures visited == {} && indexed == {} && anchors == map[]
    {
      this.engines := engines;
      this.document := document;
      visited, indexed, anchors := {}, {}, map[];
    }

    ghost function Visited(): set<Location>
      reads this
    {
      Marked(document, visited)
    }

    ghost function Indexed(): set<Location>
      reads this
    {
      Marked(document, indexed)
    }

    ghost predicate Valid()
      reads this
    {
      AnchorsExact(document, anchors, Indexed())
    }

    /** `resolveLocalReference` under a given index. */
    method Resolve(index: Anchors, reference: string) returns (targets: set<Location>)
      requires reference != ""
      ensures targets == ReferenceTargets(engines, document, index, reference)
    {
      match engines.pathUnescape(reference[1..]) {
        case None => targets := {};
        case Some(fragment) =>
          if fragment == "" {
            targets := {[]};
          } else if fragment[0] != '/' {
            targets := AnchorTargets(index, fragment);
          } else {
            var valid := HasValidEscapes(fragment);
            targets := if valid && At(document, Tokens(fragment)).Some? then {Tokens(fragment)} else {};
          }
      }
    }

    /** The pending locations of one schema: its parts, then the targets of its two references. */
    method Pending(index: Anchors, at: Location) returns (pending: set<Location>)
      requires At(document, at).Some?
      requires AnchorsExist(document, index)
      ensures pending == Successors(engines, document, index, at)
      ensures forall next | next in pending :: At(document, next).Some?
    {
      match At(document, at).value {
        case Obj(schema) =>
          var refs, dynamicRefs := {}, {};
          if "$ref" in schema && IsFragment(schema["$ref"]) {
            refs := Resolve(index, schema["$ref"].text);
          }
          if "$dynamicRef" in schema && IsFragment(schema["$dynamicRef"]) {
            dynamicRefs := Resolve(index, schema["$dynamicRef"].text);
          }
          pending := Parts(at, schema) + refs + dynamicRefs;
        case _ =>
          pending := {};
      }
      forall next | next in pending
        ensures At(document, next).Some?
      {
        SuccessorExists(engines, document, index, at, next);
      }
    }

    /** `indexReachableSchemas` */
    method IndexReachableSchemas(at: Location)
      requires Valid() && At(document, at).Some?
      modifies this`indexed, this`anchors
      ensures Valid()
      ensures Explored(IndexGraph(engines, document), {at}, old(Indexed()), Indexed())
      decreases Locations(document) - Indexed(), 0
    {
      MarkedByText(document, indexed, at);
      if Render(at) in indexed {
        return;
      }
      ghost var graph, before := IndexGraph(engines, document), Indexed();
      MarkOne(document, indexed, at);
      var value := At(document, at).value;
      indexed := indexed + {Render(at)};
      anchors := AddAnchors(anchors, value, at);
      AnchorsExtended(document, old(anchors), before, at);
      var pending := Pending(map[], at);
      IndexAll(pending);
      ExploredNode(graph, at, before, Indexed());
    }

    method IndexAll(pending: set<Location>)
      requires Valid() && forall at | at in pending :: At(document, at).Some?
      modifies this`indexed, this`anchors
      ensures Valid()
      ensures Explored(IndexGraph(engines, document), pending, old(Indexed()), Indexed())
      decreases Locations(document) - Indexed(), 1
    {
      ghost var graph, before := IndexGraph(engines, document), Indexed();
      var done := {};
      while !(pending <= done)
        invariant Valid() && done <= pending
        invariant Explored(graph, done, before, Indexed())
        decreases pending - done
      {
        var at :| at in pending && at !in done;
        ghost var middle := Indexed();
        IndexReachableSchemas(at);
        ExploredMore(graph, done, at, before, middle, Indexed());
        done := done + {at};
      }
    }

    /** `auditSchema`: one location, then everything it leads to. */
    method AuditSchema(at: Location) returns (ok: bool)
      requires Valid() && At(document, at).Some?
      modifies this`visited
      ensures ok ==> Explored(AuditGraph(engines, document, anchors), {at}, old(Visited()), Visited())
      ensures ok ==> AllSafe(engines, document, Visited() - old(Visited()))
      ensures !ok ==> LeadsToUnsafe(engines, document, anchors, at)
      ensures old(Visited()) <= Visited()
      decreases Locations(document) - Visited(), 0
    {
      hide LocallySafe, AnchorsExact, Explored, Successors, Locations, At;
      MarkedByText(document, visited, at);
      ghost var graph, before := AuditGraph(engines, document, anchors), Visited();
      if Render(at) in visited {
        ExploredAlready(graph, at, before);
        return true;
      }
      MarkOne(document, visited, at);
      visited := visited + {Render(at)};
      if !LocallySafe(engines, At(document, at).value) {
        ReachesSelf(graph, at);
        return false;
      }
      ExactAnchorsExist(document, anchors, Indexed());
      var pending := Pending(anchors, at);
      ok := AuditAll(pending);
      if ok {
        ExploredNode(graph, at, before, Visited());
      } else {
        UnsafeThrough(engines, document, anchors, at, pending);
      }
    }

    method AuditAll(pending: set<Location>) returns (ok: bool)
      requires Valid() && forall at | at in pending :: At(document, at).Some?
      modifies this`visited
      ensures ok ==> Explored(AuditGraph(engines, document, anchors), pending, old(Visited()), Visited())
      ensures ok ==> AllSafe(engines, document, Visited() - old(Visited()))
      ensures !ok ==> exists at | at in pending :: LeadsToUnsafe(engines, document, anchors, at)
      ensures old(Visited()) <= Visited()
      decreases Locations(document) - Visited(), 1
    {
      hide LocallySafe, AnchorsExact, Explored, Successors, Locations, At;
      ghost var graph, before := AuditGraph(engines, document, anchors), Visited();
      var done := {};
      ExploredNothing(graph, before);
      while !(pending <= done)
        invariant Valid() && done <= pending && before <= Visited()
        invariant Explored(graph, done, before, Visited())
        invariant AllSafe(engines, document, Visited() - before)
        decreases pending - done
      {
        var at :| at in pending && at !in done;
        ghost var middle := Visited();
        ok := AuditSchema(at);
        if !ok {
          return false;
        }
        ExploredMore(graph, done, at, before, middle, Visited());
        done := done + {at};
      }
      assert done == pending;
      return true;
    }

    /** `auditSchemaDocument`: index, then audit, both from the root. */
    method AuditDocument() returns (ok: bool)
      requires visited == {} && indexed == {} && anchors == map[]
      modifies this
      ensures forall at :: at in Indexed() <==> Reaches(IndexGraph(engines, document), [], at)
      ensures AnchorsExact(document, anchors, Indexed())
      ensures ok <==> forall at | Reaches(AuditGraph(engines, document, anchors), [], at) ::
              SafeAt(engines, document, at)
      // In the reader's terms: exactly if every reachable schema is harmless.
      ensures ok <==> forall at | Reaches(AuditGraph(engines, document, anchors), [], at) ::
                        At(document, at).Some? && Harmless(engines, At(document, at).value)
      ensures ok ==> [] in Visited() && AuditClosed(engines, document, anchors, Visited())
      ensures ok ==> forall at :: at in Visited() <==> Reaches(AuditGraph(engines, document, anchors), [], at)
    {
      assert Indexed() == {} && Visited() == {};
      IndexReachableSchemas([]);
      ghost var indexGraph := IndexGraph(engines, document);
      ExploredExactly(indexGraph, Indexed());
      ok := AuditSchema([]);
      ghost var graph := AuditGraph(engines, document, anchors);
      AllSafeExactly(engines, document, graph);
      hide Harmless, LocallySafe;
      if ok {
        ExploredExactly(graph, Visited());
        assert Visited() - {} == Visited();
      }
    }
  }

  /** `compileSchema`: the root test, the audit, and then the compile step, whose guarantees are stated
      as `CompileGuarantees`. What it lets through never needs the runtime refusal. */
  method CompileSchema(c: Compiled) returns (ok: bool, anchors: Anchors, visited: set<string>)
    ensures ok <==>
              && c.document.Obj?
              && "type" in c.document.fields && c.document.fields["type"] == Str("object")
              && "additionalProperties" in c.document.fields && c.document.fields["additionalProperties"] == Bool(false)
              && forall at | Reaches(AuditGraph(c.engines, c.document, anchors), [], at) ::
                   At(c.document, at).Some? && Harmless(c.engines, At(c.document, at).value)
    ensures ok && CompileGuarantees(c, anchors, Marked(c.document, visited)) ==>
              forall value | Accepts(c, value) :: !ContainsReserved(value) && !HasReservedMember(value)
    ensures ok ==>
              forall at :: at in Marked(c.document, visited) <==>
                Reaches(AuditGraph(c.engines, c.document, anchors), [], at)
  {
    var auditor := new SchemaAuditor(c.engines, c.document);
    ok := auditor.AuditDocument();
    anchors, visited := auditor.anchors, auditor.visited;
    ok := ok && ClosedRootObject(c.document);
    ghost var audited := auditor.Visited();
    if ok && CompileGuarantees(c, anchors, audited) {
      AuditImpliesRuntimeCheck(c, anchors, audited);
      forall value | Accepts(c, value)
        ensures !HasReservedMember(value)
      {
        ContainsReservedExactly(value);
      }
    }
  }
}
