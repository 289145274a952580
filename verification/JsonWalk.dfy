/** The strict JSON walk in front of every decoded request: it consumes one value's tokens and refuses values
    nested too deeply and objects that repeat a name.

    The tokens are those that Go's decoder hands out. The decoder itself places commas and colons, refuses a
    closing delimiter of the wrong kind, and answers `More` by looking for any closing delimiter. */
module JsonWalk {

  import opened Optional

  const MAX_DEPTH: nat := 24

  datatype Kind = ObjectKind | ArrayKind

  datatype Token = Open(kind: Kind) | Close(kind: Kind) | Text(text: string) | Literal(literal: string)

  /** A JSON text as written: members in order, names possibly repeated. */
  datatype Tree = Leaf(text: string) | Scalar(literal: string) | Object(members: Members) | Array(elements: Elements)
  datatype Members = NoMember | Member(name: string, value: Tree, others: Members)
  datatype Elements = NoElement | Element(value: Tree, others: Elements)

  // ----- what a text is -----

  /** The value's tokens, and then the rest. */
  function TokensThen(v: Tree, rest: seq<Token>): seq<Token> {
    match v
    case Leaf(text) => [Text(text)] + rest
    case Scalar(literal) => [Literal(literal)] + rest
    case Object(members) => [Open(ObjectKind)] + MembersThen(members, [Close(ObjectKind)] + rest)
    case Array(elements) => [Open(ArrayKind)] + ElementsThen(elements, [Close(ArrayKind)] + rest)
  }

  function MembersThen(m: Members, rest: seq<Token>): seq<Token> {
    match m
    case NoMember => rest
    case Member(name, value, others) => [Text(name)] + TokensThen(value, MembersThen(others, rest))
  }

  function ElementsThen(e: Elements, rest: seq<Token>): seq<Token> {
    match e
    case NoElement => rest
    case Element(value, others) => TokensThen(value, ElementsThen(others, rest))
  }

  function Tokens(v: Tree): seq<Token> {
    TokensThen(v, [])
  }

  function Max(a: nat, b: nat): nat {
    if a < b then b else a
  }

  /** How many containers enclose the most deeply nested value. */
  function Depth(v: Tree): nat {
    match v
    case Object(members) => MembersDepth(members)
    case Array(elements) => ElementsDepth(elements)
    case _ => 0
  }

  function MembersDepth(m: Members): nat {
    if m.NoMember? then 0 else Max(1 + Depth(m.value), MembersDepth(m.others))
  }

  function ElementsDepth(e: Elements): nat {
    if e.NoElement? then 0 else Max(1 + Depth(e.value), ElementsDepth(e.others))
  }

  function Names(m: Members): seq<string> {
    if m.NoMember? then [] else [m.name] + Names(m.others)
  }

  predicate Distinct(names: seq<string>) {
    forall i, j | 0 <= i < j < |names| :: names[i] != names[j]
  }

  /** Names are unique in every object, at every level. */
  predicate Unambiguous(v: Tree) {
    match v
    case Object(members) => Distinct(Names(members)) && MembersUnambiguous(members)
    case Array(elements) => ElementsUnambiguous(elements)
    case _ => true
  }

  predicate MembersUnambiguous(m: Members) {
    m.Member? ==> Unambiguous(m.value) && MembersUnambiguous(m.others)
  }

  predicate ElementsUnambiguous(e: Elements) {
    e.Element? ==> Unambiguous(e.value) && ElementsUnambiguous(e.others)
  }

  predicate Fits(v: Tree, depth: nat) {
    depth + Depth(v) <= 24 && Unambiguous(v)
  }

  // ----- the walk, as a function of the tokens ahead -----

  predicate More(tokens: seq<Token>) {
    tokens != [] && !tokens[0].Close?
  }

  function Closing(tokens: seq<Token>, kind: Kind): (after: Option<seq<Token>>)
    ensures after.Some? ==> |after.value| < |tokens|
  {
    if tokens != [] && tokens[0] == Close(kind) then Some(tokens[1..]) else None
  }

  /** What is left after one value, if the walk accepts it. */
  function Walked(tokens: seq<Token>, depth: nat): (after: Option<seq<Token>>)
    ensures after.Some? ==> |after.value| < |tokens|
    decreases |tokens|, 0
  {
    if depth > MAX_DEPTH || tokens == [] then None
    else match tokens[0]
      case Open(ObjectKind) => MembersWalked(tokens[1..], depth, {})
      case Open(ArrayKind) => ElementsWalked(tokens[1..], depth)
      case Close(_) => None
      case _ => Some(tokens[1..])
  }

  function MembersWalked(tokens: seq<Token>, depth: nat, seen: set<string>): (after: Option<seq<Token>>)
    ensures after.Some? ==> |after.value| < |tokens|
    decreases |tokens|, 0
  {
    if !More(tokens) then Closing(tokens, ObjectKind)
    else if !tokens[0].Text? || tokens[0].text in seen then None
    else
      var value := Walked(tokens[1..], depth + 1);
      if value.None? then None else MembersWalked(value.value, depth, seen + {tokens[0].text})
  }

  function ElementsWalked(tokens: seq<Token>, depth: nat): (after: Option<seq<Token>>)
    ensures after.Some? ==> |after.value| < |tokens|
    decreases |tokens|, 1
  {
    if !More(tokens) then Closing(tokens, ArrayKind)
    else
      var value := Walked(tokens, depth + 1);
      if value.None? then None else ElementsWalked(value.value, depth)
  }

  // ----- the program -----

  class Decoder {
    const tokens: seq<Token>
    var position: nat

    ghost predicate Valid()
      reads this
    {
      position <= |tokens|
    }

    ghost function Ahead(): seq<Token>
      reads this
      requires Valid()
    {
      tokens[position..]
    }

    constructor (tokens: seq<Token>)
      ensures Valid() && Ahead() == tokens
    {
      this.tokens, position := tokens, 0;
    }

    /** The next token; nothing is left at the end. */
    method Token() returns (token: Option<Token>)
      requires Valid()
      modifies this
      ensures Valid() && (token.Some? <==> old(Ahead()) != [])
      ensures token.Some? ==> old(Ahead()) == [token.value] + Ahead()
      ensures token.None? ==> Ahead() == old(Ahead())
    {
      if position == |tokens| {
        return None;
      }
      token := Some(tokens[position]);
      position := position + 1;
    }

    method HasMore() returns (more: bool)
      requires Valid()
      ensures more <==> More(Ahead())
    {
      more := position < |tokens| && !tokens[position].Close?;
    }

    method Walk(depth: nat) returns (ok: bool)
      requires Valid()
      modifies this
      ensures Valid() && (ok <==> Walked(old(Ahead()), depth).Some?)
      ensures ok ==> Ahead() == Walked(old(Ahead()), depth).value
      ensures |Ahead()| <= |old(Ahead())|
      decreases |Ahead()|, 0
    {
      if depth > MAX_DEPTH {
        return false;
      }
      ghost var start := Ahead();
      var first := Token();
      if first.None? {
        return false;
      }
      assert Ahead() == start[1..];
      match first.value {
        case Open(ObjectKind) =>
          ok := WalkMembers(depth);
        case Open(ArrayKind) =>
          ok := WalkElements(depth);
        case Close(_) =>
          ok := false;
        case _ =>
          ok := true;
      }
    }

    method WalkMembers(depth: nat) returns (ok: bool)
      requires Valid()
      modifies this
      ensures Valid() && (ok <==> MembersWalked(old(Ahead()), depth, {}).Some?)
      ensures ok ==> Ahead() == MembersWalked(old(Ahead()), depth, {}).value
      ensures |Ahead()| <= |old(Ahead())|
      decreases |Ahead()|, 1
    {
      var seen: set<string> := {};
      ghost var whole := MembersWalked(Ahead(), depth, {});
      var more := HasMore();
      while more
        invariant Valid() && more == More(Ahead()) && |Ahead()| <= |old(Ahead())|
        invariant MembersWalked(Ahead(), depth, seen) == whole
        decreases |Ahead()|
      {
        ghost var before := Ahead();
        var key := Token();
        assert Ahead() == before[1..];
        if key.None? || !key.value.Text? || key.value.text in seen {
          return false;
        }
        var inner := Walk(depth + 1);
        if !inner {
          return false;
        }
        seen := seen + {key.value.text};
        more := HasMore();
      }
      ok := WalkClosing(ObjectKind);
    }

    method WalkElements(depth: nat) returns (ok: bool)
      requires Valid()
      modifies this
      ensures Valid() && (ok <==> ElementsWalked(old(Ahead()), depth).Some?)
      ensures ok ==> Ahead() == ElementsWalked(old(Ahead()), depth).value
      ensures |Ahead()| <= |old(Ahead())|
      decreases |Ahead()|, 1
    {
      ghost var whole := ElementsWalked(Ahead(), depth);
      var more := HasMore();
      while more
        invariant Valid() && more == More(Ahead()) && |Ahead()| <= |old(Ahead())|
        invariant ElementsWalked(Ahead(), depth) == whole
        decreases |Ahead()|
      {
        var inner := Walk(depth + 1);
        if !inner {
          return false;
        }
        more := HasMore();
      }
      ok := WalkClosing(ArrayKind);
    }

    method WalkClosing(kind: Kind) returns (ok: bool)
      requires Valid()
      modifies this
      ensures Valid() && (ok <==> Closing(old(Ahead()), kind).Some?)
      ensures ok ==> Ahead() == Closing(old(Ahead()), kind).value
      ensures |Ahead()| <= |old(Ahead())|
    {
      ghost var start := Ahead();
      var last := Token();
      ok := last == Some(Close(kind));
      assert ok ==> Ahead() == start[1..];
    }
  }

  /** The first half of `DecodeJSON`: one value from depth zero, and then the end. */
  method AcceptsText(tokens: seq<Token>) returns (ok: bool)
    ensures ok <==> exists v :: Fits(v, 0) && tokens == Tokens(v)
  {
    var decoder := new Decoder(tokens);
    ok := decoder.Walk(0);
    if ok {
      var end := decoder.Token();
      ok := end.None?;
    }
    WalkedExactly(tokens);
  }

  // ----- which texts the walk accepts -----

  /** On a value's tokens the walk stops exactly behind the value, and accepts it exactly if it fits. */
  lemma {:induction false} ValueWalked(v: Tree, rest: seq<Token>, depth: nat)
    ensures Walked(TokensThen(v, rest), depth) == if Fits(v, depth) then Some(rest) else None
    decreases v
  {
    if depth <= MAX_DEPTH {
      match v {
        case Object(members) =>
          assert TokensThen(v, rest)[1..] == MembersThen(members, [Close(ObjectKind)] + rest);
          AllMembersWalked(members, rest, depth, {});
        case Array(elements) =>
          assert TokensThen(v, rest)[1..] == ElementsThen(elements, [Close(ArrayKind)] + rest);
          AllElementsWalked(elements, rest, depth);
        case _ =>
          assert TokensThen(v, rest)[1..] == rest;
      }
    }
  }

  predicate MembersFit(m: Members, depth: nat, seen: set<string>) {
    && depth + MembersDepth(m) <= MAX_DEPTH && MembersUnambiguous(m)
    && Distinct(Names(m)) && forall name | name in Names(m) :: name !in seen
  }

  lemma {:induction false} AllMembersWalked(m: Members, rest: seq<Token>, depth: nat, seen: set<string>)
    requires depth <= MAX_DEPTH
    ensures MembersWalked(MembersThen(m, [Close(ObjectKind)] + rest), depth, seen)
            == if MembersFit(m, depth, seen) then Some(rest) else None
    decreases m
  {
    var tail := [Close(ObjectKind)] + rest;
    var tokens := MembersThen(m, tail);
    if m.NoMember? {
      assert tokens[1..] == rest;
    } else {
      var next := MembersThen(m.others, tail);
      assert tokens[1..] == TokensThen(m.value, next);
      ValueWalked(m.value, next, depth + 1);
      AllMembersWalked(m.others, rest, depth, seen + {m.name});
      OneMoreFits(m, depth, seen);
    }
  }

  lemma OneMoreFits(m: Members, depth: nat, seen: set<string>)
    requires m.Member?
    ensures MembersFit(m, depth, seen) <==>
            m.name !in seen && Fits(m.value, depth + 1) && MembersFit(m.others, depth, seen + {m.name})
  {
    var names, others := Names(m), Names(m.others);
    assert names == [m.name] + others;
    assert m.name in names && forall name | name in others :: name in names;
    if MembersFit(m, depth, seen) {
      forall name | name in others ensures name !in seen + {m.name} {
        var i :| 0 <= i < |others| && others[i] == name;
        assert names[0] != names[i + 1];
      }
      forall i, j | 0 <= i < j < |others| ensures others[i] != others[j] {
        assert names[i + 1] != names[j + 1];
      }
    }
    if m.name !in seen && MembersFit(m.others, depth, seen + {m.name}) {
      assert forall j | 0 <= j < |others| :: others[j] in others;
    }
  }

  lemma {:induction false} AllElementsWalked(e: Elements, rest: seq<Token>, depth: nat)
    requires depth <= MAX_DEPTH
    ensures ElementsWalked(ElementsThen(e, [Close(ArrayKind)] + rest), depth)
            == if depth + ElementsDepth(e) <= MAX_DEPTH && ElementsUnambiguous(e) then Some(rest) else None
    decreases e
  {
    var tail := [Close(ArrayKind)] + rest;
    var tokens := ElementsThen(e, tail);
    if e.NoElement? {
      assert tokens[1..] == rest;
    } else {
      var next := ElementsThen(e.others, tail);
      assert tokens == TokensThen(e.value, next) && More(tokens);
      ValueWalked(e.value, next, depth + 1);
      AllElementsWalked(e.others, rest, depth);
    }
  }

  /** Whatever the walk accepts is a value's tokens. */
  lemma {:induction false} ReadBack(tokens: seq<Token>, depth: nat) returns (v: Tree)
    requires Walked(tokens, depth).Some?
    ensures tokens == TokensThen(v, Walked(tokens, depth).value)
    decreases |tokens|, 0
  {
    match tokens[0] {
      case Open(ObjectKind) =>
        var members := MembersReadBack(tokens[1..], depth, {});
        v := Object(members);
      case Open(ArrayKind) =>
        var elements := ElementsReadBack(tokens[1..], depth);
        v := Array(elements);
      case Text(text) =>
        v := Leaf(text);
      case Literal(literal) =>
        v := Scalar(literal);
    }
  }

  lemma {:induction false} MembersReadBack(tokens: seq<Token>, depth: nat, seen: set<string>) returns (m: Members)
    requires MembersWalked(tokens, depth, seen).Some?
    ensures tokens == MembersThen(m, [Close(ObjectKind)] + MembersWalked(tokens, depth, seen).value)
    decreases |tokens|, 0
  {
    if More(tokens) {
      var value := ReadBack(tokens[1..], depth + 1);
      var others := MembersReadBack(Walked(tokens[1..], depth + 1).value, depth, seen + {tokens[0].text});
      m := Member(tokens[0].text, value, others);
      assert tokens == [tokens[0]] + tokens[1..];
    } else {
      m := NoMember;
    }
  }

  lemma {:induction false} ElementsReadBack(tokens: seq<Token>, depth: nat) returns (e: Elements)
    requires ElementsWalked(tokens, depth).Some?
    ensures tokens == ElementsThen(e, [Close(ArrayKind)] + ElementsWalked(tokens, depth).value)
    decreases |tokens|, 1
  {
    if More(tokens) {
      var value := ReadBack(tokens, depth + 1);
      var others := ElementsReadBack(Walked(tokens, depth + 1).value, depth);
      e := Element(value, others);
    } else {
      e := NoElement;
    }
  }

  /** The walk reads a whole text exactly if the text is a value nested at most 24 deep whose objects have unique
      names at every level. */
  lemma WalkedExactly(tokens: seq<Token>)
    ensures Walked(tokens, 0) == Some([]) <==> exists v :: Fits(v, 0) && tokens == Tokens(v)
  {
    if Walked(tokens, 0) == Some([]) {
      var v := ReadBack(tokens, 0);
      ValueWalked(v, [], 0);
      assert Fits(v, 0) && tokens == Tokens(v);
    }
    forall v | Fits(v, 0) && tokens == Tokens(v)
      ensures Walked(tokens, 0) == Some([])
    {
      ValueWalked(v, [], 0);
    }
  }

  /** The rest behind a value plays no part in its tokens. */
  lemma {:induction false} TokensAppended(v: Tree, first: seq<Token>, rest: seq<Token>)
    ensures TokensThen(v, first) + rest == TokensThen(v, first + rest)
    decreases v
  {
    match v {
      case Object(members) =>
        MembersAppended(members, [Close(ObjectKind)] + first, rest);
        assert [Close(ObjectKind)] + first + rest == [Close(ObjectKind)] + (first + rest);
      case Array(elements) =>
        ElementsAppended(elements, [Close(ArrayKind)] + first, rest);
        assert [Close(ArrayKind)] + first + rest == [Close(ArrayKind)] + (first + rest);
      case _ =>
    }
  }

  lemma {:induction false} MembersAppended(m: Members, first: seq<Token>, rest: seq<Token>)
    ensures MembersThen(m, first) + rest == MembersThen(m, first + rest)
    decreases m
  {
    if m.Member? {
      TokensAppended(m.value, MembersThen(m.others, first), rest);
      MembersAppended(m.others, first, rest);
    }
  }

  lemma {:induction false} ElementsAppended(e: Elements, first: seq<Token>, rest: seq<Token>)
    ensures ElementsThen(e, first) + rest == ElementsThen(e, first + rest)
    decreases e
  {
    if e.Element? {
      TokensAppended(e.value, ElementsThen(e.others, first), rest);
      ElementsAppended(e.others, first, rest);
    }
  }

  /** One value's tokens and no more: what follows is left untouched, and does not change the verdict. */
  lemma ConsumesOneValue(v: Tree, rest: seq<Token>, depth: nat)
    ensures Walked(Tokens(v) + rest, depth) == if Fits(v, depth) then Some(rest) else None
  {
    TokensAppended(v, [], rest);
    assert [] + rest == rest;
    ValueWalked(v, rest, depth);
  }
}
