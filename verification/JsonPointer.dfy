/** JSON pointer tokens, their escaping, and locations inside a document.

    The schema auditor remembers where it has been by path text, so two facts carry the whole
    traversal: escaping loses nothing, and a path text names one location only. */
module JsonPointer {
  import opened Optional
  import opened Json

  type Token = string
  type Location = seq<Token>

  /** `strings.ReplaceAll` for a one-character pattern. */
  function ReplaceChar(text: string, pattern: char, with: string): string {
    if text == [] then []
    else (if text[0] == pattern then with else [text[0]]) + ReplaceChar(text[1..], pattern, with)
  }

  /** `strings.ReplaceAll` for the pattern `~mark`. */
  function ReplaceEscape(text: string, mark: char, with: char): string {
    if text == [] then []
    else if |text| >= 2 && text[0] == '~' && text[1] == mark then [with] + ReplaceEscape(text[2..], mark, with)
    else [text[0]] + ReplaceEscape(text[1..], mark, with)
  }

  function Escape(token: Token): string {
    ReplaceChar(ReplaceChar(token, '~', "~0"), '/', "~1")
  }

  /** Section 4 of RFC 6901: first `~1` becomes `/`, then `~0` becomes `~`. */
  function Unescape(text: string): Token {
    ReplaceEscape(ReplaceEscape(text, '1', '/'), '0', '~')
  }

  lemma {:induction false} ReplaceCharConcat(a: string, b: string, pattern: char, with: string)
    ensures ReplaceChar(a + b, pattern, with) == ReplaceChar(a, pattern, with) + ReplaceChar(b, pattern, with)
  {
    if a == [] {
      assert a + b == b;
    } else {
      var head := if a[0] == pattern then with else [a[0]];
      var x, y := ReplaceChar(a[1..], pattern, with), ReplaceChar(b, pattern, with);
      calc {
        ReplaceChar(a + b, pattern, with);
        { assert (a + b)[0] == a[0] && (a + b)[1..] == a[1..] + b; }
        head + ReplaceChar(a[1..] + b, pattern, with);
        { ReplaceCharConcat(a[1..], b, pattern, with); }
        head + (x + y);
        { assert head + (x + y) == (head + x) + y; }
        (head + x) + y;
      }
    }
  }

  /** What escaping does to the first character. */
  function EscapeChar(c: char): string {
    if c == '~' then "~0" else if c == '/' then "~1" else [c]
  }

  lemma EscapeStep(token: Token)
    requires token != []
    ensures Escape(token) == EscapeChar(token[0]) + Escape(token[1..])
  {
    var tail := ReplaceChar(token[1..], '~', "~0");
    if token[0] == '~' {
      ReplaceCharConcat("~0", tail, '/', "~1");
      assert ReplaceChar("~0", '/', "~1") == "~0" by {
        assert "~0"[1..] == "0";
        assert ReplaceChar("0", '/', "~1") == "0" + ReplaceChar("0"[1..], '/', "~1");
      }
    } else {
      ReplaceCharConcat([token[0]], tail, '/', "~1");
      assert ReplaceChar([token[0]], '/', "~1") == EscapeChar(token[0]);
    }
  }

  lemma {:induction false} EscapeHasNoSlash(token: Token)
    ensures '/' !in Escape(token)
  {
    if token != [] {
      EscapeStep(token);
      EscapeHasNoSlash(token[1..]);
    }
  }

  lemma EscapeHit(mark: char, with: char, rest: string)
    ensures ReplaceEscape(['~', mark] + rest, mark, with) == [with] + ReplaceEscape(rest, mark, with)
  {
    var text := ['~', mark] + rest;
    assert text[2..] == rest;
  }

  lemma EscapeMiss(c: char, rest: string, mark: char, with: char)
    requires c != '~' || rest == [] || rest[0] != mark
    ensures ReplaceEscape([c] + rest, mark, with) == [c] + ReplaceEscape(rest, mark, with)
  {
    var text := [c] + rest;
    assert text[1..] == rest;
  }

  lemma UnescapeSlashesStep(c: char, rest: string)
    ensures ReplaceEscape(EscapeChar(c) + rest, '1', '/') ==
            (if c == '~' then "~0" else [c]) + ReplaceEscape(rest, '1', '/')
  {
    hide ReplaceEscape;
    if c == '/' {
      EscapeHit('1', '/', rest);
    } else if c == '~' {
      EscapeMiss('~', ['0'] + rest, '1', '/');
      EscapeMiss('0', rest, '1', '/');
      assert "~0" + rest == ['~'] + (['0'] + rest);
      var done := ReplaceEscape(rest, '1', '/');
      assert ['~'] + (['0'] + done) == "~0" + done;
    } else {
      EscapeMiss(c, rest, '1', '/');
    }
  }

  lemma {:induction false} UnescapeSlashes(token: Token)
    ensures ReplaceEscape(Escape(token), '1', '/') == ReplaceChar(token, '~', "~0")
  {
    if token == [] {
      assert Escape(token) == "";
    } else {
      hide ReplaceEscape, Escape;
      EscapeStep(token);
      UnescapeSlashesStep(token[0], Escape(token[1..]));
      UnescapeSlashes(token[1..]);
    }
  }

  lemma {:induction false} UnescapeTildes(token: Token)
    ensures ReplaceEscape(ReplaceChar(token, '~', "~0"), '0', '~') == token
  {
    if token != [] {
      UnescapeTildes(token[1..]);
      var rest := ReplaceChar(token[1..], '~', "~0");
      if token[0] == '~' {
        EscapeHit('0', '~', rest);
      } else {
        EscapeMiss(token[0], rest, '0', '~');
      }
    }
  }

  /** Decoding inverts escaping, for every token. */
  lemma EscapeRoundTrip(token: Token)
    ensures Unescape(Escape(token)) == token
  {
    UnescapeSlashes(token);
    UnescapeTildes(token);
  }

  /** The text of a pointer: each token escaped and preceded by a slash. */
  function Pointer(at: Location): string {
    if at == [] then "" else "/" + Escape(at[0]) + Pointer(at[1..])
  }

  function NextSlash(text: string): (n: nat)
    ensures n <= |text|
    ensures '/' !in text[..n]
    ensures n < |text| ==> text[n] == '/'
  {
    if text == [] || text[0] == '/' then 0
    else
      var n := 1 + NextSlash(text[1..]);
      assert text[..n] == [text[0]] + text[1..][..n - 1];
      n
  }

  /** Section 3 of RFC 6901: split at the slashes and decode each token. */
  function Tokens(pointer: string): Location
    requires pointer == "" || pointer[0] == '/'
    decreases |pointer|
  {
    if pointer == "" then []
    else
      var n := NextSlash(pointer[1..]);
      [Unescape(pointer[1..][..n])] + Tokens(pointer[1..][n..])
  }

  lemma {:induction false} NextSlashAfter(token: string, rest: string)
    requires '/' !in token
    requires rest == "" || rest[0] == '/'
    ensures NextSlash(token + rest) == |token|
  {
    if token == [] {
      assert token + rest == rest;
    } else {
      NextSlashAfter(token[1..], rest);
      assert (token + rest)[1..] == token[1..] + rest;
    }
  }

  lemma TokensStep(token: string, rest: string)
    requires '/' !in token
    requires rest == "" || rest[0] == '/'
    ensures Tokens("/" + token + rest) == [Unescape(token)] + Tokens(rest)
  {
    hide Unescape, NextSlash;
    NextSlashAfter(token, rest);
    var text := token + rest;
    assert ("/" + token + rest)[1..] == text;
    assert text[..|token|] == token && text[|token|..] == rest;
  }

  /** Reading a pointer back yields the location it was written for. */
  lemma {:induction false} PointerRoundTrip(at: Location)
    ensures Pointer(at) == "" || Pointer(at)[0] == '/'
    ensures Tokens(Pointer(at)) == at
  {
    if at != [] {
      hide Tokens, Escape, Unescape;
      PointerRoundTrip(at[1..]);
      EscapeHasNoSlash(at[0]);
      EscapeRoundTrip(at[0]);
      TokensStep(Escape(at[0]), Pointer(at[1..]));
    }
  }

  lemma {:induction false} PointerConcat(a: Location, b: Location)
    ensures Pointer(a + b) == Pointer(a) + Pointer(b)
  {
    if a == [] {
      assert a + b == b;
    } else {
      var head, x, y := "/" + Escape(a[0]), Pointer(a[1..]), Pointer(b);
      calc {
        Pointer(a + b);
        { assert (a + b)[0] == a[0] && (a + b)[1..] == a[1..] + b; }
        head + Pointer(a[1..] + b);
        { PointerConcat(a[1..], b); }
        head + (x + y);
        { assert head + (x + y) == (head + x) + y; }
        (head + x) + y;
      }
    }
  }

  /** The auditor's text for a location. */
  function Render(at: Location): string {
    "#" + Pointer(at)
  }

  /** `schemaPath`: extend a path text by more tokens. */
  function SchemaPath(parent: string, tokens: Location): string {
    parent + Pointer(tokens)
  }

  lemma SchemaPathRenders(at: Location, tokens: Location)
    ensures SchemaPath(Render(at), tokens) == Render(at + tokens)
  {
    PointerConcat(at, tokens);
  }

  /** Two locations with one path text are one location: what lets the auditor skip by text. */
  lemma RenderInjective(a: Location, b: Location)
    requires Render(a) == Render(b)
    ensures a == b
  {
    assert Pointer(a) == Render(a)[1..];
    assert Pointer(b) == Render(b)[1..];
    PointerRoundTrip(a);
    PointerRoundTrip(b);
  }

  ghost predicate EscapesValid(pointer: string) {
    forall i | 0 <= i < |pointer| && pointer[i] == '~' ::
      i + 1 < |pointer| && pointer[i + 1] in "01"
  }

  /** `hasValidJSONPointerEscapes`: the scan steps over the mark after each tilde. */
  method HasValidEscapes(pointer: string) returns (ok: bool)
    ensures ok <==> EscapesValid(pointer)
  {
    var index := 0;
    while index < |pointer|
      invariant 0 <= index <= |pointer|
      invariant forall i | 0 <= i < index && pointer[i] == '~' :: i + 1 < |pointer| && pointer[i + 1] in "01"
    {
      if pointer[index] == '~' {
        if index + 1 >= |pointer| || pointer[index + 1] !in "01" {
          return false;
        }
        index := index + 1;
      }
      index := index + 1;
    }
    return true;
  }

  lemma EscapesValidConcat(a: string, b: string)
    requires EscapesValid(a) && EscapesValid(b)
    ensures EscapesValid(a + b)
  {
    forall i | 0 <= i < |a + b| && (a + b)[i] == '~'
      ensures i + 1 < |a + b| && (a + b)[i + 1] in "01"
    {
      if i < |a| {
        assert a[i] == '~';
      } else {
        assert b[i - |a|] == '~';
        assert (a + b)[i + 1] == b[i - |a| + 1];
      }
    }
  }

  lemma {:induction false} EscapeIsValid(token: Token)
    ensures EscapesValid(Escape(token))
  {
    if token != [] {
      EscapeStep(token);
      EscapeIsValid(token[1..]);
      EscapesValidConcat(EscapeChar(token[0]), Escape(token[1..]));
    }
  }

  /** Every pointer text the auditor writes passes its own escape check. */
  lemma {:induction false} PointerIsValid(at: Location)
    ensures EscapesValid(Pointer(at))
  {
    if at != [] {
      PointerIsValid(at[1..]);
      EscapeIsValid(at[0]);
      EscapesValidConcat("/", Escape(at[0]));
      EscapesValidConcat("/" + Escape(at[0]), Pointer(at[1..]));
    }
  }

  // ----- array indexes -----

  function Decimal(n: nat): string {
    if n < 10 then ["0123456789"[n]] else Decimal(n / 10) + ["0123456789"[n % 10]]
  }

  function DigitValue(c: char): nat {
    if '0' <= c <= '9' then (c - '0') as nat else 0
  }

  function DecimalValue(text: string): nat {
    if text == [] then 0 else 10 * DecimalValue(text[..|text| - 1]) + DigitValue(text[|text| - 1])
  }

  lemma {:induction false} DecimalRoundTrip(n: nat)
    ensures DecimalValue(Decimal(n)) == n
  {
    if n >= 10 {
      DecimalRoundTrip(n / 10);
      var high, low := Decimal(n / 10), "0123456789"[n % 10];
      assert Decimal(n) == high + [low];
      assert (high + [low])[..|high|] == high;
      assert DigitValue(low) == n % 10;
    }
  }

  /** Section 4 of RFC 6901: an array token is an index without leading zeros. */
  function Child(value: Value, token: Token): Option<Value> {
    match value
    case Obj(fields) => if token in fields then Some(fields[token]) else None
    case Arr(items) =>
      var index := DecimalValue(token);
      if Decimal(index) == token && index < |items| then Some(items[index]) else None
    case _ => None
  }

  function At(value: Value, at: Location): Option<Value> {
    if at == [] then Some(value)
    else match Child(value, at[0])
      case None => None
      case Some(child) => At(child, at[1..])
  }

  lemma {:induction false} AtConcat(value: Value, a: Location, b: Location)
    requires At(value, a).Some?
    ensures At(value, a + b) == At(At(value, a).value, b)
  {
    if a == [] {
      assert a + b == b;
    } else {
      AtConcat(Child(value, a[0]).value, a[1..], b);
      assert (a + b)[1..] == a[1..] + b;
    }
  }

  /** All locations of a document: a finite set, so a traversal that never repeats one ends. */
  ghost function Locations(value: Value): set<Location> {
    match value
    case Obj(fields) => {[]} + (set name, rest | name in fields && rest in Locations(fields[name]) :: [name] + rest)
    case Arr(items) => {[]} + (set i, rest | 0 <= i < |items| && rest in Locations(items[i]) :: [Decimal(i)] + rest)
    case _ => {[]}
  }

  lemma {:induction false} LocationsComplete(value: Value, at: Location)
    requires At(value, at).Some?
    ensures at in Locations(value)
    decreases |at|
  {
    if at != [] {
      var child := Child(value, at[0]).value;
      LocationsComplete(child, at[1..]);
      assert at == [at[0]] + at[1..];
    }
  }
}
