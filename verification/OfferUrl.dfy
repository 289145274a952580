/** The one spelling under which an offer enters the queue. Two spellings of one offer must not become two
    queue items, and two offers must not become one. */
module OfferUrl {
  import opened Optional

  const HOST := "https://detail.1688.com"
  const PORT := ":443"
  const FOLDER := "/offer/"
  const SUFFIX := ".html"

  predicate IsDigit(c: char) {
    '0' <= c <= '9'
  }

  function StripPrefix(text: string, prefix: string): Option<string> {
    if prefix <= text then Some(text[|prefix|..]) else None
  }

  function LeadingDigits(text: string): (n: nat)
    ensures n <= |text|
    ensures forall i | 0 <= i < n :: IsDigit(text[i])
    ensures n < |text| ==> !IsDigit(text[n])
  {
    if text == [] || !IsDigit(text[0]) then 0 else 1 + LeadingDigits(text[1..])
  }

  /** `[1-9][0-9]{0,19}` */
  predicate IsOfferId(id: string) {
    1 <= |id| <= 20 && id[0] != '0' && forall i | 0 <= i < |id| :: IsDigit(id[i])
  }

  /** `(?:[?#].*)?$`, where the dot does not match a line feed. */
  predicate IsTail(tail: string) {
    tail == "" || (tail[0] in "?#" && '\n' !in tail[1..])
  }

  function Canonical(id: string): string {
    HOST + (FOLDER + (id + SUFFIX))
  }

  /** `offerURL` */
  function Normalize(raw: string): Option<string> {
    match StripPrefix(raw, HOST)
    case None => None
    case Some(afterHost) =>
      var afterPort := if PORT <= afterHost then afterHost[|PORT|..] else afterHost;
      match StripPrefix(afterPort, FOLDER)
      case None => None
      case Some(afterFolder) =>
        var n := LeadingDigits(afterFolder);
        if !IsOfferId(afterFolder[..n]) then None
        else match StripPrefix(afterFolder[n..], SUFFIX)
          case None => None
          case Some(tail) => if IsTail(tail) then Some(Canonical(afterFolder[..n])) else None
  }

  /** The spellings of one offer that the pattern admits. */
  predicate Spells(raw: string, id: string, port: string, tail: string) {
    && IsOfferId(id) && (port == "" || port == PORT) && IsTail(tail)
    && raw == HOST + (port + (FOLDER + (id + (SUFFIX + tail))))
  }

  lemma StripConcat(prefix: string, rest: string)
    ensures StripPrefix(prefix + rest, prefix) == Some(rest)
  {
  }

  lemma Rejoin(text: string, prefix: string)
    requires prefix <= text
    ensures text == prefix + text[|prefix|..]
  {
  }

  lemma {:induction false} LeadingDigitsOf(digits: string, rest: string)
    requires forall i | 0 <= i < |digits| :: IsDigit(digits[i])
    requires rest != "" && !IsDigit(rest[0])
    ensures LeadingDigits(digits + rest) == |digits|
  {
    if digits == [] {
      assert digits + rest == rest;
    } else {
      LeadingDigitsOf(digits[1..], rest);
      assert (digits + rest)[1..] == digits[1..] + rest;
    }
  }

  /** Every spelling of an offer is accepted and reduced to its canonical form. */
  lemma SpellingsNormalize(raw: string, id: string, port: string, tail: string)
    requires Spells(raw, id, port, tail)
    ensures Normalize(raw) == Some(Canonical(id))
  {
    var afterId := SUFFIX + tail;
    var afterFolder := id + afterId;
    var afterPort := FOLDER + afterFolder;
    var afterHost := port + afterPort;
    StripConcat(HOST, afterHost);
    StripConcat(FOLDER, afterFolder);
    StripConcat(SUFFIX, tail);
    if port == "" {
      assert afterHost == afterPort && afterHost[0] == '/';
    } else {
      assert PORT <= afterHost && afterHost[|PORT|..] == afterPort;
    }
    assert afterId[0] == '.';
    LeadingDigitsOf(id, afterId);
    assert afterFolder[..|id|] == id && afterFolder[|id|..] == afterId;
  }

  /** Only spellings of an offer are accepted. */
  lemma OnlySpellings(raw: string) returns (id: string, port: string, tail: string)
    requires Normalize(raw).Some?
    ensures Spells(raw, id, port, tail) && Normalize(raw) == Some(Canonical(id))
  {
    hide IsTail, LeadingDigits;
    var afterHost := raw[|HOST|..];
    Rejoin(raw, HOST);
    port := if PORT <= afterHost then PORT else "";
    var afterPort := afterHost[|port|..];
    Rejoin(afterHost, port);
    var afterFolder := afterPort[|FOLDER|..];
    Rejoin(afterPort, FOLDER);
    var n := LeadingDigits(afterFolder);
    id := afterFolder[..n];
    Rejoin(afterFolder, id);
    var afterId := afterFolder[n..];
    tail := afterId[|SUFFIX|..];
    Rejoin(afterId, SUFFIX);
  }

  lemma CanonicalInjective(a: string, b: string)
    requires Canonical(a) == Canonical(b)
    ensures a == b
  {
    assert Canonical(a)[|HOST|..] == FOLDER + (a + SUFFIX);
    assert Canonical(b)[|HOST|..] == FOLDER + (b + SUFFIX);
    assert (FOLDER + (a + SUFFIX))[|FOLDER|..] == a + SUFFIX;
    assert (FOLDER + (b + SUFFIX))[|FOLDER|..] == b + SUFFIX;
    assert a == (a + SUFFIX)[..|a + SUFFIX| - |SUFFIX|];
    assert b == (b + SUFFIX)[..|b + SUFFIX| - |SUFFIX|];
  }

  /** Two accepted spellings meet in one queue item exactly when they name one offer; the canonical form
      is its own canonical form. */
  lemma OneUrlPerOffer(raw1: string, id1: string, port1: string, tail1: string,
                       raw2: string, id2: string, port2: string, tail2: string)
    requires Spells(raw1, id1, port1, tail1) && Spells(raw2, id2, port2, tail2)
    ensures Normalize(raw1) == Normalize(raw2) <==> id1 == id2
    ensures Normalize(Canonical(id1)) == Some(Canonical(id1))
  {
    SpellingsNormalize(raw1, id1, port1, tail1);
    SpellingsNormalize(raw2, id2, port2, tail2);
    if Canonical(id1) == Canonical(id2) {
      CanonicalInjective(id1, id2);
    }
    assert SUFFIX + "" == SUFFIX;
    assert "" + (FOLDER + (id1 + SUFFIX)) == FOLDER + (id1 + SUFFIX);
    SpellingsNormalize(Canonical(id1), id1, "", "");
  }
}
