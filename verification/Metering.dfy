/** What a governed text call costs: provider cost in micros, retail points, and the quote that bounds both
    before the call is made. Big integers are Dafny's; where the program narrows to 64 bits, so does the model. */
module Metering {

  import opened Optional
  import opened Widths

  const MILLION: int := 1_000_000
  const FRAMING: int := 1024

  /** `named` stands for the tariff's version text being well formed. */
  datatype Tariff = Tariff(named: bool, inputRate: int, outputRate: int) {
    predicate Valid() {
      named && inputRate > 0 && outputRate > 0
    }

    /** The exact price in millionths of a point. */
    function Exact(prompt: int, completion: int): int {
      prompt * inputRate + completion * outputRate
    }
  }

  /** `textFacts` stands for the eleven route and version texts being well formed. */
  datatype Profile = Profile(
    textFacts: bool, adapterKind: string, currency: string, tariff: Tariff, inputRate: int, outputRate: int,
    maxPrompt: int, maxCompletion: int, maxInputBytes: int, maxOutputBytes: int, deadlineNanos: int
  ) {
    /** The exact cost in millionths of a micro. */
    function Exact(prompt: int, completion: int): int {
      prompt * inputRate + completion * outputRate
    }

    predicate Admits(prompt: int, completion: int) {
      0 <= prompt <= maxPrompt && 0 <= completion <= maxCompletion
    }

    predicate InRange() {
      && textFacts && adapterKind in {"openai-compatible", "claude-native", "google-interactions"}
      && |currency| == 3 && tariff.Valid()
      && 0 < inputRate <= 1_000_000_000_000 && 0 < outputRate <= 1_000_000_000_000
      && 1 <= maxPrompt <= 1048576 && 1 <= maxCompletion <= 65536
      && 1 <= maxInputBytes <= 0x10_0000 && 1 <= maxOutputBytes <= 0x10_0000
      && 0 < deadlineNanos <= 120_000_000_000
    }
  }

  /** The least whole number of millions that covers the amount. */
  ghost predicate IsCeiling(amount: int, millions: int) {
    (millions - 1) * MILLION < amount <= millions * MILLION
  }

  function CeilMillion(amount: int): (r: int)
    ensures IsCeiling(amount, r)
  {
    (amount + 999999) / MILLION
  }

  /** Each of the two terms is rounded up on its own. */
  function Cost(p: Profile, prompt: int, completion: int): int {
    CeilMillion(prompt * p.inputRate) + CeilMillion(completion * p.outputRate)
  }

  /** The two terms are rounded up together. */
  function PointCount(t: Tariff, prompt: int, completion: int): int {
    CeilMillion(t.Exact(prompt, completion))
  }

  // ----- the program -----

  method CostFor(p: Profile, prompt: int, completion: int) returns (r: Option<int>)
    ensures r.Some? <==>
              p.Admits(prompt, completion) && p.inputRate > 0 && p.outputRate > 0 &&
              Cost(p, prompt, completion) <= INT64_MAX
    ensures r.Some? ==> r.value == Cost(p, prompt, completion) && 0 <= r.value
    // Each term is rounded up on its own.
    ensures r.Some? ==> exists input, output ::
              && IsCeiling(prompt * p.inputRate, input) && IsCeiling(completion * p.outputRate, output)
              && r.value == input + output
  {
    if prompt < 0 || completion < 0 || prompt > p.maxPrompt || completion > p.maxCompletion || p.inputRate <= 0 ||
      p.outputRate <= 0 {
      return None;
    }
    var cost := CeilMicros(prompt, p.inputRate);
    var output := CeilMicros(completion, p.outputRate);
    cost := cost + output;
    CostCovers(p, prompt, completion);
    CostIsTwoCeilings(p, prompt, completion);
    ExactNonNegative(prompt, p.inputRate, completion, p.outputRate);
    if !Int64(cost) {
      return None;
    }
    return Some(cost);
  }

  method CeilMicros(tokens: int, rate: int) returns (amount: int)
    ensures amount == CeilMillion(tokens * rate)
  {
    amount := tokens * rate;
    amount := amount + 999999;
    amount := amount / MILLION;
  }

  method Points(t: Tariff, prompt: int, completion: int) returns (r: Option<int>)
    ensures r.Some? <==> t.Valid() && prompt >= 0 && completion >= 0 && PointCount(t, prompt, completion) <= INT64_MAX
    ensures r.Some? ==> r.value == PointCount(t, prompt, completion) && 0 <= r.value
  {
    if !t.Valid() || prompt < 0 || completion < 0 {
      return None;
    }
    var sum := prompt * t.inputRate;
    sum := sum + completion * t.outputRate;
    ExactNonNegative(prompt, t.inputRate, completion, t.outputRate);
    sum := sum + 999999;
    sum := sum / MILLION;
    if !Int64(sum) {
      return None;
    }
    return Some(sum);
  }

  /** `Validate`. The cost of the maxima is computed too, but within the rate and token bounds it never fails. */
  method Validate(p: Profile) returns (ok: bool)
    ensures ok <==> Validated(p)
    ensures ok ==> p.textFacts && p.tariff.named && |p.currency| == 3
    ensures ok ==> p.tariff.inputRate > 0 && p.tariff.outputRate > 0
    ensures ok ==> p.adapterKind in {"openai-compatible", "claude-native", "google-interactions"}
    ensures ok ==> 0 < p.inputRate <= 1_000_000_000_000 && 0 < p.outputRate <= 1_000_000_000_000
    ensures ok ==> 1 <= p.maxPrompt <= 1_048_576 && 1 <= p.maxCompletion <= 65_536
    ensures ok ==> 1 <= p.maxInputBytes <= 1_048_576 && 1 <= p.maxOutputBytes <= 1_048_576
    ensures ok ==> 0 < p.deadlineNanos <= 120_000_000_000
  {
    if !p.InRange() {
      return false;
    }
    var points := Points(p.tariff, p.maxPrompt, p.maxCompletion);
    if points.None? {
      return false;
    }
    var cost := CostFor(p, p.maxPrompt, p.maxCompletion);
    RatesBoundCost(p, p.maxPrompt, p.maxCompletion);
    return cost.Some?;
  }

  ghost predicate Validated(p: Profile) {
    p.InRange() && p.tariff.Exact(p.maxPrompt, p.maxCompletion) <= INT64_MAX * MILLION
  }

  /** The input hash and the profile digest are modelled as what they are taken of. */
  datatype TextQuote = TextQuote(input: string, profile: Profile, maximumTokens: int, maximumCost: int,
      currency: string)

  /** `QuoteText`, for an envelope that serializes to `wire`, one character a byte; `envelopeHolds` stands for the
      checks on identities, operation and texts. */
  method QuoteText(p: Profile, envelopeHolds: bool, wire: string) returns (q: Option<TextQuote>)
    ensures q.Some? <==>
              Validated(p) && envelopeHolds && |wire| + FRAMING <= p.maxInputBytes && |wire| + FRAMING <= p.maxPrompt
    ensures q.Some? ==> Quotes(p, wire, q.value)
    ensures q.Some? ==> q.value.maximumTokens == |wire| + 1024 + p.maxCompletion <= p.maxPrompt + p.maxCompletion
    ensures q.Some? ==> |wire| + 1024 <= p.maxInputBytes && q.value.currency == p.currency
  {
    var valid := Validate(p);
    if !valid || !envelopeHolds || |wire| + FRAMING > p.maxInputBytes || |wire| + FRAMING > p.maxPrompt {
      return None;
    }
    var promptBound := |wire| + FRAMING;
    var cost := CostFor(p, promptBound, p.maxCompletion);
    RatesBoundCost(p, promptBound, p.maxCompletion);
    if cost.None? {
      return None;
    }
    return Some(TextQuote(wire, p, promptBound + p.maxCompletion, cost.value, p.currency));
  }

  ghost predicate Quotes(p: Profile, wire: string, q: TextQuote) {
    q == TextQuote(wire, p, |wire| + FRAMING + p.maxCompletion, Cost(p, |wire| + FRAMING, p.maxCompletion), p.currency)
  }

  // ----- what a charge means -----

  lemma ExactNonNegative(a: int, rate: int, b: int, other: int)
    requires a >= 0 && b >= 0 && rate > 0 && other > 0
    ensures a * rate >= 0 && b * other >= 0
  {
  }

  lemma ProductGrows(a: int, b: int, rate: int)
    requires a <= b && rate > 0
    ensures a * rate <= b * rate
  {
  }

  lemma CeilingGrows(a: int, b: int)
    requires a <= b
    ensures CeilMillion(a) <= CeilMillion(b)
  {
  }

  /** The charge is the sum of two ceilings, and no other number is. */
  lemma CostIsTwoCeilings(p: Profile, prompt: int, completion: int)
    ensures exists input, output ::
              && IsCeiling(prompt * p.inputRate, input) && IsCeiling(completion * p.outputRate, output)
              && Cost(p, prompt, completion) == input + output
    ensures forall input, output |
              IsCeiling(prompt * p.inputRate, input) && IsCeiling(completion * p.outputRate, output) ::
              Cost(p, prompt, completion) == input + output
  {
    var input, output := CeilMillion(prompt * p.inputRate), CeilMillion(completion * p.outputRate);
    assert IsCeiling(prompt * p.inputRate, input) && IsCeiling(completion * p.outputRate, output);
    forall i, o | IsCeiling(prompt * p.inputRate, i) && IsCeiling(completion * p.outputRate, o)
      ensures i == input && o == output
    {
      OneCeiling(prompt * p.inputRate, i, input);
      OneCeiling(completion * p.outputRate, o, output);
    }
  }

  lemma OneCeiling(amount: int, a: int, b: int)
    requires IsCeiling(amount, a) && IsCeiling(amount, b)
    ensures a == b
  {
  }

  /** A call is never charged less than its exact cost and never two micros more. */
  lemma CostCovers(p: Profile, prompt: int, completion: int)
    ensures p.Exact(prompt, completion) <= Cost(p, prompt, completion) * MILLION < p.Exact(prompt, completion)
            + 2 * MILLION
  {
    var input, output := prompt * p.inputRate, completion * p.outputRate;
    assert IsCeiling(input, CeilMillion(input)) && IsCeiling(output, CeilMillion(output));
  }

  /** Points are the least whole number that covers the exact price: never a whole point more. */
  lemma PointsCover(t: Tariff, prompt: int, completion: int)
    ensures IsCeiling(t.Exact(prompt, completion), PointCount(t, prompt, completion))
    ensures t.Exact(prompt, completion) <= PointCount(t, prompt, completion) * MILLION < t.Exact(prompt, completion)
            + MILLION
  {
  }

  lemma CostGrows(p: Profile, prompt: int, completion: int, morePrompt: int, moreCompletion: int)
    requires prompt <= morePrompt && completion <= moreCompletion && p.inputRate > 0 && p.outputRate > 0
    ensures Cost(p, prompt, completion) <= Cost(p, morePrompt, moreCompletion)
  {
    ProductGrows(prompt, morePrompt, p.inputRate);
    ProductGrows(completion, moreCompletion, p.outputRate);
    CeilingGrows(prompt * p.inputRate, morePrompt * p.inputRate);
    CeilingGrows(completion * p.outputRate, moreCompletion * p.outputRate);
  }

  lemma PointsGrow(t: Tariff, prompt: int, completion: int, morePrompt: int, moreCompletion: int)
    requires prompt <= morePrompt && completion <= moreCompletion && t.inputRate > 0 && t.outputRate > 0
    ensures PointCount(t, prompt, completion) <= PointCount(t, morePrompt, moreCompletion)
  {
    ProductGrows(prompt, morePrompt, t.inputRate);
    ProductGrows(completion, moreCompletion, t.outputRate);
    CeilingGrows(t.Exact(prompt, completion), t.Exact(morePrompt, moreCompletion));
  }

  /** Splitting a call in two never makes it cheaper. */
  lemma SplittingNeverSaves(p: Profile, prompt: int, completion: int, nextPrompt: int, nextCompletion: int)
    ensures Cost(p, prompt + nextPrompt, completion + nextCompletion) <= Cost(p, prompt, completion)
            + Cost(p, nextPrompt, nextCompletion)
  {
    Distributes(prompt, nextPrompt, p.inputRate);
    Distributes(completion, nextCompletion, p.outputRate);
  }

  lemma Distributes(a: int, b: int, rate: int)
    ensures CeilMillion((a + b) * rate) <= CeilMillion(a * rate) + CeilMillion(b * rate)
  {
    assert (a + b) * rate == a * rate + b * rate;
  }

  /** Within the rate and token bounds no cost comes near 64 bits. */
  lemma RatesBoundCost(p: Profile, prompt: int, completion: int)
    requires p.InRange() && p.Admits(prompt, completion)
    ensures Cost(p, prompt, completion) <= 1_114_112_000_000 <= INT64_MAX
  {
    TermBounded(prompt, p.inputRate, 1048576);
    TermBounded(completion, p.outputRate, 65536);
  }

  lemma TermBounded(tokens: int, rate: int, most: int)
    requires 0 <= tokens <= most && 0 < rate <= 1_000_000_000_000
    ensures CeilMillion(tokens * rate) <= most * MILLION
  {
    ProductGrows(tokens, most, rate);
    assert most * rate <= most * 1_000_000_000_000;
    CeilingGrows(tokens * rate, most * 1_000_000_000_000);
  }

  /** Point rates have no upper bound, so points can overflow: exactly when the exact price exceeds 64 bits. */
  lemma PointsOverflow(t: Tariff, prompt: int, completion: int)
    ensures PointCount(t, prompt, completion) <= INT64_MAX <==> t.Exact(prompt, completion) <= INT64_MAX * MILLION
  {
    var points := PointCount(t, prompt, completion);
    assert IsCeiling(t.Exact(prompt, completion), points);
  }

  /** Validating the maxima is enough: no admitted usage fails, in cost or in points. */
  lemma ValidatedNeverFails(p: Profile, prompt: int, completion: int)
    requires Validated(p) && p.Admits(prompt, completion)
    ensures 0 <= Cost(p, prompt, completion) <= Cost(p, p.maxPrompt, p.maxCompletion) <= INT64_MAX
    ensures 0 <= PointCount(p.tariff, prompt, completion) <= PointCount(p.tariff, p.maxPrompt,
            p.maxCompletion) <= INT64_MAX
  {
    CostGrows(p, prompt, completion, p.maxPrompt, p.maxCompletion);
    RatesBoundCost(p, p.maxPrompt, p.maxCompletion);
    PointsGrow(p.tariff, prompt, completion, p.maxPrompt, p.maxCompletion);
    PointsOverflow(p.tariff, p.maxPrompt, p.maxCompletion);
    CostGrows(p, 0, 0, prompt, completion);
    PointsGrow(p.tariff, 0, 0, prompt, completion);
  }

  /** Observed usage within the quoted prompt bound and the completion limit stays inside the quote. */
  lemma QuoteCovers(p: Profile, wire: string, q: TextQuote, prompt: int, completion: int)
    requires Validated(p) && |wire| + FRAMING <= p.maxPrompt && Quotes(p, wire, q)
    requires 0 <= prompt <= |wire| + FRAMING && 0 <= completion <= p.maxCompletion
    ensures 0 <= Cost(p, prompt, completion) <= q.maximumCost <= INT64_MAX
    ensures 0 <= prompt + completion <= q.maximumTokens <= INT64_MAX && q.maximumTokens > 0
  {
    CostGrows(p, prompt, completion, |wire| + FRAMING, p.maxCompletion);
    ValidatedNeverFails(p, |wire| + FRAMING, p.maxCompletion);
    ValidatedNeverFails(p, prompt, completion);
  }
}
