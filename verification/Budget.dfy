/** An agent run's budget: counters that a model call reserves against before it is made and that its
    observed usage settles afterwards. */
module Budget {

  import opened Widths

  datatype Limits = Limits(steps: int, modelCalls: int, tokens: int, cost: int, currency: string, runtime: int) {
    predicate Valid() {
      && 0 < steps <= INT64_MAX && 0 < modelCalls <= INT64_MAX && 0 < tokens <= INT64_MAX && 0 < cost <= INT64_MAX
      && runtime > 0 && |currency| == 3 && forall i | 0 <= i < 3 :: 'A' <= currency[i] <= 'Z'
    }
  }

  datatype Quote = Quote(tokens: int, cost: int, currency: string, known: bool)

  datatype Stop = Go | StopSteps | StopModelCalls | StopTokens | StopCost | StopUsageUnknown

  datatype Counters = Counters(steps: int, modelCalls: int, tokens: int, cost: int) {
    predicate Within(l: Limits) {
      0 <= steps <= l.steps && 0 <= modelCalls <= l.modelCalls && 0 <= tokens <= l.tokens && 0 <= cost <= l.cost
    }
  }

  /** A quote worth reserving, for these limits. */
  predicate Reservable(l: Limits, q: Quote) {
    q.known && q.tokens > 0 && q.cost >= 0 && q.currency == l.currency
  }

  /** Usage that the quote covers. */
  predicate Covered(q: Quote, observed: Quote) {
    observed.known && observed.currency == q.currency && 0 <= observed.tokens <= q.tokens &&
      0 <= observed.cost <= q.cost
  }

  /** A reservation fits if the sums, taken without any width, stay within the limits. */
  predicate Fits(l: Limits, c: Counters, q: Quote) {
    c.steps < l.steps && c.modelCalls < l.modelCalls && c.tokens + q.tokens <= l.tokens && c.cost + q.cost <= l.cost
  }

  function Reserved(c: Counters, q: Quote): Counters {
    Counters(c.steps + 1, c.modelCalls + 1, c.tokens + q.tokens, c.cost + q.cost)
  }

  function Settled(c: Counters, q: Quote, observed: Quote): Counters {
    c.(tokens := c.tokens - q.tokens + observed.tokens, cost := c.cost - q.cost + observed.cost)
  }

  class Usage {
    var steps: int
    var modelCalls: int
    var tokens: int
    var cost: int

    function Counts(): Counters
      reads this
    {
      Counters(steps, modelCalls, tokens, cost)
    }

    constructor ()
      ensures Counts() == Counters(0, 0, 0, 0)
    {
      steps, modelCalls, tokens, cost := 0, 0, 0, 0;
    }

    method Step(l: Limits) returns (stop: Stop)
      modifies this
      ensures stop == Go || stop == StopSteps
      ensures stop == Go <==> old(Counts()).steps < l.steps
      ensures Counts() == if stop == Go then old(Counts()).(steps := old(steps) + 1) else old(Counts())
    {
      if steps >= l.steps {
        return StopSteps;
      }
      steps := steps + 1;
      return Go;
    }

    /** The outcome is that of the unbounded sums, and a refusal changes nothing. `NoOverflow` says that from
        counters within the limits no value computed here leaves 64 bits. */
    method Reserve(l: Limits, q: Quote) returns (stop: Stop)
      modifies this
      ensures stop == Go <==> Reservable(l, q) && Fits(l, old(Counts()), q)
      ensures Counts() == if stop == Go then Reserved(old(Counts()), q) else old(Counts())
      ensures old(Counts()).Within(l) ==> Counts().Within(l)
      // The first reason in this order is the one that is named.
      ensures stop == StopSteps <==> old(steps) >= l.steps
      ensures stop == StopModelCalls <==> old(steps) < l.steps && old(modelCalls) >= l.modelCalls
      ensures stop == StopUsageUnknown <==> old(steps) < l.steps && old(modelCalls) < l.modelCalls && !Reservable(l, q)
      ensures stop in {StopTokens, StopCost} ==>
                old(steps) < l.steps && old(modelCalls) < l.modelCalls && Reservable(l, q)
      ensures stop == StopTokens ==> old(tokens) + q.tokens > l.tokens
      ensures stop == StopCost ==> old(tokens) + q.tokens <= l.tokens && old(cost) + q.cost > l.cost
    {
      if steps >= l.steps {
        return StopSteps;
      }
      if modelCalls >= l.modelCalls {
        return StopModelCalls;
      }
      if !q.known || q.tokens <= 0 || q.cost < 0 || q.currency != l.currency {
        return StopUsageUnknown;
      }
      if q.tokens > l.tokens - tokens {
        return StopTokens;
      }
      if q.cost > l.cost - cost {
        return StopCost;
      }
      steps := steps + 1;
      modelCalls := modelCalls + 1;
      tokens := tokens + q.tokens;
      cost := cost + q.cost;
      return Go;
    }

    method Settle(q: Quote, observed: Quote) returns (stop: Stop)
      modifies this
      ensures stop == Go || stop == StopUsageUnknown
      ensures stop == Go <==> Covered(q, observed)
      ensures Counts() == if stop == Go then Settled(old(Counts()), q, observed) else old(Counts())
    {
      if !observed.known || observed.currency != q.currency || observed.tokens < 0 ||
         observed.cost < 0 || observed.tokens > q.tokens || observed.cost > q.cost {
        return StopUsageUnknown;
      }
      tokens := tokens - (q.tokens - observed.tokens);
      cost := cost - (q.cost - observed.cost);
      return Go;
    }
  }

  /** Comparing by subtraction, reserving and settling stay within 64 bits whatever the 64-bit quote, although
      the sum of the counter and a refused quote may not. */
  lemma NoOverflow(l: Limits, c: Counters, q: Quote, observed: Quote)
    requires l.Valid() && c.Within(l) && Int64(q.tokens) && Int64(q.cost)
    ensures Int64(l.tokens - c.tokens) && Int64(l.cost - c.cost)
    ensures Reservable(l, q) && Fits(l, c, q) ==>
              Reserved(c, q).Within(l) && Int64(Reserved(c, q).tokens) && Int64(Reserved(c, q).cost)
    ensures Reservable(l, q) && Covered(q, observed) ==>
            Int64(q.tokens - observed.tokens) && Int64(q.cost - observed.cost)
  {
  }

  // ----- any run -----

  /** What one agent run does: it steps, reserves, and settles any reservation that is still open. */
  datatype Event = Stepping | Reserving(quote: Quote) | Settling(index: nat, observed: Quote)

  function Tokens(quotes: seq<Quote>): int {
    if quotes == [] then 0 else quotes[0].tokens + Tokens(quotes[1..])
  }

  function Costs(quotes: seq<Quote>): int {
    if quotes == [] then 0 else quotes[0].cost + Costs(quotes[1..])
  }

  function Without(quotes: seq<Quote>, i: nat): seq<Quote>
    requires i < |quotes|
  {
    quotes[..i] + quotes[i + 1..]
  }

  lemma {:induction false} SumsSplit(a: seq<Quote>, b: seq<Quote>)
    ensures Tokens(a + b) == Tokens(a) + Tokens(b)
    ensures Costs(a + b) == Costs(a) + Costs(b)
  {
    if a == [] {
      assert a + b == b;
    } else {
      SumsSplit(a[1..], b);
      assert (a + b)[1..] == a[1..] + b;
    }
  }

  lemma TakenOut(quotes: seq<Quote>, i: nat)
    requires i < |quotes|
    ensures Tokens(quotes) == Tokens(Without(quotes, i)) + quotes[i].tokens
    ensures Costs(quotes) == Costs(Without(quotes, i)) + quotes[i].cost
  {
    assert quotes == quotes[..i] + quotes[i..];
    SumsSplit(quotes[..i], quotes[i..]);
    SumsSplit(quotes[..i], quotes[i + 1..]);
  }

  /** A run's counters beside its open reservations and the usage observed so far. */
  datatype Book = Book(counts: Counters, open: seq<Quote>, seen: seq<Quote>)

  const EMPTY := Book(Counters(0, 0, 0, 0), [], [])

  /** Refused events change nothing; a settlement the quote does not cover leaves it reserved. */
  function Next(l: Limits, b: Book, e: Event): Book {
    match e
    case Stepping => if b.counts.steps < l.steps then b.(counts := b.counts.(steps := b.counts.steps + 1)) else b
    case Reserving(q) =>
      if Reservable(l, q) && Fits(l, b.counts, q) then Book(Reserved(b.counts, q), b.open + [q], b.seen) else b
    case Settling(i, o) =>
      if i < |b.open| && Covered(b.open[i], o) then Book(Settled(b.counts, b.open[i], o), Without(b.open, i),
        b.seen + [o]) else b
  }

  function After(l: Limits, events: seq<Event>): Book {
    if events == [] then EMPTY else Next(l, After(l, events[..|events| - 1]), events[|events| - 1])
  }

  /** What is counted is what was observed plus what is still reserved. */
  ghost predicate Balanced(l: Limits, b: Book) {
    && b.counts.Within(l)
    && b.counts.tokens == Tokens(b.seen) + Tokens(b.open) && b.counts.cost == Costs(b.seen) + Costs(b.open)
    && b.counts.modelCalls == |b.seen| + |b.open| && b.counts.modelCalls <= b.counts.steps
    && (forall q | q in b.open :: Reservable(l, q))
    && (forall o | o in b.seen :: o.known && o.tokens >= 0 && o.cost >= 0)
  }

  lemma {:induction false} NonNegative(quotes: seq<Quote>)
    requires forall q | q in quotes :: q.tokens >= 0 && q.cost >= 0
    ensures Tokens(quotes) >= 0 && Costs(quotes) >= 0
  {
    if quotes != [] {
      NonNegative(quotes[1..]);
    }
  }

  lemma ReservingBalances(l: Limits, b: Book, q: Quote)
    requires l.Valid() && Balanced(l, b)
    ensures Balanced(l, Next(l, b, Reserving(q)))
  {
    SumsSplit(b.open, [q]);
    assert Tokens([q]) == q.tokens && Costs([q]) == q.cost;
  }

  lemma SettlingBalances(l: Limits, b: Book, i: nat, observed: Quote)
    requires Balanced(l, b)
    ensures Balanced(l, Next(l, b, Settling(i, observed)))
  {
    if i < |b.open| && Covered(b.open[i], observed) {
      TakenOut(b.open, i);
      SumsSplit(b.seen, [observed]);
      assert Tokens([observed]) == observed.tokens && Costs([observed]) == observed.cost;
      NonNegative(b.seen + [observed]);
      assert forall q | q in Without(b.open, i) :: q in b.open;
      NonNegative(Without(b.open, i));
    }
  }

  /** Whatever the order of steps, reservations, settlements and refusals, the counters stay between zero and
      the limits and equal what was observed plus what is still reserved. */
  lemma {:induction false} RunBalances(l: Limits, events: seq<Event>)
    requires l.Valid()
    ensures Balanced(l, After(l, events))
  {
    if events != [] {
      var before := events[..|events| - 1];
      RunBalances(l, before);
      match events[|events| - 1] {
        case Stepping =>
        case Reserving(q) => ReservingBalances(l, After(l, before), q);
        case Settling(i, o) => SettlingBalances(l, After(l, before), i, o);
      }
    }
  }

  /** Once every reservation is settled the counters are the observed usage, and nothing else. */
  lemma FullySettled(l: Limits, events: seq<Event>)
    requires l.Valid() && After(l, events).open == []
    ensures var b := After(l, events);
            b.counts.tokens == Tokens(b.seen) <= l.tokens && b.counts.cost == Costs(b.seen) <= l.cost &&
              |b.seen| <= l.modelCalls
  {
    RunBalances(l, events);
  }

  /** The program's counters follow those books. */
  method Run(l: Limits, events: seq<Event>) returns (book: Book)
    requires l.Valid()
    ensures book == After(l, events) && Balanced(l, book)
  {
    var usage := new Usage();
    var open, seen := [], [];
    for i := 0 to |events|
      invariant Book(usage.Counts(), open, seen) == After(l, events[..i])
    {
      assert events[..i + 1][..i] == events[..i];
      match events[i] {
        case Stepping =>
          var _ := usage.Step(l);
        case Reserving(quote) =>
          var stop := usage.Reserve(l, quote);
          if stop == Go {
            open := open + [quote];
          }
        case Settling(index, observed) =>
          if index < |open| {
            var stop := usage.Settle(open[index], observed);
            if stop == Go {
              open, seen := Without(open, index), seen + [observed];
            }
          }
      }
    }
    assert events[..|events|] == events;
    RunBalances(l, events);
    book := Book(usage.Counts(), open, seen);
  }
}
