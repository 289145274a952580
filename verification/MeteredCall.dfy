/** A governed text call against the run's budget: the quote is reserved, the provider reports usage, and the
    cost of that usage is settled. */
module MeteredCall {

  import Metering
  import opened Budget

  function BudgetQuote(q: Metering.TextQuote): Quote {
    Quote(q.maximumTokens, q.maximumCost, q.currency, true)
  }

  function Charge(p: Metering.Profile, prompt: int, completion: int): Quote {
    Quote(prompt + completion, Metering.Cost(p, prompt, completion), p.currency, true)
  }

  /** A reserved call whose usage keeps to the quoted bounds always settles, and leaves exactly its own tokens
      and cost on the counters. */
  method Call(l: Limits, usage: Usage, p: Metering.Profile, wire: string, q: Metering.TextQuote, prompt: int,
      completion: int)
    returns (reserved: bool)
    requires l.Valid() && usage.Counts().Within(l)
    requires Metering.Validated(p) && |wire| + Metering.FRAMING <= p.maxPrompt && Metering.Quotes(p, wire, q)
    requires 0 <= prompt <= |wire| + Metering.FRAMING && 0 <= completion <= p.maxCompletion
    modifies usage
    ensures usage.Counts().Within(l)
    ensures reserved <==> p.currency == l.currency && Fits(l, old(usage.Counts()), BudgetQuote(q))
    ensures !reserved ==> usage.Counts() == old(usage.Counts())
    ensures reserved ==> usage.Counts() == Reserved(old(usage.Counts()), Charge(p, prompt, completion))
  {
    Metering.QuoteCovers(p, wire, q, prompt, completion);
    var stop := usage.Reserve(l, BudgetQuote(q));
    if stop != Go {
      return false;
    }
    stop := usage.Settle(BudgetQuote(q), Charge(p, prompt, completion));
    return true;
  }
}
