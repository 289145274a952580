/** The generation protocol at work: executors, recovery passes and crashes interleave on one repository.

    Between any two steps of a participant, `Interleave` lets the others take any number of atomic steps.
    A repository call is atomic, may fail without effect, and may take effect and still report failure. */
module GenerationExecution {
  import opened Optional
  import opened GenerationFact

  datatype Reply = Ok(fact: Fact) | NotFound | Failed

  /** How a call to `GenerateQuotedSlot` ends. */
  datatype Verdict = Output | RejectedBeforeEffect | DispatchedUnknown | Died

  ghost predicate Since(earlier: Option<Fact>, later: Option<Fact>) {
    earlier.Some? ==> later.Some? && Later(earlier.value, later.value)
  }

  /** Recovery has nothing left to do for this fact. */
  ghost predicate Reconciled(fact: Option<Fact>) {
    fact.Some? ==> fact.value.state == Unknown || (Terminal(fact.value.state) && fact.value.settlement != NO_SETTLEMENT)
  }

  /** What recovery alone can do to a fact; it leaves a reconciled one alone. */
  ghost predicate RecoveredSince(earlier: Option<Fact>, later: Option<Fact>) {
    && Since(earlier, later)
    && (Reconciled(earlier) ==> later == earlier)
    && (earlier.Some? ==>
          && (earlier.value.state == DispatchStarted ==> later.value.state in {DispatchStarted, Unknown})
          && (earlier.value.state == Unknown ==> later.value.state == Unknown)
          && (earlier.value.state == Prepared ==> later.value.state in {Prepared, NoGeneration}))
  }

  /** What may have happened in between: anything, or only recovery. */
  ghost predicate Follows(earlier: Option<Fact>, later: Option<Fact>, overlap: bool) {
    Since(earlier, later) && (!overlap ==> RecoveredSince(earlier, later))
  }

  lemma FollowsSelf(fact: Option<Fact>, overlap: bool)
    ensures Follows(fact, fact, overlap)
  {
  }

  lemma FollowsThrough(earlier: Option<Fact>, middle: Option<Fact>, later: Option<Fact>, overlap: bool)
    requires Follows(earlier, middle, overlap) && Follows(middle, later, overlap)
    ensures Follows(earlier, later, overlap)
  {
  }

  lemma SinceThrough(earlier: Option<Fact>, middle: Option<Fact>, later: Option<Fact>)
    requires Since(earlier, middle) && Since(middle, later)
    ensures Since(earlier, later)
  {
  }

  /** A terminal state and a settlement are there to stay. */
  lemma AbsorbedSince(earlier: Option<Fact>, later: Option<Fact>)
    requires Since(earlier, later)
    ensures earlier.Some? && Terminal(earlier.value.state) ==> later.Some? && later.value.state == earlier.value.state
    ensures earlier.Some? && earlier.value.settlement != NO_SETTLEMENT ==>
            later.Some? && later.value.settlement == earlier.value.settlement
  {
  }

  lemma UntouchedIfReconciled(earlier: Option<Fact>, later: Option<Fact>, overlap: bool)
    requires Follows(earlier, later, overlap)
    ensures !overlap && Reconciled(earlier) ==> later == earlier
  {
  }

  /** A prepared generation ends as none and settled, a dispatched one as unknown, a terminal one settled. */
  ghost predicate CalmlyReconciled(before: Option<Fact>, after: Option<Fact>, ok: bool) {
    && ok && (before.None? <==> after.None?)
    && (before.Some? ==>
          && after.value.state == (match before.value.state
                                   case Prepared => NoGeneration
                                   case DispatchStarted => Unknown
                                   case other => other)
          && (Terminal(after.value.state) ==> after.value.settlement != NO_SETTLEMENT))
  }

  predicate IsRecovery(command: Command) {
    command.NoEffect? || command.Lose? || command.Settle?
  }

  lemma RecoveryStep(fact: Fact, command: Command)
    requires fact.Valid() && IsRecovery(command)
    ensures RecoveredSince(Some(fact), Some(Apply(fact, command)))
  {
    hide Fact.Valid;
    StepLaws(fact, command);
  }

  /** What the collaborators answer during one call: the checks before and after preparing, the ledger, and what the
      provider reports, as a success or as an error that proves a rejection. */
  datatype World = World(
    authorized: bool, ready: bool, granted: bool, stillAllowed: bool, success: Option<Success>,
    rejection: Option<Rejection>, usable: bool
  )

  /** A terminal fact of this intent that is not settled, or settled as the ledger would. */
  ghost predicate Finalizable(fact: Option<Fact>, intent: Intent) {
    && fact.Some? && fact.value.Valid() && fact.value.intent == intent && Terminal(fact.value.state)
    && fact.value.settlement in {NO_SETTLEMENT, SettlementFor(fact.value)}
  }

  ghost predicate Succeeds(world: World) {
    world.success.Some? && ValidSuccess(world.success.value)
  }

  ghost function Final(fact: Fact): Fact {
    fact.(settlement := SettlementFor(fact))
  }

  /** A fact of this intent, on its way and not settled. */
  ghost predicate Open(fact: Option<Fact>, intent: Intent, state: State) {
    fact.Some? && fact.value.intent == intent && fact.value.state == state && fact.value.settlement == NO_SETTLEMENT
  }

  /** How an undisturbed call ends, by what the collaborators answer. */
  ghost predicate Expected(intent: Intent, world: World, v: Verdict, fact: Option<Fact>) {
    && fact.Some? && fact.value.intent == intent
    && if !(world.granted && world.stillAllowed) then
         v == RejectedBeforeEffect && fact.value.state == NoGeneration && fact.value.settlement != NO_SETTLEMENT
       else if Succeeds(world) then
         && v == (if world.usable then Output else DispatchedUnknown)
         && fact.value.state == Succeeded && fact.value.success == world.success.value
         && fact.value.settlement != NO_SETTLEMENT
       else if world.rejection.Some? && IsEvidence(intent, world.rejection.value) then
         v == RejectedBeforeEffect && fact.value.state == NoGeneration && fact.value.settlement != NO_SETTLEMENT
       else
         v == DispatchedUnknown && fact.value.state == (if world.rejection.None? then Unknown else DispatchStarted)
  }

  lemma BeginsOnce(fact: Fact)
    requires fact.Valid() && fact.state == Prepared && fact.reservation != NO_RESERVATION
    ensures Wins(fact, Begin) && Try(fact, Begin) == Next(fact.(state := DispatchStarted))
    ensures Apply(fact, Begin) == fact.(state := DispatchStarted)
  {
  }

  /** Everything about one effect identity. */
  class Effect {
    const identity: Identity
    /** In calm no one else acts, every call is acknowledged, the ledger issues what it owes, and no run dies. */
    const calm: bool
    var fact: Option<Fact>
    /** Provider calls made, and permissions to call granted, by anyone ever. */
    var calls: nat
    var wins: nat
    /** Permissions not used yet: by this participant, and by others. */
    var mine: nat
    var theirs: nat

    ghost predicate Valid()
      reads this
    {
      && (fact.Some? ==> fact.value.Valid() && fact.value.intent.identity == identity)
      && calls + mine + theirs <= wins <= 1
      && (wins == 1 ==> fact.Some? && fact.value.state != Prepared)
    }

    constructor (identity: Identity, calm: bool)
      ensures Valid() && this.identity == identity && this.calm == calm && fact == None && calls == 0 && mine == 0 &&
              theirs == 0
    {
      this.identity, this.calm := identity, calm;
      fact, calls, wins, mine, theirs := None, 0, 0, 0, 0;
    }

    // ----- the repository -----

    method Read() returns (reply: Reply)
      ensures reply.Ok? ==> fact == Some(reply.fact)
      ensures reply.NotFound? ==> fact == None
      ensures calm ==> !reply.Failed?
    {
      var broken: bool := *;
      reply := if broken && !calm then Failed else if fact.None? then NotFound else Ok(fact.value);
    }

    /** `PrepareGenerationIntent`: create the fact, or find the one with the same fingerprint. */
    method Prepare(intent: Intent) returns (reply: Reply)
      requires Valid() && intent.identity == identity
      modifies this`fact
      ensures Valid() && Since(old(fact), fact)
      ensures reply.Ok? ==> fact == Some(reply.fact) && reply.fact.intent == intent
      ensures calm && AdmissibleIntent(intent) && old(fact).None? ==> reply.Ok? && fact == NewFact(intent)
    {
      var created := NewFact(intent);
      var committed: bool := *;
      var acknowledged: bool := *;
      if created.None? || !(committed || calm) || (fact.Some? && fact.value.fingerprint != created.value.fingerprint) {
        return Failed;
      }
      if fact.None? {
        fact := created;
      }
      reply := if acknowledged || calm then Ok(fact.value) else Failed;
    }

    /** `mutateGenerationFact` with a transition: fingerprint check, transition, store. */
    method Change(intent: Intent, command: Command) returns (reply: Reply, won: bool)
      requires Valid()
      modifies this`fact, this`wins, this`mine
      ensures Valid() && Since(old(fact), fact)
      ensures reply.Ok? ==>
                old(fact).Some? && fact == Some(reply.fact) && Try(old(fact).value, command) == Next(reply.fact)
      ensures won ==> reply.Ok? && command.Begin? && mine == old(mine) + 1 && wins == old(wins) + 1
      ensures !won ==> mine == old(mine) && wins == old(wins)
      ensures old(fact).None? ==> fact.None?
      ensures fact == old(fact) || (old(fact).Some? && fact == Some(Apply(old(fact).value, command)))
      ensures calm && old(fact).Some? && old(fact).value.intent == intent ==>
                (reply.Ok? <==> Try(old(fact).value, command).Next?) &&
                fact == Some(Apply(old(fact).value, command)) && (won <==> Wins(old(fact).value, command))
    {
      won := false;
      if fact.None? {
        return NotFound, false;
      }
      var committed: bool := *;
      var acknowledged: bool := *;
      acknowledged := acknowledged || calm;
      if !(committed || calm) || fact.value.fingerprint != OfIntent(intent) {
        return Failed, false;
      }
      ghost var before := fact.value;
      StepLaws(before, command);
      match Try(fact.value, command)
      case Refused(_) => return Failed, false;
      case Next(next) =>
        // An ambiguous commit is never turned into a permission.
        won := acknowledged && Wins(fact.value, command);
        fact := Some(next);
        if won {
          wins, mine := wins + 1, mine + 1;
        }
        reply := if acknowledged then Ok(next) else Failed;
    }

    // ----- the others -----

    /** One atomic step of another participant. Without overlap the only others are recovery passes. */
    method OtherStep(overlap: bool)
      requires Valid()
      modifies this
      ensures Valid() && mine == old(mine) && Since(old(fact), fact)
      ensures !overlap ==>
                RecoveredSince(old(fact), fact) && calls == old(calls) && wins == old(wins) && theirs == old(theirs)
    {
      var intent: Intent := *;
      var command: Command := *;
      var kind: int := *;
      if overlap && kind == 0 && intent.identity == identity {
        var _ := Prepare(intent);
      } else if overlap && kind == 1 && theirs > 0 {
        theirs, calls := theirs - 1, calls + 1;
      } else if overlap || IsRecovery(command) {
        if fact.Some? && IsRecovery(command) {
          RecoveryStep(fact.value, command);
        }
        var _, won := Change(intent, command);
        if won {
          mine, theirs := mine - 1, theirs + 1;
        }
      }
    }

    method Interleave(overlap: bool)
      requires Valid()
      modifies this
      ensures Valid() && mine == old(mine) && Since(old(fact), fact)
      ensures !overlap ==>
                RecoveredSince(old(fact), fact) && calls == old(calls) && wins == old(wins) && theirs == old(theirs)
      ensures calm ==> unchanged(this)
    {
      var steps: int := *;
      steps := if calm then 0 else steps;
      while steps > 0
        invariant Valid() && mine == old(mine) && Since(old(fact), fact)
        invariant calm ==> steps <= 0 && unchanged(this)
        invariant !overlap ==>
                    RecoveredSince(old(fact), fact) && calls == old(calls) && wins == old(wins) && theirs == old(theirs)
      {
        OtherStep(overlap);
        steps := steps - 1;
      }
    }

    // ----- the executor -----

    /** `finalize`: ask the ledger for a settlement and bind it. */
    method Finalize(intent: Intent, overlap: bool) returns (ok: bool)
      requires Valid()
      modifies this
      ensures Valid() && mine == old(mine) && Since(old(fact), fact)
      ensures !overlap ==> RecoveredSince(old(fact), fact)
      ensures ok ==> fact.Some? && fact.value.settlement != NO_SETTLEMENT
      ensures calm ==> calls == old(calls) && wins == old(wins)
      ensures calm && Finalizable(old(fact), intent) ==> ok && fact == Some(Final(old(fact).value))
    {
      hide Fact.Valid, RecoveredSince, Since;
      Interleave(overlap);
      ghost var first := fact;
      var receipt: Settlement := *;
      var issued: bool := *;
      if calm && fact.Some? {
        receipt := SettlementFor(fact.value);
      }
      if Finalizable(fact, intent) {
        SettlementFits(fact.value);
      }
      FollowsSelf(first, overlap);
      if !(issued || calm) {
        return false;
      }
      var reply := Recover(intent, Settle(receipt), overlap);
      ghost var second := fact;
      FollowsThrough(old(fact), first, second, overlap);
      var closed: bool := *;
      ok := reply.Ok? && (closed || calm);
      Interleave(overlap);
      FollowsThrough(old(fact), second, fact, overlap);
      AbsorbedSince(second, fact);
    }

    /** `closeBeforeDispatch`: the intent exists, so it is closed by its own no-generation record. */
    method CloseBeforeDispatch(intent: Intent, overlap: bool) returns (v: Verdict)
      requires Valid()
      modifies this
      ensures Valid() && mine == old(mine) && Since(old(fact), fact)
      ensures v in {RejectedBeforeEffect, DispatchedUnknown}
      ensures v == RejectedBeforeEffect ==> fact.Some? && fact.value.state == NoGeneration
      ensures calm ==> calls == old(calls) && wins == old(wins)
      ensures calm && Open(old(fact), intent, Prepared) ==>
                v == RejectedBeforeEffect && fact.Some? && fact.value.settlement != NO_SETTLEMENT &&
                fact == Some(Final(old(fact).value.(state := NoGeneration)))
    {
      Interleave(overlap);
      var reply, won := Change(intent, NoEffect);
      if !reply.Ok? {
        return DispatchedUnknown;
      }
      var ok := Finalize(intent, overlap);
      v := if ok then RejectedBeforeEffect else DispatchedUnknown;
    }

    /** Reserve, bind and check again: the steps between preparing and dispatching. */
    method Reserved(intent: Intent, overlap: bool, world: World) returns (ok: bool)
      requires Valid()
      modifies this
      ensures Valid() && mine == old(mine) && Since(old(fact), fact)
      ensures ok ==> world.granted && world.stillAllowed
      ensures calm ==> calls == old(calls) && wins == old(wins)
      ensures calm && Open(old(fact), intent, Prepared) && old(fact).value.reservation == NO_RESERVATION ==>
                && (ok <==> world.granted && world.stillAllowed)
                && Open(fact, intent, Prepared)
                && (ok ==> fact.value.reservation != NO_RESERVATION)
    {
      if !world.granted {
        return false;
      }
      Interleave(overlap);
      var receipt: Reservation := *;
      if calm && fact.Some? {
        receipt := ReservationFor(fact.value);
        if Open(fact, intent, Prepared) && fact.value.reservation == NO_RESERVATION {
          ReservationFits(fact.value);
        }
      }
      var reply, won := Change(intent, Reserve(receipt));
      ok := reply.Ok? && world.stillAllowed;
    }

    /** The provider call. While it runs the provider may report its success through the observer. */
    method CallProvider(intent: Intent, overlap: bool, world: World)
      requires Valid() && mine > 0
      modifies this
      ensures Valid() && mine == old(mine) - 1 && Since(old(fact), fact)
      ensures calm ==> calls == old(calls) + 1
      ensures calm && Open(old(fact), intent, DispatchStarted) && Succeeds(world) ==>
                fact == Some(Final(old(fact).value.(state := Succeeded, success := world.success.value)))
      ensures calm && Open(old(fact), intent, DispatchStarted) && !Succeeds(world) ==> fact == old(fact)
    {
      hide Fact.Valid, ValidSuccess, Since, RecoveredSince;
      mine, calls := mine - 1, calls + 1;
      Interleave(overlap);
      ghost var first := fact;
      if world.success.Some? {
        ObserveSuccess(intent, overlap, world.success.value);
      } else {
        FollowsSelf(fact, overlap);
      }
      ghost var second := fact;
      SinceThrough(old(fact), first, second);
      Interleave(overlap);
      SinceThrough(old(fact), second, fact);
    }

    /** The provider's report: the success is recorded and charged at once. */
    method ObserveSuccess(intent: Intent, overlap: bool, success: Success)
      requires Valid()
      modifies this
      ensures Valid() && mine == old(mine) && Since(old(fact), fact)
      ensures calm ==> calls == old(calls)
      ensures calm && Open(old(fact), intent, DispatchStarted) ==>
                fact == if ValidSuccess(success) then Some(Final(old(fact).value.(state := Succeeded, success :=
                  success)))
                        else old(fact)
    {
      hide Fact.MatchesReceipt, Fact.AdmitsRejection, AdmissibleIntent, VersionOf, ValidSuccess, Fact.MatchesSettlement,
        Since;
      var reply, won := Change(intent, Succeed(success));
      ghost var middle := fact;
      if reply.Ok? {
        var _ := Finalize(intent, overlap);
        SinceThrough(old(fact), middle, fact);
      }
    }

    /** After the call: the fact decides, not the provider's answer. */
    method Conclude(intent: Intent, overlap: bool, world: World) returns (v: Verdict)
      requires Valid()
      modifies this
      ensures Valid() && mine == old(mine) && Since(old(fact), fact)
      ensures v in {Output, RejectedBeforeEffect, DispatchedUnknown}
      ensures v == Output ==> fact.Some? && fact.value.state == Succeeded && fact.value.settlement.state == "committed"
      ensures v == RejectedBeforeEffect ==> fact.Some? && fact.value.state == NoGeneration
      // A rejection after the dispatch rests on evidence that the provider generated nothing.
      ensures v == RejectedBeforeEffect ==>
                world.rejection.Some? && IsEvidence(fact.value.intent, world.rejection.value)
      ensures calm ==> calls == old(calls)
      ensures calm && Finalizable(old(fact), intent) && old(fact).value.state == Succeeded ==>
                fact.Some? && fact.value.settlement != NO_SETTLEMENT && fact == Some(Final(old(fact).value)) &&
                v == (if world.usable then Output else DispatchedUnknown)
      ensures calm && Open(old(fact), intent, DispatchStarted) ==>
                if world.rejection.Some? && IsEvidence(intent, world.rejection.value)
                then v == RejectedBeforeEffect && fact.Some? && fact.value.settlement != NO_SETTLEMENT &&
                     fact == Some(Final(old(fact).value.(state := NoGeneration)))
                else v == DispatchedUnknown &&
                     fact == if world.rejection.None? then Some(old(fact).value.(state := Unknown)) else old(fact)
    {
      hide Fact.MatchesReceipt, Fact.MatchesSettlement, Fact.AdmitsRejection, ValidSuccess, RecoveredSince, IsEvidence;
      var reply := Read();
      if !reply.Ok? {
        return DispatchedUnknown;
      }
      if reply.fact.state != Succeeded {
        v := ConcludeUnsuccessful(intent, overlap, world);
        return;
      }
      var settled := Finalize(intent, overlap);
      if settled {
        SettlementTellsOutcome(fact.value);
      }
      v := if settled && world.usable then Output else DispatchedUnknown;
    }

    /** No success is on record: a proved rejection closes the generation, anything else leaves it unknown. */
    method ConcludeUnsuccessful(intent: Intent, overlap: bool, world: World) returns (v: Verdict)
      requires Valid()
      modifies this
      ensures Valid() && mine == old(mine) && Since(old(fact), fact)
      ensures v in {RejectedBeforeEffect, DispatchedUnknown}
      ensures v == RejectedBeforeEffect ==> fact.Some? && fact.value.state == NoGeneration
      ensures v == RejectedBeforeEffect ==>
                world.rejection.Some? && IsEvidence(fact.value.intent, world.rejection.value)
      ensures calm ==> calls == old(calls)
      ensures calm && Open(old(fact), intent, DispatchStarted) ==>
                if world.rejection.Some? && IsEvidence(intent, world.rejection.value)
                then v == RejectedBeforeEffect && fact.Some? && fact.value.settlement != NO_SETTLEMENT &&
                     fact == Some(Final(old(fact).value.(state := NoGeneration)))
                else v == DispatchedUnknown &&
                     fact == if world.rejection.None? then Some(old(fact).value.(state := Unknown)) else old(fact)
    {
      hide Fact.MatchesReceipt, Fact.MatchesSettlement, Fact.AdmitsRejection, ValidSuccess, RecoveredSince, IsEvidence;
      Interleave(overlap);
      if world.rejection.None? {
        var _, _ := Change(intent, Lose);
        return DispatchedUnknown;
      }
      if fact.Some? {
        RejectionExactly(fact.value, world.rejection.value);
      }
      var rejected, won := Change(intent, Reject(world.rejection.value));
      if !rejected.Ok? {
        return DispatchedUnknown;
      }
      var closed := Finalize(intent, overlap);
      return if closed then RejectedBeforeEffect else DispatchedUnknown;
    }

    /** `GenerateQuotedSlot`. A refusal of the first authorization is reported without looking at the fact. */
    method GenerateQuotedSlot(intent: Intent, overlap: bool, world: World) returns (v: Verdict)
      requires Valid() && intent.identity == identity && mine == 0
      modifies this
      // The provider is called at most once for this identity, whoever calls.
      ensures Valid() && calls <= 1 && mine == 0
      ensures Since(old(fact), fact)
      // Output is returned only for a charged success.
      ensures v == Output ==> fact.Some? && fact.value.state == Succeeded && fact.value.settlement.state == "committed"
      // Rejected before effect means just that, unless another call overlaps.
      ensures !overlap && world.authorized && v == RejectedBeforeEffect ==>
              fact.None? || fact.value.state == NoGeneration
      // In calm the verdict and the fact are these.
      ensures calm && !world.authorized ==> v == RejectedBeforeEffect && unchanged(this)
      ensures calm && world.authorized && old(fact).Some? ==>
                unchanged(this) && v == (if fact.value.state == NoGeneration then RejectedBeforeEffect
                  else DispatchedUnknown)
      ensures calm && world.authorized && old(fact).None? && !(world.ready && AdmissibleIntent(intent)) ==>
                v == RejectedBeforeEffect && unchanged(this)
      ensures calm && world.authorized && old(fact).None? && world.ready && AdmissibleIntent(intent) ==>
                Expected(intent, world, v, fact) &&
                calls == old(calls) + (if world.granted && world.stillAllowed then 1 else 0)
    {
      if !world.authorized {
        return RejectedBeforeEffect;
      }
      Interleave(overlap);
      var existing := Read();
      if !existing.NotFound? {
        v := if existing.Ok? && existing.fact.state == NoGeneration then RejectedBeforeEffect else DispatchedUnknown;
        return;
      }
      Interleave(overlap);
      if !world.ready || !AdmissibleIntent(intent) {
        return RejectedBeforeEffect;
      }
      v := Dispatch(intent, overlap, world);
      mine := 0;
    }

    /** From the prepared intent to the verdict; the run may die after any step. */
    method Dispatch(intent: Intent, overlap: bool, world: World) returns (v: Verdict)
      requires Valid() && intent.identity == identity && mine == 0
      modifies this
      ensures Valid() && Since(old(fact), fact)
      ensures v == Output ==> fact.Some? && fact.value.state == Succeeded && fact.value.settlement.state == "committed"
      ensures v == RejectedBeforeEffect ==> fact.Some? && fact.value.state == NoGeneration
      ensures calm && old(fact).None? && AdmissibleIntent(intent) ==>
                Expected(intent, world, v, fact) && mine == 0 &&
                calls == old(calls) + (if world.granted && world.stillAllowed then 1 else 0)
    {
      hide Fact.Valid, Try, Apply, Wins, RecoveredSince, IsEvidence, ValidSuccess, Since;
      var died: bool := *;
      var prepared := Prepare(intent);
      ghost var first := fact;
      if (died && !calm) || !prepared.Ok? {
        return if died then Died else DispatchedUnknown;
      }
      var reserved := Reserved(intent, overlap, world);
      ghost var second := fact;
      SinceThrough(old(fact), first, second);
      died := *;
      if died && !calm {
        return Died;
      }
      if reserved {
        v := Proceed(intent, overlap, world);
      } else {
        v := CloseBeforeDispatch(intent, overlap);
      }
      SinceThrough(old(fact), second, fact);
    }

    /** With the reservation bound: begin, call, conclude. */
    method Proceed(intent: Intent, overlap: bool, world: World) returns (v: Verdict)
      requires Valid() && mine == 0
      modifies this
      ensures Valid() && Since(old(fact), fact)
      ensures v == Output ==> fact.Some? && fact.value.state == Succeeded && fact.value.settlement.state == "committed"
      ensures v == RejectedBeforeEffect ==> fact.Some? && fact.value.state == NoGeneration
      ensures calm && world.granted && world.stillAllowed && Open(old(fact), intent, Prepared) &&
              old(fact).value.reservation != NO_RESERVATION ==>
                Expected(intent, world, v, fact) && mine == 0 && calls == old(calls) + 1
    {
      hide Fact.Valid, Try, Apply, Wins, RecoveredSince, IsEvidence, ValidSuccess, Since;
      Interleave(overlap);
      ghost var first := fact;
      if Open(fact, intent, Prepared) && fact.value.reservation != NO_RESERVATION {
        BeginsOnce(fact.value);
      }
      var begun, won := Change(intent, Begin);
      ghost var second := fact;
      SinceThrough(old(fact), first, second);
      var died: bool := *;
      if (died && !calm) || !won {
        return if died then Died else DispatchedUnknown;
      }
      CallProvider(intent, overlap, world);
      ghost var third := fact;
      SinceThrough(old(fact), second, third);
      died := *;
      if died && !calm {
        return Died;
      }
      v := Conclude(intent, overlap, world);
      SinceThrough(old(fact), third, fact);
    }

    /** Any number of calls and recovery passes, overlapping or not, make at most one provider call. */
    method ManyCalls(intents: seq<Intent>, overlap: bool)
      requires Valid() && mine == 0 && forall k | 0 <= k < |intents| :: intents[k].identity == identity
      modifies this
      ensures Valid() && calls <= 1
    {
      for k := 0 to |intents|
        invariant Valid() && mine == 0
      {
        var world: World := *;
        var _ := GenerateQuotedSlot(intents[k], overlap, world);
        var _, _, _ := Reconcile(overlap);
      }
    }

    // ----- recovery -----

    /** One of recovery's own changes, after any steps of the others. */
    method Recover(intent: Intent, command: Command, overlap: bool) returns (reply: Reply)
      requires Valid() && IsRecovery(command)
      modifies this
      ensures Valid() && mine == old(mine) && Follows(old(fact), fact, overlap)
      ensures calm || !overlap ==> calls == old(calls) && wins == old(wins)
      ensures reply.Ok? ==> fact == Some(reply.fact)
      ensures reply.Ok? && command.NoEffect? ==> reply.fact.state == NoGeneration
      ensures reply.Ok? && command.Lose? ==> reply.fact.state in {Unknown, Succeeded}
      ensures reply.Ok? && command.Settle? ==> Terminal(reply.fact.state) && reply.fact.settlement != NO_SETTLEMENT
      ensures calm && old(fact).Some? && old(fact).value.intent == intent && Try(old(fact).value, command).Next? ==>
                reply.Ok? && Try(old(fact).value, command) == Next(reply.fact)
    {
      hide Fact.Valid, RecoveredSince, Since, Fact.MatchesReceipt, ValidSuccess, Fact.AdmitsRejection;
      Interleave(overlap);
      ghost var middle := fact;
      FollowsSelf(middle, overlap);
      if fact.Some? {
        RecoveryStep(fact.value, command);
      }
      var won;
      reply, won := Change(intent, command);
      FollowsThrough(old(fact), middle, fact, overlap);
    }

    /** `ReconcileExistingGeneration`, while others act between its steps; `seen` is the fact as the pass left it. */
    method Reconcile(overlap: bool) returns (state: Option<State>, ok: bool, ghost seen: Option<Fact>)
      requires Valid()
      modifies this
      // It grants no permission to call the provider, and never rewrites history.
      ensures Valid() && mine == old(mine) && Follows(old(fact), fact, overlap)
      ensures !overlap ==> calls == old(calls) && wins == old(wins)
      // Success is reported only when the fact was absent, unknown, or settled for good.
      ensures ok ==>
                Reconciled(seen) && Since(seen, fact) && state == (if seen.Some? then Some(seen.value.state) else None)
      ensures ok && state.Some? && Terminal(state.value) ==>
                fact.Some? && fact.value.state == state.value && fact.value.settlement != NO_SETTLEMENT
      // A second pass changes nothing, whatever other recovery passes do meanwhile.
      ensures !overlap && Reconciled(old(fact)) ==> fact == old(fact)
      // In calm a pass succeeds and finishes what it finds.
      ensures calm ==> CalmlyReconciled(old(fact), fact, ok)
    {
      hide Fact.Valid, RecoveredSince, Since;
      Interleave(overlap);
      ghost var first := fact;
      state, ok := RecoveryPass(overlap);
      seen := fact;
      FollowsThrough(old(fact), first, seen, overlap);
      Interleave(overlap);
      FollowsThrough(old(fact), seen, fact, overlap);
      AbsorbedSince(seen, fact);
      UntouchedIfReconciled(old(fact), fact, overlap);
    }

    /** The pass itself, from its first reading of the fact to its last change. */
    method RecoveryPass(overlap: bool) returns (state: Option<State>, ok: bool)
      requires Valid()
      modifies this
      ensures Valid() && mine == old(mine) && Follows(old(fact), fact, overlap)
      ensures !overlap ==> calls == old(calls) && wins == old(wins)
      ensures ok ==> Reconciled(fact) && state == (if fact.Some? then Some(fact.value.state) else None)
      ensures calm ==> CalmlyReconciled(old(fact), fact, ok)
    {
      hide Fact.Valid, RecoveredSince, Since;
      var current := Read();
      state, ok := None, current.NotFound?;
      FollowsSelf(fact, overlap);
      if current.Ok? && current.fact.state == Prepared {
        current := Recover(current.fact.intent, NoEffect, overlap);
      } else if current.Ok? && current.fact.state == DispatchStarted {
        current := Recover(current.fact.intent, Lose, overlap);
      }
      if !current.Ok? {
        return;
      }
      state, ok := Some(current.fact.state), current.fact.state == Unknown;
      if Terminal(current.fact.state) {
        ghost var middle := fact;
        ok := SettleTerminal(current.fact, overlap);
        FollowsThrough(old(fact), middle, fact, overlap);
      }
    }

    /** The end of a pass that found or made the fact terminal. */
    method SettleTerminal(found: Fact, overlap: bool) returns (ok: bool)
      requires Valid() && fact == Some(found) && Terminal(found.state)
      modifies this
      ensures Valid() && mine == old(mine) && Follows(old(fact), fact, overlap)
      ensures !overlap ==> calls == old(calls) && wins == old(wins)
      ensures ok ==> fact.Some? && fact.value.state == found.state && fact.value.settlement != NO_SETTLEMENT
      ensures calm ==> ok && fact == Some(if found.settlement != NO_SETTLEMENT then found else Final(found))
    {
      hide Fact.Valid, RecoveredSince, Since;
      var closed: bool := *;
      closed := closed || calm;
      FollowsSelf(fact, overlap);
      if found.settlement != NO_SETTLEMENT {
        return closed;
      }
      Interleave(overlap);
      ghost var middle := fact;
      var receipt: Settlement := *;
      var issued: bool := *;
      if calm && fact.Some? {
        receipt := SettlementFor(fact.value);
        SettlementFits(fact.value);
      }
      if !(issued || calm) {
        return false;
      }
      var settled := Recover(found.intent, Settle(receipt), overlap);
      FollowsThrough(old(fact), middle, fact, overlap);
      AbsorbedSince(old(fact), fact);
      ok := settled.Ok? && closed;
    }
  }
}
