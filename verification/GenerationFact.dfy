/** The durable fact of one image generation: a value whose transitions either refuse or return the next
    fact. Hashes are modelled as the values they are taken of, so equal hashes mean equal contents. */
module GenerationFact {

  import opened Optional

  datatype Identity = Identity(tenant: string, owner: string, run: string, planRevision: int, slot: string,
      attempt: int)

  datatype InputProtocol = NoInput | ImageSet | Artwork

  /** `fieldsWellFormed` stands for the text, digest, route and month checks on the remaining fields. */
  datatype Intent = Intent(
    identity: Identity, memberId: string, provider: string, protocol: string, inputProtocol: InputProtocol,
    priceVersion: string, points: int, limitVersion: int, monthStart: int, fieldsWellFormed: bool
  )

  datatype State = Prepared | DispatchStarted | Unknown | NoGeneration | Succeeded

  datatype Digest =
    | NoDigest
    | OfIdentity(identity: Identity)
    | OfIntent(intent: Intent)
    | OfOutcome(fingerprint: Digest, state: State, success: Success)

  datatype Operation = NoOperation | ReserveFor(intentId: Digest) | FinalizeFor(intentId: Digest)

  datatype Reservation = Reservation(
    intentId: Digest, fingerprint: Digest, organizationId: string, memberId: string, operation: Operation,
    reservationId: string, resourceType: string, points: int, priceVersion: string, limitVersion: int, monthStart: int
  )

  datatype Success = Success(
    responseId: string, requestId: string, digestWellFormed: bool, resultUrl: string, urlIsSafe: bool,
    unavailable: string, usageKnown: bool, inputTokens: int, outputTokens: int, totalTokens: int
  )

  datatype Settlement = Settlement(
    intentId: Digest, fingerprint: Digest, operation: Operation, reservationId: string, state: string,
    proof: Digest, points: int
  )

  datatype Rejection = Rejection(
    kind: string, digestWellFormed: bool, requestId: string, requestIdIsUuid: bool, httpStatus: int,
      providerCode: string
  )

  const NO_RESERVATION := Reservation(NoDigest, NoDigest, "", "", NoOperation, "", "", 0, "", 0, 0)
  const NO_SUCCESS := Success("", "", false, "", false, "", false, 0, 0, 0)
  const NO_SETTLEMENT := Settlement(NoDigest, NoDigest, NoOperation, "", "", NoDigest, 0)

  predicate Trimmed(text: string) {
    text == "" || (text[0] !in " \t\r\n" && text[|text| - 1] !in " \t\r\n")
  }

  predicate ValidSuccess(s: Success) {
    && (if s.resultUrl != "" then s.unavailable == "" && s.urlIsSafe else s.unavailable == "invalid_result")
    && s.responseId != "" && Trimmed(s.responseId) && |s.responseId| <= 192
    && Trimmed(s.requestId) && |s.requestId| <= 192 && s.digestWellFormed
    && (if s.usageKnown
        then s.inputTokens >= 0 && s.outputTokens >= 0 && s.totalTokens > 0 && s.inputTokens <= s.totalTokens &&
             s.outputTokens == s.totalTokens - s.inputTokens
        else s.inputTokens == 0 && s.outputTokens == 0 && s.totalTokens == 0)
  }

  predicate AdmissibleIntent(intent: Intent) {
    && intent.identity.planRevision > 0 && intent.identity.attempt > 0
    && intent.points > 0 && intent.limitVersion > 0 && intent.fieldsWellFormed
  }

  function VersionOf(intent: Intent): int {
    match intent.inputProtocol case NoInput => 1 case ImageSet => 2 case Artwork => 3
  }

  datatype Refusal = Invalid | Conflict

  datatype Change = Next(fact: Fact) | Refused(why: Refusal)

  datatype Fact = Fact(
    version: int, intent: Intent, intentId: Digest, fingerprint: Digest, state: State,
    reservation: Reservation, success: Success, settlement: Settlement
  ) {
    predicate MatchesReceipt(r: Reservation) {
      && r.intentId == intentId && r.fingerprint == fingerprint
      && r.organizationId == intent.identity.tenant && r.memberId == intent.memberId
      && r.operation == ReserveFor(intentId)
      && r.reservationId != "" && Trimmed(r.reservationId) && |r.reservationId| <= 128
      && r.resourceType == "ai_point" && r.points == intent.points && r.priceVersion == intent.priceVersion
      && r.limitVersion == intent.limitVersion && r.monthStart == intent.monthStart
    }

    function TerminalProof(): Digest {
      if state.Succeeded? || state.NoGeneration? then OfOutcome(fingerprint, state, success) else NoDigest
    }

    predicate MatchesSettlement(r: Settlement) {
      && r.intentId == intentId && r.fingerprint == fingerprint && r.operation == FinalizeFor(intentId)
      && r.points == intent.points && r.proof != NoDigest && r.proof == TerminalProof()
      && match state
         case Succeeded => r.state == "committed" && r.reservationId == reservation.reservationId
         case NoGeneration =>
           if reservation.reservationId != "" then r.state == "released" && r.reservationId == reservation.reservationId
           else (r.state == "no_reservation" && r.reservationId == "") ||
                (r.state == "released" && r.reservationId != "" && Trimmed(r.reservationId) && |r.reservationId| <= 128)
         case _ => false
    }

    /** `Validate` */
    predicate Valid() {
      && AdmissibleIntent(intent) && version == VersionOf(intent)
      && intentId == OfIdentity(intent.identity) && fingerprint == OfIntent(intent)
      && (reservation == NO_RESERVATION || MatchesReceipt(reservation))
      && (match state
          case Prepared => success == NO_SUCCESS
          case NoGeneration => success == NO_SUCCESS
          case DispatchStarted => reservation.reservationId != "" && success == NO_SUCCESS
          case Unknown => reservation.reservationId != "" && success == NO_SUCCESS
          case Succeeded => reservation.reservationId != "" && ValidSuccess(success))
      && (settlement == NO_SETTLEMENT || MatchesSettlement(settlement))
    }

    function BindReservation(r: Reservation): Change {
      if !Valid() then Refused(Invalid)
      else if !MatchesReceipt(r) then Refused(Conflict)
      else if reservation.reservationId != "" then (if reservation != r then Refused(Conflict) else Next(this))
      else if state != Prepared then Refused(Conflict)
      else Next(this.(reservation := r))
    }

    /** The second component is the permission to call the provider. */
    function BeginDispatch(): (Change, bool) {
      if !Valid() then (Refused(Invalid), false)
      else if state != Prepared then (Next(this), false)
      else if reservation.reservationId == "" then (Refused(Conflict), false)
      else (Next(this.(state := DispatchStarted)), true)
    }

    function RecordNoGeneration(): Change {
      if !Valid() then Refused(Invalid)
      else if state != Prepared && state != NoGeneration then Refused(Conflict)
      else Next(this.(state := NoGeneration))
    }

    function MarkUnknown(): Change {
      if !Valid() then Refused(Invalid)
      else if state == Succeeded then Next(this)
      else if state != DispatchStarted && state != Unknown then Refused(Conflict)
      else Next(this.(state := Unknown))
    }

    function RecordSuccess(s: Success): Change {
      if !Valid() then Refused(Invalid)
      else if !ValidSuccess(s) then Refused(Invalid)
      else if state == Succeeded then (if success != s then Refused(Conflict) else Next(this))
      else if state != DispatchStarted && state != Unknown then Refused(Conflict)
      else Next(this.(state := Succeeded, success := s))
    }

    predicate AdmitsRejection(p: Rejection) {
      && Valid() && p.digestWellFormed
      && (if p.kind == "bailian_free_tier" then
            intent.provider == "bailian" && intent.protocol == "dashscope-image-sync-v1" && p.httpStatus == 403 &&
            p.providerCode == "AllocationQuota.FreeTierOnly" && p.requestIdIsUuid
          else if p.kind == "source_edit_preflight" then
            intent.inputProtocol == ImageSet && p.requestId == "" && p.httpStatus == 0 && p.providerCode == ""
          else false)
    }

    function RecordRejection(p: Rejection): Change {
      if !AdmitsRejection(p) then Refused(Invalid)
      else if state != DispatchStarted && state != Unknown && state != NoGeneration then Refused(Conflict)
      else if success != NO_SUCCESS then Refused(Conflict)
      else Next(this.(state := NoGeneration))
    }

    function BindSettlement(r: Settlement): Change {
      if !Valid() then Refused(Invalid)
      else if !MatchesSettlement(r) then Refused(Conflict)
      else if settlement != NO_SETTLEMENT && settlement != r then Refused(Conflict)
      else Next(this.(settlement := r))
    }
  }

  function NewFact(intent: Intent): Option<Fact> {
    if AdmissibleIntent(intent)
    then Some(Fact(VersionOf(intent), intent, OfIdentity(intent.identity), OfIntent(intent), Prepared,
                   NO_RESERVATION, NO_SUCCESS, NO_SETTLEMENT))
    else None
  }

  /** One change any participant may ask for. */
  datatype Command =
    | Reserve(reservation: Reservation)
    | Begin
    | NoEffect
    | Lose
    | Succeed(success: Success)
    | Reject(rejection: Rejection)
    | Settle(settlement: Settlement)

  function Try(fact: Fact, command: Command): Change {
    match command
    case Reserve(r) => fact.BindReservation(r)
    case Begin => fact.BeginDispatch().0
    case NoEffect => fact.RecordNoGeneration()
    case Lose => fact.MarkUnknown()
    case Succeed(s) => fact.RecordSuccess(s)
    case Reject(p) => fact.RecordRejection(p)
    case Settle(r) => fact.BindSettlement(r)
  }

  function Apply(fact: Fact, command: Command): Fact {
    match Try(fact, command) case Next(next) => next case Refused(_) => fact
  }

  /** Did this command hand out the permission to call the provider? */
  predicate Wins(fact: Fact, command: Command) {
    command.Begin? && fact.BeginDispatch().1
  }

  predicate Terminal(state: State) {
    state.Succeeded? || state.NoGeneration?
  }

  /** How a later fact may differ from an earlier one: terminal states stay, and what is written stays. */
  ghost predicate Later(earlier: Fact, later: Fact) {
    && later.intent == earlier.intent && later.intentId == earlier.intentId && later.fingerprint == earlier.fingerprint
    && (Terminal(earlier.state) ==> later.state == earlier.state)
    && (earlier.state != Prepared ==> later.state != Prepared)
    && (earlier.reservation.reservationId != "" ==> later.reservation == earlier.reservation)
    && (earlier.success != NO_SUCCESS ==> later.success == earlier.success)
    && (earlier.settlement != NO_SETTLEMENT ==> later.settlement == earlier.settlement)
  }

  /** Every transition keeps `Valid` and only moves forward. */
  lemma StepLaws(fact: Fact, command: Command)
    requires fact.Valid()
    ensures Apply(fact, command).Valid()
    ensures Later(fact, Apply(fact, command))
    ensures Wins(fact, command) ==> fact.state == Prepared && Apply(fact, command).state == DispatchStarted
  {
    hide ValidSuccess, Trimmed, AdmissibleIntent, VersionOf;
    match command
    case Reserve(r) =>
    case Begin =>
    case NoEffect =>
    case Lose =>
    case Succeed(s) => assert ValidSuccess(s) ==> s != NO_SUCCESS by { ReportedIsNotEmpty(s); }
    case Reject(p) => assert fact.state != NoGeneration ==> fact.settlement == NO_SETTLEMENT || fact.state == Succeeded;
    case Settle(r) =>
  }

  lemma ReportedIsNotEmpty(s: Success)
    ensures ValidSuccess(s) ==> s != NO_SUCCESS
  {
  }

  function Run(fact: Fact, commands: seq<Command>): Fact
    decreases |commands|
  {
    if commands == [] then fact else Run(Apply(fact, commands[0]), commands[1..])
  }

  function CountWins(fact: Fact, commands: seq<Command>): nat
    decreases |commands|
  {
    if commands == [] then 0
    else (if Wins(fact, commands[0]) then 1 else 0) + CountWins(Apply(fact, commands[0]), commands[1..])
  }

  /** Over any run: the fact stays valid, history is never rewritten, and the permission to call the
      provider is granted at most once, and never again after the fact left `Prepared`. */
  lemma {:induction false} RunLaws(fact: Fact, commands: seq<Command>)
    requires fact.Valid()
    ensures Run(fact, commands).Valid() && Later(fact, Run(fact, commands))
    ensures CountWins(fact, commands) <= (if fact.state == Prepared then 1 else 0)
    decreases |commands|
  {
    hide Fact.Valid, Apply, Wins;
    if commands != [] {
      StepLaws(fact, commands[0]);
      RunLaws(Apply(fact, commands[0]), commands[1..]);
    }
  }

  /** A bound settlement says which of the two terminal states it belongs to. */
  lemma SettlementTellsOutcome(fact: Fact)
    requires fact.Valid() && fact.settlement != NO_SETTLEMENT
    ensures Terminal(fact.state)
    ensures fact.settlement.state == "committed" <==> fact.state == Succeeded
    ensures fact.settlement.state in {"released", "no_reservation"} <==> fact.state == NoGeneration
    ensures fact.settlement.state == "no_reservation" ==> fact.reservation == NO_RESERVATION
  {
    assert "committed"[0] == 'c' && "released"[0] == 'r' && "no_reservation"[0] == 'n';
  }

  // ----- what a run must have seen -----

  /** The two kinds of evidence that nothing was generated although the dispatch had begun: the provider's free tier was
      used up, or a source image was refused before the provider was asked. */
  ghost predicate IsEvidence(intent: Intent, p: Rejection) {
    && p.digestWellFormed
    && ((p.kind == "bailian_free_tier" && intent.provider == "bailian" &&
      intent.protocol == "dashscope-image-sync-v1" &&
         p.httpStatus == 403 && p.providerCode == "AllocationQuota.FreeTierOnly" && p.requestIdIsUuid) ||
        (p.kind == "source_edit_preflight" && intent.inputProtocol == ImageSet &&
         p.requestId == "" && p.httpStatus == 0 && p.providerCode == ""))
  }

  /** Such evidence, and only such evidence, turns a dispatched generation into none. */
  lemma RejectionExactly(fact: Fact, p: Rejection)
    requires fact.Valid()
    ensures fact.RecordRejection(p).Next? <==>
            IsEvidence(fact.intent, p) && fact.state in {DispatchStarted, Unknown, NoGeneration}
    ensures fact.RecordRejection(p).Next? ==> fact.RecordRejection(p) == Next(fact.(state := NoGeneration))
  {
    assert "bailian_free_tier"[0] != "source_edit_preflight"[0];
    hide ValidSuccess, AdmissibleIntent, Fact.MatchesReceipt, Fact.MatchesSettlement;
  }

  ghost predicate Holds(commands: seq<Command>, command: Command) {
    exists k | 0 <= k < |commands| :: commands[k] == command
  }

  lemma HoldsLater(commands: seq<Command>, command: Command)
    requires commands != [] && (commands[0] == command || Holds(commands[1..], command))
    ensures Holds(commands, command)
  {
    if commands[0] == command {
      assert commands[0] == command;
    } else {
      var k :| 0 <= k < |commands[1..]| && commands[1..][k] == command;
      assert commands[k + 1] == command;
    }
  }

  /** A generation that was dispatched ends as none only through evidence. */
  lemma {:induction false} NothingWithoutEvidence(fact: Fact, commands: seq<Command>)
    requires fact.Valid() && fact.state in {DispatchStarted, Unknown} && Run(fact, commands).state == NoGeneration
    ensures exists p :: IsEvidence(fact.intent, p) && Holds(commands, Reject(p))
    decreases |commands|
  {
    hide Fact.Valid, Apply, IsEvidence;
    var command := commands[0];
    StepLaws(fact, command);
    StepFrom(fact, command);
    if command.Reject? && Apply(fact, command).state == NoGeneration {
      assert commands[0] == Reject(command.rejection);
      assert Holds(commands, Reject(command.rejection));
    } else if Apply(fact, command).state == Succeeded {
      RunLaws(Apply(fact, command), commands[1..]);
    } else {
      NothingWithoutEvidence(Apply(fact, command), commands[1..]);
      var p :| IsEvidence(fact.intent, p) && Holds(commands[1..], Reject(p));
      HoldsLater(commands, Reject(p));
    }
  }

  /** Where one command can take a dispatched generation. */
  lemma StepFrom(fact: Fact, command: Command)
    requires fact.Valid() && fact.state in {DispatchStarted, Unknown}
    ensures Apply(fact, command).state in {DispatchStarted, Unknown, NoGeneration, Succeeded}
    ensures Apply(fact, command).state == NoGeneration ==> command.Reject? && IsEvidence(fact.intent, command.rejection)
    ensures Apply(fact, command).state == Succeeded ==> command.Succeed?
  {
    StepLaws(fact, command);
    if command.Reject? {
      RejectionExactly(fact, command.rejection);
    }
    hide ValidSuccess, AdmissibleIntent, Fact.MatchesReceipt, Fact.MatchesSettlement, IsEvidence;
  }

  /** A success, a reservation and a settlement are those that some command brought. */
  lemma {:induction false} NothingInvented(fact: Fact, commands: seq<Command>)
    requires fact.Valid()
    ensures var last := Run(fact, commands);
            && (last.success == fact.success || Holds(commands, Succeed(last.success)))
            && (last.reservation == fact.reservation || Holds(commands, Reserve(last.reservation)))
            && (last.settlement == fact.settlement || Holds(commands, Settle(last.settlement)))
            && (last.state == DispatchStarted ==> fact.state == DispatchStarted || Holds(commands, Begin))
    decreases |commands|
  {
    hide Fact.Valid, Holds;
    if commands != [] {
      var command, next := commands[0], Apply(fact, commands[0]);
      StepLaws(fact, command);
      NothingInvented(next, commands[1..]);
      var last := Run(next, commands[1..]);
      StepBrings(fact, command);
      HoldsAny(commands, Succeed(last.success));
      HoldsAny(commands, Reserve(last.reservation));
      HoldsAny(commands, Settle(last.settlement));
      HoldsAny(commands, Begin);
      hide Apply, Wins;
    }
  }

  lemma HoldsAny(commands: seq<Command>, command: Command)
    requires commands != []
    ensures commands[0] == command || Holds(commands[1..], command) ==> Holds(commands, command)
  {
    if commands[0] == command || Holds(commands[1..], command) {
      HoldsLater(commands, command);
    }
  }

  lemma StepBrings(fact: Fact, command: Command)
    ensures var next := Apply(fact, command);
            && (next.success == fact.success || command == Succeed(next.success))
            && (next.reservation == fact.reservation || command == Reserve(next.reservation))
            && (next.settlement == fact.settlement || command == Settle(next.settlement))
            && (next.state == DispatchStarted ==> fact.state == DispatchStarted || command == Begin)
  {
    hide Fact.Valid, ValidSuccess, Fact.MatchesReceipt, Fact.MatchesSettlement, Fact.AdmitsRejection;
  }

  /** What a valid fact's receipts say: this intent, this owner, these points; and a settlement is about the outcome. */
  lemma ReceiptsAgree(fact: Fact)
    requires fact.Valid()
    ensures fact.reservation != NO_RESERVATION ==>
              && fact.reservation.intentId == OfIdentity(fact.intent.identity) &&
                fact.reservation.fingerprint == OfIntent(fact.intent)
              && fact.reservation.organizationId == fact.intent.identity.tenant &&
                fact.reservation.memberId == fact.intent.memberId
              && fact.reservation.operation == ReserveFor(OfIdentity(fact.intent.identity)) &&
                fact.reservation.resourceType == "ai_point"
              && fact.reservation.points == fact.intent.points &&
                fact.reservation.priceVersion == fact.intent.priceVersion
              && fact.reservation.limitVersion == fact.intent.limitVersion &&
                fact.reservation.monthStart == fact.intent.monthStart
              && 1 <= |fact.reservation.reservationId| <= 128
    ensures fact.settlement != NO_SETTLEMENT ==>
              && fact.settlement.intentId == OfIdentity(fact.intent.identity) &&
                fact.settlement.fingerprint == OfIntent(fact.intent)
              && fact.settlement.operation == FinalizeFor(OfIdentity(fact.intent.identity)) &&
                fact.settlement.points == fact.intent.points
              && fact.settlement.proof == OfOutcome(OfIntent(fact.intent), fact.state, fact.success)
              && (fact.reservation != NO_RESERVATION ==>
                fact.settlement.reservationId == fact.reservation.reservationId)
    ensures fact.state in {DispatchStarted, Unknown, Succeeded} ==> fact.reservation != NO_RESERVATION
    ensures fact.intent.points > 0 && fact.intent.identity.planRevision > 0 && fact.intent.identity.attempt > 0
    ensures fact.success != NO_SUCCESS <==> fact.state == Succeeded
  {
    ReportedIsNotEmpty(fact.success);
    hide ValidSuccess;
  }

  /** A success that may be recorded: a safe result or the reason why there is none, identifiers that fit, and usage
      that adds up or is not claimed. */
  lemma SuccessExactly(s: Success)
    ensures ValidSuccess(s) <==>
            && ((s.resultUrl != "" && s.urlIsSafe && s.unavailable == "") ||
                (s.resultUrl == "" && s.unavailable == "invalid_result"))
            && 1 <= |s.responseId| <= 192 && Trimmed(s.responseId) && |s.requestId| <= 192 && Trimmed(s.requestId)
            && s.digestWellFormed
            && (s.usageKnown ==> s.inputTokens >= 0 && s.outputTokens >= 0 && s.totalTokens > 0 &&
                                 s.inputTokens + s.outputTokens == s.totalTokens)
            && (!s.usageKnown ==> s.inputTokens == s.outputTokens == s.totalTokens == 0)
  {
    hide Trimmed;
  }

  // ----- the receipts a ledger owes -----

  function ReservationFor(fact: Fact): Reservation {
    Reservation(fact.intentId, fact.fingerprint, fact.intent.identity.tenant, fact.intent.memberId,
      ReserveFor(fact.intentId),
                "reservation", "ai_point", fact.intent.points, fact.intent.priceVersion, fact.intent.limitVersion,
                fact.intent.monthStart)
  }

  function SettlementFor(fact: Fact): Settlement {
    Settlement(fact.intentId, fact.fingerprint, FinalizeFor(fact.intentId), fact.reservation.reservationId,
               if fact.state.Succeeded? then "committed"
               else if fact.reservation.reservationId != "" then "released" else "no_reservation",
               fact.TerminalProof(), fact.intent.points)
  }

  lemma ReservationFits(fact: Fact)
    requires fact.Valid() && fact.state.Prepared? && fact.reservation == NO_RESERVATION
    ensures fact.BindReservation(ReservationFor(fact)) == Next(fact.(reservation := ReservationFor(fact)))
  {
    hide ValidSuccess, AdmissibleIntent;
  }

  /** Whoever asks first, the ledger's settlement is taken, and taken again. */
  lemma SettlementFits(fact: Fact)
    requires fact.Valid() && Terminal(fact.state) && fact.settlement in {NO_SETTLEMENT, SettlementFor(fact)}
    ensures fact.BindSettlement(SettlementFor(fact)) == Next(fact.(settlement := SettlementFor(fact)))
    ensures SettlementFor(fact.(settlement := SettlementFor(fact))) == SettlementFor(fact) != NO_SETTLEMENT
  {
    hide ValidSuccess, AdmissibleIntent;
  }
}
