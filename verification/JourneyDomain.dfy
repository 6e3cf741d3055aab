/** Identity checks at pick-up, evidence decisions, and the provider-free run through a whole journey. */
module JourneyDomain {
  import opened Prelude
  import opened BookingStatus
  import opened DriverDomain

  // ---------------------------------------------------------------- RideCheck

  datatype RideCheckStatus = Pending | Verified | Locked | CheckExpired | SupersededCheck

  datatype RideCheckReason = ReasonVerified | Mismatch | AttemptsExhausted | ReasonExpired | NotPending

  datatype RideCheckDecision = RideCheckDecision(accepted: bool, next: RideCheckStatus, remaining: int, reason: RideCheckReason)

  function AtLeastZero(n: int): int {
    if n < 0 then 0 else n
  }

  function EvaluateRideCheck(status: RideCheckStatus, matches: bool, used: int, maximum: int, expiresAt: Time, now: Time): RideCheckDecision {
    var before := AtLeastZero(maximum - used);
    if status != Pending then RideCheckDecision(false, status, before, NotPending)
    else if expiresAt <= now then RideCheckDecision(false, CheckExpired, before, ReasonExpired)
    else if matches then RideCheckDecision(true, Verified, AtLeastZero(before - 1), ReasonVerified)
    else
      var remaining := AtLeastZero(maximum - used - 1);
      if remaining == 0 then RideCheckDecision(false, Locked, remaining, AttemptsExhausted)
      else RideCheckDecision(false, Pending, remaining, Mismatch)
  }

  /** Attempts left when `used` of `maximum` are gone; never below zero. */
  function Left(maximum: int, used: int): int {
    if used >= maximum then 0 else maximum - used
  }

  /** An attempt is judged only on a pending check before its expiry: a match verifies it, a mismatch uses an attempt up and locks the check
      with the last one. */
  lemma RideCheckMeans(status: RideCheckStatus, matches: bool, used: int, maximum: int, expiresAt: Time, now: Time)
    ensures var d := EvaluateRideCheck(status, matches, used, maximum, expiresAt, now);
            && (d.accepted <==> status == Pending && now < expiresAt && matches)
            && (d.reason == NotPending <==> status != Pending)
            && (d.reason == ReasonExpired <==> status == Pending && now >= expiresAt)
            && (d.reason == ReasonVerified <==> d.accepted)
            && (d.reason == AttemptsExhausted <==> status == Pending && now < expiresAt && !matches && Left(maximum, used + 1) == 0)
            && (d.reason == Mismatch <==> status == Pending && now < expiresAt && !matches && Left(maximum, used + 1) > 0)
            && (d.reason == NotPending ==> d.next == status) && (d.reason == ReasonExpired ==> d.next == CheckExpired)
            && (d.reason == ReasonVerified ==> d.next == Verified) && (d.reason == AttemptsExhausted ==> d.next == Locked)
            && (d.reason == Mismatch ==> d.next == Pending)
            && d.remaining == Left(maximum, if d.reason in {NotPending, ReasonExpired} then used else used + 1)
  {
  }

  datatype Session = Session(status: RideCheckStatus, used: int, maximum: int, expiresAt: Time)

  datatype Attempt = Attempt(matches: bool, now: Time)

  /** verifyRideCheck on the session row: an expired check does not use an attempt up. */
  function Verify(s: Session, a: Attempt): Session {
    var d := EvaluateRideCheck(s.status, a.matches, s.used, s.maximum, s.expiresAt, a.now);
    s.(status := d.next, used := s.used + if s.status == Pending && d.reason != ReasonExpired then 1 else 0)
  }

  /** A session counts exactly the attempts that are judged. */
  lemma VerifyMeans(s: Session, a: Attempt)
    ensures Verify(s, a).used == (if s.status == Pending && a.now < s.expiresAt then s.used + 1 else s.used)
    ensures Verify(s, a).maximum == s.maximum && Verify(s, a).expiresAt == s.expiresAt
    ensures Verify(s, a).status == (if s.status != Pending then s.status else if a.now >= s.expiresAt then CheckExpired
                                    else if a.matches then Verified else if Left(s.maximum, s.used + 1) == 0 then Locked else Pending)
  {
  }

  function VerifyAll(s: Session, attempts: seq<Attempt>): Session {
    if attempts == [] then s else Verify(VerifyAll(s, attempts[..|attempts| - 1]), attempts[|attempts| - 1])
  }

  function NewSession(maximum: int, expiresAt: Time): Session {
    Session(Pending, 0, maximum, expiresAt)
  }

  /** A final session never changes. */
  lemma {:induction false} FinalIsAbsorbing(s: Session, attempts: seq<Attempt>)
    requires s.status != Pending
    ensures VerifyAll(s, attempts) == s
  {
    if attempts != [] { FinalIsAbsorbing(s, attempts[..|attempts| - 1]); }
  }

  /** The attempts a session of `maximum` really allows: even without any, the first one is judged. */
  function Allowed(maximum: int): int {
    if maximum < 1 then 1 else maximum
  }

  /** While a session is pending every attempt so far was an unexpired mismatch, and there is one left. */
  lemma {:induction false} PendingMeansMismatches(maximum: int, expiresAt: Time, attempts: seq<Attempt>)
    ensures var s := VerifyAll(NewSession(maximum, expiresAt), attempts);
            && s.maximum == maximum && s.expiresAt == expiresAt
            && (s.status == Pending <==>
                  |attempts| < Allowed(maximum) && forall i :: 0 <= i < |attempts| ==> !attempts[i].matches && attempts[i].now < expiresAt)
            && (s.status == Pending ==> s.used == |attempts| && (maximum >= 1 ==> s.used < maximum))
            && s.used <= Allowed(maximum)
  {
    if attempts != [] {
      var n := |attempts| - 1;
      PendingMeansMismatches(maximum, expiresAt, attempts[..n]);
      var before := VerifyAll(NewSession(maximum, expiresAt), attempts[..n]);
      if before.status == Pending {
        assert forall i :: 0 <= i < n ==> attempts[i] == attempts[..n][i];
      } else {
        assert forall i :: 0 <= i < n ==> attempts[i] == attempts[..n][i];
      }
    }
  }

  predicate DecidesAt(attempts: seq<Attempt>, i: nat, maximum: int, expiresAt: Time) {
    && i < |attempts| && i < Allowed(maximum) && attempts[i].matches && attempts[i].now < expiresAt
    && forall j :: 0 <= j < i ==> !attempts[j].matches && attempts[j].now < expiresAt
  }

  /** A session is verified exactly if some attempt within the allowance matched in time, after nothing but mismatches in time. */
  lemma {:induction false} VerifiedIff(maximum: int, expiresAt: Time, attempts: seq<Attempt>)
    ensures VerifyAll(NewSession(maximum, expiresAt), attempts).status == Verified <==>
              exists i :: DecidesAt(attempts, i, maximum, expiresAt)
  {
    if attempts != [] {
      var n := |attempts| - 1;
      var shorter := attempts[..n];
      VerifiedIff(maximum, expiresAt, shorter);
      PendingMeansMismatches(maximum, expiresAt, shorter);
      EarlierDecisions(attempts, maximum, expiresAt);
    }
  }

  /** All but the last attempt decide as they did without it. */
  lemma EarlierDecisions(attempts: seq<Attempt>, maximum: int, expiresAt: Time)
    requires attempts != []
    ensures var n := |attempts| - 1;
            var shorter := attempts[..n];
            && (forall i: nat :: i < n ==> (DecidesAt(shorter, i, maximum, expiresAt) <==> DecidesAt(attempts, i, maximum, expiresAt)))
            && (DecidesAt(attempts, n, maximum, expiresAt) <==>
                  && attempts[n].matches && attempts[n].now < expiresAt && n < Allowed(maximum)
                  && forall j :: 0 <= j < n ==> !shorter[j].matches && shorter[j].now < expiresAt)
  {
    var n := |attempts| - 1;
    var shorter := attempts[..n];
    assert forall j {:trigger shorter[j]} {:trigger attempts[j]} :: 0 <= j < n ==> shorter[j] == attempts[j];
    forall i: nat | i < n ensures DecidesAt(shorter, i, maximum, expiresAt) <==> DecidesAt(attempts, i, maximum, expiresAt) {
      assert shorter[i] == attempts[i];
    }
  }

  /** After as many mismatches as there are attempts, no attempt verifies any more. */
  lemma MismatchesLockForGood(maximum: int, expiresAt: Time, attempts: seq<Attempt>)
    requires |attempts| >= Allowed(maximum) && forall i :: 0 <= i < Allowed(maximum) ==> !attempts[i].matches
    ensures VerifyAll(NewSession(maximum, expiresAt), attempts).status in {Locked, CheckExpired}
  {
    VerifiedIff(maximum, expiresAt, attempts);
    PendingMeansMismatches(maximum, expiresAt, attempts);
    NeverSuperseded(maximum, expiresAt, attempts);
    forall i: nat ensures !DecidesAt(attempts, i, maximum, expiresAt) {}
  }

  lemma {:induction false} NeverSuperseded(maximum: int, expiresAt: Time, attempts: seq<Attempt>)
    ensures VerifyAll(NewSession(maximum, expiresAt), attempts).status != SupersededCheck
  {
    if attempts != [] { NeverSuperseded(maximum, expiresAt, attempts[..|attempts| - 1]); }
  }

  // ---------------------------------------------------------------- evidence

  datatype Number = NotFinite | Finite(value: real)

  datatype Observation = Observation(observedAt: Time, receivedAt: Time, accuracy: Number, confidence: Number)

  datatype LocationPolicy = LocationPolicy(maxAgeSeconds: int, futureSkewSeconds: int, maximumAccuracy: real, minimumConfidence: real)

  datatype LocationBlocker = InFuture | Stale | AccuracyLow | ConfidenceLow

  datatype LocationState = Live | Delayed | DegradedState | StaleState

  datatype LocationDecision = LocationDecision(usable: bool, state: LocationState, blockers: seq<LocationBlocker>)

  /** When a blocker stands against an observation. Ages are compared in milliseconds. */
  predicate Blocks(b: LocationBlocker, o: Observation, p: LocationPolicy) {
    match b
    case InFuture => o.receivedAt - o.observedAt < -p.futureSkewSeconds * 1_000
    case Stale => o.receivedAt - o.observedAt > p.maxAgeSeconds * 1_000
    case AccuracyLow => o.accuracy.NotFinite? || o.accuracy.value < 0.0 || o.accuracy.value > p.maximumAccuracy
    case ConfidenceLow => o.confidence.NotFinite? || o.confidence.value < p.minimumConfidence || o.confidence.value > 1.0
  }

  const LOCATION_BLOCKERS: seq<LocationBlocker> := [InFuture, Stale, AccuracyLow, ConfidenceLow]

  function BlocksIn(o: Observation, p: LocationPolicy): LocationBlocker -> bool {
    b => Blocks(b, o, p)
  }

  /** The blockers that stand against an observation, in their fixed order. */
  function LocationBlockers(o: Observation, p: LocationPolicy): seq<LocationBlocker> {
    FilterSeq(BlocksIn(o, p), LOCATION_BLOCKERS)
  }

  lemma LocationOrder(o: Observation, p: LocationPolicy)
    ensures LocationBlockers(o, p)
         == (if Blocks(InFuture, o, p) then [InFuture] else []) + (if Blocks(Stale, o, p) then [Stale] else [])
            + (if Blocks(AccuracyLow, o, p) then [AccuracyLow] else []) + (if Blocks(ConfidenceLow, o, p) then [ConfidenceLow] else [])
  {
    hide Blocks;
    var f := BlocksIn(o, p);
    FilterAppend(f, [], InFuture);
    FilterAppend(f, [InFuture], Stale);
    FilterAppend(f, [InFuture, Stale], AccuracyLow);
    FilterAppend(f, [InFuture, Stale, AccuracyLow], ConfidenceLow);
    assert [] + [InFuture] == [InFuture] && [InFuture] + [Stale] == [InFuture, Stale];
    assert [InFuture, Stale] + [AccuracyLow] == [InFuture, Stale, AccuracyLow];
    assert [InFuture, Stale, AccuracyLow] + [ConfidenceLow] == LOCATION_BLOCKERS;
  }

  lemma LocationDistinct(o: Observation, p: LocationPolicy)
    ensures Distinct(LocationBlockers(o, p))
  {
    hide FilterSeq;
    FilterDistinct(BlocksIn(o, p), LOCATION_BLOCKERS);
  }

  /** The local blocker list and the state derived from it. */
  method EvaluateLocationEvidence(o: Observation, p: LocationPolicy) returns (d: LocationDecision)
    ensures d.blockers == LocationBlockers(o, p)
    ensures forall b :: b in d.blockers <==> Blocks(b, o, p)
    ensures Distinct(d.blockers)
    ensures d.usable <==> forall b :: !Blocks(b, o, p)
    ensures d.state == StaleState <==> Blocks(InFuture, o, p) || Blocks(Stale, o, p)
    ensures d.state == DegradedState <==> !d.usable && d.state != StaleState
    ensures d.state == Delayed <==> d.usable && (o.receivedAt - o.observedAt) * 2 > p.maxAgeSeconds * 1_000
  {
    hide Blocks, LocationBlockers, Distinct;
    LocationDistinct(o, p);
    var blockers: seq<LocationBlocker> := [];
    if Blocks(InFuture, o, p) { blockers := blockers + [InFuture]; }
    if Blocks(Stale, o, p) { blockers := blockers + [Stale]; }
    if Blocks(AccuracyLow, o, p) { blockers := blockers + [AccuracyLow]; }
    if Blocks(ConfidenceLow, o, p) { blockers := blockers + [ConfidenceLow]; }
    LocationOrder(o, p);
    forall b ensures b in blockers <==> Blocks(b, o, p) {
      match b case InFuture => case Stale => case AccuracyLow => case ConfidenceLow =>
    }
    EmptyIffNoMember(blockers);
    var state := Live;
    if InFuture in blockers || Stale in blockers { state := StaleState; }
    else if blockers != [] { state := DegradedState; }
    else if (o.receivedAt - o.observedAt) * 2 > p.maxAgeSeconds * 1_000 { state := Delayed; }
    d := LocationDecision(blockers == [], state, blockers);
  }

  /** Each blocker by its own condition, and the state by age: stale outside the window, delayed past half of the maximum age. */
  lemma BlocksMean(o: Observation, p: LocationPolicy)
    ensures Blocks(InFuture, o, p) <==> o.observedAt > o.receivedAt + p.futureSkewSeconds * 1_000
    ensures Blocks(Stale, o, p) <==> o.receivedAt > o.observedAt + p.maxAgeSeconds * 1_000
    ensures Blocks(AccuracyLow, o, p) <==> !(o.accuracy.Finite? && 0.0 <= o.accuracy.value <= p.maximumAccuracy)
    ensures Blocks(ConfidenceLow, o, p) <==> !(o.confidence.Finite? && p.minimumConfidence <= o.confidence.value <= 1.0)
  {
  }

  datatype CompletionInput = CompletionInput(
    journeyArriving: bool, bookingArriving: bool, assignmentActive: bool, destinationEvidenceAccepted: bool,
    activeHold: bool, continuityOpen: bool, handoverRequired: bool, authorisedHandoverRecorded: bool, handoverFailureOpen: bool)

  datatype CompletionBlocker =
    | NotArriving | AssignmentNotActive | DestinationEvidenceRejected | ActiveCompletionHold
    | ContinuityCaseOpen | HandoverFailureOpen | HandoverMissing

  predicate StopsCompletion(b: CompletionBlocker, i: CompletionInput) {
    match b
    case NotArriving => !i.journeyArriving || !i.bookingArriving
    case AssignmentNotActive => !i.assignmentActive
    case DestinationEvidenceRejected => !i.destinationEvidenceAccepted
    case ActiveCompletionHold => i.activeHold
    case ContinuityCaseOpen => i.continuityOpen
    case HandoverFailureOpen => i.handoverFailureOpen
    case HandoverMissing => i.handoverRequired && !i.authorisedHandoverRecorded
  }

  const COMPLETION_BLOCKERS: seq<CompletionBlocker> := [
    NotArriving, AssignmentNotActive, DestinationEvidenceRejected, ActiveCompletionHold, ContinuityCaseOpen, HandoverFailureOpen, HandoverMissing]

  function StopsIn(i: CompletionInput): CompletionBlocker -> bool {
    b => StopsCompletion(b, i)
  }

  /** What stands against completion, in its fixed order. */
  function CompletionBlockers(i: CompletionInput): seq<CompletionBlocker> {
    FilterSeq(StopsIn(i), COMPLETION_BLOCKERS)
  }

  /** What stands among the first `n` blockers. */
  function StopsAmong(i: CompletionInput, n: nat): seq<CompletionBlocker>
    requires n <= |COMPLETION_BLOCKERS|
  {
    FilterSeq(StopsIn(i), COMPLETION_BLOCKERS[..n])
  }

  lemma AllAmong(i: CompletionInput)
    ensures StopsAmong(i, 0) == [] && StopsAmong(i, 7) == CompletionBlockers(i)
  {
    hide StopsCompletion;
    EmptyIffNoMember(StopsAmong(i, 0));
    assert COMPLETION_BLOCKERS[..7] == COMPLETION_BLOCKERS;
  }

  /** Pushes the next blocker if it stands. */
  method PushStop(blockers: seq<CompletionBlocker>, n: nat, i: CompletionInput) returns (longer: seq<CompletionBlocker>)
    requires n < |COMPLETION_BLOCKERS| && blockers == StopsAmong(i, n)
    ensures longer == StopsAmong(i, n + 1)
  {
    hide StopsCompletion, FilterSeq;
    FilterAppend(StopsIn(i), COMPLETION_BLOCKERS[..n], COMPLETION_BLOCKERS[n]);
    assert COMPLETION_BLOCKERS[..n] + [COMPLETION_BLOCKERS[n]] == COMPLETION_BLOCKERS[..n + 1];
    longer := blockers;
    if StopsCompletion(COMPLETION_BLOCKERS[n], i) { longer := longer + [COMPLETION_BLOCKERS[n]]; }
  }

  lemma CompletionMembers(i: CompletionInput)
    ensures forall b :: b in CompletionBlockers(i) <==> StopsCompletion(b, i)
  {
    hide FilterSeq, StopsCompletion;
    forall b: CompletionBlocker ensures b in COMPLETION_BLOCKERS {
      match b
      case NotArriving => assert COMPLETION_BLOCKERS[0] == b;
      case AssignmentNotActive => assert COMPLETION_BLOCKERS[1] == b;
      case DestinationEvidenceRejected => assert COMPLETION_BLOCKERS[2] == b;
      case ActiveCompletionHold => assert COMPLETION_BLOCKERS[3] == b;
      case ContinuityCaseOpen => assert COMPLETION_BLOCKERS[4] == b;
      case HandoverFailureOpen => assert COMPLETION_BLOCKERS[5] == b;
      case HandoverMissing => assert COMPLETION_BLOCKERS[6] == b;
    }
  }

  method EvaluateJourneyCompletion(i: CompletionInput) returns (allowed: bool, blockers: seq<CompletionBlocker>)
    ensures blockers == CompletionBlockers(i)
    ensures forall b :: b in blockers <==> StopsCompletion(b, i)
    ensures allowed <==> blockers == []
  {
    hide StopsAmong, CompletionBlockers, StopsCompletion;
    AllAmong(i);
    blockers := PushStop([], 0, i);
    blockers := PushStop(blockers, 1, i);
    blockers := PushStop(blockers, 2, i);
    blockers := PushStop(blockers, 3, i);
    blockers := PushStop(blockers, 4, i);
    blockers := PushStop(blockers, 5, i);
    blockers := PushStop(blockers, 6, i);
    CompletionMembers(i);
    allowed := blockers == [];
  }

  /** Completion is allowed exactly for an arriving journey on an ACTIVE assignment with accepted evidence, nothing open against it and,
      if a handover is required, an authorised one. */
  lemma CompletionMeans(i: CompletionInput)
    ensures CompletionBlockers(i) == [] <==>
              && i.journeyArriving && i.bookingArriving && i.assignmentActive && i.destinationEvidenceAccepted
              && !i.activeHold && !i.continuityOpen && !i.handoverFailureOpen && (i.handoverRequired ==> i.authorisedHandoverRecorded)
  {
    hide StopsCompletion;
    CompletionMembers(i);
    EmptyIffNoMember(CompletionBlockers(i));
    StopsMean(i);
    if forall b :: !StopsCompletion(b, i) {
      assert !StopsCompletion(NotArriving, i) && !StopsCompletion(AssignmentNotActive, i) && !StopsCompletion(DestinationEvidenceRejected, i);
      assert !StopsCompletion(ActiveCompletionHold, i) && !StopsCompletion(ContinuityCaseOpen, i);
      assert !StopsCompletion(HandoverFailureOpen, i) && !StopsCompletion(HandoverMissing, i);
    }
  }

  lemma StopsMean(i: CompletionInput)
    ensures StopsCompletion(NotArriving, i) <==> !(i.journeyArriving && i.bookingArriving)
    ensures StopsCompletion(AssignmentNotActive, i) <==> !i.assignmentActive
    ensures StopsCompletion(DestinationEvidenceRejected, i) <==> !i.destinationEvidenceAccepted
    ensures StopsCompletion(ActiveCompletionHold, i) <==> i.activeHold
    ensures StopsCompletion(ContinuityCaseOpen, i) <==> i.continuityOpen
    ensures StopsCompletion(HandoverFailureOpen, i) <==> i.handoverFailureOpen
    ensures StopsCompletion(HandoverMissing, i) <==> !(i.handoverRequired ==> i.authorisedHandoverRecorded)
    ensures forall b :: StopsCompletion(b, i) ==>
              b in {NotArriving, AssignmentNotActive, DestinationEvidenceRejected, ActiveCompletionHold, ContinuityCaseOpen, HandoverFailureOpen, HandoverMissing}
  {
  }

  /** A journey starts exactly for a verified passenger with a verified check, a driver still eligible on the ACTIVE assignment, no hold
      and accepted pick-up evidence. */
  lemma StartMeans(passengerVerified: bool, rideCheck: Option<RideCheckStatus>, assignmentActive: bool, stillEligible: bool,
                   activeHold: bool, pickupAccepted: bool)
    ensures CanStartJourney(passengerVerified, rideCheck, assignmentActive, stillEligible, activeHold, pickupAccepted) <==>
              !(!passengerVerified || rideCheck.None? || rideCheck.value != Verified || !assignmentActive || !stillEligible || activeHold
                || !pickupAccepted)
  {
  }

  predicate CompletionPasses(i: CompletionInput) {
    forall b :: !StopsCompletion(b, i)
  }

  predicate CanStartJourney(passengerVerified: bool, rideCheck: Option<RideCheckStatus>, assignmentActive: bool,
                            stillEligible: bool, activeHold: bool, pickupAccepted: bool) {
    passengerVerified && rideCheck == Some(Verified) && assignmentActive && stillEligible && !activeHold && pickupAccepted
  }

  // ---------------------------------------------------------------- the whole journey

  datatype SliceInput = SliceInput(
    now: Time, amount: int, currency: string, quoteExpiresAt: Time,
    driver: EligibilityInput, pickup: Observation, distance: real, policy: LocationPolicy, arrivalRadius: real,
    verifierMatches: bool, rideCheckExpiresAt: Time, completion: CompletionInput)

  datatype SliceBlocker =
    | QuoteUnusable | DriverBlocked(driver: EligibilityBlocker) | NoDriver | ArrivalBlocked(location: LocationBlocker)
    | OutsidePickupRadius | RideCheckBlocked(reason: RideCheckReason) | JourneyStartBlocked
    | CompletionStopped(completion: CompletionBlocker) | CompletionBlocked

  datatype SliceResult = SliceResult(completed: bool, status: Status, milestones: seq<Status>, blocker: Option<SliceBlocker>)

  datatype SliceError = InvalidMoney | InvalidCurrency

  const SPINE: seq<Status> := [
    QuoteCreated, AwaitingConfirmation, Confirmed, ReadyForDispatch, SearchingForDriver, DriverAssigned, DriverEnRoute,
    DriverArrived, AwaitingRideCheck, PassengerVerified, InProgress, Arriving, Completed]

  predicate MoneyValid(amount: int) {
    0 <= amount <= MAX_SAFE_INTEGER
  }

  predicate QuotePasses(i: SliceInput) {
    i.quoteExpiresAt > i.now
  }

  predicate ArrivalPasses(i: SliceInput) {
    (forall b :: !Blocks(b, i.pickup, i.policy)) && i.distance <= i.arrivalRadius
  }

  predicate RideCheckPasses(i: SliceInput) {
    i.verifierMatches && i.rideCheckExpiresAt > i.now
  }

  /** How far along the spine the five decisions let the journey go. */
  function Reached(i: SliceInput): (n: nat)
    ensures 0 < n <= |SPINE|
  {
    if !QuotePasses(i) then 1
    else if !IsEligible(i.driver, i.now) then 5
    else if !ArrivalPasses(i) then 7
    else if !RideCheckPasses(i) then 9
    else if !CompletionPasses(i.completion) then 12
    else 13
  }

  /** How far each of the five decisions lets the journey go: to the quote, the search, on the way, to the identity check, to arriving. */
  lemma ReachedMeans(i: SliceInput)
    ensures Reached(i) == 1 <==> i.quoteExpiresAt <= i.now
    ensures Reached(i) == 5 <==> i.quoteExpiresAt > i.now && Blockers(i.driver, i.now) != []
    ensures Reached(i) == 7 <==>
              i.quoteExpiresAt > i.now && Blockers(i.driver, i.now) == []
              && (i.distance > i.arrivalRadius || exists b :: Blocks(b, i.pickup, i.policy))
    ensures Reached(i) in {9, 12, 13} <==>
              i.quoteExpiresAt > i.now && Blockers(i.driver, i.now) == []
              && i.distance <= i.arrivalRadius && forall b :: !Blocks(b, i.pickup, i.policy)
    ensures Reached(i) == 9 ==> !(i.verifierMatches && i.now < i.rideCheckExpiresAt)
    ensures Reached(i) == 12 ==> i.verifierMatches && i.now < i.rideCheckExpiresAt && exists b :: StopsCompletion(b, i.completion)
    ensures Reached(i) == 13 ==> i.verifierMatches && i.now < i.rideCheckExpiresAt && forall b :: !StopsCompletion(b, i.completion)
    ensures Reached(i) in {1, 5, 7, 9, 12, 13}
  {
    hide Blockers, Blocks, StopsCompletion;
  }

  lemma MoneyMeans(amount: int)
    ensures MoneyValid(amount) <==> amount > -1 && amount < 9_007_199_254_740_992
  {
  }

  /** The runner's status and milestones. The canonical assertion of a move is its precondition, so every call proves it. */
  class Runner {
    var status: Status
    var milestones: seq<Status>

    ghost predicate Valid()
      reads this
    {
      |milestones| <= |SPINE| && milestones == SPINE[..|milestones|] && status == if milestones == [] then Draft else milestones[|milestones| - 1]
    }

    constructor ()
      ensures Valid() && milestones == []
    {
      status := Draft;
      milestones := [];
    }

    method Advance(next: Status)
      requires Valid() && |milestones| < |SPINE| && next == SPINE[|milestones|]
      requires CanForward(status, next)
      modifies this
      ensures Valid() && milestones == old(milestones) + [next]
    {
      status := next;
      milestones := milestones + [next];
    }

    method AdvanceTwice(first: Status, second: Status)
      requires Valid() && |milestones| + 2 <= |SPINE| && first == SPINE[|milestones|] && second == SPINE[|milestones| + 1]
      requires CanForward(status, first) && CanForward(first, second)
      modifies this
      ensures Valid() && |milestones| == old(|milestones|) + 2
    {
      Advance(first);
      Advance(second);
    }

    /** From the quote to the driver on the way. */
    method Depart(i: SliceInput) returns (stop: Option<SliceBlocker>)
      requires Valid() && milestones == []
      modifies this
      ensures Valid()
      ensures stop.None? <==> QuotePasses(i) && IsEligible(i.driver, i.now)
      ensures |milestones| == if stop.None? then 7 else Reached(i)
      ensures stop.Some? ==> NamesBlocker(stop.value, i)
    {
      hide Blockers, CanForward, Stands, Blocks, StopsCompletion;
      SpineCanonical();
      Advance(QuoteCreated);
      if !QuotePasses(i) { return Some(QuoteUnusable); }
      AdvanceTwice(AwaitingConfirmation, Confirmed);
      AdvanceTwice(ReadyForDispatch, SearchingForDriver);
      var blockers := Blockers(i.driver, i.now);
      if blockers != [] { return Some(DriverBlocked(blockers[0])); }
      AdvanceTwice(DriverAssigned, DriverEnRoute);
      stop := None;
    }

    /** Arrival, identity check and start. */
    method PickUp(i: SliceInput) returns (stop: Option<SliceBlocker>)
      requires Valid() && |milestones| == 7 && QuotePasses(i) && IsEligible(i.driver, i.now)
      modifies this
      ensures Valid()
      ensures stop.None? <==> ArrivalPasses(i) && RideCheckPasses(i)
      ensures |milestones| == if stop.None? then 12 else Reached(i)
      ensures stop.Some? ==> NamesBlocker(stop.value, i)
    {
      hide Blockers, CanForward, Stands, Blocks, StopsCompletion, IsEligible, LocationBlockers;
      SpineCanonical();
      var arrival := EvaluateLocationEvidence(i.pickup, i.policy);
      EmptyIffNoMember(arrival.blockers);
      var accepted := arrival.usable && i.distance <= i.arrivalRadius;
      if !accepted {
        if arrival.blockers == [] { return Some(OutsidePickupRadius); }
        return Some(ArrivalBlocked(arrival.blockers[0]));
      }
      AdvanceTwice(DriverArrived, AwaitingRideCheck);
      var check := EvaluateRideCheck(Pending, i.verifierMatches, 0, 3, i.rideCheckExpiresAt, i.now);
      if !check.accepted { return Some(RideCheckBlocked(check.reason)); }
      Advance(PassengerVerified);
      if !CanStartJourney(true, Some(check.next), true, true, false, accepted) { return Some(JourneyStartBlocked); }
      AdvanceTwice(InProgress, Arriving);
      stop := None;
    }

    /** runProviderDisabledCoreJourney: the milestones are the prefix of the spine the five decisions allow, the journey completes
        exactly if all five pass, and a stopped one names the first blocker of the decision that stopped it; JOURNEY_START_BLOCKED
        is never one. */
    method Run(i: SliceInput) returns (r: Result<SliceResult, SliceError>)
      requires Valid() && milestones == []
      modifies this
      ensures r == Failure(InvalidMoney) <==> !MoneyValid(i.amount)
      ensures r == Failure(InvalidCurrency) <==> MoneyValid(i.amount) && !IsCurrency(i.currency)
      ensures r.Success? ==> r.value.milestones == SPINE[..Reached(i)] && r.value.status == SPINE[Reached(i) - 1]
      ensures r.Success? ==> (r.value.completed <==> Reached(i) == 13)
      ensures r.Success? ==> (r.value.completed <==> r.value.blocker.None?)
      ensures r.Success? && r.value.blocker.Some? ==> NamesBlocker(r.value.blocker.value, i)
    {
      hide CanForward, Stands, Blocks, StopsCompletion, IsEligible, ArrivalPasses, RideCheckPasses, IsCurrency, Blockers, LocationBlockers,
        CompletionBlockers;
      SpineCanonical();
      if !MoneyValid(i.amount) { return Failure(InvalidMoney); }
      if !IsCurrency(i.currency) { return Failure(InvalidCurrency); }
      var stop := Depart(i);
      if stop.None? { stop := PickUp(i); }
      if stop.Some? { return Success(SliceResult(false, status, milestones, stop)); }
      var allowed, stops := EvaluateJourneyCompletion(i.completion);
      EmptyIffNoMember(stops);
      if !allowed { return Success(SliceResult(false, status, milestones, Some(CompletionStopped(stops[0])))); }
      Advance(Completed);
      r := Success(SliceResult(true, status, milestones, None));
    }
  }

  /** The blocker a stopped journey names: the first of the decision that stopped it. */
  predicate NamesBlocker(b: SliceBlocker, i: SliceInput) {
    match Reached(i)
    case 1 => b == QuoteUnusable
    case 5 => Blockers(i.driver, i.now) != [] && b == DriverBlocked(Blockers(i.driver, i.now)[0])
    case 7 =>
      if LocationBlockers(i.pickup, i.policy) == [] then b == OutsidePickupRadius
      else b == ArrivalBlocked(LocationBlockers(i.pickup, i.policy)[0])
    case 9 => b == RideCheckBlocked(if i.rideCheckExpiresAt <= i.now then ReasonExpired else Mismatch)
    case 12 => CompletionBlockers(i.completion) != [] && b == CompletionStopped(CompletionBlockers(i.completion)[0])
    case _ => false
  }

  /** The runner's path is the canonical spine from DRAFT, READY_FOR_DISPATCH taken directly. */
  lemma SpineCanonical()
    ensures |SPINE| == 13 && CanForward(Draft, SPINE[0])
    ensures forall k :: 0 < k < |SPINE| ==> CanForward(SPINE[k - 1], SPINE[k])
  {
  }
}
