/** Routing a communication to closure: one decision, and the retry loop it drives. */
module CommunicationsClosure {
  import opened Prelude

  datatype Delivery = NotAttempted | Queued | Sent | Delivered | Read | AcknowledgedDelivery | FailedDelivery | UnknownDelivery | ExpiredDelivery

  datatype Action =
    | AttemptPrimary | WaitForDelivery | AttemptFallback | OpenFailureCase | CompleteRoute | SuppressStale
    | StopOperatorControl | StopAttemptCap | Reject

  /** What stays fixed while a communication is retried. */
  datatype Facts = Facts(
    sourceCurrent: bool, recipientPermissionResolved: bool, purposeResolved: bool, validContactPoint: bool,
    accessibilityResolved: bool, unsafeChannelsExcluded: bool, activePolicy: bool, acknowledgementRequired: bool,
    fallbackPolicyAllows: bool, fallbackAvailable: bool, fallbackSourceRevalidated: bool,
    critical: bool, attemptCap: int, operatorTookControl: bool)

  datatype Progress = Progress(primaryAttempted: bool, delivery: Delivery, attempts: int)

  const MAX_SAFE_INTEGER: int := 9_007_199_254_740_991

  predicate CountsValid(f: Facts, p: Progress) {
    0 <= p.attempts <= MAX_SAFE_INTEGER && 0 <= f.attemptCap <= MAX_SAFE_INTEGER
  }

  predicate Undelivered(d: Delivery) {
    d in {FailedDelivery, UnknownDelivery, ExpiredDelivery}
  }

  predicate FallbackOpen(f: Facts) {
    f.fallbackPolicyAllows && f.fallbackAvailable && f.fallbackSourceRevalidated
  }

  /** decideCommunicationsClosureRoute; None is its one error. */
  function Decide(f: Facts, p: Progress): Option<Action> {
    if !CountsValid(f, p) then None
    else Some(
      if !f.sourceCurrent then SuppressStale
      else if !f.recipientPermissionResolved || !f.purposeResolved then Reject
      else if !f.validContactPoint || !f.accessibilityResolved || !f.unsafeChannelsExcluded || !f.activePolicy then Reject
      else if f.operatorTookControl then StopOperatorControl
      else if p.delivery == AcknowledgedDelivery || (!f.acknowledgementRequired && p.delivery in {Read, Delivered}) then CompleteRoute
      else if !p.primaryAttempted || p.delivery == NotAttempted then AttemptPrimary
      else if p.attempts >= f.attemptCap then (if f.critical then OpenFailureCase else StopAttemptCap)
      else if Undelivered(p.delivery) && FallbackOpen(f) then AttemptFallback
      else if f.critical && Undelivered(p.delivery) then OpenFailureCase
      else WaitForDelivery)
  }

  predicate IsAttempt(a: Action) {
    a in {AttemptPrimary, AttemptFallback}
  }

  /** How many attempts a run makes in which every attempt fails: the primary one is made even under a cap of zero. */
  function AttemptsMade(f: Facts): int {
    if FallbackOpen(f) && f.attemptCap > 1 then f.attemptCap else 1
  }

  /** Decide, attempt, fail, decide again: a critical communication whose attempts all fail gets a failure case
      after its cap of attempts, or after the first one when there is nothing to fall back to. */
  method RouteThroughFailures(f: Facts, outcomes: seq<Delivery>) returns (last: Action, attempts: int)
    requires Cleared(f) && !f.operatorTookControl && 0 <= f.attemptCap <= 9_007_199_254_740_991
    requires |outcomes| >= AttemptsMade(f)
    requires forall i :: 0 <= i < |outcomes| ==> outcomes[i] in {FailedDelivery, UnknownDelivery, ExpiredDelivery}
    ensures attempts == (if MayFallBack(f) && f.attemptCap > 1 then f.attemptCap else 1)
    ensures last == if f.critical then OpenFailureCase else if attempts >= f.attemptCap then StopAttemptCap else WaitForDelivery
    ensures f.critical ==> last == OpenFailureCase && attempts <= (if f.attemptCap == 0 then 1 else f.attemptCap)
  {
    var p := Progress(false, NotAttempted, 0);
    last := Decide(f, p).value;
    while IsAttempt(last)
      invariant 0 <= p.attempts <= AttemptsMade(f)
      invariant last == Decide(f, p).value && CountsValid(f, p)
      invariant p.attempts == 0 <==> !p.primaryAttempted
      invariant p.primaryAttempted ==> Undelivered(p.delivery)
      invariant p.attempts == 0 ==> p.delivery == NotAttempted
      decreases AttemptsMade(f) - p.attempts
    {
      p := Progress(true, outcomes[p.attempts], p.attempts + 1);
      last := Decide(f, p).value;
    }
    attempts := p.attempts;
  }

  /** Neither acceptance by a provider nor SENT completes a route; nothing stale is ever attempted. */
  lemma OnlyConfirmedDeliveryCompletes(f: Facts, p: Progress)
    ensures Decide(f, p) == Some(CompleteRoute) ==>
              Cleared(f) && !f.operatorTookControl && (p.delivery == AcknowledgedDelivery || (!f.acknowledgementRequired && p.delivery in {Read, Delivered}))
    ensures Decide(f, p).Some? && IsAttempt(Decide(f, p).value) ==> Cleared(f) && !f.operatorTookControl
    ensures Decide(f, p) == Some(AttemptFallback) ==> p.attempts < f.attemptCap && Undelivered(p.delivery) && FallbackOpen(f)
  {
  }

  // ---------------------------------------------------------------- each action by its own condition

  /** Counts that are safe integers. */
  predicate Countable(f: Facts, p: Progress) {
    p.attempts >= 0 && p.attempts < 9_007_199_254_740_992 && f.attemptCap >= 0 && f.attemptCap < 9_007_199_254_740_992
  }

  /** Current, permitted, addressable and under policy. */
  predicate Cleared(f: Facts) {
    && f.sourceCurrent && f.recipientPermissionResolved && f.purposeResolved
    && f.validContactPoint && f.accessibilityResolved && f.unsafeChannelsExcluded && f.activePolicy
  }

  /** Nobody has taken over, and the last word from the recipient's side is not enough yet. */
  predicate Unanswered(f: Facts, p: Progress) {
    && Cleared(f) && !f.operatorTookControl && p.delivery != AcknowledgedDelivery
    && (p.delivery in {Read, Delivered} ==> f.acknowledgementRequired)
  }

  /** A first attempt has been made and reported on. */
  predicate Underway(p: Progress) {
    p.primaryAttempted && p.delivery != NotAttempted
  }

  predicate Broken(p: Progress) {
    p.delivery !in {NotAttempted, Queued, Sent, Delivered, Read, AcknowledgedDelivery}
  }

  predicate MayFallBack(f: Facts) {
    f.fallbackPolicyAllows && f.fallbackAvailable && f.fallbackSourceRevalidated
  }

  /** Every action is taken exactly when its own condition holds; only counts that are no safe integers are an error. */
  lemma DecisionMeans(f: Facts, p: Progress)
    ensures Decide(f, p).None? <==> !Countable(f, p)
    ensures Decide(f, p) == Some(SuppressStale) <==> Countable(f, p) && !f.sourceCurrent
    ensures Decide(f, p) == Some(Reject) <==> Countable(f, p) && f.sourceCurrent && !Cleared(f)
    ensures Decide(f, p) == Some(StopOperatorControl) <==> Countable(f, p) && Cleared(f) && f.operatorTookControl
    ensures Decide(f, p) == Some(CompleteRoute) <==> Countable(f, p) && Cleared(f) && !f.operatorTookControl && !Unanswered(f, p)
    ensures Decide(f, p) == Some(AttemptPrimary) <==> Countable(f, p) && Unanswered(f, p) && !Underway(p)
    ensures Decide(f, p) == Some(StopAttemptCap) <==>
              Countable(f, p) && Unanswered(f, p) && Underway(p) && !f.critical && p.attempts >= f.attemptCap
    ensures Decide(f, p) == Some(AttemptFallback) <==>
              Countable(f, p) && Unanswered(f, p) && Underway(p) && p.attempts < f.attemptCap && Broken(p) && MayFallBack(f)
    ensures Decide(f, p) == Some(OpenFailureCase) <==>
              Countable(f, p) && Unanswered(f, p) && Underway(p) && f.critical && (p.attempts >= f.attemptCap || (Broken(p) && !MayFallBack(f)))
    ensures Decide(f, p) == Some(WaitForDelivery) <==>
              && Countable(f, p) && Unanswered(f, p) && Underway(p) && p.attempts < f.attemptCap
              && (!Broken(p) || (!MayFallBack(f) && !f.critical))
  {
  }
}
