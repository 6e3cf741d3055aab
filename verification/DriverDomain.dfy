/**
 Driver-side decisions the dispatch protocol rests on: availability moves, duty-time fatigue,
 hard eligibility filters and the informed-choice disclosure.
 */
module DriverDomain {
  import opened Prelude

  type DriverId = nat
  type VehicleId = nat

  datatype AssignmentStatus = Active | AssignmentCancelled | AssignmentCompleted | Reassigned

  // ---------------------------------------------------------------- availability

  datatype AvailabilityStatus = Offline | Available | Offered | Assigned | OnBreak | FinishingSoon

  function AvailabilityTransitions(from: AvailabilityStatus): set<AvailabilityStatus> {
    match from
    case Offline => {Available}
    case Available => {Offline, Offered, Assigned, OnBreak, FinishingSoon}
    case Offered => {Available, Offline, Assigned, OnBreak, FinishingSoon}
    case Assigned => {}
    case OnBreak => {Available, Offline, FinishingSoon}
    case FinishingSoon => {Available, Offline, Offered, Assigned, OnBreak}
  }

  /** The guard on availability changes. It lets a status "change" to itself. */
  predicate MayMove(from: AvailabilityStatus, to: AvailabilityStatus) {
    from == to || to in AvailabilityTransitions(from)
  }

  /** The statuses a driver can move to `to` from. Nothing leads out of ASSIGNED, and only AVAILABLE leads out of OFFLINE. */
  function MovesFrom(to: AvailabilityStatus): set<AvailabilityStatus> {
    match to
    case Available => {Offline, Offered, OnBreak, FinishingSoon}
    case Offline => {Available, Offered, OnBreak, FinishingSoon}
    case Offered => {Available, FinishingSoon}
    case Assigned => {Available, Offered, FinishingSoon}
    case OnBreak => {Available, Offered, FinishingSoon}
    case FinishingSoon => {Available, Offered, OnBreak}
  }

  lemma MovesBackwards(from: AvailabilityStatus, to: AvailabilityStatus)
    ensures MayMove(from, to) <==> from == to || from in MovesFrom(to)
  {
  }

  predicate CanReleaseDriver(from: AvailabilityStatus, to: AvailabilityStatus,
                             journeyCompleted: bool, assignmentCompleted: bool) {
    from == Assigned && to == Available && journeyCompleted && assignmentCompleted
  }

  // ---------------------------------------------------------------- fatigue

  const MINUTE: Time := 60_000
  const MAX_SAFE_INTEGER: int := 9_007_199_254_740_991

  datatype FatiguePolicy = FatiguePolicy(warningAfter: int, restRequiredAfter: int, minimumRest: int) {
    predicate Ordered() {
      0 < warningAfter < restRequiredAfter && 0 < minimumRest
      && warningAfter <= MAX_SAFE_INTEGER && restRequiredAfter <= MAX_SAFE_INTEGER && minimumRest <= MAX_SAFE_INTEGER
    }
  }

  datatype FatigueEvidence = FatigueEvidence(
    shiftStartedAt: Option<Time>,
    restStartedAt: Option<Time>,
    restEndedAt: Option<Time>,
    reported: bool,
    drowsiness: bool)

  datatype FatigueState = Clear | Warning | RestRequired | HandoverRequired

  datatype FatigueBlocker = DutyEvidenceMissing | ReportedFatigue | DrowsinessObserved | DutyLimitReached

  datatype FatigueDecision = FatigueDecision(
    state: FatigueState,
    dutyMinutes: Option<int>,
    newOffersAllowed: bool,
    newJourneyStartAllowed: bool,
    breakPromptRequired: bool,
    controlRoomEscalationRequired: bool,
    blockers: seq<FatigueBlocker>)

  datatype FatigueError = PolicyNotOrdered | RestEndsBeforeStart | EvidenceInFuture

  /** Length of the recorded rest in whole minutes; Dafny's `/` rounds towards minus infinity like Math.floor. */
  function RestMinutes(e: FatigueEvidence): Option<int> {
    if e.restStartedAt.Some? && e.restEndedAt.Some?
    then Some((e.restEndedAt.value - e.restStartedAt.value) / MINUTE)
    else None
  }

  predicate RestQualifies(e: FatigueEvidence, policy: FatiguePolicy) {
    RestMinutes(e).Some? && RestMinutes(e).value >= policy.minimumRest
  }

  function EffectiveStart(e: FatigueEvidence, policy: FatiguePolicy): Option<Time> {
    if RestQualifies(e, policy) && e.shiftStartedAt.Some? && e.restEndedAt.value > e.shiftStartedAt.value
    then e.restEndedAt
    else e.shiftStartedAt
  }

  function DutyMinutes(e: FatigueEvidence, policy: FatiguePolicy, now: Time): Option<int> {
    if EffectiveStart(e, policy).Some? then Some((now - EffectiveStart(e, policy).value) / MINUTE) else None
  }

  predicate RestIsRequired(e: FatigueEvidence, policy: FatiguePolicy, now: Time) {
    || DutyMinutes(e, policy, now).None?
    || e.reported || e.drowsiness
    || DutyMinutes(e, policy, now).value >= policy.restRequiredAfter
  }

  function EvaluateFatigue(e: FatigueEvidence, policy: FatiguePolicy, now: Time, activeJourney: bool)
    : Result<FatigueDecision, FatigueError>
  {
    if !policy.Ordered() then Failure(PolicyNotOrdered)
    else if RestMinutes(e).Some? && RestMinutes(e).value < 0 then Failure(RestEndsBeforeStart)
    else
      var duty := DutyMinutes(e, policy, now);
      if duty.Some? && duty.value < 0 then Failure(EvidenceInFuture)
      else
        var restRequired := RestIsRequired(e, policy, now);
        var warning := !restRequired && duty.value >= policy.warningAfter;
        var state := if restRequired then (if activeJourney then HandoverRequired else RestRequired)
                     else if warning then Warning else Clear;
        Success(FatigueDecision(
          state, duty, !restRequired, !restRequired, warning || restRequired, state == HandoverRequired,
          (if duty.None? then [DutyEvidenceMissing] else [])
          + (if e.reported then [ReportedFatigue] else [])
          + (if e.drowsiness then [DrowsinessObserved] else [])
          + (if duty.Some? && duty.value >= policy.restRequiredAfter then [DutyLimitReached] else [])))
  }

  /** Offers are allowed exactly when nothing is listed against the driver. */
  lemma OffersAllowedIffNoBlocker(e: FatigueEvidence, policy: FatiguePolicy, now: Time, activeJourney: bool)
    requires EvaluateFatigue(e, policy, now, activeJourney).Success?
    ensures var d := EvaluateFatigue(e, policy, now, activeJourney).value;
            && (d.newOffersAllowed <==> d.blockers == [])
            && (d.newJourneyStartAllowed <==> d.blockers == [])
            && (d.controlRoomEscalationRequired <==> activeJourney && d.blockers != [])
            && (d.breakPromptRequired <==> d.state != Clear)
            && (DutyLimitReached in d.blockers <==>
                  d.dutyMinutes.Some? && d.dutyMinutes.value >= policy.restRequiredAfter)
  {
  }

  // ---------------------------------------------------------------- the fatigue decision in the evidence's own terms

  /** The recorded rest resets duty: it lasted long enough and ended after the shift began. */
  predicate RestResets(e: FatigueEvidence, policy: FatiguePolicy) {
    && e.shiftStartedAt.Some? && e.restStartedAt.Some? && e.restEndedAt.Some?
    && e.restEndedAt.value - e.restStartedAt.value >= policy.minimumRest * 60_000
    && e.restEndedAt.value > e.shiftStartedAt.value
  }

  /** How long the driver has been on duty, in milliseconds. */
  function OnDuty(e: FatigueEvidence, policy: FatiguePolicy, now: Time): Time
    requires e.shiftStartedAt.Some?
  {
    now - if RestResets(e, policy) then e.restEndedAt.value else e.shiftStartedAt.value
  }

  /** `minutes` is how many whole minutes fit into `duration`. */
  predicate WholeMinutes(minutes: int, duration: Time) {
    minutes * 60_000 <= duration < (minutes + 1) * 60_000
  }

  /** The evidence can be evaluated: an ordered policy of safe integers, no rest that ends before it starts, no duty in the future. */
  predicate Readable(e: FatigueEvidence, policy: FatiguePolicy, now: Time) {
    && 0 < policy.warningAfter < policy.restRequiredAfter <= 9_007_199_254_740_991 && 0 < policy.minimumRest <= 9_007_199_254_740_991
    && (e.restStartedAt.Some? && e.restEndedAt.Some? ==> e.restStartedAt.value <= e.restEndedAt.value)
    && (e.shiftStartedAt.Some? ==> OnDuty(e, policy, now) >= 0)
  }

  /** Nothing stands against new offers and journey starts. */
  predicate MayDrive(e: FatigueEvidence, policy: FatiguePolicy, now: Time) {
    && !e.reported && !e.drowsiness && e.shiftStartedAt.Some?
    && OnDuty(e, policy, now) < policy.restRequiredAfter * 60_000
  }

  lemma FloorIsWhole(duration: Time, bound: int)
    ensures WholeMinutes(duration / MINUTE, duration)
    ensures duration / MINUTE >= bound <==> duration >= bound * 60_000
  {
  }

  lemma RestResetsMeans(e: FatigueEvidence, policy: FatiguePolicy)
    ensures e.shiftStartedAt.Some? ==>
              EffectiveStart(e, policy) == Some(if RestResets(e, policy) then e.restEndedAt.value else e.shiftStartedAt.value)
    ensures e.shiftStartedAt.None? ==> EffectiveStart(e, policy).None?
    ensures RestMinutes(e).Some? ==> (RestMinutes(e).value < 0 <==> e.restEndedAt.value < e.restStartedAt.value)
  {
    if RestMinutes(e).Some? {
      FloorIsWhole(e.restEndedAt.value - e.restStartedAt.value, policy.minimumRest);
      FloorIsWhole(e.restEndedAt.value - e.restStartedAt.value, 0);
    }
  }

  /** The decision is taken exactly for readable evidence. Duty is counted in whole minutes from the end of a rest that lasted long
      enough and ended during the shift, else from the start of the shift. Offers and starts are allowed exactly while nothing is
      reported and duty is below the limit; a warning is given exactly when rest is not required and the warning time has come. */
  lemma FatigueExact(e: FatigueEvidence, policy: FatiguePolicy, now: Time, activeJourney: bool)
    ensures EvaluateFatigue(e, policy, now, activeJourney).Success? <==> Readable(e, policy, now)
    ensures EvaluateFatigue(e, policy, now, activeJourney).Success? ==>
              var d := EvaluateFatigue(e, policy, now, activeJourney).value;
              && (d.dutyMinutes.None? <==> e.shiftStartedAt.None?)
              && (e.shiftStartedAt.Some? ==> WholeMinutes(d.dutyMinutes.value, OnDuty(e, policy, now)))
              && (d.newOffersAllowed <==> MayDrive(e, policy, now)) && (d.newJourneyStartAllowed <==> MayDrive(e, policy, now))
              && (d.state == Warning <==> MayDrive(e, policy, now) && OnDuty(e, policy, now) >= policy.warningAfter * 60_000)
              && (d.state == Clear <==> MayDrive(e, policy, now) && OnDuty(e, policy, now) < policy.warningAfter * 60_000)
              && (d.state == HandoverRequired <==> !MayDrive(e, policy, now) && activeJourney)
              && (d.breakPromptRequired <==> d.state != Clear) && (d.controlRoomEscalationRequired <==> d.state == HandoverRequired)
  {
    RestResetsMeans(e, policy);
    if e.shiftStartedAt.Some? {
      FloorIsWhole(OnDuty(e, policy, now), 0);
      FloorIsWhole(OnDuty(e, policy, now), policy.restRequiredAfter);
      FloorIsWhole(OnDuty(e, policy, now), policy.warningAfter);
    }
  }

  /** The reasons listed against the driver, in their fixed order, each exactly when it applies. */
  lemma FatigueReasons(e: FatigueEvidence, policy: FatiguePolicy, now: Time, activeJourney: bool)
    requires EvaluateFatigue(e, policy, now, activeJourney).Success?
    ensures EvaluateFatigue(e, policy, now, activeJourney).value.blockers
         == (if e.shiftStartedAt.None? then [DutyEvidenceMissing] else []) + (if e.reported then [ReportedFatigue] else [])
            + (if e.drowsiness then [DrowsinessObserved] else [])
            + (if e.shiftStartedAt.Some? && OnDuty(e, policy, now) >= policy.restRequiredAfter * 60_000 then [DutyLimitReached] else [])
  {
    RestResetsMeans(e, policy);
    if e.shiftStartedAt.Some? { FloorIsWhole(OnDuty(e, policy, now), policy.restRequiredAfter); }
  }

  /** Which of the three errors unreadable evidence gives: the policy is looked at first, then the rest, then the duty. */
  lemma FatigueFaults(e: FatigueEvidence, policy: FatiguePolicy, now: Time, activeJourney: bool)
    ensures var r := EvaluateFatigue(e, policy, now, activeJourney);
            var ordered := 0 < policy.warningAfter < policy.restRequiredAfter <= 9_007_199_254_740_991 && 0 < policy.minimumRest <= 9_007_199_254_740_991;
            var backwards := e.restStartedAt.Some? && e.restEndedAt.Some? && e.restEndedAt.value < e.restStartedAt.value;
            && (r == Failure(PolicyNotOrdered) <==> !ordered)
            && (r == Failure(RestEndsBeforeStart) <==> ordered && backwards)
            && (r == Failure(EvidenceInFuture) <==> ordered && !backwards && e.shiftStartedAt.Some? && OnDuty(e, policy, now) < 0)
  {
    RestResetsMeans(e, policy);
    if e.shiftStartedAt.Some? { FloorIsWhole(OnDuty(e, policy, now), 0); }
  }

  lemma FloorMonotone(a: int, b: int)
    requires a <= b
    ensures a / MINUTE <= b / MINUTE
  {
  }

  /** With the evidence fixed, time only makes the decision stricter: a refusal is never lifted by waiting. */
  lemma RefusalPersists(e: FatigueEvidence, policy: FatiguePolicy, t0: Time, t1: Time, j0: bool, j1: bool)
    requires t0 <= t1
    requires EvaluateFatigue(e, policy, t0, j0).Success?
    ensures EvaluateFatigue(e, policy, t1, j1).Success?
    ensures !EvaluateFatigue(e, policy, t0, j0).value.newOffersAllowed ==>
              !EvaluateFatigue(e, policy, t1, j1).value.newOffersAllowed
    ensures EvaluateFatigue(e, policy, t0, j0).value.breakPromptRequired ==>
              EvaluateFatigue(e, policy, t1, j1).value.breakPromptRequired
  {
    var start := EffectiveStart(e, policy);
    if start.Some? { FloorMonotone(t0 - start.value, t1 - start.value); }
  }

  /** A rest shorter than the minimum changes nothing; a long enough one never raises the observed duty. */
  lemma RestNeverHarms(e: FatigueEvidence, policy: FatiguePolicy, now: Time, activeJourney: bool)
    requires EvaluateFatigue(e, policy, now, activeJourney).Success?
    ensures var bare := e.(restStartedAt := None, restEndedAt := None);
            && EvaluateFatigue(bare, policy, now, activeJourney).Success?
            && var with := EvaluateFatigue(e, policy, now, activeJourney).value;
               var without := EvaluateFatigue(bare, policy, now, activeJourney).value;
               && (!RestQualifies(e, policy) ==> with == without)
               && (with.dutyMinutes.Some? <==> without.dutyMinutes.Some?)
               && (with.dutyMinutes.Some? ==> with.dutyMinutes.value <= without.dutyMinutes.value)
               && (without.newOffersAllowed ==> with.newOffersAllowed)
  {
    var bare := e.(restStartedAt := None, restEndedAt := None);
    var start := EffectiveStart(e, policy);
    if start.Some? {
      FloorMonotone(now - start.value, now - EffectiveStart(bare, policy).value);
    }
  }

  // ---------------------------------------------------------------- eligibility

  datatype EligibilityStatus = Eligible | Ineligible | ReviewRequired

  datatype EligibilityBlocker =
    | AccountNotActive | DriverProfileNotApproved | ComplianceNotEligible | ComplianceExpired
    | VehicleNotAuthorised | VehicleNotEligible | VehicleEligibilityExpired | ServicePermissionMismatch
    | OperatingRestrictionActive | NotAvailable | LocationMissing | LocationStale | LocationConfidenceLow
    | ActiveAssignment | ScheduleConflict | FatigueSafetyBlocked | HardRequirementMismatch

  /** Confidences are in thousandths, the precision the availability table keeps. */
  datatype EligibilityInput = EligibilityInput(
    accountActive: bool,
    profileApproved: bool,
    complianceStatus: Option<EligibilityStatus>,
    complianceValidUntil: Option<Time>,
    vehicleAuthorised: bool,
    vehicleStatus: Option<EligibilityStatus>,
    vehicleValidUntil: Option<Time>,
    servicePermissionMatch: bool,
    operatingRestrictionActive: bool,
    availability: AvailabilityStatus,
    locationObservedAt: Option<Time>,
    locationConfidence: Option<int>,
    minimumLocationConfidence: int,
    maxLocationAgeSeconds: int,
    hasActiveAssignment: bool,
    hasScheduleConflict: bool,
    fatigueSafetyPassed: bool,
    hardRequirementsMatch: bool)

  predicate LocationFresh(observedAt: Time, now: Time, maxAgeSeconds: int) {
    0 <= now - observedAt <= maxAgeSeconds * 1_000
  }

  /** When `blocker` stands against the driver. Expiry is reported only for an otherwise eligible snapshot. */
  predicate Stands(blocker: EligibilityBlocker, i: EligibilityInput, now: Time) {
    match blocker
    case AccountNotActive => !i.accountActive
    case DriverProfileNotApproved => !i.profileApproved
    case ComplianceNotEligible => i.complianceStatus != Some(Eligible)
    case ComplianceExpired =>
      i.complianceStatus == Some(Eligible) && (i.complianceValidUntil.None? || i.complianceValidUntil.value <= now)
    case VehicleNotAuthorised => !i.vehicleAuthorised
    case VehicleNotEligible => i.vehicleStatus != Some(Eligible)
    case VehicleEligibilityExpired =>
      i.vehicleStatus == Some(Eligible) && (i.vehicleValidUntil.None? || i.vehicleValidUntil.value <= now)
    case ServicePermissionMismatch => !i.servicePermissionMatch
    case OperatingRestrictionActive => i.operatingRestrictionActive
    case NotAvailable => i.availability !in {Available, Offered, FinishingSoon}
    case LocationMissing => i.locationObservedAt.None?
    case LocationStale =>
      i.locationObservedAt.Some? && !LocationFresh(i.locationObservedAt.value, now, i.maxLocationAgeSeconds)
    case LocationConfidenceLow =>
      i.locationConfidence.None? || i.locationConfidence.value < i.minimumLocationConfidence
    case ActiveAssignment => i.hasActiveAssignment
    case ScheduleConflict => i.hasScheduleConflict
    case FatigueSafetyBlocked => !i.fatigueSafetyPassed
    case HardRequirementMismatch => !i.hardRequirementsMatch
  }

  function Flag(blocker: EligibilityBlocker, i: EligibilityInput, now: Time): (r: seq<EligibilityBlocker>)
    ensures forall b :: b in r <==> b == blocker && Stands(b, i, now)
  {
    if Stands(blocker, i, now) then [blocker] else []
  }

  predicate IsStanding(b: EligibilityBlocker) {
    b in {AccountNotActive, DriverProfileNotApproved, ComplianceNotEligible, ComplianceExpired, VehicleNotAuthorised, VehicleNotEligible,
          VehicleEligibilityExpired, ServicePermissionMismatch, OperatingRestrictionActive}
  }

  /** Blockers about the driver, the vehicle and their permissions, in their fixed order. */
  function StandingBlockers(i: EligibilityInput, now: Time): (blockers: seq<EligibilityBlocker>)
    ensures forall b :: b in blockers <==> IsStanding(b) && Stands(b, i, now)
  {
    Flag(AccountNotActive, i, now)
    + Flag(DriverProfileNotApproved, i, now)
    + Flag(ComplianceNotEligible, i, now)
    + Flag(ComplianceExpired, i, now)
    + Flag(VehicleNotAuthorised, i, now)
    + Flag(VehicleNotEligible, i, now)
    + Flag(VehicleEligibilityExpired, i, now)
    + Flag(ServicePermissionMismatch, i, now)
    + Flag(OperatingRestrictionActive, i, now)
  }

  /** The blockers that stand, in their fixed order: those of the moment after the standing ones. */
  function Blockers(i: EligibilityInput, now: Time): (blockers: seq<EligibilityBlocker>)
    ensures forall b :: b in blockers <==> Stands(b, i, now)
  {
    StandingBlockers(i, now)
    + Flag(NotAvailable, i, now)
    + Flag(LocationMissing, i, now)
    + Flag(LocationStale, i, now)
    + Flag(LocationConfidenceLow, i, now)
    + Flag(ActiveAssignment, i, now)
    + Flag(ScheduleConflict, i, now)
    + Flag(FatigueSafetyBlocked, i, now)
    + Flag(HardRequirementMismatch, i, now)
  }

  predicate IsEligible(i: EligibilityInput, now: Time) {
    Blockers(i, now) == []
  }

  lemma EligibleMeans(i: EligibilityInput, now: Time)
    ensures IsEligible(i, now) <==> forall b :: !Stands(b, i, now)
    ensures IsEligible(i, now) ==> i.availability in {Available, Offered, FinishingSoon} && !i.hasActiveAssignment
  {
    var blockers := Blockers(i, now);
    if blockers != [] { assert blockers[0] in blockers; }
    if blockers == [] { assert !Stands(NotAvailable, i, now) && !Stands(ActiveAssignment, i, now); }
  }

  /** An eligible snapshot that has not run out. */
  predicate StillEligible(status: Option<EligibilityStatus>, until: Option<Time>, now: Time) {
    status == Some(Eligible) && until.Some? && until.value > now
  }

  /** Nothing stands against the driver, the vehicle and their permissions. */
  predicate NoneStanding(i: EligibilityInput, now: Time) {
    && !Stands(AccountNotActive, i, now) && !Stands(DriverProfileNotApproved, i, now) && !Stands(ComplianceNotEligible, i, now)
    && !Stands(ComplianceExpired, i, now) && !Stands(VehicleNotAuthorised, i, now) && !Stands(VehicleNotEligible, i, now)
    && !Stands(VehicleEligibilityExpired, i, now) && !Stands(ServicePermissionMismatch, i, now)
    && !Stands(OperatingRestrictionActive, i, now)
  }

  /** Nothing stands against the moment. */
  predicate NonePassing(i: EligibilityInput, now: Time) {
    && !Stands(NotAvailable, i, now) && !Stands(LocationMissing, i, now) && !Stands(LocationStale, i, now)
    && !Stands(LocationConfidenceLow, i, now) && !Stands(ActiveAssignment, i, now) && !Stands(ScheduleConflict, i, now)
    && !Stands(FatigueSafetyBlocked, i, now) && !Stands(HardRequirementMismatch, i, now)
  }

  lemma EligibleStands(i: EligibilityInput, now: Time)
    ensures IsEligible(i, now) <==> NoneStanding(i, now) && NonePassing(i, now)
  {
    hide Stands, IsEligible;
    EligibleMeans(i, now);
    if NoneStanding(i, now) && NonePassing(i, now) {
      forall b ensures !Stands(b, i, now) {
        match b
        case AccountNotActive => case DriverProfileNotApproved => case ComplianceNotEligible => case ComplianceExpired =>
        case VehicleNotAuthorised => case VehicleNotEligible => case VehicleEligibilityExpired => case ServicePermissionMismatch =>
        case OperatingRestrictionActive => case NotAvailable => case LocationMissing => case LocationStale => case LocationConfidenceLow =>
        case ActiveAssignment => case ScheduleConflict => case FatigueSafetyBlocked => case HardRequirementMismatch =>
      }
    }
  }

  /** Account, profile, vehicle and permissions are in order and nothing restricts the driver. */
  predicate Qualified(i: EligibilityInput, now: Time) {
    && i.accountActive && i.profileApproved && StillEligible(i.complianceStatus, i.complianceValidUntil, now)
    && i.vehicleAuthorised && StillEligible(i.vehicleStatus, i.vehicleValidUntil, now)
    && i.servicePermissionMatch && !i.operatingRestrictionActive
  }

  /** The driver is available where a fresh, confident position says, has nothing else to do, is rested and can meet the requirements. */
  predicate AtHand(i: EligibilityInput, now: Time) {
    && i.availability in {Available, Offered, FinishingSoon}
    && i.locationObservedAt.Some? && 0 <= now - i.locationObservedAt.value <= i.maxLocationAgeSeconds * 1_000
    && i.locationConfidence.Some? && i.locationConfidence.value >= i.minimumLocationConfidence
    && !i.hasActiveAssignment && !i.hasScheduleConflict && i.fatigueSafetyPassed && i.hardRequirementsMatch
  }

  lemma NoneStandingMeans(i: EligibilityInput, now: Time)
    ensures NoneStanding(i, now) <==> Qualified(i, now)
  {
  }

  lemma NonePassingMeans(i: EligibilityInput, now: Time)
    ensures NonePassing(i, now) <==> AtHand(i, now)
  {
  }

  /** Eligibility as one condition on the facts. */
  lemma EligibleExact(i: EligibilityInput, now: Time)
    ensures IsEligible(i, now) <==> Qualified(i, now) && AtHand(i, now)
  {
    hide NoneStanding, NonePassing, IsEligible, Qualified, AtHand;
    EligibleStands(i, now);
    NoneStandingMeans(i, now);
    NonePassingMeans(i, now);
  }

  // ---------------------------------------------------------------- offer disclosure

  datatype Disclosure = Disclosure(
    pickupDistance: Option<int>,
    pickupEta: Option<int>,
    serviceCodes: seq<string>,
    contextLabels: seq<string>,
    earningAmount: Option<int>,
    earningCurrency: Option<string>,
    earningPolicy: Option<string>,
    earningFromRiderFare: bool,
    declinePenaltyApplied: bool)

  datatype DisclosureGap =
    | PickupDistance | PickupEta | ServiceType | JourneyContext | ExpectedEarning
    | IndependentEarningBasis | NonPunitiveDecline

  predicate IsCurrencyCode(s: string) {
    |s| == 3 && forall i :: 0 <= i < 3 ==> 'A' <= s[i] <= 'Z'
  }

  predicate Missing(gap: DisclosureGap, d: Disclosure) {
    match gap
    case PickupDistance => d.pickupDistance.None? || d.pickupDistance.value < 0
    case PickupEta => d.pickupEta.None? || d.pickupEta.value < 0
    case ServiceType => forall s :: s in d.serviceCodes ==> Trim(s) == ""
    case JourneyContext => forall s :: s in d.contextLabels ==> Trim(s) == ""
    case ExpectedEarning =>
      || d.earningAmount.None? || !(0 <= d.earningAmount.value <= MAX_SAFE_INTEGER)
      || d.earningCurrency.None? || !IsCurrencyCode(d.earningCurrency.value)
      || d.earningPolicy.None? || Trim(d.earningPolicy.value) == ""
    case IndependentEarningBasis => d.earningFromRiderFare
    case NonPunitiveDecline => d.declinePenaltyApplied
  }

  function Gap(gap: DisclosureGap, d: Disclosure): (r: seq<DisclosureGap>)
    ensures forall g :: g in r <==> g == gap && Missing(g, d)
  {
    if Missing(gap, d) then [gap] else []
  }

  function MissingDisclosures(d: Disclosure): (gaps: seq<DisclosureGap>)
    ensures forall g :: g in gaps <==> Missing(g, d)
  {
    Gap(PickupDistance, d) + Gap(PickupEta, d) + Gap(ServiceType, d) + Gap(JourneyContext, d)
    + Gap(ExpectedEarning, d) + Gap(IndependentEarningBasis, d) + Gap(NonPunitiveDecline, d)
  }

  predicate AcceptanceAllowed(d: Disclosure) {
    MissingDisclosures(d) == []
  }

  lemma AcceptanceMeansComplete(d: Disclosure)
    ensures AcceptanceAllowed(d) <==> forall g :: !Missing(g, d)
  {
    if MissingDisclosures(d) != [] { assert MissingDisclosures(d)[0] in MissingDisclosures(d); }
  }

  /** A disclosure an informed choice can be made on. */
  predicate Disclosed(d: Disclosure) {
    && d.pickupDistance.Some? && d.pickupDistance.value >= 0 && d.pickupEta.Some? && d.pickupEta.value >= 0
    && (exists s :: s in d.serviceCodes && Trim(s) != "") && (exists s :: s in d.contextLabels && Trim(s) != "")
    && d.earningAmount.Some? && 0 <= d.earningAmount.value <= 9_007_199_254_740_991
    && d.earningCurrency.Some? && |d.earningCurrency.value| == 3 && (forall c :: c in d.earningCurrency.value ==> 'A' <= c <= 'Z')
    && d.earningPolicy.Some? && Trim(d.earningPolicy.value) != ""
    && !d.earningFromRiderFare && !d.declinePenaltyApplied
  }

  lemma CurrencyLetters(s: string)
    ensures IsCurrencyCode(s) <==> |s| == 3 && forall c :: c in s ==> 'A' <= c <= 'Z'
  {
    if IsCurrencyCode(s) {
      forall c | c in s ensures 'A' <= c <= 'Z' { var i :| 0 <= i < |s| && s[i] == c; }
    } else if |s| == 3 {
      assert s[0] in s && s[1] in s && s[2] in s;
    }
  }

  lemma GapsMean(d: Disclosure)
    ensures (forall g :: !Missing(g, d)) <==> Disclosed(d)
  {
    hide Trim, IsCurrencyCode;
    if d.earningCurrency.Some? { CurrencyLetters(d.earningCurrency.value); }
    if forall g :: !Missing(g, d) {
      assert !Missing(PickupDistance, d) && !Missing(PickupEta, d) && !Missing(ServiceType, d) && !Missing(JourneyContext, d);
      assert !Missing(ExpectedEarning, d) && !Missing(IndependentEarningBasis, d) && !Missing(NonPunitiveDecline, d);
    }
    if Disclosed(d) {
      forall g ensures !Missing(g, d) {
        match g case PickupDistance => case PickupEta => case ServiceType => case JourneyContext => case ExpectedEarning =>
        case IndependentEarningBasis => case NonPunitiveDecline =>
      }
    }
  }

  lemma DisclosureExact(d: Disclosure)
    ensures AcceptanceAllowed(d) <==> Disclosed(d)
  {
    hide Missing, AcceptanceAllowed, Disclosed;
    AcceptanceMeansComplete(d);
    GapsMean(d);
  }
}
