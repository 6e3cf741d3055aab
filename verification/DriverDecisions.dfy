/** The driver-side decisions as the code makes them, pushing onto a local list; each is proved to be the specified list. */
module DriverDecisions {
  import opened Prelude
  import opened DriverDomain

  /** The reasons against working on, in their fixed order. */
  method ListBlockers(e: FatigueEvidence, policy: FatiguePolicy, duty: Option<int>) returns (blockers: seq<FatigueBlocker>)
    ensures blockers == (if duty.None? then [DutyEvidenceMissing] else [])
                        + (if e.reported then [ReportedFatigue] else [])
                        + (if e.drowsiness then [DrowsinessObserved] else [])
                        + (if duty.Some? && duty.value >= policy.restRequiredAfter then [DutyLimitReached] else [])
  {
    blockers := [];
    if duty.None? { blockers := blockers + [DutyEvidenceMissing]; }
    if e.reported { blockers := blockers + [ReportedFatigue]; }
    if e.drowsiness { blockers := blockers + [DrowsinessObserved]; }
    if duty.Some? && duty.value >= policy.restRequiredAfter { blockers := blockers + [DutyLimitReached]; }
  }

  /** The decision, or the error: thrown exactly for evidence that cannot be read. Offers and starts are allowed exactly without a
      blocker, escalation exactly with one during a journey; duty is counted in whole minutes from the end of a rest that lasted
      long enough and ended during the shift, else from the start of the shift. */
  method EvaluateDriverFatigueSafety(e: FatigueEvidence, policy: FatiguePolicy, now: Time, activeJourney: bool)
    returns (r: Result<FatigueDecision, FatigueError>)
    ensures r == EvaluateFatigue(e, policy, now, activeJourney)
    ensures r.Success? <==> Readable(e, policy, now)
    ensures r.Success? ==> (r.value.newOffersAllowed <==> r.value.blockers == []) && (r.value.newJourneyStartAllowed <==> r.value.blockers == [])
    ensures r.Success? ==> (r.value.newOffersAllowed <==> MayDrive(e, policy, now))
    ensures r.Success? ==> (r.value.state == Warning <==> MayDrive(e, policy, now) && OnDuty(e, policy, now) >= policy.warningAfter * 60_000)
    ensures r.Success? ==> (r.value.controlRoomEscalationRequired <==> activeJourney && r.value.blockers != [])
    ensures r.Success? ==> (r.value.dutyMinutes.None? <==> e.shiftStartedAt.None?)
    ensures r.Success? && e.shiftStartedAt.Some? ==> WholeMinutes(r.value.dutyMinutes.value, OnDuty(e, policy, now))
  {
    hide Readable, MayDrive, OnDuty, WholeMinutes;
    FatigueExact(e, policy, now, activeJourney);
    if EvaluateFatigue(e, policy, now, activeJourney).Success? { OffersAllowedIffNoBlocker(e, policy, now, activeJourney); }
    if !policy.Ordered() { return Failure(PolicyNotOrdered); }
    var rest := RestMinutes(e);
    if rest.Some? && rest.value < 0 { return Failure(RestEndsBeforeStart); }
    var start := e.shiftStartedAt;
    if rest.Some? && rest.value >= policy.minimumRest && start.Some? && e.restEndedAt.value > start.value {
      start := e.restEndedAt;
    }
    var duty: Option<int> := None;
    if start.Some? { duty := Some((now - start.value) / MINUTE); }
    if duty.Some? && duty.value < 0 { return Failure(EvidenceInFuture); }
    var blockers := ListBlockers(e, policy, duty);
    var restRequired := duty.None? || e.reported || e.drowsiness || duty.value >= policy.restRequiredAfter;
    var warning := !restRequired && duty.value >= policy.warningAfter;
    var state := Clear;
    if restRequired { state := if activeJourney then HandoverRequired else RestRequired; }
    else if warning { state := Warning; }
    r := Success(FatigueDecision(state, duty, !restRequired, !restRequired, warning || restRequired, state == HandoverRequired, blockers));
  }

  method PushGap(missing: seq<DisclosureGap>, gap: DisclosureGap, d: Disclosure) returns (longer: seq<DisclosureGap>)
    ensures longer == missing + Gap(gap, d)
  {
    longer := missing;
    if Missing(gap, d) { longer := longer + [gap]; }
  }

  /** The missing disclosures, in their fixed order. */
  method EvaluateDriverOfferDisclosure(d: Disclosure) returns (missing: seq<DisclosureGap>)
    ensures missing == MissingDisclosures(d)
    ensures missing == [] <==> forall g :: !Missing(g, d)
  {
    hide Missing, Gap;
    missing := PushGap([], PickupDistance, d);
    missing := PushGap(missing, PickupEta, d);
    missing := PushGap(missing, ServiceType, d);
    missing := PushGap(missing, JourneyContext, d);
    missing := PushGap(missing, ExpectedEarning, d);
    missing := PushGap(missing, IndependentEarningBasis, d);
    missing := PushGap(missing, NonPunitiveDecline, d);
    AcceptanceMeansComplete(d);
  }

  method PushBlocker(blockers: seq<EligibilityBlocker>, b: EligibilityBlocker, i: EligibilityInput, now: Time)
    returns (longer: seq<EligibilityBlocker>)
    ensures longer == blockers + Flag(b, i, now)
  {
    longer := blockers;
    if Stands(b, i, now) { longer := longer + [b]; }
  }

  method PushStandingBlockers(i: EligibilityInput, now: Time) returns (blockers: seq<EligibilityBlocker>)
    ensures blockers == StandingBlockers(i, now)
  {
    hide Stands, Flag;
    blockers := PushBlocker([], AccountNotActive, i, now);
    blockers := PushBlocker(blockers, DriverProfileNotApproved, i, now);
    blockers := PushBlocker(blockers, ComplianceNotEligible, i, now);
    blockers := PushBlocker(blockers, ComplianceExpired, i, now);
    blockers := PushBlocker(blockers, VehicleNotAuthorised, i, now);
    blockers := PushBlocker(blockers, VehicleNotEligible, i, now);
    blockers := PushBlocker(blockers, VehicleEligibilityExpired, i, now);
    blockers := PushBlocker(blockers, ServicePermissionMismatch, i, now);
    blockers := PushBlocker(blockers, OperatingRestrictionActive, i, now);
  }

  /** The blockers, in their fixed order; none exactly for an eligible driver. */
  method EvaluateDriverDispatchEligibility(i: EligibilityInput, now: Time) returns (blockers: seq<EligibilityBlocker>)
    ensures blockers == Blockers(i, now)
    ensures blockers == [] <==> forall b :: !Stands(b, i, now)
  {
    hide Stands, Flag, StandingBlockers;
    EligibleMeans(i, now);
    blockers := PushStandingBlockers(i, now);
    blockers := PushBlocker(blockers, NotAvailable, i, now);
    blockers := PushBlocker(blockers, LocationMissing, i, now);
    blockers := PushBlocker(blockers, LocationStale, i, now);
    blockers := PushBlocker(blockers, LocationConfidenceLow, i, now);
    blockers := PushBlocker(blockers, ActiveAssignment, i, now);
    blockers := PushBlocker(blockers, ScheduleConflict, i, now);
    blockers := PushBlocker(blockers, FatigueSafetyBlocked, i, now);
    blockers := PushBlocker(blockers, HardRequirementMismatch, i, now);
  }
}
