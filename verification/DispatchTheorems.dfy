/** What the invariant says in the protocol's own terms, for every run of commands from the empty store. */
module DispatchTheorems {
  import opened Prelude
  import opened BookingStatus
  import opened DriverDomain
  import opened DispatchStore
  import opened DispatchProtocol
  import opened DispatchInvariants
  import opened DispatchDrivers
  import opened DispatchPreservation
  import opened DispatchAcceptance
  import opened DispatchRuns
  import opened DispatchHistory

  // ---------------------------------------------------------------- assignments

  /** A driver is ASSIGNED exactly while holding an ACTIVE assignment, and never holds two. */
  lemma AssignedIffActive(commands: seq<Command>, d: DriverId)
    ensures var s := Run(EMPTY, commands);
            && (StatusOfDriver(s.availability, d) == Assigned <==> HasActiveAssignment(s.assignments, d))
            && forall a, c | HoldsActive(s.assignments, a, d) && HoldsActive(s.assignments, c, d) :: a == c
  {
    hide Run, IdsIssued, BookingSide, OfferSide, PlacesKnown, ShiftsFit;
    ReachableHolds(commands);
    var s := Run(EMPTY, commands);
    if StatusOfDriver(s.availability, d) == Assigned {
      var a :| HoldsActive(s.assignments, a, d);
    }
    if HasActiveAssignment(s.assignments, d) {
      var a :| a in s.assignments && s.assignments[a].driver == d && s.assignments[a].status == Active;
      assert HoldsActive(s.assignments, a, d);
    }
  }

  /** A booking is assigned at most once in its whole life: no ended assignment is ever followed by a replacement. */
  lemma OneAssignmentPerBooking(commands: seq<Command>, a: AssignmentId, c: AssignmentId)
    ensures var s := Run(EMPTY, commands);
            a in s.assignments && c in s.assignments && s.assignments[a].booking == s.assignments[c].booking ==> a == c
  {
    hide Run, IdsIssued, OfferSide, DriverSide, LogsAgree, AttemptsFit;
    ReachableHolds(commands);
  }

  /** Every assignment came from an accepted offer to that driver whose disclosure was complete. */
  lemma AssignmentsWereDisclosed(commands: seq<Command>, a: AssignmentId, gap: DisclosureGap)
    ensures var s := Run(EMPTY, commands);
            a in s.assignments ==>
              var o := s.assignments[a].offer;
              && o in s.offers && s.offers[o].status == OfferAccepted
              && s.offers[o].driver == s.assignments[a].driver && s.offers[o].booking == s.assignments[a].booking
              && !Missing(gap, s.offers[o].disclosure)
  {
    hide Run, IdsIssued, BookingSide, DriverSide, OffersFit, OutcomesFit, Missing;
    ReachableHolds(commands);
    var s := Run(EMPTY, commands);
    if a in s.assignments { AcceptanceMeansComplete(s.offers[s.assignments[a].offer].disclosure); }
  }

  // ---------------------------------------------------------------- attempts

  ghost predicate AttemptWith(s: Store, b: BookingId, status: AttemptStatus) {
    exists t :: AttemptOf(s.attempts, t, b) && s.attempts[t].status == status
  }

  /** A booking's one dispatch attempt and the booking itself always agree on how the search stands. */
  lemma SearchStatusesAgree(commands: seq<Command>, b: BookingId)
    ensures var s := Run(EMPTY, commands);
            b in s.bookings ==>
              && (s.bookings[b].status == SearchingForDriver <==> AttemptWith(s, b, Offering))
              && (s.bookings[b].status == NoEligibleDriver <==> AttemptWith(s, b, NoneEligible))
              && (Rank(s.bookings[b].status) <= Rank(ReadyForDispatch) <==> forall t :: !AttemptOf(s.attempts, t, b))
              && forall t, u | AttemptOf(s.attempts, t, b) && AttemptOf(s.attempts, u, b) :: t == u
  {
    hide Run, IdsIssued, OfferSide, DriverSide, LogsAgree, JourneysFit;
    ReachableHolds(commands);
    var s := Run(EMPTY, commands);
    if b in s.bookings && PhaseOf(s.bookings[b].status) != BeforeDispatch {
      var t :| AttemptOf(s.attempts, t, b);
    }
  }

  /** An assigned attempt has exactly one assignment, made from its only accepted offer, and nothing left open. */
  lemma AssignedAttempt(commands: seq<Command>, t: AttemptId)
    ensures var s := Run(EMPTY, commands);
            t in s.attempts && s.attempts[t].status == AttemptAssigned ==>
              && (exists a :: FillsAttempt(s.assignments, a, t) && IsAccepted(s.offers, s.assignments[a].offer))
              && (forall a, c | FillsAttempt(s.assignments, a, t) && FillsAttempt(s.assignments, c, t) :: a == c)
              && (forall a, o | FillsAttempt(s.assignments, a, t) && IsAccepted(s.offers, o) && s.offers[o].attempt == t ::
                    o == s.assignments[a].offer)
              && (forall o :: o in s.offers && s.offers[o].attempt == t ==> s.offers[o].status != OfferOpen)
  {
    hide Run, IdsIssued, BookingSide, DriverSide, OutcomesFit, AcceptanceAllowed;
    ReachableHolds(commands);
    var s := Run(EMPTY, commands);
    if t in s.attempts && s.attempts[t].status == AttemptAssigned {
      var a :| FillsAttempt(s.assignments, a, t);
      assert IsAccepted(s.offers, s.assignments[a].offer);
    }
  }

  // ---------------------------------------------------------------- offers

  /** An offer has an outcome exactly when it is closed; there is one, it says how the offer closed, and it is never a penalty. */
  lemma OneOutcomePerClosedOffer(commands: seq<Command>, o: OfferId)
    ensures var s := Run(EMPTY, commands);
            o in s.offers ==>
              && (s.offers[o].status == OfferOpen <==> Rows(s.outcomes, o) == [])
              && (s.offers[o].status != OfferOpen ==> |Rows(s.outcomes, o)| == 1 && Explains(Rows(s.outcomes, o)[0], s.offers[o]))
  {
    hide Run, IdsIssued, BookingSide, DriverSide, OffersFit, AssignmentsFit, Explains;
    ReachableHolds(commands);
  }

  /** A closed offer and its outcome stay what they are, whatever runs later. */
  lemma ClosedOffersNeverReopen(earlier: seq<Command>, later: seq<Command>, o: OfferId)
    ensures var s := Run(EMPTY, earlier);
            var r := Run(s, later);
            o in s.offers && s.offers[o].status != OfferOpen ==>
              o in r.offers && r.offers[o] == s.offers[o] && Rows(r.outcomes, o) == Rows(s.outcomes, o)
  {
    hide Run, Inv, RepliesKept, ReportsKept, BookingsKept, BookingLogGrows, AssignmentsKept, JourneysKept, MovesGrow, VersionsGrow;
    var s := Run(EMPTY, earlier);
    ReachableHolds(earlier);
    RunGrows(s, later);
    if o in s.offers && s.offers[o].status != OfferOpen {
      OneOutcomePerClosedOffer(earlier, o);
    }
  }

  /** No outcome is ever left out because one was already there: the ON CONFLICT clauses never have a conflict. */
  lemma ConflictClausesNeverFire(commands: seq<Command>, d: DriverId, winner: OfferId, o: OfferId)
    ensures var s := Run(EMPTY, commands);
            && (o in OpenOffersOf(s.offers, d) ==> Rows(s.outcomes, o) == [])
            && (MayAccept(s, d, winner) && o in WithdrawnForAssignment(WonOffers(s.offers, winner), s.offers[winner].attempt, winner) ==>
                  Rows(AppendRow(s.outcomes, winner, Attribution(d, OutAccepted, DriverChoice)), o) == [])
  {
    hide Run, IdsIssued, BookingSide, DriverSide, OffersFit, AssignmentsFit, Explains, WonOffers, AcceptanceAllowed;
    ReachableHolds(commands);
    var s := Run(EMPTY, commands);
    if MayAccept(s, d, winner) {
      WonOfferAt(s.offers, winner, winner);
      if o in s.offers { WonOfferAt(s.offers, winner, o); }
    }
  }

  // ---------------------------------------------------------------- when commands succeed

  lemma OpenOfferSearching(s: Store, o: OfferId)
    requires BookingSide(s.bookings, s.bookingLog, s.attempts, s.assignments, s.journeys) && OffersFit(s.attempts, s.offers)
    requires o in s.offers && s.offers[o].status == OfferOpen
    ensures s.offers[o].attempt in s.attempts && s.attempts[s.offers[o].attempt].status == Offering
    ensures s.offers[o].booking in s.bookings && s.bookings[s.offers[o].booking].status == SearchingForDriver
  {
    hide LogsAgree, JourneysFit;
  }

  /** An acceptance succeeds exactly for an open, unexpired, fully disclosed offer of the driver's own
      and a driver who is still eligible: every other guard of the command is implied. */
  lemma AcceptanceExact(s: Store, d: DriverId, actorActive: bool, o: OfferId, key: Key, w: World)
    requires Inv(s) && DedupKey(AcceptCmd, d, key) !in s.dedup
    ensures var step := AcceptDriverOffer(s, d, actorActive, o, key, w);
            && step.outcome != Refused(InvalidTransition)
            && (step.outcome.Accepted? <==>
                  && o in s.offers && s.offers[o].driver == d && s.offers[o].status == OfferOpen && s.offers[o].expiresAt > w.now
                  && AcceptanceAllowed(s.offers[o].disclosure) && d in w.drivers
                  && s.offers[o].booking in s.bookings
                  && var facts := RecheckInput(s, w, d, actorActive, s.offers[o], s.offers[o].booking, s.bookings[s.offers[o].booking]);
                     facts.Success? && IsEligible(facts.value, w.now))
  {
    hide IdsIssued, BookingSide, DriverSide, OffersFit, AssignmentsFit, OutcomesFit, AcceptCommit, RecheckInput, IsEligible, Blockers,
      AcceptanceAllowed, CloseOne, AttributeNew;
    if o in s.offers && s.offers[o].status == OfferOpen {
      OpenOfferSearching(s, o);
      if s.offers[o].driver == d && d in w.drivers && AcceptanceAllowed(s.offers[o].disclosure) {
        var facts := RecheckInput(s, w, d, actorActive, s.offers[o], s.offers[o].booking, s.bookings[s.offers[o].booking]);
        if facts.Success? && IsEligible(facts.value, w.now) {
          RecheckReads(s, w, d, actorActive, s.offers[o], s.offers[o].booking, s.bookings[s.offers[o].booking]);
          AcceptNeverRollsBack(s, d, o);
        }
      }
    }
  }

  lemma CommitNeedsNoPlace(s: Store, d: DriverId, after: Availability)
    requires DriverSide(s.availability, s.assignments, s.shifts) && PlaceKnown(after)
    ensures AvailabilityCommit(s, d, after).Some?
  {
    hide ActiveFits, PlacesKnown, RecordShift, LastOnlyActive, HasActiveShift, CloseOffers, AttributeNew;
    assert LastOnlyActive(Rows(s.shifts, d));
    ShiftRecorded(Rows(s.shifts, d), FromStatus(s, d), after.status, after.version, after.region, after.vehicle);
  }

  /** The error "starting a driver shift requires a region and selected vehicle" cannot be reached. */
  lemma ShiftAlwaysOpens(commands: seq<Command>, d: DriverId, actorActive: bool, request: AvailabilityRequest, key: Key, w: World)
    requires request.status in {Available, FinishingSoon, OnBreak, Offline}
    ensures SetDriverAvailability(Run(EMPTY, commands), d, actorActive, request, key, w).outcome != Refused(Conflict)
  {
    hide Run, IdsIssued, BookingSide, OfferSide, ActiveFits, PlacesKnown, ShiftsFit, AvailabilityCommit, NextAvailability, DriverInput, PreShiftBlockers;
    ReachableHolds(commands);
    var s := Run(EMPTY, commands);
    if MayMove(FromStatus(s, d), request.status)
       && (GoingOnline(request.status) ==> request.position.Some? && request.region.Some? && request.vehicle.Some?) {
      NextPlaceKnown(s, d, request);
      CommitNeedsNoPlace(s, d, NextAvailability(s, d, request));
    }
  }

  ghost predicate Holds(s: Store, d: DriverId, j: JourneyId) {
    j in s.journeys && HoldsActive(s.assignments, s.journeys[j].assignment, d)
  }

  /** What holding a journey's ACTIVE assignment implies: everything the ending commands check one by one. */
  lemma HeldJourneyGuards(s: Store, d: DriverId, j: JourneyId)
    requires Inv(s) && Holds(s, d, j)
    ensures s.journeys[j].booking in s.bookings && s.journeys[j].status != JourneyDone
    ensures d in s.availability && s.availability[d].status == Assigned
    ensures s.journeys[j].status == NearDestination ==> s.bookings[s.journeys[j].booking].status == Arriving
  {
    hide IdsIssued, OfferSide, LogsAgree, AttemptsFit, PlacesKnown, ShiftsFit;
  }

  /** Completion needs only the driver's ACTIVE assignment, the evidence and a journey near its destination;
      the booking status and the release guard follow. */
  lemma CompletionExact(s: Store, d: DriverId, j: JourneyId, evidence: bool)
    requires Inv(s)
    ensures CompleteJourney(s, d, j, evidence).outcome.Accepted? <==>
              Holds(s, d, j) && evidence && s.journeys[j].status == NearDestination
  {
    hide IdsIssued, BookingSide, OfferSide, DriverSide, EndJourney;
    if Holds(s, d, j) { HeldJourneyGuards(s, d, j); }
  }

  /** The three guards of an unsafe termination are one: an ACTIVE assignment implies the other two. */
  lemma TerminationExact(s: Store, account: AccountId, d: DriverId, j: JourneyId, report: string, key: Key)
    requires Inv(s) && SafetyKey(account, j, key) !in s.safetyDedup
    ensures TerminateUnsafeJourney(s, account, d, j, report, key).outcome.Accepted? <==> Holds(s, d, j)
  {
    hide IdsIssued, BookingSide, OfferSide, DriverSide, EndJourney;
    if Holds(s, d, j) { HeldJourneyGuards(s, d, j); }
  }

  // ---------------------------------------------------------------- booking histories

  /** Every booking's log is a history: numbered from 1, chained from DRAFT to the stored status, along written edges,
      with the stored version as its length and no status visited twice. */
  lemma BookingHistories(commands: seq<Command>, b: BookingId)
    ensures var s := Run(EMPTY, commands);
            b in s.bookings ==>
              var log := Rows(s.bookingLog, b);
              && IsHistory(log, s.bookings[b].status) && s.bookings[b].version == |log| <= 19
              && forall i, k :: 0 <= i < k < |log| ==> log[i].to != log[k].to
  {
    hide Run, IdsIssued, OfferSide, DriverSide, AttemptsFit, JourneysFit, IsHistory;
    ReachableHolds(commands);
    var s := Run(EMPTY, commands);
    if b in s.bookings { StatusNeverRepeats(Rows(s.bookingLog, b), s.bookings[b].status); }
  }
}
