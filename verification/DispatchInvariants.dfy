/**
 What every reachable dispatch store satisfies, table against table. No single command checks these:
 each relies on the others, and together they make several of the service's error branches unreachable.
 */
module DispatchInvariants {
  import opened Prelude
  import opened BookingStatus
  import opened DriverDomain
  import opened DispatchStore
  import opened DispatchProtocol

  // ---------------------------------------------------------------- bookings and attempts

  datatype Phase = BeforeDispatch | SearchPhase | NoDriverPhase | AssignedPhase | NoPhase

  function PhaseOf(status: Status): Phase {
    match status
    case SearchingForDriver => SearchPhase
    case NoEligibleDriver => NoDriverPhase
    case ActiveIncident => AssignedPhase
    case _ => if IsException(status) then NoPhase
              else if Rank(status) < Rank(SearchingForDriver) then BeforeDispatch else AssignedPhase
  }

  function AttemptPhase(status: AttemptStatus): Phase {
    match status
    case Offering => SearchPhase
    case NoneEligible => NoDriverPhase
    case AttemptAssigned => AssignedPhase
    case _ => NoPhase
  }

  ghost predicate LogsAgree(bookings: map<BookingId, Booking>, log: map<BookingId, seq<Transition>>) {
    && (forall b :: b in bookings ==> IsHistory(Rows(log, b), bookings[b].status) && bookings[b].version == |Rows(log, b)|)
    && (forall b :: b in log ==> b in bookings)
  }

  predicate AttemptOf(attempts: map<AttemptId, Attempt>, t: AttemptId, b: BookingId) {
    t in attempts && attempts[t].booking == b
  }

  /** A booking has an attempt exactly when it has entered dispatch, has only one, and the two statuses agree. */
  ghost predicate AttemptsFit(bookings: map<BookingId, Booking>, attempts: map<AttemptId, Attempt>) {
    && (forall t :: t in attempts ==>
          && attempts[t].booking in bookings
          && PhaseOf(bookings[attempts[t].booking].status) == AttemptPhase(attempts[t].status) != BeforeDispatch)
    && (forall t, u :: t in attempts && u in attempts && attempts[t].booking == attempts[u].booking ==> t == u)
    && (forall b :: b in bookings && PhaseOf(bookings[b].status) != BeforeDispatch ==> exists t :: AttemptOf(attempts, t, b))
    && (forall b :: b in bookings ==> PhaseOf(bookings[b].status) != NoPhase)
  }

  // ---------------------------------------------------------------- offers and assignments

  predicate IsAccepted(offers: map<OfferId, Offer>, o: OfferId) {
    o in offers && offers[o].status == OfferAccepted
  }

  ghost predicate OffersFit(attempts: map<AttemptId, Attempt>, offers: map<OfferId, Offer>) {
    && (forall o :: o in offers ==> offers[o].attempt in attempts && attempts[offers[o].attempt].booking == offers[o].booking)
    && (forall o :: o in offers && offers[o].status == OfferOpen ==> attempts[offers[o].attempt].status == Offering)
    && (forall o :: o in offers && offers[o].status == OfferAccepted ==> attempts[offers[o].attempt].status == AttemptAssigned)
    && (forall o, p | IsAccepted(offers, o) && IsAccepted(offers, p) && offers[o].attempt == offers[p].attempt :: o == p)
  }

  predicate FillsAttempt(assignments: map<AssignmentId, Assignment>, a: AssignmentId, t: AttemptId) {
    a in assignments && assignments[a].attempt == t
  }

  /** Every assignment comes from the accepted, fully disclosed offer of its attempt; assigned attempts have exactly one. */
  ghost predicate AssignmentsFit(attempts: map<AttemptId, Attempt>, offers: map<OfferId, Offer>,
                                 assignments: map<AssignmentId, Assignment>) {
    && (forall a :: a in assignments ==>
          var g := assignments[a];
          && g.offer in offers && offers[g.offer].status == OfferAccepted && AcceptanceAllowed(offers[g.offer].disclosure)
          && g.attempt == offers[g.offer].attempt && g.booking == offers[g.offer].booking
          && g.driver == offers[g.offer].driver && g.vehicle == offers[g.offer].vehicle)
    && (forall a, c :: a in assignments && c in assignments && assignments[a].attempt == assignments[c].attempt ==> a == c)
    && (forall t :: t in attempts && attempts[t].status == AttemptAssigned ==> exists a :: FillsAttempt(assignments, a, t))
  }

  // ---------------------------------------------------------------- drivers

  predicate HoldsActive(assignments: map<AssignmentId, Assignment>, a: AssignmentId, d: DriverId) {
    a in assignments && assignments[a].driver == d && assignments[a].status == Active
  }

  function StatusOfDriver(availability: map<DriverId, Availability>, d: DriverId): AvailabilityStatus {
    if d in availability then availability[d].status else Offline
  }

  /** ASSIGNED exactly while an assignment is ACTIVE, and never two ACTIVE assignments for one driver. */
  ghost predicate ActiveFits(availability: map<DriverId, Availability>, assignments: map<AssignmentId, Assignment>) {
    && (forall d :: d in availability && availability[d].status == Assigned ==> exists a :: HoldsActive(assignments, a, d))
    && (forall a :: a in assignments && assignments[a].status == Active ==>
          StatusOfDriver(availability, assignments[a].driver) == Assigned)
    && (forall a, c, d | HoldsActive(assignments, a, d) && HoldsActive(assignments, c, d) :: a == c)
  }

  ghost predicate PlacesKnown(availability: map<DriverId, Availability>) {
    forall d :: d in availability && availability[d].status != Offline ==>
      availability[d].region.Some? && availability[d].vehicle.Some?
  }

  predicate LastOnlyActive(shifts: seq<Shift>) {
    forall i :: 0 <= i < |shifts| - 1 ==> !shifts[i].active
  }

  predicate HasActiveShift(shifts: seq<Shift>) {
    shifts != [] && shifts[|shifts| - 1].active
  }

  /** At most one ACTIVE shift per driver, always the latest, and a driver who is not OFFLINE has it. */
  ghost predicate ShiftsFit(availability: map<DriverId, Availability>, shifts: map<DriverId, seq<Shift>>) {
    && (forall d :: LastOnlyActive(Rows(shifts, d)))
    && (forall d :: StatusOfDriver(availability, d) != Offline ==> HasActiveShift(Rows(shifts, d)))
  }

  // ---------------------------------------------------------------- outcomes

  predicate Explains(row: OutcomeRow, offer: Offer) {
    && row.driver == offer.driver
    && !row.misconduct && !row.acceptancePenalty && !row.priorityPenalty
    && (row.ordinaryDecline <==> offer.status == OfferDeclined)
    && match offer.status
       case OfferAccepted => offer.reason == None && row.outcome == OutAccepted && row.cause == DriverChoice
       case OfferDeclined => offer.reason.Some? && offer.reason.value.Declining? && row.outcome == OutDeclined && row.cause == DriverChoice
       case OfferExpired => offer.reason == Some(TtlExpired) && row.outcome == OutTimedOut && row.cause == DriverChoice
       case OfferWithdrawn =>
         || (offer.reason == Some(WorkIntentChange) && row.outcome == OutWithdrawn && row.cause == DriverChoice)
         || (offer.reason == Some(BecameIneligible) && row.outcome == OutIneligible && row.cause == SystemCause)
         || (offer.reason == Some(BookingAssigned) && row.outcome == OutAssignedElsewhere && row.cause == DispatchCause)
       case _ => false
  }

  /** An open offer has no outcome; a closed one has exactly one, which says how it closed and carries no penalty. */
  ghost predicate OutcomesFit(attempts: map<AttemptId, Attempt>, offers: map<OfferId, Offer>, outcomes: map<OfferId, seq<OutcomeRow>>) {
    && (forall o :: o !in offers ==> Rows(outcomes, o) == [])
    && (forall o :: o in offers && offers[o].status == OfferOpen ==> Rows(outcomes, o) == [] && offers[o].reason == None)
    && (forall o :: o in offers && offers[o].status != OfferOpen ==>
          |Rows(outcomes, o)| == 1 && Explains(Rows(outcomes, o)[0], offers[o]))
    && (forall o :: o in offers && offers[o].reason == Some(BookingAssigned) ==>
          offers[o].attempt in attempts && attempts[offers[o].attempt].status == AttemptAssigned)
  }

  // ---------------------------------------------------------------- journeys

  /** A journey sits on an assignment of its booking, a booking has at most one,
      and while that assignment is ACTIVE journey and booking move together. */
  ghost predicate JourneysFit(bookings: map<BookingId, Booking>, assignments: map<AssignmentId, Assignment>,
                              journeys: map<JourneyId, Journey>) {
    && (forall a :: a in assignments ==> assignments[a].booking in bookings)
    && (forall a, c :: a in assignments && c in assignments && assignments[a].booking == assignments[c].booking ==> a == c)
    && (forall j :: j in journeys ==>
          && journeys[j].assignment in assignments
          && assignments[journeys[j].assignment].booking == journeys[j].booking
          && bookings[journeys[j].booking].status != DriverAssigned)
    && (forall j, k :: j in journeys && k in journeys && journeys[j].booking == journeys[k].booking ==> j == k)
    && (forall j :: j in journeys && assignments[journeys[j].assignment].status == Active ==>
          journeys[j].status != JourneyDone && bookings[journeys[j].booking].status == BookingStatusFor(journeys[j].status))
    && (forall a :: a in assignments && bookings[assignments[a].booking].status == DriverAssigned ==> assignments[a].status == Active)
    && (forall a :: a in assignments ==> PhaseOf(bookings[assignments[a].booking].status) == AssignedPhase)
  }

  ghost predicate IdsIssued(s: Store) {
    && (forall b :: b in s.bookings ==> b < s.nextId)
    && (forall t :: t in s.attempts ==> t < s.nextId)
    && (forall t :: t in s.candidates ==> t < s.nextId)
    && (forall o :: o in s.offers ==> o < s.nextId)
    && (forall a :: a in s.assignments ==> a < s.nextId)
    && (forall j :: j in s.journeys ==> j < s.nextId)
  }

  ghost predicate BookingSide(bookings: map<BookingId, Booking>, log: map<BookingId, seq<Transition>>, attempts: map<AttemptId, Attempt>,
                              assignments: map<AssignmentId, Assignment>, journeys: map<JourneyId, Journey>) {
    LogsAgree(bookings, log) && AttemptsFit(bookings, attempts) && JourneysFit(bookings, assignments, journeys)
  }

  ghost predicate OfferSide(attempts: map<AttemptId, Attempt>, offers: map<OfferId, Offer>,
                            assignments: map<AssignmentId, Assignment>, outcomes: map<OfferId, seq<OutcomeRow>>) {
    OffersFit(attempts, offers) && AssignmentsFit(attempts, offers, assignments) && OutcomesFit(attempts, offers, outcomes)
  }

  ghost predicate DriverSide(availability: map<DriverId, Availability>, assignments: map<AssignmentId, Assignment>,
                             shifts: map<DriverId, seq<Shift>>) {
    ActiveFits(availability, assignments) && PlacesKnown(availability) && ShiftsFit(availability, shifts)
  }

  ghost predicate Inv(s: Store) {
    && IdsIssued(s)
    && BookingSide(s.bookings, s.bookingLog, s.attempts, s.assignments, s.journeys)
    && OfferSide(s.attempts, s.offers, s.assignments, s.outcomes)
    && DriverSide(s.availability, s.assignments, s.shifts)
  }

  lemma EmptyHolds()
    ensures Inv(EMPTY)
  {
  }

  // ---------------------------------------------------------------- moving a booking

  lemma MoveKeepsLog(s: Store, b: BookingId, to: Status)
    requires LogsAgree(s.bookings, s.bookingLog) && b in s.bookings && WrittenEdge(s.bookings[b].status, to)
    ensures var r := MoveBooking(s, b, to); LogsAgree(r.bookings, r.bookingLog)
  {
    HistoryExtends(Rows(s.bookingLog, b), s.bookings[b].status, to);
  }

  lemma MoveWithinPhase(bookings: map<BookingId, Booking>, attempts: map<AttemptId, Attempt>, b: BookingId, after: Booking)
    requires AttemptsFit(bookings, attempts) && b in bookings
    requires PhaseOf(after.status) == PhaseOf(bookings[b].status)
    ensures AttemptsFit(bookings[b := after], attempts)
  {
  }

  // ---------------------------------------------------------------- closing offers

  /** `after` differs from `offers` only in open offers that were closed without being accepted. */
  ghost predicate OnlyCloses(offers: map<OfferId, Offer>, after: map<OfferId, Offer>) {
    && after.Keys == offers.Keys
    && forall o :: o in offers ==>
         || after[o] == offers[o]
         || (offers[o].status == OfferOpen && after[o].status !in {OfferOpen, OfferAccepted}
             && after[o] == offers[o].(status := after[o].status, reason := after[o].reason))
  }

  lemma ClosingKeepsOffers(attempts: map<AttemptId, Attempt>, offers: map<OfferId, Offer>, after: map<OfferId, Offer>)
    requires OffersFit(attempts, offers) && OnlyCloses(offers, after)
    ensures OffersFit(attempts, after)
  {
    forall o, p | IsAccepted(after, o) && IsAccepted(after, p) && after[o].attempt == after[p].attempt ensures o == p {
      assert IsAccepted(offers, o) && IsAccepted(offers, p);
    }
  }

  lemma ClosingKeepsAssignments(attempts: map<AttemptId, Attempt>, offers: map<OfferId, Offer>, after: map<OfferId, Offer>,
                                assignments: map<AssignmentId, Assignment>)
    requires AssignmentsFit(attempts, offers, assignments) && OnlyCloses(offers, after)
    ensures AssignmentsFit(attempts, after, assignments)
  {
  }

  /** The ways an offer closes without being accepted, other than by losing the booking to another driver. */
  predicate ClosesAs(status: OfferStatus, reason: CloseReason, outcome: OutcomeKind, cause: Cause) {
    || (status == OfferDeclined && reason.Declining? && outcome == OutDeclined && cause == DriverChoice)
    || (status == OfferExpired && reason == TtlExpired && outcome == OutTimedOut && cause == DriverChoice)
    || (status == OfferWithdrawn && reason == WorkIntentChange && outcome == OutWithdrawn && cause == DriverChoice)
    || (status == OfferWithdrawn && reason == BecameIneligible && outcome == OutIneligible && cause == SystemCause)
  }

  lemma ClosingExplained(offer: Offer, status: OfferStatus, reason: CloseReason, outcome: OutcomeKind, cause: Cause)
    requires ClosesAs(status, reason, outcome, cause)
    ensures Explains(Attribution(offer.driver, outcome, cause), offer.(status := status, reason := Some(reason)))
  {
  }

  lemma CloseManyKeepsOutcomes(attempts: map<AttemptId, Attempt>, offers: map<OfferId, Offer>, outcomes: map<OfferId, seq<OutcomeRow>>,
                               chosen: set<OfferId>, status: OfferStatus, reason: CloseReason, outcome: OutcomeKind, cause: Cause)
    requires OutcomesFit(attempts, offers, outcomes) && ClosesAs(status, reason, outcome, cause)
    requires chosen <= offers.Keys && forall o :: o in chosen ==> offers[o].status == OfferOpen
    ensures OutcomesFit(attempts, CloseOffers(offers, chosen, status, Some(reason)),
                        AttributeNew(outcomes, offers, chosen, outcome, cause))
  {
    hide Explains, Attribution, CloseOffers, AttributeNew;
    forall o | o in chosen
      ensures Explains(Attribution(offers[o].driver, outcome, cause), offers[o].(status := status, reason := Some(reason)))
    {
      ClosingExplained(offers[o], status, reason, outcome, cause);
    }
  }

  /** Closing open offers with their outcomes keeps the offer side, however many there are. */
  lemma CloseManyKeeps(attempts: map<AttemptId, Attempt>, offers: map<OfferId, Offer>, assignments: map<AssignmentId, Assignment>,
                       outcomes: map<OfferId, seq<OutcomeRow>>, chosen: set<OfferId>,
                       status: OfferStatus, reason: CloseReason, outcome: OutcomeKind, cause: Cause)
    requires OfferSide(attempts, offers, assignments, outcomes) && ClosesAs(status, reason, outcome, cause)
    requires chosen <= offers.Keys && forall o :: o in chosen ==> offers[o].status == OfferOpen
    ensures OfferSide(attempts, CloseOffers(offers, chosen, status, Some(reason)), assignments,
                      AttributeNew(outcomes, offers, chosen, outcome, cause))
  {
    hide OffersFit, AssignmentsFit, OutcomesFit;
    var after := CloseOffers(offers, chosen, status, Some(reason));
    ClosingKeepsOffers(attempts, offers, after);
    ClosingKeepsAssignments(attempts, offers, after, assignments);
    CloseManyKeepsOutcomes(attempts, offers, outcomes, chosen, status, reason, outcome, cause);
  }

  lemma CloseOneKeepsOutcomes(attempts: map<AttemptId, Attempt>, offers: map<OfferId, Offer>, outcomes: map<OfferId, seq<OutcomeRow>>,
                              o: OfferId, status: OfferStatus, reason: CloseReason, outcome: OutcomeKind, cause: Cause)
    requires OutcomesFit(attempts, offers, outcomes) && ClosesAs(status, reason, outcome, cause)
    requires o in offers && offers[o].status == OfferOpen
    ensures OutcomesFit(attempts, offers[o := offers[o].(status := status, reason := Some(reason))],
                        AppendRow(outcomes, o, Attribution(offers[o].driver, outcome, cause)))
  {
  }

  /** Closing one open offer, whose outcome row is inserted unconditionally. */
  lemma CloseOneKeeps(attempts: map<AttemptId, Attempt>, offers: map<OfferId, Offer>, assignments: map<AssignmentId, Assignment>,
                      outcomes: map<OfferId, seq<OutcomeRow>>, o: OfferId,
                      status: OfferStatus, reason: CloseReason, outcome: OutcomeKind, cause: Cause)
    requires OfferSide(attempts, offers, assignments, outcomes) && ClosesAs(status, reason, outcome, cause)
    requires o in offers && offers[o].status == OfferOpen
    ensures OfferSide(attempts, offers[o := offers[o].(status := status, reason := Some(reason))], assignments,
                      AppendRow(outcomes, o, Attribution(offers[o].driver, outcome, cause)))
  {
    hide OffersFit, AssignmentsFit, OutcomesFit;
    var after := offers[o := offers[o].(status := status, reason := Some(reason))];
    ClosingKeepsOffers(attempts, offers, after);
    ClosingKeepsAssignments(attempts, offers, after, assignments);
    CloseOneKeepsOutcomes(attempts, offers, outcomes, o, status, reason, outcome, cause);
  }
}
