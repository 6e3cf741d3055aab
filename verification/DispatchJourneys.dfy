/** Journeys on an assignment: acknowledgement, progress, governed completion and unsafe termination keep the invariant. */
module DispatchJourneys {
  import opened Prelude
  import opened BookingStatus
  import opened DriverDomain
  import opened DispatchStore
  import opened DispatchProtocol
  import opened DispatchInvariants
  import opened DispatchDrivers
  import opened DispatchPreservation

  lemma JourneyPhase(j: JourneyStatus)
    ensures PhaseOf(BookingStatusFor(j)) == AssignedPhase && BookingStatusFor(j) != DriverAssigned
    ensures BookingStatusFor(EnRoute) == DriverEnRoute
  {
  }

  lemma JourneyOpens(bookings: map<BookingId, Booking>, assignments: map<AssignmentId, Assignment>, journeys: map<JourneyId, Journey>,
                     a: AssignmentId, j: JourneyId, b: BookingId, after: Booking)
    requires JourneysFit(bookings, assignments, journeys) && a in assignments && b in bookings
    requires assignments[a].booking == b && assignments[a].status == Active && j !in journeys
    requires bookings[b].status == DriverAssigned && after.status == DriverEnRoute
    requires forall k :: k in journeys ==> journeys[k].booking != b
    ensures JourneysFit(bookings[b := after], assignments, journeys[j := Journey(b, a, EnRoute, false)])
  {
    hide PhaseOf, BookingStatusFor;
    JourneyPhase(EnRoute);
  }

  lemma JourneyMoves(bookings: map<BookingId, Booking>, assignments: map<AssignmentId, Assignment>, journeys: map<JourneyId, Journey>,
                     j: JourneyId, next: Journey, b: BookingId, after: Booking)
    requires JourneysFit(bookings, assignments, journeys) && j in journeys && b == journeys[j].booking
    requires next == journeys[j].(status := next.status) && next.status != JourneyDone
    requires after.status == BookingStatusFor(next.status)
    ensures JourneysFit(bookings[b := after], assignments, journeys[j := next])
  {
    hide PhaseOf, BookingStatusFor;
    JourneyPhase(next.status);
  }

  lemma JourneyEnds(bookings: map<BookingId, Booking>, assignments: map<AssignmentId, Assignment>, journeys: map<JourneyId, Journey>,
                    j: JourneyId, next: Journey, a: AssignmentId, ended: Assignment, b: BookingId, after: Booking)
    requires JourneysFit(bookings, assignments, journeys) && j in journeys
    requires b == journeys[j].booking && a == journeys[j].assignment
    requires next.booking == b && next.assignment == a
    requires ended == assignments[a].(status := ended.status) && ended.status != Active
    requires PhaseOf(after.status) == AssignedPhase && after.status != DriverAssigned
    ensures JourneysFit(bookings[b := after], assignments[a := ended], journeys[j := next])
  {
    hide PhaseOf, BookingStatusFor;
  }

  lemma AssignmentStatusFree(attempts: map<AttemptId, Attempt>, offers: map<OfferId, Offer>,
                             assignments: map<AssignmentId, Assignment>, a: AssignmentId, status: AssignmentStatus)
    requires AssignmentsFit(attempts, offers, assignments) && a in assignments
    ensures AssignmentsFit(attempts, offers, assignments[a := assignments[a].(status := status)])
  {
    hide AcceptanceAllowed;
    var after := assignments[a := assignments[a].(status := status)];
    assert forall c :: c in assignments <==> c in after;
    assert forall c :: c in assignments ==> after[c] == assignments[c].(status := after[c].status);
    forall t | t in attempts && attempts[t].status == AttemptAssigned ensures exists c :: FillsAttempt(after, c, t) {
      var c :| FillsAttempt(assignments, c, t);
      assert FillsAttempt(after, c, t);
    }
  }

  lemma HeldBookingPhase(bookings: map<BookingId, Booking>, assignments: map<AssignmentId, Assignment>, journeys: map<JourneyId, Journey>,
                         a: AssignmentId)
    requires JourneysFit(bookings, assignments, journeys) && a in assignments
    ensures assignments[a].booking in bookings && PhaseOf(bookings[assignments[a].booking].status) == AssignedPhase
  {
  }

  lemma HeldJourney(bookings: map<BookingId, Booking>, assignments: map<AssignmentId, Assignment>, journeys: map<JourneyId, Journey>,
                    j: JourneyId)
    requires JourneysFit(bookings, assignments, journeys) && j in journeys
    ensures journeys[j].assignment in assignments && assignments[journeys[j].assignment].booking == journeys[j].booking
    ensures journeys[j].booking in bookings
    ensures assignments[journeys[j].assignment].status == Active ==>
              bookings[journeys[j].booking].status == BookingStatusFor(journeys[j].status)
  {
  }

  // ---------------------------------------------------------------- acknowledgement and progress

  lemma AcknowledgeBookingSide(s: Store, a: AssignmentId)
    requires BookingSide(s.bookings, s.bookingLog, s.attempts, s.assignments, s.journeys) && s.nextId !in s.journeys
    requires a in s.assignments && s.assignments[a].status == Active && s.assignments[a].booking in s.bookings
    requires s.bookings[s.assignments[a].booking].status == DriverAssigned && JourneysOf(s, s.assignments[a].booking) == {}
    ensures var b := s.assignments[a].booking;
            var r := MoveBooking(s, b, DriverEnRoute);
            BookingSide(r.bookings, r.bookingLog, s.attempts, s.assignments, s.journeys[s.nextId := Journey(b, a, EnRoute, false)])
  {
    hide LogsAgree, AttemptsFit, JourneysFit;
    var b := s.assignments[a].booking;
    var r := MoveBooking(s, b, DriverEnRoute);
    MoveKeepsLog(s, b, DriverEnRoute);
    MoveWithinPhase(s.bookings, s.attempts, b, r.bookings[b]);
    assert forall k :: k in s.journeys && s.journeys[k].booking == b ==> k in JourneysOf(s, b);
    JourneyOpens(s.bookings, s.assignments, s.journeys, a, s.nextId, b, r.bookings[b]);
  }

  lemma AcknowledgeKeeps(s: Store, d: DriverId, a: AssignmentId)
    requires Inv(s)
    ensures Inv(AcknowledgeAssignment(s, d, a).store)
  {
    hide BookingSide, OfferSide, DriverSide;
    if AcknowledgeAssignment(s, d, a).store != s { AcknowledgeBookingSide(s, a); }
  }

  lemma AdvanceBookingSide(s: Store, j: JourneyId, next: JourneyStatus)
    requires BookingSide(s.bookings, s.bookingLog, s.attempts, s.assignments, s.journeys)
    requires j in s.journeys && s.journeys[j].booking in s.bookings && s.journeys[j].assignment in s.assignments && next != JourneyDone
    requires CanForward(s.bookings[s.journeys[j].booking].status, BookingStatusFor(next))
    ensures var b := s.journeys[j].booking;
            var r := MoveBooking(s, b, BookingStatusFor(next));
            BookingSide(r.bookings, r.bookingLog, s.attempts, s.assignments, s.journeys[j := s.journeys[j].(status := next)])
  {
    hide LogsAgree, AttemptsFit, JourneysFit, PhaseOf, BookingStatusFor, CanForward;
    var b := s.journeys[j].booking;
    var r := MoveBooking(s, b, BookingStatusFor(next));
    HeldBookingPhase(s.bookings, s.assignments, s.journeys, s.journeys[j].assignment);
    HeldJourney(s.bookings, s.assignments, s.journeys, j);
    JourneyPhase(next);
    MoveKeepsLog(s, b, BookingStatusFor(next));
    MoveWithinPhase(s.bookings, s.attempts, b, r.bookings[b]);
    JourneyMoves(s.bookings, s.assignments, s.journeys, j, s.journeys[j].(status := next), b, r.bookings[b]);
  }

  lemma AdvanceKeeps(s: Store, d: DriverId, j: JourneyId, evidence: bool)
    requires Inv(s)
    ensures Inv(AdvanceJourney(s, d, j, evidence).store)
  {
    hide BookingSide, OfferSide, DriverSide;
    if AdvanceJourney(s, d, j, evidence).store != s { AdvanceBookingSide(s, j, NextJourneyStatus(s.journeys[j].status).value); }
  }

  // ---------------------------------------------------------------- the two ways a journey ends

  /** A journey the end-of-journey writes may be applied to, and where its booking may go. */
  ghost predicate MayEnd(s: Store, d: DriverId, j: JourneyId, booking: Status, journey: Journey, assignment: AssignmentStatus,
                         to: AvailabilityStatus) {
    && j in s.journeys && s.journeys[j].booking in s.bookings && s.journeys[j].assignment in s.assignments
    && d in s.availability && HoldsActive(s.assignments, s.journeys[j].assignment, d)
    && journey.booking == s.journeys[j].booking && journey.assignment == s.journeys[j].assignment
    && assignment != Active && to in {Available, OnBreak}
    && booking in {Completed, ActiveIncident} && WrittenEdge(s.bookings[s.journeys[j].booking].status, booking)
  }

  lemma EndBookingTables(s: Store, d: DriverId, j: JourneyId, booking: Status, journey: Journey, assignment: AssignmentStatus,
                         to: AvailabilityStatus, kind: ShiftEventKind)
    requires j in s.journeys && s.journeys[j].booking in s.bookings && s.journeys[j].assignment in s.assignments && d in s.availability
    ensures EndJourney(s, d, j, booking, journey, assignment, to, kind).bookings == MoveBooking(s, s.journeys[j].booking, booking).bookings
    ensures EndJourney(s, d, j, booking, journey, assignment, to, kind).bookingLog == MoveBooking(s, s.journeys[j].booking, booking).bookingLog
    ensures EndJourney(s, d, j, booking, journey, assignment, to, kind).attempts == s.attempts
    ensures EndJourney(s, d, j, booking, journey, assignment, to, kind).journeys == s.journeys[j := journey]
    ensures EndJourney(s, d, j, booking, journey, assignment, to, kind).assignments
              == s.assignments[s.journeys[j].assignment := s.assignments[s.journeys[j].assignment].(status := assignment)]
  {
    hide NoteShiftEvent;
  }

  lemma EndBookingSide(s: Store, d: DriverId, j: JourneyId, booking: Status, journey: Journey, assignment: AssignmentStatus,
                       to: AvailabilityStatus, kind: ShiftEventKind)
    requires BookingSide(s.bookings, s.bookingLog, s.attempts, s.assignments, s.journeys)
    requires MayEnd(s, d, j, booking, journey, assignment, to)
    ensures var r := EndJourney(s, d, j, booking, journey, assignment, to, kind);
            BookingSide(r.bookings, r.bookingLog, r.attempts, r.assignments, r.journeys)
  {
    hide LogsAgree, AttemptsFit, JourneysFit, EndJourney, WrittenEdge;
    var b, a := s.journeys[j].booking, s.journeys[j].assignment;
    var moved := MoveBooking(s, b, booking);
    EndBookingTables(s, d, j, booking, journey, assignment, to, kind);
    MoveKeepsLog(s, b, booking);
    HeldJourney(s.bookings, s.assignments, s.journeys, j);
    HeldBookingPhase(s.bookings, s.assignments, s.journeys, a);
    MoveWithinPhase(s.bookings, s.attempts, b, moved.bookings[b]);
    JourneyEnds(s.bookings, s.assignments, s.journeys, j, journey, a, s.assignments[a].(status := assignment), b, moved.bookings[b]);
  }

  lemma HolderAssigned(availability: map<DriverId, Availability>, assignments: map<AssignmentId, Assignment>, a: AssignmentId, d: DriverId)
    requires ActiveFits(availability, assignments) && HoldsActive(assignments, a, d)
    ensures StatusOfDriver(availability, d) == Assigned
  {
  }

  lemma EndDriverSide(s: Store, d: DriverId, j: JourneyId, booking: Status, journey: Journey, assignment: AssignmentStatus,
                      to: AvailabilityStatus, kind: ShiftEventKind)
    requires DriverSide(s.availability, s.assignments, s.shifts) && MayEnd(s, d, j, booking, journey, assignment, to)
    ensures var r := EndJourney(s, d, j, booking, journey, assignment, to, kind);
            DriverSide(r.availability, r.assignments, r.shifts)
  {
    hide NoteShiftEvent, LastOnlyActive, HasActiveShift, MoveBooking, WrittenEdge, ActiveFits;
    var a := s.journeys[j].assignment;
    var version := s.availability[d].version + 1;
    NoteKeepsShifts(s.shifts, d, kind, Assigned, to, version);
    HolderAssigned(s.availability, s.assignments, a, d);
    DriverReleased(s.availability, s.assignments, s.shifts, d, s.availability[d].(status := to, version := version), a, assignment,
                   NoteShiftEvent(s.shifts, d, kind, Assigned, to, version));
  }

  lemma EndOfferSide(s: Store, d: DriverId, j: JourneyId, booking: Status, journey: Journey, assignment: AssignmentStatus,
                     to: AvailabilityStatus, kind: ShiftEventKind)
    requires OfferSide(s.attempts, s.offers, s.assignments, s.outcomes) && MayEnd(s, d, j, booking, journey, assignment, to)
    ensures var r := EndJourney(s, d, j, booking, journey, assignment, to, kind);
            OfferSide(r.attempts, r.offers, r.assignments, r.outcomes)
  {
    hide OffersFit, AssignmentsFit, OutcomesFit, NoteShiftEvent, MoveBooking;
    AssignmentStatusFree(s.attempts, s.offers, s.assignments, s.journeys[j].assignment, assignment);
  }

  lemma EndKeeps(s: Store, d: DriverId, j: JourneyId, booking: Status, journey: Journey, assignment: AssignmentStatus,
                 to: AvailabilityStatus, kind: ShiftEventKind)
    requires Inv(s) && MayEnd(s, d, j, booking, journey, assignment, to)
    ensures Inv(EndJourney(s, d, j, booking, journey, assignment, to, kind))
  {
    hide BookingSide, OfferSide, DriverSide, NoteShiftEvent;
    EndBookingSide(s, d, j, booking, journey, assignment, to, kind);
    EndDriverSide(s, d, j, booking, journey, assignment, to, kind);
    EndOfferSide(s, d, j, booking, journey, assignment, to, kind);
  }

  lemma CompleteKeeps(s: Store, d: DriverId, j: JourneyId, evidence: bool)
    requires Inv(s)
    ensures Inv(CompleteJourney(s, d, j, evidence).store)
  {
    hide IdsIssued, BookingSide, OfferSide, DriverSide, EndJourney;
    if CompleteJourney(s, d, j, evidence).store != s {
      EndKeeps(s, d, j, Completed, s.journeys[j].(status := JourneyDone), AssignmentCompleted, Available, JourneyCompletedAvailable);
    }
  }

  /** The guards of the unsafe termination leave only a booking with a live journey, which may become an incident. */
  lemma TerminableMayEnd(s: Store, d: DriverId, j: JourneyId)
    requires BookingSide(s.bookings, s.bookingLog, s.attempts, s.assignments, s.journeys)
    requires j in s.journeys && s.journeys[j].assignment in s.assignments && d in s.availability
    requires HoldsActive(s.assignments, s.journeys[j].assignment, d) && s.journeys[j].status != JourneyDone
    ensures MayEnd(s, d, j, ActiveIncident, s.journeys[j].(legInterrupted := true), AssignmentCancelled, OnBreak)
  {
    hide LogsAgree, AttemptsFit, JourneysFit;
    HeldJourney(s.bookings, s.assignments, s.journeys, j);
  }

  lemma TerminateKeeps(s: Store, account: AccountId, d: DriverId, j: JourneyId, report: string, key: Key)
    requires Inv(s)
    ensures Inv(TerminateUnsafeJourney(s, account, d, j, report, key).store)
  {
    hide IdsIssued, BookingSide, OfferSide, DriverSide, EndJourney;
    var r := TerminateUnsafeJourney(s, account, d, j, report, key).store;
    if r != s {
      var next := s.journeys[j].(legInterrupted := true);
      TerminableMayEnd(s, d, j);
      EndKeeps(s, d, j, ActiveIncident, next, AssignmentCancelled, OnBreak, UnsafeTerminationBreak);
      OtherTablesFree(EndJourney(s, d, j, ActiveIncident, next, AssignmentCancelled, OnBreak, UnsafeTerminationBreak), r);
    }
  }
}
