/** Accepting an offer: seven tables change at once, and the invariant holds again. */
module DispatchAcceptance {
  import opened Prelude
  import opened BookingStatus
  import opened DriverDomain
  import opened DispatchStore
  import opened DispatchProtocol
  import opened DispatchInvariants
  import opened DispatchDrivers

  function Filled(attempts: map<AttemptId, Attempt>, t: AttemptId): map<AttemptId, Attempt>
    requires t in attempts
  {
    attempts[t := attempts[t].(status := AttemptAssigned)]
  }

  lemma OfferBooking(attempts: map<AttemptId, Attempt>, offers: map<OfferId, Offer>, o: OfferId)
    requires OffersFit(attempts, offers) && o in offers
    ensures offers[o].attempt in attempts && attempts[offers[o].attempt].booking == offers[o].booking
  {
  }

  lemma AttemptFills(bookings: map<BookingId, Booking>, attempts: map<AttemptId, Attempt>, t: AttemptId, after: Booking)
    requires AttemptsFit(bookings, attempts) && t in attempts && after.status == DriverAssigned
    ensures AttemptsFit(bookings[attempts[t].booking := after], Filled(attempts, t))
  {
    hide PhaseOf;
    AssignedIsAssigned();
    AttemptPhases();
    var b := attempts[t].booking;
    var moved, filled := bookings[b := after], Filled(attempts, t);
    forall c | c in moved && PhaseOf(moved[c].status) != BeforeDispatch ensures exists u :: AttemptOf(filled, u, c) {
      if c == b { assert AttemptOf(filled, t, b); }
      else {
        var u :| AttemptOf(attempts, u, c);
        assert AttemptOf(filled, u, c);
      }
    }
  }

  /** What winning does to each offer. */
  lemma WonOfferAt(offers: map<OfferId, Offer>, o: OfferId, p: OfferId)
    requires o in offers && p in offers
    ensures var after := WonOffers(offers, o);
            && after.Keys == offers.Keys
            && after[p] == if p == o then offers[o].(status := OfferAccepted)
                           else if offers[p].attempt == offers[o].attempt && offers[p].status == OfferOpen
                           then offers[p].(status := OfferWithdrawn, reason := Some(BookingAssigned))
                           else offers[p]
  {
  }

  lemma WinnerFits(attempts: map<AttemptId, Attempt>, offers: map<OfferId, Offer>, o: OfferId)
    requires OffersFit(attempts, offers) && o in offers && attempts[offers[o].attempt].status == Offering
    ensures OffersFit(Filled(attempts, offers[o].attempt), WonOffers(offers, o))
  {
    hide WonOffers;
    var after := WonOffers(offers, o);
    forall p | p in offers ensures after.Keys == offers.Keys { WonOfferAt(offers, o, p); }
    assert after.Keys == offers.Keys by { WonOfferAt(offers, o, o); }
    forall p | p in offers
      ensures after[p] == if p == o then offers[o].(status := OfferAccepted)
                          else if offers[p].attempt == offers[o].attempt && offers[p].status == OfferOpen
                          then offers[p].(status := OfferWithdrawn, reason := Some(BookingAssigned))
                          else offers[p]
    { WonOfferAt(offers, o, p); }
    forall p, q | IsAccepted(after, p) && IsAccepted(after, q) && after[p].attempt == after[q].attempt ensures p == q {
      assert p != o ==> IsAccepted(offers, p);
      assert q != o ==> IsAccepted(offers, q);
    }
  }

  lemma WinnerAssigned(attempts: map<AttemptId, Attempt>, offers: map<OfferId, Offer>, assignments: map<AssignmentId, Assignment>,
                       o: OfferId, a: AssignmentId, taken: Assignment)
    requires OffersFit(attempts, offers) && AssignmentsFit(attempts, offers, assignments)
    requires o in offers && attempts[offers[o].attempt].status == Offering && AcceptanceAllowed(offers[o].disclosure)
    requires a !in assignments
    requires taken == Assignment(offers[o].attempt, o, offers[o].booking, offers[o].driver, offers[o].vehicle, Active)
    ensures AssignmentsFit(Filled(attempts, offers[o].attempt), WonOffers(offers, o), assignments[a := taken])
  {
    hide AcceptanceAllowed;
    var t := offers[o].attempt;
    var filled, more := Filled(attempts, t), assignments[a := taken];
    assert FillsAttempt(more, a, t);
    forall u | u in filled && filled[u].status == AttemptAssigned ensures exists c :: FillsAttempt(more, c, u) {
      if u != t {
        var c :| FillsAttempt(assignments, c, u);
        assert FillsAttempt(more, c, u);
      }
    }
  }

  /** What winning adds to each offer's outcomes: only the winner and the rivals just closed get a row. */
  lemma WonOutcomeAt(attempts: map<AttemptId, Attempt>, offers: map<OfferId, Offer>, outcomes: map<OfferId, seq<OutcomeRow>>,
                     o: OfferId, p: OfferId)
    requires OutcomesFit(attempts, offers, outcomes)
    requires o in offers && offers[o].status == OfferOpen
    requires offers[o].attempt in attempts && attempts[offers[o].attempt].status == Offering
    ensures Rows(WonOutcomes(offers, outcomes, o), p) ==
              if p == o then [Attribution(offers[o].driver, OutAccepted, DriverChoice)]
              else if p in offers && offers[p].attempt == offers[o].attempt && offers[p].status == OfferOpen
              then [Attribution(offers[p].driver, OutAssignedElsewhere, DispatchCause)]
              else Rows(outcomes, p)
  {
    hide Explains, WonOffers;
    var after := WonOffers(offers, o);
    WonOfferAt(offers, o, o);
    if p in offers { WonOfferAt(offers, o, p); }
    assert Rows(outcomes, o) == [];
    assert p in WithdrawnForAssignment(after, offers[o].attempt, o) <==>
             p in offers && p != o && offers[p].attempt == offers[o].attempt && offers[p].status == OfferOpen;
  }

  lemma WinnerAttributed(attempts: map<AttemptId, Attempt>, offers: map<OfferId, Offer>, outcomes: map<OfferId, seq<OutcomeRow>>, o: OfferId)
    requires OffersFit(attempts, offers) && OutcomesFit(attempts, offers, outcomes)
    requires o in offers && offers[o].status == OfferOpen && attempts[offers[o].attempt].status == Offering
    ensures OutcomesFit(Filled(attempts, offers[o].attempt), WonOffers(offers, o), WonOutcomes(offers, outcomes, o))
  {
    hide WonOffers, WonOutcomes, OffersFit;
    WonOfferAt(offers, o, o);
    OfferBooking(attempts, offers, o);
    forall p
      ensures Rows(WonOutcomes(offers, outcomes, o), p) ==
                if p == o then [Attribution(offers[o].driver, OutAccepted, DriverChoice)]
                else if p in offers && offers[p].attempt == offers[o].attempt && offers[p].status == OfferOpen
                then [Attribution(offers[p].driver, OutAssignedElsewhere, DispatchCause)]
                else Rows(outcomes, p)
    {
      OfferBooking(attempts, offers, o);
      WonOutcomeAt(attempts, offers, outcomes, o, p);
    }
    forall p | p in offers
      ensures WonOffers(offers, o)[p] ==
                if p == o then offers[o].(status := OfferAccepted)
                else if offers[p].attempt == offers[o].attempt && offers[p].status == OfferOpen
                then offers[p].(status := OfferWithdrawn, reason := Some(BookingAssigned))
                else offers[p]
    { WonOfferAt(offers, o, p); }
  }

  lemma AcceptedOfferSide(attempts: map<AttemptId, Attempt>, offers: map<OfferId, Offer>, assignments: map<AssignmentId, Assignment>,
                          outcomes: map<OfferId, seq<OutcomeRow>>, o: OfferId, a: AssignmentId, taken: Assignment)
    requires OfferSide(attempts, offers, assignments, outcomes)
    requires o in offers && offers[o].status == OfferOpen && AcceptanceAllowed(offers[o].disclosure)
    requires offers[o].attempt in attempts && attempts[offers[o].attempt].status == Offering && a !in assignments
    requires taken == Assignment(offers[o].attempt, o, offers[o].booking, offers[o].driver, offers[o].vehicle, Active)
    ensures OfferSide(Filled(attempts, offers[o].attempt), WonOffers(offers, o), assignments[a := taken], WonOutcomes(offers, outcomes, o))
  {
    hide OffersFit, AssignmentsFit, OutcomesFit, WonOffers, WonOutcomes, AcceptanceAllowed;
    WinnerFits(attempts, offers, o);
    WinnerAssigned(attempts, offers, assignments, o, a, taken);
    WinnerAttributed(attempts, offers, outcomes, o);
  }

  lemma BookingTaken(bookings: map<BookingId, Booking>, assignments: map<AssignmentId, Assignment>, journeys: map<JourneyId, Journey>,
                     b: BookingId, after: Booking, a: AssignmentId, taken: Assignment)
    requires JourneysFit(bookings, assignments, journeys) && b in bookings && a !in assignments
    requires PhaseOf(bookings[b].status) != AssignedPhase && after.status == DriverAssigned
    requires taken.booking == b && taken.status == Active
    ensures JourneysFit(bookings[b := after], assignments[a := taken], journeys)
  {
    hide PhaseOf;
    AssignedIsAssigned();
  }

  lemma AttemptPhases()
    ensures AttemptPhase(AttemptAssigned) == AssignedPhase
  {
  }

  lemma AssignedIsAssigned()
    ensures PhaseOf(DriverAssigned) == AssignedPhase
  {
  }

  /** Where an acceptance may commit: the guards of the command, and what the recheck found about the driver. */
  ghost predicate MayAccept(s: Store, d: DriverId, o: OfferId) {
    && o in s.offers && s.offers[o].driver == d && s.offers[o].status == OfferOpen && AcceptanceAllowed(s.offers[o].disclosure)
    && s.offers[o].attempt in s.attempts && s.attempts[s.offers[o].attempt].status == Offering
    && s.offers[o].booking in s.bookings && s.bookings[s.offers[o].booking].status == SearchingForDriver
    && StatusOfDriver(s.availability, d) in {Available, Offered, FinishingSoon}
  }

  lemma ShiftsOnAcceptFit(s: Store, d: DriverId, offer: Offer)
    requires offer.booking in s.bookings && d in s.availability && LastOnlyActive(Rows(s.shifts, d))
    ensures HasActiveShift(Rows(s.shifts, d)) ==> ShiftsOnAccept(s, d, offer).Some?
    ensures ShiftsOnAccept(s, d, offer).Some? ==>
              LastOnlyActive(ShiftsOnAccept(s, d, offer).value) && HasActiveShift(ShiftsOnAccept(s, d, offer).value)
  {
    hide RecordShift, LastOnlyActive, HasActiveShift;
    var shifts := Rows(s.shifts, d);
    var current := ActiveShift(shifts);
    var region := if current.Some? then shifts[current.value].region else s.bookings[offer.booking].region;
    var vehicle := if current.Some? then Some(shifts[current.value].vehicle) else offer.vehicle;
    ShiftRecorded(shifts, s.availability[d].status, Assigned, s.availability[d].version + 1, Some(region), vehicle);
  }

  /** An eligible driver always has an ACTIVE shift, so neither rollback inside the commit can happen. */
  lemma AcceptNeverRollsBack(s: Store, d: DriverId, o: OfferId)
    requires DriverSide(s.availability, s.assignments, s.shifts) && MayAccept(s, d, o)
    ensures AcceptCommit(s, d, o).Some?
  {
    hide ActiveFits, PlacesKnown, MoveBooking, MoveDriver, WonOffers, WonOutcomes, ShiftsOnAccept, LastOnlyActive, HasActiveShift, AcceptanceAllowed;
    assert LastOnlyActive(Rows(s.shifts, d));
    ShiftsOnAcceptFit(s, d, s.offers[o]);
  }

  /** The booking-side tables after the commit. */
  lemma AcceptCommitTables(s: Store, d: DriverId, o: OfferId)
    requires o in s.offers && s.offers[o].booking in s.bookings && AcceptCommit(s, d, o).Some?
    ensures var r := AcceptCommit(s, d, o).value;
            var offer := s.offers[o];
            var moved := MoveBooking(s, offer.booking, DriverAssigned);
            && r.bookings == moved.bookings && r.bookingLog == moved.bookingLog && r.journeys == s.journeys
            && (offer.attempt in s.attempts ==> r.attempts == Filled(s.attempts, offer.attempt))
            && r.assignments == s.assignments[s.nextId := Assignment(offer.attempt, o, offer.booking, d, offer.vehicle, Active)]
            && r.dedup == s.dedup && r.safetyDedup == s.safetyDedup && r.candidates == s.candidates
  {
    hide ShiftsOnAccept, WonOffers, WonOutcomes;
  }

  function Promoted(a: Availability): Availability {
    a.(status := Assigned, version := a.version + 1)
  }

  lemma AcceptCommitDriver(s: Store, d: DriverId, o: OfferId)
    requires o in s.offers && s.offers[o].booking in s.bookings && AcceptCommit(s, d, o).Some?
    ensures d in s.availability && ShiftsOnAccept(s, d, s.offers[o]).Some?
    ensures AcceptCommit(s, d, o).value.availability == s.availability[d := Promoted(s.availability[d])]
    ensures AcceptCommit(s, d, o).value.moves == MoveDriver(s, d, Promoted(s.availability[d]), s.availability[d].status).moves
    ensures AcceptCommit(s, d, o).value.shifts == s.shifts[d := ShiftsOnAccept(s, d, s.offers[o]).value]
  {
    hide ShiftsOnAccept, WonOffers, WonOutcomes, MoveBooking;
  }

  lemma AcceptBookingSide(s: Store, d: DriverId, o: OfferId)
    requires BookingSide(s.bookings, s.bookingLog, s.attempts, s.assignments, s.journeys) && MayAccept(s, d, o)
    requires s.nextId !in s.assignments
    requires OffersFit(s.attempts, s.offers) && AcceptCommit(s, d, o).Some?
    ensures var r := AcceptCommit(s, d, o).value; BookingSide(r.bookings, r.bookingLog, r.attempts, r.assignments, r.journeys)
  {
    hide LogsAgree, AttemptsFit, JourneysFit, OffersFit, AcceptCommit, AcceptanceAllowed;
    var offer, r := s.offers[o], AcceptCommit(s, d, o).value;
    AcceptCommitTables(s, d, o);
    OfferBooking(s.attempts, s.offers, o);
    MoveKeepsLog(s, offer.booking, DriverAssigned);
    AttemptFills(s.bookings, s.attempts, offer.attempt, r.bookings[offer.booking]);
    BookingTaken(s.bookings, s.assignments, s.journeys, offer.booking, r.bookings[offer.booking], s.nextId, r.assignments[s.nextId]);
  }

  lemma AcceptOfferSide(s: Store, d: DriverId, o: OfferId)
    requires OfferSide(s.attempts, s.offers, s.assignments, s.outcomes) && MayAccept(s, d, o) && s.nextId !in s.assignments
    requires AcceptCommit(s, d, o).Some?
    ensures var r := AcceptCommit(s, d, o).value; OfferSide(r.attempts, r.offers, r.assignments, r.outcomes)
  {
    hide OfferSide, ShiftsOnAccept, WonOffers, WonOutcomes, AcceptanceAllowed, MoveDriver, MoveBooking;
    AcceptedOfferSide(s.attempts, s.offers, s.assignments, s.outcomes, o, s.nextId,
                      Assignment(s.offers[o].attempt, o, s.offers[o].booking, d, s.offers[o].vehicle, Active));
  }

  lemma AcceptDriverSide(s: Store, d: DriverId, o: OfferId)
    requires DriverSide(s.availability, s.assignments, s.shifts) && MayAccept(s, d, o) && s.nextId !in s.assignments
    requires AcceptCommit(s, d, o).Some?
    ensures DriverSide(AcceptCommit(s, d, o).value.availability, AcceptCommit(s, d, o).value.assignments, AcceptCommit(s, d, o).value.shifts)
  {
    hide ActiveFits, LastOnlyActive, HasActiveShift, AcceptCommit, AcceptanceAllowed, ShiftsOnAccept, MoveBooking;
    AcceptCommitDriver(s, d, o);
    AcceptCommitTables(s, d, o);
    assert LastOnlyActive(Rows(s.shifts, d));
    ShiftsOnAcceptFit(s, d, s.offers[o]);
    DriverTakes(s.availability, s.assignments, s.shifts, d, Promoted(s.availability[d]), s.nextId,
                Assignment(s.offers[o].attempt, o, s.offers[o].booking, d, s.offers[o].vehicle, Active),
                AcceptCommit(s, d, o).value.shifts);
  }

  lemma AcceptCommitKeeps(s: Store, d: DriverId, o: OfferId)
    requires Inv(s) && MayAccept(s, d, o) && AcceptCommit(s, d, o).Some?
    ensures Inv(AcceptCommit(s, d, o).value)
  {
    hide BookingSide, DriverSide, OffersFit, AssignmentsFit, OutcomesFit, ShiftsOnAccept, WonOffers, WonOutcomes, AcceptanceAllowed;
    AcceptBookingSide(s, d, o);
    AcceptOfferSide(s, d, o);
    AcceptDriverSide(s, d, o);
  }
}
