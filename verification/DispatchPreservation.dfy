/** Every command keeps the invariant, so every run does. */
module DispatchPreservation {
  import opened Prelude
  import opened BookingStatus
  import opened DriverDomain
  import opened DispatchStore
  import opened DispatchProtocol
  import opened DispatchInvariants
  import opened DispatchDrivers

  // ---------------------------------------------------------------- table by table: starting dispatch

  lemma UnassignedBookingMoves(bookings: map<BookingId, Booking>, assignments: map<AssignmentId, Assignment>,
                               journeys: map<JourneyId, Journey>, b: BookingId, after: Booking)
    requires JourneysFit(bookings, assignments, journeys)
    requires b in bookings ==> PhaseOf(bookings[b].status) != AssignedPhase
    requires b !in bookings || after.status != DriverAssigned
    ensures JourneysFit(bookings[b := after], assignments, journeys)
  {
  }

  lemma AttemptOpens(bookings: map<BookingId, Booking>, attempts: map<AttemptId, Attempt>,
                     t: AttemptId, b: BookingId, after: Booking, status: AttemptStatus)
    requires AttemptsFit(bookings, attempts) && t !in attempts
    requires b in bookings && PhaseOf(bookings[b].status) == BeforeDispatch
    requires PhaseOf(after.status) == AttemptPhase(status) && AttemptPhase(status) in {SearchPhase, NoDriverPhase}
    ensures AttemptsFit(bookings[b := after], attempts[t := Attempt(b, status)])
  {
    var more := attempts[t := Attempt(b, status)];
    var moved := bookings[b := after];
    forall c | c in moved && PhaseOf(moved[c].status) != BeforeDispatch
      ensures exists u :: AttemptOf(more, u, c)
    {
      if c == b { assert AttemptOf(more, t, b); }
      else {
        var u :| AttemptOf(attempts, u, c);
        assert AttemptOf(more, u, c);
      }
    }
  }

  lemma WaveKeepsOffers(attempts: map<AttemptId, Attempt>, offers: map<OfferId, Offer>, t: AttemptId, b: BookingId,
                        first: OfferId, wave: seq<Offer>)
    requires OffersFit(attempts, offers) && t !in attempts
    requires forall o :: o in offers ==> o < first
    requires forall i :: 0 <= i < |wave| ==> wave[i].attempt == t && wave[i].booking == b && wave[i].status == OfferOpen
    ensures OffersFit(attempts[t := Attempt(b, Offering)], InsertRows(offers, first, wave))
  {
    var after := InsertRows(offers, first, wave);
    forall o, p | IsAccepted(after, o) && IsAccepted(after, p) && after[o].attempt == after[p].attempt ensures o == p {
      assert IsAccepted(offers, o) && IsAccepted(offers, p);
    }
  }

  lemma WaveKeepsAssignments(attempts: map<AttemptId, Attempt>, offers: map<OfferId, Offer>, assignments: map<AssignmentId, Assignment>,
                             t: AttemptId, added: Attempt, first: OfferId, wave: seq<Offer>)
    requires AssignmentsFit(attempts, offers, assignments) && t !in attempts && added.status != AttemptAssigned
    requires forall o :: o in offers ==> o < first
    ensures AssignmentsFit(attempts[t := added], InsertRows(offers, first, wave), assignments)
  {
  }

  lemma WaveKeepsOutcomes(attempts: map<AttemptId, Attempt>, offers: map<OfferId, Offer>, outcomes: map<OfferId, seq<OutcomeRow>>,
                          t: AttemptId, added: Attempt, first: OfferId, wave: seq<Offer>)
    requires OutcomesFit(attempts, offers, outcomes) && t !in attempts
    requires forall o :: o in offers ==> o < first
    requires forall i :: 0 <= i < |wave| ==> wave[i].status == OfferOpen && wave[i].reason == None
    ensures OutcomesFit(attempts[t := added], InsertRows(offers, first, wave), outcomes)
  {
  }

  lemma WaveBookingSide(s: Store, w: World, b: BookingId, eligible: seq<CandidateRow>)
    requires BookingSide(s.bookings, s.bookingLog, s.attempts, s.assignments, s.journeys) && s.nextId !in s.attempts
    requires b in s.bookings && s.bookings[b].status == ReadyForDispatch
    ensures var r := WithWave(s, w, b, eligible); BookingSide(r.bookings, r.bookingLog, r.attempts, r.assignments, r.journeys)
  {
    hide LogsAgree, AttemptsFit, JourneysFit, WaveOffers, WaveCandidate;
    var r := WithWave(s, w, b, eligible);
    MoveKeepsLog(s, b, SearchingForDriver);
    AttemptOpens(s.bookings, s.attempts, s.nextId, b, r.bookings[b], Offering);
    UnassignedBookingMoves(s.bookings, s.assignments, s.journeys, b, r.bookings[b]);
  }

  lemma WaveKeepsOfferSide(attempts: map<AttemptId, Attempt>, offers: map<OfferId, Offer>, assignments: map<AssignmentId, Assignment>,
                           outcomes: map<OfferId, seq<OutcomeRow>>, t: AttemptId, b: BookingId, first: OfferId, wave: seq<Offer>)
    requires OfferSide(attempts, offers, assignments, outcomes) && t !in attempts
    requires forall o :: o in offers ==> o < first
    requires forall i :: 0 <= i < |wave| ==>
               wave[i].attempt == t && wave[i].booking == b && wave[i].status == OfferOpen && wave[i].reason == None
    ensures OfferSide(attempts[t := Attempt(b, Offering)], InsertRows(offers, first, wave), assignments, outcomes)
  {
    hide OffersFit, AssignmentsFit, OutcomesFit;
    WaveKeepsOffers(attempts, offers, t, b, first, wave);
    WaveKeepsAssignments(attempts, offers, assignments, t, Attempt(b, Offering), first, wave);
    WaveKeepsOutcomes(attempts, offers, outcomes, t, Attempt(b, Offering), first, wave);
  }

  lemma WaveOfferSide(s: Store, w: World, b: BookingId, eligible: seq<CandidateRow>)
    requires OfferSide(s.attempts, s.offers, s.assignments, s.outcomes) && IdsIssued(s)
    requires b in s.bookings
    ensures var r := WithWave(s, w, b, eligible); OfferSide(r.attempts, r.offers, r.assignments, r.outcomes)
  {
    hide OfferSide, WaveDisclosure, MoveBooking;
    var wave := WaveOffers(s, w, b, s.nextId, eligible, WaveReach(|eligible|, w.config.waveSize));
    WaveKeepsOfferSide(s.attempts, s.offers, s.assignments, s.outcomes, s.nextId, b, s.nextId + 1, wave);
  }

  lemma WithWaveKeeps(s: Store, w: World, b: BookingId, eligible: seq<CandidateRow>)
    requires Inv(s) && b in s.bookings && s.bookings[b].status == ReadyForDispatch
    ensures Inv(WithWave(s, w, b, eligible))
  {
    hide BookingSide, OfferSide, DriverSide, WaveOffer;
    WaveBookingSide(s, w, b, eligible);
    WaveOfferSide(s, w, b, eligible);
  }

  lemma WithoutDriverTables(s: Store, b: BookingId)
    requires b in s.bookings
    ensures b in WithoutDriver(s, b).bookings && WithoutDriver(s, b).bookings[b].status == NoEligibleDriver
    ensures WithoutDriver(s, b).bookings == s.bookings[b := WithoutDriver(s, b).bookings[b]]
    ensures WithoutDriver(s, b).attempts == s.attempts[s.nextId := Attempt(b, NoneEligible)]
    ensures WithoutDriver(s, b).assignments == s.assignments && WithoutDriver(s, b).journeys == s.journeys
  {
    hide AppendRow;
  }

  lemma WithoutDriverLogged(s: Store, b: BookingId)
    requires LogsAgree(s.bookings, s.bookingLog) && b in s.bookings && s.bookings[b].status == ReadyForDispatch
    ensures LogsAgree(WithoutDriver(s, b).bookings, WithoutDriver(s, b).bookingLog)
  {
    hide LogsAgree;
    MoveKeepsLog(s, b, SearchingForDriver);
    MoveKeepsLog(MoveBooking(s, b, SearchingForDriver), b, NoEligibleDriver);
  }

  lemma WithoutDriverBookingSide(s: Store, b: BookingId)
    requires BookingSide(s.bookings, s.bookingLog, s.attempts, s.assignments, s.journeys) && s.nextId !in s.attempts
    requires b in s.bookings && s.bookings[b].status == ReadyForDispatch
    ensures BookingSide(WithoutDriver(s, b).bookings, WithoutDriver(s, b).bookingLog, WithoutDriver(s, b).attempts,
                        WithoutDriver(s, b).assignments, WithoutDriver(s, b).journeys)
  {
    hide LogsAgree, AttemptsFit, JourneysFit, WithoutDriver, MoveBooking;
    WithoutDriverTables(s, b);
    WithoutDriverLogged(s, b);
    var after := WithoutDriver(s, b).bookings[b];
    AttemptOpens(s.bookings, s.attempts, s.nextId, b, after, NoneEligible);
    UnassignedBookingMoves(s.bookings, s.assignments, s.journeys, b, after);
  }

  lemma WithoutDriverOfferSide(s: Store, b: BookingId)
    requires OfferSide(s.attempts, s.offers, s.assignments, s.outcomes) && s.nextId !in s.attempts
    ensures OfferSide(s.attempts[s.nextId := Attempt(b, NoneEligible)], s.offers, s.assignments, s.outcomes)
  {
  }

  lemma WithoutDriverKeeps(s: Store, b: BookingId)
    requires Inv(s) && b in s.bookings && s.bookings[b].status == ReadyForDispatch
    ensures Inv(WithoutDriver(s, b))
  {
    hide BookingSide, OfferSide, DriverSide;
    WithoutDriverBookingSide(s, b);
    WithoutDriverOfferSide(s, b);
  }

  lemma StartKeeps(s: Store, account: AccountId, person: PersonId, b: BookingId, key: Key, rows: seq<CandidateRow>, w: World)
    requires Inv(s)
    ensures Inv(StartBookingDispatch(s, account, person, b, key, rows, w).store)
  {
    hide IdsIssued, BookingSide, OfferSide, DriverSide, WithWave, WithoutDriver, FirstFault, EligibleRows;
    if b in s.bookings && s.bookings[b].status == ReadyForDispatch {
      WithWaveKeeps(s, w, b, EligibleRows(s, w, b, rows));
      WithoutDriverKeeps(s, b);
      OtherTablesFree(WithWave(s, w, b, EligibleRows(s, w, b, rows)), StartBookingDispatch(s, account, person, b, key, rows, w).store);
      OtherTablesFree(WithoutDriver(s, b), StartBookingDispatch(s, account, person, b, key, rows, w).store);
    }
  }

  /** The invariant does not look at the dedup tables or the availability log. */
  lemma OtherTablesFree(s: Store, r: Store)
    requires Inv(s)
    ensures r == s.(dedup := r.dedup, safetyDedup := r.safetyDedup, moves := r.moves) ==> Inv(r)
  {
    hide BookingSide, OfferSide, DriverSide;
  }

  // ---------------------------------------------------------------- bookings before dispatch

  lemma NewBookingLogged(bookings: map<BookingId, Booking>, log: map<BookingId, seq<Transition>>, b: BookingId, added: Booking)
    requires LogsAgree(bookings, log) && b !in bookings && added.status == Draft && added.version == 1
    ensures LogsAgree(bookings[b := added], AppendRow(log, b, Transition(None, Draft, 1)))
  {
    assert Rows(log, b) == [];
  }

  lemma NewBookingUnattempted(bookings: map<BookingId, Booking>, attempts: map<AttemptId, Attempt>, b: BookingId, added: Booking)
    requires AttemptsFit(bookings, attempts) && b !in bookings && added.status == Draft
    ensures AttemptsFit(bookings[b := added], attempts)
  {
  }

  lemma NewBookingFits(bookings: map<BookingId, Booking>, log: map<BookingId, seq<Transition>>, attempts: map<AttemptId, Attempt>,
                       assignments: map<AssignmentId, Assignment>, journeys: map<JourneyId, Journey>, b: BookingId, added: Booking)
    requires BookingSide(bookings, log, attempts, assignments, journeys) && b !in bookings
    requires added.status == Draft && added.version == 1
    ensures BookingSide(bookings[b := added], AppendRow(log, b, Transition(None, Draft, 1)), attempts, assignments, journeys)
  {
    hide LogsAgree, AttemptsFit, JourneysFit, AppendRow;
    NewBookingLogged(bookings, log, b, added);
    NewBookingUnattempted(bookings, attempts, b, added);
    UnassignedBookingMoves(bookings, assignments, journeys, b, added);
  }

  lemma CreateKeeps(s: Store, person: PersonId, region: Region, scheduledFor: Option<Time>, requirements: seq<Requirement>)
    requires Inv(s)
    ensures Inv(CreateBooking(s, person, region, scheduledFor, requirements).store)
  {
    hide BookingSide, OfferSide, DriverSide, AppendRow;
    NewBookingFits(s.bookings, s.bookingLog, s.attempts, s.assignments, s.journeys, s.nextId,
                   Booking(person, Draft, 1, region, scheduledFor, requirements));
  }

  lemma EarlyPhase(from: Status, to: Status)
    requires CanForward(from, to) && Rank(to) <= Rank(ReadyForDispatch)
    ensures PhaseOf(from) == PhaseOf(to) == BeforeDispatch && to != DriverAssigned && WrittenEdge(from, to)
  {
  }

  lemma EarlyMoveFits(s: Store, b: BookingId, to: Status)
    requires BookingSide(s.bookings, s.bookingLog, s.attempts, s.assignments, s.journeys) && b in s.bookings
    requires CanForward(s.bookings[b].status, to) && Rank(to) <= Rank(ReadyForDispatch)
    ensures BookingSide(MoveBooking(s, b, to).bookings, MoveBooking(s, b, to).bookingLog, s.attempts, s.assignments, s.journeys)
  {
    hide LogsAgree, AttemptsFit, JourneysFit, PhaseOf, CanForward, WrittenEdge, Rank;
    var r := MoveBooking(s, b, to);
    EarlyPhase(s.bookings[b].status, to);
    MoveKeepsLog(s, b, to);
    MoveWithinPhase(s.bookings, s.attempts, b, r.bookings[b]);
    UnassignedBookingMoves(s.bookings, s.assignments, s.journeys, b, r.bookings[b]);
  }

  lemma PrepareKeeps(s: Store, person: PersonId, b: BookingId, expectedFrom: Status, to: Status)
    requires Inv(s)
    ensures Inv(PrepareBooking(s, person, b, expectedFrom, to).store)
  {
    hide BookingSide, OfferSide, DriverSide;
    if b in s.bookings && s.bookings[b].status == expectedFrom && CanForward(expectedFrom, to) && Rank(to) <= Rank(ReadyForDispatch) {
      EarlyMoveFits(s, b, to);
    }
  }

  // ---------------------------------------------------------------- the driver's own availability

  lemma AvailabilityCommitDriverSide(s: Store, d: DriverId, after: Availability)
    requires DriverSide(s.availability, s.assignments, s.shifts) && FromStatus(s, d) != Assigned
    requires after.status != Assigned && PlaceKnown(after)
    ensures var commit := AvailabilityCommit(s, d, after);
            commit.Some? ==> DriverSide(commit.value.availability, commit.value.assignments, commit.value.shifts)
  {
    hide ActiveFits, PlacesKnown, RecordShift, LastOnlyActive, HasActiveShift, CloseOffers, AttributeNew;
    var shifts := RecordShift(Rows(s.shifts, d), FromStatus(s, d), after.status, after.version, after.region, after.vehicle);
    assert LastOnlyActive(Rows(s.shifts, d));
    ShiftRecorded(Rows(s.shifts, d), FromStatus(s, d), after.status, after.version, after.region, after.vehicle);
    if shifts.Some? {
      DriverMoves(s.availability, s.assignments, s.shifts, d, after, s.shifts[d := shifts.value]);
    }
  }

  lemma AvailabilityCommitKeeps(s: Store, d: DriverId, after: Availability)
    requires Inv(s) && FromStatus(s, d) != Assigned
    requires after.status != Assigned && PlaceKnown(after)
    ensures AvailabilityCommit(s, d, after).Some? ==> Inv(AvailabilityCommit(s, d, after).value)
  {
    hide BookingSide, OfferSide, DriverSide, RecordShift;
    AvailabilityCommitDriverSide(s, d, after);
    CloseManyKeeps(s.attempts, s.offers, s.assignments, s.outcomes, OpenOffersOf(s.offers, d),
                   OfferWithdrawn, WorkIntentChange, OutWithdrawn, DriverChoice);
  }

  lemma NextPlaceKnown(s: Store, d: DriverId, request: AvailabilityRequest)
    requires PlacesKnown(s.availability) && MayMove(FromStatus(s, d), request.status)
    requires request.status in {Available, FinishingSoon, OnBreak, Offline}
    requires GoingOnline(request.status) ==> request.position.Some? && request.region.Some? && request.vehicle.Some?
    ensures PlaceKnown(NextAvailability(s, d, request))
    ensures NextAvailability(s, d, request).status == request.status
  {
  }

  lemma SetAvailabilityKeeps(s: Store, d: DriverId, actorActive: bool, request: AvailabilityRequest, key: Key, w: World)
    requires Inv(s) && request.status in {Available, FinishingSoon, OnBreak, Offline}
    ensures Inv(SetDriverAvailability(s, d, actorActive, request, key, w).store)
  {
    hide IdsIssued, BookingSide, OfferSide, AvailabilityCommit, NextAvailability, PreShiftBlockers, DriverInput, ActiveFits, PlacesKnown, ShiftsFit;
    var r := SetDriverAvailability(s, d, actorActive, request, key, w).store;
    if r != s {
      NextPlaceKnown(s, d, request);
      var after := NextAvailability(s, d, request);
      AvailabilityCommitKeeps(s, d, after);
      OtherTablesFree(AvailabilityCommit(s, d, after).value, r);
    }
  }

  // ---------------------------------------------------------------- other writers of availability

  lemma ReportFatigueKeeps(s: Store, d: DriverId, passengerAboard: bool)
    requires Inv(s)
    ensures Inv(ReportFatigue(s, d, passengerAboard).store)
  {
    hide BookingSide, OfferSide, ActiveFits, NoteShiftEvent, LastOnlyActive, HasActiveShift;
    var r := ReportFatigue(s, d, passengerAboard).store;
    if r != s {
      var before := s.availability[d];
      NoteKeepsShifts(s.shifts, d, WorkIntentChanged, before.status, OnBreak, before.version + 1);
      DriverMoves(s.availability, s.assignments, s.shifts, d, r.availability[d], r.shifts);
    }
  }

  lemma ClearFatigueKeeps(s: Store, d: DriverId, rested: bool)
    requires Inv(s)
    ensures Inv(ClearFatigue(s, d, rested).store)
  {
    hide BookingSide, OfferSide, ActiveFits, NoteShiftEvent, LastOnlyActive, HasActiveShift, HasRideUnderWay;
    var r := ClearFatigue(s, d, rested).store;
    if r != s {
      NoteKeepsShifts(s.shifts, d, RestCompleted, OnBreak, OnBreak, s.availability[d].version + 1);
      DriverMoves(s.availability, s.assignments, s.shifts, d, r.availability[d], r.shifts);
    }
  }

  lemma VehicleConcernKeeps(s: Store, d: DriverId, vehicle: VehicleId)
    requires Inv(s)
    ensures Inv(VehicleConcern(s, d, vehicle).store)
  {
    hide BookingSide, OfferSide, ActiveFits, LastOnlyActive, HasActiveShift;
    var r := VehicleConcern(s, d, vehicle).store;
    if r != s { DriverMoves(s.availability, s.assignments, s.shifts, d, r.availability[d], s.shifts); }
  }

  lemma ReconcileKeeps(s: Store, d: DriverId)
    requires Inv(s)
    ensures Inv(ReconcileConnectivity(s, d).store)
  {
    hide BookingSide, OfferSide, ActiveFits, LastOnlyActive, HasActiveShift;
    var r := ReconcileConnectivity(s, d).store;
    if r != s { DriverMoves(s.availability, s.assignments, s.shifts, d, r.availability[d], s.shifts); }
  }

  // ---------------------------------------------------------------- offers

  lemma ListOffersKeeps(s: Store, d: DriverId, now: Time)
    requires Inv(s)
    ensures Inv(ListDriverOffers(s, d, now).store)
  {
    hide BookingSide, OfferSide, DriverSide;
    CloseManyKeeps(s.attempts, s.offers, s.assignments, s.outcomes, DueOffersOf(s.offers, d, now),
                   OfferExpired, TtlExpired, OutTimedOut, DriverChoice);
  }

  lemma DeclineKeeps(s: Store, d: DriverId, o: OfferId, why: DeclineReason, key: Key, now: Time)
    requires Inv(s)
    ensures Inv(DeclineDriverOffer(s, d, o, why, key, now).store)
  {
    hide BookingSide, OfferSide, DriverSide;
    if o in s.offers && s.offers[o].status == OfferOpen {
      CloseOneKeeps(s.attempts, s.offers, s.assignments, s.outcomes, o, OfferDeclined, Declining(why), OutDeclined, DriverChoice);
    }
  }
}
