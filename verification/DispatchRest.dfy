/**
 Drivers who are not working: which commands leave a shift running for an OFFLINE driver,
 and which leave open offers with a driver on BREAK or OFFLINE. Both are stated exactly.
 */
module DispatchRest {
  import opened Prelude
  import opened BookingStatus
  import opened DriverDomain
  import opened DispatchStore
  import opened DispatchProtocol
  import opened DispatchInvariants
  import opened DispatchDrivers
  import opened DispatchAcceptance
  import opened DispatchRuns
  import opened DispatchReplay
  import opened DispatchTheorems

  // ---------------------------------------------------------------- what each command does to shifts

  ghost predicate ShiftsExact(availability: map<DriverId, Availability>, shifts: map<DriverId, seq<Shift>>) {
    forall d :: HasActiveShift(Rows(shifts, d)) <==> StatusOfDriver(availability, d) != Offline
  }

  /** moveDriverOfflineIfSafe takes the driver offline and leaves the shift open. */
  predicate TakesOffline(s: Store, c: Command) {
    && c.Concern? && c.driver in s.availability && s.availability[c.driver].status !in {Offline, Assigned}
    && s.availability[c.driver].vehicle == Some(c.vehicle)
  }

  lemma ShiftMoves(availability: map<DriverId, Availability>, shifts: map<DriverId, seq<Shift>>, d: DriverId,
                   after: Availability, shiftsAfter: map<DriverId, seq<Shift>>)
    requires ShiftsExact(availability, shifts)
    requires forall e :: e != d ==> Rows(shiftsAfter, e) == Rows(shifts, e)
    requires HasActiveShift(Rows(shiftsAfter, d)) <==> after.status != Offline
    ensures ShiftsExact(availability[d := after], shiftsAfter)
  {
    hide HasActiveShift;
  }

  lemma WaveShifts(s: Store, w: World, b: BookingId, eligible: seq<CandidateRow>)
    requires b in s.bookings
    ensures WithWave(s, w, b, eligible).availability == s.availability && WithWave(s, w, b, eligible).shifts == s.shifts
    ensures WithoutDriver(s, b).availability == s.availability && WithoutDriver(s, b).shifts == s.shifts
  {
    hide WaveOffers, WaveCandidate;
  }

  lemma StartShifts(s: Store, account: AccountId, person: PersonId, b: BookingId, key: Key, rows: seq<CandidateRow>, w: World)
    ensures StartBookingDispatch(s, account, person, b, key, rows, w).store.availability == s.availability
    ensures StartBookingDispatch(s, account, person, b, key, rows, w).store.shifts == s.shifts
  {
    hide FirstFault, EligibleRows, WithWave, WithoutDriver;
    if b in s.bookings { WaveShifts(s, w, b, EligibleRows(s, w, b, rows)); }
  }

  lemma BookingShifts(s: Store, c: Command)
    requires c.Create? || c.Prepare? || c.Acknowledge? || c.Advance?
    ensures Apply(s, c).store.availability == s.availability && Apply(s, c).store.shifts == s.shifts
  {
    hide Apply, BookingStatusFor, CanForward, MoveBooking, AppendRow;
    ApplyDispatches(s, c);
  }

  lemma OfferShifts(s: Store, c: Command)
    requires c.ListOffers? || c.Decline?
    ensures Apply(s, c).store.availability == s.availability && Apply(s, c).store.shifts == s.shifts
  {
    hide Apply, CloseOffers, AttributeNew, CloseOne;
    ApplyDispatches(s, c);
  }

  lemma QuietShifts(s: Store, c: Command)
    requires c.Create? || c.Prepare? || c.Start? || c.ListOffers? || c.Decline? || c.Acknowledge? || c.Advance?
    ensures Apply(s, c).store.availability == s.availability && Apply(s, c).store.shifts == s.shifts
  {
    hide Apply, StartBookingDispatch;
    if c.Start? {
      ApplyDispatches(s, c);
      StartShifts(s, c.account, c.person, c.booking, c.key, c.rows, c.world);
    } else if c.ListOffers? || c.Decline? {
      OfferShifts(s, c);
    } else {
      BookingShifts(s, c);
    }
  }

  lemma CommitShifts(s: Store, d: DriverId, after: Availability)
    requires DriverSide(s.availability, s.assignments, s.shifts) && ShiftsExact(s.availability, s.shifts)
    ensures AvailabilityCommit(s, d, after).Some? ==>
              ShiftsExact(AvailabilityCommit(s, d, after).value.availability, AvailabilityCommit(s, d, after).value.shifts)
  {
    hide ActiveFits, PlacesKnown, RecordShift, LastOnlyActive, HasActiveShift, AvailabilityCommit, ShiftsExact;
    assert LastOnlyActive(Rows(s.shifts, d));
    ShiftRecorded(Rows(s.shifts, d), FromStatus(s, d), after.status, after.version, after.region, after.vehicle);
    if AvailabilityCommit(s, d, after).Some? {
      CommitTables(s, d, after);
      ShiftMoves(s.availability, s.shifts, d, after, AvailabilityCommit(s, d, after).value.shifts);
    }
  }

  lemma SetAvailabilityShifts(s: Store, d: DriverId, actorActive: bool, request: AvailabilityRequest, key: Key, w: World)
    requires Inv(s) && ShiftsExact(s.availability, s.shifts) && request.status in {Available, FinishingSoon, OnBreak, Offline}
    ensures ShiftsExact(SetDriverAvailability(s, d, actorActive, request, key, w).store.availability,
                        SetDriverAvailability(s, d, actorActive, request, key, w).store.shifts)
  {
    hide IdsIssued, BookingSide, OfferSide, DriverSide, AvailabilityCommit, DriverInput, PreShiftBlockers, ShiftsExact;
    if SetDriverAvailability(s, d, actorActive, request, key, w).store != s { CommitShifts(s, d, NextAvailability(s, d, request)); }
  }

  lemma AcceptCommitShifts(s: Store, d: DriverId, o: OfferId)
    requires DriverSide(s.availability, s.assignments, s.shifts) && ShiftsExact(s.availability, s.shifts)
    requires o in s.offers && s.offers[o].booking in s.bookings
    ensures AcceptCommit(s, d, o).Some? ==>
              ShiftsExact(AcceptCommit(s, d, o).value.availability, AcceptCommit(s, d, o).value.shifts)
  {
    hide ActiveFits, PlacesKnown, LastOnlyActive, HasActiveShift, AcceptCommit, ShiftsOnAccept, ShiftsExact;
    if AcceptCommit(s, d, o).Some? {
      AcceptCommitDriver(s, d, o);
      assert LastOnlyActive(Rows(s.shifts, d));
      ShiftsOnAcceptFit(s, d, s.offers[o]);
      ShiftMoves(s.availability, s.shifts, d, Promoted(s.availability[d]), AcceptCommit(s, d, o).value.shifts);
    }
  }

  /** An acceptance changes availability, shifts or the set of open offers only through its commit. */
  lemma AcceptedCommits(s: Store, d: DriverId, actorActive: bool, o: OfferId, key: Key, w: World)
    requires AcceptDriverOffer(s, d, actorActive, o, key, w).outcome.Accepted?
    requires AcceptDriverOffer(s, d, actorActive, o, key, w).store != s
    ensures o in s.offers && s.offers[o].booking in s.bookings && s.offers[o].status == OfferOpen && AcceptCommit(s, d, o).Some?
    ensures AcceptDriverOffer(s, d, actorActive, o, key, w).store
              == AcceptCommit(s, d, o).value.(dedup := AcceptDriverOffer(s, d, actorActive, o, key, w).store.dedup)
  {
    hide AcceptCommit, RecheckInput, IsEligible, Blockers, AcceptanceAllowed, AttributeNew, CloseOne, Attribution;
  }

  lemma AcceptShifts(s: Store, d: DriverId, actorActive: bool, o: OfferId, key: Key, w: World)
    requires Inv(s) && ShiftsExact(s.availability, s.shifts)
    ensures ShiftsExact(AcceptDriverOffer(s, d, actorActive, o, key, w).store.availability,
                        AcceptDriverOffer(s, d, actorActive, o, key, w).store.shifts)
  {
    hide IdsIssued, BookingSide, OfferSide, DriverSide, AcceptCommit, AcceptDriverOffer, ShiftsExact, RefusedAccept;
    if AcceptDriverOffer(s, d, actorActive, o, key, w).outcome.Refused? {
      AcceptRefusal(s, d, actorActive, o, key, w);
      RefusedFrame(s, d, actorActive, o, key, w);
    } else if AcceptDriverOffer(s, d, actorActive, o, key, w).store != s {
      AcceptedCommits(s, d, actorActive, o, key, w);
      AcceptCommitShifts(s, d, o);
    }
  }

  lemma EndShifts(s: Store, d: DriverId, j: JourneyId, booking: Status, journey: Journey, assignment: AssignmentStatus,
                  to: AvailabilityStatus, kind: ShiftEventKind)
    requires DriverSide(s.availability, s.assignments, s.shifts) && ShiftsExact(s.availability, s.shifts)
    requires j in s.journeys && s.journeys[j].booking in s.bookings && s.journeys[j].assignment in s.assignments
    requires d in s.availability && s.availability[d].status == Assigned && to in {Available, OnBreak}
    ensures ShiftsExact(EndJourney(s, d, j, booking, journey, assignment, to, kind).availability,
                        EndJourney(s, d, j, booking, journey, assignment, to, kind).shifts)
  {
    hide ActiveFits, PlacesKnown, LastOnlyActive, HasActiveShift, NoteShiftEvent, MoveBooking;
    assert LastOnlyActive(Rows(s.shifts, d));
    NoteKeepsShifts(s.shifts, d, kind, Assigned, to, s.availability[d].version + 1);
    ShiftMoves(s.availability, s.shifts, d, s.availability[d].(status := to, version := s.availability[d].version + 1),
               NoteShiftEvent(s.shifts, d, kind, Assigned, to, s.availability[d].version + 1));
  }

  lemma EndingShifts(s: Store, c: Command)
    requires Inv(s) && ShiftsExact(s.availability, s.shifts) && (c.Complete? || c.Terminate?)
    ensures ShiftsExact(Apply(s, c).store.availability, Apply(s, c).store.shifts)
  {
    hide IdsIssued, BookingSide, OfferSide, DriverSide, EndJourney, ShiftsExact, Apply;
    ApplyDispatches(s, c);
    if Apply(s, c).store != s {
      if c.Complete? {
        EndShifts(s, c.driver, c.journey, Completed, s.journeys[c.journey].(status := JourneyDone), AssignmentCompleted,
                  Available, JourneyCompletedAvailable);
      } else {
        EndShifts(s, c.driver, c.journey, ActiveIncident, s.journeys[c.journey].(legInterrupted := true), AssignmentCancelled,
                  OnBreak, UnsafeTerminationBreak);
      }
    }
  }

  lemma FatigueShifts(s: Store, c: Command)
    requires Inv(s) && ShiftsExact(s.availability, s.shifts) && (c.FatigueReport? || c.FatigueClear?)
    ensures ShiftsExact(Apply(s, c).store.availability, Apply(s, c).store.shifts)
  {
    hide IdsIssued, BookingSide, OfferSide, ActiveFits, PlacesKnown, LastOnlyActive, HasActiveShift, NoteShiftEvent, ActiveShift, Apply;
    ApplyDispatches(s, c);
    if Apply(s, c).store != s {
      var before := s.availability[c.driver];
      assert LastOnlyActive(Rows(s.shifts, c.driver));
      NoteKeepsShifts(s.shifts, c.driver, if c.FatigueReport? then WorkIntentChanged else RestCompleted, before.status, OnBreak, before.version + 1);
      ShiftMoves(s.availability, s.shifts, c.driver, Apply(s, c).store.availability[c.driver], Apply(s, c).store.shifts);
    }
  }

  lemma ReconcileShifts(s: Store, c: Command)
    requires ShiftsExact(s.availability, s.shifts) && c.Reconcile?
    ensures ShiftsExact(Apply(s, c).store.availability, Apply(s, c).store.shifts)
  {
    hide HasActiveShift, Apply, ShiftsExact;
    ApplyDispatches(s, c);
    if c.driver !in s.availability { OfflineRowAdded(s.availability, s.shifts, c.driver); }
  }

  lemma OfflineRowAdded(availability: map<DriverId, Availability>, shifts: map<DriverId, seq<Shift>>, d: DriverId)
    requires ShiftsExact(availability, shifts) && d !in availability
    ensures ShiftsExact(availability[d := Availability(Offline, 1, None, None, None, None)], shifts)
  {
    hide HasActiveShift;
  }

  lemma ConcernShifts(s: Store, c: Command)
    requires ShiftsExact(s.availability, s.shifts) && c.Concern?
    ensures ShiftsExact(Apply(s, c).store.availability, Apply(s, c).store.shifts) <==> !TakesOffline(s, c)
  {
    hide HasActiveShift, Apply;
    ApplyDispatches(s, c);
    if TakesOffline(s, c) {
      assert HasActiveShift(Rows(s.shifts, c.driver));
      assert StatusOfDriver(Apply(s, c).store.availability, c.driver) == Offline;
    }
  }

  /** "ACTIVE shift iff not OFFLINE" survives every command except one: taking a driver offline over a vehicle concern. */
  lemma ShiftMatchesAvailability(s: Store, c: Command)
    requires Inv(s) && ShiftsExact(s.availability, s.shifts)
    ensures ShiftsExact(Apply(s, c).store.availability, Apply(s, c).store.shifts) <==> !TakesOffline(s, c)
  {
    hide ShiftsExact, Inv, SetDriverAvailability, AcceptDriverOffer, Apply;
    match c
    case SetAvailability(d, active, r, k, w) =>
      ApplyDispatches(s, c);
      if r.status in {Available, FinishingSoon, OnBreak, Offline} { SetAvailabilityShifts(s, d, active, r, k, w); }
    case Accept(d, active, o, k, w) =>
      ApplyDispatches(s, c);
      AcceptShifts(s, d, active, o, k, w);
    case Complete(_, _, _) => EndingShifts(s, c);
    case Terminate(_, _, _, _, _) => EndingShifts(s, c);
    case FatigueReport(_, _) => FatigueShifts(s, c);
    case FatigueClear(_, _) => FatigueShifts(s, c);
    case Concern(_, _) => ConcernShifts(s, c);
    case Reconcile(_) => ReconcileShifts(s, c);
    case _ => QuietShifts(s, c);
  }

  /** No command of the run takes a driver offline over a vehicle concern. */
  predicate NeverTakenOffline(s: Store, commands: seq<Command>)
    decreases |commands|
  {
    commands == []
    || (NeverTakenOffline(s, commands[..|commands| - 1])
        && !TakesOffline(Run(s, commands[..|commands| - 1]), commands[|commands| - 1]))
  }

  lemma {:induction false} ShiftsExactOverRuns(commands: seq<Command>)
    requires NeverTakenOffline(EMPTY, commands)
    ensures ShiftsExact(Run(EMPTY, commands).availability, Run(EMPTY, commands).shifts)
    decreases |commands|
  {
    hide ShiftsExact, Inv, Apply, TakesOffline;
    if commands == [] {
      EmptyShiftsExact();
    } else {
      ShiftsExactOverRuns(commands[..|commands| - 1]);
      ReachableHolds(commands[..|commands| - 1]);
      ShiftMatchesAvailability(Run(EMPTY, commands[..|commands| - 1]), commands[|commands| - 1]);
    }
  }

  lemma EmptyShiftsExact()
    ensures ShiftsExact(EMPTY.availability, EMPTY.shifts)
  {
  }

  // ---------------------------------------------------------------- open offers of drivers who are not working

  predicate Resting(status: AvailabilityStatus) {
    status in {OnBreak, Offline}
  }

  ghost predicate RestingHoldNone(availability: map<DriverId, Availability>, offers: map<OfferId, Offer>) {
    forall o :: o in offers && offers[o].status == OfferOpen ==> !Resting(StatusOfDriver(availability, offers[o].driver))
  }

  /** Commands that put a driver on BREAK or OFFLINE without withdrawing the offers the driver still has. */
  ghost predicate Strands(s: Store, c: Command) {
    match c
    case Terminate(a, d, j, _, k) => OpenOffersOf(s.offers, d) != {} && SafetyKey(a, j, k) !in s.safetyDedup && Holds(s, d, j)
    case FatigueReport(d, aboard) =>
      && OpenOffersOf(s.offers, d) != {} && ActiveShift(Rows(s.shifts, d)).Some? && !aboard
      && d in s.availability && s.availability[d].status in {Available, Offered, FinishingSoon}
    case Concern(d, _) => OpenOffersOf(s.offers, d) != {} && TakesOffline(s, c)
    case _ => false
  }

  /** No offer of `r` is open that was not an open offer of the same driver in `s`. */
  ghost predicate NoneOpens(s: map<OfferId, Offer>, r: map<OfferId, Offer>) {
    forall o :: o in r && r[o].status == OfferOpen ==> o in s && s[o].status == OfferOpen && s[o].driver == r[o].driver
  }

  lemma ClosingKeepsResting(availability: map<DriverId, Availability>, offers: map<OfferId, Offer>, after: map<OfferId, Offer>)
    requires RestingHoldNone(availability, offers) && NoneOpens(offers, after)
    ensures RestingHoldNone(availability, after)
  {
  }

  lemma WorkingMoveKeepsResting(availability: map<DriverId, Availability>, offers: map<OfferId, Offer>, d: DriverId, next: Availability)
    requires RestingHoldNone(availability, offers) && (Resting(next.status) ==> OpenOffersOf(offers, d) == {})
    ensures RestingHoldNone(availability[d := next], offers)
  {
    forall o | o in offers && offers[o].status == OfferOpen && offers[o].driver == d ensures OpenOffersOf(offers, d) != {} {
      assert o in OpenOffersOf(offers, d);
    }
  }

  lemma RestingMoveStrands(availability: map<DriverId, Availability>, offers: map<OfferId, Offer>, d: DriverId, next: Availability)
    requires Resting(next.status) && OpenOffersOf(offers, d) != {}
    ensures !RestingHoldNone(availability[d := next], offers)
  {
    var o :| o in OpenOffersOf(offers, d);
    assert o in offers && offers[o].driver == d && offers[o].status == OfferOpen;
    assert Resting(StatusOfDriver(availability[d := next], offers[o].driver));
  }

  lemma EligibleRowWorks(s: Store, w: World, b: BookingId, booking: Booking, row: CandidateRow)
    requires RowEligible(s, w, b, booking, row)
    ensures !Resting(StatusOfDriver(s.availability, row.driver))
  {
    hide Blockers, FatiguePassed, HardRequirementsMatch, OperatingRestricted, MaintenancePermits, Stands;
    EligibleMeans(CandidateInput(s, w, row.driver, b, booking).value, w.now);
  }

  lemma WaveResting(s: Store, w: World, b: BookingId, eligible: seq<CandidateRow>)
    requires RestingHoldNone(s.availability, s.offers) && b in s.bookings
    requires forall r :: r in eligible ==> !Resting(StatusOfDriver(s.availability, r.driver))
    ensures RestingHoldNone(WithWave(s, w, b, eligible).availability, WithWave(s, w, b, eligible).offers)
  {
    hide WaveCandidate, WaveDisclosure, MoveBooking;
    var reach := WaveReach(|eligible|, w.config.waveSize);
    forall i | 0 <= i < reach ensures !Resting(StatusOfDriver(s.availability, WaveOffers(s, w, b, s.nextId, eligible, reach)[i].driver)) {
      assert eligible[i] in eligible;
    }
  }

  lemma StartOffers(s: Store, account: AccountId, person: PersonId, b: BookingId, key: Key, rows: seq<CandidateRow>, w: World)
    ensures StartBookingDispatch(s, account, person, b, key, rows, w).store.availability == s.availability
    ensures || StartBookingDispatch(s, account, person, b, key, rows, w).store.offers == s.offers
            || (b in s.bookings && StartBookingDispatch(s, account, person, b, key, rows, w).store.offers
                                     == WithWave(s, w, b, EligibleRows(s, w, b, rows)).offers)
  {
    hide EligibleRows, FirstFault, WithWave, WithoutDriver;
    if b in s.bookings {
      WithoutDriverOffers(s, b);
      WaveShifts(s, w, b, EligibleRows(s, w, b, rows));
    }
  }

  lemma StartResting(s: Store, c: Command)
    requires RestingHoldNone(s.availability, s.offers) && c.Start?
    ensures RestingHoldNone(Apply(s, c).store.availability, Apply(s, c).store.offers)
  {
    hide Apply, StartBookingDispatch, EligibleRows, WithWave, RestingHoldNone, RowEligible, Resting, StatusOfDriver;
    ApplyDispatches(s, c);
    StartOffers(s, c.account, c.person, c.booking, c.key, c.rows, c.world);
    if c.booking in s.bookings {
      var eligible := EligibleRows(s, c.world, c.booking, c.rows);
      forall r | r in eligible ensures !Resting(StatusOfDriver(s.availability, r.driver)) {
        EligibleRowWorks(s, c.world, c.booking, s.bookings[c.booking], r);
      }
      WaveResting(s, c.world, c.booking, eligible);
      WaveShifts(s, c.world, c.booking, eligible);
    }
  }

  lemma WithoutDriverOffers(s: Store, b: BookingId)
    requires b in s.bookings
    ensures WithoutDriver(s, b).offers == s.offers && WithoutDriver(s, b).availability == s.availability
  {
  }

  lemma QuietOffers(s: Store, c: Command)
    requires c.Create? || c.Prepare? || c.Acknowledge? || c.Advance?
    ensures Apply(s, c).store.availability == s.availability && Apply(s, c).store.offers == s.offers
  {
    hide Apply, BookingStatusFor, CanForward, MoveBooking, AppendRow;
    ApplyDispatches(s, c);
  }

  lemma ListCloses(s: Store, d: DriverId, now: Time)
    ensures ListDriverOffers(s, d, now).store.availability == s.availability
    ensures NoneOpens(s.offers, ListDriverOffers(s, d, now).store.offers)
  {
    hide AttributeNew;
  }

  lemma OneCloses(offers: map<OfferId, Offer>, o: OfferId, closed: Offer)
    requires closed.status != OfferOpen
    ensures NoneOpens(offers, offers[o := closed])
  {
  }

  lemma NoneOpensSame(offers: map<OfferId, Offer>)
    ensures NoneOpens(offers, offers)
  {
  }

  lemma CloseOneCloses(s: Store, o: OfferId, status: OfferStatus, reason: Option<CloseReason>, row: OutcomeRow)
    requires o in s.offers && status != OfferOpen
    ensures CloseOne(s, o, status, reason, row).availability == s.availability
    ensures NoneOpens(s.offers, CloseOne(s, o, status, reason, row).offers)
  {
    hide AppendRow, NoneOpens;
    OneCloses(s.offers, o, s.offers[o].(status := status, reason := reason));
  }

  lemma DeclineStore(s: Store, d: DriverId, o: OfferId, why: DeclineReason, key: Key, now: Time, after: Store)
    requires after == DeclineDriverOffer(s, d, o, why, key, now).store && after != s
    ensures o in s.offers
    ensures after == CloseOne(s, o, OfferDeclined, Some(Declining(why)), Attribution(d, OutDeclined, DriverChoice)).(dedup := after.dedup)
  {
    hide CloseOne, Attribution;
  }

  lemma DeclineCloses(s: Store, d: DriverId, o: OfferId, why: DeclineReason, key: Key, now: Time, after: Store)
    requires after == DeclineDriverOffer(s, d, o, why, key, now).store
    ensures after.availability == s.availability && NoneOpens(s.offers, after.offers)
  {
    hide DeclineDriverOffer, CloseOne, Attribution, NoneOpens;
    if after == s { NoneOpensSame(s.offers); } else {
      DeclineStore(s, d, o, why, key, now, after);
      CloseOneCloses(s, o, OfferDeclined, Some(Declining(why)), Attribution(d, OutDeclined, DriverChoice));
    }
  }

  lemma OffersCloseOnly(s: Store, c: Command)
    requires c.ListOffers? || c.Decline?
    ensures Apply(s, c).store.availability == s.availability && NoneOpens(s.offers, Apply(s, c).store.offers)
  {
    hide Apply, ListDriverOffers, DeclineDriverOffer, NoneOpens;
    ApplyDispatches(s, c);
    if c.ListOffers? { ListCloses(s, c.driver, c.now); } else { DeclineCloses(s, c.driver, c.offer, c.why, c.key, c.now, Apply(s, c).store); }
  }

  lemma RestingStays(s: Store, c: Command)
    requires (c.FatigueClear? || c.Reconcile?) && RestingHoldNone(s.availability, s.offers)
    ensures RestingHoldNone(Apply(s, c).store.availability, Apply(s, c).store.offers)
  {
    hide Apply, NoteShiftEvent, ActiveShift;
    ApplyDispatches(s, c);
  }

  lemma QuietResting(s: Store, c: Command)
    requires c.Create? || c.Prepare? || c.Acknowledge? || c.Advance? || c.ListOffers? || c.Decline? || c.FatigueClear? || c.Reconcile?
    requires RestingHoldNone(s.availability, s.offers)
    ensures RestingHoldNone(Apply(s, c).store.availability, Apply(s, c).store.offers)
  {
    hide Apply, RestingHoldNone, NoneOpens;
    if c.FatigueClear? || c.Reconcile? { RestingStays(s, c); }
    else if c.ListOffers? || c.Decline? {
      OffersCloseOnly(s, c);
      ClosingKeepsResting(s.availability, s.offers, Apply(s, c).store.offers);
    } else { QuietOffers(s, c); }
  }

  lemma CommitResting(s: Store, d: DriverId, after: Availability)
    requires RestingHoldNone(s.availability, s.offers)
    ensures AvailabilityCommit(s, d, after).Some? ==>
              RestingHoldNone(AvailabilityCommit(s, d, after).value.availability, AvailabilityCommit(s, d, after).value.offers)
  {
    hide AvailabilityCommit, RestingHoldNone;
    if AvailabilityCommit(s, d, after).Some? {
      var closed := CloseOffers(s.offers, OpenOffersOf(s.offers, d), OfferWithdrawn, Some(WorkIntentChange));
      CommitTables(s, d, after);
      ClosingKeepsResting(s.availability, s.offers, closed);
      assert OpenOffersOf(closed, d) == {};
      WorkingMoveKeepsResting(s.availability, closed, d, after);
      if !Resting(after.status) { WorkingMoveKeepsResting(s.availability, s.offers, d, after); }
    }
  }

  lemma SetAvailabilityResting(s: Store, d: DriverId, actorActive: bool, request: AvailabilityRequest, key: Key, w: World)
    requires RestingHoldNone(s.availability, s.offers) && request.status in {Available, FinishingSoon, OnBreak, Offline}
    ensures RestingHoldNone(SetDriverAvailability(s, d, actorActive, request, key, w).store.availability,
                            SetDriverAvailability(s, d, actorActive, request, key, w).store.offers)
  {
    hide AvailabilityCommit, DriverInput, PreShiftBlockers, RestingHoldNone;
    if SetDriverAvailability(s, d, actorActive, request, key, w).store != s { CommitResting(s, d, NextAvailability(s, d, request)); }
  }

  lemma AcceptCommitResting(s: Store, d: DriverId, o: OfferId)
    requires RestingHoldNone(s.availability, s.offers) && o in s.offers && s.offers[o].booking in s.bookings && AcceptCommit(s, d, o).Some?
    ensures RestingHoldNone(AcceptCommit(s, d, o).value.availability, AcceptCommit(s, d, o).value.offers)
  {
    hide AcceptCommit, RestingHoldNone;
    AcceptCommitDriver(s, d, o);
    AcceptCommitOffers(s, d, o);
    ClosingKeepsResting(s.availability, s.offers, WonOffers(s.offers, o));
    WorkingMoveKeepsResting(s.availability, WonOffers(s.offers, o), d, Promoted(s.availability[d]));
  }

  lemma AcceptCommitOffers(s: Store, d: DriverId, o: OfferId)
    requires o in s.offers && s.offers[o].booking in s.bookings && AcceptCommit(s, d, o).Some?
    ensures AcceptCommit(s, d, o).value.offers == WonOffers(s.offers, o)
  {
    hide ShiftsOnAccept, WonOffers, WonOutcomes;
  }

  lemma AcceptResting(s: Store, d: DriverId, actorActive: bool, o: OfferId, key: Key, w: World)
    requires RestingHoldNone(s.availability, s.offers)
    ensures RestingHoldNone(AcceptDriverOffer(s, d, actorActive, o, key, w).store.availability,
                            AcceptDriverOffer(s, d, actorActive, o, key, w).store.offers)
  {
    hide AcceptCommit, AcceptDriverOffer, RestingHoldNone, RefusedAccept;
    if AcceptDriverOffer(s, d, actorActive, o, key, w).outcome.Refused? {
      AcceptRefusal(s, d, actorActive, o, key, w);
      RefusedFrame(s, d, actorActive, o, key, w);
      RefusedOffers(s, d, actorActive, o, key, w);
      ClosingKeepsResting(s.availability, s.offers, RefusedAccept(s, d, actorActive, o, key, w).offers);
    } else if AcceptDriverOffer(s, d, actorActive, o, key, w).store != s {
      AcceptedCommits(s, d, actorActive, o, key, w);
      AcceptCommitResting(s, d, o);
    }
  }

  lemma EndTablesOf(s: Store, d: DriverId, j: JourneyId, booking: Status, journey: Journey, assignment: AssignmentStatus,
                    to: AvailabilityStatus, kind: ShiftEventKind)
    requires j in s.journeys && s.journeys[j].booking in s.bookings && s.journeys[j].assignment in s.assignments && d in s.availability
    ensures EndJourney(s, d, j, booking, journey, assignment, to, kind).offers == s.offers
    ensures EndJourney(s, d, j, booking, journey, assignment, to, kind).availability
              == s.availability[d := s.availability[d].(status := to, version := s.availability[d].version + 1)]
  {
    hide NoteShiftEvent;
  }

  lemma CompleteResting(s: Store, c: Command)
    requires RestingHoldNone(s.availability, s.offers) && c.Complete?
    ensures RestingHoldNone(Apply(s, c).store.availability, Apply(s, c).store.offers)
  {
    hide EndJourney, RestingHoldNone, Apply;
    ApplyDispatches(s, c);
    if Apply(s, c).store != s {
      EndTablesOf(s, c.driver, c.journey, Completed, s.journeys[c.journey].(status := JourneyDone), AssignmentCompleted,
                  Available, JourneyCompletedAvailable);
      WorkingMoveKeepsResting(s.availability, s.offers, c.driver,
                              s.availability[c.driver].(status := Available, version := s.availability[c.driver].version + 1));
    }
  }

  /** A termination under a new key moves the driver exactly if the driver holds the journey's ACTIVE assignment. */
  lemma TerminateTables(s: Store, c: Command)
    requires Inv(s) && c.Terminate?
    ensures Apply(s, c).store.offers == s.offers
    ensures SafetyKey(c.account, c.journey, c.key) !in s.safetyDedup && Holds(s, c.driver, c.journey) ==>
              && c.driver in s.availability
              && Apply(s, c).store.availability
                   == s.availability[c.driver := s.availability[c.driver].(status := OnBreak, version := s.availability[c.driver].version + 1)]
    ensures SafetyKey(c.account, c.journey, c.key) in s.safetyDedup || !Holds(s, c.driver, c.journey) ==>
              Apply(s, c).store.availability == s.availability
  {
    hide EndJourney, Inv, Holds, Apply;
    ApplyDispatches(s, c);
    if SafetyKey(c.account, c.journey, c.key) !in s.safetyDedup {
      TerminationExact(s, c.account, c.driver, c.journey, c.report, c.key);
      if Apply(s, c).outcome.Accepted? {
        EndTablesOf(s, c.driver, c.journey, ActiveIncident, s.journeys[c.journey].(legInterrupted := true), AssignmentCancelled,
                    OnBreak, UnsafeTerminationBreak);
      }
    }
  }

  lemma TerminateResting(s: Store, c: Command)
    requires Inv(s) && RestingHoldNone(s.availability, s.offers) && c.Terminate?
    ensures RestingHoldNone(Apply(s, c).store.availability, Apply(s, c).store.offers) <==> !Strands(s, c)
  {
    hide Inv, Holds, RestingHoldNone, Apply;
    TerminateTables(s, c);
    if SafetyKey(c.account, c.journey, c.key) !in s.safetyDedup && Holds(s, c.driver, c.journey) {
      var next := s.availability[c.driver].(status := OnBreak, version := s.availability[c.driver].version + 1);
      if OpenOffersOf(s.offers, c.driver) == {} { WorkingMoveKeepsResting(s.availability, s.offers, c.driver, next); }
      else { RestingMoveStrands(s.availability, s.offers, c.driver, next); }
    }
  }

  lemma FatigueReportResting(s: Store, c: Command)
    requires RestingHoldNone(s.availability, s.offers) && c.FatigueReport?
    ensures RestingHoldNone(Apply(s, c).store.availability, Apply(s, c).store.offers) <==> !Strands(s, c)
  {
    hide NoteShiftEvent, RestingHoldNone, ActiveShift, Apply;
    ApplyDispatches(s, c);
    if Apply(s, c).store.availability != s.availability {
      var next := s.availability[c.driver].(status := OnBreak, version := s.availability[c.driver].version + 1);
      if OpenOffersOf(s.offers, c.driver) == {} { WorkingMoveKeepsResting(s.availability, s.offers, c.driver, next); }
      else { RestingMoveStrands(s.availability, s.offers, c.driver, next); }
    }
  }

  lemma ConcernResting(s: Store, c: Command)
    requires RestingHoldNone(s.availability, s.offers) && c.Concern?
    ensures RestingHoldNone(Apply(s, c).store.availability, Apply(s, c).store.offers) <==> !Strands(s, c)
  {
    hide RestingHoldNone, Apply;
    ApplyDispatches(s, c);
    if TakesOffline(s, c) {
      var next := Availability(Offline, s.availability[c.driver].version + 1, None, None, None, None);
      if OpenOffersOf(s.offers, c.driver) == {} { WorkingMoveKeepsResting(s.availability, s.offers, c.driver, next); }
      else { RestingMoveStrands(s.availability, s.offers, c.driver, next); }
    }
  }

  /** A driver on BREAK or OFFLINE holds no open offer, and every dispatch command keeps it so. A fatigue report, a vehicle
      concern or an unsafe termination breaks it exactly when the driver it stops still has an open offer. */
  lemma RestingDriversHoldNoOffer(s: Store, c: Command)
    requires Inv(s) && RestingHoldNone(s.availability, s.offers)
    ensures RestingHoldNone(Apply(s, c).store.availability, Apply(s, c).store.offers) <==> !Strands(s, c)
  {
    hide RestingHoldNone, Inv, SetDriverAvailability, AcceptDriverOffer, Apply;
    match c
    case Start(_, _, _, _, _, _) => StartResting(s, c);
    case SetAvailability(d, active, r, k, w) =>
      ApplyDispatches(s, c);
      if r.status in {Available, FinishingSoon, OnBreak, Offline} { SetAvailabilityResting(s, d, active, r, k, w); }
    case Accept(d, active, o, k, w) =>
      ApplyDispatches(s, c);
      AcceptResting(s, d, active, o, k, w);
    case Complete(_, _, _) => CompleteResting(s, c);
    case Terminate(_, _, _, _, _) => TerminateResting(s, c);
    case FatigueReport(_, _) => FatigueReportResting(s, c);
    case Concern(_, _) => ConcernResting(s, c);
    case _ => QuietResting(s, c);
  }

  /** No command of the run stops a driver who still has an open offer without withdrawing it. */
  ghost predicate NeverStrands(s: Store, commands: seq<Command>)
    decreases |commands|
  {
    commands == []
    || (NeverStrands(s, commands[..|commands| - 1]) && !Strands(Run(s, commands[..|commands| - 1]), commands[|commands| - 1]))
  }

  lemma {:induction false} RestingOverRuns(commands: seq<Command>)
    requires NeverStrands(EMPTY, commands)
    ensures RestingHoldNone(Run(EMPTY, commands).availability, Run(EMPTY, commands).offers)
    decreases |commands|
  {
    hide RestingHoldNone, Inv, Apply, Strands;
    if commands == [] {
      EmptyRests();
    } else {
      RestingOverRuns(commands[..|commands| - 1]);
      ReachableHolds(commands[..|commands| - 1]);
      RestingDriversHoldNoOffer(Run(EMPTY, commands[..|commands| - 1]), commands[|commands| - 1]);
    }
  }

  lemma EmptyRests()
    ensures RestingHoldNone(EMPTY.availability, EMPTY.offers)
  {
  }
}
