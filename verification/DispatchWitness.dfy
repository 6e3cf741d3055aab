/**
 Reachable stores on which a promise fails. One run leads to a driver with open offers for two bookings; a vehicle concern, a
 fatigue report or an unsafe termination then leaves a resting driver with an open offer, and a used key is answered without effect.
 */
module DispatchWitness {
  import opened Prelude
  import opened BookingStatus
  import opened DriverDomain
  import opened DispatchStore
  import opened DispatchProtocol
  import opened DispatchInvariants
  import opened DispatchAcceptance
  import opened DispatchRuns
  import opened DispatchTheorems
  import opened DispatchReplay
  import opened DispatchRest
  import opened DispatchWave

  const ACCOUNT: AccountId := 5
  const BOOKER: PersonId := 1
  const DRIVER: DriverId := 7
  const VEHICLE: VehicleId := 3
  const NOW: Time := 1_000_000_000

  const WORLD: World := World(
    NOW,
    Config(500, 60, 1, 30, FatiguePolicy(60, 120, 30), Some(EarningFixture(5, 900, "GBP"))),
    map[DRIVER := DriverRecord(true, true, Some(Snapshot(Eligible, NOW + 1)), FatigueEvidence(Some(NOW - MINUTE), None, None, false, false))],
    map[VEHICLE := VehicleRecord(Some(Snapshot(Eligible, NOW + 1)), map[], Some(MaintenanceGate(true, {})))],
    {(DRIVER, VEHICLE)}, {Permission(DRIVER, "A", "STANDARD")}, {}, {})

  const REQUEST: AvailabilityRequest := AvailabilityRequest(Available, Some("A"), Some(VEHICLE), Some(Position(NOW, 900)))

  const ONLINE: Availability := Availability(Available, 1, Some("A"), Some(VEHICLE), Some(NOW), Some(900))

  const WORKING: seq<Shift> := [Shift(true, "A", VEHICLE, 1, [ShiftEvent(ShiftStarted, Offline, Available, 1)])]

  const ROWS: seq<CandidateRow> := [CandidateRow(DRIVER, Some(100))]

  const GO_ONLINE: Command := SetAvailability(DRIVER, true, REQUEST, "k1", WORLD)
  const DISPATCH_FIRST: Command := Start(ACCOUNT, BOOKER, 0, "k2", ROWS, WORLD)
  const DISPATCH_SECOND: Command := Start(ACCOUNT, BOOKER, 1, "k3", ROWS, WORLD)

  /** Two bookings, a driver, and an offer of each booking to the driver. */
  const STEPS: seq<Command> := [
    Create(BOOKER, "A", None, []),
    Create(BOOKER, "A", None, []),
    Prepare(BOOKER, 0, Draft, QuoteCreated),
    Prepare(BOOKER, 0, QuoteCreated, AwaitingConfirmation),
    Prepare(BOOKER, 0, AwaitingConfirmation, Confirmed),
    Prepare(BOOKER, 0, Confirmed, ReadyForDispatch),
    Prepare(BOOKER, 1, Draft, QuoteCreated),
    Prepare(BOOKER, 1, QuoteCreated, AwaitingConfirmation),
    Prepare(BOOKER, 1, AwaitingConfirmation, Confirmed),
    Prepare(BOOKER, 1, Confirmed, ReadyForDispatch),
    GO_ONLINE,
    DISPATCH_FIRST,
    DISPATCH_SECOND]

  function After(n: nat): Store
    requires n <= |STEPS|
  {
    Run(EMPTY, STEPS[..n])
  }

  lemma NextStep(n: nat)
    requires n < |STEPS|
    ensures After(n + 1) == Apply(After(n), STEPS[n]).store
  {
    assert STEPS[..n + 1][..n] == STEPS[..n];
  }

  lemma RunMore(s: Store, commands: seq<Command>, c: Command)
    ensures Run(s, commands + [c]) == Apply(Run(s, commands), c).store
  {
    assert (commands + [c])[..|commands|] == commands;
  }

  // ---------------------------------------------------------------- the bookings

  function Staged(status: Status, version: nat): Booking {
    Booking(BOOKER, status, version, "A", None, [])
  }

  const READY: Booking := Staged(ReadyForDispatch, 5)

  /** The store while only these bookings have moved. */
  predicate OnlyBookings(s: Store, rows: map<BookingId, Booking>) {
    s == EMPTY.(nextId := 2, bookings := rows, bookingLog := s.bookingLog)
  }

  lemma BookingMoves(s: Store, rows: map<BookingId, Booking>, b: BookingId, from: Status, to: Status, version: nat)
    requires OnlyBookings(s, rows) && b in rows && rows[b] == Staged(from, version)
    requires CanForward(from, to) && Rank(to) <= Rank(ReadyForDispatch)
    ensures OnlyBookings(PrepareBooking(s, BOOKER, b, from, to).store, rows[b := Staged(to, version + 1)])
  {
  }

  lemma BookingStep(n: nat, rows: map<BookingId, Booking>, b: BookingId, from: Status, to: Status, version: nat)
    requires n < |STEPS| && STEPS[n] == Prepare(BOOKER, b, from, to) && OnlyBookings(After(n), rows) && b in rows
    requires rows[b] == Staged(from, version) && CanForward(from, to) && Rank(to) <= Rank(ReadyForDispatch)
    ensures OnlyBookings(After(n + 1), rows[b := Staged(to, version + 1)])
  {
    hide After, OnlyBookings, Apply, PrepareBooking, CanForward;
    NextStep(n);
    ApplyDispatches(After(n), STEPS[n]);
    BookingMoves(After(n), rows, b, from, to, version);
  }

  lemma Created()
    ensures OnlyBookings(After(2), map[0 := Staged(Draft, 1), 1 := Staged(Draft, 1)])
  {
    hide Apply;
    NextStep(0);
    ApplyDispatches(After(0), STEPS[0]);
    NextStep(1);
    ApplyDispatches(After(1), STEPS[1]);
  }

  /** Four steps from DRAFT to READY_FOR_DISPATCH. */
  lemma MadeReady(n: nat, rows: map<BookingId, Booking>, b: BookingId)
    requires n + 4 <= |STEPS| && OnlyBookings(After(n), rows) && b in rows && rows[b] == Staged(Draft, 1)
    requires STEPS[n] == Prepare(BOOKER, b, Draft, QuoteCreated) && STEPS[n + 1] == Prepare(BOOKER, b, QuoteCreated, AwaitingConfirmation)
    requires STEPS[n + 2] == Prepare(BOOKER, b, AwaitingConfirmation, Confirmed)
    requires STEPS[n + 3] == Prepare(BOOKER, b, Confirmed, ReadyForDispatch)
    ensures OnlyBookings(After(n + 4), rows[b := READY])
  {
    hide After, OnlyBookings;
    assert rows[b := Staged(QuoteCreated, 2)][b := Staged(AwaitingConfirmation, 3)] == rows[b := Staged(AwaitingConfirmation, 3)];
    assert rows[b := Staged(AwaitingConfirmation, 3)][b := Staged(Confirmed, 4)] == rows[b := Staged(Confirmed, 4)];
    assert rows[b := Staged(Confirmed, 4)][b := READY] == rows[b := READY];
    BookingStep(n, rows, b, Draft, QuoteCreated, 1);
    BookingStep(n + 1, rows[b := Staged(QuoteCreated, 2)], b, QuoteCreated, AwaitingConfirmation, 2);
    BookingStep(n + 2, rows[b := Staged(AwaitingConfirmation, 3)], b, AwaitingConfirmation, Confirmed, 3);
    BookingStep(n + 3, rows[b := Staged(Confirmed, 4)], b, Confirmed, ReadyForDispatch, 4);
  }

  lemma Booked()
    ensures OnlyBookings(After(10), map[0 := READY, 1 := READY])
  {
    hide After, OnlyBookings;
    Created();
    MadeReady(2, map[0 := Staged(Draft, 1), 1 := Staged(Draft, 1)], 0);
    var rows := map[0 := READY, 1 := Staged(Draft, 1)];
    assert map[0 := Staged(Draft, 1), 1 := Staged(Draft, 1)][0 := READY] == rows;
    MadeReady(6, rows, 1);
    assert rows[1 := READY] == map[0 := READY, 1 := READY];
  }

  // ---------------------------------------------------------------- going online

  lemma Rested()
    ensures FatiguePassed(WORLD.drivers[DRIVER].fatigue, WORLD) == Success(true)
  {
  }

  lemma StandardOnly()
    ensures RequiredServices([]) == ["STANDARD"]
  {
  }

  /** The driver's facts with a given availability. */
  function Facts(a: Availability): EligibilityInput {
    EligibilityInput(true, true, Some(Eligible), Some(NOW + 1), true, Some(Eligible), Some(NOW + 1), true, false,
                     a.status, a.observedAt, a.confidence, 500, 60, false, false, true, true)
  }

  lemma PreShiftFacts(s: Store)
    requires OnlyBookings(s, map[0 := READY, 1 := READY])
    ensures DriverInput(s, WORLD, DRIVER, true, Some(VEHICLE), Some("A"), [], [], None, None)
         == Success(Facts(Availability(Offline, 0, None, None, None, None)))
  {
    hide FatiguePassed, Contains;
    Rested();
    var p := Permission(DRIVER, "A", "STANDARD");
    assert p in WORLD.permissions;
  }

  lemma NothingBlocks(i: EligibilityInput)
    requires i == Facts(Availability(Offline, 0, None, None, None, None))
    ensures PreShiftBlockers(i, Offline, Position(NOW, 900), WORLD) == []
  {
    hide Blockers;
    var kept := FilterSeq(b => b !in {NotAvailable, LocationMissing, LocationStale, LocationConfidenceLow}
                               && !(Offline == Offline && b == FatigueSafetyBlocked), Blockers(i, NOW));
    EmptyIffNoMember(kept);
  }

  lemma ShiftOpens()
    ensures RecordShift([], Offline, Available, 1, Some("A"), Some(VEHICLE)) == Some(WORKING)
  {
    assert [] + WORKING == WORKING;
  }

  /** Only keys of availability changes have been recorded. */
  predicate OnlyAvailabilityKeys(s: Store) {
    forall k :: k in s.dedup ==> k.command == AvailabilityCmd
  }

  /** The store once the driver is online. */
  predicate DriverOnline(s: Store) {
    && s == EMPTY.(nextId := 2, bookings := map[0 := READY, 1 := READY], bookingLog := s.bookingLog, availability := map[DRIVER := ONLINE],
                   moves := s.moves, shifts := map[DRIVER := WORKING], dedup := s.dedup)
    && OnlyAvailabilityKeys(s)
  }

  lemma GoesOnline(s: Store)
    requires OnlyBookings(s, map[0 := READY, 1 := READY])
    ensures DriverOnline(SetDriverAvailability(s, DRIVER, true, REQUEST, "k1", WORLD).store)
  {
    hide DriverInput, PreShiftBlockers, RecordShift;
    PreShiftFacts(s);
    NothingBlocks(Facts(Availability(Offline, 0, None, None, None, None)));
    ShiftOpens();
  }

  lemma Onlined()
    ensures DriverOnline(After(11))
  {
    hide After, OnlyBookings, DriverOnline, Apply, SetDriverAvailability;
    Booked();
    NextStep(10);
    ApplyDispatches(After(10), STEPS[10]);
    GoesOnline(After(10));
  }

  // ---------------------------------------------------------------- the offers

  /** The driver is free and online, and booking `b` waits for dispatch. */
  predicate Searchable(s: Store, b: BookingId) {
    s.availability == map[DRIVER := ONLINE] && s.assignments == map[] && b in s.bookings && s.bookings[b] == READY
  }

  lemma CandidateFacts(s: Store, b: BookingId, status: Status, version: nat)
    requires s.availability == map[DRIVER := ONLINE] && s.assignments == map[]
    ensures CandidateInput(s, WORLD, DRIVER, b, Staged(status, version)) == Success(Facts(ONLINE))
  {
    hide FatiguePassed, RequiredServices;
    Rested();
    StandardOnly();
    assert Permission(DRIVER, "A", "STANDARD") in WORLD.permissions;
  }

  lemma Offerable(s: Store, b: BookingId)
    requires Searchable(s, b)
    ensures RowEligible(s, WORLD, b, READY, CandidateRow(DRIVER, Some(100))) && !RowFaulty(s, WORLD, b, READY, CandidateRow(DRIVER, Some(100)))
  {
    hide CandidateInput;
    CandidateFacts(s, b, ReadyForDispatch, 5);
    EligibleMeans(Facts(ONLINE), NOW);
  }

  lemma Searched(s: Store, b: BookingId)
    requires Searchable(s, b)
    ensures FirstFault(s, WORLD, b, ROWS) == None && EligibleRows(s, WORLD, b, ROWS) == ROWS
  {
    hide RowEligible, RowFaulty, CandidateInput;
    Offerable(s, b);
    assert ROWS[1..] == [];
    assert FirstFault(s, WORLD, b, ROWS[1..]) == None;
    assert ROWS[0] in EligibleRows(s, WORLD, b, ROWS);
    assert |EligibleRows(s, WORLD, b, ROWS)| <= 1;
  }

  /** Offer `o` of attempt `t` is open and invites the driver to booking `b`, with everything disclosed. */
  predicate OfferedTo(s: Store, o: OfferId, t: AttemptId, b: BookingId) {
    && o in s.offers && s.offers[o].attempt == t && s.offers[o].booking == b && s.offers[o].driver == DRIVER
    && s.offers[o].vehicle == Some(VEHICLE) && s.offers[o].status == OfferOpen && s.offers[o].expiresAt == NOW + 30_000
    && AcceptanceAllowed(s.offers[o].disclosure)
    && b in s.bookings && s.bookings[b] == Staged(SearchingForDriver, 6)
  }

  lemma WaveMade(s: Store, b: BookingId)
    requires IdsIssued(s) && Searchable(s, b)
    ensures OfferedTo(WithWave(s, WORLD, b, ROWS), s.nextId + 1, s.nextId, b)
  {
    hide WaveDisclosure, WithWave, AcceptanceAllowed;
    WaveOfferAt(s, WORLD, b, ROWS, 0);
    WaveDisclosureComplete(WORLD, READY, Some(100));
  }

  lemma WaveFrame(s: Store, b: BookingId, c: BookingId, o: OfferId)
    requires Searchable(s, b)
    ensures var r := WithWave(s, WORLD, b, ROWS);
            && r.nextId == s.nextId + 2 && r.availability == s.availability && r.shifts == s.shifts
            && r.assignments == s.assignments && r.journeys == s.journeys && r.safetyDedup == s.safetyDedup
            && (c != b && c in s.bookings ==> c in r.bookings && r.bookings[c] == s.bookings[c])
            && (o in s.offers && o <= s.nextId ==> o in r.offers && r.offers[o] == s.offers[o])
  {
    hide WaveDisclosure, WaveCandidate;
  }

  lemma StartMakesWave(s: Store, b: BookingId, key: Key)
    requires Searchable(s, b) && DedupKey(StartCmd, ACCOUNT, key) !in s.dedup
    ensures StartBookingDispatch(s, ACCOUNT, BOOKER, b, key, ROWS, WORLD).store
              == WithWave(s, WORLD, b, ROWS).(dedup := s.dedup[DedupKey(StartCmd, ACCOUNT, key) := Started(b, s.nextId, true, 1, 1)])
  {
    hide WithWave, FirstFault, EligibleRows, WithoutDriver;
    Searched(s, b);
  }

  lemma Legal(n: nat)
    requires n <= |STEPS|
    ensures Inv(After(n))
  {
    hide Run, Inv;
    ReachableHolds(STEPS[..n]);
  }

  /** The driver is free and online, and nothing has been assigned yet. */
  predicate Free(s: Store, nextId: nat) {
    && s.availability == map[DRIVER := ONLINE] && s.shifts == map[DRIVER := WORKING] && s.assignments == map[] && s.journeys == map[]
    && s.nextId == nextId && s.safetyDedup == map[]
  }

  /** The store once the first booking has been offered. */
  predicate OneOffer(s: Store) {
    && Free(s, 4) && OfferedTo(s, 3, 2, 0) && 1 in s.bookings && s.bookings[1] == READY
    && (forall k :: k in s.dedup ==> k.command == AvailabilityCmd || k == DedupKey(StartCmd, ACCOUNT, "k2"))
    && DedupKey(StartCmd, ACCOUNT, "k2") in s.dedup && s.dedup[DedupKey(StartCmd, ACCOUNT, "k2")] == Started(0, 2, true, 1, 1)
  }

  lemma FirstWave(s: Store)
    requires DriverOnline(s) && IdsIssued(s)
    ensures OneOffer(StartBookingDispatch(s, ACCOUNT, BOOKER, 0, "k2", ROWS, WORLD).store)
  {
    hide WithWave, StartBookingDispatch, IdsIssued, AcceptanceAllowed;
    StartMakesWave(s, 0, "k2");
    WaveMade(s, 0);
    WaveFrame(s, 0, 1, 0);
  }

  lemma FirstOffered()
    ensures OneOffer(After(12))
  {
    hide After, OneOffer, DriverOnline, Apply, StartBookingDispatch, BookingSide, OfferSide, DriverSide, IdsIssued;
    Onlined();
    Legal(11);
    NextStep(11);
    ApplyDispatches(After(11), STEPS[11]);
    FirstWave(After(11));
  }

  /** The store once both bookings have been offered to the driver. */
  predicate TwoOffers(s: Store) {
    && Free(s, 6) && OfferedTo(s, 3, 2, 0) && OfferedTo(s, 5, 4, 1)
    && (forall k :: k in s.dedup ==> k.command in {AvailabilityCmd, StartCmd})
  }

  lemma SecondWave(s: Store)
    requires OneOffer(s) && IdsIssued(s)
    ensures TwoOffers(StartBookingDispatch(s, ACCOUNT, BOOKER, 1, "k3", ROWS, WORLD).store)
  {
    hide WithWave, StartBookingDispatch, IdsIssued, AcceptanceAllowed;
    StartMakesWave(s, 1, "k3");
    WaveMade(s, 1);
    WaveFrame(s, 1, 0, 3);
  }

  lemma BothOffered()
    ensures TwoOffers(Run(EMPTY, STEPS)) && Inv(Run(EMPTY, STEPS))
  {
    hide OneOffer, TwoOffers, Apply, StartBookingDispatch, BookingSide, OfferSide, DriverSide, IdsIssued, Run;
    assert STEPS[..13] == STEPS;
    FirstOffered();
    Legal(12);
    NextStep(12);
    ApplyDispatches(After(12), STEPS[12]);
    SecondWave(After(12));
    Legal(13);
  }

  // ---------------------------------------------------------------- resting drivers with open offers

  const CONCERN: Command := Concern(DRIVER, VEHICLE)

  /** A vehicle concern leaves the driver OFFLINE with a running shift and open offers. */
  lemma ConcernStrandsDriver()
    ensures TakesOffline(Run(EMPTY, STEPS), CONCERN) && Strands(Run(EMPTY, STEPS), CONCERN)
    ensures StatusOfDriver(Run(EMPTY, STEPS + [CONCERN]).availability, DRIVER) == Offline
    ensures HasActiveShift(Rows(Run(EMPTY, STEPS + [CONCERN]).shifts, DRIVER))
    ensures OpenOffersOf(Run(EMPTY, STEPS + [CONCERN]).offers, DRIVER) != {}
  {
    hide Apply, Run, Inv, AcceptanceAllowed;
    BothOffered();
    RunMore(EMPTY, STEPS, CONCERN);
    ApplyDispatches(Run(EMPTY, STEPS), CONCERN);
    assert 3 in OpenOffersOf(Run(EMPTY, STEPS).offers, DRIVER);
  }

  const TIRED: Command := FatigueReport(DRIVER, false)

  /** A fatigue report leaves the driver on BREAK with open offers. */
  lemma FatigueReportStrandsDriver()
    ensures Strands(Run(EMPTY, STEPS), TIRED)
    ensures StatusOfDriver(Run(EMPTY, STEPS + [TIRED]).availability, DRIVER) == OnBreak
    ensures OpenOffersOf(Run(EMPTY, STEPS + [TIRED]).offers, DRIVER) != {}
  {
    hide Apply, Run, Inv, AcceptanceAllowed;
    BothOffered();
    RunMore(EMPTY, STEPS, TIRED);
    ApplyDispatches(Run(EMPTY, STEPS), TIRED);
    assert WORKING[0].active;
    assert 3 in OpenOffersOf(Run(EMPTY, STEPS).offers, DRIVER);
  }

  const TAKE: Command := Accept(DRIVER, true, 3, "k4", WORLD)
  const SET_OUT: Command := Acknowledge(DRIVER, 6)
  const STOP: Command := Terminate(ACCOUNT, DRIVER, 7, "unsafe", "k5")

  lemma Acceptable(s: Store)
    requires TwoOffers(s) && Inv(s)
    ensures AcceptDriverOffer(s, DRIVER, true, 3, "k4", WORLD).outcome.Accepted?
  {
    hide Inv, AcceptDriverOffer, AcceptanceAllowed, CandidateInput, RecheckInput, IsEligible;
    AcceptanceExact(s, DRIVER, true, 3, "k4", WORLD);
    OfferTimeIsAcceptTime(s, WORLD, DRIVER, 0, s.bookings[0], s.offers[3]);
    CandidateFacts(s, 0, SearchingForDriver, 6);
    EligibleMeans(Facts(ONLINE), NOW);
  }

  /** The driver rides booking 0 and still holds the offer of booking 1. */
  predicate Riding(s: Store) {
    && 6 in s.assignments && s.assignments[6] == Assignment(2, 3, 0, DRIVER, Some(VEHICLE), Active)
    && 0 in s.bookings && s.bookings[0].status == DriverAssigned && s.journeys == map[] && s.nextId == 7 && s.safetyDedup == map[]
    && 5 in s.offers && s.offers[5].driver == DRIVER && s.offers[5].status == OfferOpen
  }

  lemma CommitRides(s: Store)
    requires TwoOffers(s) && AcceptCommit(s, DRIVER, 3).Some?
    ensures Riding(AcceptCommit(s, DRIVER, 3).value)
  {
    hide ShiftsOnAccept, WonOffers, WonOutcomes, AcceptanceAllowed;
    WonOfferAt(s.offers, 3, 5);
  }

  lemma Rides(s: Store)
    requires TwoOffers(s) && Inv(s)
    ensures Riding(Apply(s, TAKE).store)
  {
    hide Inv, Apply, AcceptDriverOffer, AcceptCommit, Riding, AcceptanceAllowed;
    ApplyDispatches(s, TAKE);
    Acceptable(s);
    AcceptedMeansCarriedOutIff(s, TAKE);
    AcceptedCommits(s, DRIVER, true, 3, "k4", WORLD);
    CommitRides(s);
    RidingFramed(AcceptCommit(s, DRIVER, 3).value, Apply(s, TAKE).store);
  }

  lemma RidingFramed(s: Store, r: Store)
    requires Riding(s) && r == s.(dedup := r.dedup)
    ensures Riding(r)
  {
  }

  lemma SetsOut(s: Store)
    requires Riding(s)
    ensures var r := Apply(s, SET_OUT).store;
            7 in r.journeys && r.journeys[7].assignment == 6 && r.journeys[7].status == EnRoute && r.assignments == s.assignments && r.offers == s.offers && r.safetyDedup == s.safetyDedup
  {
    hide Apply, AppendRow;
    ApplyDispatches(s, SET_OUT);
    assert JourneysOf(s, 0) == {};
  }

  const RIDE: seq<Command> := STEPS + [TAKE] + [SET_OUT]

  lemma OnTheWay()
    ensures var s := Run(EMPTY, RIDE);
            Inv(s) && Holds(s, DRIVER, 7) && s.journeys[7].status == EnRoute && s.safetyDedup == map[] && 5 in OpenOffersOf(s.offers, DRIVER)
  {
    hide Apply, Run, Inv, TwoOffers;
    BothOffered();
    RunMore(EMPTY, STEPS, TAKE);
    RunMore(EMPTY, STEPS + [TAKE], SET_OUT);
    Rides(Run(EMPTY, STEPS));
    SetsOut(Run(EMPTY, STEPS + [TAKE]));
    ReachableHolds(RIDE);
  }

  /** An unsafe termination leaves the driver on BREAK with the open offer of another booking. */
  lemma TerminationStrandsDriver()
    ensures Strands(Run(EMPTY, RIDE), STOP)
    ensures StatusOfDriver(Run(EMPTY, RIDE + [STOP]).availability, DRIVER) == OnBreak
    ensures OpenOffersOf(Run(EMPTY, RIDE + [STOP]).offers, DRIVER) != {}
  {
    hide Apply, Run, Inv, Holds;
    OnTheWay();
    RunMore(EMPTY, RIDE, STOP);
    TerminateTables(Run(EMPTY, RIDE), STOP);
  }

  // ---------------------------------------------------------------- a key used for something else

  /** A dispatch of the second booking under the first one's key is answered with the first one's reply, and nothing happens. */
  lemma SharedKeyLeavesBooking()
    ensures var s := Run(EMPTY, STEPS[..12]);
            var again := Start(ACCOUNT, BOOKER, 1, "k2", ROWS, WORLD);
            && Apply(s, again) == Step(s, Accepted(Started(0, 2, true, 1, 1)))
            && 1 in s.bookings && s.bookings[1].status == ReadyForDispatch
  {
    hide Apply, Run, WithWave, WithoutDriver, EligibleRows, FirstFault, OfferedTo, Free;
    FirstOffered();
    ApplyDispatches(Run(EMPTY, STEPS[..12]), Start(ACCOUNT, BOOKER, 1, "k2", ROWS, WORLD));
  }

  const REFUSE: Command := Decline(DRIVER, 3, NotSuitable, "k4", NOW)

  /** A second offer declined under the key of the first stays open, though the driver is told that an offer was declined. */
  lemma SharedKeyKeepsOffer()
    ensures var s := Run(EMPTY, STEPS + [REFUSE]);
            && Apply(s, Decline(DRIVER, 5, NotSuitable, "k4", NOW)) == Step(s, Accepted(OfferDeclinedReply(3)))
            && 5 in s.offers && s.offers[5].status == OfferOpen
  {
    hide Apply, Run, Inv, AcceptanceAllowed, AppendRow;
    BothOffered();
    RunMore(EMPTY, STEPS, REFUSE);
    ApplyDispatches(Run(EMPTY, STEPS), REFUSE);
    ApplyDispatches(Run(EMPTY, STEPS + [REFUSE]), Decline(DRIVER, 5, NotSuitable, "k4", NOW));
  }
}
