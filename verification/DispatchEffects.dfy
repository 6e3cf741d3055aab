/** What each command leaves in the tables, row by row, when it succeeds; and, for the commands not judged elsewhere, when it does. */
module DispatchEffects {
  import opened Prelude
  import opened BookingStatus
  import opened DriverDomain
  import opened DispatchStore
  import opened DispatchProtocol
  import opened DispatchInvariants
  import opened DispatchDrivers
  import opened DispatchAcceptance
  import opened DispatchTheorems
  import opened DispatchRest
  import opened DispatchAvailabilityLog

  // ---------------------------------------------------------------- pieces

  /** Booking `b` moved to `to`, with the next version and one log row; every other booking and log is untouched. */
  ghost predicate BookingMoved(s: Store, r: Store, b: BookingId, to: Status) {
    && b in s.bookings
    && r.bookings == s.bookings[b := s.bookings[b].(status := to, version := s.bookings[b].version + 1)]
    && Rows(r.bookingLog, b) == Rows(s.bookingLog, b) + [Transition(Some(s.bookings[b].status), to, s.bookings[b].version + 1)]
    && forall c :: c != b ==> Rows(r.bookingLog, c) == Rows(s.bookingLog, c)
  }

  lemma MoveBookingMoves(s: Store, b: BookingId, to: Status)
    requires b in s.bookings
    ensures BookingMoved(s, MoveBooking(s, b, to), b, to)
  {
  }

  /** Driver `d` went from the stored status to `to`, keeping place and position, with the next version and one logged move. */
  ghost predicate DriverMoved(s: Store, r: Store, d: DriverId, to: AvailabilityStatus) {
    && d in s.availability
    && r.availability == s.availability[d := s.availability[d].(status := to, version := s.availability[d].version + 1)]
    && Rows(r.moves, d) == Rows(s.moves, d) + [AvailabilityMove(s.availability[d].status, to, s.availability[d].version + 1)]
    && forall e :: e != d ==> Rows(r.moves, e) == Rows(s.moves, e)
  }

  /** The driver's ACTIVE shift got the event; everything else about shifts is untouched. */
  ghost predicate ShiftNoted(s: Store, r: Store, d: DriverId, event: ShiftEvent) {
    && |Rows(r.shifts, d)| == |Rows(s.shifts, d)|
    && (forall i :: 0 <= i < |Rows(s.shifts, d)| ==>
          Rows(r.shifts, d)[i] == if IsCurrent(Rows(s.shifts, d), i)
                                  then Rows(s.shifts, d)[i].(events := Rows(s.shifts, d)[i].events + [event]) else Rows(s.shifts, d)[i])
    && forall e :: e != d ==> Rows(r.shifts, e) == Rows(s.shifts, e)
  }

  /** Shift `i` is the first ACTIVE one, which in a reachable store is the only one. */
  predicate IsCurrent(shifts: seq<Shift>, i: int) {
    0 <= i < |shifts| && shifts[i].active && forall k :: 0 <= k < i ==> !shifts[k].active
  }

  lemma {:induction false} CurrentIsFirst(shifts: seq<Shift>, i: nat)
    requires i <= |shifts| && forall k :: 0 <= k < i ==> !shifts[k].active
    ensures forall k :: 0 <= k < |shifts| ==> (ActiveShiftFrom(shifts, i) == Some(k) <==> IsCurrent(shifts, k))
    decreases |shifts| - i
  {
    if i < |shifts| && !shifts[i].active { CurrentIsFirst(shifts, i + 1); }
  }

  lemma NotedIs(s: Store, r: Store, d: DriverId, kind: ShiftEventKind, from: AvailabilityStatus, to: AvailabilityStatus, version: nat)
    requires r.shifts == NoteShiftEvent(s.shifts, d, kind, from, to, version)
    ensures ShiftNoted(s, r, d, ShiftEvent(kind, from, to, version))
  {
    CurrentIsFirst(Rows(s.shifts, d), 0);
  }

  // ---------------------------------------------------------------- starting dispatch

  /** A search: one new OFFERING attempt, the booking SEARCHING_FOR_DRIVER, and in the other tables only candidates and offers. */
  lemma WaveLeaves(s: Store, w: World, b: BookingId, eligible: seq<CandidateRow>)
    requires b in s.bookings
    ensures var r := WithWave(s, w, b, eligible);
            && BookingMoved(s, r, b, SearchingForDriver) && r.attempts == s.attempts[s.nextId := Attempt(b, Offering)]
            && r.candidates.Keys == s.candidates.Keys + {s.nextId} && |r.candidates[s.nextId]| == |eligible|
            && (forall t :: t in s.candidates && t != s.nextId ==> r.candidates[t] == s.candidates[t])
            && (forall i :: 0 <= i < |eligible| ==>
                  r.candidates[s.nextId][i] == Candidate(eligible[i].driver, AvailabilityIn(s.availability, eligible[i].driver).vehicle,
                                                         AvailabilityIn(s.availability, eligible[i].driver).version, eligible[i].distance, i + 1))
            && r == s.(nextId := r.nextId, bookings := r.bookings, bookingLog := r.bookingLog, attempts := r.attempts, candidates := r.candidates,
                       offers := r.offers)
            && r.nextId == s.nextId + 1 + (if w.config.waveSize <= 0 then 0 else if w.config.waveSize < |eligible| then w.config.waveSize else |eligible|)
  {
    hide WaveOffers, InsertRows, BookingMoved, MoveBooking;
    MoveBookingMoves(s, b, SearchingForDriver);
    WaveBooking(s, w, b, eligible);
    BookingMovedFramed(s, MoveBooking(s, b, SearchingForDriver), WithWave(s, w, b, eligible), b, SearchingForDriver);
  }

  lemma WaveBooking(s: Store, w: World, b: BookingId, eligible: seq<CandidateRow>)
    requires b in s.bookings
    ensures WithWave(s, w, b, eligible).bookings == MoveBooking(s, b, SearchingForDriver).bookings
    ensures WithWave(s, w, b, eligible).bookingLog == MoveBooking(s, b, SearchingForDriver).bookingLog
    ensures var r := WithWave(s, w, b, eligible);
            r == s.(nextId := r.nextId, bookings := r.bookings, bookingLog := r.bookingLog, attempts := r.attempts, candidates := r.candidates,
                    offers := r.offers)
  {
    hide WaveOffers, InsertRows, WaveCandidate, AppendRow;
  }

  /** No search: one new attempt that is NO_ELIGIBLE_DRIVER, and the booking there too, by way of SEARCHING_FOR_DRIVER. */
  lemma NoSearchLeaves(s: Store, b: BookingId)
    requires b in s.bookings
    ensures var r := WithoutDriver(s, b);
            && r == s.(nextId := s.nextId + 1, bookings := r.bookings, bookingLog := r.bookingLog,
                       attempts := s.attempts[s.nextId := Attempt(b, NoneEligible)])
            && r.bookings == s.bookings[b := s.bookings[b].(status := NoEligibleDriver, version := s.bookings[b].version + 2)]
            && Rows(r.bookingLog, b) == Rows(s.bookingLog, b) + [Transition(Some(s.bookings[b].status), SearchingForDriver, s.bookings[b].version + 1)]
                                        + [Transition(Some(SearchingForDriver), NoEligibleDriver, s.bookings[b].version + 2)]
            && forall c :: c != b ==> Rows(r.bookingLog, c) == Rows(s.bookingLog, c)
  {
  }

  /** A dispatch accepted under a new key leaves one or the other, and the reply under its key. */
  lemma StartLeaves(s: Store, account: AccountId, person: PersonId, b: BookingId, key: Key, rows: seq<CandidateRow>, w: World)
    requires DedupKey(StartCmd, account, key) !in s.dedup && StartBookingDispatch(s, account, person, b, key, rows, w).outcome.Accepted?
    ensures b in s.bookings
    ensures var step := StartBookingDispatch(s, account, person, b, key, rows, w);
            var eligible := EligibleRows(s, w, b, rows);
            && step.store == (if eligible == [] then WithoutDriver(s, b) else WithWave(s, w, b, eligible)).(dedup := step.store.dedup)
            && step.store.dedup == s.dedup[DedupKey(StartCmd, account, key) := step.outcome.reply]
  {
    hide EligibleRows, FirstFault, WithWave, WithoutDriver;
    if b in s.bookings { WaveBooking(s, w, b, EligibleRows(s, w, b, rows)); NoSearchLeaves(s, b); }
  }

  // ---------------------------------------------------------------- accepting

  /** The event and kind an availability change writes on a shift. */
  function KindOf(to: AvailabilityStatus): ShiftEventKind {
    match to
    case Offline => ShiftEnded
    case Assigned => OfferTaken
    case _ => WorkIntentChanged
  }

  /** A change of availability on the driver's shifts: the current shift gets the event and ends with OFFLINE; without one, a driver who goes to
      work starts one at the place given. */
  ghost predicate ShiftChanged(shifts: seq<Shift>, after: seq<Shift>, from: AvailabilityStatus, to: AvailabilityStatus, version: nat,
                               region: Option<Region>, vehicle: Option<VehicleId>) {
    if exists i :: IsCurrent(shifts, i) then
      && |after| == |shifts|
      && forall i :: 0 <= i < |shifts| ==>
           after[i] == if IsCurrent(shifts, i)
                       then shifts[i].(active := to != Offline, events := shifts[i].events + [ShiftEvent(KindOf(to), from, to, version)])
                       else shifts[i]
    else if to == Offline then after == shifts
    else
      && region.Some? && vehicle.Some?
      && after == shifts + [Shift(true, region.value, vehicle.value, version, [ShiftEvent(ShiftStarted, from, to, version)])]
  }

  lemma RecordShiftMeans(shifts: seq<Shift>, from: AvailabilityStatus, to: AvailabilityStatus, version: nat,
                         region: Option<Region>, vehicle: Option<VehicleId>)
    ensures var r := RecordShift(shifts, from, to, version, region, vehicle);
            && (r.Some? ==> ShiftChanged(shifts, r.value, from, to, version, region, vehicle))
            && (r.None? <==> to != Offline && (forall i :: !IsCurrent(shifts, i)) && (region.None? || vehicle.None?))
  {
    CurrentIsFirst(shifts, 0);
    var active := ActiveShift(shifts);
    if active.Some? { assert IsCurrent(shifts, active.value); }
    else { forall i ensures !IsCurrent(shifts, i) {} }
  }

  /** The offers of a store in which `o` wins: itself accepted, the open offers of its attempt withdrawn because the booking is assigned. */
  ghost predicate Won(offers: map<OfferId, Offer>, after: map<OfferId, Offer>, o: OfferId)
    requires o in offers
  {
    && after.Keys == offers.Keys
    && forall p :: p in offers ==>
         after[p] == if p == o then offers[p].(status := OfferAccepted)
                     else if offers[p].attempt == offers[o].attempt && offers[p].status == OfferOpen
                     then offers[p].(status := OfferWithdrawn, reason := Some(BookingAssigned)) else offers[p]
  }

  lemma WonMeans(offers: map<OfferId, Offer>, o: OfferId)
    requires o in offers
    ensures Won(offers, WonOffers(offers, o), o)
  {
    hide WonOffers;
    WonOfferAt(offers, o, o);
    forall p | p in offers
      ensures WonOffers(offers, o)[p] == if p == o then offers[p].(status := OfferAccepted)
                                         else if offers[p].attempt == offers[o].attempt && offers[p].status == OfferOpen
                                         then offers[p].(status := OfferWithdrawn, reason := Some(BookingAssigned)) else offers[p]
    { WonOfferAt(offers, o, p); }
  }

  lemma CommitRows(s: Store, d: DriverId, o: OfferId)
    requires o in s.offers && s.offers[o].booking in s.bookings && AcceptCommit(s, d, o).Some?
    ensures var r := AcceptCommit(s, d, o).value;
            var offer := s.offers[o];
            && r.nextId == s.nextId + 1
            && r.assignments == s.assignments[s.nextId := Assignment(offer.attempt, o, offer.booking, d, offer.vehicle, Active)]
            && r.offers == WonOffers(s.offers, o) && r.candidates == s.candidates && r.journeys == s.journeys
            && (offer.attempt in s.attempts ==> r.attempts == s.attempts[offer.attempt := Attempt(s.attempts[offer.attempt].booking, AttemptAssigned)])
  {
    hide ShiftsOnAccept, WonOffers, WonOutcomes, AppendRow;
  }

  lemma CommitBooking(s: Store, d: DriverId, o: OfferId)
    requires o in s.offers && s.offers[o].booking in s.bookings && AcceptCommit(s, d, o).Some?
    ensures BookingMoved(s, AcceptCommit(s, d, o).value, s.offers[o].booking, DriverAssigned)
  {
    hide ShiftsOnAccept, WonOffers, WonOutcomes, BookingMoved, MoveBooking;
    CommitBookingTables(s, d, o);
    MoveBookingMoves(s, s.offers[o].booking, DriverAssigned);
    BookingMovedFramed(s, MoveBooking(s, s.offers[o].booking, DriverAssigned), AcceptCommit(s, d, o).value, s.offers[o].booking, DriverAssigned);
  }

  lemma CommitBookingTables(s: Store, d: DriverId, o: OfferId)
    requires o in s.offers && s.offers[o].booking in s.bookings && AcceptCommit(s, d, o).Some?
    ensures AcceptCommit(s, d, o).value.bookings == MoveBooking(s, s.offers[o].booking, DriverAssigned).bookings
    ensures AcceptCommit(s, d, o).value.bookingLog == MoveBooking(s, s.offers[o].booking, DriverAssigned).bookingLog
  {
    hide ShiftsOnAccept, WonOffers, WonOutcomes, AppendRow;
  }

  lemma BookingMovedFramed(s: Store, r: Store, t: Store, b: BookingId, to: Status)
    requires BookingMoved(s, r, b, to) && t.bookings == r.bookings && t.bookingLog == r.bookingLog
    ensures BookingMoved(s, t, b, to)
  {
  }

  lemma CommitDriver(s: Store, d: DriverId, o: OfferId)
    requires o in s.offers && s.offers[o].booking in s.bookings && AcceptCommit(s, d, o).Some?
    ensures DriverMoved(s, AcceptCommit(s, d, o).value, d, Assigned)
  {
    hide AcceptCommit;
    AcceptCommitDriver(s, d, o);
  }

  lemma CommitShift(s: Store, d: DriverId, o: OfferId)
    requires o in s.offers && s.offers[o].booking in s.bookings && AcceptCommit(s, d, o).Some?
    ensures d in s.availability
    ensures ShiftChanged(Rows(s.shifts, d), Rows(AcceptCommit(s, d, o).value.shifts, d), s.availability[d].status, Assigned,
                         s.availability[d].version + 1, Some(s.bookings[s.offers[o].booking].region), s.offers[o].vehicle)
    ensures forall e :: e != d ==> Rows(AcceptCommit(s, d, o).value.shifts, e) == Rows(s.shifts, e)
  {
    hide AcceptCommit, RecordShift, ShiftChanged;
    AcceptCommitDriver(s, d, o);
    var shifts := Rows(s.shifts, d);
    var current := ActiveShift(shifts);
    var region := if current.Some? then shifts[current.value].region else s.bookings[s.offers[o].booking].region;
    var vehicle := if current.Some? then Some(shifts[current.value].vehicle) else s.offers[o].vehicle;
    RecordShiftMeans(shifts, s.availability[d].status, Assigned, s.availability[d].version + 1, Some(region), vehicle);
    PlaceUnused(shifts, AcceptCommit(s, d, o).value.shifts[d], s.availability[d].status, s.availability[d].version + 1, region, vehicle,
                s.bookings[s.offers[o].booking].region, s.offers[o].vehicle);
  }

  /** A place only matters to a driver without a current shift. */
  lemma PlaceUnused(shifts: seq<Shift>, after: seq<Shift>, from: AvailabilityStatus, version: nat, region: Region, vehicle: Option<VehicleId>,
                    otherRegion: Region, otherVehicle: Option<VehicleId>)
    requires ShiftChanged(shifts, after, from, Assigned, version, Some(region), vehicle)
    requires ActiveShift(shifts).None? ==> region == otherRegion && vehicle == otherVehicle
    ensures ShiftChanged(shifts, after, from, Assigned, version, Some(otherRegion), otherVehicle)
  {
    CurrentIsFirst(shifts, 0);
    if ActiveShift(shifts).Some? { assert IsCurrent(shifts, ActiveShift(shifts).value); }
  }

  /** An accepted offer: one new ACTIVE assignment, the offer accepted and its open rivals withdrawn, the attempt and the booking assigned,
      the driver ASSIGNED with a shift event; nothing else. */
  lemma AcceptanceLeaves(s: Store, d: DriverId, actorActive: bool, o: OfferId, key: Key, w: World)
    requires DedupKey(AcceptCmd, d, key) !in s.dedup && AcceptDriverOffer(s, d, actorActive, o, key, w).outcome.Accepted?
    requires AcceptDriverOffer(s, d, actorActive, o, key, w).store != s
    ensures o in s.offers && s.offers[o].booking in s.bookings && s.offers[o].attempt in s.attempts && d in s.availability
    ensures var r := AcceptDriverOffer(s, d, actorActive, o, key, w).store;
            var offer := s.offers[o];
            && r.nextId == s.nextId + 1
            && r.assignments == s.assignments[s.nextId := Assignment(offer.attempt, o, offer.booking, d, offer.vehicle, Active)]
            && Won(s.offers, r.offers, o)
            && r.attempts == s.attempts[offer.attempt := Attempt(s.attempts[offer.attempt].booking, AttemptAssigned)]
            && BookingMoved(s, r, offer.booking, DriverAssigned) && DriverMoved(s, r, d, Assigned)
            && ShiftChanged(Rows(s.shifts, d), Rows(r.shifts, d), s.availability[d].status, Assigned, s.availability[d].version + 1,
                            Some(s.bookings[offer.booking].region), offer.vehicle)
            && r.candidates == s.candidates && r.journeys == s.journeys
    ensures AcceptDriverOffer(s, d, actorActive, o, key, w).outcome == Accepted(OfferAcceptedReply(o, s.nextId, s.offers[o].booking, d))
  {
    hide AcceptDriverOffer, AcceptCommit, Won, BookingMoved, DriverMoved, ShiftChanged, WonOffers;
    AcceptedCommits(s, d, actorActive, o, key, w);
    AcceptedAnswer(s, d, actorActive, o, key, w);
    CommitRows(s, d, o);
    CommitBooking(s, d, o);
    CommitDriver(s, d, o);
    CommitShift(s, d, o);
    WonMeans(s.offers, o);
    var c, r := AcceptCommit(s, d, o).value, AcceptDriverOffer(s, d, actorActive, o, key, w).store;
    BookingMovedFramed(s, c, r, s.offers[o].booking, DriverAssigned);
    DriverMovedFramed(s, c, r, d, Assigned);
  }

  lemma AcceptedAnswer(s: Store, d: DriverId, actorActive: bool, o: OfferId, key: Key, w: World)
    requires DedupKey(AcceptCmd, d, key) !in s.dedup && AcceptDriverOffer(s, d, actorActive, o, key, w).outcome.Accepted?
    ensures o in s.offers && s.offers[o].attempt in s.attempts
    ensures AcceptDriverOffer(s, d, actorActive, o, key, w).outcome == Accepted(OfferAcceptedReply(o, s.nextId, s.offers[o].booking, d))
  {
    hide AcceptCommit, RecheckInput, IsEligible, Blockers, AcceptanceAllowed, AttributeNew, CloseOne, Attribution;
  }

  lemma DriverMovedFramed(s: Store, r: Store, t: Store, d: DriverId, to: AvailabilityStatus)
    requires DriverMoved(s, r, d, to) && t.availability == r.availability && t.moves == r.moves
    ensures DriverMoved(s, t, d, to)
  {
  }

  // ---------------------------------------------------------------- declining, and the expiry sweep

  /** A decline under a new key succeeds exactly for an open, unexpired offer of the driver's own. */
  lemma DeclineMeans(s: Store, d: DriverId, o: OfferId, why: DeclineReason, key: Key, now: Time)
    requires DedupKey(DeclineCmd, d, key) !in s.dedup
    ensures DeclineDriverOffer(s, d, o, why, key, now).outcome.Accepted? <==>
              o in s.offers && s.offers[o].driver == d && s.offers[o].status == OfferOpen && now < s.offers[o].expiresAt
    ensures DeclineDriverOffer(s, d, o, why, key, now).outcome.Accepted? ==>
              var r := DeclineDriverOffer(s, d, o, why, key, now);
              && r.outcome == Accepted(OfferDeclinedReply(o))
              && r.store == s.(offers := s.offers[o := s.offers[o].(status := OfferDeclined, reason := Some(Declining(why)))],
                               outcomes := r.store.outcomes, dedup := r.store.dedup)
  {
    hide AppendRow, Attribution;
  }

  /** Listing offers expires exactly the driver's own open offers that are due, and touches nothing else. */
  lemma ListingLeaves(s: Store, d: DriverId, now: Time)
    ensures var r := ListDriverOffers(s, d, now).store;
            && r == s.(offers := r.offers, outcomes := r.outcomes) && r.offers.Keys == s.offers.Keys
            && forall o :: o in s.offers ==>
                 r.offers[o] == if s.offers[o].driver == d && s.offers[o].status == OfferOpen && now >= s.offers[o].expiresAt
                                then s.offers[o].(status := OfferExpired, reason := Some(TtlExpired)) else s.offers[o]
  {
    hide AttributeNew;
  }

  // ---------------------------------------------------------------- availability changes

  /** An accepted change withdraws all open offers of a driver who goes on break or offline, and no others. */
  lemma ChangeWithdraws(s: Store, d: DriverId, after: Availability)
    requires AvailabilityCommit(s, d, after).Some?
    ensures var r := AvailabilityCommit(s, d, after).value;
            && r.offers.Keys == s.offers.Keys
            && (forall o :: o in s.offers ==>
                  r.offers[o] == if after.status in {OnBreak, Offline} && s.offers[o].driver == d && s.offers[o].status == OfferOpen
                                 then s.offers[o].(status := OfferWithdrawn, reason := Some(WorkIntentChange)) else s.offers[o])
            && ShiftChanged(Rows(s.shifts, d), Rows(r.shifts, d), FromStatus(s, d), after.status, after.version, after.region, after.vehicle)
            && forall e :: e != d ==> Rows(r.shifts, e) == Rows(s.shifts, e)
  {
    hide AvailabilityCommit, ShiftChanged, RecordShift, MoveDriver;
    CommitTables(s, d, after);
    RecordShiftMeans(Rows(s.shifts, d), FromStatus(s, d), after.status, after.version, after.region, after.vehicle);
  }

  // ---------------------------------------------------------------- journeys

  /** An acknowledgement succeeds exactly for the driver's ACTIVE assignment of a booking that is DRIVER_ASSIGNED and has no journey. */
  lemma AcknowledgeMeans(s: Store, d: DriverId, a: AssignmentId)
    ensures AcknowledgeAssignment(s, d, a).outcome.Accepted? <==>
              && HoldsActive(s.assignments, a, d) && s.assignments[a].booking in s.bookings
              && s.bookings[s.assignments[a].booking].status == DriverAssigned
              && forall j :: j in s.journeys ==> s.journeys[j].booking != s.assignments[a].booking
    ensures AcknowledgeAssignment(s, d, a).outcome.Accepted? ==>
              var r := AcknowledgeAssignment(s, d, a).store;
              && BookingMoved(s, r, s.assignments[a].booking, DriverEnRoute)
              && r == s.(nextId := s.nextId + 1, bookings := r.bookings, bookingLog := r.bookingLog,
                         journeys := s.journeys[s.nextId := Journey(s.assignments[a].booking, a, EnRoute, false)])
  {
    hide BookingMoved, MoveBooking;
    if HoldsActive(s.assignments, a, d) && s.assignments[a].booking in s.bookings {
      var b := s.assignments[a].booking;
      MoveBookingMoves(s, b, DriverEnRoute);
      if JourneysOf(s, b) == {} {
        forall j | j in s.journeys ensures s.journeys[j].booking != b { assert j !in JourneysOf(s, b); }
      }
      if AcknowledgeAssignment(s, d, a).outcome.Accepted? {
        BookingMovedFramed(s, MoveBooking(s, b, DriverEnRoute), AcknowledgeAssignment(s, d, a).store, b, DriverEnRoute);
      }
    }
  }

  /** Where a journey goes next, and with it its booking. */
  function Onward(status: JourneyStatus): Option<(JourneyStatus, Status)> {
    match status
    case EnRoute => Some((Arrived, DriverArrived))
    case Arrived => Some((RideCheckPending, AwaitingRideCheck))
    case RideCheckPending => Some((RideVerified, PassengerVerified))
    case RideVerified => Some((UnderWay, InProgress))
    case UnderWay => Some((NearDestination, Arriving))
    case _ => None
  }

  lemma JourneyBooking(s: Store, j: JourneyId)
    requires BookingSide(s.bookings, s.bookingLog, s.attempts, s.assignments, s.journeys) && j in s.journeys
    requires s.journeys[j].assignment in s.assignments && s.assignments[s.journeys[j].assignment].status == Active
    ensures s.journeys[j].booking in s.bookings
    ensures Onward(s.journeys[j].status).Some? ==> CanForward(s.bookings[s.journeys[j].booking].status, Onward(s.journeys[j].status).value.1)
  {
    hide LogsAgree, AttemptsFit;
  }

  /** A journey command before completion succeeds exactly for the holder of the ACTIVE assignment with its evidence, on a journey not yet near
      its destination; journey and booking take the next step together. */
  lemma AdvanceMeans(s: Store, d: DriverId, j: JourneyId, evidence: bool)
    requires Inv(s)
    ensures AdvanceJourney(s, d, j, evidence).outcome.Accepted? <==> Holds(s, d, j) && evidence && Onward(s.journeys[j].status).Some?
    ensures AdvanceJourney(s, d, j, evidence).outcome.Accepted? ==>
              var r := AdvanceJourney(s, d, j, evidence).store;
              var journey := s.journeys[j];
              && BookingMoved(s, r, journey.booking, Onward(journey.status).value.1)
              && r == s.(bookings := r.bookings, bookingLog := r.bookingLog,
                         journeys := s.journeys[j := Journey(journey.booking, journey.assignment, Onward(journey.status).value.0, journey.legInterrupted)])
  {
    hide IdsIssued, BookingSide, OfferSide, DriverSide, BookingMoved, MoveBooking, CanForward;
    if Holds(s, d, j) {
      JourneyBooking(s, j);
      if Onward(s.journeys[j].status).Some? {
        var b, to := s.journeys[j].booking, Onward(s.journeys[j].status).value.1;
        MoveBookingMoves(s, b, to);
        if evidence { BookingMovedFramed(s, MoveBooking(s, b, to), AdvanceJourney(s, d, j, evidence).store, b, to); }
      }
    }
  }

  /** How a journey's end shows in the tables: the booking's status, the journey, the assignment, and the driver's release with a shift event. */
  ghost predicate Ended(s: Store, r: Store, d: DriverId, j: JourneyId, booking: Status, journey: Journey, assignment: AssignmentStatus,
                        to: AvailabilityStatus, kind: ShiftEventKind)
    requires j in s.journeys && s.journeys[j].assignment in s.assignments && d in s.availability
  {
    var a := s.journeys[j].assignment;
    && BookingMoved(s, r, s.journeys[j].booking, booking) && r.journeys == s.journeys[j := journey]
    && r.assignments == s.assignments[a := s.assignments[a].(status := assignment)] && DriverMoved(s, r, d, to)
    && ShiftNoted(s, r, d, ShiftEvent(kind, Assigned, to, s.availability[d].version + 1))
    && r.offers == s.offers && r.outcomes == s.outcomes && r.attempts == s.attempts && r.nextId == s.nextId
  }

  lemma EndJourneyEnds(s: Store, d: DriverId, j: JourneyId, booking: Status, journey: Journey, assignment: AssignmentStatus,
                       to: AvailabilityStatus, kind: ShiftEventKind)
    requires j in s.journeys && s.journeys[j].booking in s.bookings && s.journeys[j].assignment in s.assignments
    requires d in s.availability && s.availability[d].status == Assigned
    ensures Ended(s, EndJourney(s, d, j, booking, journey, assignment, to, kind), d, j, booking, journey, assignment, to, kind)
  {
    hide BookingMoved, DriverMoved, ShiftNoted, MoveBooking, NoteShiftEvent, MoveDriver;
    var r := EndJourney(s, d, j, booking, journey, assignment, to, kind);
    var after := s.availability[d].(status := to, version := s.availability[d].version + 1);
    MoveBookingMoves(s, s.journeys[j].booking, booking);
    BookingMovedFramed(s, MoveBooking(s, s.journeys[j].booking, booking), r, s.journeys[j].booking, booking);
    EndTablesOf(s, d, j, booking, journey, assignment, to, kind);
    EndMoves(s, d, j, booking, journey, assignment, to, kind);
    EndDriver(s, r, d, to);
    NotedIs(s, r, d, kind, Assigned, to, after.version);
  }

  lemma EndMoves(s: Store, d: DriverId, j: JourneyId, booking: Status, journey: Journey, assignment: AssignmentStatus,
                 to: AvailabilityStatus, kind: ShiftEventKind)
    requires j in s.journeys && s.journeys[j].booking in s.bookings && s.journeys[j].assignment in s.assignments && d in s.availability
    ensures EndJourney(s, d, j, booking, journey, assignment, to, kind).moves
              == AppendRow(s.moves, d, AvailabilityMove(Assigned, to, s.availability[d].version + 1))
  {
    hide NoteShiftEvent, MoveBooking, AppendRow;
  }

  lemma EndDriver(s: Store, r: Store, d: DriverId, to: AvailabilityStatus)
    requires d in s.availability && s.availability[d].status == Assigned
    requires r.availability == s.availability[d := s.availability[d].(status := to, version := s.availability[d].version + 1)]
    requires r.moves == AppendRow(s.moves, d, AvailabilityMove(Assigned, to, s.availability[d].version + 1))
    ensures DriverMoved(s, r, d, to)
  {
  }

  /** Completion: booking COMPLETED, journey done, assignment COMPLETED, driver AVAILABLE. */
  lemma CompletionLeaves(s: Store, d: DriverId, j: JourneyId, evidence: bool)
    requires CompleteJourney(s, d, j, evidence).outcome.Accepted?
    ensures j in s.journeys && s.journeys[j].assignment in s.assignments && d in s.availability
    ensures Ended(s, CompleteJourney(s, d, j, evidence).store, d, j, Completed, s.journeys[j].(status := JourneyDone), AssignmentCompleted,
                  Available, JourneyCompletedAvailable)
    ensures CompleteJourney(s, d, j, evidence).outcome == Accepted(JourneyCompletedReply(j, s.journeys[j].booking))
  {
    hide EndJourney, Ended;
    EndJourneyEnds(s, d, j, Completed, s.journeys[j].(status := JourneyDone), AssignmentCompleted, Available, JourneyCompletedAvailable);
  }

  /** Unsafe termination under a new key: booking ACTIVE_INCIDENT, leg interrupted, assignment CANCELLED, driver on BREAK, the report kept. */
  lemma TerminationLeaves(s: Store, account: AccountId, d: DriverId, j: JourneyId, report: string, key: Key)
    requires SafetyKey(account, j, key) !in s.safetyDedup && TerminateUnsafeJourney(s, account, d, j, report, key).outcome.Accepted?
    ensures j in s.journeys && s.journeys[j].assignment in s.assignments && d in s.availability
    ensures Ended(s, TerminateUnsafeJourney(s, account, d, j, report, key).store, d, j, ActiveIncident,
                  s.journeys[j].(legInterrupted := true), AssignmentCancelled, OnBreak, UnsafeTerminationBreak)
    ensures TerminateUnsafeJourney(s, account, d, j, report, key).store.safetyDedup
              == s.safetyDedup[SafetyKey(account, j, key) := SafetyRecord(report, Terminated(j, s.journeys[j].booking))]
    ensures TerminateUnsafeJourney(s, account, d, j, report, key).outcome == Accepted(Terminated(j, s.journeys[j].booking))
  {
    hide EndJourney, Ended;
    var journey := s.journeys[j].(legInterrupted := true);
    EndJourneyEnds(s, d, j, ActiveIncident, journey, AssignmentCancelled, OnBreak, UnsafeTerminationBreak);
    TerminationStore(s, account, d, j, report, key);
    EndedFramed(s, EndJourney(s, d, j, ActiveIncident, journey, AssignmentCancelled, OnBreak, UnsafeTerminationBreak),
                TerminateUnsafeJourney(s, account, d, j, report, key).store, d, j, ActiveIncident, journey, AssignmentCancelled,
                OnBreak, UnsafeTerminationBreak);
  }

  lemma TerminationStore(s: Store, account: AccountId, d: DriverId, j: JourneyId, report: string, key: Key)
    requires SafetyKey(account, j, key) !in s.safetyDedup && TerminateUnsafeJourney(s, account, d, j, report, key).outcome.Accepted?
    ensures j in s.journeys && s.journeys[j].booking in s.bookings && s.journeys[j].assignment in s.assignments && d in s.availability
    ensures TerminateUnsafeJourney(s, account, d, j, report, key).store
              == EndJourney(s, d, j, ActiveIncident, s.journeys[j].(legInterrupted := true), AssignmentCancelled, OnBreak, UnsafeTerminationBreak)
                   .(safetyDedup := TerminateUnsafeJourney(s, account, d, j, report, key).store.safetyDedup)
  {
    hide NoteShiftEvent, MoveBooking, MoveDriver;
  }

  lemma EndedFramed(s: Store, r: Store, t: Store, d: DriverId, j: JourneyId, booking: Status, journey: Journey, assignment: AssignmentStatus,
                    to: AvailabilityStatus, kind: ShiftEventKind)
    requires j in s.journeys && s.journeys[j].assignment in s.assignments && d in s.availability
    requires Ended(s, r, d, j, booking, journey, assignment, to, kind) && t == r.(safetyDedup := t.safetyDedup)
    ensures Ended(s, t, d, j, booking, journey, assignment, to, kind)
  {
  }

  // ---------------------------------------------------------------- the other writers of availability

  /** A fatigue report is refused exactly without an ACTIVE shift. It puts a driver who is free to work, with nobody aboard, on BREAK with a shift
      event, and otherwise changes nothing. */
  lemma ReportMeans(s: Store, d: DriverId, aboard: bool)
    ensures ReportFatigue(s, d, aboard).outcome.Refused? <==> forall i :: !IsCurrent(Rows(s.shifts, d), i)
    ensures var r := ReportFatigue(s, d, aboard).store;
            if (exists i :: IsCurrent(Rows(s.shifts, d), i)) && !aboard && d in s.availability
               && s.availability[d].status in {Available, Offered, FinishingSoon}
            then && r == s.(availability := s.availability[d := s.availability[d].(status := OnBreak, version := s.availability[d].version + 1)],
                            shifts := r.shifts)
                 && ShiftNoted(s, r, d, ShiftEvent(WorkIntentChanged, s.availability[d].status, OnBreak, s.availability[d].version + 1))
            else r == s
  {
    hide ReportFatigue, ShiftNoted, NoteShiftEvent, ActiveShift, IsCurrent;
    CurrentOrNone(Rows(s.shifts, d));
    ReportStore(s, d, aboard);
    if SendsOnBreak(s, d, aboard) {
      NotedIs(s, ReportFatigue(s, d, aboard).store, d, WorkIntentChanged, s.availability[d].status, OnBreak, s.availability[d].version + 1);
    }
  }

  lemma ReportStore(s: Store, d: DriverId, aboard: bool)
    ensures ReportFatigue(s, d, aboard).outcome.Refused? <==> ActiveShift(Rows(s.shifts, d)).None?
    ensures ReportFatigue(s, d, aboard).store
         == if !SendsOnBreak(s, d, aboard) then s
            else s.(availability := s.availability[d := s.availability[d].(status := OnBreak, version := s.availability[d].version + 1)],
                    shifts := NoteShiftEvent(s.shifts, d, WorkIntentChanged, s.availability[d].status, OnBreak, s.availability[d].version + 1))
  {
    hide NoteShiftEvent, ActiveShift;
  }

  lemma CurrentOrNone(shifts: seq<Shift>)
    ensures ActiveShift(shifts).Some? <==> exists i :: IsCurrent(shifts, i)
  {
    CurrentIsFirst(shifts, 0);
    if ActiveShift(shifts).Some? { assert IsCurrent(shifts, ActiveShift(shifts).value); }
  }

  /** A clearance succeeds exactly for a rested driver on BREAK, on shift, without an ACTIVE assignment and without a booking whose journey is
      past its identity check and not over; it raises the version and notes the rest. */
  lemma ClearMeans(s: Store, d: DriverId, rested: bool)
    ensures ClearFatigue(s, d, rested).outcome.Accepted? <==>
              && rested && (exists i :: IsCurrent(Rows(s.shifts, d), i)) && d in s.availability && s.availability[d].status == OnBreak
              && (forall a :: a in s.assignments && s.assignments[a].driver == d ==> s.assignments[a].status != Active)
              && forall a, j :: a in s.assignments && s.assignments[a].driver == d && j in s.journeys && s.journeys[j].booking == s.assignments[a].booking ==>
                   s.journeys[j].status !in {RideVerified, UnderWay, NearDestination}
    ensures ClearFatigue(s, d, rested).outcome.Accepted? ==>
              var r := ClearFatigue(s, d, rested).store;
              && r == s.(availability := s.availability[d := s.availability[d].(version := s.availability[d].version + 1)], shifts := r.shifts)
              && ShiftNoted(s, r, d, ShiftEvent(RestCompleted, OnBreak, OnBreak, s.availability[d].version + 1))
  {
    hide ClearFatigue, ShiftNoted, NoteShiftEvent, ActiveShift, IsCurrent;
    CurrentOrNone(Rows(s.shifts, d));
    ClearStore(s, d, rested);
    if Clears(s, d, rested) { NotedIs(s, ClearFatigue(s, d, rested).store, d, RestCompleted, OnBreak, OnBreak, s.availability[d].version + 1); }
  }

  lemma ClearStore(s: Store, d: DriverId, rested: bool)
    ensures ClearFatigue(s, d, rested).outcome.Accepted? <==> Clears(s, d, rested)
    ensures Clears(s, d, rested) ==>
              ClearFatigue(s, d, rested).store
                == s.(availability := s.availability[d := s.availability[d].(version := s.availability[d].version + 1)],
                      shifts := NoteShiftEvent(s.shifts, d, RestCompleted, OnBreak, OnBreak, s.availability[d].version + 1))
  {
    hide NoteShiftEvent, ActiveShift, HasActiveAssignment, HasRideUnderWay;
  }

  /** A vehicle concern takes a driver who uses the vehicle and is neither OFFLINE nor ASSIGNED offline, clearing the place, and otherwise changes
      nothing. */
  lemma ConcernMeans(s: Store, d: DriverId, vehicle: VehicleId)
    ensures var r := VehicleConcern(s, d, vehicle).store;
            if d in s.availability && s.availability[d].vehicle == Some(vehicle) && s.availability[d].status !in {Offline, Assigned}
            then && r == s.(availability := s.availability[d := Availability(Offline, s.availability[d].version + 1, None, None, None, None)],
                            moves := r.moves)
                 && Rows(r.moves, d) == Rows(s.moves, d) + [AvailabilityMove(s.availability[d].status, Offline, s.availability[d].version + 1)]
                 && forall e :: e != d ==> Rows(r.moves, e) == Rows(s.moves, e)
            else r == s
  {
  }

  /** The connectivity insert gives a driver without a row an OFFLINE one at version 1, and leaves every other driver alone. */
  lemma ReconcileMeans(s: Store, d: DriverId)
    ensures ReconcileConnectivity(s, d).store
         == if d in s.availability then s else s.(availability := s.availability[d := Availability(Offline, 1, None, None, None, None)])
  {
  }

  // ---------------------------------------------------------------- bookings before dispatch

  /** A new booking starts in DRAFT at version 1 with one log row. */
  lemma CreateLeaves(s: Store, person: PersonId, region: Region, scheduledFor: Option<Time>, requirements: seq<Requirement>)
    requires s.nextId !in s.bookingLog
    ensures var r := CreateBooking(s, person, region, scheduledFor, requirements).store;
            && r == s.(nextId := s.nextId + 1, bookings := s.bookings[s.nextId := Booking(person, Draft, 1, region, scheduledFor, requirements)],
                       bookingLog := r.bookingLog)
            && Rows(r.bookingLog, s.nextId) == [Transition(None, Draft, 1)]
            && forall b :: b != s.nextId ==> Rows(r.bookingLog, b) == Rows(s.bookingLog, b)
  {
  }

  /** Up to READY_FOR_DISPATCH the booker's booking takes exactly the canonical steps asked for from its present status. */
  lemma PrepareMeans(s: Store, person: PersonId, b: BookingId, from: Status, to: Status)
    ensures PrepareBooking(s, person, b, from, to).outcome.Accepted? <==>
              && b in s.bookings && s.bookings[b].booker == person && s.bookings[b].status == from && from in ComesFrom(to)
              && to in {QuoteCreated, AwaitingConfirmation, Confirmed, Scheduled, ReadyForDispatch}
    ensures PrepareBooking(s, person, b, from, to).outcome.Accepted? ==>
              var r := PrepareBooking(s, person, b, from, to).store;
              BookingMoved(s, r, b, to) && r == s.(bookings := r.bookings, bookingLog := r.bookingLog)
  {
    hide CanForward, BookingMoved, MoveBooking, ComesFrom;
    ForwardBackwards(from, to);
    ReadyRanks(from, to);
    if b in s.bookings { MoveBookingMoves(s, b, to); }
  }

  lemma ReadyRanks(from: Status, to: Status)
    ensures from in ComesFrom(to) ==> (Rank(to) <= Rank(ReadyForDispatch) <==> to in {QuoteCreated, AwaitingConfirmation, Confirmed, Scheduled, ReadyForDispatch})
  {
  }
}
