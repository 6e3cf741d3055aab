/**
 Every command that moves a booking, an offer, an assignment or a driver's availability,
 each as one committed transaction: the store it leaves and the answer it gives.
 A refused command leaves the store as it was, except where the service commits before it throws.
 */
module DispatchProtocol {
  import opened Prelude
  import opened BookingStatus
  import opened DriverDomain
  import opened DispatchStore

  datatype Step = Step(store: Store, outcome: Outcome)

  // ---------------------------------------------------------------- starting dispatch

  function EligibleRows(s: Store, w: World, b: BookingId, rows: seq<CandidateRow>): (eligible: seq<CandidateRow>)
    requires b in s.bookings
    ensures forall r :: r in eligible <==> r in rows && RowEligible(s, w, b, s.bookings[b], r)
  {
    FilterSeq(r => RowEligible(s, w, b, s.bookings[b], r), rows)
  }

  /** The error the candidate filter throws, if evaluating some row's fatigue evidence throws. */
  function FirstFault(s: Store, w: World, b: BookingId, rows: seq<CandidateRow>): Option<FatigueError>
    requires b in s.bookings
  {
    if rows == [] then None
    else if RowFaulty(s, w, b, s.bookings[b], rows[0])
    then Some(CandidateInput(s, w, rows[0].driver, b, s.bookings[b]).error)
    else FirstFault(s, w, b, rows[1..])
  }

  /** The disclosure attached to an offer of the first wave. */
  function WaveDisclosure(w: World, booking: Booking, distance: Option<nat>): Disclosure {
    var fixture := w.config.fixture;
    Disclosure(
      if distance.Some? then Some(distance.value) else None,
      if fixture.Some? then Some(fixture.value.etaMinutes) else None,
      RequiredServices(booking.requirements),
      [if booking.scheduledFor.Some? then "SCHEDULED" else "ON_DEMAND"]
      + FilterSeq((k: string) => k != "", seq(|booking.requirements|, i requires 0 <= i < |booking.requirements| => Upper(Trim(booking.requirements[i].kind)))),
      if fixture.Some? then Some(fixture.value.amount) else None,
      if fixture.Some? then Some(fixture.value.currency) else None,
      if fixture.Some? then Some("development-driver-earning-fixture-v1") else None,
      false,
      false)
  }

  /** The driver's availability row; a driver without one is OFFLINE at version 0. */
  function CurrentAvailability(s: Store, d: DriverId): Availability {
    AvailabilityIn(s.availability, d)
  }

  function WaveOffer(s: Store, w: World, b: BookingId, t: AttemptId, row: CandidateRow): Offer
    requires b in s.bookings
  {
    Offer(t, b, row.driver, CurrentAvailability(s, row.driver).vehicle, OfferOpen, None,
          w.now + w.config.ttlSeconds * 1_000, WaveDisclosure(w, s.bookings[b], row.distance))
  }

  function WaveCandidate(s: Store, row: CandidateRow, rank: nat): Candidate
  {
    Candidate(row.driver, CurrentAvailability(s, row.driver).vehicle, CurrentAvailability(s, row.driver).version, row.distance, rank)
  }

  /** How many of `n` ranked candidates the first wave reaches. */
  function WaveReach(n: nat, waveSize: int): nat {
    if waveSize <= 0 then 0 else if waveSize < n then waveSize else n
  }

  /** The offers to the first `reach` of the ranked candidates, nearest first. */
  function WaveOffers(s: Store, w: World, b: BookingId, t: AttemptId, eligible: seq<CandidateRow>, reach: nat): seq<Offer>
    requires b in s.bookings && reach <= |eligible|
  {
    seq(reach, i requires 0 <= i < reach => WaveOffer(s, w, b, t, eligible[i]))
  }

  /** The first wave: candidate ranks 1..n, and an open offer for each rank up to the wave size.
      The attempt takes the next id and the offers the ids after it, in rank order. */
  function WithWave(s: Store, w: World, b: BookingId, eligible: seq<CandidateRow>): Store
    requires b in s.bookings
  {
    var t := s.nextId;
    var reach := WaveReach(|eligible|, w.config.waveSize);
    var moved := MoveBooking(s, b, SearchingForDriver);
    moved.(nextId := t + 1 + reach,
           attempts := s.attempts[t := Attempt(b, Offering)],
           candidates := s.candidates[t := seq(|eligible|, i requires 0 <= i < |eligible| => WaveCandidate(s, eligible[i], i + 1))],
           offers := InsertRows(s.offers, t + 1, WaveOffers(s, w, b, t, eligible, reach)))
  }

  function WithoutDriver(s: Store, b: BookingId): Store
    requires b in s.bookings
  {
    var searching := MoveBooking(s, b, SearchingForDriver);
    var closed := MoveBooking(searching, b, NoEligibleDriver);
    closed.(nextId := s.nextId + 1, attempts := s.attempts[s.nextId := Attempt(b, NoneEligible)])
  }

  function StartBookingDispatch(s: Store, account: AccountId, person: PersonId, b: BookingId, key: Key,
                                rows: seq<CandidateRow>, w: World): Step
  {
    var dedupKey := DedupKey(StartCmd, account, key);
    if b !in s.bookings || s.bookings[b].booker != person then Step(s, Refused(Forbidden))
    else if dedupKey in s.dedup then Step(s, Accepted(s.dedup[dedupKey]))
    else if s.bookings[b].status != ReadyForDispatch then Step(s, Refused(Conflict))
    else if FirstFault(s, w, b, rows).Some? then Step(s, Refused(FatigueFault(FirstFault(s, w, b, rows).value)))
    else
      var eligible := EligibleRows(s, w, b, rows);
      if eligible == [] then
        var reply := Started(b, s.nextId, false, 0, 0);
        Step(WithoutDriver(s, b).(dedup := s.dedup[dedupKey := reply]), Accepted(reply))
      else
        var reply := Started(b, s.nextId, true, |eligible|, WaveReach(|eligible|, w.config.waveSize));
        Step(WithWave(s, w, b, eligible).(dedup := s.dedup[dedupKey := reply]), Accepted(reply))
  }

  // ---------------------------------------------------------------- the driver's own availability

  datatype Position = Position(observedAt: Time, confidence: int)

  datatype AvailabilityRequest = AvailabilityRequest(
    status: AvailabilityStatus, region: Option<Region>, vehicle: Option<VehicleId>, position: Option<Position>)

  predicate GoingOnline(status: AvailabilityStatus) {
    status in {Available, FinishingSoon}
  }

  function FromStatus(s: Store, d: DriverId): AvailabilityStatus {
    CurrentAvailability(s, d).status
  }

  /** Blockers of the pre-shift check: stored availability and location are ignored, the reported position is judged. */
  function PreShiftBlockers(i: EligibilityInput, from: AvailabilityStatus, p: Position, w: World): seq<EligibilityBlocker> {
    FilterSeq(b => b !in {NotAvailable, LocationMissing, LocationStale, LocationConfidenceLow}
                   && !(from == Offline && b == FatigueSafetyBlocked), Blockers(i, w.now))
    + (if w.now - p.observedAt > w.config.maxAgeSeconds * 1_000 || p.observedAt > w.now + 30_000 then [LocationStale] else [])
    + (if p.confidence < w.config.minimumConfidence then [LocationConfidenceLow] else [])
  }

  function NextAvailability(s: Store, d: DriverId, request: AvailabilityRequest): Availability
    requires GoingOnline(request.status) ==> request.position.Some?
  {
    var current := CurrentAvailability(s, d);
    if request.status == Offline then Availability(Offline, current.version + 1, None, None, None, None)
    else if GoingOnline(request.status) then
      Availability(request.status, current.version + 1, request.region, request.vehicle,
                   Some(request.position.value.observedAt), Some(request.position.value.confidence))
    else current.(status := request.status, version := current.version + 1)
  }

  function WithdrawForBreak(s: Store, d: DriverId): (r: Store)
    ensures r == s.(offers := r.offers, outcomes := r.outcomes)
  {
    var open := OpenOffersOf(s.offers, d);
    s.(offers := CloseOffers(s.offers, open, OfferWithdrawn, Some(WorkIntentChange)),
       outcomes := AttributeNew(s.outcomes, s.offers, open, OutWithdrawn, DriverChoice))
  }

  /** The commit of an availability change, or None when the shift cannot be opened. */
  function AvailabilityCommit(s: Store, d: DriverId, after: Availability): Option<Store> {
    var from := FromStatus(s, d);
    var shifts := RecordShift(Rows(s.shifts, d), from, after.status, after.version, after.region, after.vehicle);
    if shifts.None? then None
    else
      var moved := MoveDriver(s, d, after, from).(shifts := s.shifts[d := shifts.value]);
      Some(if after.status in {OnBreak, Offline} then WithdrawForBreak(moved, d) else moved)
  }

  function SetDriverAvailability(s: Store, d: DriverId, actorActive: bool, request: AvailabilityRequest, key: Key, w: World): Step
    requires request.status in {Available, FinishingSoon, OnBreak, Offline}
  {
    var dedupKey := DedupKey(AvailabilityCmd, d, key);
    var online := GoingOnline(request.status);
    var from := FromStatus(s, d);
    if online && (request.vehicle.None? || request.region.None? || request.position.None?) then
      Step(s, Refused(NotEligible([VehicleNotAuthorised, LocationMissing])))
    else if dedupKey in s.dedup then Step(s, Accepted(s.dedup[dedupKey]))
    else if !MayMove(from, request.status) then Step(s, Refused(InvalidTransition))
    else if online && !(0 <= request.position.value.confidence <= 1_000) then
      Step(s, Refused(NotEligible([LocationConfidenceLow])))
    else if d !in w.drivers then Step(s, Refused(NotFound))
    else
      var facts := DriverInput(s, w, d, actorActive, request.vehicle, request.region, [], [], None, None);
      if facts.Failure? then Step(s, Refused(FatigueFault(facts.error)))
      else if online && PreShiftBlockers(facts.value, from, request.position.value, w) != [] then
        Step(s, Refused(NotEligible(PreShiftBlockers(facts.value, from, request.position.value, w))))
      else
        var after := NextAvailability(s, d, request);
        var commit := AvailabilityCommit(s, d, after);
        if commit.None? then Step(s, Refused(Conflict))
        else
          var reply := AvailabilitySet(d, after.status, after.version);
          Step(commit.value.(dedup := s.dedup[dedupKey := reply]), Accepted(reply))
  }

  // ---------------------------------------------------------------- offers: listing, declining, accepting

  /** The expiry sweep that runs when a driver lists offers. */
  function ListDriverOffers(s: Store, d: DriverId, now: Time): Step {
    var due := DueOffersOf(s.offers, d, now);
    Step(s.(offers := CloseOffers(s.offers, due, OfferExpired, Some(TtlExpired)),
            outcomes := AttributeNew(s.outcomes, s.offers, due, OutTimedOut, DriverChoice)),
         Accepted(Done))
  }

  function CloseOne(s: Store, o: OfferId, status: OfferStatus, reason: Option<CloseReason>, row: OutcomeRow): (r: Store)
    requires o in s.offers
    ensures r == s.(offers := r.offers, outcomes := r.outcomes)
  {
    s.(offers := s.offers[o := s.offers[o].(status := status, reason := reason)],
       outcomes := AppendRow(s.outcomes, o, row))
  }

  function DeclineDriverOffer(s: Store, d: DriverId, o: OfferId, why: DeclineReason, key: Key, now: Time): Step {
    var dedupKey := DedupKey(DeclineCmd, d, key);
    if o !in s.offers then Step(s, Refused(NotFound))
    else if s.offers[o].driver != d then Step(s, Refused(Forbidden))
    else if dedupKey in s.dedup then Step(s, Accepted(s.dedup[dedupKey]))
    else if s.offers[o].status != OfferOpen || s.offers[o].expiresAt <= now then Step(s, Refused(Conflict))
    else
      var reply := OfferDeclinedReply(o);
      Step(CloseOne(s, o, OfferDeclined, Some(Declining(why)), Attribution(d, OutDeclined, DriverChoice))
             .(dedup := s.dedup[dedupKey := reply]), Accepted(reply))
  }

  /** The offers after `o` wins its attempt. */
  function WonOffers(offers: map<OfferId, Offer>, o: OfferId): (after: map<OfferId, Offer>)
    requires o in offers
    ensures after.Keys == offers.Keys
  {
    var won := offers[o := offers[o].(status := OfferAccepted)];
    CloseOffers(won, OpenRivals(won, offers[o].attempt, o), OfferWithdrawn, Some(BookingAssigned))
  }

  function WonOutcomes(offers: map<OfferId, Offer>, outcomes: map<OfferId, seq<OutcomeRow>>, o: OfferId): map<OfferId, seq<OutcomeRow>>
    requires o in offers
  {
    var after := WonOffers(offers, o);
    AttributeNew(AppendRow(outcomes, o, Attribution(offers[o].driver, OutAccepted, DriverChoice)), after,
                 WithdrawnForAssignment(after, offers[o].attempt, o), OutAssignedElsewhere, DispatchCause)
  }

  /** The driver's shifts after an acceptance: the current shift's own region and vehicle are passed on if there is one. */
  function ShiftsOnAccept(s: Store, d: DriverId, offer: Offer): Option<seq<Shift>>
    requires offer.booking in s.bookings && d in s.availability
  {
    var shifts := Rows(s.shifts, d);
    var current := ActiveShift(shifts);
    var region := if current.Some? then shifts[current.value].region else s.bookings[offer.booking].region;
    var vehicle := if current.Some? then Some(shifts[current.value].vehicle) else offer.vehicle;
    RecordShift(shifts, s.availability[d].status, Assigned, s.availability[d].version + 1, Some(region), vehicle)
  }

  /** Assignment, offers, outcomes, attempt, availability, shift and booking of one acceptance; None if it must roll back. */
  function AcceptCommit(s: Store, d: DriverId, o: OfferId): Option<Store>
    requires o in s.offers && s.offers[o].booking in s.bookings
  {
    var offer := s.offers[o];
    if d !in s.availability || !MayMove(s.availability[d].status, Assigned) then None
    else
      var from := s.availability[d].status;
      var after := s.availability[d].(status := Assigned, version := s.availability[d].version + 1);
      var logged := ShiftsOnAccept(s, d, offer);
      if logged.None? then None
      else
        var filled := s.(
          nextId := s.nextId + 1,
          assignments := s.assignments[s.nextId := Assignment(offer.attempt, o, offer.booking, d, offer.vehicle, Active)],
          offers := WonOffers(s.offers, o),
          outcomes := WonOutcomes(s.offers, s.outcomes, o),
          attempts := if offer.attempt in s.attempts
                      then s.attempts[offer.attempt := s.attempts[offer.attempt].(status := AttemptAssigned)] else s.attempts,
          shifts := s.shifts[d := logged.value]);
        Some(MoveBooking(MoveDriver(filled, d, after, from), offer.booking, DriverAssigned))
  }

  /** Two refusals commit before they throw: an expired offer, and a driver who is no longer eligible. */
  function AcceptDriverOffer(s: Store, d: DriverId, actorActive: bool, o: OfferId, key: Key, w: World): Step {
    var dedupKey := DedupKey(AcceptCmd, d, key);
    if o !in s.offers then Step(s, Refused(NotFound))
    else
      var offer := s.offers[o];
      if offer.driver != d then Step(s, Refused(Forbidden))
      else if dedupKey in s.dedup then Step(s, Accepted(s.dedup[dedupKey]))
      else if offer.attempt !in s.attempts || s.attempts[offer.attempt].status != Offering then Step(s, Refused(Conflict))
      else if offer.status != OfferOpen then Step(s, Refused(Conflict))
      else if offer.expiresAt <= w.now then
        Step(s.(offers := s.offers[o := offer.(status := OfferExpired, reason := Some(TtlExpired))],
                outcomes := AttributeNew(s.outcomes, s.offers, {o}, OutTimedOut, DriverChoice)),
             Refused(Conflict))
      else if !AcceptanceAllowed(offer.disclosure) then Step(s, Refused(Conflict))
      else if offer.booking !in s.bookings then Step(s, Refused(NotFound))
      else if s.bookings[offer.booking].status != SearchingForDriver then Step(s, Refused(Conflict))
      else if d !in w.drivers then Step(s, Refused(NotFound))
      else
        var facts := RecheckInput(s, w, d, actorActive, offer, offer.booking, s.bookings[offer.booking]);
        if facts.Failure? then Step(s, Refused(FatigueFault(facts.error)))
        else if !IsEligible(facts.value, w.now) then
          Step(CloseOne(s, o, OfferWithdrawn, Some(BecameIneligible), Attribution(d, OutIneligible, SystemCause)),
               Refused(NotEligible(Blockers(facts.value, w.now))))
        else
          var commit := AcceptCommit(s, d, o);
          if commit.None? then Step(s, Refused(InvalidTransition))
          else
            var reply := OfferAcceptedReply(o, s.nextId, offer.booking, d);
            Step(commit.value.(dedup := s.dedup[dedupKey := reply]), Accepted(reply))
  }

  // ---------------------------------------------------------------- journeys on an assignment

  function BookingStatusFor(j: JourneyStatus): Status {
    match j
    case EnRoute => DriverEnRoute
    case Arrived => DriverArrived
    case RideCheckPending => AwaitingRideCheck
    case RideVerified => PassengerVerified
    case UnderWay => InProgress
    case NearDestination => Arriving
    case JourneyDone => Completed
  }

  function NextJourneyStatus(j: JourneyStatus): Option<JourneyStatus> {
    match j
    case EnRoute => Some(Arrived)
    case Arrived => Some(RideCheckPending)
    case RideCheckPending => Some(RideVerified)
    case RideVerified => Some(UnderWay)
    case UnderWay => Some(NearDestination)
    case NearDestination => Some(JourneyDone)
    case JourneyDone => None
  }

  function JourneysOf(s: Store, b: BookingId): set<JourneyId> {
    set j | j in s.journeys && s.journeys[j].booking == b
  }

  /** Driver acknowledgement: attaches a journey to the booking's ACTIVE assignment `a` and sends it en route. */
  function AcknowledgeAssignment(s: Store, d: DriverId, a: AssignmentId): Step {
    if a !in s.assignments || s.assignments[a].status != Active || s.assignments[a].booking !in s.bookings
    then Step(s, Refused(NotFound))
    else if s.assignments[a].driver != d then Step(s, Refused(Forbidden))
    else
      var b := s.assignments[a].booking;
      if s.bookings[b].status != DriverAssigned || JourneysOf(s, b) != {} then Step(s, Refused(Conflict))
      else
        Step(MoveBooking(s, b, DriverEnRoute).(
               nextId := s.nextId + 1,
               journeys := s.journeys[s.nextId := Journey(b, a, EnRoute, false)]),
             Accepted(Done))
  }

  /** One of the journey commands between acknowledgement and completion; `evidence` stands for its own checks. */
  function AdvanceJourney(s: Store, d: DriverId, j: JourneyId, evidence: bool): Step {
    if j !in s.journeys || s.journeys[j].booking !in s.bookings || s.journeys[j].assignment !in s.assignments
    then Step(s, Refused(NotFound))
    else
      var journey := s.journeys[j];
      var next := NextJourneyStatus(journey.status);
      if s.assignments[journey.assignment].driver != d || s.assignments[journey.assignment].status != Active
      then Step(s, Refused(Forbidden))
      else if !evidence || next.None? || next == Some(JourneyDone)
              || !CanForward(s.bookings[journey.booking].status, BookingStatusFor(next.value))
      then Step(s, Refused(Conflict))
      else
        Step(MoveBooking(s, journey.booking, BookingStatusFor(next.value)).(
               journeys := s.journeys[j := journey.(status := next.value)]),
             Accepted(Done))
  }

  /** Appends `kind` to the driver's ACTIVE shift, if there is one. */
  function NoteShiftEvent(shifts: map<DriverId, seq<Shift>>, d: DriverId, kind: ShiftEventKind,
                          from: AvailabilityStatus, to: AvailabilityStatus, version: nat): map<DriverId, seq<Shift>>
  {
    var active := ActiveShift(Rows(shifts, d));
    if active.None? then shifts
    else shifts[d := LogShiftEvent(Rows(shifts, d), active.value, ShiftEvent(kind, from, to, version))]
  }

  function ReleaseDriver(s: Store, d: DriverId, to: AvailabilityStatus, kind: ShiftEventKind): Store
    requires d in s.availability
  {
    var after := s.availability[d].(status := to, version := s.availability[d].version + 1);
    MoveDriver(s, d, after, Assigned).(shifts := NoteShiftEvent(s.shifts, d, kind, Assigned, to, after.version))
  }

  /** The writes shared by both ways a journey ends: booking, journey, assignment, availability and shift. */
  function EndJourney(s: Store, d: DriverId, j: JourneyId, booking: Status, journey: Journey, assignment: AssignmentStatus,
                      to: AvailabilityStatus, kind: ShiftEventKind): Store
    requires j in s.journeys && s.journeys[j].booking in s.bookings && s.journeys[j].assignment in s.assignments
    requires d in s.availability
  {
    var a := s.journeys[j].assignment;
    ReleaseDriver(
      MoveBooking(s, s.journeys[j].booking, booking).(
        journeys := s.journeys[j := journey],
        assignments := s.assignments[a := s.assignments[a].(status := assignment)]),
      d, to, kind)
  }

  /** Governed completion: `evidence` stands for the destination, hold, continuity and handover checks. */
  function CompleteJourney(s: Store, d: DriverId, j: JourneyId, evidence: bool): Step {
    if j !in s.journeys || s.journeys[j].booking !in s.bookings || s.journeys[j].assignment !in s.assignments
    then Step(s, Refused(NotFound))
    else
      var journey := s.journeys[j];
      var assignment := s.assignments[journey.assignment];
      if assignment.driver != d || assignment.status != Active then Step(s, Refused(Forbidden))
      else if !evidence || journey.status != NearDestination || s.bookings[journey.booking].status != Arriving
      then Step(s, Refused(Conflict))
      else if d !in s.availability || !CanReleaseDriver(s.availability[d].status, Available, true, true)
      then Step(s, Refused(Conflict))
      else
        Step(EndJourney(s, d, j, Completed, journey.(status := JourneyDone), AssignmentCompleted,
                        Available, JourneyCompletedAvailable),
             Accepted(JourneyCompletedReply(j, journey.booking)))
  }

  /** createRiderConductCase with terminate set: cancels the assignment and puts the driver on break. */
  function TerminateUnsafeJourney(s: Store, account: AccountId, d: DriverId, j: JourneyId, report: string, key: Key): Step {
    var safetyKey := SafetyKey(account, j, key);
    if j !in s.journeys || s.journeys[j].booking !in s.bookings || s.journeys[j].assignment !in s.assignments
       || s.assignments[s.journeys[j].assignment].driver !in s.availability
    then Step(s, Refused(NotFound))
    else
      var journey := s.journeys[j];
      var assignment := s.assignments[journey.assignment];
      if assignment.driver != d then Step(s, Refused(Forbidden))
      else if safetyKey in s.safetyDedup then
        if s.safetyDedup[safetyKey].report != report then Step(s, Refused(KeyReused))
        else Step(s, Accepted(s.safetyDedup[safetyKey].reply))
      else if assignment.status != Active || s.availability[d].status != Assigned || journey.status == JourneyDone
      then Step(s, Refused(Conflict))
      else
        var reply := Terminated(j, journey.booking);
        Step(EndJourney(s, d, j, ActiveIncident, journey.(legInterrupted := true), AssignmentCancelled,
                        OnBreak, UnsafeTerminationBreak)
               .(safetyDedup := s.safetyDedup[safetyKey := SafetyRecord(report, reply)]),
             Accepted(reply))
  }

  // ---------------------------------------------------------------- other writers of availability

  /** Fatigue self-report outside a journey: BREAK, with a shift event but no availability transition row. */
  function ReportFatigue(s: Store, d: DriverId, passengerAboard: bool): Step {
    var active := ActiveShift(Rows(s.shifts, d));
    if active.None? then Step(s, Refused(Conflict))
    else if passengerAboard || d !in s.availability || s.availability[d].status !in {Available, Offered, FinishingSoon}
    then Step(s, Accepted(Done))
    else
      var before := s.availability[d];
      var after := before.(status := OnBreak, version := before.version + 1);
      Step(s.(availability := s.availability[d := after],
              shifts := NoteShiftEvent(s.shifts, d, WorkIntentChanged, before.status, OnBreak, after.version)),
           Accepted(Done))
  }

  /** A booking the driver was given has a journey past its identity check and not over, whatever became of the assignment. */
  predicate HasRideUnderWay(s: Store, d: DriverId) {
    exists a, j :: a in s.assignments && s.assignments[a].driver == d && j in s.journeys && s.journeys[j].booking == s.assignments[a].booking
                   && s.journeys[j].status in {RideVerified, UnderWay, NearDestination}
  }

  /** Fatigue clearance after rest: bumps the version of a driver on BREAK, again without a transition row. */
  function ClearFatigue(s: Store, d: DriverId, rested: bool): Step {
    var active := ActiveShift(Rows(s.shifts, d));
    if active.None? || !rested || HasActiveAssignment(s.assignments, d) || HasRideUnderWay(s, d)
       || d !in s.availability || s.availability[d].status != OnBreak
    then Step(s, Refused(Conflict))
    else
      var after := s.availability[d].(version := s.availability[d].version + 1);
      Step(s.(availability := s.availability[d := after],
              shifts := NoteShiftEvent(s.shifts, d, RestCompleted, OnBreak, OnBreak, after.version)),
           Accepted(Done))
  }

  /** moveDriverOfflineIfSafe: a vehicle concern takes the driver offline and leaves the shift and the offers alone. */
  function VehicleConcern(s: Store, d: DriverId, vehicle: VehicleId): Step {
    if d !in s.availability || s.availability[d].status in {Offline, Assigned} || s.availability[d].vehicle != Some(vehicle)
    then Step(s, Accepted(Done))
    else
      var before := s.availability[d];
      Step(MoveDriver(s, d, Availability(Offline, before.version + 1, None, None, None, None), before.status), Accepted(Done))
  }

  /** Connectivity reconciliation inserts an OFFLINE row for a driver that has none. */
  function ReconcileConnectivity(s: Store, d: DriverId): Step {
    Step(if d in s.availability then s
         else s.(availability := s.availability[d := Availability(Offline, 1, None, None, None, None)]),
         Accepted(Done))
  }

  // ---------------------------------------------------------------- bookings before dispatch

  function CreateBooking(s: Store, person: PersonId, region: Region, scheduledFor: Option<Time>, requirements: seq<Requirement>): Step {
    Step(s.(nextId := s.nextId + 1,
            bookings := s.bookings[s.nextId := Booking(person, Draft, 1, region, scheduledFor, requirements)],
            bookingLog := AppendRow(s.bookingLog, s.nextId, Transition(None, Draft, 1))),
         Accepted(Done))
  }

  /** transitionBooking, which the quote and confirm requests use up to READY_FOR_DISPATCH. */
  function PrepareBooking(s: Store, person: PersonId, b: BookingId, expectedFrom: Status, to: Status): Step {
    if !CanForward(expectedFrom, to) || Rank(to) > Rank(ReadyForDispatch) then Step(s, Refused(InvalidTransition))
    else if b !in s.bookings || s.bookings[b].booker != person then Step(s, Refused(Forbidden))
    else if s.bookings[b].status != expectedFrom then Step(s, Refused(Conflict))
    else Step(MoveBooking(s, b, to), Accepted(Done))
  }

  // ---------------------------------------------------------------- runs

  datatype Command =
    | Create(person: PersonId, region: Region, scheduledFor: Option<Time>, requirements: seq<Requirement>)
    | Prepare(person: PersonId, booking: BookingId, expectedFrom: Status, to: Status)
    | Start(account: AccountId, person: PersonId, booking: BookingId, key: Key, rows: seq<CandidateRow>, world: World)
    | SetAvailability(driver: DriverId, actorActive: bool, request: AvailabilityRequest, key: Key, world: World)
    | ListOffers(driver: DriverId, now: Time)
    | Decline(driver: DriverId, offer: OfferId, why: DeclineReason, key: Key, now: Time)
    | Accept(driver: DriverId, actorActive: bool, offer: OfferId, key: Key, world: World)
    | Acknowledge(driver: DriverId, assignment: AssignmentId)
    | Advance(driver: DriverId, journey: JourneyId, evidence: bool)
    | Complete(driver: DriverId, journey: JourneyId, evidence: bool)
    | Terminate(account: AccountId, driver: DriverId, journey: JourneyId, report: string, key: Key)
    | FatigueReport(driver: DriverId, passengerAboard: bool)
    | FatigueClear(driver: DriverId, rested: bool)
    | Concern(driver: DriverId, vehicle: VehicleId)
    | Reconcile(driver: DriverId)

  function Apply(s: Store, c: Command): Step {
    match c
    case Create(p, r, f, q) => CreateBooking(s, p, r, f, q)
    case Prepare(p, b, f, t) => PrepareBooking(s, p, b, f, t)
    case Start(a, p, b, k, rows, w) => StartBookingDispatch(s, a, p, b, k, rows, w)
    case SetAvailability(d, active, r, k, w) =>
      if r.status in {Available, FinishingSoon, OnBreak, Offline} then SetDriverAvailability(s, d, active, r, k, w)
      else Step(s, Refused(InvalidTransition))
    case ListOffers(d, now) => ListDriverOffers(s, d, now)
    case Decline(d, o, y, k, now) => DeclineDriverOffer(s, d, o, y, k, now)
    case Accept(d, active, o, k, w) => AcceptDriverOffer(s, d, active, o, k, w)
    case Acknowledge(d, a) => AcknowledgeAssignment(s, d, a)
    case Advance(d, j, e) => AdvanceJourney(s, d, j, e)
    case Complete(d, j, e) => CompleteJourney(s, d, j, e)
    case Terminate(a, d, j, r, k) => TerminateUnsafeJourney(s, a, d, j, r, k)
    case FatigueReport(d, p) => ReportFatigue(s, d, p)
    case FatigueClear(d, r) => ClearFatigue(s, d, r)
    case Concern(d, v) => VehicleConcern(s, d, v)
    case Reconcile(d) => ReconcileConnectivity(s, d)
  }

  /** Running a command is calling its service. */
  lemma ApplyDispatches(s: Store, c: Command)
    ensures c.Create? ==> Apply(s, c) == CreateBooking(s, c.person, c.region, c.scheduledFor, c.requirements)
    ensures c.Prepare? ==> Apply(s, c) == PrepareBooking(s, c.person, c.booking, c.expectedFrom, c.to)
    ensures c.Start? ==> Apply(s, c) == StartBookingDispatch(s, c.account, c.person, c.booking, c.key, c.rows, c.world)
    ensures c.SetAvailability? && c.request.status in {Available, FinishingSoon, OnBreak, Offline} ==>
              Apply(s, c) == SetDriverAvailability(s, c.driver, c.actorActive, c.request, c.key, c.world)
    ensures c.SetAvailability? && c.request.status !in {Available, FinishingSoon, OnBreak, Offline} ==>
              Apply(s, c) == Step(s, Refused(InvalidTransition))
    ensures c.ListOffers? ==> Apply(s, c) == ListDriverOffers(s, c.driver, c.now)
    ensures c.Acknowledge? ==> Apply(s, c) == AcknowledgeAssignment(s, c.driver, c.assignment)
    ensures c.Advance? ==> Apply(s, c) == AdvanceJourney(s, c.driver, c.journey, c.evidence)
    ensures c.Decline? ==> Apply(s, c) == DeclineDriverOffer(s, c.driver, c.offer, c.why, c.key, c.now)
    ensures c.Accept? ==> Apply(s, c) == AcceptDriverOffer(s, c.driver, c.actorActive, c.offer, c.key, c.world)
    ensures c.Complete? ==> Apply(s, c) == CompleteJourney(s, c.driver, c.journey, c.evidence)
    ensures c.Terminate? ==> Apply(s, c) == TerminateUnsafeJourney(s, c.account, c.driver, c.journey, c.report, c.key)
    ensures c.FatigueReport? ==> Apply(s, c) == ReportFatigue(s, c.driver, c.passengerAboard)
    ensures c.FatigueClear? ==> Apply(s, c) == ClearFatigue(s, c.driver, c.rested)
    ensures c.Concern? ==> Apply(s, c) == VehicleConcern(s, c.driver, c.vehicle)
    ensures c.Reconcile? ==> Apply(s, c) == ReconcileConnectivity(s, c.driver)
  {
    hide CreateBooking, PrepareBooking, StartBookingDispatch, SetDriverAvailability, ListDriverOffers, DeclineDriverOffer,
      AcceptDriverOffer, AcknowledgeAssignment, AdvanceJourney, CompleteJourney, TerminateUnsafeJourney, ReportFatigue,
      ClearFatigue, VehicleConcern, ReconcileConnectivity;
  }

  function Run(s: Store, commands: seq<Command>): Store
    decreases |commands|
  {
    if commands == [] then s else Apply(Run(s, commands[..|commands| - 1]), commands[|commands| - 1]).store
  }
}
