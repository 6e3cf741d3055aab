/**
 The tables the dispatch protocol reads and writes, the facts it reads from elsewhere,
 and its SQL statements as functions on tables.
 */
module DispatchStore {
  import opened Prelude
  import opened BookingStatus
  import opened DriverDomain

  type AttemptId = nat
  type OfferId = nat
  type Region = string
  type Service = string

  // ---------------------------------------------------------------- requirements

  datatype Json = JBool(b: bool) | JInt(i: int) | JStr(s: string) | JNull | JNested

  /** `===` between two parsed JSON values: two nested values are never the same object. */
  predicate StrictEqual(a: Json, b: Json) {
    a == b && !a.JNested?
  }

  datatype Capability = Scalar(value: Json) | Fields(fields: map<string, Json>)

  datatype Requirement = Requirement(kind: string, value: map<string, Json>)

  predicate MeetsRequirement(r: Requirement, capabilities: map<string, Capability>) {
    r.kind in capabilities &&
    match capabilities[r.kind]
    case Scalar(v) => v == JBool(true)
    case Fields(f) => forall k :: k in r.value ==> k in f && StrictEqual(f[k], r.value[k])
  }

  predicate HardRequirementsMatch(requirements: seq<Requirement>, capabilities: map<string, Capability>) {
    forall r :: r in requirements ==> MeetsRequirement(r, capabilities)
  }

  predicate Contains(s: string, part: string) {
    part <= s || (s != "" && Contains(s[1..], part))
  }

  predicate Mentions(requirements: seq<Requirement>, part: string) {
    exists r :: r in requirements && Contains(Upper(r.kind), part)
  }

  /** The service permissions a booking needs, in alphabetical order. */
  function RequiredServices(requirements: seq<Requirement>): (services: seq<Service>)
    ensures services != []
    ensures "STANDARD" in services ==> services == ["STANDARD"]
  {
    var special :=
      (if Mentions(requirements, "HOSPITAL") then ["HOSPITAL"] else [])
      + (if Mentions(requirements, "SCHOOL") then ["SCHOOL"] else [])
      + (if Mentions(requirements, "SPECIALIST") || Mentions(requirements, "HANDOVER") then ["SPECIALIST"] else [])
      + (if Mentions(requirements, "WAV") || Mentions(requirements, "WHEELCHAIR") then ["WAV"] else []);
    if special == [] then ["STANDARD"] else special
  }

  // ---------------------------------------------------------------- tables

  datatype Booking = Booking(
    booker: PersonId, status: Status, version: nat, region: Region,
    scheduledFor: Option<Time>, requirements: seq<Requirement>)

  datatype AttemptStatus = Searching | Offering | AttemptAssigned | NoneEligible | AttemptCancelled

  datatype Attempt = Attempt(booking: BookingId, status: AttemptStatus)

  datatype Candidate = Candidate(
    driver: DriverId, vehicle: Option<VehicleId>, availabilityVersion: nat, distance: Option<nat>, rank: nat)

  datatype OfferStatus = OfferOpen | OfferAccepted | OfferDeclined | OfferExpired | OfferWithdrawn | OfferLostRace

  datatype DeclineReason = NotSuitable | TakingBreak | FinishingShift | OtherReason

  datatype CloseReason = TtlExpired | WorkIntentChange | BecameIneligible | BookingAssigned | Declining(why: DeclineReason)

  datatype Offer = Offer(
    attempt: AttemptId, booking: BookingId, driver: DriverId, vehicle: Option<VehicleId>,
    status: OfferStatus, reason: Option<CloseReason>, expiresAt: Time, disclosure: Disclosure)

  datatype OutcomeKind = OutAccepted | OutDeclined | OutTimedOut | OutWithdrawn | OutIneligible | OutAssignedElsewhere

  datatype Cause = DriverChoice | SystemCause | DispatchCause

  datatype OutcomeRow = OutcomeRow(
    driver: DriverId, outcome: OutcomeKind, cause: Cause, ordinaryDecline: bool,
    misconduct: bool, acceptancePenalty: bool, priorityPenalty: bool)

  datatype Assignment = Assignment(
    attempt: AttemptId, offer: OfferId, booking: BookingId, driver: DriverId, vehicle: Option<VehicleId>,
    status: AssignmentStatus)

  datatype Availability = Availability(
    status: AvailabilityStatus, version: nat, region: Option<Region>, vehicle: Option<VehicleId>,
    observedAt: Option<Time>, confidence: Option<int>)

  datatype AvailabilityMove = AvailabilityMove(from: AvailabilityStatus, to: AvailabilityStatus, version: nat)

  datatype ShiftEventKind =
    | ShiftStarted | ShiftEnded | OfferTaken | WorkIntentChanged
    | UnsafeTerminationBreak | JourneyCompletedAvailable | RestCompleted

  datatype ShiftEvent = ShiftEvent(kind: ShiftEventKind, from: AvailabilityStatus, to: AvailabilityStatus, version: nat)

  datatype Shift = Shift(active: bool, region: Region, vehicle: VehicleId, startVersion: nat, events: seq<ShiftEvent>)

  datatype JourneyStatus =
    | EnRoute | Arrived | RideCheckPending | RideVerified | UnderWay | NearDestination | JourneyDone

  datatype Journey = Journey(booking: BookingId, assignment: AssignmentId, status: JourneyStatus, legInterrupted: bool)

  datatype CommandType = StartCmd | AvailabilityCmd | DeclineCmd | AcceptCmd

  datatype Reply =
    | Started(booking: BookingId, attempt: AttemptId, found: bool, eligibleCount: nat, offeredCount: nat)
    | AvailabilitySet(driver: DriverId, status: AvailabilityStatus, version: nat)
    | OfferDeclinedReply(offer: OfferId)
    | OfferAcceptedReply(offer: OfferId, assignment: AssignmentId, booking: BookingId, driver: DriverId)
    | Terminated(journey: JourneyId, booking: BookingId)
    | JourneyCompletedReply(journey: JourneyId, booking: BookingId)
    | Done

  datatype Refusal =
    | NotFound | Forbidden | Conflict | InvalidTransition | NotEligible(blockers: seq<EligibilityBlocker>)
    | FatigueFault(fault: FatigueError) | KeyReused

  datatype Outcome = Accepted(reply: Reply) | Refused(why: Refusal)

  /** Dedup subjects: the account for a dispatch start, the driver profile for the driver's own commands. */
  datatype DedupKey = DedupKey(command: CommandType, subject: nat, key: Key)

  datatype SafetyKey = SafetyKey(account: AccountId, journey: JourneyId, key: Key)

  datatype SafetyRecord = SafetyRecord(report: string, reply: Reply)

  datatype Store = Store(
    nextId: nat,
    bookings: map<BookingId, Booking>,
    bookingLog: map<BookingId, seq<Transition>>,
    attempts: map<AttemptId, Attempt>,
    candidates: map<AttemptId, seq<Candidate>>,
    offers: map<OfferId, Offer>,
    outcomes: map<OfferId, seq<OutcomeRow>>,
    assignments: map<AssignmentId, Assignment>,
    availability: map<DriverId, Availability>,
    moves: map<DriverId, seq<AvailabilityMove>>,
    shifts: map<DriverId, seq<Shift>>,
    journeys: map<JourneyId, Journey>,
    dedup: map<DedupKey, Reply>,
    safetyDedup: map<SafetyKey, SafetyRecord>)

  const EMPTY: Store :=
    Store(0, map[], map[], map[], map[], map[], map[], map[], map[], map[], map[], map[], map[], map[])

  // ---------------------------------------------------------------- facts read from elsewhere

  datatype Snapshot = Snapshot(status: EligibilityStatus, validUntil: Time)

  datatype DriverRecord = DriverRecord(
    approved: bool, accountActive: bool, compliance: Option<Snapshot>, fatigue: FatigueEvidence)

  datatype MaintenanceGate = MaintenanceGate(operatingPermitted: bool, restricted: set<Service>)

  datatype VehicleRecord = VehicleRecord(
    eligibility: Option<Snapshot>, capabilities: map<string, Capability>, gate: Option<MaintenanceGate>)

  datatype RestrictionScope = AllServices | NewJourneys | SpecificVehicle | SchoolOnly | WavOnly | OtherScope

  datatype Restriction = Restriction(
    driver: DriverId, active: bool, scope: RestrictionScope, vehicle: Option<VehicleId>,
    from: Time, until: Option<Time>)

  datatype Permission = Permission(driver: DriverId, region: Region, service: Service)

  datatype Commitment = Commitment(driver: DriverId, booking: BookingId, accepted: bool, from: Time, until: Time)

  datatype EarningFixture = EarningFixture(etaMinutes: int, amount: int, currency: string)

  datatype Config = Config(
    minimumConfidence: int, maxAgeSeconds: int, waveSize: int, ttlSeconds: int,
    fatigue: FatiguePolicy, fixture: Option<EarningFixture>)

  /** One reading of the clock and of every table this protocol only reads. */
  datatype World = World(
    now: Time,
    config: Config,
    drivers: map<DriverId, DriverRecord>,
    vehicles: map<VehicleId, VehicleRecord>,
    authorised: set<(DriverId, VehicleId)>,
    permissions: set<Permission>,
    restrictions: set<Restriction>,
    commitments: set<Commitment>)

  predicate RestrictionCurrent(r: Restriction, d: DriverId, now: Time) {
    r.driver == d && r.active && r.from <= now && (r.until.None? || r.until.value > now)
  }

  predicate MaintenancePermits(gate: Option<MaintenanceGate>, services: seq<Service>) {
    gate.Some? && gate.value.operatingPermitted && forall c :: c in services ==> c !in gate.value.restricted
  }

  predicate HasActiveAssignment(assignments: map<AssignmentId, Assignment>, d: DriverId) {
    exists a :: a in assignments && assignments[a].driver == d && assignments[a].status == Active
  }

  predicate OperatingRestricted(w: World, d: DriverId, vehicle: Option<VehicleId>, services: seq<Service>) {
    exists r :: r in w.restrictions && RestrictionCurrent(r, d, w.now) &&
      (r.scope in {AllServices, NewJourneys}
       || (r.scope == SpecificVehicle && r.vehicle.Some? && vehicle.Some? && r.vehicle == vehicle)
       || (r.scope == SchoolOnly && "SCHOOL" in services)
       || (r.scope == WavOnly && "WAV" in services))
  }

  function FatiguePassed(e: FatigueEvidence, w: World): Result<bool, FatigueError> {
    match EvaluateFatigue(e, w.config.fatigue, w.now, false)
    case Success(d) => Success(d.newOffersAllowed && d.newJourneyStartAllowed)
    case Failure(f) => Failure(f)
  }

  function VehicleOf(w: World, vehicle: Option<VehicleId>): VehicleRecord {
    if vehicle.Some? && vehicle.value in w.vehicles then w.vehicles[vehicle.value]
    else VehicleRecord(None, map[], None)
  }

  function StatusOf(s: Option<Snapshot>): Option<EligibilityStatus> {
    if s.Some? then Some(s.value.status) else None
  }

  function ValidityOf(s: Option<Snapshot>): Option<Time> {
    if s.Some? then Some(s.value.validUntil) else None
  }

  // ---------------------------------------------------------------- the candidate query

  datatype CandidateRow = CandidateRow(driver: DriverId, distance: Option<nat>)

  /** What the wave filter is told about a candidate of `booking`, read in the dispatch query. */
  function CandidateInput(s: Store, w: World, d: DriverId, bookingId: BookingId, booking: Booking)
    : Result<EligibilityInput, FatigueError>
    requires d in s.availability && d in w.drivers
  {
    var av := s.availability[d];
    var driver := w.drivers[d];
    var services := RequiredServices(booking.requirements);
    var vehicle := VehicleOf(w, av.vehicle);
    match FatiguePassed(driver.fatigue, w)
    case Failure(f) => Failure(f)
    case Success(rested) =>
      Success(EligibilityInput(
        driver.accountActive,
        driver.approved,
        StatusOf(driver.compliance),
        ValidityOf(driver.compliance),
        av.vehicle.Some? && (d, av.vehicle.value) in w.authorised,
        if MaintenancePermits(vehicle.gate, services) then StatusOf(vehicle.eligibility) else Some(Ineligible),
        ValidityOf(vehicle.eligibility),
        forall c :: c in services ==> Permission(d, booking.region, c) in w.permissions,
        OperatingRestricted(w, d, av.vehicle, services),
        av.status,
        av.observedAt,
        av.confidence,
        w.config.minimumConfidence,
        w.config.maxAgeSeconds,
        HasActiveAssignment(s.assignments, d),
        exists c :: c in w.commitments && c.driver == d && c.accepted && c.booking != bookingId
                    && c.from <= booking.scheduledFor.GetOr(w.now) <= c.until,
        rested,
        HardRequirementsMatch(booking.requirements, vehicle.capabilities)))
  }

  /** The rows the dispatch query may range over for a booking in `region`. */
  predicate InPool(s: Store, w: World, region: Region, d: DriverId) {
    && d in s.availability && d in w.drivers
    && s.availability[d].region == Some(region)
    && s.availability[d].status in {Available, FinishingSoon}
    && s.availability[d].observedAt.Some?
  }

  predicate Nearer(a: Option<nat>, b: Option<nat>) {
    a.Some? && (b.None? || a.value < b.value)
  }

  const QUERY_LIMIT: nat := 200

  /** The query answer: distinct pool drivers at their distances, nearest first with unknown distances last,
      cut at the limit only when every row kept is at least as near as every row dropped. */
  predicate IsCandidateQuery(s: Store, w: World, region: Region, distance: map<DriverId, Option<nat>>, rows: seq<CandidateRow>) {
    && |rows| <= QUERY_LIMIT
    && (forall i :: 0 <= i < |rows| ==>
          && InPool(s, w, region, rows[i].driver)
          && rows[i].driver in distance && rows[i].distance == distance[rows[i].driver])
    && (forall i, j :: 0 <= i < j < |rows| ==> rows[i].driver != rows[j].driver)
    && (forall i, j :: 0 <= i < j < |rows| ==> !Nearer(rows[j].distance, rows[i].distance))
    && (forall d :: d in distance && InPool(s, w, region, d) && (forall i :: 0 <= i < |rows| ==> rows[i].driver != d) ==>
          |rows| == QUERY_LIMIT && forall i :: 0 <= i < |rows| ==> !Nearer(distance[d], rows[i].distance))
  }

  predicate RowFaulty(s: Store, w: World, bookingId: BookingId, booking: Booking, row: CandidateRow) {
    row.driver in s.availability && row.driver in w.drivers
    && CandidateInput(s, w, row.driver, bookingId, booking).Failure?
  }

  predicate RowEligible(s: Store, w: World, bookingId: BookingId, booking: Booking, row: CandidateRow) {
    row.driver in s.availability && row.driver in w.drivers
    && CandidateInput(s, w, row.driver, bookingId, booking).Success?
    && IsEligible(CandidateInput(s, w, row.driver, bookingId, booking).value, w.now)
  }

  // ---------------------------------------------------------------- the accept-time recheck

  /** What `readDriverEligibility` reads for one driver; `services` empty asks for any permission in the region. */
  function DriverInput(s: Store, w: World, d: DriverId, actorActive: bool, vehicleId: Option<VehicleId>,
                       region: Option<Region>, requirements: seq<Requirement>, services: seq<Service>,
                       serviceAt: Option<Time>, excluded: Option<BookingId>)
    : Result<EligibilityInput, FatigueError>
    requires d in w.drivers
  {
    var driver := w.drivers[d];
    var vehicle := VehicleOf(w, vehicleId);
    match FatiguePassed(driver.fatigue, w)
    case Failure(f) => Failure(f)
    case Success(rested) =>
      Success(EligibilityInput(
        actorActive,
        driver.approved,
        StatusOf(driver.compliance),
        ValidityOf(driver.compliance),
        vehicleId.Some? && (d, vehicleId.value) in w.authorised,
        if MaintenancePermits(vehicle.gate, services) then StatusOf(vehicle.eligibility) else Some(Ineligible),
        ValidityOf(vehicle.eligibility),
        region.Some? &&
          (if services == [] then AnyPermission(w, d, region.value)
           else forall c :: c in services ==> Permission(d, region.value, c) in w.permissions),
        OperatingRestricted(w, d, vehicleId, services),
        if d in s.availability then s.availability[d].status else Offline,
        if d in s.availability then s.availability[d].observedAt else None,
        if d in s.availability then s.availability[d].confidence else None,
        w.config.minimumConfidence,
        w.config.maxAgeSeconds,
        HasActiveAssignment(s.assignments, d),
        serviceAt.Some? &&
          exists c :: c in w.commitments && c.driver == d && c.accepted
                      && (excluded.None? || c.booking != excluded.value)
                      && c.from <= serviceAt.value <= c.until,
        rested,
        HardRequirementsMatch(requirements, vehicle.capabilities)))
  }

  predicate AnyPermission(w: World, d: DriverId, region: Region) {
    exists p :: p in w.permissions && p.driver == d && p.region == region &&
      !exists r :: r in w.restrictions && RestrictionCurrent(r, d, w.now) &&
        ((r.scope == SchoolOnly && Contains(p.service, "SCHOOL")) || (r.scope == WavOnly && Contains(p.service, "WAV")))
  }

  function RecheckInput(s: Store, w: World, d: DriverId, actorActive: bool, offer: Offer, bookingId: BookingId, booking: Booking)
    : Result<EligibilityInput, FatigueError>
    requires d in w.drivers
  {
    DriverInput(s, w, d, actorActive, offer.vehicle, Some(booking.region), booking.requirements,
                RequiredServices(booking.requirements), Some(booking.scheduledFor.GetOr(w.now)), Some(bookingId))
  }

  // ---------------------------------------------------------------- statements on offers

  function OpenOffersOf(offers: map<OfferId, Offer>, d: DriverId): set<OfferId> {
    set o | o in offers && offers[o].driver == d && offers[o].status == OfferOpen
  }

  function DueOffersOf(offers: map<OfferId, Offer>, d: DriverId, now: Time): set<OfferId> {
    set o | o in offers && offers[o].driver == d && offers[o].status == OfferOpen && offers[o].expiresAt <= now
  }

  function OpenRivals(offers: map<OfferId, Offer>, t: AttemptId, winner: OfferId): set<OfferId> {
    set o | o in offers && offers[o].attempt == t && o != winner && offers[o].status == OfferOpen
  }

  function WithdrawnForAssignment(offers: map<OfferId, Offer>, t: AttemptId, winner: OfferId): set<OfferId> {
    set o | o in offers && offers[o].attempt == t && o != winner
            && offers[o].status == OfferWithdrawn && offers[o].reason == Some(BookingAssigned)
  }

  /** UPDATE driver_offer SET status, response_reason WHERE id IN `chosen`. */
  function CloseOffers(offers: map<OfferId, Offer>, chosen: set<OfferId>, status: OfferStatus, reason: Option<CloseReason>)
    : (closed: map<OfferId, Offer>)
    ensures closed.Keys == offers.Keys
    ensures forall o :: o in offers ==>
              closed[o] == if o in chosen then offers[o].(status := status, reason := reason) else offers[o]
  {
    map o | o in offers :: if o in chosen then offers[o].(status := status, reason := reason) else offers[o]
  }

  function Attribution(driver: DriverId, outcome: OutcomeKind, cause: Cause): OutcomeRow {
    OutcomeRow(driver, outcome, cause, outcome == OutDeclined, false, false, false)
  }

  /** INSERT ... SELECT ... ON CONFLICT (driver_offer_id) DO NOTHING. */
  function AttributeNew(outcomes: map<OfferId, seq<OutcomeRow>>, offers: map<OfferId, Offer>, chosen: set<OfferId>,
                        outcome: OutcomeKind, cause: Cause): (after: map<OfferId, seq<OutcomeRow>>)
    requires chosen <= offers.Keys
    ensures forall o :: Rows(after, o) ==
              if o in chosen && Rows(outcomes, o) == [] then [Attribution(offers[o].driver, outcome, cause)]
              else Rows(outcomes, o)
  {
    map o | o in outcomes.Keys + chosen ::
      if o in chosen && Rows(outcomes, o) == [] then [Attribution(offers[o].driver, outcome, cause)]
      else Rows(outcomes, o)
  }

  // ---------------------------------------------------------------- statements on shifts

  function ActiveShiftFrom(shifts: seq<Shift>, i: nat): Option<nat>
    requires i <= |shifts|
    ensures ActiveShiftFrom(shifts, i).Some? ==>
              i <= ActiveShiftFrom(shifts, i).value < |shifts| && shifts[ActiveShiftFrom(shifts, i).value].active
    ensures ActiveShiftFrom(shifts, i).None? <==> forall k :: i <= k < |shifts| ==> !shifts[k].active
    decreases |shifts| - i
  {
    if i == |shifts| then None
    else if shifts[i].active then Some(i)
    else ActiveShiftFrom(shifts, i + 1)
  }

  /** The driver's ACTIVE shift, by position. */
  function ActiveShift(shifts: seq<Shift>): (r: Option<nat>)
    ensures r.Some? ==> r.value < |shifts| && shifts[r.value].active
    ensures r.None? <==> forall k :: 0 <= k < |shifts| ==> !shifts[k].active
  {
    ActiveShiftFrom(shifts, 0)
  }

  function LogShiftEvent(shifts: seq<Shift>, i: nat, event: ShiftEvent): seq<Shift>
    requires i < |shifts|
  {
    shifts[i := shifts[i].(events := shifts[i].events + [event])]
  }

  /** recordDriverShiftAvailabilityEvent: opens, continues or ends the driver's shift; None is its one error. */
  function RecordShift(shifts: seq<Shift>, from: AvailabilityStatus, to: AvailabilityStatus, version: nat,
                       region: Option<Region>, vehicle: Option<VehicleId>): Option<seq<Shift>>
  {
    var active := ActiveShift(shifts);
    if active.None? && to != Offline then
      if region.None? || vehicle.None? then None
      else Some(shifts + [Shift(true, region.value, vehicle.value, version, [ShiftEvent(ShiftStarted, from, to, version)])])
    else if active.None? then Some(shifts)
    else
      var kind := if to == Offline then ShiftEnded else if to == Assigned then OfferTaken else WorkIntentChanged;
      var logged := LogShiftEvent(shifts, active.value, ShiftEvent(kind, from, to, version));
      Some(if to == Offline then logged[active.value := logged[active.value].(active := false)] else logged)
  }

  // ---------------------------------------------------------------- statements on bookings

  /** The status, version and log row one booking transition writes. */
  function MoveBooking(s: Store, b: BookingId, to: Status): (r: Store)
    requires b in s.bookings
    ensures r == s.(bookings := r.bookings, bookingLog := r.bookingLog)
  {
    var before := s.bookings[b];
    s.(bookings := s.bookings[b := before.(status := to, version := before.version + 1)],
       bookingLog := AppendRow(s.bookingLog, b, Transition(Some(before.status), to, before.version + 1)))
  }

  function AvailabilityIn(availability: map<DriverId, Availability>, d: DriverId): Availability {
    if d in availability then availability[d] else Availability(Offline, 0, None, None, None, None)
  }

  /** The status, version and log row one logged availability move writes. */
  function MoveDriver(s: Store, d: DriverId, after: Availability, from: AvailabilityStatus): (r: Store)
    ensures r == s.(availability := r.availability, moves := r.moves)
  {
    s.(availability := s.availability[d := after],
       moves := AppendRow(s.moves, d, AvailabilityMove(from, after.status, after.version)))
  }
}
