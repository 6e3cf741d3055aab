/**
 What no command undoes: rows are never deleted, logs only grow, identities and closed records stay as they are.
 Exactly-once replay and "closed offers never reopen" follow over whole runs.
 */
module DispatchHistory {
  import opened Prelude
  import opened BookingStatus
  import opened DriverDomain
  import opened DispatchStore
  import opened DispatchProtocol
  import opened DispatchInvariants
  import opened DispatchAcceptance
  import opened DispatchRuns

  ghost predicate RepliesKept(s: map<DedupKey, Reply>, r: map<DedupKey, Reply>) {
    forall k :: k in s ==> k in r && r[k] == s[k]
  }

  ghost predicate ReportsKept(s: map<SafetyKey, SafetyRecord>, r: map<SafetyKey, SafetyRecord>) {
    forall k :: k in s ==> k in r && r[k] == s[k]
  }

  /** A booking keeps everything but its status and version. */
  ghost predicate BookingsKept(s: map<BookingId, Booking>, r: map<BookingId, Booking>) {
    forall b :: b in s ==> b in r && r[b] == s[b].(status := r[b].status, version := r[b].version)
  }

  ghost predicate BookingLogGrows(s: map<BookingId, seq<Transition>>, r: map<BookingId, seq<Transition>>) {
    forall b :: Rows(s, b) <= Rows(r, b)
  }

  /** An offer keeps everything but its status and reason, and a closed offer keeps those too. */
  ghost predicate OffersKept(s: map<OfferId, Offer>, r: map<OfferId, Offer>) {
    forall o :: o in s ==>
      && o in r && r[o] == s[o].(status := r[o].status, reason := r[o].reason)
      && (s[o].status != OfferOpen ==> r[o] == s[o])
  }

  /** Offers with an outcome keep exactly that outcome. */
  ghost predicate OutcomesKept(s: map<OfferId, seq<OutcomeRow>>, r: map<OfferId, seq<OutcomeRow>>) {
    forall o :: Rows(s, o) != [] ==> Rows(r, o) == Rows(s, o)
  }

  /** An assignment keeps everything but its status, and one that has ended stays as it ended. */
  ghost predicate AssignmentsKept(s: map<AssignmentId, Assignment>, r: map<AssignmentId, Assignment>) {
    forall a :: a in s ==>
      && a in r && r[a] == s[a].(status := r[a].status)
      && (s[a].status != Active ==> r[a] == s[a])
  }

  /** A journey stays on its booking and assignment, and one whose assignment has ended stays as it is. */
  ghost predicate JourneysKept(assignments: map<AssignmentId, Assignment>, s: map<JourneyId, Journey>, r: map<JourneyId, Journey>) {
    forall j :: j in s ==>
      && j in r && r[j].booking == s[j].booking && r[j].assignment == s[j].assignment
      && (s[j].assignment in assignments && assignments[s[j].assignment].status != Active ==> r[j] == s[j])
  }

  ghost predicate MovesGrow(s: map<DriverId, seq<AvailabilityMove>>, r: map<DriverId, seq<AvailabilityMove>>) {
    forall d :: Rows(s, d) <= Rows(r, d)
  }

  ghost predicate VersionsGrow(s: map<DriverId, Availability>, r: map<DriverId, Availability>) {
    forall d :: d in s ==> d in r && s[d].version <= r[d].version
  }

  ghost predicate Grows(s: Store, r: Store) {
    && RepliesKept(s.dedup, r.dedup) && ReportsKept(s.safetyDedup, r.safetyDedup)
    && BookingsKept(s.bookings, r.bookings) && BookingLogGrows(s.bookingLog, r.bookingLog)
    && OffersKept(s.offers, r.offers) && OutcomesKept(s.outcomes, r.outcomes)
    && AssignmentsKept(s.assignments, r.assignments) && JourneysKept(s.assignments, s.journeys, r.journeys)
    && MovesGrow(s.moves, r.moves) && VersionsGrow(s.availability, r.availability)
  }

  lemma GrowsReflexive(s: Store)
    ensures Grows(s, s)
  {
  }

  lemma GrowsTransitive(s: Store, t: Store, r: Store)
    requires Grows(s, t) && Grows(t, r)
    ensures Grows(s, r)
  {
  }

  // ---------------------------------------------------------------- table by table

  lemma ReplyAdded(replies: map<DedupKey, Reply>, k: DedupKey, reply: Reply)
    requires k !in replies
    ensures RepliesKept(replies, replies[k := reply])
  {
  }

  lemma BookingMoveKept(s: Store, b: BookingId, to: Status)
    requires b in s.bookings
    ensures var r := MoveBooking(s, b, to); BookingsKept(s.bookings, r.bookings) && BookingLogGrows(s.bookingLog, r.bookingLog)
  {
  }

  lemma DriverMoveKept(s: Store, d: DriverId, after: Availability, from: AvailabilityStatus)
    requires after.version >= CurrentAvailability(s, d).version
    ensures var r := MoveDriver(s, d, after, from); MovesGrow(s.moves, r.moves) && VersionsGrow(s.availability, r.availability)
  {
  }

  lemma ClosingKept(offers: map<OfferId, Offer>, chosen: set<OfferId>, status: OfferStatus, reason: Option<CloseReason>)
    requires forall o :: o in chosen && o in offers ==> offers[o].status == OfferOpen
    ensures OffersKept(offers, CloseOffers(offers, chosen, status, reason))
  {
  }

  lemma AttributionKept(outcomes: map<OfferId, seq<OutcomeRow>>, offers: map<OfferId, Offer>, chosen: set<OfferId>,
                        outcome: OutcomeKind, cause: Cause)
    requires chosen <= offers.Keys
    ensures OutcomesKept(outcomes, AttributeNew(outcomes, offers, chosen, outcome, cause))
  {
  }

  lemma OpenOfferUnattributed(attempts: map<AttemptId, Attempt>, offers: map<OfferId, Offer>, outcomes: map<OfferId, seq<OutcomeRow>>, o: OfferId)
    requires OutcomesFit(attempts, offers, outcomes) && o in offers && offers[o].status == OfferOpen
    ensures Rows(outcomes, o) == []
  {
  }

  // ---------------------------------------------------------------- command by command

  lemma CreateGrows(s: Store, person: PersonId, region: Region, scheduledFor: Option<Time>, requirements: seq<Requirement>)
    requires Inv(s)
    ensures Grows(s, CreateBooking(s, person, region, scheduledFor, requirements).store)
  {
    hide BookingSide, OfferSide, DriverSide, RepliesKept, ReportsKept, OffersKept, OutcomesKept, AssignmentsKept, JourneysKept, MovesGrow, VersionsGrow;
    GrowsReflexive(s);
  }

  lemma PrepareGrows(s: Store, person: PersonId, b: BookingId, expectedFrom: Status, to: Status)
    ensures Grows(s, PrepareBooking(s, person, b, expectedFrom, to).store)
  {
    hide RepliesKept, ReportsKept, BookingsKept, BookingLogGrows, OffersKept, OutcomesKept, AssignmentsKept, JourneysKept, MovesGrow, VersionsGrow;
    GrowsReflexive(s);
    if b in s.bookings { BookingMoveKept(s, b, to); }
  }

  lemma WaveGrows(s: Store, w: World, b: BookingId, eligible: seq<CandidateRow>)
    requires IdsIssued(s) && b in s.bookings
    ensures Grows(s, WithWave(s, w, b, eligible))
  {
    hide RepliesKept, ReportsKept, BookingsKept, BookingLogGrows, OutcomesKept, AssignmentsKept, JourneysKept, MovesGrow, VersionsGrow;
    hide WaveOffer, WaveCandidate, MoveBooking;
    GrowsReflexive(s);
    BookingMoveKept(s, b, SearchingForDriver);
  }

  lemma WithoutDriverGrows(s: Store, b: BookingId)
    requires b in s.bookings
    ensures Grows(s, WithoutDriver(s, b))
  {
    hide RepliesKept, ReportsKept, BookingsKept, BookingLogGrows, OffersKept, OutcomesKept, AssignmentsKept, JourneysKept, MovesGrow, VersionsGrow;
    var searching := MoveBooking(s, b, SearchingForDriver);
    GrowsReflexive(s);
    BookingMoveKept(s, b, SearchingForDriver);
    BookingMoveKept(searching, b, NoEligibleDriver);
    GrowsReflexive(searching);
    assert Grows(s, searching);
    GrowsTransitive(s, searching, MoveBooking(searching, b, NoEligibleDriver));
  }

  lemma StartGrows(s: Store, account: AccountId, person: PersonId, b: BookingId, key: Key, rows: seq<CandidateRow>, w: World)
    requires IdsIssued(s)
    ensures Grows(s, StartBookingDispatch(s, account, person, b, key, rows, w).store)
  {
    hide IdsIssued, WithWave, WithoutDriver, EligibleRows, FirstFault;
    hide RepliesKept, ReportsKept, BookingsKept, BookingLogGrows, OffersKept, OutcomesKept, AssignmentsKept, JourneysKept, MovesGrow, VersionsGrow;
    GrowsReflexive(s);
    var r := StartBookingDispatch(s, account, person, b, key, rows, w).store;
    if r != s {
      WaveGrows(s, w, b, EligibleRows(s, w, b, rows));
      WithoutDriverGrows(s, b);
      ReplyAdded(s.dedup, DedupKey(StartCmd, account, key), StartBookingDispatch(s, account, person, b, key, rows, w).outcome.reply);
    }
  }

  lemma BreakWithdrawalGrows(s: Store, d: DriverId)
    ensures Grows(s, WithdrawForBreak(s, d))
  {
    hide CloseOffers, AttributeNew;
    hide RepliesKept, ReportsKept, BookingsKept, BookingLogGrows, OffersKept, OutcomesKept, AssignmentsKept, JourneysKept, MovesGrow, VersionsGrow;
    GrowsReflexive(s);
    ClosingKept(s.offers, OpenOffersOf(s.offers, d), OfferWithdrawn, Some(WorkIntentChange));
    AttributionKept(s.outcomes, s.offers, OpenOffersOf(s.offers, d), OutWithdrawn, DriverChoice);
  }

  lemma ShiftedMoveGrows(s: Store, d: DriverId, after: Availability, from: AvailabilityStatus, shifts: map<DriverId, seq<Shift>>)
    requires after.version >= CurrentAvailability(s, d).version
    ensures Grows(s, MoveDriver(s, d, after, from).(shifts := shifts))
  {
    hide RepliesKept, ReportsKept, BookingsKept, BookingLogGrows, OffersKept, OutcomesKept, AssignmentsKept, JourneysKept, MovesGrow, VersionsGrow;
    GrowsReflexive(s);
    DriverMoveKept(s, d, after, from);
  }

  lemma AvailabilityCommitGrows(s: Store, d: DriverId, after: Availability)
    requires after.version >= CurrentAvailability(s, d).version
    ensures AvailabilityCommit(s, d, after).Some? ==>
              Grows(s, AvailabilityCommit(s, d, after).value) && AvailabilityCommit(s, d, after).value.dedup == s.dedup
  {
    hide RecordShift, MoveDriver, WithdrawForBreak, Grows;
    var from := FromStatus(s, d);
    var shifts := RecordShift(Rows(s.shifts, d), from, after.status, after.version, after.region, after.vehicle);
    if shifts.Some? {
      var moved := MoveDriver(s, d, after, from).(shifts := s.shifts[d := shifts.value]);
      ShiftedMoveGrows(s, d, after, from, s.shifts[d := shifts.value]);
      BreakWithdrawalGrows(moved, d);
      GrowsTransitive(s, moved, WithdrawForBreak(moved, d));
    }
  }

  lemma SetAvailabilityGrows(s: Store, d: DriverId, actorActive: bool, request: AvailabilityRequest, key: Key, w: World)
    requires request.status in {Available, FinishingSoon, OnBreak, Offline}
    ensures Grows(s, SetDriverAvailability(s, d, actorActive, request, key, w).store)
  {
    hide DriverInput, PreShiftBlockers, AvailabilityCommit;
    hide RepliesKept, ReportsKept, BookingsKept, BookingLogGrows, OffersKept, OutcomesKept, AssignmentsKept, JourneysKept, MovesGrow, VersionsGrow;
    GrowsReflexive(s);
    var r := SetDriverAvailability(s, d, actorActive, request, key, w).store;
    if r != s {
      var after := NextAvailability(s, d, request);
      AvailabilityCommitGrows(s, d, after);
      ReplyAdded(s.dedup, DedupKey(AvailabilityCmd, d, key), AvailabilitySet(d, after.status, after.version));
    }
  }

  lemma ListOffersGrows(s: Store, d: DriverId, now: Time)
    ensures Grows(s, ListDriverOffers(s, d, now).store)
  {
    hide RepliesKept, ReportsKept, BookingsKept, BookingLogGrows, OffersKept, OutcomesKept, AssignmentsKept, JourneysKept, MovesGrow, VersionsGrow;
    GrowsReflexive(s);
    ClosingKept(s.offers, DueOffersOf(s.offers, d, now), OfferExpired, Some(TtlExpired));
    AttributionKept(s.outcomes, s.offers, DueOffersOf(s.offers, d, now), OutTimedOut, DriverChoice);
  }

  lemma CloseOneGrows(s: Store, o: OfferId, status: OfferStatus, reason: Option<CloseReason>, row: OutcomeRow)
    requires OfferSide(s.attempts, s.offers, s.assignments, s.outcomes) && o in s.offers && s.offers[o].status == OfferOpen
    ensures Grows(s, CloseOne(s, o, status, reason, row))
  {
    hide OffersFit, AssignmentsFit, OutcomesFit;
    hide RepliesKept, ReportsKept, BookingsKept, BookingLogGrows, AssignmentsKept, JourneysKept, MovesGrow, VersionsGrow;
    GrowsReflexive(s);
    OpenOfferUnattributed(s.attempts, s.offers, s.outcomes, o);
  }

  lemma DeclineGrows(s: Store, d: DriverId, o: OfferId, why: DeclineReason, key: Key, now: Time)
    requires OfferSide(s.attempts, s.offers, s.assignments, s.outcomes)
    ensures Grows(s, DeclineDriverOffer(s, d, o, why, key, now).store)
  {
    hide OfferSide, CloseOne;
    hide RepliesKept, ReportsKept, BookingsKept, BookingLogGrows, OffersKept, OutcomesKept, AssignmentsKept, JourneysKept, MovesGrow, VersionsGrow;
    GrowsReflexive(s);
    var r := DeclineDriverOffer(s, d, o, why, key, now).store;
    if r != s {
      CloseOneGrows(s, o, OfferDeclined, Some(Declining(why)), Attribution(d, OutDeclined, DriverChoice));
      ReplyAdded(s.dedup, DedupKey(DeclineCmd, d, key), OfferDeclinedReply(o));
    }
  }

  // ---------------------------------------------------------------- accepting

  lemma WinningKept(attempts: map<AttemptId, Attempt>, offers: map<OfferId, Offer>, outcomes: map<OfferId, seq<OutcomeRow>>, o: OfferId)
    requires OutcomesFit(attempts, offers, outcomes) && o in offers && offers[o].status == OfferOpen
    ensures OffersKept(offers, WonOffers(offers, o)) && OutcomesKept(outcomes, WonOutcomes(offers, outcomes, o))
  {
    OpenOfferUnattributed(attempts, offers, outcomes, o);
  }

  lemma AcceptCommitGrows(s: Store, d: DriverId, o: OfferId)
    requires OfferSide(s.attempts, s.offers, s.assignments, s.outcomes) && s.nextId !in s.assignments
    requires o in s.offers && s.offers[o].status == OfferOpen && s.offers[o].booking in s.bookings && s.offers[o].driver == d
    ensures AcceptCommit(s, d, o).Some? ==> Grows(s, AcceptCommit(s, d, o).value)
  {
    hide OffersFit, AssignmentsFit, OutcomesFit, ShiftsOnAccept, WonOffers, WonOutcomes, MoveBooking, MoveDriver;
    hide RepliesKept, ReportsKept, BookingsKept, BookingLogGrows, OffersKept, OutcomesKept, JourneysKept, MovesGrow, VersionsGrow;
    GrowsReflexive(s);
    if AcceptCommit(s, d, o).Some? {
      WinningKept(s.attempts, s.offers, s.outcomes, o);
      AcceptCommitMoves(s, d, o);
    }
  }

  lemma AcceptCommitMoves(s: Store, d: DriverId, o: OfferId)
    requires o in s.offers && s.offers[o].booking in s.bookings && s.offers[o].driver == d && AcceptCommit(s, d, o).Some?
    ensures var r := AcceptCommit(s, d, o).value;
            && BookingsKept(s.bookings, r.bookings) && BookingLogGrows(s.bookingLog, r.bookingLog)
            && MovesGrow(s.moves, r.moves) && VersionsGrow(s.availability, r.availability)
  {
    hide AcceptCommit, MoveBooking, BookingsKept, BookingLogGrows, MovesGrow, VersionsGrow;
    AcceptCommitTables(s, d, o);
    AcceptCommitDriver(s, d, o);
    BookingMoveKept(s, s.offers[o].booking, DriverAssigned);
    DriverMoveKept(s, d, Promoted(s.availability[d]), s.availability[d].status);
  }

  lemma ExpiryGrows(s: Store, o: OfferId)
    requires o in s.offers && s.offers[o].status == OfferOpen
    ensures Grows(s, s.(offers := s.offers[o := s.offers[o].(status := OfferExpired, reason := Some(TtlExpired))],
                        outcomes := AttributeNew(s.outcomes, s.offers, {o}, OutTimedOut, DriverChoice)))
  {
    hide RepliesKept, ReportsKept, BookingsKept, BookingLogGrows, OutcomesKept, AssignmentsKept, JourneysKept, MovesGrow, VersionsGrow, AttributeNew;
    GrowsReflexive(s);
    AttributionKept(s.outcomes, s.offers, {o}, OutTimedOut, DriverChoice);
  }

  lemma AcceptanceGrows(s: Store, d: DriverId, o: OfferId, key: Key, r: Store)
    requires Inv(s) && o in s.offers && s.offers[o].booking in s.bookings && s.offers[o].status == OfferOpen && s.offers[o].driver == d
    requires AcceptCommit(s, d, o).Some? && DedupKey(AcceptCmd, d, key) !in s.dedup
    requires r == AcceptCommit(s, d, o).value.(dedup := s.dedup[DedupKey(AcceptCmd, d, key) := OfferAcceptedReply(o, s.nextId, s.offers[o].booking, d)])
    ensures Grows(s, r)
  {
    hide BookingSide, OfferSide, DriverSide, AcceptCommit;
    hide RepliesKept, ReportsKept, BookingsKept, BookingLogGrows, OffersKept, OutcomesKept, AssignmentsKept, JourneysKept, MovesGrow, VersionsGrow;
    AcceptCommitGrows(s, d, o);
    ReplyAdded(s.dedup, DedupKey(AcceptCmd, d, key), OfferAcceptedReply(o, s.nextId, s.offers[o].booking, d));
  }

  lemma AcceptGrows(s: Store, d: DriverId, actorActive: bool, o: OfferId, key: Key, w: World)
    requires Inv(s)
    ensures Grows(s, AcceptDriverOffer(s, d, actorActive, o, key, w).store)
  {
    hide Inv, AcceptCommit, RecheckInput, IsEligible, Blockers, AcceptanceAllowed, AttributeNew, CloseOne, Grows;
    GrowsReflexive(s);
    var r := AcceptDriverOffer(s, d, actorActive, o, key, w).store;
    if r != s {
      ExpiryGrows(s, o);
      OfferSideOf(s);
      CloseOneGrows(s, o, OfferWithdrawn, Some(BecameIneligible), Attribution(d, OutIneligible, SystemCause));
      if s.offers[o].booking in s.bookings && AcceptCommit(s, d, o).Some? { CommittedGrows(s, d, o, key); }
    }
  }

  lemma CommittedGrows(s: Store, d: DriverId, o: OfferId, key: Key)
    requires Inv(s) && o in s.offers && s.offers[o].booking in s.bookings && s.offers[o].status == OfferOpen && s.offers[o].driver == d
    requires AcceptCommit(s, d, o).Some? && DedupKey(AcceptCmd, d, key) !in s.dedup
    ensures Grows(s, AcceptCommit(s, d, o).value.(
                       dedup := s.dedup[DedupKey(AcceptCmd, d, key) := OfferAcceptedReply(o, s.nextId, s.offers[o].booking, d)]))
  {
    hide Inv, AcceptCommit, Grows;
    AcceptCommitTables(s, d, o);
    AcceptanceGrows(s, d, o, key, AcceptCommit(s, d, o).value.(
      dedup := s.dedup[DedupKey(AcceptCmd, d, key) := OfferAcceptedReply(o, s.nextId, s.offers[o].booking, d)]));
  }

  lemma OfferSideOf(s: Store)
    requires Inv(s)
    ensures OfferSide(s.attempts, s.offers, s.assignments, s.outcomes)
  {
    hide IdsIssued, BookingSide, OfferSide, DriverSide;
  }

  // ---------------------------------------------------------------- journeys and other availability writers

  lemma AcknowledgeGrows(s: Store, d: DriverId, a: AssignmentId)
    requires IdsIssued(s)
    ensures Grows(s, AcknowledgeAssignment(s, d, a).store)
  {
    hide RepliesKept, ReportsKept, BookingsKept, BookingLogGrows, OffersKept, OutcomesKept, AssignmentsKept, MovesGrow, VersionsGrow;
    GrowsReflexive(s);
    if AcknowledgeAssignment(s, d, a).store != s { BookingMoveKept(s, s.assignments[a].booking, DriverEnRoute); }
  }

  lemma AdvanceGrows(s: Store, d: DriverId, j: JourneyId, evidence: bool)
    ensures Grows(s, AdvanceJourney(s, d, j, evidence).store)
  {
    hide RepliesKept, ReportsKept, BookingsKept, BookingLogGrows, OffersKept, OutcomesKept, AssignmentsKept, MovesGrow, VersionsGrow;
    hide BookingStatusFor, CanForward;
    GrowsReflexive(s);
    if AdvanceJourney(s, d, j, evidence).store != s {
      BookingMoveKept(s, s.journeys[j].booking, BookingStatusFor(NextJourneyStatus(s.journeys[j].status).value));
    }
  }

  lemma EndedRowsKept(s: Store, j: JourneyId, journey: Journey, assignment: AssignmentStatus)
    requires j in s.journeys && s.journeys[j].assignment in s.assignments && s.assignments[s.journeys[j].assignment].status == Active
    requires journey.booking == s.journeys[j].booking && journey.assignment == s.journeys[j].assignment
    ensures var a := s.journeys[j].assignment; AssignmentsKept(s.assignments, s.assignments[a := s.assignments[a].(status := assignment)])
    ensures JourneysKept(s.assignments, s.journeys, s.journeys[j := journey])
  {
  }

  lemma EndGrows(s: Store, d: DriverId, j: JourneyId, booking: Status, journey: Journey, assignment: AssignmentStatus,
                 to: AvailabilityStatus, kind: ShiftEventKind)
    requires j in s.journeys && s.journeys[j].booking in s.bookings && s.journeys[j].assignment in s.assignments
    requires d in s.availability && s.assignments[s.journeys[j].assignment].status == Active
    requires journey.booking == s.journeys[j].booking && journey.assignment == s.journeys[j].assignment
    ensures Grows(s, EndJourney(s, d, j, booking, journey, assignment, to, kind))
  {
    hide RepliesKept, ReportsKept, BookingsKept, BookingLogGrows, OffersKept, OutcomesKept, AssignmentsKept, JourneysKept, MovesGrow, VersionsGrow,
      NoteShiftEvent;
    GrowsReflexive(s);
    EndedRowsKept(s, j, journey, assignment);
    BookingMoveKept(s, s.journeys[j].booking, booking);
    DriverMoveKept(s, d, s.availability[d].(status := to, version := s.availability[d].version + 1), Assigned);
  }

  lemma CompleteGrows(s: Store, d: DriverId, j: JourneyId, evidence: bool)
    ensures Grows(s, CompleteJourney(s, d, j, evidence).store)
  {
    hide Grows, EndJourney;
    GrowsReflexive(s);
    if CompleteJourney(s, d, j, evidence).store != s {
      EndGrows(s, d, j, Completed, s.journeys[j].(status := JourneyDone), AssignmentCompleted, Available, JourneyCompletedAvailable);
    }
  }

  lemma TerminateGrows(s: Store, account: AccountId, d: DriverId, j: JourneyId, report: string, key: Key)
    ensures Grows(s, TerminateUnsafeJourney(s, account, d, j, report, key).store)
  {
    hide EndJourney;
    hide RepliesKept, BookingsKept, BookingLogGrows, OffersKept, OutcomesKept, AssignmentsKept, JourneysKept, MovesGrow, VersionsGrow;
    GrowsReflexive(s);
    if TerminateUnsafeJourney(s, account, d, j, report, key).store != s {
      EndGrows(s, d, j, ActiveIncident, s.journeys[j].(legInterrupted := true), AssignmentCancelled, OnBreak, UnsafeTerminationBreak);
    }
  }

  lemma FatigueGrows(s: Store, d: DriverId, flag: bool)
    ensures Grows(s, ReportFatigue(s, d, flag).store)
    ensures Grows(s, ClearFatigue(s, d, flag).store)
  {
    hide RepliesKept, ReportsKept, BookingsKept, BookingLogGrows, OffersKept, OutcomesKept, AssignmentsKept, JourneysKept, MovesGrow, NoteShiftEvent;
    hide ActiveShift;
    GrowsReflexive(s);
  }

  lemma ConcernGrows(s: Store, d: DriverId, vehicle: VehicleId)
    ensures Grows(s, VehicleConcern(s, d, vehicle).store)
    ensures Grows(s, ReconcileConnectivity(s, d).store)
  {
    hide RepliesKept, ReportsKept, BookingsKept, BookingLogGrows, OffersKept, OutcomesKept, AssignmentsKept, JourneysKept;
    GrowsReflexive(s);
  }

  // ---------------------------------------------------------------- every command, every run

  lemma ApplyGrows(s: Store, c: Command)
    requires Inv(s)
    ensures Grows(s, Apply(s, c).store)
  {
    hide IdsIssued, BookingSide, OfferSide, DriverSide, Grows;
    hide CreateBooking, PrepareBooking, StartBookingDispatch, SetDriverAvailability, ListDriverOffers, DeclineDriverOffer,
      AcceptDriverOffer, AcknowledgeAssignment, AdvanceJourney, CompleteJourney, TerminateUnsafeJourney, ReportFatigue,
      ClearFatigue, VehicleConcern, ReconcileConnectivity;
    match c
    case Create(p, r, f, q) => CreateGrows(s, p, r, f, q);
    case Prepare(p, b, f, t) => PrepareGrows(s, p, b, f, t);
    case Start(a, p, b, k, rows, w) => StartGrows(s, a, p, b, k, rows, w);
    case SetAvailability(d, active, r, k, w) =>
      GrowsReflexive(s);
      if r.status in {Available, FinishingSoon, OnBreak, Offline} { SetAvailabilityGrows(s, d, active, r, k, w); }
    case ListOffers(d, now) => ListOffersGrows(s, d, now);
    case Decline(d, o, y, k, now) => DeclineGrows(s, d, o, y, k, now);
    case Accept(d, active, o, k, w) => AcceptGrows(s, d, active, o, k, w);
    case Acknowledge(d, a) => AcknowledgeGrows(s, d, a);
    case Advance(d, j, e) => AdvanceGrows(s, d, j, e);
    case Complete(d, j, e) => CompleteGrows(s, d, j, e);
    case Terminate(a, d, j, r, k) => TerminateGrows(s, a, d, j, r, k);
    case FatigueReport(d, p) => FatigueGrows(s, d, p);
    case FatigueClear(d, r) => FatigueGrows(s, d, r);
    case Concern(d, v) => ConcernGrows(s, d, v);
    case Reconcile(d) => ConcernGrows(s, d, 0);
  }

  lemma {:induction false} RunGrows(s: Store, commands: seq<Command>)
    requires Inv(s)
    ensures Grows(s, Run(s, commands))
    decreases |commands|
  {
    hide Inv, Grows, Apply;
    GrowsReflexive(s);
    if commands != [] {
      var before := Run(s, commands[..|commands| - 1]);
      RunGrows(s, commands[..|commands| - 1]);
      RunKeeps(s, commands[..|commands| - 1]);
      ApplyGrows(before, commands[|commands| - 1]);
      GrowsTransitive(s, before, Run(s, commands));
    }
  }
}
