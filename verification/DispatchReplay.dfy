/** Idempotency over whole runs, and what a refused command may leave behind. */
module DispatchReplay {
  import opened Prelude
  import opened BookingStatus
  import opened DriverDomain
  import opened DispatchStore
  import opened DispatchProtocol
  import opened DispatchInvariants
  import opened DispatchDrivers
  import opened DispatchRuns
  import opened DispatchHistory

  /** `again` carries the key `first` was sent with: same command, subject and key, whatever else it asks for.
      A termination's key belongs to its journey and its report. */
  predicate SameKey(first: Command, again: Command) {
    match (first, again)
    case (Start(a, _, _, k, _, _), Start(a', _, _, k', _, _)) => a == a' && k == k'
    case (SetAvailability(d, _, _, k, _), SetAvailability(d', _, _, k', _)) => d == d' && k == k'
    case (Decline(d, _, _, k, _), Decline(d', _, _, k', _)) => d == d' && k == k'
    case (Accept(d, _, _, k, _), Accept(d', _, _, k', _)) => d == d' && k == k'
    case (Terminate(a, _, j, r, k), Terminate(a', _, j', r', k')) => a == a' && j == j' && r == r' && k == k'
    case _ => false
  }

  /** The checks that precede the dedup lookup pass. */
  predicate ReachesLookup(s: Store, c: Command) {
    match c
    case Start(_, p, b, _, _, _) => b in s.bookings && s.bookings[b].booker == p
    case SetAvailability(_, _, r, _, _) => BodyComplete(r)
    case Decline(d, o, _, _, _) => o in s.offers && s.offers[o].driver == d
    case Accept(d, _, o, _, _) => o in s.offers && s.offers[o].driver == d
    case Terminate(_, d, j, _, _) =>
      && j in s.journeys && s.journeys[j].booking in s.bookings && s.journeys[j].assignment in s.assignments
      && s.assignments[s.journeys[j].assignment].driver == d && d in s.availability
    case _ => false
  }

  predicate BodyComplete(r: AvailabilityRequest) {
    && r.status in {Available, FinishingSoon, OnBreak, Offline}
    && (GoingOnline(r.status) ==> r.vehicle.Some? && r.region.Some? && r.position.Some?)
  }

  /** The key of `c` has been recorded in `s` with `reply`. */
  predicate Remembered(s: Store, c: Command, reply: Reply) {
    match c
    case Start(a, _, _, k, _, _) => DedupKey(StartCmd, a, k) in s.dedup && s.dedup[DedupKey(StartCmd, a, k)] == reply
    case SetAvailability(d, _, _, k, _) => DedupKey(AvailabilityCmd, d, k) in s.dedup && s.dedup[DedupKey(AvailabilityCmd, d, k)] == reply
    case Decline(d, _, _, k, _) => DedupKey(DeclineCmd, d, k) in s.dedup && s.dedup[DedupKey(DeclineCmd, d, k)] == reply
    case Accept(d, _, _, k, _) => DedupKey(AcceptCmd, d, k) in s.dedup && s.dedup[DedupKey(AcceptCmd, d, k)] == reply
    case Terminate(a, _, j, r, k) => SafetyKey(a, j, k) in s.safetyDedup && s.safetyDedup[SafetyKey(a, j, k)] == SafetyRecord(r, reply)
    case _ => false
  }

  predicate Recorded(s: Store, c: Command, reply: Reply) {
    ReachesLookup(s, c) && Remembered(s, c, reply)
  }

  lemma StartAnswered(s: Store, account: AccountId, person: PersonId, b: BookingId, key: Key, rows: seq<CandidateRow>, w: World)
    requires StartBookingDispatch(s, account, person, b, key, rows, w).outcome.Accepted?
    ensures b in s.bookings && s.bookings[b].booker == person
    ensures DedupKey(StartCmd, account, key) in StartBookingDispatch(s, account, person, b, key, rows, w).store.dedup
    ensures StartBookingDispatch(s, account, person, b, key, rows, w).store.dedup[DedupKey(StartCmd, account, key)]
              == StartBookingDispatch(s, account, person, b, key, rows, w).outcome.reply
    ensures StartBookingDispatch(s, account, person, b, key, rows, w).store.bookings
              in {s.bookings, WithWave(s, w, b, EligibleRows(s, w, b, rows)).bookings, WithoutDriver(s, b).bookings}
  {
    hide EligibleRows, FirstFault, WithWave, WithoutDriver;
  }

  lemma StartRecords(s: Store, c: Command)
    requires c.Start? && Apply(s, c).outcome.Accepted?
    ensures Recorded(Apply(s, c).store, c, Apply(s, c).outcome.reply)
  {
    hide Apply, EligibleRows, WithWave, WithoutDriver, StartBookingDispatch;
    ApplyDispatches(s, c);
    StartAnswered(s, c.account, c.person, c.booking, c.key, c.rows, c.world);
    WaveKeepsBooker(s, c.world, c.booking, EligibleRows(s, c.world, c.booking, c.rows));
  }

  lemma WaveKeepsBooker(s: Store, w: World, b: BookingId, eligible: seq<CandidateRow>)
    requires b in s.bookings
    ensures b in WithWave(s, w, b, eligible).bookings && WithWave(s, w, b, eligible).bookings[b].booker == s.bookings[b].booker
    ensures b in WithoutDriver(s, b).bookings && WithoutDriver(s, b).bookings[b].booker == s.bookings[b].booker
  {
    hide WaveOffers, WaveCandidate;
  }

  lemma AvailabilityRecords(s: Store, c: Command)
    requires c.SetAvailability? && Apply(s, c).outcome.Accepted?
    ensures Recorded(Apply(s, c).store, c, Apply(s, c).outcome.reply)
  {
    hide AvailabilityCommit, NextAvailability, DriverInput, PreShiftBlockers;
  }

  lemma DeclineRecords(s: Store, c: Command)
    requires c.Decline? && Apply(s, c).outcome.Accepted?
    ensures Recorded(Apply(s, c).store, c, Apply(s, c).outcome.reply)
  {
    hide Apply;
    ApplyDispatches(s, c);
  }

  lemma AcceptRecords(s: Store, c: Command)
    requires Inv(s) && c.Accept? && Apply(s, c).outcome.Accepted?
    ensures Recorded(Apply(s, c).store, c, Apply(s, c).outcome.reply)
  {
    hide Inv, AcceptCommit, RecheckInput, IsEligible, Blockers, AcceptanceAllowed, CloseOne, AttributeNew;
    hide RepliesKept, ReportsKept, BookingsKept, BookingLogGrows, OutcomesKept, AssignmentsKept, JourneysKept, MovesGrow, VersionsGrow;
    ApplyGrows(s, c);
  }

  lemma EndKeepsBooking(s: Store, d: DriverId, j: JourneyId, booking: Status, journey: Journey, assignment: AssignmentStatus,
                        to: AvailabilityStatus, kind: ShiftEventKind)
    requires j in s.journeys && s.journeys[j].booking in s.bookings && s.journeys[j].assignment in s.assignments
    requires d in s.availability
    requires journey.booking == s.journeys[j].booking && journey.assignment == s.journeys[j].assignment
    ensures var r := EndJourney(s, d, j, booking, journey, assignment, to, kind);
            && j in r.journeys && r.journeys[j] == journey && d in r.availability
            && journey.booking in r.bookings && journey.assignment in r.assignments
            && r.assignments[journey.assignment].driver == s.assignments[journey.assignment].driver
  {
    hide NoteShiftEvent;
  }

  lemma TerminateRecords(s: Store, c: Command)
    requires c.Terminate? && Apply(s, c).outcome.Accepted?
    ensures Recorded(Apply(s, c).store, c, Apply(s, c).outcome.reply)
  {
    hide EndJourney;
    if SafetyKey(c.account, c.journey, c.key) !in s.safetyDedup {
      EndKeepsBooking(s, c.driver, c.journey, ActiveIncident, s.journeys[c.journey].(legInterrupted := true), AssignmentCancelled,
                      OnBreak, UnsafeTerminationBreak);
    }
  }

  lemma GrowthKeepsRecord(s: Store, r: Store, c: Command, reply: Reply)
    requires Grows(s, r) && Recorded(s, c, reply)
    ensures Recorded(r, c, reply)
  {
  }

  lemma RememberedReplays(s: Store, c: Command, again: Command, reply: Reply)
    requires Remembered(s, c, reply) && SameKey(c, again) && ReachesLookup(s, again)
    ensures Apply(s, again) == Step(s, Accepted(reply))
  {
  }

  lemma AnswersRecorded(s: Store, c: Command, again: Command)
    requires Inv(s) && SameKey(c, again) && Apply(s, c).outcome.Accepted?
    ensures Recorded(Apply(s, c).store, c, Apply(s, c).outcome.reply)
  {
    hide Inv, Apply, Recorded;
    if c.Start? { StartRecords(s, c); }
    else if c.SetAvailability? { AvailabilityRecords(s, c); }
    else if c.Decline? { DeclineRecords(s, c); }
    else if c.Accept? { AcceptRecords(s, c); }
    else if c.Terminate? { TerminateRecords(s, c); }
  }

  lemma RecordKept(commands: seq<Command>, c: Command, later: seq<Command>, again: Command)
    requires SameKey(c, again) && Apply(Run(EMPTY, commands), c).outcome.Accepted?
    ensures var first := Apply(Run(EMPTY, commands), c); Recorded(Run(first.store, later), c, first.outcome.reply)
  {
    hide Run, Inv, Grows, Apply, Recorded, SameKey;
    ReachableHolds(commands);
    var s := Run(EMPTY, commands);
    var first := Apply(s, c);
    AnswersRecorded(s, c, again);
    ApplyKeeps(s, c);
    RunGrows(first.store, later);
    GrowthKeepsRecord(first.store, Run(first.store, later), c, first.outcome.reply);
  }

  /** Once a command has been answered under a key, every command of its kind and subject with that key gets the stored answer
      and changes nothing, whatever ran in between and whatever it asks for: another time, another body, another booking or
      another offer, as long as it passes the checks before the lookup. */
  lemma ReplayedExactlyOnce(commands: seq<Command>, c: Command, later: seq<Command>, again: Command)
    requires SameKey(c, again) && Apply(Run(EMPTY, commands), c).outcome.Accepted?
    requires ReachesLookup(Run(Apply(Run(EMPTY, commands), c).store, later), again)
    ensures var first := Apply(Run(EMPTY, commands), c);
            var after := Run(first.store, later);
            Apply(after, again) == Step(after, first.outcome)
  {
    hide Run, Apply, Remembered, SameKey, ReachesLookup;
    RecordKept(commands, c, later, again);
    var first := Apply(Run(EMPTY, commands), c);
    RememberedReplays(Run(first.store, later), c, again, first.outcome.reply);
  }

  /** `again` is about the same booking, offer or journey, or carries a complete availability body. */
  predicate SameTarget(first: Command, again: Command) {
    match (first, again)
    case (Start(_, p, b, _, _, _), Start(_, p', b', _, _, _)) => p == p' && b == b'
    case (SetAvailability(_, _, _, _, _), SetAvailability(_, _, r', _, _)) => BodyComplete(r')
    case (Decline(_, o, _, _, _), Decline(_, o', _, _, _)) => o == o'
    case (Accept(_, _, o, _, _), Accept(_, _, o', _, _)) => o == o'
    case (Terminate(_, d, _, _, _), Terminate(_, d', _, _, _)) => d == d'
    case _ => false
  }

  lemma TargetReachesLookup(s: Store, c: Command, again: Command)
    requires ReachesLookup(s, c) && SameKey(c, again) && SameTarget(c, again)
    ensures ReachesLookup(s, again)
  {
    hide BodyComplete;
  }

  /** A genuine retry always gets that far: the same request is answered once, at any later point of any run. */
  lemma RetryReplayed(commands: seq<Command>, c: Command, later: seq<Command>, again: Command)
    requires SameKey(c, again) && SameTarget(c, again) && Apply(Run(EMPTY, commands), c).outcome.Accepted?
    ensures var first := Apply(Run(EMPTY, commands), c);
            var after := Run(first.store, later);
            Apply(after, again) == Step(after, first.outcome)
  {
    hide Run, Apply, Remembered, SameKey, SameTarget, ReachesLookup;
    RecordKept(commands, c, later, again);
    TargetReachesLookup(Run(Apply(Run(EMPTY, commands), c).store, later), c, again);
    ReplayedExactlyOnce(commands, c, later, again);
  }

  // ---------------------------------------------------------------- a key used for something else

  /** The dedup row of the four commands of this service. */
  function KeyOf(c: Command): DedupKey
    requires c.Start? || c.SetAvailability? || c.Decline? || c.Accept?
  {
    match c
    case Start(a, _, _, k, _, _) => DedupKey(StartCmd, a, k)
    case SetAvailability(d, _, _, k, _) => DedupKey(AvailabilityCmd, d, k)
    case Decline(d, _, _, k, _) => DedupKey(DeclineCmd, d, k)
    case Accept(d, _, _, k, _) => DedupKey(AcceptCmd, d, k)
  }

  /** What the command asks for is the case. */
  predicate CarriedOut(s: Store, c: Command)
    requires c.Start? || c.SetAvailability? || c.Decline? || c.Accept?
  {
    match c
    case Start(_, _, b, _, _, _) => exists t :: t in s.attempts && s.attempts[t].booking == b
    case SetAvailability(d, _, r, _, _) => CurrentAvailability(s, d).status == r.status
    case Decline(_, o, _, _, _) => o in s.offers && s.offers[o].status == OfferDeclined
    case Accept(_, _, o, _, _) => o in s.offers && s.offers[o].status == OfferAccepted
  }

  lemma UsedKeyDoesNothing(s: Store, c: Command)
    requires (c.Start? || c.SetAvailability? || c.Decline? || c.Accept?) && KeyOf(c) in s.dedup && Apply(s, c).outcome.Accepted?
    ensures Apply(s, c) == Step(s, Accepted(s.dedup[KeyOf(c)]))
  {
    hide WithWave, WithoutDriver, EligibleRows, FirstFault, AvailabilityCommit, NextAvailability, DriverInput, PreShiftBlockers,
      CloseOne, AttributeNew, RecheckInput, IsEligible, AcceptanceAllowed, AcceptCommit;
  }

  lemma NewKeyStarts(s: Store, c: Command)
    requires c.Start? && KeyOf(c) !in s.dedup && Apply(s, c).outcome.Accepted?
    ensures CarriedOut(Apply(s, c).store, c)
  {
    hide Apply, EligibleRows, FirstFault, WaveOffers, WaveCandidate, InsertRows, MoveBooking;
    ApplyDispatches(s, c);
    var r := Apply(s, c).store;
    assert s.nextId in r.attempts && r.attempts[s.nextId].booking == c.booking;
  }

  lemma CommitSets(s: Store, d: DriverId, request: AvailabilityRequest)
    requires GoingOnline(request.status) ==> request.position.Some?
    ensures var commit := AvailabilityCommit(s, d, NextAvailability(s, d, request));
            commit.Some? ==> d in commit.value.availability && commit.value.availability[d].status == request.status
  {
    hide AvailabilityCommit;
    if AvailabilityCommit(s, d, NextAvailability(s, d, request)).Some? { CommitTables(s, d, NextAvailability(s, d, request)); }
  }

  lemma NewKeySets(s: Store, c: Command)
    requires c.SetAvailability? && KeyOf(c) !in s.dedup && Apply(s, c).outcome.Accepted?
    ensures CarriedOut(Apply(s, c).store, c)
  {
    hide Apply, AvailabilityCommit, NextAvailability, DriverInput, PreShiftBlockers;
    ApplyDispatches(s, c);
    if GoingOnline(c.request.status) ==> c.request.position.Some? { CommitSets(s, c.driver, c.request); }
  }

  lemma NewKeyDeclines(s: Store, c: Command)
    requires c.Decline? && KeyOf(c) !in s.dedup && Apply(s, c).outcome.Accepted?
    ensures CarriedOut(Apply(s, c).store, c)
  {
    hide Apply, AppendRow, Attribution;
    ApplyDispatches(s, c);
  }

  lemma CommitAccepts(s: Store, d: DriverId, o: OfferId)
    requires o in s.offers && s.offers[o].booking in s.bookings && AcceptCommit(s, d, o).Some?
    ensures o in AcceptCommit(s, d, o).value.offers && AcceptCommit(s, d, o).value.offers[o].status == OfferAccepted
  {
    hide ShiftsOnAccept, WonOutcomes;
  }

  lemma NewKeyAccepts(s: Store, c: Command)
    requires c.Accept? && KeyOf(c) !in s.dedup && Apply(s, c).outcome.Accepted?
    ensures CarriedOut(Apply(s, c).store, c)
  {
    hide AcceptCommit, RecheckInput, IsEligible, Blockers, AcceptanceAllowed, AttributeNew, CloseOne, Attribution;
    if c.offer in s.offers && s.offers[c.offer].booking in s.bookings && AcceptCommit(s, c.driver, c.offer).Some? {
      CommitAccepts(s, c.driver, c.offer);
    }
  }

  /** "An accepted command has been carried out" fails exactly when its key has been used before, by whatever command of that
      subject, and what it asks for is not the case already: the answer is then the other command's, and nothing happens. */
  lemma AcceptedMeansCarriedOutIff(s: Store, c: Command)
    requires (c.Start? || c.SetAvailability? || c.Decline? || c.Accept?) && Apply(s, c).outcome.Accepted?
    ensures CarriedOut(Apply(s, c).store, c) <==> KeyOf(c) !in s.dedup || CarriedOut(s, c)
    ensures KeyOf(c) in s.dedup ==> Apply(s, c) == Step(s, Accepted(s.dedup[KeyOf(c)]))
  {
    hide Apply, CarriedOut;
    if KeyOf(c) in s.dedup { UsedKeyDoesNothing(s, c); }
    else if c.Start? { NewKeyStarts(s, c); }
    else if c.SetAvailability? { NewKeySets(s, c); }
    else if c.Decline? { NewKeyDeclines(s, c); }
    else { NewKeyAccepts(s, c); }
  }

  // ---------------------------------------------------------------- refusals

  /** An acceptance that gets as far as looking at the offer's expiry. */
  predicate Considered(s: Store, d: DriverId, o: OfferId, key: Key) {
    && o in s.offers && s.offers[o].driver == d && s.offers[o].status == OfferOpen
    && DedupKey(AcceptCmd, d, key) !in s.dedup
    && s.offers[o].attempt in s.attempts && s.attempts[s.offers[o].attempt].status == Offering
  }

  predicate FoundIneligible(s: Store, d: DriverId, actorActive: bool, o: OfferId, w: World)
    requires o in s.offers
  {
    && AcceptanceAllowed(s.offers[o].disclosure)
    && s.offers[o].booking in s.bookings && s.bookings[s.offers[o].booking].status == SearchingForDriver
    && d in w.drivers
    && var facts := RecheckInput(s, w, d, actorActive, s.offers[o], s.offers[o].booking, s.bookings[s.offers[o].booking]);
       facts.Success? && !IsEligible(facts.value, w.now)
  }

  /** A refusal of this acceptance closes the offer. */
  predicate Closes(s: Store, d: DriverId, actorActive: bool, o: OfferId, key: Key, w: World) {
    Considered(s, d, o, key) && (s.offers[o].expiresAt <= w.now || FoundIneligible(s, d, actorActive, o, w))
  }

  /** The two refusals that are committed: an expired offer is closed as timed out, an ineligible driver's as withdrawn. */
  predicate CommittedRefusal(s: Store, c: Command) {
    c.Accept? && Closes(s, c.driver, c.actorActive, c.offer, c.key, c.world)
  }

  /** The offer a committed refusal leaves. */
  function RefusedOffer(offer: Offer, now: Time): Offer {
    if offer.expiresAt <= now then offer.(status := OfferExpired, reason := Some(TtlExpired))
    else offer.(status := OfferWithdrawn, reason := Some(BecameIneligible))
  }

  function RefusedOutcomes(s: Store, d: DriverId, o: OfferId, now: Time): map<OfferId, seq<OutcomeRow>>
    requires o in s.offers
  {
    if s.offers[o].expiresAt <= now then AttributeNew(s.outcomes, s.offers, {o}, OutTimedOut, DriverChoice)
    else AppendRow(s.outcomes, o, Attribution(d, OutIneligible, SystemCause))
  }

  /** The store a refused acceptance leaves. */
  function RefusedAccept(s: Store, d: DriverId, actorActive: bool, o: OfferId, key: Key, w: World): Store {
    if !Closes(s, d, actorActive, o, key, w) then s
    else s.(offers := s.offers[o := RefusedOffer(s.offers[o], w.now)], outcomes := RefusedOutcomes(s, d, o, w.now))
  }

  lemma RefusedFrame(s: Store, d: DriverId, actorActive: bool, o: OfferId, key: Key, w: World)
    ensures RefusedAccept(s, d, actorActive, o, key, w).availability == s.availability
    ensures RefusedAccept(s, d, actorActive, o, key, w).moves == s.moves
    ensures RefusedAccept(s, d, actorActive, o, key, w).shifts == s.shifts
    ensures RefusedAccept(s, d, actorActive, o, key, w).dedup == s.dedup
    ensures RefusedAccept(s, d, actorActive, o, key, w).safetyDedup == s.safetyDedup
  {
    hide FoundIneligible, Considered, RefusedOutcomes, RefusedOffer;
  }

  lemma RefusedShape(s: Store, d: DriverId, actorActive: bool, o: OfferId, key: Key, w: World)
    ensures !Closes(s, d, actorActive, o, key, w) ==> RefusedAccept(s, d, actorActive, o, key, w) == s
    ensures Closes(s, d, actorActive, o, key, w) ==>
              && o in s.offers && s.offers[o].status == OfferOpen
              && RefusedAccept(s, d, actorActive, o, key, w).offers == s.offers[o := RefusedOffer(s.offers[o], w.now)]
  {
    hide FoundIneligible, RefusedOutcomes, RefusedOffer;
  }

  lemma RefusedOffers(s: Store, d: DriverId, actorActive: bool, o: OfferId, key: Key, w: World)
    ensures forall p :: p in s.offers && p != o ==>
              p in RefusedAccept(s, d, actorActive, o, key, w).offers && RefusedAccept(s, d, actorActive, o, key, w).offers[p] == s.offers[p]
    ensures forall p :: p in RefusedAccept(s, d, actorActive, o, key, w).offers
                        && RefusedAccept(s, d, actorActive, o, key, w).offers[p].status == OfferOpen ==>
              p in s.offers && s.offers[p] == RefusedAccept(s, d, actorActive, o, key, w).offers[p]
  {
    hide RefusedAccept, Closes;
    RefusedShape(s, d, actorActive, o, key, w);
  }

  lemma AcceptRefusal(s: Store, d: DriverId, actorActive: bool, o: OfferId, key: Key, w: World)
    requires AcceptDriverOffer(s, d, actorActive, o, key, w).outcome.Refused?
    ensures AcceptDriverOffer(s, d, actorActive, o, key, w).store == RefusedAccept(s, d, actorActive, o, key, w)
  {
    hide RecheckInput, IsEligible, Blockers, AcceptanceAllowed, AcceptCommit, AttributeNew, AppendRow, Attribution;
  }

  lemma OtherRefusals(s: Store, c: Command)
    requires !c.Accept? && Apply(s, c).outcome.Refused?
    ensures Apply(s, c).store == s
  {
    hide WithWave, WithoutDriver, EligibleRows, FirstFault, AvailabilityCommit, NextAvailability, DriverInput, PreShiftBlockers,
      EndJourney, CloseOne, CloseOffers, AttributeNew, AcceptDriverOffer, MoveBooking, NoteShiftEvent, MoveDriver, ActiveShift;
  }

  lemma CommittedRefusalCloses(s: Store, c: Command)
    requires c.Accept?
    ensures CommittedRefusal(s, c) <==> RefusedAccept(s, c.driver, c.actorActive, c.offer, c.key, c.world) != s
  {
    hide FoundIneligible, Considered, RefusedAccept;
    RefusedShape(s, c.driver, c.actorActive, c.offer, c.key, c.world);
    if Closes(s, c.driver, c.actorActive, c.offer, c.key, c.world) {
      assert RefusedAccept(s, c.driver, c.actorActive, c.offer, c.key, c.world).offers[c.offer].status != OfferOpen;
    }
  }

  /** A refused command changes the store exactly in those two cases, and then closes only that offer:
      in particular it records no key, so the same key may be used again. */
  lemma RefusalsChangeNothingElse(s: Store, c: Command)
    requires Apply(s, c).outcome.Refused?
    ensures Apply(s, c).store != s <==> CommittedRefusal(s, c)
    ensures Apply(s, c).store.dedup == s.dedup && Apply(s, c).store.safetyDedup == s.safetyDedup
    ensures forall o :: o in s.offers && (c.Accept? ==> o != c.offer) ==> o in Apply(s, c).store.offers && Apply(s, c).store.offers[o] == s.offers[o]
  {
    hide Apply, AcceptDriverOffer, Considered, FoundIneligible, RefusedAccept;
    if c.Accept? {
      ApplyDispatches(s, c);
      AcceptRefusal(s, c.driver, c.actorActive, c.offer, c.key, c.world);
      CommittedRefusalCloses(s, c);
      RefusedFrame(s, c.driver, c.actorActive, c.offer, c.key, c.world);
      RefusedOffers(s, c.driver, c.actorActive, c.offer, c.key, c.world);
    } else {
      OtherRefusals(s, c);
    }
  }
}
