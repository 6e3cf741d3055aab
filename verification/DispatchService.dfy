/**
 The dispatch commands as the service runs them: one SQL statement after another on the database, with roll-back.
 Each is proved to have exactly the effect and the answer the protocol gives it.
 */
module DispatchServices {
  import opened Prelude
  import opened BookingStatus
  import opened DriverDomain
  import opened DispatchStore
  import opened DispatchProtocol
  import opened DispatchAcceptance
  import opened DispatchInvariants
  import opened DispatchPreservation
  import opened DispatchJourneys
  import opened DispatchRuns

  class DispatchService {
    var db: Store

    constructor ()
      ensures db == EMPTY
    {
      db := EMPTY;
    }

    method AppendBookingTransition(b: BookingId, to: Status)
      requires b in db.bookings
      modifies this
      ensures db == MoveBooking(old(db), b, to)
    {
      var before := db.bookings[b];
      var version := before.version + 1;
      db := db.(bookings := db.bookings[b := before.(status := to, version := version)]);
      db := db.(bookingLog := AppendRow(db.bookingLog, b, Transition(Some(before.status), to, version)));
    }

    /** One candidate row and, up to the wave size, one offer with its disclosure for every eligible driver, nearest first. */
    method MakeWave(b: BookingId, t: AttemptId, eligible: seq<CandidateRow>, w: World) returns (offeredCount: nat)
      requires b in db.bookings && db.nextId == t + 1 && t !in db.candidates
      modifies this
      ensures offeredCount == WaveReach(|eligible|, w.config.waveSize)
      ensures db == WaveWritten(old(db), w, b, t, eligible, |eligible|)
    {
      hide WaveOffer, WaveCandidate, WaveWritten;
      ghost var s := db;
      var rank: nat := 0;
      offeredCount := 0;
      WaveStarts(s, w, b, t, eligible);
      while rank < |eligible|
        invariant rank <= |eligible|
        invariant offeredCount == WaveReach(rank, w.config.waveSize)
        invariant db == WaveWritten(s, w, b, t, eligible, rank)
      {
        ghost var d := db;
        WaveWrittenFrame(s, w, b, t, eligible, rank);
        var row := eligible[rank];
        rank := rank + 1;
        db := db.(candidates := AppendRow(db.candidates, t, WaveCandidate(db, row, rank)));
        if rank <= w.config.waveSize {
          WaveStepOffers(s, w, b, t, eligible, rank - 1, d, db);
          offeredCount := offeredCount + 1;
          db := db.(offers := db.offers[db.nextId := WaveOffer(db, w, b, t, row)], nextId := db.nextId + 1);
        } else {
          WaveStepRanks(s, w, b, t, eligible, rank - 1, d);
        }
      }
    }

    method StartBooking(account: AccountId, person: PersonId, b: BookingId, key: Key, rows: seq<CandidateRow>, w: World)
      returns (outcome: Outcome)
      requires Inv(db)
      modifies this
      ensures Step(db, outcome) == StartBookingDispatch(old(db), account, person, b, key, rows, w)
      ensures Inv(db)
    {
      hide Inv, MoveBooking, WithWave, WithoutDriver, EligibleRows, FirstFault, WaveWritten;
      var dedupKey := DedupKey(StartCmd, account, key);
      StartKeeps(db, account, person, b, key, rows, w);
      if b !in db.bookings || db.bookings[b].booker != person { return Refused(Forbidden); }
      if dedupKey in db.dedup { return Accepted(db.dedup[dedupKey]); }
      if db.bookings[b].status != ReadyForDispatch { return Refused(Conflict); }
      var begin := db;
      NextIdFresh(db);
      AppendBookingTransition(b, SearchingForDriver);
      var t := db.nextId;
      db := db.(nextId := t + 1, attempts := db.attempts[t := Attempt(b, Searching)]);
      SearchFramed(begin, db, w, b, rows);
      var fault := FirstFault(db, w, b, rows);
      if fault.Some? {
        db := begin;
        return Refused(FatigueFault(fault.value));
      }
      var eligible := EligibleRows(db, w, b, rows);
      var reply;
      if eligible == [] {
        db := db.(attempts := db.attempts[t := Attempt(b, NoneEligible)]);
        AppendBookingTransition(b, NoEligibleDriver);
        WithoutDriverWritten(begin, b, db);
        reply := Started(b, t, false, 0, 0);
      } else {
        WaveWrittenFrame(db, w, b, t, eligible, |eligible|);
        var offeredCount := MakeWave(b, t, eligible, w);
        db := db.(attempts := db.attempts[t := Attempt(b, Offering)]);
        WithWaveWritten(begin, w, b, eligible, db);
        reply := Started(b, t, true, |eligible|, offeredCount);
      }
      db := db.(dedup := db.dedup[dedupKey := reply]);
      outcome := Accepted(reply);
    }

    /** Opens, continues or ends the driver's shift; false is the error that no shift can be opened. */
    method RecordShiftEvent(d: DriverId, from: AvailabilityStatus, to: AvailabilityStatus, version: nat,
                            region: Option<Region>, vehicle: Option<VehicleId>) returns (ok: bool)
      modifies this
      ensures ok == RecordShift(Rows(old(db).shifts, d), from, to, version, region, vehicle).Some?
      ensures db == if ok then old(db).(shifts := old(db).shifts[d := RecordShift(Rows(old(db).shifts, d), from, to, version, region, vehicle).value])
                    else old(db)
    {
      ghost var before := Rows(db.shifts, d);
      var own := Rows(db.shifts, d);
      var active := ActiveShift(own);
      var started := false;
      if active.None? && to != Offline {
        if region.None? || vehicle.None? { return false; }
        own := own + [Shift(true, region.value, vehicle.value, version, [])];
        active := Some(|own| - 1);
        started := true;
      }
      if active.Some? {
        var kind := if started then ShiftStarted
                    else if to == Offline then ShiftEnded
                    else if to == Assigned then OfferTaken else WorkIntentChanged;
        if to == Offline { own := own[active.value := own[active.value].(active := false)]; }
        own := LogShiftEvent(own, active.value, ShiftEvent(kind, from, to, version));
      }
      ShiftRowWritten(before, from, to, version, region, vehicle, own);
      db := db.(shifts := db.shifts[d := own]);
      ok := true;
    }

    method ChangeAvailability(d: DriverId, actorActive: bool, request: AvailabilityRequest, key: Key, w: World) returns (outcome: Outcome)
      requires Inv(db) && request.status in {Available, FinishingSoon, OnBreak, Offline}
      modifies this
      ensures Step(db, outcome) == SetDriverAvailability(old(db), d, actorActive, request, key, w)
      ensures Inv(db)
    {
      hide Inv, DriverInput, PreShiftBlockers, RecordShift, CloseOffers, AttributeNew, MayMove;
      SetAvailabilityKeeps(db, d, actorActive, request, key, w);
      var dedupKey := DedupKey(AvailabilityCmd, d, key);
      var online := GoingOnline(request.status);
      if online && (request.vehicle.None? || request.region.None? || request.position.None?) {
        return Refused(NotEligible([VehicleNotAuthorised, LocationMissing]));
      }
      if dedupKey in db.dedup { return Accepted(db.dedup[dedupKey]); }
      var current := CurrentAvailability(db, d);
      if !MayMove(current.status, request.status) { return Refused(InvalidTransition); }
      if online && !(0 <= request.position.value.confidence <= 1_000) { return Refused(NotEligible([LocationConfidenceLow])); }
      if d !in w.drivers { return Refused(NotFound); }
      var facts := DriverInput(db, w, d, actorActive, request.vehicle, request.region, [], [], None, None);
      if facts.Failure? { return Refused(FatigueFault(facts.error)); }
      if online {
        var blockers := PreShiftBlockers(facts.value, current.status, request.position.value, w);
        if blockers != [] { return Refused(NotEligible(blockers)); }
      }
      var begin := db;
      var after := NextAvailability(db, d, request);
      db := db.(availability := db.availability[d := after]);
      db := db.(moves := AppendRow(db.moves, d, AvailabilityMove(current.status, after.status, after.version)));
      var ok := RecordShiftEvent(d, current.status, after.status, after.version, after.region, after.vehicle);
      if !ok {
        db := begin;
        return Refused(Conflict);
      }
      if after.status in {OnBreak, Offline} {
        var open := OpenOffersOf(db.offers, d);
        var before := db.offers;
        db := db.(offers := CloseOffers(db.offers, open, OfferWithdrawn, Some(WorkIntentChange)));
        db := db.(outcomes := AttributeNew(db.outcomes, before, open, OutWithdrawn, DriverChoice));
      }
      var reply := AvailabilitySet(d, after.status, after.version);
      db := db.(dedup := db.dedup[dedupKey := reply]);
      outcome := Accepted(reply);
    }

    /** The expiry sweep of the offer list. */
    method SweepExpiredOffers(d: DriverId, now: Time)
      requires Inv(db)
      modifies this
      ensures db == ListDriverOffers(old(db), d, now).store && Inv(db)
    {
      hide Inv, CloseOffers, AttributeNew;
      ListOffersKeeps(db, d, now);
      var due := DueOffersOf(db.offers, d, now);
      var before := db.offers;
      db := db.(offers := CloseOffers(db.offers, due, OfferExpired, Some(TtlExpired)));
      db := db.(outcomes := AttributeNew(db.outcomes, before, due, OutTimedOut, DriverChoice));
    }

    method Decline(d: DriverId, o: OfferId, why: DeclineReason, key: Key, now: Time) returns (outcome: Outcome)
      requires Inv(db)
      modifies this
      ensures Step(db, outcome) == DeclineDriverOffer(old(db), d, o, why, key, now) && Inv(db)
    {
      hide Inv;
      DeclineKeeps(db, d, o, why, key, now);
      var dedupKey := DedupKey(DeclineCmd, d, key);
      if o !in db.offers { return Refused(NotFound); }
      if db.offers[o].driver != d { return Refused(Forbidden); }
      if dedupKey in db.dedup { return Accepted(db.dedup[dedupKey]); }
      if db.offers[o].status != OfferOpen { return Refused(Conflict); }
      if db.offers[o].expiresAt <= now { return Refused(Conflict); }
      db := db.(offers := db.offers[o := db.offers[o].(status := OfferDeclined, reason := Some(Declining(why)))]);
      db := db.(outcomes := AppendRow(db.outcomes, o, Attribution(d, OutDeclined, DriverChoice)));
      var reply := OfferDeclinedReply(o);
      db := db.(dedup := db.dedup[dedupKey := reply]);
      outcome := Accepted(reply);
    }

    /** The winner's and the rivals' offers and outcomes. */
    method SettleOffers(d: DriverId, o: OfferId)
      requires o in db.offers && db.offers[o].driver == d
      modifies this
      ensures db == old(db).(offers := WonOffers(old(db).offers, o), outcomes := WonOutcomes(old(db).offers, old(db).outcomes, o))
    {
      hide CloseOffers, AttributeNew;
      var t := db.offers[o].attempt;
      db := db.(offers := db.offers[o := db.offers[o].(status := OfferAccepted)]);
      db := db.(offers := CloseOffers(db.offers, OpenRivals(db.offers, t, o), OfferWithdrawn, Some(BookingAssigned)));
      db := db.(outcomes := AppendRow(db.outcomes, o, Attribution(d, OutAccepted, DriverChoice)));
      db := db.(outcomes := AttributeNew(db.outcomes, db.offers, WithdrawnForAssignment(db.offers, t, o),
                                         OutAssignedElsewhere, DispatchCause));
    }

    /** Availability and shift of the accepting driver; false is one of the errors that roll the acceptance back. */
    method PromoteDriver(d: DriverId, offer: Offer) returns (ok: bool)
      requires offer.booking in db.bookings
      modifies this
      ensures ok == (d in old(db).availability && MayMove(old(db).availability[d].status, Assigned)
                     && ShiftsOnAccept(old(db), d, offer).Some?)
      ensures ok ==> db == MoveDriver(old(db), d, Promoted(old(db).availability[d]), old(db).availability[d].status)
                             .(shifts := old(db).shifts[d := ShiftsOnAccept(old(db), d, offer).value])
    {
      hide RecordShift, MayMove;
      if d !in db.availability || !MayMove(db.availability[d].status, Assigned) { return false; }
      var from := db.availability[d].status;
      var version := db.availability[d].version + 1;
      db := db.(availability := db.availability[d := db.availability[d].(status := Assigned, version := version)]);
      db := db.(moves := AppendRow(db.moves, d, AvailabilityMove(from, Assigned, version)));
      var own := Rows(db.shifts, d);
      var current := ActiveShift(own);
      var region := if current.Some? then own[current.value].region else db.bookings[offer.booking].region;
      var vehicle := if current.Some? then Some(own[current.value].vehicle) else offer.vehicle;
      ok := RecordShiftEvent(d, from, Assigned, version, Some(region), vehicle);
    }

    /** The assignment, the settled offers and the filled attempt. */
    method FillAttempt(d: DriverId, o: OfferId)
      requires o in db.offers && db.offers[o].driver == d
      modifies this
      ensures db == Settled(old(db), d, o)
    {
      hide WonOffers, WonOutcomes;
      var offer := db.offers[o];
      SettledParts(db, d, o);
      db := db.(assignments := db.assignments[db.nextId := Assignment(offer.attempt, o, offer.booking, d, offer.vehicle, Active)],
                nextId := db.nextId + 1);
      SettleOffers(d, o);
      if offer.attempt in db.attempts {
        db := db.(attempts := db.attempts[offer.attempt := db.attempts[offer.attempt].(status := AttemptAssigned)]);
      }
    }

    /** Assignment, offers, outcomes, attempt, availability, shift and booking, in that order; rolled back if the driver
        or the shift turns out not to allow it. */
    method CommitAcceptance(d: DriverId, o: OfferId) returns (ok: bool)
      requires o in db.offers && db.offers[o].booking in db.bookings && db.offers[o].driver == d
      modifies this
      ensures ok == AcceptCommit(old(db), d, o).Some?
      ensures db == if ok then AcceptCommit(old(db), d, o).value else old(db)
    {
      hide MayMove, MoveBooking, ShiftsOnAccept, AcceptCommit, MoveDriver, Settled;
      var begin := db;
      var offer := db.offers[o];
      AcceptanceWritten(db, Settled(db, d, o), d, o);
      FillAttempt(d, o);
      ok := PromoteDriver(d, offer);
      if ok { AppendBookingTransition(offer.booking, DriverAssigned); } else { db := begin; }
    }

    /** Two refusals are committed before they are raised. */
    method AcceptOffer(d: DriverId, actorActive: bool, o: OfferId, key: Key, w: World) returns (outcome: Outcome)
      requires Inv(db)
      modifies this
      ensures Step(db, outcome) == AcceptDriverOffer(old(db), d, actorActive, o, key, w) && Inv(db)
    {
      hide Inv, RecheckInput, IsEligible, Blockers, AcceptCommit, AcceptanceAllowed, AttributeNew;
      AcceptKeeps(db, d, actorActive, o, key, w);
      var dedupKey := DedupKey(AcceptCmd, d, key);
      if o !in db.offers { return Refused(NotFound); }
      var offer := db.offers[o];
      if offer.driver != d { return Refused(Forbidden); }
      if dedupKey in db.dedup { return Accepted(db.dedup[dedupKey]); }
      if offer.attempt !in db.attempts || db.attempts[offer.attempt].status != Offering { return Refused(Conflict); }
      if offer.status != OfferOpen { return Refused(Conflict); }
      if offer.expiresAt <= w.now {
        var before := db.offers;
        db := db.(offers := db.offers[o := offer.(status := OfferExpired, reason := Some(TtlExpired))]);
        db := db.(outcomes := AttributeNew(db.outcomes, before, {o}, OutTimedOut, DriverChoice));
        return Refused(Conflict);
      }
      if !AcceptanceAllowed(offer.disclosure) { return Refused(Conflict); }
      if offer.booking !in db.bookings { return Refused(NotFound); }
      var booking := db.bookings[offer.booking];
      if booking.status != SearchingForDriver { return Refused(Conflict); }
      if d !in w.drivers { return Refused(NotFound); }
      var facts := RecheckInput(db, w, d, actorActive, offer, offer.booking, booking);
      if facts.Failure? { return Refused(FatigueFault(facts.error)); }
      if !IsEligible(facts.value, w.now) {
        db := db.(offers := db.offers[o := offer.(status := OfferWithdrawn, reason := Some(BecameIneligible))]);
        db := db.(outcomes := AppendRow(db.outcomes, o, Attribution(d, OutIneligible, SystemCause)));
        return Refused(NotEligible(Blockers(facts.value, w.now)));
      }
      AcceptCommitReplies(db, d, o);
      var assignment := db.nextId;
      var ok := CommitAcceptance(d, o);
      if !ok { return Refused(InvalidTransition); }
      var reply := OfferAcceptedReply(o, assignment, offer.booking, d);
      db := db.(dedup := db.dedup[dedupKey := reply]);
      outcome := Accepted(reply);
    }

    /** The writes of a termination: leg, assignment, booking, availability, its log and the shift event. */
    method CancelJourney(d: DriverId, j: JourneyId)
      requires j in db.journeys && db.journeys[j].booking in db.bookings && db.journeys[j].assignment in db.assignments
      requires d in db.availability
      modifies this
      ensures db == EndJourney(old(db), d, j, ActiveIncident, old(db).journeys[j].(legInterrupted := true), AssignmentCancelled,
                               OnBreak, UnsafeTerminationBreak)
    {
      hide NoteShiftEvent;
      var journey := db.journeys[j];
      var a := journey.assignment;
      db := db.(journeys := db.journeys[j := journey.(legInterrupted := true)]);
      db := db.(assignments := db.assignments[a := db.assignments[a].(status := AssignmentCancelled)]);
      AppendBookingTransition(journey.booking, ActiveIncident);
      var version := db.availability[d].version + 1;
      db := db.(availability := db.availability[d := db.availability[d].(status := OnBreak, version := version)]);
      db := db.(moves := AppendRow(db.moves, d, AvailabilityMove(Assigned, OnBreak, version)));
      db := db.(shifts := NoteShiftEvent(db.shifts, d, UnsafeTerminationBreak, Assigned, OnBreak, version));
    }

    /** createRiderConductCase with termination: leg, assignment, booking, availability and shift event in one transaction. */
    method TerminateJourney(account: AccountId, d: DriverId, j: JourneyId, report: string, key: Key) returns (outcome: Outcome)
      requires Inv(db)
      modifies this
      ensures Step(db, outcome) == TerminateUnsafeJourney(old(db), account, d, j, report, key) && Inv(db)
    {
      hide Inv, EndJourney;
      TerminateKeeps(db, account, d, j, report, key);
      var safetyKey := SafetyKey(account, j, key);
      if j !in db.journeys || db.journeys[j].booking !in db.bookings || db.journeys[j].assignment !in db.assignments
         || db.assignments[db.journeys[j].assignment].driver !in db.availability { return Refused(NotFound); }
      var journey := db.journeys[j];
      var a := journey.assignment;
      if db.assignments[a].driver != d { return Refused(Forbidden); }
      if safetyKey in db.safetyDedup {
        if db.safetyDedup[safetyKey].report != report { return Refused(KeyReused); }
        return Accepted(db.safetyDedup[safetyKey].reply);
      }
      if db.assignments[a].status != Active || db.availability[d].status != Assigned || journey.status == JourneyDone {
        return Refused(Conflict);
      }
      EndKeepsReports(db, d, j);
      CancelJourney(d, j);
      var reply := Terminated(j, journey.booking);
      db := db.(safetyDedup := db.safetyDedup[safetyKey := SafetyRecord(report, reply)]);
      outcome := Accepted(reply);
    }
  }

  lemma EndKeepsReports(s: Store, d: DriverId, j: JourneyId)
    requires j in s.journeys && s.journeys[j].booking in s.bookings && s.journeys[j].assignment in s.assignments && d in s.availability
    ensures EndJourney(s, d, j, ActiveIncident, s.journeys[j].(legInterrupted := true), AssignmentCancelled, OnBreak,
                       UnsafeTerminationBreak).safetyDedup == s.safetyDedup
  {
    hide NoteShiftEvent;
  }

  lemma AcceptCommitReplies(s: Store, d: DriverId, o: OfferId)
    requires o in s.offers && s.offers[o].booking in s.bookings
    ensures AcceptCommit(s, d, o).Some? ==> AcceptCommit(s, d, o).value.dedup == s.dedup
  {
    if AcceptCommit(s, d, o).Some? { AcceptCommitTables(s, d, o); }
  }

  /** Which shift row the recording leaves, case by case. */
  lemma ShiftRowWritten(before: seq<Shift>, from: AvailabilityStatus, to: AvailabilityStatus, version: nat,
                        region: Option<Region>, vehicle: Option<VehicleId>, own: seq<Shift>)
    requires ActiveShift(before).None? && to != Offline ==> region.Some? && vehicle.Some?
    requires var active := ActiveShift(before);
             if active.None? && to == Offline then own == before
             else if active.None? then
               && |own| == |before| + 1 && own[..|before|] == before
               && own[|before|] == Shift(true, region.value, vehicle.value, version, [ShiftEvent(ShiftStarted, from, to, version)])
             else
               && |own| == |before| && own == before[active.value := own[active.value]]
               && var kind := if to == Offline then ShiftEnded else if to == Assigned then OfferTaken else WorkIntentChanged;
                  own[active.value] == before[active.value].(
                    active := to != Offline, events := before[active.value].events + [ShiftEvent(kind, from, to, version)])
    ensures RecordShift(before, from, to, version, region, vehicle) == Some(own)
  {
    var recorded := RecordShift(before, from, to, version, region, vehicle).value;
    if ActiveShift(before).None? && to != Offline {
      assert own == before + [own[|before|]];
      assert recorded == own;
    } else if ActiveShift(before).Some? {
      var i := ActiveShift(before).value;
      assert recorded[i] == own[i];
      assert recorded == before[i := recorded[i]];
    }
  }

  /** The tables an acceptance has written before it turns to the driver. */
  function Settled(s: Store, d: DriverId, o: OfferId): Store
    requires o in s.offers
  {
    var offer := s.offers[o];
    s.(nextId := s.nextId + 1,
       assignments := s.assignments[s.nextId := Assignment(offer.attempt, o, offer.booking, d, offer.vehicle, Active)],
       offers := WonOffers(s.offers, o),
       outcomes := WonOutcomes(s.offers, s.outcomes, o),
       attempts := if offer.attempt in s.attempts
                   then s.attempts[offer.attempt := s.attempts[offer.attempt].(status := AttemptAssigned)] else s.attempts)
  }

  lemma SettledParts(s: Store, d: DriverId, o: OfferId)
    requires o in s.offers
    ensures Settled(s, d, o).attempts.Keys == s.attempts.Keys
  {
    hide WonOffers, WonOutcomes;
  }

  /** Settling the offers first does not change what happens to the driver's shift, so the statements add up to the commit. */
  lemma AcceptanceWritten(s: Store, r: Store, d: DriverId, o: OfferId)
    requires o in s.offers && s.offers[o].booking in s.bookings && r == Settled(s, d, o)
    ensures r.bookings == s.bookings
    ensures AcceptCommit(s, d, o).Some? <==>
              d in r.availability && MayMove(r.availability[d].status, Assigned) && ShiftsOnAccept(r, d, s.offers[o]).Some?
    ensures AcceptCommit(s, d, o).Some? ==>
              AcceptCommit(s, d, o).value ==
                MoveBooking(MoveDriver(r, d, Promoted(r.availability[d]), r.availability[d].status)
                              .(shifts := r.shifts[d := ShiftsOnAccept(r, d, s.offers[o]).value]),
                            s.offers[o].booking, DriverAssigned)
  {
    hide RecordShift, WonOffers, WonOutcomes, MayMove, ActiveShift;
  }

  lemma NextIdFresh(s: Store)
    requires Inv(s)
    ensures s.nextId !in s.candidates && s.nextId !in s.attempts
  {
    hide BookingSide, OfferSide, DriverSide;
  }

  lemma {:induction false} FilterCongruent<T(!new)>(p: T -> bool, q: T -> bool, xs: seq<T>)
    requires forall x :: x in xs ==> p(x) == q(x)
    ensures FilterSeq(p, xs) == FilterSeq(q, xs)
  {
    if xs != [] {
      assert xs[0] in xs;
      FilterCongruent(p, q, xs[1..]);
    }
  }

  lemma InputFramed(s: Store, r: Store, w: World, b: BookingId, booking: Booking, moved: Booking, d: DriverId)
    requires d in s.availability && d in w.drivers && r.availability == s.availability && r.assignments == s.assignments
    requires moved == booking.(status := moved.status, version := moved.version)
    ensures CandidateInput(r, w, d, b, moved) == CandidateInput(s, w, d, b, booking)
  {
    hide FatiguePassed, HardRequirementsMatch, OperatingRestricted, MaintenancePermits, RequiredServices;
  }

  lemma {:induction false} FaultFramed(s: Store, r: Store, w: World, b: BookingId, rows: seq<CandidateRow>)
    requires b in s.bookings && b in r.bookings && r.availability == s.availability && r.assignments == s.assignments
    requires r.bookings[b] == s.bookings[b].(status := r.bookings[b].status, version := r.bookings[b].version)
    ensures FirstFault(r, w, b, rows) == FirstFault(s, w, b, rows)
  {
    hide CandidateInput;
    if rows != [] {
      if rows[0].driver in s.availability && rows[0].driver in w.drivers {
        InputFramed(s, r, w, b, s.bookings[b], r.bookings[b], rows[0].driver);
      }
      FaultFramed(s, r, w, b, rows[1..]);
    }
  }

  lemma EligibleFramed(s: Store, r: Store, w: World, b: BookingId, rows: seq<CandidateRow>)
    requires b in s.bookings && b in r.bookings && r.availability == s.availability && r.assignments == s.assignments
    requires r.bookings[b] == s.bookings[b].(status := r.bookings[b].status, version := r.bookings[b].version)
    ensures EligibleRows(r, w, b, rows) == EligibleRows(s, w, b, rows)
  {
    hide CandidateInput, IsEligible;
    forall row | row in rows ensures RowEligible(r, w, b, r.bookings[b], row) == RowEligible(s, w, b, s.bookings[b], row) {
      if row.driver in s.availability && row.driver in w.drivers {
        InputFramed(s, r, w, b, s.bookings[b], r.bookings[b], row.driver);
      }
    }
    FilterCongruent(row => RowEligible(r, w, b, r.bookings[b], row), row => RowEligible(s, w, b, s.bookings[b], row), rows);
  }

  /** Marking the booking as searching first does not change who the query finds eligible. */
  lemma SearchFramed(s: Store, r: Store, w: World, b: BookingId, rows: seq<CandidateRow>)
    requires b in s.bookings
    requires r == MoveBooking(s, b, SearchingForDriver).(nextId := r.nextId, attempts := r.attempts)
    ensures b in r.bookings && r.bookings[b] == s.bookings[b].(status := SearchingForDriver, version := s.bookings[b].version + 1)
    ensures FirstFault(r, w, b, rows) == FirstFault(s, w, b, rows) && EligibleRows(r, w, b, rows) == EligibleRows(s, w, b, rows)
  {
    hide FirstFault, EligibleRows;
    FaultFramed(s, r, w, b, rows);
    EligibleFramed(s, r, w, b, rows);
  }

  lemma WithoutDriverWritten(s: Store, b: BookingId, r: Store)
    requires b in s.bookings
    requires var searching := MoveBooking(s, b, SearchingForDriver);
             r == MoveBooking(searching.(nextId := s.nextId + 1, attempts := s.attempts[s.nextId := Attempt(b, Searching)][s.nextId := Attempt(b, NoneEligible)]),
                              b, NoEligibleDriver)
    ensures r == WithoutDriver(s, b)
  {
  }

  lemma WithWaveWritten(s: Store, w: World, b: BookingId, eligible: seq<CandidateRow>, r: Store)
    requires b in s.bookings && eligible != []
    requires var t := s.nextId;
             var searching := MoveBooking(s, b, SearchingForDriver).(nextId := t + 1, attempts := s.attempts[t := Attempt(b, Searching)]);
             b in searching.bookings &&
             r == WaveWritten(searching, w, b, t, eligible, |eligible|).(attempts := searching.attempts[t := Attempt(b, Offering)])
    ensures r == WithWave(s, w, b, eligible)
  {
    hide WaveOffers, InsertRows, Ranked, MoveBooking;
    var t := s.nextId;
    var searching := MoveBooking(s, b, SearchingForDriver).(nextId := t + 1, attempts := s.attempts[t := Attempt(b, Searching)]);
    SameWave(s, searching, w, b, t, eligible, WaveReach(|eligible|, w.config.waveSize));
  }

  lemma SameWave(s: Store, r: Store, w: World, b: BookingId, t: AttemptId, eligible: seq<CandidateRow>, reach: nat)
    requires b in s.bookings && reach <= |eligible|
    requires r == MoveBooking(s, b, SearchingForDriver).(nextId := r.nextId, attempts := r.attempts)
    ensures b in r.bookings && WaveOffers(r, w, b, t, eligible, reach) == WaveOffers(s, w, b, t, eligible, reach)
    ensures Ranked(r, eligible, |eligible|) == seq(|eligible|, i requires 0 <= i < |eligible| => WaveCandidate(s, eligible[i], i + 1))
  {
    hide WaveOffer, WaveCandidate, MoveBooking;
    MovedBookingStays(s, b);
    forall i | 0 <= i < |eligible|
      ensures WaveOffer(r, w, b, t, eligible[i]) == WaveOffer(s, w, b, t, eligible[i])
      ensures WaveCandidate(r, eligible[i], i + 1) == WaveCandidate(s, eligible[i], i + 1)
    {
      SearchingOffersSame(s, r, w, b, t, eligible[i], i + 1);
    }
  }

  lemma MovedBookingStays(s: Store, b: BookingId)
    requires b in s.bookings
    ensures b in MoveBooking(s, b, SearchingForDriver).bookings
  {
  }

  /** A wave made after the booking moved is the wave its request asked for. */
  lemma SearchingOffersSame(s: Store, r: Store, w: World, b: BookingId, t: AttemptId, row: CandidateRow, rank: nat)
    requires b in s.bookings
    requires r == MoveBooking(s, b, SearchingForDriver).(nextId := r.nextId, attempts := r.attempts)
    ensures b in r.bookings && WaveOffer(r, w, b, t, row) == WaveOffer(s, w, b, t, row)
    ensures WaveCandidate(r, row, rank) == WaveCandidate(s, row, rank)
  {
    hide RequiredServices, FilterSeq, Upper;
  }

  /** The candidate rows of the first `n` eligible drivers. */
  function Ranked(s: Store, eligible: seq<CandidateRow>, n: nat): seq<Candidate>
    requires n <= |eligible|
  {
    seq(n, i requires 0 <= i < n => WaveCandidate(s, eligible[i], i + 1))
  }

  /** The database once the first `n` eligible drivers are ranked and those within the wave size have offers. */
  function WaveWritten(s: Store, w: World, b: BookingId, t: AttemptId, eligible: seq<CandidateRow>, n: nat): Store
    requires b in s.bookings && n <= |eligible|
  {
    var reach := WaveReach(n, w.config.waveSize);
    s.(nextId := t + 1 + reach,
       candidates := if n == 0 then s.candidates else s.candidates[t := Ranked(s, eligible, n)],
       offers := InsertRows(s.offers, t + 1, WaveOffers(s, w, b, t, eligible, reach)))
  }

  lemma WaveWrittenFrame(s: Store, w: World, b: BookingId, t: AttemptId, eligible: seq<CandidateRow>, n: nat)
    requires b in s.bookings && n <= |eligible|
    ensures var r := WaveWritten(s, w, b, t, eligible, n);
            r == s.(nextId := r.nextId, candidates := r.candidates, offers := r.offers)
  {
    hide WaveOffers, Ranked, InsertRows;
  }

  lemma WaveStarts(s: Store, w: World, b: BookingId, t: AttemptId, eligible: seq<CandidateRow>)
    requires b in s.bookings && s.nextId == t + 1
    ensures WaveWritten(s, w, b, t, eligible, 0) == s
  {
  }

  lemma CandidateWritten(s: Store, w: World, b: BookingId, t: AttemptId, eligible: seq<CandidateRow>, n: nat, d: Store)
    requires b in s.bookings && n < |eligible| && t !in s.candidates && d == WaveWritten(s, w, b, t, eligible, n)
    ensures AppendRow(d.candidates, t, WaveCandidate(d, eligible[n], n + 1)) == s.candidates[t := Ranked(s, eligible, n + 1)]
  {
    hide WaveOffer, WaveCandidate, InsertRows, WaveOffers, Ranked;
    WaveFramed(s, d, w, b, t, eligible[n], n + 1);
    RankedExtends(s, eligible, n + 1);
  }

  /** One turn of the wave loop within the wave size. */
  lemma WaveStepOffers(s: Store, w: World, b: BookingId, t: AttemptId, eligible: seq<CandidateRow>, n: nat, d: Store, ranked: Store)
    requires b in s.bookings && n < |eligible| && t !in s.candidates && d == WaveWritten(s, w, b, t, eligible, n)
    requires ranked == d.(candidates := AppendRow(d.candidates, t, WaveCandidate(d, eligible[n], n + 1)))
    requires n + 1 <= w.config.waveSize
    ensures WaveWritten(s, w, b, t, eligible, n + 1)
              == ranked.(offers := ranked.offers[ranked.nextId := WaveOffer(ranked, w, b, t, eligible[n])], nextId := ranked.nextId + 1)
  {
    hide WaveOffer, WaveCandidate, InsertRows, WaveOffers, Ranked;
    CandidateWritten(s, w, b, t, eligible, n, d);
    WaveFramed(s, ranked, w, b, t, eligible[n], n + 1);
    WaveExtends(s, w, b, t, eligible, n + 1);
  }

  /** One turn of the wave loop beyond it. */
  lemma WaveStepRanks(s: Store, w: World, b: BookingId, t: AttemptId, eligible: seq<CandidateRow>, n: nat, d: Store)
    requires b in s.bookings && n < |eligible| && t !in s.candidates && d == WaveWritten(s, w, b, t, eligible, n)
    requires n + 1 > w.config.waveSize
    ensures WaveWritten(s, w, b, t, eligible, n + 1)
              == d.(candidates := AppendRow(d.candidates, t, WaveCandidate(d, eligible[n], n + 1)))
  {
    hide WaveOffer, WaveCandidate, InsertRows, WaveOffers, Ranked;
    CandidateWritten(s, w, b, t, eligible, n, d);
  }

  /** What the loop has already written does not change what it writes next. */
  lemma WaveFramed(s: Store, r: Store, w: World, b: BookingId, t: AttemptId, row: CandidateRow, rank: nat)
    requires b in s.bookings && r.bookings == s.bookings && r.availability == s.availability
    ensures WaveCandidate(r, row, rank) == WaveCandidate(s, row, rank)
    ensures WaveOffer(r, w, b, t, row) == WaveOffer(s, w, b, t, row)
  {
    hide WaveDisclosure;
  }

  lemma RankedExtends(s: Store, eligible: seq<CandidateRow>, n: nat)
    requires 0 < n <= |eligible|
    ensures Ranked(s, eligible, n) == Ranked(s, eligible, n - 1) + [WaveCandidate(s, eligible[n - 1], n)]
    ensures Ranked(s, eligible, 0) == []
  {
  }

  lemma WaveExtends(s: Store, w: World, b: BookingId, t: AttemptId, eligible: seq<CandidateRow>, reach: nat)
    requires b in s.bookings && 0 < reach <= |eligible|
    ensures InsertRows(s.offers, t + 1, WaveOffers(s, w, b, t, eligible, reach))
         == InsertRows(s.offers, t + 1, WaveOffers(s, w, b, t, eligible, reach - 1))[t + reach := WaveOffer(s, w, b, t, eligible[reach - 1])]
  {
    hide WaveOffer;
    var wave := WaveOffers(s, w, b, t, eligible, reach);
    assert wave[..|wave| - 1] == WaveOffers(s, w, b, t, eligible, reach - 1);
  }
}
