/** The availability transition log: what it numbers, when it replays to the stored status, and who writes around it. */
module DispatchAvailabilityLog {
  import opened Prelude
  import opened BookingStatus
  import opened DriverDomain
  import opened DispatchStore
  import opened DispatchProtocol
  import opened DispatchDrivers
  import opened DispatchAcceptance
  import opened DispatchReplay

  /** A logged move: one the availability table allows, or the release of a driver whose journey ended. */
  predicate AllowedMove(from: AvailabilityStatus, to: AvailabilityStatus) {
    MayMove(from, to) || (from == Assigned && to in {Available, OnBreak})
  }

  /** Rows numbered from 1 that start at OFFLINE, chain, and end in `status`. */
  predicate Replays(rows: seq<AvailabilityMove>, status: AvailabilityStatus) {
    && (if rows == [] then status == Offline else rows[0].from == Offline && rows[|rows| - 1].to == status)
    && (forall i :: 0 <= i < |rows| ==> rows[i].version == i + 1)
    && (forall i :: 0 < i < |rows| ==> rows[i].from == rows[i - 1].to)
  }

  predicate LogFits(a: Availability, rows: seq<AvailabilityMove>, unlogged: nat) {
    && a.version == |rows| + unlogged
    && (forall i :: 0 <= i < |rows| ==> AllowedMove(rows[i].from, rows[i].to) && i < rows[i].version <= a.version)
    && (forall i, j :: 0 <= i < j < |rows| ==> rows[i].version < rows[j].version)
    && (unlogged == 0 ==> Replays(rows, a.status))
  }

  /** One command's effect on a driver's row and log: nothing, one logged move, or one unlogged version bump. */
  predicate Changes(a: Availability, rows: seq<AvailabilityMove>, after: Availability, rowsAfter: seq<AvailabilityMove>, unlogged: nat) {
    if unlogged == 0 then
      || (after == a && rowsAfter == rows)
      || (after.version == a.version + 1 && AllowedMove(a.status, after.status)
          && rowsAfter == rows + [AvailabilityMove(a.status, after.status, after.version)])
    else unlogged == 1 && after.version == a.version + 1 && rowsAfter == rows
  }

  lemma ChangeFits(a: Availability, rows: seq<AvailabilityMove>, after: Availability, rowsAfter: seq<AvailabilityMove>,
                   before: nat, unlogged: nat)
    requires LogFits(a, rows, before) && Changes(a, rows, after, rowsAfter, unlogged)
    ensures LogFits(after, rowsAfter, before + unlogged)
  {
  }

  /** The guard of the branch in which a fatigue report sends the driver on break. */
  predicate SendsOnBreak(s: Store, d: DriverId, aboard: bool) {
    ActiveShift(Rows(s.shifts, d)).Some? && !aboard && d in s.availability && s.availability[d].status in {Available, Offered, FinishingSoon}
  }

  /** The guard of a fatigue clearance. */
  predicate Clears(s: Store, d: DriverId, rested: bool) {
    && ActiveShift(Rows(s.shifts, d)).Some? && rested && !HasActiveAssignment(s.assignments, d) && !HasRideUnderWay(s, d)
    && d in s.availability && s.availability[d].status == OnBreak
  }

  /** The commands that raise a driver's availability version without a log row: a fatigue report that sends the driver on
      break, a fatigue clearance, and the connectivity insert. Each case is the guard of the branch that writes. */
  predicate WritesAroundLog(s: Store, c: Command, d: DriverId) {
    match c
    case FatigueReport(e, aboard) => e == d && SendsOnBreak(s, d, aboard)
    case FatigueClear(e, rested) => e == d && Clears(s, d, rested)
    case Reconcile(e) => e == d && d !in s.availability
    case _ => false
  }

  function Unlogged(s: Store, c: Command, d: DriverId): nat {
    if WritesAroundLog(s, c, d) then 1 else 0
  }

  function UnloggedChanges(s: Store, commands: seq<Command>, d: DriverId): nat
    decreases |commands|
  {
    if commands == [] then 0
    else UnloggedChanges(s, commands[..|commands| - 1], d)
         + Unlogged(Run(s, commands[..|commands| - 1]), commands[|commands| - 1], d)
  }

  ghost predicate DriverChanges(availability: map<DriverId, Availability>, moves: map<DriverId, seq<AvailabilityMove>>,
                                after: map<DriverId, Availability>, movesAfter: map<DriverId, seq<AvailabilityMove>>,
                                d: DriverId, unlogged: nat) {
    Changes(AvailabilityIn(availability, d), Rows(moves, d), AvailabilityIn(after, d), Rows(movesAfter, d), unlogged)
  }

  ghost predicate StepChanges(s: Store, r: Store, d: DriverId, unlogged: nat) {
    DriverChanges(s.availability, s.moves, r.availability, r.moves, d, unlogged)
  }

  lemma SameTables(s: Store, d: DriverId)
    ensures StepChanges(s, s, d, 0)
  {
  }

  lemma MoveDriverChanges(s: Store, e: DriverId, after: Availability, from: AvailabilityStatus, d: DriverId)
    requires from == CurrentAvailability(s, e).status && after.version == CurrentAvailability(s, e).version + 1
    requires AllowedMove(from, after.status)
    ensures StepChanges(s, MoveDriver(s, e, after, from), d, 0)
  {
  }

  // ---------------------------------------------------------------- command by command

  lemma WaveTables(s: Store, w: World, b: BookingId, eligible: seq<CandidateRow>)
    requires b in s.bookings
    ensures WithWave(s, w, b, eligible).availability == s.availability && WithWave(s, w, b, eligible).moves == s.moves
    ensures WithoutDriver(s, b).availability == s.availability && WithoutDriver(s, b).moves == s.moves
  {
    hide WaveOffers, WaveCandidate;
  }

  lemma StartTables(s: Store, account: AccountId, person: PersonId, b: BookingId, key: Key, rows: seq<CandidateRow>, w: World)
    ensures var r := StartBookingDispatch(s, account, person, b, key, rows, w).store;
            r.availability == s.availability && r.moves == s.moves
  {
    hide FirstFault, EligibleRows, WithWave, WithoutDriver;
    if b in s.bookings { WaveTables(s, w, b, EligibleRows(s, w, b, rows)); }
  }

  lemma SetAvailabilityChanges(s: Store, e: DriverId, actorActive: bool, request: AvailabilityRequest, key: Key, w: World, d: DriverId)
    requires request.status in {Available, FinishingSoon, OnBreak, Offline}
    ensures StepChanges(s, SetDriverAvailability(s, e, actorActive, request, key, w).store, d, 0)
  {
    hide AvailabilityCommit, DriverInput, PreShiftBlockers, DriverChanges;
    SameTables(s, d);
    if SetDriverAvailability(s, e, actorActive, request, key, w).store != s {
      var after := NextAvailability(s, e, request);
      CommitTables(s, e, after);
      MoveDriverChanges(s, e, after, FromStatus(s, e), d);
    }
  }

  lemma RefusedTables(s: Store, e: DriverId, actorActive: bool, o: OfferId, key: Key, w: World)
    requires AcceptDriverOffer(s, e, actorActive, o, key, w).outcome.Refused?
    ensures AcceptDriverOffer(s, e, actorActive, o, key, w).store.availability == s.availability
    ensures AcceptDriverOffer(s, e, actorActive, o, key, w).store.moves == s.moves
  {
    hide AcceptDriverOffer, RefusedAccept;
    AcceptRefusal(s, e, actorActive, o, key, w);
    RefusedFrame(s, e, actorActive, o, key, w);
  }

  lemma AcceptedTables(s: Store, e: DriverId, actorActive: bool, o: OfferId, key: Key, w: World)
    requires AcceptDriverOffer(s, e, actorActive, o, key, w).outcome.Accepted?
    ensures var r := AcceptDriverOffer(s, e, actorActive, o, key, w).store;
            || r == s
            || (o in s.offers && s.offers[o].booking in s.bookings && AcceptCommit(s, e, o).Some?
                && r.availability == AcceptCommit(s, e, o).value.availability && r.moves == AcceptCommit(s, e, o).value.moves)
  {
    hide AcceptCommit, RecheckInput, IsEligible, Blockers, AcceptanceAllowed, AttributeNew, CloseOne, Attribution;
  }

  lemma AcceptGuard(s: Store, e: DriverId, o: OfferId)
    requires o in s.offers && s.offers[o].booking in s.bookings && AcceptCommit(s, e, o).Some?
    ensures e in s.availability && MayMove(s.availability[e].status, Assigned)
  {
    hide ShiftsOnAccept, WonOffers, WonOutcomes;
  }

  lemma AcceptChanges(s: Store, e: DriverId, actorActive: bool, o: OfferId, key: Key, w: World, d: DriverId)
    ensures StepChanges(s, AcceptDriverOffer(s, e, actorActive, o, key, w).store, d, 0)
  {
    hide AcceptCommit, AcceptDriverOffer, DriverChanges;
    SameTables(s, d);
    if AcceptDriverOffer(s, e, actorActive, o, key, w).outcome.Refused? {
      RefusedTables(s, e, actorActive, o, key, w);
    } else {
      AcceptedTables(s, e, actorActive, o, key, w);
      if AcceptDriverOffer(s, e, actorActive, o, key, w).store != s {
        AcceptCommitDriver(s, e, o);
        AcceptGuard(s, e, o);
        MoveDriverChanges(s, e, Promoted(s.availability[e]), s.availability[e].status, d);
      }
    }
  }

  lemma EndTables(s: Store, e: DriverId, j: JourneyId, booking: Status, journey: Journey, assignment: AssignmentStatus,
                  to: AvailabilityStatus, kind: ShiftEventKind)
    requires j in s.journeys && s.journeys[j].booking in s.bookings && s.journeys[j].assignment in s.assignments
    requires e in s.availability
    ensures var r := EndJourney(s, e, j, booking, journey, assignment, to, kind);
            var moved := MoveDriver(s, e, s.availability[e].(status := to, version := s.availability[e].version + 1), Assigned);
            r.availability == moved.availability && r.moves == moved.moves
  {
    hide NoteShiftEvent;
  }

  lemma EndChanges(s: Store, e: DriverId, j: JourneyId, booking: Status, journey: Journey, assignment: AssignmentStatus,
                   to: AvailabilityStatus, kind: ShiftEventKind, d: DriverId)
    requires j in s.journeys && s.journeys[j].booking in s.bookings && s.journeys[j].assignment in s.assignments
    requires e in s.availability && s.availability[e].status == Assigned && to in {Available, OnBreak}
    ensures StepChanges(s, EndJourney(s, e, j, booking, journey, assignment, to, kind), d, 0)
  {
    hide EndJourney, DriverChanges, MoveDriver;
    EndTables(s, e, j, booking, journey, assignment, to, kind);
    MoveDriverChanges(s, e, s.availability[e].(status := to, version := s.availability[e].version + 1), Assigned, d);
  }

  lemma EndingsChange(s: Store, c: Command, d: DriverId)
    requires c.Complete? || c.Terminate?
    ensures StepChanges(s, Apply(s, c).store, d, 0)
  {
    hide EndJourney, DriverChanges;
    var r := Apply(s, c).store;
    SameTables(s, d);
    if c.Complete? && r != s {
      EndChanges(s, c.driver, c.journey, Completed, s.journeys[c.journey].(status := JourneyDone), AssignmentCompleted,
                 Available, JourneyCompletedAvailable, d);
    } else if c.Terminate? && r != s {
      EndChanges(s, c.driver, c.journey, ActiveIncident, s.journeys[c.journey].(legInterrupted := true), AssignmentCancelled,
                 OnBreak, UnsafeTerminationBreak, d);
    }
  }

  lemma BumpChanges(s: Store, e: DriverId, after: Availability, d: DriverId)
    requires after.version == CurrentAvailability(s, e).version + 1
    ensures DriverChanges(s.availability, s.moves, s.availability[e := after], s.moves, d, if e == d then 1 else 0)
  {
  }

  lemma ReportTables(s: Store, e: DriverId, aboard: bool)
    ensures ReportFatigue(s, e, aboard).store.moves == s.moves
    ensures !SendsOnBreak(s, e, aboard) ==> ReportFatigue(s, e, aboard).store.availability == s.availability
    ensures SendsOnBreak(s, e, aboard) ==>
              ReportFatigue(s, e, aboard).store.availability
                == s.availability[e := s.availability[e].(status := OnBreak, version := s.availability[e].version + 1)]
  {
    hide NoteShiftEvent, ActiveShift;
  }

  lemma ReportChanges(s: Store, e: DriverId, aboard: bool, d: DriverId)
    ensures StepChanges(s, ReportFatigue(s, e, aboard).store, d, Unlogged(s, FatigueReport(e, aboard), d))
  {
    hide ReportFatigue, DriverChanges;
    SameTables(s, d);
    ReportTables(s, e, aboard);
    if SendsOnBreak(s, e, aboard) { BumpChanges(s, e, s.availability[e].(status := OnBreak, version := s.availability[e].version + 1), d); }
  }

  lemma ClearTables(s: Store, e: DriverId, rested: bool)
    ensures ClearFatigue(s, e, rested).store.moves == s.moves
    ensures !Clears(s, e, rested) ==> ClearFatigue(s, e, rested).store.availability == s.availability
    ensures Clears(s, e, rested) ==>
              ClearFatigue(s, e, rested).store.availability == s.availability[e := s.availability[e].(version := s.availability[e].version + 1)]
  {
    hide NoteShiftEvent, ActiveShift, HasActiveAssignment, HasRideUnderWay;
  }

  lemma ClearChanges(s: Store, e: DriverId, rested: bool, d: DriverId)
    ensures StepChanges(s, ClearFatigue(s, e, rested).store, d, Unlogged(s, FatigueClear(e, rested), d))
  {
    hide ClearFatigue, DriverChanges;
    SameTables(s, d);
    ClearTables(s, e, rested);
    if Clears(s, e, rested) { BumpChanges(s, e, s.availability[e].(version := s.availability[e].version + 1), d); }
  }

  lemma FatigueChanges(s: Store, c: Command, d: DriverId)
    requires c.FatigueReport? || c.FatigueClear?
    ensures StepChanges(s, Apply(s, c).store, d, Unlogged(s, c, d))
  {
    hide Apply, ReportFatigue, ClearFatigue, DriverChanges, Unlogged;
    ApplyDispatches(s, c);
    if c.FatigueReport? { ReportChanges(s, c.driver, c.passengerAboard, d); } else { ClearChanges(s, c.driver, c.rested, d); }
  }

  lemma ConcernChanges(s: Store, c: Command, d: DriverId)
    requires c.Concern? || c.Reconcile?
    ensures StepChanges(s, Apply(s, c).store, d, Unlogged(s, c, d))
  {
    hide DriverChanges, MoveDriver;
    var r := Apply(s, c).store;
    SameTables(s, d);
    if r != s && c.Concern? {
      MoveDriverChanges(s, c.driver, Availability(Offline, s.availability[c.driver].version + 1, None, None, None, None),
                        s.availability[c.driver].status, d);
    }
    if r != s && c.Reconcile? { BumpChanges(s, c.driver, r.availability[c.driver], d); }
  }

  lemma QuietTables(s: Store, c: Command)
    requires c.Create? || c.Prepare? || c.ListOffers? || c.Decline? || c.Acknowledge? || c.Advance?
    ensures Apply(s, c).store.availability == s.availability && Apply(s, c).store.moves == s.moves
  {
    hide Apply, CloseOffers, AttributeNew, BookingStatusFor, CanForward, MoveBooking, AppendRow;
    ApplyDispatches(s, c);
  }

  lemma ApplyChanges(s: Store, c: Command, d: DriverId)
    ensures StepChanges(s, Apply(s, c).store, d, Unlogged(s, c, d))
  {
    hide DriverChanges, CreateBooking, PrepareBooking, StartBookingDispatch, SetDriverAvailability, ListDriverOffers, DeclineDriverOffer,
      AcceptDriverOffer, AcknowledgeAssignment, AdvanceJourney, CompleteJourney, TerminateUnsafeJourney, ReportFatigue,
      ClearFatigue, VehicleConcern, ReconcileConnectivity;
    SameTables(s, d);
    match c
    case Start(a, p, b, k, rows, w) => StartTables(s, a, p, b, k, rows, w);
    case SetAvailability(e, active, r, k, w) =>
      if r.status in {Available, FinishingSoon, OnBreak, Offline} { SetAvailabilityChanges(s, e, active, r, k, w, d); }
    case Accept(e, active, o, k, w) => AcceptChanges(s, e, active, o, k, w, d);
    case Complete(_, _, _) => EndingsChange(s, c, d);
    case Terminate(_, _, _, _, _) => EndingsChange(s, c, d);
    case FatigueReport(_, _) => FatigueChanges(s, c, d);
    case FatigueClear(_, _) => FatigueChanges(s, c, d);
    case Concern(_, _) => ConcernChanges(s, c, d);
    case Reconcile(_) => ConcernChanges(s, c, d);
    case _ => QuietTables(s, c);
  }

  /** "The version is the number of log rows" survives exactly the commands that do not write around the log. */
  lemma VersionMatchesLog(s: Store, c: Command, d: DriverId)
    requires CurrentAvailability(s, d).version == |Rows(s.moves, d)|
    ensures CurrentAvailability(Apply(s, c).store, d).version == |Rows(Apply(s, c).store.moves, d)| <==> !WritesAroundLog(s, c, d)
  {
    hide Apply, WritesAroundLog, AllowedMove;
    ApplyChanges(s, c, d);
  }

  // ---------------------------------------------------------------- every run

  /** Version = logged moves + unlogged bumps, in every run, with rising row versions. */
  lemma {:induction false} AvailabilityLogReplays(commands: seq<Command>, d: DriverId)
    ensures var s := Run(EMPTY, commands);
            LogFits(CurrentAvailability(s, d), Rows(s.moves, d), UnloggedChanges(EMPTY, commands, d))
    decreases |commands|
  {
    hide Apply, LogFits, Changes, Unlogged;
    if commands == [] {
      EmptyLogFits(d);
    } else {
      var before := Run(EMPTY, commands[..|commands| - 1]);
      var c := commands[|commands| - 1];
      AvailabilityLogReplays(commands[..|commands| - 1], d);
      ApplyChanges(before, c, d);
      var after := Apply(before, c).store;
      ChangeFits(CurrentAvailability(before, d), Rows(before.moves, d), CurrentAvailability(after, d), Rows(after.moves, d),
                 UnloggedChanges(EMPTY, commands[..|commands| - 1], d), Unlogged(before, c, d));
    }
  }

  lemma EmptyLogFits(d: DriverId)
    ensures LogFits(CurrentAvailability(EMPTY, d), Rows(EMPTY.moves, d), 0)
  {
  }

  /** No command of the run writes around the log of `d`. */
  predicate NeverWrittenAround(s: Store, commands: seq<Command>, d: DriverId) {
    forall n :: 0 <= n < |commands| ==> !WritesAroundLog(Run(s, commands[..n]), commands[n], d)
  }

  lemma {:induction false} UnloggedIff(s: Store, commands: seq<Command>, d: DriverId)
    ensures UnloggedChanges(s, commands, d) == 0 <==> NeverWrittenAround(s, commands, d)
    decreases |commands|
  {
    hide Run, WritesAroundLog;
    if commands != [] {
      var shorter := commands[..|commands| - 1];
      UnloggedIff(s, shorter, d);
      forall n | 0 <= n < |shorter| ensures shorter[..n] == commands[..n] && shorter[n] == commands[n] {}
    }
  }

  /** The version is the length of the log, whose rows replay from OFFLINE to the stored status,
      exactly in the runs in which nothing has written around the log. */
  lemma VersionIsLogLengthIff(commands: seq<Command>, d: DriverId)
    ensures var a := CurrentAvailability(Run(EMPTY, commands), d);
            var rows := Rows(Run(EMPTY, commands).moves, d);
            (a.version == |rows| && Replays(rows, a.status)) <==> NeverWrittenAround(EMPTY, commands, d)
  {
    hide Run, CurrentAvailability, NeverWrittenAround, UnloggedChanges, Replays, AllowedMove;
    AvailabilityLogReplays(commands, d);
    UnloggedIff(EMPTY, commands, d);
  }

  /** The shortest run that breaks it: the connectivity insert gives a driver without a row version 1 and no log row. */
  lemma ReconcileUnlogged(d: DriverId)
    ensures var s := Run(EMPTY, [Reconcile(d)]);
            d in s.availability && s.availability[d].version == 1 && Rows(s.moves, d) == []
    ensures WritesAroundLog(EMPTY, Reconcile(d), d)
  {
    assert [Reconcile(d)][..0] == [];
    assert Run(EMPTY, [Reconcile(d)]) == Apply(Run(EMPTY, []), Reconcile(d)).store;
  }
}
