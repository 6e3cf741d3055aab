/** A driver whose journey was terminated with the passenger aboard can never be cleared after fatigue: the journey row keeps its status. */
module DispatchClearance {
  import opened Prelude
  import opened DriverDomain
  import opened DispatchStore
  import opened DispatchProtocol
  import opened DispatchInvariants
  import opened DispatchRuns
  import opened DispatchHistory
  import opened DispatchTheorems
  import opened DispatchEffects
  import opened DispatchWitness

  /** Past the identity check and not over. */
  predicate Aboard(status: JourneyStatus) {
    status in {RideVerified, UnderWay, NearDestination}
  }

  /** Journey `j` was left with the passenger aboard when the driver's assignment ended. */
  ghost predicate LeftAboard(s: Store, d: DriverId, j: JourneyId) {
    && j in s.journeys && s.journeys[j].assignment in s.assignments && Aboard(s.journeys[j].status)
    && s.assignments[s.journeys[j].assignment].driver == d && s.assignments[s.journeys[j].assignment].status != Active
    && s.assignments[s.journeys[j].assignment].booking == s.journeys[j].booking
  }

  lemma LeftAboardStays(s: Store, commands: seq<Command>, d: DriverId, j: JourneyId)
    requires Inv(s) && LeftAboard(s, d, j)
    ensures LeftAboard(Run(s, commands), d, j)
  {
    hide Inv, Run, RepliesKept, ReportsKept, BookingsKept, BookingLogGrows, OffersKept, OutcomesKept, MovesGrow, VersionsGrow;
    RunGrows(s, commands);
  }

  lemma LeftAboardRefuses(s: Store, d: DriverId, j: JourneyId, rested: bool)
    requires LeftAboard(s, d, j)
    ensures ClearFatigue(s, d, rested) == Step(s, Refused(Conflict))
  {
    hide ActiveShift, HasActiveAssignment, NoteShiftEvent;
  }

  /** From then on every clearance of that driver is refused, whatever happens and however long the driver rests. */
  lemma NeverCleared(s: Store, commands: seq<Command>, d: DriverId, j: JourneyId, rested: bool)
    requires Inv(s) && LeftAboard(s, d, j)
    ensures ClearFatigue(Run(s, commands), d, rested) == Step(Run(s, commands), Refused(Conflict))
  {
    hide Inv, Run, LeftAboard, ClearFatigue;
    LeftAboardStays(s, commands, d, j);
    LeftAboardRefuses(Run(s, commands), d, j, rested);
  }

  // ---------------------------------------------------------------- exactly when

  lemma AboardOnBreak(s: Store, d: DriverId)
    requires Inv(s) && StatusOfDriver(s.availability, d) == OnBreak
    ensures HasRideUnderWay(s, d) <==> exists j :: LeftAboard(s, d, j)
  {
    hide IdsIssued, OfferSide, LogsAgree, AttemptsFit, PlacesKnown, ShiftsFit;
    if HasRideUnderWay(s, d) {
      var a, j :| a in s.assignments && s.assignments[a].driver == d && j in s.journeys && s.journeys[j].booking == s.assignments[a].booking
                  && s.journeys[j].status in {RideVerified, UnderWay, NearDestination};
      assert s.journeys[j].assignment == a;
      assert LeftAboard(s, d, j);
    }
  }

  lemma RestingOnShift(s: Store, d: DriverId)
    requires Inv(s) && StatusOfDriver(s.availability, d) == OnBreak
    ensures d in s.availability && ActiveShift(Rows(s.shifts, d)).Some? && !HasActiveAssignment(s.assignments, d)
  {
    hide IdsIssued, BookingSide, OfferSide, PlacesKnown;
    CurrentIsFirst(Rows(s.shifts, d), 0);
  }

  /** A driver on BREAK can be cleared after resting exactly if no journey of theirs was left with the passenger aboard; shift and
      assignments never stand in the way. */
  lemma ClearanceIff(s: Store, d: DriverId, rested: bool)
    requires Inv(s) && StatusOfDriver(s.availability, d) == OnBreak
    ensures ClearFatigue(s, d, rested).outcome.Accepted? <==> rested && !exists j :: LeftAboard(s, d, j)
  {
    hide Inv, ClearFatigue, ActiveShift, HasActiveAssignment, HasRideUnderWay, LeftAboard;
    AboardOnBreak(s, d);
    RestingOnShift(s, d);
    ClearStore(s, d, rested);
  }

  /** A termination leaves the journey so exactly if its passenger had passed the identity check. */
  lemma TerminationLeavesAboardIff(s: Store, account: AccountId, d: DriverId, j: JourneyId, report: string, key: Key)
    requires Inv(s) && SafetyKey(account, j, key) !in s.safetyDedup && TerminateUnsafeJourney(s, account, d, j, report, key).outcome.Accepted?
    ensures j in s.journeys && StatusOfDriver(TerminateUnsafeJourney(s, account, d, j, report, key).store.availability, d) == OnBreak
    ensures LeftAboard(TerminateUnsafeJourney(s, account, d, j, report, key).store, d, j) <==> Aboard(s.journeys[j].status)
    ensures forall k :: k != j ==> (LeftAboard(TerminateUnsafeJourney(s, account, d, j, report, key).store, d, k) <==> LeftAboard(s, d, k))
  {
    hide IdsIssued, OfferSide, LogsAgree, AttemptsFit, DriverSide, TerminateUnsafeJourney, BookingMoved, ShiftNoted;
    TerminationExact(s, account, d, j, report, key);
    TerminationLeaves(s, account, d, j, report, key);
  }

  // ---------------------------------------------------------------- a run that gets there

  const ARRIVES: Command := Advance(DRIVER, 7, true)

  /** The driver of the witness run rides on until the passenger is verified. */
  const PICKED_UP: seq<Command> := RIDE + [ARRIVES] + [ARRIVES] + [ARRIVES]

  lemma AdvancesOnce(s: Store)
    requires Inv(s) && Holds(s, DRIVER, 7) && Onward(s.journeys[7].status).Some?
    ensures var r := Apply(s, ARRIVES).store;
            && Holds(r, DRIVER, 7) && r.journeys[7].status == Onward(s.journeys[7].status).value.0 && r.safetyDedup == s.safetyDedup
  {
    hide Inv, Apply, AdvanceJourney, BookingMoved;
    ApplyDispatches(s, ARRIVES);
    AdvanceMeans(s, DRIVER, 7, true);
  }

  lemma PassengerAboard()
    ensures var s := Run(EMPTY, PICKED_UP); Inv(s) && Holds(s, DRIVER, 7) && s.journeys[7].status == RideVerified && s.safetyDedup == map[]
  {
    hide Inv, Run, Apply, Holds;
    OnTheWay();
    ReachableHolds(RIDE);
    ReachableHolds(RIDE + [ARRIVES]);
    ReachableHolds(RIDE + [ARRIVES] + [ARRIVES]);
    ReachableHolds(PICKED_UP);
    RunMore(EMPTY, RIDE, ARRIVES);
    RunMore(EMPTY, RIDE + [ARRIVES], ARRIVES);
    RunMore(EMPTY, RIDE + [ARRIVES] + [ARRIVES], ARRIVES);
    AdvancesOnce(Run(EMPTY, RIDE));
    AdvancesOnce(Run(EMPTY, RIDE + [ARRIVES]));
    AdvancesOnce(Run(EMPTY, RIDE + [ARRIVES] + [ARRIVES]));
  }

  /** A run from the empty store after which the driver is on BREAK and can never be cleared. */
  lemma NeverClearedExample(commands: seq<Command>, rested: bool)
    ensures var s := Run(EMPTY, PICKED_UP + [STOP]);
            StatusOfDriver(s.availability, DRIVER) == OnBreak && ClearFatigue(Run(s, commands), DRIVER, rested).outcome == Refused(Conflict)
  {
    hide Inv, Run, Apply, Holds, ClearFatigue, LeftAboard, TerminateUnsafeJourney;
    PassengerAboard();
    RunMore(EMPTY, PICKED_UP, STOP);
    var s := Run(EMPTY, PICKED_UP);
    ApplyDispatches(s, STOP);
    TerminationExact(s, ACCOUNT, DRIVER, 7, "unsafe", "k5");
    TerminationLeavesAboardIff(s, ACCOUNT, DRIVER, 7, "unsafe", "k5");
    ReachableHolds(PICKED_UP + [STOP]);
    NeverCleared(Run(EMPTY, PICKED_UP + [STOP]), commands, DRIVER, 7, rested);
  }
}
