/** The driver side of the invariant: availability, ACTIVE assignments and shifts, change by change. */
module DispatchDrivers {
  import opened Prelude
  import opened DriverDomain
  import opened DispatchStore
  import opened DispatchProtocol
  import opened DispatchInvariants

  lemma ActiveShiftIsLast(shifts: seq<Shift>)
    requires LastOnlyActive(shifts)
    ensures ActiveShift(shifts).Some? <==> HasActiveShift(shifts)
    ensures ActiveShift(shifts).Some? ==> ActiveShift(shifts).value == |shifts| - 1
  {
  }

  /** Recording an availability change leaves an ACTIVE shift exactly for a driver who is not OFFLINE,
      and fails exactly when a shift must be opened without knowing where or with what. */
  lemma ShiftRecorded(shifts: seq<Shift>, from: AvailabilityStatus, to: AvailabilityStatus, version: nat,
                      region: Option<Region>, vehicle: Option<VehicleId>)
    requires LastOnlyActive(shifts)
    ensures var r := RecordShift(shifts, from, to, version, region, vehicle);
            && (r.None? <==> to != Offline && !HasActiveShift(shifts) && (region.None? || vehicle.None?))
            && (r.Some? ==> LastOnlyActive(r.value) && (HasActiveShift(r.value) <==> to != Offline))
  {
    ActiveShiftIsLast(shifts);
  }

  /** `after` differs from `shifts` at most in the driver's own shifts, which fit a driver with `status`. */
  ghost predicate ShiftsChange(shifts: map<DriverId, seq<Shift>>, after: map<DriverId, seq<Shift>>, d: DriverId, status: AvailabilityStatus) {
    && (forall e :: e != d ==> Rows(after, e) == Rows(shifts, e))
    && LastOnlyActive(Rows(after, d))
    && (status != Offline ==> HasActiveShift(Rows(after, d)))
  }

  lemma NoteKeepsShifts(shifts: map<DriverId, seq<Shift>>, d: DriverId, kind: ShiftEventKind,
                        from: AvailabilityStatus, to: AvailabilityStatus, version: nat)
    requires LastOnlyActive(Rows(shifts, d))
    ensures var after := NoteShiftEvent(shifts, d, kind, from, to, version);
            && (forall e :: e != d ==> Rows(after, e) == Rows(shifts, e))
            && LastOnlyActive(Rows(after, d))
            && (HasActiveShift(Rows(after, d)) <==> HasActiveShift(Rows(shifts, d)))
  {
    ActiveShiftIsLast(Rows(shifts, d));
  }

  predicate PlaceKnown(a: Availability) {
    a.status != Offline ==> a.region.Some? && a.vehicle.Some?
  }

  lemma UnassignedDriverMoves(availability: map<DriverId, Availability>, assignments: map<AssignmentId, Assignment>,
                              d: DriverId, after: Availability)
    requires ActiveFits(availability, assignments)
    requires StatusOfDriver(availability, d) != Assigned && after.status != Assigned
    ensures ActiveFits(availability[d := after], assignments)
  {
    var moved := availability[d := after];
    forall e | e in moved && moved[e].status == Assigned ensures exists a :: HoldsActive(assignments, a, e) {
      assert availability[e].status == Assigned;
    }
  }

  /** A driver without an assignment changes availability. */
  lemma DriverMoves(availability: map<DriverId, Availability>, assignments: map<AssignmentId, Assignment>,
                    shifts: map<DriverId, seq<Shift>>, d: DriverId, after: Availability, shiftsAfter: map<DriverId, seq<Shift>>)
    requires DriverSide(availability, assignments, shifts)
    requires StatusOfDriver(availability, d) != Assigned && after.status != Assigned && PlaceKnown(after)
    requires ShiftsChange(shifts, shiftsAfter, d, after.status)
    ensures DriverSide(availability[d := after], assignments, shiftsAfter)
  {
    hide ActiveFits, LastOnlyActive, HasActiveShift;
    UnassignedDriverMoves(availability, assignments, d, after);
  }

  lemma AssignmentTaken(availability: map<DriverId, Availability>, assignments: map<AssignmentId, Assignment>,
                        d: DriverId, after: Availability, a: AssignmentId, taken: Assignment)
    requires ActiveFits(availability, assignments) && a !in assignments
    requires StatusOfDriver(availability, d) != Assigned && after.status == Assigned
    requires taken.driver == d && taken.status == Active
    ensures ActiveFits(availability[d := after], assignments[a := taken])
  {
    var moved := availability[d := after];
    var more := assignments[a := taken];
    assert HoldsActive(more, a, d);
    forall e | e in moved && moved[e].status == Assigned ensures exists c :: HoldsActive(more, c, e) {
      if e != d {
        var c :| HoldsActive(assignments, c, e);
        assert HoldsActive(more, c, e);
      }
    }
    forall x, y, e | HoldsActive(more, x, e) && HoldsActive(more, y, e) ensures x == y {
      if x != a && y != a { assert HoldsActive(assignments, x, e) && HoldsActive(assignments, y, e); }
    }
  }

  /** An eligible driver takes a new assignment. */
  lemma DriverTakes(availability: map<DriverId, Availability>, assignments: map<AssignmentId, Assignment>,
                    shifts: map<DriverId, seq<Shift>>, d: DriverId, after: Availability,
                    a: AssignmentId, taken: Assignment, shiftsAfter: map<DriverId, seq<Shift>>)
    requires DriverSide(availability, assignments, shifts) && a !in assignments
    requires StatusOfDriver(availability, d) != Assigned && after.status == Assigned && PlaceKnown(after)
    requires taken.driver == d && taken.status == Active
    requires ShiftsChange(shifts, shiftsAfter, d, Assigned)
    ensures DriverSide(availability[d := after], assignments[a := taken], shiftsAfter)
  {
    hide ActiveFits, LastOnlyActive, HasActiveShift;
    AssignmentTaken(availability, assignments, d, after, a, taken);
  }

  lemma AssignmentEnds(availability: map<DriverId, Availability>, assignments: map<AssignmentId, Assignment>,
                       d: DriverId, after: Availability, a: AssignmentId, status: AssignmentStatus)
    requires ActiveFits(availability, assignments) && HoldsActive(assignments, a, d)
    requires after.status != Assigned && status != Active
    ensures ActiveFits(availability[d := after], assignments[a := assignments[a].(status := status)])
  {
    var moved := availability[d := after];
    var ended := assignments[a := assignments[a].(status := status)];
    forall e | e in moved && moved[e].status == Assigned ensures exists c :: HoldsActive(ended, c, e) {
      var c :| HoldsActive(assignments, c, e);
      assert HoldsActive(ended, c, e);
    }
    forall c | c in ended && ended[c].status == Active ensures StatusOfDriver(moved, ended[c].driver) == Assigned {
      assert HoldsActive(assignments, c, ended[c].driver);
    }
    forall x, y, e | HoldsActive(ended, x, e) && HoldsActive(ended, y, e) ensures x == y {
      assert HoldsActive(assignments, x, e) && HoldsActive(assignments, y, e);
    }
  }

  /** A driver's ACTIVE assignment ends and the driver is released from ASSIGNED. */
  lemma DriverReleased(availability: map<DriverId, Availability>, assignments: map<AssignmentId, Assignment>,
                       shifts: map<DriverId, seq<Shift>>, d: DriverId, after: Availability,
                       a: AssignmentId, status: AssignmentStatus, shiftsAfter: map<DriverId, seq<Shift>>)
    requires DriverSide(availability, assignments, shifts) && HoldsActive(assignments, a, d)
    requires after.status != Assigned && status != Active && PlaceKnown(after)
    requires ShiftsChange(shifts, shiftsAfter, d, after.status)
    ensures DriverSide(availability[d := after], assignments[a := assignments[a].(status := status)], shiftsAfter)
  {
    hide ActiveFits, LastOnlyActive, HasActiveShift;
    AssignmentEnds(availability, assignments, d, after, a, status);
  }

  /** The tables after an availability change. */
  lemma CommitTables(s: Store, d: DriverId, after: Availability)
    requires AvailabilityCommit(s, d, after).Some?
    ensures AvailabilityCommit(s, d, after).value.availability == s.availability[d := after]
    ensures AvailabilityCommit(s, d, after).value.moves == MoveDriver(s, d, after, FromStatus(s, d)).moves
    ensures RecordShift(Rows(s.shifts, d), FromStatus(s, d), after.status, after.version, after.region, after.vehicle).Some?
    ensures AvailabilityCommit(s, d, after).value.shifts
              == s.shifts[d := RecordShift(Rows(s.shifts, d), FromStatus(s, d), after.status, after.version, after.region, after.vehicle).value]
    ensures AvailabilityCommit(s, d, after).value.offers ==
              if after.status in {OnBreak, Offline}
              then CloseOffers(s.offers, OpenOffersOf(s.offers, d), OfferWithdrawn, Some(WorkIntentChange)) else s.offers
  {
    hide RecordShift, WithdrawForBreak;
    var shifts := RecordShift(Rows(s.shifts, d), FromStatus(s, d), after.status, after.version, after.region, after.vehicle);
    var moved := MoveDriver(s, d, after, FromStatus(s, d)).(shifts := s.shifts[d := shifts.value]);
    WithdrawalTables(moved, d);
  }

  lemma WithdrawalTables(s: Store, d: DriverId)
    ensures WithdrawForBreak(s, d).availability == s.availability && WithdrawForBreak(s, d).moves == s.moves
    ensures WithdrawForBreak(s, d).shifts == s.shifts
    ensures WithdrawForBreak(s, d).offers == CloseOffers(s.offers, OpenOffersOf(s.offers, d), OfferWithdrawn, Some(WorkIntentChange))
  {
    hide CloseOffers, AttributeNew;
  }
}
