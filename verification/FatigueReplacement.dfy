/** Replacement seen from both protocols: dispatch never makes the assignment the control room waits for. */
module FatigueReplacement {
  import opened Prelude
  import Store = DispatchStore
  import Dispatch = DispatchProtocol
  import DispatchTheorems
  import opened FatigueHandover

  /** The assignment rows the control room reads are rows of the dispatch store. */
  predicate Reads(fleet: Fleet, s: Store.Store) {
    forall a :: a in fleet.assignments ==> a in s.assignments && s.assignments[a].booking == fleet.assignments[a].booking
  }

  /** Dispatch assigns a booking once, so no second assignment of the booking exists for a replacement to be recorded. */
  lemma NoReplacementToRecord(commands: seq<Dispatch.Command>, f: File, fleet: Fleet, a: AssignmentId)
    requires Reads(fleet, Dispatch.Run(Store.EMPTY, commands))
    ensures !MayReplace(f, fleet, a)
  {
    if MayReplace(f, fleet, a) {
      DispatchTheorems.OneAssignmentPerBooking(commands, a, f.row.assignment);
      assert false;
    }
  }
}
