/** Every command keeps the dispatch invariant, so every reachable store satisfies it. */
module DispatchRuns {
  import opened Prelude
  import opened DriverDomain
  import opened DispatchStore
  import opened DispatchProtocol
  import opened DispatchInvariants
  import opened DispatchPreservation
  import opened DispatchJourneys
  import opened DispatchAcceptance

  // ---------------------------------------------------------------- accepting, all three commits

  lemma RecheckReads(s: Store, w: World, d: DriverId, actorActive: bool, offer: Offer, b: BookingId, booking: Booking)
    requires d in w.drivers && RecheckInput(s, w, d, actorActive, offer, b, booking).Success?
    requires IsEligible(RecheckInput(s, w, d, actorActive, offer, b, booking).value, w.now)
    ensures StatusOfDriver(s.availability, d) in {Available, Offered, FinishingSoon}
    ensures !HasActiveAssignment(s.assignments, d)
  {
    hide Stands, FatiguePassed, HardRequirementsMatch, OperatingRestricted, MaintenancePermits, Blockers;
    EligibleMeans(RecheckInput(s, w, d, actorActive, offer, b, booking).value, w.now);
  }

  lemma ExpiryKeeps(s: Store, o: OfferId)
    requires Inv(s) && o in s.offers && s.offers[o].status == OfferOpen
    ensures Inv(s.(offers := s.offers[o := s.offers[o].(status := OfferExpired, reason := Some(TtlExpired))],
                   outcomes := AttributeNew(s.outcomes, s.offers, {o}, OutTimedOut, DriverChoice)))
  {
    hide BookingSide, OfferSide, DriverSide;
    CloseManyKeeps(s.attempts, s.offers, s.assignments, s.outcomes, {o}, OfferExpired, TtlExpired, OutTimedOut, DriverChoice);
    assert CloseOffers(s.offers, {o}, OfferExpired, Some(TtlExpired))
        == s.offers[o := s.offers[o].(status := OfferExpired, reason := Some(TtlExpired))];
  }

  lemma IneligibleKeeps(s: Store, o: OfferId)
    requires Inv(s) && o in s.offers && s.offers[o].status == OfferOpen
    ensures Inv(CloseOne(s, o, OfferWithdrawn, Some(BecameIneligible), Attribution(s.offers[o].driver, OutIneligible, SystemCause)))
  {
    hide BookingSide, OfferSide, DriverSide;
    CloseOneKeeps(s.attempts, s.offers, s.assignments, s.outcomes, o, OfferWithdrawn, BecameIneligible, OutIneligible, SystemCause);
  }

  lemma AcceptKeeps(s: Store, d: DriverId, actorActive: bool, o: OfferId, key: Key, w: World)
    requires Inv(s)
    ensures Inv(AcceptDriverOffer(s, d, actorActive, o, key, w).store)
  {
    hide IdsIssued, BookingSide, OfferSide, DriverSide, RecheckInput, AcceptCommit, AcceptanceAllowed, IsEligible, Blockers, AttributeNew, CloseOne;
    var r := AcceptDriverOffer(s, d, actorActive, o, key, w).store;
    if r != s {
      var offer := s.offers[o];
      ExpiryKeeps(s, o);
      IneligibleKeeps(s, o);
      if offer.expiresAt > w.now {
        var facts := RecheckInput(s, w, d, actorActive, offer, offer.booking, s.bookings[offer.booking]);
        if IsEligible(facts.value, w.now) {
          RecheckReads(s, w, d, actorActive, offer, offer.booking, s.bookings[offer.booking]);
          AcceptCommitKeeps(s, d, o);
          OtherTablesFree(AcceptCommit(s, d, o).value, r);
        }
      }
    }
  }

  // ---------------------------------------------------------------- every command, every run

  lemma ApplyKeeps(s: Store, c: Command)
    requires Inv(s)
    ensures Inv(Apply(s, c).store)
  {
    hide Inv, CreateBooking, PrepareBooking, StartBookingDispatch, SetDriverAvailability, ListDriverOffers, DeclineDriverOffer,
      AcceptDriverOffer, AcknowledgeAssignment, AdvanceJourney, CompleteJourney, TerminateUnsafeJourney, ReportFatigue,
      ClearFatigue, VehicleConcern, ReconcileConnectivity;
    match c
    case Create(p, r, f, q) => CreateKeeps(s, p, r, f, q);
    case Prepare(p, b, f, t) => PrepareKeeps(s, p, b, f, t);
    case Start(a, p, b, k, rows, w) => StartKeeps(s, a, p, b, k, rows, w);
    case SetAvailability(d, active, r, k, w) =>
      if r.status in {Available, FinishingSoon, OnBreak, Offline} { SetAvailabilityKeeps(s, d, active, r, k, w); }
    case ListOffers(d, now) => ListOffersKeeps(s, d, now);
    case Decline(d, o, y, k, now) => DeclineKeeps(s, d, o, y, k, now);
    case Accept(d, active, o, k, w) => AcceptKeeps(s, d, active, o, k, w);
    case Acknowledge(d, a) => AcknowledgeKeeps(s, d, a);
    case Advance(d, j, e) => AdvanceKeeps(s, d, j, e);
    case Complete(d, j, e) => CompleteKeeps(s, d, j, e);
    case Terminate(a, d, j, r, k) => TerminateKeeps(s, a, d, j, r, k);
    case FatigueReport(d, p) => ReportFatigueKeeps(s, d, p);
    case FatigueClear(d, r) => ClearFatigueKeeps(s, d, r);
    case Concern(d, v) => VehicleConcernKeeps(s, d, v);
    case Reconcile(d) => ReconcileKeeps(s, d);
  }

  /** The invariant holds after every run of commands from any store that satisfies it. */
  lemma {:induction false} RunKeeps(s: Store, commands: seq<Command>)
    requires Inv(s)
    ensures Inv(Run(s, commands))
    decreases |commands|
  {
    hide Inv, Apply;
    if commands != [] {
      RunKeeps(s, commands[..|commands| - 1]);
      ApplyKeeps(Run(s, commands[..|commands| - 1]), commands[|commands| - 1]);
    }
  }

  lemma ReachableHolds(commands: seq<Command>)
    ensures Inv(Run(EMPTY, commands))
  {
    hide Inv, Run;
    EmptyHolds();
    RunKeeps(EMPTY, commands);
  }
}
