/** What a refused dispatch command answers, and the two refusals that commit first, in terms of the rows. */
module DispatchAnswers {
  import opened Prelude
  import opened BookingStatus
  import opened DriverDomain
  import opened DispatchStore
  import opened DispatchProtocol
  import opened DispatchInvariants
  import opened DispatchTheorems
  import opened DispatchReplay
  import opened DispatchEligibility

  // ---------------------------------------------------------------- accepting

  /** The driver's own open offer, asked for under a new key. */
  predicate InHand(s: Store, d: DriverId, o: OfferId, key: Key) {
    o in s.offers && s.offers[o].driver == d && s.offers[o].status == OfferOpen && DedupKey(AcceptCmd, d, key) !in s.dedup
  }

  /** The recheck could be made and went against the driver: the offer was in hand, in time and fully disclosed, and the evidence readable. */
  predicate Rejudged(s: Store, d: DriverId, o: OfferId, key: Key, w: World) {
    && InHand(s, d, o, key) && s.offers[o].expiresAt > w.now && Disclosed(s.offers[o].disclosure)
    && d in w.drivers && Readable(w.drivers[d].fatigue, w.config.fatigue, w.now)
  }

  /** A refused acceptance says why: an unknown offer or driver, another driver's offer, a driver judged not eligible, evidence that cannot be
      read, and otherwise a conflict. */
  lemma AcceptanceRefused(s: Store, d: DriverId, actorActive: bool, o: OfferId, key: Key, w: World)
    requires Inv(s) && AcceptDriverOffer(s, d, actorActive, o, key, w).outcome.Refused?
    ensures var why := AcceptDriverOffer(s, d, actorActive, o, key, w).outcome.why;
            var judged := InHand(s, d, o, key) && s.offers[o].expiresAt > w.now && Disclosed(s.offers[o].disclosure);
            && (why == NotFound <==> o !in s.offers || (judged && d !in w.drivers))
            && (why == Forbidden <==> o in s.offers && s.offers[o].driver != d)
            && (why.NotEligible? <==> Rejudged(s, d, o, key, w)) && (why.NotEligible? ==> why.blockers != [])
            && (why.FatigueFault? <==> judged && d in w.drivers && !Readable(w.drivers[d].fatigue, w.config.fatigue, w.now))
            && (why == Conflict <==> o in s.offers && s.offers[o].driver == d && !judged)
  {
    hide IdsIssued, BookingSide, DriverSide, OffersFit, AssignmentsFit, OutcomesFit, AcceptCommit, RecheckInput, IsEligible, AcceptanceAllowed,
      CloseOne, AttributeNew, Disclosed, Readable, Attribution, Blockers;
    if InHand(s, d, o, key) {
      OpenOfferSearching(s, o);
      DisclosureExact(s.offers[o].disclosure);
      AcceptanceExact(s, d, actorActive, o, key, w);
      if d in w.drivers {
        RecheckReadable(s, w, d, actorActive, s.offers[o], s.offers[o].booking, s.bookings[s.offers[o].booking]);
        IneligibleNamed(s, w, d, actorActive, s.offers[o]);
      }
    }
  }

  lemma IneligibleNamed(s: Store, w: World, d: DriverId, active: bool, offer: Offer)
    requires d in w.drivers && offer.booking in s.bookings
    ensures var facts := RecheckInput(s, w, d, active, offer, offer.booking, s.bookings[offer.booking]);
            facts.Success? && !IsEligible(facts.value, w.now) ==> Blockers(facts.value, w.now) != []
  {
    hide RecheckInput, Blockers;
  }

  /** The two refusals that close the offer. */
  lemma RefusalCloses(s: Store, d: DriverId, actorActive: bool, o: OfferId, key: Key, w: World)
    requires Inv(s) && AcceptDriverOffer(s, d, actorActive, o, key, w).outcome.Refused?
    ensures Closes(s, d, actorActive, o, key, w) <==> (InHand(s, d, o, key) && s.offers[o].expiresAt <= w.now) || Rejudged(s, d, o, key, w)
  {
    hide IdsIssued, BookingSide, DriverSide, OffersFit, AssignmentsFit, OutcomesFit, AcceptDriverOffer, RecheckInput, IsEligible, AcceptanceAllowed,
      Disclosed, Readable;
    if InHand(s, d, o, key) {
      OpenOfferSearching(s, o);
      DisclosureExact(s.offers[o].disclosure);
      AcceptanceExact(s, d, actorActive, o, key, w);
      if d in w.drivers { RecheckReadable(s, w, d, actorActive, s.offers[o], s.offers[o].booking, s.bookings[s.offers[o].booking]); }
    }
  }

  /** A refused acceptance changes nothing but the offer in hand: EXPIRED if it came too late, WITHDRAWN if the driver was judged not eligible. */
  lemma RefusedAcceptanceLeaves(s: Store, d: DriverId, actorActive: bool, o: OfferId, key: Key, w: World)
    requires Inv(s) && AcceptDriverOffer(s, d, actorActive, o, key, w).outcome.Refused?
    ensures var r := AcceptDriverOffer(s, d, actorActive, o, key, w).store;
            && r == s.(offers := r.offers, outcomes := r.outcomes)
            && r.offers == if InHand(s, d, o, key) && s.offers[o].expiresAt <= w.now
                           then s.offers[o := s.offers[o].(status := OfferExpired, reason := Some(TtlExpired))]
                           else if Rejudged(s, d, o, key, w)
                           then s.offers[o := s.offers[o].(status := OfferWithdrawn, reason := Some(BecameIneligible))]
                           else s.offers
  {
    hide Inv, AcceptDriverOffer, Closes, Disclosed, Readable, RefusedOutcomes;
    AcceptRefusal(s, d, actorActive, o, key, w);
    RefusedShape(s, d, actorActive, o, key, w);
    RefusalCloses(s, d, actorActive, o, key, w);
  }

  // ---------------------------------------------------------------- going online

  /** What the pre-shift check lists: the position's age and confidence as reported, and every other blocker that stands, but those about stored
      availability and place, and fatigue when coming from OFFLINE. */
  lemma PreShiftListed(i: EligibilityInput, from: AvailabilityStatus, p: Position, w: World, b: EligibilityBlocker)
    ensures b in PreShiftBlockers(i, from, p, w) <==>
              match b
              case LocationStale => p.observedAt + w.config.maxAgeSeconds * 1_000 < w.now || w.now + 30_000 < p.observedAt
              case LocationConfidenceLow => p.confidence < w.config.minimumConfidence
              case NotAvailable => false
              case LocationMissing => false
              case FatigueSafetyBlocked => from != Offline && !i.fatigueSafetyPassed
              case _ => Stands(b, i, w.now)
  {
    hide FilterSeq, Blockers;
  }

  /** A refused availability change changes nothing and says why: an incomplete request, a move that may not be asked for, a confidence out of
      range, an unknown driver, evidence that cannot be read, or the blockers of the pre-shift check. */
  lemma AvailabilityRefused(s: Store, d: DriverId, actorActive: bool, request: AvailabilityRequest, key: Key, w: World)
    requires Inv(s) && request.status in {Available, FinishingSoon, OnBreak, Offline}
    requires SetDriverAvailability(s, d, actorActive, request, key, w).outcome.Refused?
    ensures SetDriverAvailability(s, d, actorActive, request, key, w).store == s
    ensures var why := SetDriverAvailability(s, d, actorActive, request, key, w).outcome.why;
            var works := request.status in {Available, FinishingSoon};
            if works && !Placed(request) then why == NotEligible([VehicleNotAuthorised, LocationMissing])
            else if !MayAsk(FromStatus(s, d), request.status) then why == InvalidTransition
            else if works && !(0 <= request.position.value.confidence <= 1_000) then why == NotEligible([LocationConfidenceLow])
            else if d !in w.drivers then why == NotFound
            else if !Readable(w.drivers[d].fatigue, w.config.fatigue, w.now) then why.FatigueFault?
            else why.NotEligible? && why.blockers != [] && works
  {
    hide Inv, AvailabilityCommit, NextAvailability, DriverInput, PreShiftBlockers, FromStatus, MayMove, MayAsk, Readable;
    MayAskMeans(FromStatus(s, d), request.status);
    if MayMove(FromStatus(s, d), request.status) && (GoingOnline(request.status) ==> Placed(request)) { ChangeCommits(s, d, request); }
    if d in w.drivers { ShiftReadable(s, w, d, actorActive, request.vehicle, request.region); }
  }

  // ---------------------------------------------------------------- the other commands

  /** A refused dispatch start: not the booker's own booking, a booking that is not ready, or a candidate whose evidence cannot be read. */
  lemma StartRefused(s: Store, account: AccountId, person: PersonId, b: BookingId, key: Key, rows: seq<CandidateRow>, w: World)
    requires StartBookingDispatch(s, account, person, b, key, rows, w).outcome.Refused?
    ensures StartBookingDispatch(s, account, person, b, key, rows, w).store == s
    ensures var why := StartBookingDispatch(s, account, person, b, key, rows, w).outcome.why;
            if b !in s.bookings || s.bookings[b].booker != person then why == Forbidden
            else if s.bookings[b].status != ReadyForDispatch then why == Conflict else why.FatigueFault?
  {
    hide EligibleRows, FirstFault, WithWave, WithoutDriver;
  }

  lemma DeclineRefused(s: Store, d: DriverId, o: OfferId, why: DeclineReason, key: Key, now: Time)
    requires DeclineDriverOffer(s, d, o, why, key, now).outcome.Refused?
    ensures DeclineDriverOffer(s, d, o, why, key, now)
         == Step(s, Refused(if o !in s.offers then NotFound else if s.offers[o].driver != d then Forbidden else Conflict))
  {
    hide CloseOne;
  }

  /** A refused termination: an unknown journey, another driver's, a key used for another report, or an assignment that has ended. */
  lemma TerminationRefused(s: Store, account: AccountId, d: DriverId, j: JourneyId, report: string, key: Key)
    requires Inv(s) && TerminateUnsafeJourney(s, account, d, j, report, key).outcome.Refused?
    ensures TerminateUnsafeJourney(s, account, d, j, report, key).store == s
    ensures j in s.journeys ==> s.journeys[j].assignment in s.assignments
    ensures var why := TerminateUnsafeJourney(s, account, d, j, report, key).outcome.why;
            if j !in s.journeys || s.assignments[s.journeys[j].assignment].driver !in s.availability then why == NotFound
            else if s.assignments[s.journeys[j].assignment].driver != d then why == Forbidden
            else if SafetyKey(account, j, key) in s.safetyDedup
            then why == KeyReused && s.safetyDedup[SafetyKey(account, j, key)].report != report
            else why == Conflict && s.assignments[s.journeys[j].assignment].status != Active
  {
    hide IdsIssued, OfferSide, LogsAgree, AttemptsFit, DriverSide, EndJourney;
    if SafetyKey(account, j, key) !in s.safetyDedup { TerminationExact(s, account, d, j, report, key); }
  }
}
