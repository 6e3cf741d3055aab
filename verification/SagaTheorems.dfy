/** What the booking saga guarantees over crashes and retries, and which crashes it never recovers from. */
module SagaTheorems {
  import opened Prelude
  import opened BookingStatus
  import opened BookingSaga
  import opened SagaInvariants

  lemma ReachableFits(events: seq<Event>)
    requires OwnKeys(EMPTY, events)
    ensures Inv(Run(EMPTY, events))
  {
    hide Run, OwnKeys;
    EmptyFits();
    RunKeeps(EMPTY, events);
  }

  /** With a crash allowed between any two transactions and any retries: at most one open quote and one fare agreement per booking,
      an agreement from CONFIRMED on and none before AWAITING_CONFIRMATION, and a log that is a history of the booking. */
  lemma SagaGuarantees(events: seq<Event>, b: BookingId)
    requires OwnKeys(EMPTY, events) && b in Run(EMPTY, events).bookings
    ensures var s := Run(EMPTY, events);
            && (forall q, r | IsOffered(s.quotes, q, b) && IsOffered(s.quotes, r, b) :: q == r)
            && (forall a, c | AgreedFor(s.agreements, a, b) && AgreedFor(s.agreements, c, b) :: a == c)
            && (Rank(s.bookings[b].status) >= Rank(Confirmed) ==> HasAgreement(s.agreements, b))
            && (HasAgreement(s.agreements, b) ==> Rank(s.bookings[b].status) >= Rank(AwaitingConfirmation))
            && IsHistory(Rows(s.log, b), s.bookings[b].status) && s.bookings[b].version == |Rows(s.log, b)|
  {
    hide Run, OwnKeys, IsHistory, HasAgreement, FlightFits, DedupFits, KeysFit;
    ReachableFits(events);
  }

  /** A quote is ACCEPTED exactly when an agreement copies its booking and price; no quote is ever stored as EXPIRED. */
  lemma AcceptedMeansAgreed(events: seq<Event>, q: QuoteId)
    requires OwnKeys(EMPTY, events) && q in Run(EMPTY, events).quotes
    ensures var s := Run(EMPTY, events);
            && s.quotes[q].status != ExpiredQuote
            && (s.quotes[q].status == AcceptedQuote <==>
                  exists a :: AgreesTo(s.agreements, a, q) && s.agreements[a] == Agreement(s.quotes[q].booking, q, s.quotes[q].price))
  {
    hide Run, OwnKeys, LogsFit, SpineFits, FlightFits, DedupFits, KeysFit;
    ReachableFits(events);
    var s := Run(EMPTY, events);
    if s.quotes[q].status == AcceptedQuote {
      var a :| AgreesTo(s.agreements, a, q);
      assert s.agreements[a] == Agreement(s.quotes[q].booking, q, s.quotes[q].price);
    }
  }

  // ---------------------------------------------------------------- what a transaction leaves alone

  /** `r` differs from `s` only in what belongs to booking `b`. */
  ghost predicate OnlyTouches(s: Saga, r: Saga, b: BookingId) {
    && s.nextId <= r.nextId
    && (forall c :: c != b ==> (c in r.bookings <==> c in s.bookings) && (c in s.bookings ==> r.bookings[c] == s.bookings[c]))
    && (forall c :: c != b ==> (c in r.inFlight <==> c in s.inFlight) && (c in s.inFlight ==> r.inFlight[c] == s.inFlight[c]))
    && (forall q :: q in s.quotes && s.quotes[q].booking != b ==> q in r.quotes && r.quotes[q] == s.quotes[q])
    && (forall q :: q in r.quotes && r.quotes[q].booking != b ==> q in s.quotes && r.quotes[q] == s.quotes[q])
    && (forall a :: a in r.agreements && r.agreements[a].booking != b ==> a in s.agreements && r.agreements[a] == s.agreements[a])
  }

  lemma PersistTouches(s: Saga, b: BookingId, key: Key, price: Price, expiresAt: Time, next: Stage)
    requires IdsIssued(s)
    ensures var r := PersistQuote(s, b, key, price, expiresAt).0.(inFlight := s.inFlight[b := next]); OnlyTouches(s, r, b)
  {
  }

  lemma AcceptTouches(s: Saga, b: BookingId, key: Key, wanted: QuoteId, now: Time, next: Stage)
    requires IdsIssued(s)
    ensures AcceptOffer(s, b, key, wanted, now).Some? ==>
              OnlyTouches(s, AcceptOffer(s, b, key, wanted, now).value.0.(inFlight := s.inFlight[b := next]), b)
  {
  }

  lemma MoveTouches(s: Saga, b: BookingId, to: Status, inFlight: map<BookingId, Stage>)
    requires b in s.bookings
    requires forall c :: c != b ==> (c in inFlight <==> c in s.inFlight) && (c in s.inFlight ==> inFlight[c] == s.inFlight[c])
    ensures OnlyTouches(s, Moved(s, b, to).(inFlight := inFlight), b)
  {
    hide AppendRow;
  }

  lemma TransitionTouches(s: Saga, b: BookingId, from: Status, to: Status, next: Stage)
    ensures OnlyTouches(s, Transitioned(s, b, from, to, next).saga, b)
  {
    hide OnlyTouches, Moved, Drop;
    FinishTouches(s, b, QuoteBooking(""), Created(b));
    if b in s.bookings { MoveTouches(s, b, to, s.inFlight[b := next]); }
  }

  lemma DropTouches(s: Saga, b: BookingId, bookingDedup: map<BookingKey, Reply>)
    ensures OnlyTouches(s, Drop(s.(bookingDedup := bookingDedup), b), b)
  {
  }

  lemma FinishTouches(s: Saga, b: BookingId, k: BookingKey, reply: Reply)
    ensures OnlyTouches(s, Drop(s, b), b) && OnlyTouches(s, Drop(Remember(s, k, reply), b), b)
  {
    hide OnlyTouches, Drop;
    DropTouches(s, b, s.bookingDedup);
    DropTouches(s, b, Remember(s, k, reply).bookingDedup);
    assert s.(bookingDedup := s.bookingDedup) == s;
    assert s.(bookingDedup := Remember(s, k, reply).bookingDedup) == Remember(s, k, reply);
  }

  lemma AdvanceTouches(s: Saga, b: BookingId, now: Time)
    requires IdsIssued(s)
    ensures OnlyTouches(s, Advance(s, b, now).saga, b)
  {
    hide PersistQuote, AcceptOffer, Transitioned, Drop, Remember;
    if b in s.inFlight {
      match s.inFlight[b]
      case DraftRead(key, price, x) => PersistTouches(s, b, key, price, x, QuoteStored(key, price, x, PersistQuote(s, b, key, price, x).1));
      case QuoteStored(key, price, x, q) => TransitionTouches(s, b, Draft, QuoteCreated, QuoteCreatedStage(key, price, x, q));
      case QuoteCreatedStage(key, price, x, q) => TransitionTouches(s, b, QuoteCreated, AwaitingConfirmation, QuotePresented(key, price, x, q));
      case QuotePresented(key, price, x, q) => FinishTouches(s, b, QuoteBooking(key), Quoted(b, q, price, x));
      case AwaitingRead(key, wanted) =>
        FinishTouches(s, b, QuoteBooking(key), Created(b));
        if AcceptOffer(s, b, key, wanted, now).Some? {
          AcceptTouches(s, b, key, wanted, now, FareStored(key, AcceptOffer(s, b, key, wanted, now).value.1));
        }
      case FareStored(key, a) => TransitionTouches(s, b, AwaitingConfirmation, Confirmed, ConfirmedStage(key, a));
      case ConfirmedStage(key, a) =>
        TransitionTouches(s, b, Confirmed, if b in s.bookings then ReadyStatus(s.bookings[b].scheduledFor, now) else Scheduled, Classified(key, a));
      case Classified(key, a) => FinishTouches(s, b, ConfirmBooking(key), Confirmation(b, a));
    } else { SameTouches(s, b); }
  }

  lemma SameTouches(s: Saga, b: BookingId)
    ensures OnlyTouches(s, s, b)
  {
  }

  lemma CreateTouches(s: Saga, person: PersonId, key: Key, scheduledFor: Option<Time>)
    ensures OnlyTouches(s, Create(s, person, key, scheduledFor).saga, s.nextId)
  {
    hide AppendRow;
  }

  lemma AskTouches(s: Saga, b: BookingId, stage: Stage)
    ensures OnlyTouches(s, s.(inFlight := s.inFlight[b := stage]), b)
  {
  }

  /** Every event belongs to one booking and leaves all others alone; a creation belongs to the booking it makes. */
  lemma EventTouches(s: Saga, e: Event)
    requires IdsIssued(s)
    ensures OnlyTouches(s, Apply(s, e).saga, if e.Creating? then s.nextId else e.booking)
  {
    hide Advance, Create, Moved, Drop, OnlyTouches, Stored, CanForward, Rank;
    if !e.Creating? { SameTouches(s, e.booking); }
    match e
    case Creating(p, k, f) => CreateTouches(s, p, k, f);
    case Quoting(b, _, k, price, x) => AskTouches(s, b, DraftRead(k, price, x));
    case Confirming(b, _, k, q) => AskTouches(s, b, AwaitingRead(k, q));
    case Advancing(b, now) => AdvanceTouches(s, b, now);
    case Crashing(b) => FinishTouches(s, b, QuoteBooking(""), Created(b));
    case Dispatching(b, to) => if b in s.bookings { MovedInFlight(s, b, to); MoveTouches(s, b, to, s.inFlight); }
  }

  lemma MovedInFlight(s: Saga, b: BookingId, to: Status)
    requires b in s.bookings
    ensures Moved(s, b, to).inFlight == s.inFlight && Moved(s, b, to) == Moved(s, b, to).(inFlight := s.inFlight)
  {
  }

  /** A refused confirmation leaves the pricing tables as they were: marking the quote EXPIRED is rolled back with it. */
  lemma RefusalLeavesPricing(s: Saga, b: BookingId, now: Time)
    requires Advance(s, b, now).outcome.Refused?
    ensures Advance(s, b, now).saga == Drop(s, b)
  {
    hide PersistQuote, AcceptOffer, Remember, Drop, Moved;
  }

  // ---------------------------------------------------------------- crashes that strand a booking

  /** No request in flight, and a status that no request starts from. */
  predicate Stranded(s: Saga, b: BookingId) {
    b in s.bookings && b !in s.inFlight && s.bookings[b].status in {QuoteCreated, Confirmed}
  }

  lemma StrandedStays(s: Saga, e: Event, b: BookingId)
    requires Stranded(s, b) && IdsIssued(s)
    ensures Stranded(Apply(s, e).saga, b) && Apply(s, e).saga.bookings[b] == s.bookings[b]
  {
    hide Apply;
    EventTouches(s, e);
    if !e.Creating? && e.booking == b { StrandedRefuses(s, e, b); }
  }

  lemma StrandedRefuses(s: Saga, e: Event, b: BookingId)
    requires Stranded(s, b) && !e.Creating? && e.booking == b
    ensures Apply(s, e).saga == s
  {
    assert s.inFlight - {b} == s.inFlight;
  }

  lemma PricingIssues(s: Saga, b: BookingId, key: Key, price: Price, expiresAt: Time, wanted: QuoteId, now: Time)
    requires IdsIssued(s)
    ensures IdsIssued(PersistQuote(s, b, key, price, expiresAt).0)
    ensures AcceptOffer(s, b, key, wanted, now).Some? ==> IdsIssued(AcceptOffer(s, b, key, wanted, now).value.0)
  {
  }

  lemma TransitionIssues(s: Saga, b: BookingId, from: Status, to: Status, next: Stage)
    requires IdsIssued(s)
    ensures IdsIssued(Transitioned(s, b, from, to, next).saga)
  {
    hide AppendRow;
  }

  lemma AdvanceIssues(s: Saga, b: BookingId, now: Time)
    requires IdsIssued(s)
    ensures IdsIssued(Advance(s, b, now).saga)
  {
    hide PersistQuote, AcceptOffer, Transitioned;
    if b in s.inFlight {
      match s.inFlight[b]
      case DraftRead(key, price, x) => PricingIssues(s, b, key, price, x, 0, now);
      case QuoteStored(key, price, x, q) => TransitionIssues(s, b, Draft, QuoteCreated, QuoteCreatedStage(key, price, x, q));
      case QuoteCreatedStage(key, price, x, q) => TransitionIssues(s, b, QuoteCreated, AwaitingConfirmation, QuotePresented(key, price, x, q));
      case AwaitingRead(key, wanted) => PricingIssues(s, b, key, Price(0, "", ""), 0, wanted, now);
      case FareStored(key, a) => TransitionIssues(s, b, AwaitingConfirmation, Confirmed, ConfirmedStage(key, a));
      case ConfirmedStage(key, a) =>
        TransitionIssues(s, b, Confirmed, if b in s.bookings then ReadyStatus(s.bookings[b].scheduledFor, now) else Scheduled, Classified(key, a));
      case _ =>
    }
  }

  /** No event needs any discipline for that. */
  lemma EventIssues(s: Saga, e: Event)
    requires IdsIssued(s)
    ensures IdsIssued(Apply(s, e).saga)
  {
    hide Advance, AppendRow, CanForward, Rank;
    if e.Advancing? { AdvanceIssues(s, e.booking, e.now); }
  }

  /** A crash after the first transition of a quote request, or of a confirmation, strands the booking for good:
      no later request, with whatever key, moves it again. */
  lemma {:induction false} StrandedForever(s: Saga, events: seq<Event>, b: BookingId)
    requires IdsIssued(s) && Stranded(s, b)
    ensures Stranded(Run(s, events), b) && Run(s, events).bookings[b] == s.bookings[b] && IdsIssued(Run(s, events))
    decreases |events|
  {
    hide Apply, IdsIssued;
    if events != [] {
      StrandedForever(s, events[..|events| - 1], b);
      StrandedStays(Run(s, events[..|events| - 1]), events[|events| - 1], b);
      EventIssues(Run(s, events[..|events| - 1]), events[|events| - 1]);
    }
  }

  /** Exactly these crashes strand: a request crashed at any stage leaves the booking stranded iff its last transaction
      was the transition to QUOTE_CREATED or to CONFIRMED. */
  lemma CrashStrandsIff(s: Saga, b: BookingId)
    requires Inv(s) && b in s.inFlight
    ensures Stranded(Apply(s, Crashing(b)).saga, b) <==> s.inFlight[b].QuoteCreatedStage? || s.inFlight[b].ConfirmedStage?
  {
    hide IdsFit, LogsFit, QuotesFit, AgreementsFit, SpineFits, DedupFits, KeysFit;
  }

  /** Once the fare is agreed, a confirmation crashed before the transition is resumed only under the key it was agreed with. */
  lemma ResumedOnlyWithSameKey(s: Saga, b: BookingId, person: PersonId, key: Key, wanted: QuoteId, now: Time)
    requires Inv(s) && b in s.bookings && b !in s.inFlight && s.bookings[b].booker == person
    requires s.bookings[b].status == AwaitingConfirmation && HasAgreement(s.agreements, b)
    requires ConfirmBooking(key) !in s.bookingDedup
    ensures var asked := Apply(s, Confirming(b, person, key, wanted)).saga;
            (Advance(asked, b, now).outcome == Goes) <==> AcceptQuote(key) in s.pricingDedup
  {
    hide IdsFit, LogsFit, QuotesFit, SpineFits, FlightFits, KeysFit;
    var a :| AgreedFor(s.agreements, a, b);
    assert !IsOffered(s.quotes, wanted, b);
  }

  /** An offer that has run out strands the booking too: a new quote needs DRAFT. */
  predicate OutOfOffers(s: Saga, b: BookingId, t: Time) {
    && b in s.bookings && s.bookings[b].status == AwaitingConfirmation
    && (b in s.inFlight ==> s.inFlight[b].AwaitingRead? || s.inFlight[b].QuotePresented?)
    && (forall q :: q in s.quotes && s.quotes[q].booking == b && s.quotes[q].status == Offered ==> s.quotes[q].expiresAt <= t)
  }

  predicate NotBefore(e: Event, t: Time) {
    e.Advancing? ==> t <= e.now
  }

  /** Another booking's event, and a creation, leave it so. */
  lemma OutOfOffersFramed(s: Saga, r: Saga, c: BookingId, b: BookingId, t: Time)
    requires OnlyTouches(s, r, c) && c != b && OutOfOffers(s, b, t) && !HasAgreement(s.agreements, b)
    ensures OutOfOffers(r, b, t) && !HasAgreement(r.agreements, b)
  {
    forall a ensures !AgreedFor(r.agreements, a, b) { assert !AgreedFor(s.agreements, a, b); }
  }

  lemma OutOfOffersRefuses(s: Saga, e: Event, b: BookingId, t: Time)
    requires OutOfOffers(s, b, t) && NotBefore(e, t) && !e.Creating? && e.booking == b
    requires b in s.inFlight && s.inFlight[b].AwaitingRead? ==> AcceptQuote(s.inFlight[b].key) !in s.pricingDedup
    ensures OutOfOffers(Apply(s, e).saga, b, t) && Apply(s, e).saga.agreements == s.agreements
  {
    hide Moved, Superseding;
  }

  lemma OutOfOffersStays(s: Saga, e: Event, b: BookingId, t: Time)
    requires Inv(s) && OutOfOffers(s, b, t) && !HasAgreement(s.agreements, b) && NotBefore(e, t)
    ensures OutOfOffers(Apply(s, e).saga, b, t) && !HasAgreement(Apply(s, e).saga.agreements, b)
  {
    hide Apply, LogsFit, QuotesFit, AgreementsFit, SpineFits, HasAgreement, FlightFits, DedupFits, KeysFit, OutOfOffers, OnlyTouches;
    EventTouches(s, e);
    if e.Creating? || e.booking != b {
      NewBookingId(s, b, t);
      OutOfOffersFramed(s, Apply(s, e).saga, if e.Creating? then s.nextId else e.booking, b, t);
    } else {
      NothingRecorded(s, b);
      OutOfOffersRefuses(s, e, b, t);
    }
  }

  lemma NewBookingId(s: Saga, b: BookingId, t: Time)
    requires IdsFit(s) && OutOfOffers(s, b, t)
    ensures b != s.nextId
  {
  }

  lemma NothingRecorded(s: Saga, b: BookingId)
    requires DedupFits(s.quotes, s.agreements, s.pricingDedup) && KeysFit(s.inFlight, s.pricingDedup) && !HasAgreement(s.agreements, b)
    ensures b in s.inFlight && s.inFlight[b].AwaitingRead? ==> AcceptQuote(s.inFlight[b].key) !in s.pricingDedup
  {
    if b in s.inFlight && s.inFlight[b].AwaitingRead? && AcceptQuote(s.inFlight[b].key) in s.pricingDedup {
      RecordedReply(s, b, AcceptQuote(s.inFlight[b].key));
      AgreementGiven(s, b, s.pricingDedup[AcceptQuote(s.inFlight[b].key)].agreement);
      assert false;
    }
  }

  /** No event from time `t` on happens before `t`. */
  predicate AllNotBefore(events: seq<Event>, t: Time) {
    forall i :: 0 <= i < |events| ==> NotBefore(events[i], t)
  }

  /** A booking whose last offer has expired unaccepted waits for confirmation for ever. */
  lemma {:induction false} ExpiredOfferStrands(s: Saga, events: seq<Event>, b: BookingId, t: Time)
    requires Inv(s) && OwnKeys(s, events) && AllNotBefore(events, t)
    requires OutOfOffers(s, b, t) && !HasAgreement(s.agreements, b)
    ensures OutOfOffers(Run(s, events), b, t) && !HasAgreement(Run(s, events).agreements, b)
    decreases |events|
  {
    hide Apply, Inv, OutOfOffers, HasAgreement, OwnKey;
    if events != [] {
      ExpiredOfferStrands(s, events[..|events| - 1], b, t);
      RunKeeps(s, events[..|events| - 1]);
      OutOfOffersStays(Run(s, events[..|events| - 1]), events[|events| - 1], b, t);
    }
  }
}
