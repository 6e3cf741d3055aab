/** Replies of the booking saga: answered once, told truly, and what a shared key does to them. */
module SagaReplies {
  import opened Prelude
  import opened BookingStatus
  import opened BookingSaga
  import opened SagaInvariants
  import opened SagaTheorems

  // ---------------------------------------------------------------- answered once

  predicate QuoteStage(stage: Stage) {
    stage.DraftRead? || stage.QuoteStored? || stage.QuoteCreatedStage? || stage.QuotePresented?
  }

  /** A recorded reply belongs to a booking that has passed the stage the request was about, and to a key that is its own. */
  predicate ReplyFits(k: BookingKey, reply: Reply, bookings: map<BookingId, Booking>, inFlight: map<BookingId, Stage>,
                      dedup: map<PricingKey, PricingReply>) {
    match k
    case CreateBooking(_) => true
    case QuoteBooking(key) =>
      && reply.booking in bookings && Rank(bookings[reply.booking].status) >= Rank(AwaitingConfirmation)
      && (reply.booking in inFlight ==> !QuoteStage(inFlight[reply.booking]))
      && CreateQuote(key) in dedup && dedup[CreateQuote(key)].booking == reply.booking
    case ConfirmBooking(key) =>
      && reply.booking in bookings && Rank(bookings[reply.booking].status) >= Rank(Scheduled)
      && reply.booking !in inFlight
      && AcceptQuote(key) in dedup && dedup[AcceptQuote(key)].booking == reply.booking
  }

  /** A request past its pricing transaction has it recorded under its key. */
  predicate Priced(stage: Stage, b: BookingId, dedup: map<PricingKey, PricingReply>) {
    match stage
    case DraftRead(_, _, _) => true
    case AwaitingRead(_, _) => true
    case QuoteStored(key, _, _, _) => CreateQuote(key) in dedup && dedup[CreateQuote(key)].booking == b
    case QuoteCreatedStage(key, _, _, _) => CreateQuote(key) in dedup && dedup[CreateQuote(key)].booking == b
    case QuotePresented(key, _, _, _) => CreateQuote(key) in dedup && dedup[CreateQuote(key)].booking == b
    case FareStored(key, _) => AcceptQuote(key) in dedup && dedup[AcceptQuote(key)].booking == b
    case ConfirmedStage(key, _) => AcceptQuote(key) in dedup && dedup[AcceptQuote(key)].booking == b
    case Classified(key, _) => AcceptQuote(key) in dedup && dedup[AcceptQuote(key)].booking == b
  }

  ghost predicate RepliesFit(s: Saga) {
    && (forall k :: k in s.bookingDedup ==> ReplyFits(k, s.bookingDedup[k], s.bookings, s.inFlight, s.pricingDedup))
    && (forall b :: b in s.inFlight ==> Priced(s.inFlight[b], b, s.pricingDedup))
  }

  lemma EmptyReplies()
    ensures RepliesFit(EMPTY)
  {
  }

  lemma RankGrows(from: Status, to: Status)
    requires CanForward(from, to)
    ensures Rank(from) < Rank(to)
  {
  }

  /** A transition of `b`, with the request in flight at its next stage or absent. */
  lemma MoveFits(s: Saga, b: BookingId, to: Status, inFlight: map<BookingId, Stage>)
    requires RepliesFit(s) && b in s.bookings && Rank(s.bookings[b].status) <= Rank(to)
    requires forall c :: c in inFlight && c != b ==> c in s.inFlight && inFlight[c] == s.inFlight[c]
    requires b in inFlight ==> b in s.inFlight && Priced(inFlight[b], b, s.pricingDedup) && QuoteStage(inFlight[b]) == QuoteStage(s.inFlight[b])
    ensures RepliesFit(Moved(s, b, to).(inFlight := inFlight))
  {
    hide Rank, Priced, QuoteStage, AppendRow;
  }

  lemma TransitionFits(s: Saga, b: BookingId, from: Status, to: Status, next: Stage)
    requires RepliesFit(s) && b in s.inFlight && CanForward(from, to)
    requires Priced(next, b, s.pricingDedup) && QuoteStage(next) == QuoteStage(s.inFlight[b])
    ensures RepliesFit(Transitioned(s, b, from, to, next).saga)
  {
    hide RepliesFit, Priced, QuoteStage, Moved, Rank, CanForward;
    DropFits(s, b);
    if b in s.bookings && s.bookings[b].status == from {
      RankGrows(from, to);
      MoveFits(s, b, to, s.inFlight[b := next]);
    }
  }

  lemma DropFits(s: Saga, b: BookingId)
    requires RepliesFit(s)
    ensures RepliesFit(Drop(s, b))
  {
    hide Rank, Priced, QuoteStage;
  }

  lemma PricingRecorded(s: Saga, r: Saga, b: BookingId, k: PricingKey, reply: PricingReply, next: Stage)
    requires RepliesFit(s) && b in s.inFlight && QuoteStage(next) == QuoteStage(s.inFlight[b])
    requires k in s.pricingDedup ==> reply == s.pricingDedup[k]
    requires r.bookings == s.bookings && r.bookingDedup == s.bookingDedup && r.inFlight == s.inFlight[b := next]
    requires r.pricingDedup == s.pricingDedup[k := reply] && Priced(next, b, r.pricingDedup)
    ensures RepliesFit(r)
  {
    hide Rank, QuoteStage;
  }

  /** What the two pricing transactions record. */
  lemma PersistRecords(s: Saga, b: BookingId, key: Key, price: Price, expiresAt: Time)
    requires CreateQuote(key) in s.pricingDedup ==> s.pricingDedup[CreateQuote(key)].QuoteMade? && s.pricingDedup[CreateQuote(key)].booking == b
    ensures var r := PersistQuote(s, b, key, price, expiresAt).0;
            && r.bookings == s.bookings && r.bookingDedup == s.bookingDedup && r.inFlight == s.inFlight
            && CreateQuote(key) in r.pricingDedup && r.pricingDedup[CreateQuote(key)].booking == b
            && r.pricingDedup == s.pricingDedup[CreateQuote(key) := r.pricingDedup[CreateQuote(key)]]
            && (CreateQuote(key) in s.pricingDedup ==> r.pricingDedup[CreateQuote(key)] == s.pricingDedup[CreateQuote(key)])
  {
    hide Superseding;
  }

  lemma AcceptRecords(s: Saga, b: BookingId, key: Key, wanted: QuoteId, now: Time)
    requires AcceptQuote(key) in s.pricingDedup ==> s.pricingDedup[AcceptQuote(key)].FareAgreed? && s.pricingDedup[AcceptQuote(key)].booking == b
    requires AcceptOffer(s, b, key, wanted, now).Some?
    ensures var r := AcceptOffer(s, b, key, wanted, now).value.0;
            && r.bookings == s.bookings && r.bookingDedup == s.bookingDedup && r.inFlight == s.inFlight
            && AcceptQuote(key) in r.pricingDedup && r.pricingDedup[AcceptQuote(key)].booking == b
            && r.pricingDedup == s.pricingDedup[AcceptQuote(key) := r.pricingDedup[AcceptQuote(key)]]
            && (AcceptQuote(key) in s.pricingDedup ==> r.pricingDedup[AcceptQuote(key)] == s.pricingDedup[AcceptQuote(key)])
  {
  }

  lemma PersistFits(s: Saga, b: BookingId, now: Time)
    requires Inv(s) && RepliesFit(s) && b in s.inFlight && s.inFlight[b].DraftRead?
    ensures RepliesFit(Advance(s, b, now).saga)
  {
    hide IdsFit, LogsFit, QuotesFit, AgreementsFit, SpineFits, FlightFits, DedupFits, KeysFit, RepliesFit, PersistQuote;
    var stage, k := s.inFlight[b], CreateQuote(s.inFlight[b].key);
    if k in s.pricingDedup { RecordedReply(s, b, k); }
    PersistRecords(s, b, stage.key, stage.price, stage.expiresAt);
    var made := PersistQuote(s, b, stage.key, stage.price, stage.expiresAt);
    PricingRecorded(s, Advance(s, b, now).saga, b, k, made.0.pricingDedup[k], QuoteStored(stage.key, stage.price, stage.expiresAt, made.1));
  }

  lemma AcceptFits(s: Saga, b: BookingId, now: Time)
    requires Inv(s) && RepliesFit(s) && b in s.inFlight && s.inFlight[b].AwaitingRead?
    ensures RepliesFit(Advance(s, b, now).saga)
  {
    hide IdsFit, LogsFit, QuotesFit, AgreementsFit, SpineFits, FlightFits, DedupFits, KeysFit, RepliesFit, AcceptOffer, Drop;
    var stage, k := s.inFlight[b], AcceptQuote(s.inFlight[b].key);
    DropFits(s, b);
    if k in s.pricingDedup { RecordedReply(s, b, k); }
    if AcceptOffer(s, b, stage.key, stage.wanted, now).Some? {
      AcceptRecords(s, b, stage.key, stage.wanted, now);
      var agreed := AcceptOffer(s, b, stage.key, stage.wanted, now).value;
      PricingRecorded(s, Advance(s, b, now).saga, b, k, agreed.0.pricingDedup[k], FareStored(stage.key, agreed.1));
    }
  }

  /** The stage that answers finds its key unanswered, so the reply it gives is the reply it records. */
  lemma AnswerIsNew(s: Saga, b: BookingId)
    requires Inv(s) && RepliesFit(s) && b in s.inFlight
    ensures s.inFlight[b].QuotePresented? ==> QuoteBooking(s.inFlight[b].key) !in s.bookingDedup
    ensures s.inFlight[b].Classified? ==> ConfirmBooking(s.inFlight[b].key) !in s.bookingDedup
  {
    hide IdsFit, LogsFit, QuotesFit, AgreementsFit, SpineFits, FlightFits, DedupFits, KeysFit, Rank;
  }

  lemma RememberFits(s: Saga, b: BookingId, k: BookingKey, reply: Reply)
    requires Inv(s) && RepliesFit(s) && b in s.inFlight && reply.booking == b && k.key == s.inFlight[b].key
    requires (k.QuoteBooking? && s.inFlight[b].QuotePresented?) || (k.ConfirmBooking? && s.inFlight[b].Classified?)
    ensures RepliesFit(Drop(Remember(s, k, reply), b))
  {
    hide IdsFit, LogsFit, QuotesFit, AgreementsFit, SpineFits, DedupFits, KeysFit;
    InFlightStage(s, b);
    AnswerIsNew(s, b);
  }

  lemma AdvanceFits(s: Saga, b: BookingId, now: Time)
    requires Inv(s) && RepliesFit(s)
    ensures RepliesFit(Advance(s, b, now).saga)
  {
    hide Inv, RepliesFit, Transitioned, Drop, Remember, PersistQuote, AcceptOffer;
    if b in s.inFlight {
      InFlightStage(s, b);
      InFlightPriced(s, b);
      match s.inFlight[b]
      case DraftRead(_, _, _) => PersistFits(s, b, now);
      case QuoteStored(key, price, x, q) => TransitionFits(s, b, Draft, QuoteCreated, QuoteCreatedStage(key, price, x, q));
      case QuoteCreatedStage(key, price, x, q) => TransitionFits(s, b, QuoteCreated, AwaitingConfirmation, QuotePresented(key, price, x, q));
      case QuotePresented(key, price, x, q) => RememberFits(s, b, QuoteBooking(key), Quoted(b, q, price, x));
      case AwaitingRead(_, _) => AcceptFits(s, b, now);
      case FareStored(key, a) => TransitionFits(s, b, AwaitingConfirmation, Confirmed, ConfirmedStage(key, a));
      case ConfirmedStage(key, a) =>
        TransitionFits(s, b, Confirmed, ReadyStatus(s.bookings[b].scheduledFor, now), Classified(key, a));
      case Classified(key, a) => RememberFits(s, b, ConfirmBooking(key), Confirmation(b, a));
    }
  }

  lemma InFlightPriced(s: Saga, b: BookingId)
    requires RepliesFit(s) && b in s.inFlight
    ensures Priced(s.inFlight[b], b, s.pricingDedup)
  {
  }

  lemma AskFits(s: Saga, b: BookingId, stage: Stage)
    requires RepliesFit(s) && b in s.bookings
    requires (stage.DraftRead? && s.bookings[b].status == Draft) || (stage.AwaitingRead? && s.bookings[b].status == AwaitingConfirmation)
    ensures RepliesFit(s.(inFlight := s.inFlight[b := stage]))
  {
  }

  lemma CreateFits(s: Saga, person: PersonId, key: Key, scheduledFor: Option<Time>)
    requires RepliesFit(s) && s.nextId !in s.bookings
    ensures RepliesFit(Create(s, person, key, scheduledFor).saga)
  {
    hide Rank, Priced, QuoteStage, AppendRow;
  }

  lemma DispatchFits(s: Saga, b: BookingId, to: Status)
    requires RepliesFit(s) && b in s.bookings && b !in s.inFlight && CanForward(s.bookings[b].status, to)
    ensures RepliesFit(Moved(s, b, to))
  {
    hide RepliesFit, Moved, Rank, CanForward;
    RankGrows(s.bookings[b].status, to);
    MovedInFlight(s, b, to);
    MoveFits(s, b, to, s.inFlight);
  }

  lemma ApplyFits(s: Saga, e: Event)
    requires Inv(s) && RepliesFit(s)
    ensures RepliesFit(Apply(s, e).saga)
  {
    hide LogsFit, QuotesFit, AgreementsFit, SpineFits, FlightFits, DedupFits, KeysFit, RepliesFit, Create, Advance, Drop, Moved, CanForward, Rank;
    match e
    case Creating(p, k, f) => CreateFits(s, p, k, f);
    case Quoting(b, _, k, price, x) => if b in s.bookings && s.bookings[b].status == Draft { AskFits(s, b, DraftRead(k, price, x)); }
    case Confirming(b, _, k, q) => if b in s.bookings && s.bookings[b].status == AwaitingConfirmation { AskFits(s, b, AwaitingRead(k, q)); }
    case Advancing(b, now) => AdvanceFits(s, b, now);
    case Crashing(b) => DropFits(s, b);
    case Dispatching(b, to) => if b in s.bookings && b !in s.inFlight && CanForward(s.bookings[b].status, to) { DispatchFits(s, b, to); }
  }

  lemma {:induction false} RunFits(s: Saga, events: seq<Event>)
    requires Inv(s) && RepliesFit(s) && OwnKeys(s, events)
    ensures RepliesFit(Run(s, events))
    decreases |events|
  {
    hide Inv, RepliesFit, Apply, OwnKey;
    if events != [] {
      RunFits(s, events[..|events| - 1]);
      RunKeeps(s, events[..|events| - 1]);
      ApplyFits(Run(s, events[..|events| - 1]), events[|events| - 1]);
    }
  }

  // ---------------------------------------------------------------- replies are never lost

  /** Recorded replies and who booked what stay. */
  ghost predicate Keeps(s: Saga, r: Saga) {
    && (forall k :: k in s.bookingDedup ==> k in r.bookingDedup && r.bookingDedup[k] == s.bookingDedup[k])
    && (forall b :: b in s.bookings ==> b in r.bookings && r.bookings[b].booker == s.bookings[b].booker)
  }

  lemma TransitionRemembers(s: Saga, b: BookingId, from: Status, to: Status, next: Stage)
    ensures Keeps(s, Transitioned(s, b, from, to, next).saga)
  {
    hide Moved, Drop;
    TransitionFrame(s, b, from, to, next);
  }

  lemma TransitionFrame(s: Saga, b: BookingId, from: Status, to: Status, next: Stage)
    ensures var r := Transitioned(s, b, from, to, next).saga;
            && r.bookingDedup == s.bookingDedup
            && (r.bookings == s.bookings
                || (b in s.bookings && r.bookings == s.bookings[b := s.bookings[b].(status := to, version := s.bookings[b].version + 1)]))
  {
    hide AppendRow;
  }

  lemma PricingRemembers(s: Saga, b: BookingId, key: Key, price: Price, expiresAt: Time, wanted: QuoteId, now: Time)
    ensures Keeps(s, PersistQuote(s, b, key, price, expiresAt).0)
    ensures AcceptOffer(s, b, key, wanted, now).Some? ==> Keeps(s, AcceptOffer(s, b, key, wanted, now).value.0)
  {
    hide Superseding;
  }

  lemma AnswerRemembers(s: Saga, b: BookingId, k: BookingKey, reply: Reply)
    ensures Keeps(s, Drop(s, b)) && Keeps(s, Drop(Remember(s, k, reply), b))
  {
  }

  lemma KeepsFramed(s: Saga, r: Saga, inFlight: map<BookingId, Stage>)
    requires Keeps(s, r)
    ensures Keeps(s, r.(inFlight := inFlight))
  {
  }

  lemma PersistRemembers(s: Saga, b: BookingId, now: Time)
    requires b in s.inFlight && s.inFlight[b].DraftRead?
    ensures Keeps(s, Advance(s, b, now).saga)
  {
    hide Keeps, PersistQuote;
    var stage := s.inFlight[b];
    PricingRemembers(s, b, stage.key, stage.price, stage.expiresAt, 0, now);
    KeepsFramed(s, PersistQuote(s, b, stage.key, stage.price, stage.expiresAt).0, Advance(s, b, now).saga.inFlight);
  }

  lemma AcceptRemembers(s: Saga, b: BookingId, now: Time)
    requires b in s.inFlight && s.inFlight[b].AwaitingRead?
    ensures Keeps(s, Advance(s, b, now).saga)
  {
    hide Keeps, AcceptOffer, Drop;
    var stage := s.inFlight[b];
    AnswerRemembers(s, b, QuoteBooking(""), Created(b));
    PricingRemembers(s, b, stage.key, Price(0, "", ""), 0, stage.wanted, now);
    if AcceptOffer(s, b, stage.key, stage.wanted, now).Some? {
      KeepsFramed(s, AcceptOffer(s, b, stage.key, stage.wanted, now).value.0, Advance(s, b, now).saga.inFlight);
    }
  }

  lemma AdvanceRemembers(s: Saga, b: BookingId, now: Time)
    ensures Keeps(s, Advance(s, b, now).saga)
  {
    hide Keeps, Transitioned, PersistQuote, AcceptOffer, Drop, Remember;
    AnswerRemembers(s, b, QuoteBooking(""), Created(b));
    if b in s.inFlight {
      match s.inFlight[b]
      case DraftRead(_, _, _) => PersistRemembers(s, b, now);
      case QuoteStored(key, price, x, q) => TransitionRemembers(s, b, Draft, QuoteCreated, QuoteCreatedStage(key, price, x, q));
      case QuoteCreatedStage(key, price, x, q) => TransitionRemembers(s, b, QuoteCreated, AwaitingConfirmation, QuotePresented(key, price, x, q));
      case QuotePresented(key, price, x, q) => AnswerRemembers(s, b, QuoteBooking(key), Quoted(b, q, price, x));
      case AwaitingRead(_, _) => AcceptRemembers(s, b, now);
      case FareStored(key, a) => TransitionRemembers(s, b, AwaitingConfirmation, Confirmed, ConfirmedStage(key, a));
      case ConfirmedStage(key, a) =>
        TransitionRemembers(s, b, Confirmed, if b in s.bookings then ReadyStatus(s.bookings[b].scheduledFor, now) else Scheduled, Classified(key, a));
      case Classified(key, a) => AnswerRemembers(s, b, ConfirmBooking(key), Confirmation(b, a));
    } else { SameRemembers(s); }
  }

  lemma SameRemembers(s: Saga)
    ensures Keeps(s, s)
  {
  }

  lemma ApplyRemembers(s: Saga, e: Event)
    requires IdsFit(s)
    ensures Keeps(s, Apply(s, e).saga)
  {
    hide Advance, AppendRow, CanForward, Rank;
    if e.Advancing? { AdvanceRemembers(s, e.booking, e.now); }
  }

  lemma {:induction false} RunRemembers(s: Saga, events: seq<Event>)
    requires Inv(s) && OwnKeys(s, events)
    ensures Keeps(s, Run(s, events))
    decreases |events|
  {
    hide Apply, OwnKey, LogsFit, QuotesFit, AgreementsFit, SpineFits, FlightFits, DedupFits, KeysFit, IdsFit;
    if events != [] {
      RunRemembers(s, events[..|events| - 1]);
      RunKeeps(s, events[..|events| - 1]);
      ApplyRemembers(Run(s, events[..|events| - 1]), events[|events| - 1]);
    }
  }

  /** A request that has been answered answers the same when asked again with its key, whatever has happened since,
      even if the booking has left the status the request starts from. */
  lemma AnsweredOnce(events: seq<Event>, b: BookingId, now: Time, later: seq<Event>, price: Price, expiresAt: Time, wanted: QuoteId)
    requires OwnKeys(EMPTY, events) && b in Run(EMPTY, events).inFlight
    requires var step := Advance(Run(EMPTY, events), b, now); step.outcome.Answered? && OwnKeys(step.saga, later)
    ensures var s := Run(EMPTY, events);
            var step := Advance(s, b, now);
            var r := Run(step.saga, later);
            && b in s.bookings && b in r.bookings
            && (s.inFlight[b].QuotePresented? ==>
                  AskQuote(r, b, s.bookings[b].booker, s.inFlight[b].key, price, expiresAt) == Step(r, step.outcome))
            && (s.inFlight[b].Classified? ==>
                  AskConfirm(r, b, s.bookings[b].booker, s.inFlight[b].key, wanted) == Step(r, step.outcome))
            && (s.inFlight[b].QuotePresented? || s.inFlight[b].Classified?)
  {
    hide Run, OwnKeys, Inv, RepliesFit, Transitioned, PersistQuote, AcceptOffer;
    var s := Run(EMPTY, events);
    ReachableFits(events);
    EmptyReplies();
    EmptyFits();
    RunFits(EMPTY, events);
    InFlightStage(s, b);
    AnswerIsNew(s, b);
    AdvanceKeeps(s, b, now);
    OnlyFinalStagesAnswer(s, b, now);
    RunRemembers(Advance(s, b, now).saga, later);
  }

  lemma OnlyFinalStagesAnswer(s: Saga, b: BookingId, now: Time)
    requires Advance(s, b, now).outcome.Answered?
    ensures b in s.inFlight && (s.inFlight[b].QuotePresented? || s.inFlight[b].Classified?)
  {
    hide PersistQuote, AcceptOffer;
  }

  // ---------------------------------------------------------------- what the quote reply says

  /** After its first transaction a quote request runs through, leaving the quotes as they are. */
  lemma QuoteRunsThrough(s: Saga, b: BookingId, n2: Time, n3: Time, n4: Time)
    requires b in s.inFlight && s.inFlight[b].QuoteStored? && b in s.bookings && s.bookings[b].status == Draft
    ensures var stage := s.inFlight[b];
            var last := Advance(Advance(s, b, n2).saga, b, n3).saga;
            last.quotes == s.quotes && Advance(last, b, n4).outcome == Answered(Quoted(b, stage.quote, stage.price, stage.expiresAt))
  {
    hide AppendRow, PersistQuote, AcceptOffer;
  }

  lemma QuoteKeyKept(s: Saga, b: BookingId, key: Key, price: Price, expiresAt: Time)
    requires CreateQuote(key) in s.pricingDedup ==>
               s.pricingDedup[CreateQuote(key)].QuoteMade? && s.pricingDedup[CreateQuote(key)].quote in s.quotes
    ensures var r := PersistQuote(s, b, key, price, expiresAt);
            && r.0.bookings == s.bookings && r.1 in r.0.quotes
            && (CreateQuote(key) in s.pricingDedup ==> r.0.quotes == s.quotes)
            && (CreateQuote(key) !in s.pricingDedup ==> r.0.quotes[r.1] == Quote(b, Offered, price, expiresAt))
  {
    hide Superseding;
  }

  /** A quote request that runs through answers with the price it was given; the stored quote says the same exactly if the key was
      new or had stored an equal, still open quote. Retrying under a used key prices again but keeps the old quote. */
  lemma QuoteReplyTrueIff(s: Saga, b: BookingId, n1: Time, n2: Time, n3: Time, n4: Time)
    requires Inv(s) && b in s.inFlight && s.inFlight[b].DraftRead?
    ensures var stage := s.inFlight[b];
            var k := CreateQuote(stage.key);
            var asked := Quote(b, Offered, stage.price, stage.expiresAt);
            var quote := PersistQuote(s, b, stage.key, stage.price, stage.expiresAt).1;
            var last := Advance(Advance(Advance(s, b, n1).saga, b, n2).saga, b, n3).saga;
            && Advance(last, b, n4).outcome == Answered(Quoted(b, quote, stage.price, stage.expiresAt))
            && quote in last.quotes
            && (last.quotes[quote] == asked <==> k !in s.pricingDedup || (quote in s.quotes && s.quotes[quote] == asked))
  {
    hide IdsFit, LogsFit, QuotesFit, AgreementsFit, SpineFits, FlightFits, DedupFits, KeysFit, PersistQuote, Advance;
    var stage, k := s.inFlight[b], CreateQuote(s.inFlight[b].key);
    DraftInFlight(s, b);
    if k in s.pricingDedup { RecordedReply(s, b, k); }
    QuoteKeyKept(s, b, stage.key, stage.price, stage.expiresAt);
    FirstQuoteStep(s, b, n1);
    QuoteRunsThrough(Advance(s, b, n1).saga, b, n2, n3, n4);
  }

  lemma DraftInFlight(s: Saga, b: BookingId)
    requires Inv(s) && b in s.inFlight && s.inFlight[b].DraftRead?
    ensures b in s.bookings && s.bookings[b].status == Draft
  {
    hide Inv;
    InFlightStage(s, b);
  }

  lemma FirstQuoteStep(s: Saga, b: BookingId, now: Time)
    requires b in s.inFlight && s.inFlight[b].DraftRead?
    ensures var stage := s.inFlight[b];
            var made := PersistQuote(s, b, stage.key, stage.price, stage.expiresAt);
            Advance(s, b, now).saga
              == made.0.(inFlight := s.inFlight[b := QuoteStored(stage.key, stage.price, stage.expiresAt, made.1)])
  {
    hide PersistQuote;
  }

  // ---------------------------------------------------------------- a key shared between bookings

  /** Without key discipline: a confirmation that goes through leaves the booking CONFIRMED with an agreement of its own
      exactly if no booking had accepted a quote under its key before. */
  lemma SharedKeyConfirmsUnpriced(s: Saga, b: BookingId, now: Time, later: Time)
    requires b in s.bookings && s.bookings[b].status == AwaitingConfirmation && !HasAgreement(s.agreements, b)
    requires b in s.inFlight && s.inFlight[b].AwaitingRead? && Advance(s, b, now).outcome == Goes
    requires forall k :: k in s.pricingDedup && k.AcceptQuote? ==> s.pricingDedup[k].FareAgreed?
    ensures var r := Advance(Advance(s, b, now).saga, b, later).saga;
            && b in r.bookings && r.bookings[b].status == Confirmed
            && (HasAgreement(r.agreements, b) <==> AcceptQuote(s.inFlight[b].key) !in s.pricingDedup)
  {
    hide AppendRow;
    var r := Advance(Advance(s, b, now).saga, b, later).saga;
    if AcceptQuote(s.inFlight[b].key) !in s.pricingDedup { assert AgreedFor(r.agreements, s.nextId, b); }
  }
}
