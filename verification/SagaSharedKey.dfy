/** A run in which two bookings of one rider are confirmed under the same key. */
module SagaSharedKey {
  import opened Prelude
  import opened BookingStatus
  import opened BookingSaga
  import opened SagaInvariants

  const RIDER: PersonId := 1
  const FARE: Price := Price(900, "GBP", "v1")
  const DEARER: Price := Price(2500, "GBP", "v1")

  function Row(status: Status, version: nat): Booking {
    Booking(RIDER, status, version, None)
  }

  // ---------------------------------------------------------------- requests and their transactions

  /** The first `n` transactions of a request on `b`, one after another. */
  function Steps(b: BookingId, n: nat): seq<Event> {
    if n == 0 then [] else Steps(b, n - 1) + [Advancing(b, 50)]
  }

  function Stepped(s: Saga, b: BookingId, n: nat): Saga {
    if n == 0 then s else Advance(Stepped(s, b, n - 1), b, 50).saga
  }

  lemma RunMore(events: seq<Event>, e: Event)
    ensures Run(EMPTY, events + [e]) == Apply(Run(EMPTY, events), e).saga
  {
    assert (events + [e])[..|events|] == events;
  }

  lemma {:induction false} RunSteps(events: seq<Event>, b: BookingId, n: nat)
    ensures Run(EMPTY, events + Steps(b, n)) == Stepped(Run(EMPTY, events), b, n)
  {
    hide Advance, Run;
    if n == 0 {
      assert events + [] == events;
    } else {
      RunSteps(events, b, n - 1);
      RunMore(events + Steps(b, n - 1), Advancing(b, 50));
      assert events + Steps(b, n) == events + Steps(b, n - 1) + [Advancing(b, 50)];
    }
  }

  /** A request and its first `n` transactions. */
  function Request(ask: Event, b: BookingId, n: nat): seq<Event> {
    [ask] + Steps(b, n)
  }

  lemma RunRequest(events: seq<Event>, ask: Event, b: BookingId, n: nat)
    ensures Run(EMPTY, events + Request(ask, b, n)) == Stepped(Apply(Run(EMPTY, events), ask).saga, b, n)
  {
    hide Stepped, Apply, Run, Steps;
    RunMore(events, ask);
    RunSteps(events + [ask], b, n);
    assert events + Request(ask, b, n) == events + [ask] + Steps(b, n);
  }

  // ---------------------------------------------------------------- quoting

  lemma Persists(s: Saga, b: BookingId, key: Key, price: Price)
    requires b in s.bookings && s.bookings[b] == Row(Draft, 1) && s.inFlight == map[b := DraftRead(key, price, 100)]
    requires CreateQuote(key) !in s.pricingDedup
    ensures Advance(s, b, 50).saga
         == s.(nextId := s.nextId + 1, quotes := Superseding(s.quotes, b)[s.nextId := Quote(b, Offered, price, 100)],
               pricingDedup := s.pricingDedup[CreateQuote(key) := QuoteMade(b, s.nextId)],
               inFlight := map[b := QuoteStored(key, price, 100, s.nextId)])
  {
    hide Superseding;
  }

  /** The transaction after `stage` moves the booking from one status to another. */
  predicate Leads(stage: Stage, from: Status, to: Status, next: Stage) {
    match stage
    case QuoteStored(k, price, x, q) => from == Draft && to == QuoteCreated && next == QuoteCreatedStage(k, price, x, q)
    case QuoteCreatedStage(k, price, x, q) => from == QuoteCreated && to == AwaitingConfirmation && next == QuotePresented(k, price, x, q)
    case FareStored(k, a) => from == AwaitingConfirmation && to == Confirmed && next == ConfirmedStage(k, a)
    case ConfirmedStage(k, a) => from == Confirmed && to == ReadyForDispatch && next == Classified(k, a)
    case _ => false
  }

  lemma Transits(s: Saga, b: BookingId, from: Status, to: Status, version: nat, stage: Stage, next: Stage)
    requires b in s.bookings && s.bookings[b] == Row(from, version) && s.inFlight == map[b := stage] && Leads(stage, from, to, next)
    ensures var r := Advance(s, b, 50).saga;
            r == s.(bookings := s.bookings[b := Row(to, version + 1)], log := r.log, inFlight := map[b := next])
  {
    hide AppendRow;
  }

  lemma Answers(s: Saga, b: BookingId, stage: Stage)
    requires s.inFlight == map[b := stage] && (stage.QuotePresented? || stage.Classified?)
    requires (if stage.QuotePresented? then QuoteBooking(stage.key) else ConfirmBooking(stage.key)) !in s.bookingDedup
    ensures Advance(s, b, 50).saga
         == s.(inFlight := map[],
               bookingDedup := if stage.QuotePresented?
                               then s.bookingDedup[QuoteBooking(stage.key) := Quoted(b, stage.quote, stage.price, stage.expiresAt)]
                               else s.bookingDedup[ConfirmBooking(stage.key) := Confirmation(b, stage.agreement)])
  {
    assert s.inFlight - {b} == map[];
  }

  lemma SteppedOn(s: Saga, b: BookingId, n: nat, now: Saga)
    requires Stepped(s, b, n) == now
    ensures Stepped(s, b, n + 1) == Advance(now, b, 50).saga
  {
    hide Advance;
  }

  lemma SteppedFour(s: Saga, b: BookingId)
    ensures Stepped(s, b, 2) == Advance(Advance(s, b, 50).saga, b, 50).saga
    ensures Stepped(s, b, 4) == Advance(Advance(Stepped(s, b, 2), b, 50).saga, b, 50).saga
  {
    hide Advance;
    SteppedOn(s, b, 0, s);
    SteppedOn(s, b, 1, Advance(s, b, 50).saga);
    SteppedOn(s, b, 2, Stepped(s, b, 2));
    SteppedOn(s, b, 3, Advance(Stepped(s, b, 2), b, 50).saga);
  }

  lemma QuoteAsked(s: Saga, b: BookingId, key: Key, price: Price)
    requires b in s.bookings && s.bookings[b] == Row(Draft, 1) && s.inFlight == map[] && QuoteBooking(key) !in s.bookingDedup
    ensures Apply(s, Quoting(b, RIDER, key, price, 100)).saga == s.(inFlight := map[b := DraftRead(key, price, 100)])
  {
  }

  lemma QuoteHalfway(s: Saga, b: BookingId, key: Key, price: Price)
    requires b in s.bookings && s.bookings[b] == Row(Draft, 1) && s.inFlight == map[b := DraftRead(key, price, 100)]
    requires CreateQuote(key) !in s.pricingDedup
    ensures var r := Stepped(s, b, 2);
            r == s.(nextId := s.nextId + 1, bookings := s.bookings[b := Row(QuoteCreated, 2)], log := r.log,
                    quotes := Superseding(s.quotes, b)[s.nextId := Quote(b, Offered, price, 100)],
                    pricingDedup := s.pricingDedup[CreateQuote(key) := QuoteMade(b, s.nextId)],
                    inFlight := map[b := QuoteCreatedStage(key, price, 100, s.nextId)])
  {
    hide Advance, Superseding, Stepped;
    SteppedFour(s, b);
    Persists(s, b, key, price);
    Transits(Advance(s, b, 50).saga, b, Draft, QuoteCreated, 1, QuoteStored(key, price, 100, s.nextId), QuoteCreatedStage(key, price, 100, s.nextId));
  }

  lemma QuoteEnds(s: Saga, b: BookingId, key: Key, price: Price, q: QuoteId)
    requires b in s.bookings && s.bookings[b] == Row(QuoteCreated, 2) && s.inFlight == map[b := QuoteCreatedStage(key, price, 100, q)]
    requires QuoteBooking(key) !in s.bookingDedup
    ensures var r := Advance(Advance(s, b, 50).saga, b, 50).saga;
            r == s.(bookings := s.bookings[b := Row(AwaitingConfirmation, 3)], log := r.log, inFlight := map[],
                    bookingDedup := s.bookingDedup[QuoteBooking(key) := Quoted(b, q, price, 100)])
  {
    hide Advance;
    Transits(s, b, QuoteCreated, AwaitingConfirmation, 2, QuoteCreatedStage(key, price, 100, q), QuotePresented(key, price, 100, q));
    Answers(Advance(s, b, 50).saga, b, QuotePresented(key, price, 100, q));
  }

  /** A quote request on a DRAFT booking that runs through. */
  lemma QuoteGoesThrough(s: Saga, b: BookingId, key: Key, price: Price)
    requires b in s.bookings && s.bookings[b] == Row(Draft, 1) && s.inFlight == map[]
    requires CreateQuote(key) !in s.pricingDedup && QuoteBooking(key) !in s.bookingDedup
    ensures var r := Stepped(Apply(s, Quoting(b, RIDER, key, price, 100)).saga, b, 4);
            r == s.(nextId := s.nextId + 1, bookings := s.bookings[b := Row(AwaitingConfirmation, 3)], log := r.log,
                    quotes := Superseding(s.quotes, b)[s.nextId := Quote(b, Offered, price, 100)],
                    pricingDedup := s.pricingDedup[CreateQuote(key) := QuoteMade(b, s.nextId)],
                    bookingDedup := s.bookingDedup[QuoteBooking(key) := Quoted(b, s.nextId, price, 100)])
  {
    hide Advance, Superseding, Stepped, Apply;
    var asked := s.(inFlight := map[b := DraftRead(key, price, 100)]);
    QuoteAsked(s, b, key, price);
    SteppedFour(asked, b);
    QuoteHalfway(asked, b, key, price);
    QuoteEnds(Stepped(asked, b, 2), b, key, price, s.nextId);
    assert s.bookings[b := Row(QuoteCreated, 2)][b := Row(AwaitingConfirmation, 3)] == s.bookings[b := Row(AwaitingConfirmation, 3)];
  }

  // ---------------------------------------------------------------- confirming

  lemma ConfirmAsked(s: Saga, b: BookingId, key: Key, wanted: QuoteId)
    requires b in s.bookings && s.bookings[b] == Row(AwaitingConfirmation, 3) && s.inFlight == map[]
    requires ConfirmBooking(key) in s.bookingDedup ==> s.bookingDedup[ConfirmBooking(key)].booking != b
    ensures Apply(s, Confirming(b, RIDER, key, wanted)).saga == s.(inFlight := map[b := AwaitingRead(key, wanted)])
  {
  }

  lemma Accepts(s: Saga, b: BookingId, key: Key, wanted: QuoteId)
    requires s.inFlight == map[b := AwaitingRead(key, wanted)] && AcceptQuote(key) !in s.pricingDedup
    requires wanted in s.quotes && s.quotes[wanted].booking == b && s.quotes[wanted].status == Offered && s.quotes[wanted].expiresAt == 100
    ensures Advance(s, b, 50).saga
         == s.(nextId := s.nextId + 1, agreements := s.agreements[s.nextId := Agreement(b, wanted, s.quotes[wanted].price)],
               quotes := s.quotes[wanted := s.quotes[wanted].(status := AcceptedQuote)],
               pricingDedup := s.pricingDedup[AcceptQuote(key) := FareAgreed(b, s.nextId)],
               inFlight := map[b := FareStored(key, s.nextId)])
  {
  }

  lemma ConfirmationHalfway(s: Saga, b: BookingId, key: Key, wanted: QuoteId)
    requires b in s.bookings && s.bookings[b] == Row(AwaitingConfirmation, 3) && s.inFlight == map[b := AwaitingRead(key, wanted)]
    requires AcceptQuote(key) !in s.pricingDedup
    requires wanted in s.quotes && s.quotes[wanted].booking == b && s.quotes[wanted].status == Offered && s.quotes[wanted].expiresAt == 100
    ensures var r := Stepped(s, b, 2);
            r == s.(nextId := s.nextId + 1, bookings := s.bookings[b := Row(Confirmed, 4)], log := r.log,
                    agreements := s.agreements[s.nextId := Agreement(b, wanted, s.quotes[wanted].price)],
                    quotes := s.quotes[wanted := s.quotes[wanted].(status := AcceptedQuote)],
                    pricingDedup := s.pricingDedup[AcceptQuote(key) := FareAgreed(b, s.nextId)],
                    inFlight := map[b := ConfirmedStage(key, s.nextId)])
  {
    hide Advance, Stepped;
    SteppedFour(s, b);
    Accepts(s, b, key, wanted);
    Transits(Advance(s, b, 50).saga, b, AwaitingConfirmation, Confirmed, 3, FareStored(key, s.nextId), ConfirmedStage(key, s.nextId));
  }

  lemma ConfirmationEnds(s: Saga, b: BookingId, key: Key, a: AgreementId)
    requires b in s.bookings && s.bookings[b] == Row(Confirmed, 4) && s.inFlight == map[b := ConfirmedStage(key, a)]
    requires ConfirmBooking(key) !in s.bookingDedup
    ensures var r := Advance(Advance(s, b, 50).saga, b, 50).saga;
            r == s.(bookings := s.bookings[b := Row(ReadyForDispatch, 5)], log := r.log, inFlight := map[],
                    bookingDedup := s.bookingDedup[ConfirmBooking(key) := Confirmation(b, a)])
  {
    hide Advance;
    Transits(s, b, Confirmed, ReadyForDispatch, 4, ConfirmedStage(key, a), Classified(key, a));
    Answers(Advance(s, b, 50).saga, b, Classified(key, a));
  }

  /** A confirmation under a new key that runs through. */
  lemma ConfirmationGoesThrough(s: Saga, b: BookingId, key: Key, wanted: QuoteId)
    requires b in s.bookings && s.bookings[b] == Row(AwaitingConfirmation, 3) && s.inFlight == map[]
    requires ConfirmBooking(key) !in s.bookingDedup && AcceptQuote(key) !in s.pricingDedup
    requires wanted in s.quotes && s.quotes[wanted].booking == b && s.quotes[wanted].status == Offered && s.quotes[wanted].expiresAt == 100
    ensures var r := Stepped(Apply(s, Confirming(b, RIDER, key, wanted)).saga, b, 4);
            r == s.(nextId := s.nextId + 1, bookings := s.bookings[b := Row(ReadyForDispatch, 5)], log := r.log,
                    agreements := s.agreements[s.nextId := Agreement(b, wanted, s.quotes[wanted].price)],
                    quotes := s.quotes[wanted := s.quotes[wanted].(status := AcceptedQuote)],
                    pricingDedup := s.pricingDedup[AcceptQuote(key) := FareAgreed(b, s.nextId)],
                    bookingDedup := s.bookingDedup[ConfirmBooking(key) := Confirmation(b, s.nextId)])
  {
    hide Advance, Stepped, Apply;
    var asked := s.(inFlight := map[b := AwaitingRead(key, wanted)]);
    ConfirmAsked(s, b, key, wanted);
    SteppedFour(asked, b);
    ConfirmationHalfway(asked, b, key, wanted);
    ConfirmationEnds(Stepped(asked, b, 2), b, key, s.nextId);
    assert s.bookings[b := Row(Confirmed, 4)][b := Row(ReadyForDispatch, 5)] == s.bookings[b := Row(ReadyForDispatch, 5)];
  }

  lemma AcceptsAgain(s: Saga, b: BookingId, key: Key, wanted: QuoteId)
    requires s.inFlight == map[b := AwaitingRead(key, wanted)]
    requires AcceptQuote(key) in s.pricingDedup && s.pricingDedup[AcceptQuote(key)].FareAgreed?
    ensures Advance(s, b, 50).saga == s.(inFlight := map[b := FareStored(key, s.pricingDedup[AcceptQuote(key)].agreement)])
  {
  }

  /** A confirmation under a key that has accepted a quote already takes that agreement, whosever it is. */
  lemma UsedKeyConfirms(s: Saga, b: BookingId, key: Key, wanted: QuoteId)
    requires b in s.bookings && s.bookings[b] == Row(AwaitingConfirmation, 3) && s.inFlight == map[]
    requires AcceptQuote(key) in s.pricingDedup && s.pricingDedup[AcceptQuote(key)].FareAgreed?
    requires ConfirmBooking(key) in s.bookingDedup ==> s.bookingDedup[ConfirmBooking(key)].booking != b
    ensures var r := Stepped(Apply(s, Confirming(b, RIDER, key, wanted)).saga, b, 2);
            r == s.(bookings := s.bookings[b := Row(Confirmed, 4)], log := r.log,
                    inFlight := map[b := ConfirmedStage(key, s.pricingDedup[AcceptQuote(key)].agreement)])
  {
    hide Advance, Stepped, Apply;
    var a := s.pricingDedup[AcceptQuote(key)].agreement;
    ConfirmAsked(s, b, key, wanted);
    var asked := s.(inFlight := map[b := AwaitingRead(key, wanted)]);
    SteppedFour(asked, b);
    AcceptsAgain(asked, b, key, wanted);
    Transits(Advance(asked, b, 50).saga, b, AwaitingConfirmation, Confirmed, 3, FareStored(key, a), ConfirmedStage(key, a));
  }

  // ---------------------------------------------------------------- the run

  const CREATED: seq<Event> := [Creating(RIDER, "c0", None), Creating(RIDER, "c1", None)]
  const FIRST_QUOTED: seq<Event> := CREATED + Request(Quoting(0, RIDER, "q0", FARE, 100), 0, 4)
  const FIRST_CONFIRMED: seq<Event> := FIRST_QUOTED + Request(Confirming(0, RIDER, "key", 2), 0, 4)
  const SECOND_QUOTED: seq<Event> := FIRST_CONFIRMED + Request(Quoting(1, RIDER, "q1", DEARER, 100), 1, 4)
  const SECOND_CONFIRMED: seq<Event> := SECOND_QUOTED + Request(Confirming(1, RIDER, "key", 4), 1, 2)

  /** The tables but for the booking log. */
  predicate TablesAre(s: Saga, nextId: nat, first: Booking, second: Booking, quotes: map<QuoteId, Quote>,
                  agreements: map<AgreementId, Agreement>, pricing: map<PricingKey, PricingReply>, replies: set<BookingKey>) {
    && s.nextId == nextId && s.bookings == map[0 := first, 1 := second] && s.quotes == quotes && s.agreements == agreements
    && s.pricingDedup == pricing && s.bookingDedup.Keys == replies && s.inFlight == map[]
    && (ConfirmBooking("key") in s.bookingDedup ==> s.bookingDedup[ConfirmBooking("key")].booking == 0)
  }

  lemma BothCreated()
    ensures TablesAre(Run(EMPTY, CREATED), 2, Row(Draft, 1), Row(Draft, 1), map[], map[], map[], {CreateBooking("c0"), CreateBooking("c1")})
  {
    hide AppendRow;
    assert CREATED[..1] == [] + [CREATED[0]] && CREATED == CREATED[..1] + [CREATED[1]];
    RunMore([], CREATED[0]);
    RunMore(CREATED[..1], CREATED[1]);
  }

  lemma FirstQuoted()
    ensures TablesAre(Run(EMPTY, FIRST_QUOTED), 3, Row(AwaitingConfirmation, 3), Row(Draft, 1), map[2 := Quote(0, Offered, FARE, 100)], map[],
                  map[CreateQuote("q0") := QuoteMade(0, 2)], {CreateBooking("c0"), CreateBooking("c1"), QuoteBooking("q0")})
  {
    hide Run, Stepped, Apply;
    BothCreated();
    RunRequest(CREATED, Quoting(0, RIDER, "q0", FARE, 100), 0, 4);
    QuoteGoesThrough(Run(EMPTY, CREATED), 0, "q0", FARE);
  }

  lemma FirstConfirmed()
    ensures TablesAre(Run(EMPTY, FIRST_CONFIRMED), 4, Row(ReadyForDispatch, 5), Row(Draft, 1), map[2 := Quote(0, AcceptedQuote, FARE, 100)],
                  map[3 := Agreement(0, 2, FARE)], map[CreateQuote("q0") := QuoteMade(0, 2), AcceptQuote("key") := FareAgreed(0, 3)],
                  {CreateBooking("c0"), CreateBooking("c1"), QuoteBooking("q0"), ConfirmBooking("key")})
  {
    hide Run, Stepped, Apply;
    FirstQuoted();
    RunRequest(FIRST_QUOTED, Confirming(0, RIDER, "key", 2), 0, 4);
    ConfirmationGoesThrough(Run(EMPTY, FIRST_QUOTED), 0, "key", 2);
  }

  lemma SecondQuoted()
    ensures TablesAre(Run(EMPTY, SECOND_QUOTED), 5, Row(ReadyForDispatch, 5), Row(AwaitingConfirmation, 3),
                  map[2 := Quote(0, AcceptedQuote, FARE, 100), 4 := Quote(1, Offered, DEARER, 100)], map[3 := Agreement(0, 2, FARE)],
                  map[CreateQuote("q0") := QuoteMade(0, 2), AcceptQuote("key") := FareAgreed(0, 3), CreateQuote("q1") := QuoteMade(1, 4)],
                  {CreateBooking("c0"), CreateBooking("c1"), QuoteBooking("q0"), ConfirmBooking("key"), QuoteBooking("q1")})
  {
    hide Run, Stepped, Apply;
    FirstConfirmed();
    RunRequest(FIRST_CONFIRMED, Quoting(1, RIDER, "q1", DEARER, 100), 1, 4);
    QuoteGoesThrough(Run(EMPTY, FIRST_CONFIRMED), 1, "q1", DEARER);
  }

  /** In a run from the empty store, the second booking is CONFIRMED on the first one's agreement: it has none of its own,
      and its dearer quote is still open. */
  lemma SharedKeyExample()
    ensures var s := Run(EMPTY, SECOND_CONFIRMED);
            && 1 in s.bookings && s.bookings[1].status == Confirmed && !HasAgreement(s.agreements, 1)
            && s.inFlight == map[1 := ConfirmedStage("key", 3)] && s.agreements == map[3 := Agreement(0, 2, FARE)]
            && 4 in s.quotes && s.quotes[4] == Quote(1, Offered, DEARER, 100)
  {
    hide Run, Stepped, Apply;
    SecondQuoted();
    RunRequest(SECOND_QUOTED, Confirming(1, RIDER, "key", 4), 1, 2);
    UsedKeyConfirms(Run(EMPTY, SECOND_QUOTED), 1, "key", 4);
  }
}
