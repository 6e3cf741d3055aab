/**
 Quoting and confirming a booking: one request is several transactions on two schemas, each able to be the last one
 before a crash. A request in flight is a stage; `Advance` runs its next transaction and `Crash` forgets it.
 */
module BookingSaga {
  import opened Prelude
  import opened BookingStatus

  type QuoteId = nat
  type AgreementId = nat

  datatype Price = Price(amount: int, currency: string, policy: string)

  datatype QuoteStatus = Offered | AcceptedQuote | ExpiredQuote | Superseded | CancelledQuote

  datatype Quote = Quote(booking: BookingId, status: QuoteStatus, price: Price, expiresAt: Time)

  datatype Agreement = Agreement(booking: BookingId, quote: QuoteId, price: Price)

  datatype Booking = Booking(booker: PersonId, status: Status, version: nat, scheduledFor: Option<Time>)

  /** Responses of the two pricing transactions, with the booking of the row that stores them. */
  datatype PricingReply = QuoteMade(booking: BookingId, quote: QuoteId) | FareAgreed(booking: BookingId, agreement: AgreementId)

  datatype Reply =
    | Created(booking: BookingId)
    | Quoted(booking: BookingId, quote: QuoteId, price: Price, expiresAt: Time)
    | Confirmation(booking: BookingId, agreement: AgreementId)

  datatype PricingKey = CreateQuote(key: Key) | AcceptQuote(key: Key)

  datatype BookingKey = CreateBooking(key: Key) | QuoteBooking(key: Key) | ConfirmBooking(key: Key)

  /** A request in flight, named after the transaction that committed last. */
  datatype Stage =
    | DraftRead(key: Key, price: Price, expiresAt: Time)
    | QuoteStored(key: Key, price: Price, expiresAt: Time, quote: QuoteId)
    | QuoteCreatedStage(key: Key, price: Price, expiresAt: Time, quote: QuoteId)
    | QuotePresented(key: Key, price: Price, expiresAt: Time, quote: QuoteId)
    | AwaitingRead(key: Key, wanted: QuoteId)
    | FareStored(key: Key, agreement: AgreementId)
    | ConfirmedStage(key: Key, agreement: AgreementId)
    | Classified(key: Key, agreement: AgreementId)

  datatype Saga = Saga(
    nextId: nat,
    bookings: map<BookingId, Booking>,
    log: map<BookingId, seq<Transition>>,
    quotes: map<QuoteId, Quote>,
    agreements: map<AgreementId, Agreement>,
    pricingDedup: map<PricingKey, PricingReply>,
    bookingDedup: map<BookingKey, Reply>,
    inFlight: map<BookingId, Stage>)

  const EMPTY: Saga := Saga(0, map[], map[], map[], map[], map[], map[], map[])

  datatype Refusal = Forbidden | Conflict | QuoteNotUsable

  datatype Outcome = Goes | Answered(reply: Reply) | Refused(why: Refusal)

  datatype Step = Step(saga: Saga, outcome: Outcome)

  predicate Usable(q: Quote, now: Time) {
    q.status == Offered && q.expiresAt > now
  }

  /** transitionBooking, once its guard has passed. */
  function Moved(s: Saga, b: BookingId, to: Status): Saga
    requires b in s.bookings
  {
    var before := s.bookings[b];
    s.(bookings := s.bookings[b := before.(status := to, version := before.version + 1)],
       log := AppendRow(s.log, b, Transition(Some(before.status), to, before.version + 1)))
  }

  function Drop(s: Saga, b: BookingId): Saga {
    s.(inFlight := s.inFlight - {b})
  }

  function Create(s: Saga, person: PersonId, key: Key, scheduledFor: Option<Time>): Step {
    if CreateBooking(key) in s.bookingDedup then Step(s, Answered(s.bookingDedup[CreateBooking(key)]))
    else
      var b := s.nextId;
      Step(s.(nextId := b + 1,
              bookings := s.bookings[b := Booking(person, Draft, 1, scheduledFor)],
              log := AppendRow(s.log, b, Transition(None, Draft, 1)),
              bookingDedup := s.bookingDedup[CreateBooking(key) := Created(b)]),
           Answered(Created(b)))
  }

  /** The stored reply of a request on `b`, found by key and booking. */
  function Stored(s: Saga, k: BookingKey, b: BookingId): Option<Reply> {
    if k in s.bookingDedup && s.bookingDedup[k].booking == b then Some(s.bookingDedup[k]) else None
  }

  /** The reads that open a quote request; `price` is what the pricing port answers outside any transaction. */
  function AskQuote(s: Saga, b: BookingId, person: PersonId, key: Key, price: Price, expiresAt: Time): Step {
    if b !in s.bookings || s.bookings[b].booker != person then Step(s, Refused(Forbidden))
    else if Stored(s, QuoteBooking(key), b).Some? then Step(s, Answered(Stored(s, QuoteBooking(key), b).value))
    else if s.bookings[b].status != Draft then Step(s, Refused(Conflict))
    else Step(s.(inFlight := s.inFlight[b := DraftRead(key, price, expiresAt)]), Goes)
  }

  function AskConfirm(s: Saga, b: BookingId, person: PersonId, key: Key, wanted: QuoteId): Step {
    if b !in s.bookings || s.bookings[b].booker != person then Step(s, Refused(Forbidden))
    else if Stored(s, ConfirmBooking(key), b).Some? then Step(s, Answered(Stored(s, ConfirmBooking(key), b).value))
    else if s.bookings[b].status != AwaitingConfirmation then Step(s, Refused(Conflict))
    else Step(s.(inFlight := s.inFlight[b := AwaitingRead(key, wanted)]), Goes)
  }

  function Superseding(quotes: map<QuoteId, Quote>, b: BookingId): (after: map<QuoteId, Quote>)
    ensures after.Keys == quotes.Keys
    ensures forall q :: q in quotes ==>
              after[q] == if quotes[q].booking == b && quotes[q].status == Offered then quotes[q].(status := Superseded) else quotes[q]
  {
    map q | q in quotes :: if quotes[q].booking == b && quotes[q].status == Offered then quotes[q].(status := Superseded) else quotes[q]
  }

  /** persistQuote: the quote and the store it leaves. */
  function PersistQuote(s: Saga, b: BookingId, key: Key, price: Price, expiresAt: Time): (Saga, QuoteId) {
    var k := CreateQuote(key);
    if k in s.pricingDedup && s.pricingDedup[k].QuoteMade? then (s, s.pricingDedup[k].quote)
    else
      (s.(nextId := s.nextId + 1,
          quotes := Superseding(s.quotes, b)[s.nextId := Quote(b, Offered, price, expiresAt)],
          pricingDedup := s.pricingDedup[k := QuoteMade(b, s.nextId)]),
       s.nextId)
  }

  /** acceptQuote: the agreement and the store it leaves, or None when it throws. Its EXPIRED update is rolled back with it. */
  function AcceptOffer(s: Saga, b: BookingId, key: Key, wanted: QuoteId, now: Time): Option<(Saga, AgreementId)> {
    var k := AcceptQuote(key);
    if k in s.pricingDedup && s.pricingDedup[k].FareAgreed? then Some((s, s.pricingDedup[k].agreement))
    else if wanted !in s.quotes || s.quotes[wanted].booking != b || !Usable(s.quotes[wanted], now) then None
    else
      Some((s.(nextId := s.nextId + 1,
               agreements := s.agreements[s.nextId := Agreement(b, wanted, s.quotes[wanted].price)],
               quotes := s.quotes[wanted := s.quotes[wanted].(status := AcceptedQuote)],
               pricingDedup := s.pricingDedup[k := FareAgreed(b, s.nextId)]),
            s.nextId))
  }

  /** INSERT ... ON CONFLICT (command_type, idempotency_key) DO NOTHING. */
  function Remember(s: Saga, k: BookingKey, reply: Reply): Saga {
    if k in s.bookingDedup then s else s.(bookingDedup := s.bookingDedup[k := reply])
  }

  function Transitioned(s: Saga, b: BookingId, from: Status, to: Status, next: Stage): Step {
    if b !in s.bookings || s.bookings[b].status != from then Step(Drop(s, b), Refused(Conflict))
    else Step(Moved(s, b, to).(inFlight := s.inFlight[b := next]), Goes)
  }

  function ReadyStatus(scheduledFor: Option<Time>, now: Time): Status {
    if scheduledFor.Some? && scheduledFor.value > now then Scheduled else ReadyForDispatch
  }

  /** The next transaction of the request in flight on `b`. */
  function Advance(s: Saga, b: BookingId, now: Time): Step {
    if b !in s.inFlight then Step(s, Goes)
    else
      match s.inFlight[b]
      case DraftRead(key, price, expiresAt) =>
        var (r, quote) := PersistQuote(s, b, key, price, expiresAt);
        Step(r.(inFlight := s.inFlight[b := QuoteStored(key, price, expiresAt, quote)]), Goes)
      case QuoteStored(key, price, expiresAt, quote) =>
        Transitioned(s, b, Draft, QuoteCreated, QuoteCreatedStage(key, price, expiresAt, quote))
      case QuoteCreatedStage(key, price, expiresAt, quote) =>
        Transitioned(s, b, QuoteCreated, AwaitingConfirmation, QuotePresented(key, price, expiresAt, quote))
      case QuotePresented(key, price, expiresAt, quote) =>
        var reply := Quoted(b, quote, price, expiresAt);
        Step(Drop(Remember(s, QuoteBooking(key), reply), b), Answered(reply))
      case AwaitingRead(key, wanted) =>
        var fare := AcceptOffer(s, b, key, wanted, now);
        if fare.None? then Step(Drop(s, b), Refused(QuoteNotUsable))
        else Step(fare.value.0.(inFlight := s.inFlight[b := FareStored(key, fare.value.1)]), Goes)
      case FareStored(key, agreement) =>
        Transitioned(s, b, AwaitingConfirmation, Confirmed, ConfirmedStage(key, agreement))
      case ConfirmedStage(key, agreement) =>
        Transitioned(s, b, Confirmed, if b in s.bookings then ReadyStatus(s.bookings[b].scheduledFor, now) else Scheduled,
                     Classified(key, agreement))
      case Classified(key, agreement) =>
        var reply := Confirmation(b, agreement);
        Step(Drop(Remember(s, ConfirmBooking(key), reply), b), Answered(reply))
  }

  datatype Event =
    | Creating(person: PersonId, key: Key, scheduledFor: Option<Time>)
    | Quoting(booking: BookingId, person: PersonId, key: Key, price: Price, expiresAt: Time)
    | Confirming(booking: BookingId, person: PersonId, key: Key, wanted: QuoteId)
    | Advancing(booking: BookingId, now: Time)
    | Crashing(booking: BookingId)
    | Dispatching(booking: BookingId, to: Status)

  function Apply(s: Saga, e: Event): Step {
    match e
    case Creating(p, k, f) => Create(s, p, k, f)
    case Quoting(b, p, k, price, x) => if b in s.inFlight then Step(s, Goes) else AskQuote(s, b, p, k, price, x)
    case Confirming(b, p, k, q) => if b in s.inFlight then Step(s, Goes) else AskConfirm(s, b, p, k, q)
    case Advancing(b, now) => Advance(s, b, now)
    case Crashing(b) => Step(Drop(s, b), Goes)
    case Dispatching(b, to) =>
      if b in s.bookings && b !in s.inFlight && Rank(s.bookings[b].status) >= Rank(Scheduled) && CanForward(s.bookings[b].status, to)
      then Step(Moved(s, b, to), Goes) else Step(s, Goes)
  }

  function Run(s: Saga, events: seq<Event>): Saga
    decreases |events|
  {
    if events == [] then s else Apply(Run(s, events[..|events| - 1]), events[|events| - 1]).saga
  }

  // ---------------------------------------------------------------- keys

  /** No other booking has used `key`, or is using it. */
  ghost predicate KeyFree(s: Saga, b: BookingId, key: Key) {
    && (forall k :: k in s.pricingDedup && k.key == key ==> s.pricingDedup[k].booking == b)
    && (forall c :: c in s.inFlight && c != b ==> s.inFlight[c].key != key)
  }

  ghost predicate OwnKey(s: Saga, e: Event) {
    (e.Quoting? || e.Confirming?) ==> KeyFree(s, e.booking, e.key)
  }

  /** Every quote and confirm request of the run uses a key no other booking uses. */
  ghost predicate OwnKeys(s: Saga, events: seq<Event>)
    decreases |events|
  {
    events == [] || (OwnKeys(s, events[..|events| - 1]) && OwnKey(Run(s, events[..|events| - 1]), events[|events| - 1]))
  }
}
