/** What holds between any two transactions of the booking saga, crashes and retries included. */
module SagaInvariants {
  import opened Prelude
  import opened BookingStatus
  import opened BookingSaga

  ghost predicate LogsFit(bookings: map<BookingId, Booking>, log: map<BookingId, seq<Transition>>) {
    && (forall b :: b in bookings ==> IsHistory(Rows(log, b), bookings[b].status) && bookings[b].version == |Rows(log, b)|)
    && (forall b :: b in log ==> b in bookings)
  }

  predicate IsOffered(quotes: map<QuoteId, Quote>, q: QuoteId, b: BookingId) {
    q in quotes && quotes[q].booking == b && quotes[q].status == Offered
  }

  /** At most one OFFERED quote per booking, and no quote is ever stored as EXPIRED or CANCELLED. */
  ghost predicate QuotesFit(bookings: map<BookingId, Booking>, quotes: map<QuoteId, Quote>) {
    && (forall q :: q in quotes ==> quotes[q].booking in bookings && quotes[q].status in {Offered, AcceptedQuote, Superseded})
    && (forall q, r, b | IsOffered(quotes, q, b) && IsOffered(quotes, r, b) :: q == r)
  }

  predicate AgreesTo(agreements: map<AgreementId, Agreement>, a: AgreementId, q: QuoteId) {
    a in agreements && agreements[a].quote == q
  }

  predicate AgreedFor(agreements: map<AgreementId, Agreement>, a: AgreementId, b: BookingId) {
    a in agreements && agreements[a].booking == b
  }

  /** An agreement copies its ACCEPTED quote, a quote is ACCEPTED only with one, and a booking has at most one and then no open quote. */
  ghost predicate AgreementsFit(quotes: map<QuoteId, Quote>, agreements: map<AgreementId, Agreement>) {
    && (forall a :: a in agreements ==>
          && agreements[a].quote in quotes && quotes[agreements[a].quote].status == AcceptedQuote
          && quotes[agreements[a].quote].booking == agreements[a].booking
          && quotes[agreements[a].quote].price == agreements[a].price)
    && (forall q :: q in quotes && quotes[q].status == AcceptedQuote ==> exists a :: AgreesTo(agreements, a, q))
    && (forall a, c, b | AgreedFor(agreements, a, b) && AgreedFor(agreements, c, b) :: a == c)
    && (forall a, q, b | AgreedFor(agreements, a, b) :: !IsOffered(quotes, q, b))
  }

  ghost predicate HasAgreement(agreements: map<AgreementId, Agreement>, b: BookingId) {
    exists a :: AgreedFor(agreements, a, b)
  }

  /** No agreement before AWAITING_CONFIRMATION, and one from CONFIRMED on. */
  ghost predicate SpineFits(bookings: map<BookingId, Booking>, agreements: map<AgreementId, Agreement>) {
    forall b :: b in bookings ==>
      && (Rank(bookings[b].status) < Rank(AwaitingConfirmation) ==> !HasAgreement(agreements, b))
      && (Rank(bookings[b].status) > Rank(AwaitingConfirmation) ==> HasAgreement(agreements, b))
  }

  predicate QuoteOf(quotes: map<QuoteId, Quote>, q: QuoteId, b: BookingId) {
    q in quotes && quotes[q].booking == b
  }

  /** What the stage of a request says about its booking. */
  predicate StageFits(stage: Stage, b: BookingId, status: Status, quotes: map<QuoteId, Quote>, agreements: map<AgreementId, Agreement>) {
    match stage
    case DraftRead(_, _, _) => status == Draft
    case QuoteStored(_, _, _, q) => status == Draft && QuoteOf(quotes, q, b)
    case QuoteCreatedStage(_, _, _, q) => status == QuoteCreated && QuoteOf(quotes, q, b)
    case QuotePresented(_, _, _, q) => status == AwaitingConfirmation && QuoteOf(quotes, q, b)
    case AwaitingRead(_, _) => status == AwaitingConfirmation
    case FareStored(_, a) => status == AwaitingConfirmation && AgreedFor(agreements, a, b)
    case ConfirmedStage(_, a) => status == Confirmed && AgreedFor(agreements, a, b)
    case Classified(_, a) => status in {Scheduled, ReadyForDispatch} && AgreedFor(agreements, a, b)
  }

  ghost predicate FlightFits(bookings: map<BookingId, Booking>, quotes: map<QuoteId, Quote>, agreements: map<AgreementId, Agreement>,
                             inFlight: map<BookingId, Stage>) {
    forall b :: b in inFlight ==> b in bookings && StageFits(inFlight[b], b, bookings[b].status, quotes, agreements)
  }

  /** Every recorded pricing answer is about the booking of its row. */
  ghost predicate DedupFits(quotes: map<QuoteId, Quote>, agreements: map<AgreementId, Agreement>, dedup: map<PricingKey, PricingReply>) {
    && (forall k :: k in dedup && k.CreateQuote? ==> dedup[k].QuoteMade? && QuoteOf(quotes, dedup[k].quote, dedup[k].booking))
    && (forall k :: k in dedup && k.AcceptQuote? ==> dedup[k].FareAgreed? && AgreedFor(agreements, dedup[k].agreement, dedup[k].booking))
  }

  /** Keys of requests in flight are used by their booking alone. */
  ghost predicate KeysFit(inFlight: map<BookingId, Stage>, dedup: map<PricingKey, PricingReply>) {
    && (forall b, k :: b in inFlight && k in dedup && k.key == inFlight[b].key ==> dedup[k].booking == b)
    && (forall b, c :: b in inFlight && c in inFlight && inFlight[b].key == inFlight[c].key ==> b == c)
  }

  /** Every id has been handed out before. */
  ghost predicate IdsIssued(s: Saga) {
    && (forall b :: b in s.bookings ==> b < s.nextId)
    && (forall q :: q in s.quotes ==> q < s.nextId)
    && (forall a :: a in s.agreements ==> a < s.nextId)
  }

  ghost predicate IdsFit(s: Saga) {
    IdsIssued(s) && forall a :: a in s.agreements ==> s.agreements[a].booking in s.bookings
  }

  ghost predicate Inv(s: Saga) {
    && IdsFit(s) && LogsFit(s.bookings, s.log) && QuotesFit(s.bookings, s.quotes)
    && AgreementsFit(s.quotes, s.agreements) && SpineFits(s.bookings, s.agreements)
    && FlightFits(s.bookings, s.quotes, s.agreements, s.inFlight)
    && DedupFits(s.quotes, s.agreements, s.pricingDedup) && KeysFit(s.inFlight, s.pricingDedup)
  }

  lemma EmptyFits()
    ensures Inv(EMPTY)
  {
  }

  // ---------------------------------------------------------------- moving a booking

  lemma MoveLogged(s: Saga, b: BookingId, to: Status)
    requires LogsFit(s.bookings, s.log) && b in s.bookings && WrittenEdge(s.bookings[b].status, to)
    ensures LogsFit(Moved(s, b, to).bookings, Moved(s, b, to).log)
  {
    HistoryExtends(Rows(s.log, b), s.bookings[b].status, to);
  }

  lemma MoveSpine(bookings: map<BookingId, Booking>, agreements: map<AgreementId, Agreement>, b: BookingId, after: Booking)
    requires SpineFits(bookings, agreements) && b in bookings
    requires Rank(after.status) < Rank(AwaitingConfirmation) ==> Rank(bookings[b].status) < Rank(AwaitingConfirmation)
    requires Rank(after.status) > Rank(AwaitingConfirmation) ==> HasAgreement(agreements, b)
    ensures SpineFits(bookings[b := after], agreements)
  {
    hide Rank, HasAgreement;
  }

  lemma QuotesUnmoved(bookings: map<BookingId, Booking>, quotes: map<QuoteId, Quote>, b: BookingId, after: Booking)
    requires QuotesFit(bookings, quotes)
    ensures QuotesFit(bookings[b := after], quotes)
  {
  }

  lemma FlightMoves(bookings: map<BookingId, Booking>, quotes: map<QuoteId, Quote>, agreements: map<AgreementId, Agreement>,
                    inFlight: map<BookingId, Stage>, b: BookingId, after: Booking, next: Stage)
    requires FlightFits(bookings, quotes, agreements, inFlight) && StageFits(next, b, after.status, quotes, agreements)
    ensures FlightFits(bookings[b := after], quotes, agreements, inFlight[b := next])
  {
    hide StageFits;
  }

  lemma KeysKept(inFlight: map<BookingId, Stage>, dedup: map<PricingKey, PricingReply>, b: BookingId, next: Stage)
    requires KeysFit(inFlight, dedup) && b in inFlight && next.key == inFlight[b].key
    ensures KeysFit(inFlight[b := next], dedup)
  {
  }

  /** A transition of the request in flight on `b`. */
  lemma TransitionKeeps(s: Saga, b: BookingId, from: Status, to: Status, next: Stage)
    requires Inv(s) && b in s.inFlight && next.key == s.inFlight[b].key && CanForward(from, to)
    requires Rank(to) < Rank(AwaitingConfirmation) ==> Rank(from) < Rank(AwaitingConfirmation)
    requires Rank(to) > Rank(AwaitingConfirmation) ==> HasAgreement(s.agreements, b)
    requires StageFits(next, b, to, s.quotes, s.agreements)
    ensures Inv(Transitioned(s, b, from, to, next).saga)
  {
    hide LogsFit, QuotesFit, AgreementsFit, SpineFits, FlightFits, DedupFits, KeysFit, StageFits, HasAgreement, CanForward;
    DropKeeps(s, b);
    if b in s.bookings && s.bookings[b].status == from {
      var after := Moved(s, b, to).bookings[b];
      MoveLogged(s, b, to);
      MoveSpine(s.bookings, s.agreements, b, after);
      QuotesUnmoved(s.bookings, s.quotes, b, after);
      FlightMoves(s.bookings, s.quotes, s.agreements, s.inFlight, b, after, next);
      KeysKept(s.inFlight, s.pricingDedup, b, next);
    }
  }

  lemma DropKeeps(s: Saga, b: BookingId)
    requires Inv(s)
    ensures Inv(Drop(s, b))
  {
    hide LogsFit, QuotesFit, AgreementsFit, SpineFits, DedupFits, StageFits;
  }

  lemma RememberKeeps(s: Saga, k: BookingKey, reply: Reply)
    requires Inv(s)
    ensures Inv(Remember(s, k, reply))
  {
    hide LogsFit, QuotesFit, AgreementsFit, SpineFits, FlightFits, DedupFits, KeysFit;
  }

  // ---------------------------------------------------------------- creating and asking

  lemma FreshFits(bookings: map<BookingId, Booking>, quotes: map<QuoteId, Quote>, agreements: map<AgreementId, Agreement>,
                  inFlight: map<BookingId, Stage>, b: BookingId, added: Booking)
    requires SpineFits(bookings, agreements) && FlightFits(bookings, quotes, agreements, inFlight)
    requires b !in bookings && added.status == Draft && forall a :: a in agreements ==> agreements[a].booking in bookings
    ensures SpineFits(bookings[b := added], agreements) && FlightFits(bookings[b := added], quotes, agreements, inFlight)
  {
    hide StageFits;
    forall a ensures !AgreedFor(agreements, a, b) {}
  }

  lemma CreateKeeps(s: Saga, person: PersonId, key: Key, scheduledFor: Option<Time>)
    requires Inv(s)
    ensures Inv(Create(s, person, key, scheduledFor).saga)
  {
    hide LogsFit, QuotesFit, AgreementsFit, SpineFits, FlightFits, DedupFits, KeysFit, AppendRow;
    var added := Booking(person, Draft, 1, scheduledFor);
    if CreateBooking(key) !in s.bookingDedup {
      FreshLogged(s.bookings, s.log, s.nextId, added);
      FreshFits(s.bookings, s.quotes, s.agreements, s.inFlight, s.nextId, added);
      QuotesUnmoved(s.bookings, s.quotes, s.nextId, added);
    }
  }

  lemma FreshLogged(bookings: map<BookingId, Booking>, log: map<BookingId, seq<Transition>>, b: BookingId, added: Booking)
    requires LogsFit(bookings, log) && added.status == Draft && added.version == 1
    ensures b !in bookings ==> LogsFit(bookings[b := added], AppendRow(log, b, Transition(None, Draft, 1)))
  {
    if b !in bookings { assert Rows(log, b) == []; }
  }

  lemma AskKeeps(s: Saga, b: BookingId, key: Key, stage: Stage)
    requires Inv(s) && b in s.bookings && KeyFree(s, b, key) && stage.key == key
    requires (stage.DraftRead? && s.bookings[b].status == Draft) || (stage.AwaitingRead? && s.bookings[b].status == AwaitingConfirmation)
    ensures Inv(s.(inFlight := s.inFlight[b := stage]))
  {
    hide LogsFit, QuotesFit, AgreementsFit, SpineFits, DedupFits;
  }

  // ---------------------------------------------------------------- persisting a quote

  lemma QuoteReplaces(bookings: map<BookingId, Booking>, quotes: map<QuoteId, Quote>, b: BookingId, q: QuoteId, added: Quote)
    requires QuotesFit(bookings, quotes) && b in bookings && q !in quotes && added.booking == b && added.status == Offered
    ensures QuotesFit(bookings, Superseding(quotes, b)[q := added])
  {
    var after := Superseding(quotes, b)[q := added];
    forall x, y, c | IsOffered(after, x, c) && IsOffered(after, y, c) ensures x == y {
      assert x != q ==> IsOffered(quotes, x, c) && c != b;
      assert y != q ==> IsOffered(quotes, y, c) && c != b;
    }
  }

  lemma QuoteUnagreed(quotes: map<QuoteId, Quote>, agreements: map<AgreementId, Agreement>, b: BookingId, q: QuoteId, added: Quote)
    requires AgreementsFit(quotes, agreements) && q !in quotes && added.booking == b && added.status == Offered
    requires !HasAgreement(agreements, b)
    ensures AgreementsFit(Superseding(quotes, b)[q := added], agreements)
  {
    var after := Superseding(quotes, b)[q := added];
    forall a, x, c | AgreedFor(agreements, a, c) ensures !IsOffered(after, x, c) {
      assert !IsOffered(quotes, x, c);
    }
    forall x | x in after && after[x].status == AcceptedQuote ensures exists a :: AgreesTo(agreements, a, x) {
      assert quotes[x].status == AcceptedQuote;
    }
  }

  /** Quotes and agreements once made stay quotes and agreements of their bookings. */
  ghost predicate RowsKept(quotes: map<QuoteId, Quote>, after: map<QuoteId, Quote>,
                           agreements: map<AgreementId, Agreement>, agreementsAfter: map<AgreementId, Agreement>) {
    && (forall q, b :: QuoteOf(quotes, q, b) ==> QuoteOf(after, q, b))
    && (forall a, b :: AgreedFor(agreements, a, b) ==> AgreedFor(agreementsAfter, a, b))
  }

  lemma FlightFramed(bookings: map<BookingId, Booking>, quotes: map<QuoteId, Quote>, after: map<QuoteId, Quote>,
                     agreements: map<AgreementId, Agreement>, agreementsAfter: map<AgreementId, Agreement>,
                     inFlight: map<BookingId, Stage>, b: BookingId, next: Stage)
    requires FlightFits(bookings, quotes, agreements, inFlight) && RowsKept(quotes, after, agreements, agreementsAfter)
    requires b in bookings && StageFits(next, b, bookings[b].status, after, agreementsAfter)
    ensures FlightFits(bookings, after, agreementsAfter, inFlight[b := next])
  {
    hide QuoteOf, AgreedFor;
  }

  lemma DedupFramed(quotes: map<QuoteId, Quote>, after: map<QuoteId, Quote>,
                    agreements: map<AgreementId, Agreement>, agreementsAfter: map<AgreementId, Agreement>,
                    dedup: map<PricingKey, PricingReply>, k: PricingKey, reply: PricingReply)
    requires DedupFits(quotes, agreements, dedup) && RowsKept(quotes, after, agreements, agreementsAfter)
    requires if k.CreateQuote? then reply.QuoteMade? && QuoteOf(after, reply.quote, reply.booking)
             else reply.FareAgreed? && AgreedFor(agreementsAfter, reply.agreement, reply.booking)
    ensures DedupFits(after, agreementsAfter, dedup[k := reply])
  {
    hide QuoteOf, AgreedFor;
  }

  lemma KeyRecorded(inFlight: map<BookingId, Stage>, dedup: map<PricingKey, PricingReply>, b: BookingId, k: PricingKey, reply: PricingReply)
    requires KeysFit(inFlight, dedup) && b in inFlight && inFlight[b].key == k.key && reply.booking == b
    ensures KeysFit(inFlight, dedup[k := reply])
  {
  }

  lemma NewQuotePersists(s: Saga, b: BookingId)
    requires Inv(s) && b in s.inFlight && s.inFlight[b].DraftRead? && CreateQuote(s.inFlight[b].key) !in s.pricingDedup
    ensures Inv(Advance(s, b, 0).saga)
  {
    hide LogsFit, SpineFits, QuotesFit, AgreementsFit, FlightFits, DedupFits, KeysFit, HasAgreement;
    var stage, k, q := s.inFlight[b], CreateQuote(s.inFlight[b].key), s.nextId;
    var added := Quote(b, Offered, stage.price, stage.expiresAt);
    var after := Superseding(s.quotes, b)[q := added];
    var next := QuoteStored(stage.key, stage.price, stage.expiresAt, q);
    StageOf(s, b);
    QuoteReplaces(s.bookings, s.quotes, b, q, added);
    NoAgreementYet(s.bookings, s.agreements, b);
    QuoteUnagreed(s.quotes, s.agreements, b, q, added);
    FlightFramed(s.bookings, s.quotes, after, s.agreements, s.agreements, s.inFlight, b, next);
    DedupFramed(s.quotes, after, s.agreements, s.agreements, s.pricingDedup, k, QuoteMade(b, q));
    KeyRecorded(s.inFlight, s.pricingDedup, b, k, QuoteMade(b, q));
    KeysKept(s.inFlight, s.pricingDedup[k := QuoteMade(b, q)], b, next);
  }

  lemma StageOf(s: Saga, b: BookingId)
    requires FlightFits(s.bookings, s.quotes, s.agreements, s.inFlight) && b in s.inFlight
    ensures b in s.bookings && StageFits(s.inFlight[b], b, s.bookings[b].status, s.quotes, s.agreements)
  {
  }

  lemma RecordedReply(s: Saga, b: BookingId, k: PricingKey)
    requires DedupFits(s.quotes, s.agreements, s.pricingDedup) && KeysFit(s.inFlight, s.pricingDedup)
    requires b in s.inFlight && k in s.pricingDedup && k.key == s.inFlight[b].key
    ensures s.pricingDedup[k].booking == b
    ensures k.CreateQuote? ==> s.pricingDedup[k].QuoteMade? && QuoteOf(s.quotes, s.pricingDedup[k].quote, b)
    ensures k.AcceptQuote? ==> s.pricingDedup[k].FareAgreed? && AgreedFor(s.agreements, s.pricingDedup[k].agreement, b)
  {
  }

  lemma QuotePersists(s: Saga, b: BookingId, now: Time)
    requires Inv(s) && b in s.inFlight && s.inFlight[b].DraftRead?
    ensures Inv(Advance(s, b, now).saga)
  {
    hide LogsFit, SpineFits, QuotesFit, AgreementsFit, FlightFits, DedupFits, KeysFit, HasAgreement;
    var stage, k := s.inFlight[b], CreateQuote(s.inFlight[b].key);
    if k in s.pricingDedup {
      StageOf(s, b);
      RecordedReply(s, b, k);
      var next := QuoteStored(stage.key, stage.price, stage.expiresAt, s.pricingDedup[k].quote);
      FlightFramed(s.bookings, s.quotes, s.quotes, s.agreements, s.agreements, s.inFlight, b, next);
      KeysKept(s.inFlight, s.pricingDedup, b, next);
    } else {
      NewQuotePersists(s, b);
    }
  }

  lemma NoAgreementYet(bookings: map<BookingId, Booking>, agreements: map<AgreementId, Agreement>, b: BookingId)
    requires SpineFits(bookings, agreements) && b in bookings && bookings[b].status == Draft
    ensures !HasAgreement(agreements, b)
  {
  }

  // ---------------------------------------------------------------- accepting a quote

  function Accepting(quotes: map<QuoteId, Quote>, q: QuoteId): map<QuoteId, Quote>
    requires q in quotes
  {
    quotes[q := quotes[q].(status := AcceptedQuote)]
  }

  lemma AcceptingQuotes(bookings: map<BookingId, Booking>, quotes: map<QuoteId, Quote>, q: QuoteId)
    requires QuotesFit(bookings, quotes) && q in quotes
    ensures QuotesFit(bookings, Accepting(quotes, q))
  {
    forall x, y, c | IsOffered(Accepting(quotes, q), x, c) && IsOffered(Accepting(quotes, q), y, c) ensures x == y {
      assert IsOffered(quotes, x, c) && IsOffered(quotes, y, c);
    }
  }

  lemma AcceptingAgrees(bookings: map<BookingId, Booking>, quotes: map<QuoteId, Quote>, agreements: map<AgreementId, Agreement>,
                        b: BookingId, q: QuoteId, a: AgreementId)
    requires QuotesFit(bookings, quotes) && AgreementsFit(quotes, agreements) && IsOffered(quotes, q, b) && a !in agreements
    ensures AgreementsFit(Accepting(quotes, q), agreements[a := Agreement(b, q, quotes[q].price)])
  {
    var after, more := Accepting(quotes, q), agreements[a := Agreement(b, q, quotes[q].price)];
    assert AgreesTo(more, a, q);
    forall x | x in after && after[x].status == AcceptedQuote ensures exists c :: AgreesTo(more, c, x) {
      if x != q {
        var c :| AgreesTo(agreements, c, x);
        assert AgreesTo(more, c, x);
      }
    }
    forall c, d, e | AgreedFor(more, c, e) && AgreedFor(more, d, e) ensures c == d {
      assert c != a ==> AgreedFor(agreements, c, e);
      assert d != a ==> AgreedFor(agreements, d, e);
    }
    forall c, x, e | AgreedFor(more, c, e) ensures !IsOffered(after, x, e) {
      assert c != a ==> AgreedFor(agreements, c, e);
      assert IsOffered(after, x, e) ==> IsOffered(quotes, x, e) && x != q;
    }
  }

  lemma SpineAgrees(bookings: map<BookingId, Booking>, agreements: map<AgreementId, Agreement>, b: BookingId, a: AgreementId, added: Agreement)
    requires SpineFits(bookings, agreements) && added.booking == b && a !in agreements
    requires b in bookings && bookings[b].status == AwaitingConfirmation
    ensures SpineFits(bookings, agreements[a := added])
  {
    hide Rank;
    var more := agreements[a := added];
    forall c | c in bookings && c != b ensures HasAgreement(more, c) <==> HasAgreement(agreements, c) {
      if HasAgreement(agreements, c) {
        var x :| AgreedFor(agreements, x, c);
        assert AgreedFor(more, x, c);
      }
      if HasAgreement(more, c) {
        var x :| AgreedFor(more, x, c);
        assert AgreedFor(agreements, x, c);
      }
    }
  }

  lemma NewAgreementStored(s: Saga, b: BookingId, now: Time)
    requires Inv(s) && b in s.inFlight && s.inFlight[b].AwaitingRead? && AcceptQuote(s.inFlight[b].key) !in s.pricingDedup
    requires s.inFlight[b].wanted in s.quotes && s.quotes[s.inFlight[b].wanted].booking == b && Usable(s.quotes[s.inFlight[b].wanted], now)
    ensures Inv(Advance(s, b, now).saga)
  {
    hide LogsFit, SpineFits, QuotesFit, AgreementsFit, FlightFits, DedupFits, KeysFit, HasAgreement;
    var stage, k, a := s.inFlight[b], AcceptQuote(s.inFlight[b].key), s.nextId;
    var q := stage.wanted;
    var added := Agreement(b, q, s.quotes[q].price);
    var next := FareStored(stage.key, a);
    StageOf(s, b);
    AcceptingQuotes(s.bookings, s.quotes, q);
    AcceptingAgrees(s.bookings, s.quotes, s.agreements, b, q, a);
    SpineAgrees(s.bookings, s.agreements, b, a, added);
    FlightFramed(s.bookings, s.quotes, Accepting(s.quotes, q), s.agreements, s.agreements[a := added], s.inFlight, b, next);
    DedupFramed(s.quotes, Accepting(s.quotes, q), s.agreements, s.agreements[a := added], s.pricingDedup, k, FareAgreed(b, a));
    KeyRecorded(s.inFlight, s.pricingDedup, b, k, FareAgreed(b, a));
    KeysKept(s.inFlight, s.pricingDedup[k := FareAgreed(b, a)], b, next);
  }

  lemma AgreementStored(s: Saga, b: BookingId, now: Time)
    requires Inv(s) && b in s.inFlight && s.inFlight[b].AwaitingRead?
    ensures Inv(Advance(s, b, now).saga)
  {
    hide IdsFit, LogsFit, SpineFits, QuotesFit, AgreementsFit, FlightFits, DedupFits, KeysFit, HasAgreement;
    var stage, k := s.inFlight[b], AcceptQuote(s.inFlight[b].key);
    DropKeeps(s, b);
    if k in s.pricingDedup {
      RecordedAgreement(s, b);
    } else if stage.wanted in s.quotes && s.quotes[stage.wanted].booking == b && Usable(s.quotes[stage.wanted], now) {
      NewAgreementStored(s, b, now);
    }
  }

  lemma RecordedAgreement(s: Saga, b: BookingId)
    requires Inv(s) && b in s.inFlight && s.inFlight[b].AwaitingRead? && AcceptQuote(s.inFlight[b].key) in s.pricingDedup
    ensures Inv(Advance(s, b, 0).saga) && forall now :: Advance(s, b, now) == Advance(s, b, 0)
  {
    hide LogsFit, SpineFits, QuotesFit, AgreementsFit, FlightFits, DedupFits, KeysFit, HasAgreement;
    var stage, k := s.inFlight[b], AcceptQuote(s.inFlight[b].key);
    StageOf(s, b);
    RecordedReply(s, b, k);
    var next := FareStored(stage.key, s.pricingDedup[k].agreement);
    FlightFramed(s.bookings, s.quotes, s.quotes, s.agreements, s.agreements, s.inFlight, b, next);
    KeysKept(s.inFlight, s.pricingDedup, b, next);
  }

  // ---------------------------------------------------------------- every event, every run

  lemma AgreementGiven(s: Saga, b: BookingId, a: AgreementId)
    requires AgreedFor(s.agreements, a, b)
    ensures HasAgreement(s.agreements, b)
  {
  }

  lemma AdvanceKeeps(s: Saga, b: BookingId, now: Time)
    requires Inv(s)
    ensures Inv(Advance(s, b, now).saga)
  {
    hide Inv, Transitioned, Drop, Remember, PersistQuote, AcceptOffer, HasAgreement;
    if b in s.inFlight {
      InFlightStage(s, b);
      match s.inFlight[b]
      case DraftRead(_, _, _) => QuotePersists(s, b, now);
      case QuoteStored(key, price, x, q) =>
        TransitionKeeps(s, b, Draft, QuoteCreated, QuoteCreatedStage(key, price, x, q));
      case QuoteCreatedStage(key, price, x, q) =>
        TransitionKeeps(s, b, QuoteCreated, AwaitingConfirmation, QuotePresented(key, price, x, q));
      case QuotePresented(key, price, x, q) =>
        RememberKeeps(s, QuoteBooking(key), Quoted(b, q, price, x));
        DropKeeps(Remember(s, QuoteBooking(key), Quoted(b, q, price, x)), b);
      case AwaitingRead(_, _) => AgreementStored(s, b, now);
      case FareStored(key, a) =>
        AgreementGiven(s, b, a);
        TransitionKeeps(s, b, AwaitingConfirmation, Confirmed, ConfirmedStage(key, a));
      case ConfirmedStage(key, a) =>
        AgreementGiven(s, b, a);
        TransitionKeeps(s, b, Confirmed, ReadyStatus(s.bookings[b].scheduledFor, now), Classified(key, a));
      case Classified(key, a) =>
        RememberKeeps(s, ConfirmBooking(key), Confirmation(b, a));
        DropKeeps(Remember(s, ConfirmBooking(key), Confirmation(b, a)), b);
    }
  }

  lemma InFlightStage(s: Saga, b: BookingId)
    requires Inv(s) && b in s.inFlight
    ensures b in s.bookings && StageFits(s.inFlight[b], b, s.bookings[b].status, s.quotes, s.agreements)
  {
  }

  lemma AskingKeeps(s: Saga, e: Event)
    requires Inv(s) && (e.Quoting? || e.Confirming?) && OwnKey(s, e)
    ensures Inv(Apply(s, e).saga)
  {
    hide Inv, KeyFree;
    if e.Quoting? && e.booking in s.bookings { AskingQuote(s, e); }
    if e.Confirming? && e.booking in s.bookings { AskingConfirm(s, e); }
  }

  lemma AskingQuote(s: Saga, e: Event)
    requires Inv(s) && e.Quoting? && OwnKey(s, e) && e.booking in s.bookings
    ensures s.bookings[e.booking].status == Draft ==>
              Inv(s.(inFlight := s.inFlight[e.booking := DraftRead(e.key, e.price, e.expiresAt)]))
  {
    hide Inv, KeyFree;
    if s.bookings[e.booking].status == Draft { AskKeeps(s, e.booking, e.key, DraftRead(e.key, e.price, e.expiresAt)); }
  }

  lemma AskingConfirm(s: Saga, e: Event)
    requires Inv(s) && e.Confirming? && OwnKey(s, e) && e.booking in s.bookings
    ensures s.bookings[e.booking].status == AwaitingConfirmation ==>
              Inv(s.(inFlight := s.inFlight[e.booking := AwaitingRead(e.key, e.wanted)]))
  {
    hide Inv, KeyFree;
    if s.bookings[e.booking].status == AwaitingConfirmation { AskKeeps(s, e.booking, e.key, AwaitingRead(e.key, e.wanted)); }
  }

  lemma DispatchKeeps(s: Saga, b: BookingId, to: Status)
    requires Inv(s) && b in s.bookings && b !in s.inFlight && Rank(s.bookings[b].status) >= Rank(Scheduled)
    requires CanForward(s.bookings[b].status, to)
    ensures Inv(Moved(s, b, to))
  {
    hide LogsFit, QuotesFit, AgreementsFit, SpineFits, DedupFits, KeysFit, StageFits, HasAgreement;
    var after := Moved(s, b, to).bookings[b];
    MoveLogged(s, b, to);
    LateMove(s.bookings, s.agreements, b, after);
    QuotesUnmoved(s.bookings, s.quotes, b, after);
  }

  lemma LateMove(bookings: map<BookingId, Booking>, agreements: map<AgreementId, Agreement>, b: BookingId, after: Booking)
    requires SpineFits(bookings, agreements) && b in bookings && Rank(bookings[b].status) >= Rank(Scheduled)
    requires CanForward(bookings[b].status, after.status)
    ensures SpineFits(bookings[b := after], agreements)
  {
    hide HasAgreement;
    MoveSpine(bookings, agreements, b, after);
  }

  lemma ApplyKeeps(s: Saga, e: Event)
    requires Inv(s) && OwnKey(s, e)
    ensures Inv(Apply(s, e).saga)
  {
    hide Inv, OwnKey, Create, AskQuote, AskConfirm, Advance, Drop, Moved, CanForward;
    match e
    case Creating(p, k, f) => CreateKeeps(s, p, k, f);
    case Quoting(_, _, _, _, _) => AskingKeeps(s, e);
    case Confirming(_, _, _, _) => AskingKeeps(s, e);
    case Advancing(b, now) => AdvanceKeeps(s, b, now);
    case Crashing(b) => DropKeeps(s, b);
    case Dispatching(b, to) =>
      if b in s.bookings && b !in s.inFlight && Rank(s.bookings[b].status) >= Rank(Scheduled) && CanForward(s.bookings[b].status, to) {
        DispatchKeeps(s, b, to);
      }
  }

  /** Whatever crashes and retries, as long as no two bookings share a key. */
  lemma {:induction false} RunKeeps(s: Saga, events: seq<Event>)
    requires Inv(s) && OwnKeys(s, events)
    ensures Inv(Run(s, events))
    decreases |events|
  {
    hide Inv, Apply, OwnKey;
    if events != [] {
      RunKeeps(s, events[..|events| - 1]);
      ApplyKeeps(Run(s, events[..|events| - 1]), events[|events| - 1]);
    }
  }
}
