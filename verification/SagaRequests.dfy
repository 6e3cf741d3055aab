/** When quote and confirm requests succeed and what they leave, in terms of the rows; and how each booking left CONFIRMED in any run. */
module SagaRequests {
  import opened Prelude
  import opened BookingStatus
  import opened BookingSaga
  import opened SagaInvariants
  import opened SagaTheorems
  import opened SagaService

  // ---------------------------------------------------------------- one request

  /** The booking is there, the person's own and in `status`, and the request is not answered from the stored replies. */
  predicate Asks(s: Saga, b: BookingId, person: PersonId, status: Status, k: BookingKey) {
    && b in s.bookings && s.bookings[b].booker == person && s.bookings[b].status == status
    && (k in s.bookingDedup ==> s.bookingDedup[k].booking != b)
  }

  /** A quote request without a crash that has no stored reply is answered exactly for the booker's own booking in DRAFT. */
  lemma QuoteMeans(s: Saga, b: BookingId, person: PersonId, key: Key, price: Price, expiresAt: Time, now: Time)
    requires b !in s.inFlight && (QuoteBooking(key) in s.bookingDedup ==> s.bookingDedup[QuoteBooking(key)].booking != b)
    ensures RunOn(AskQuote(s, b, person, key, price, expiresAt), b, now, 4).outcome.Answered? <==> Asks(s, b, person, Draft, QuoteBooking(key))
  {
    hide RunOn, PersistQuote, Moved, Remember;
    QuoteRuns(s, b, person, key, price, expiresAt, now);
  }

  /** Under a new pricing key it leaves the booking AWAITING_CONFIRMATION, with a new open quote at the given price and expiry, and
      supersedes the open quotes the booking had; nothing else changes in bookings, quotes and agreements. */
  lemma QuoteLeaves(s: Saga, b: BookingId, person: PersonId, key: Key, price: Price, expiresAt: Time, now: Time)
    requires b !in s.inFlight && Asks(s, b, person, Draft, QuoteBooking(key)) && CreateQuote(key) !in s.pricingDedup && s.nextId !in s.quotes
    ensures var r := RunOn(AskQuote(s, b, person, key, price, expiresAt), b, now, 4).saga;
            && r.bookings == s.bookings[b := s.bookings[b].(status := AwaitingConfirmation, version := s.bookings[b].version + 2)]
            && r.quotes.Keys == s.quotes.Keys + {s.nextId} && r.quotes[s.nextId] == Quote(b, Offered, price, expiresAt)
            && (forall q :: q in s.quotes ==>
                  r.quotes[q] == if s.quotes[q].booking == b && s.quotes[q].status == Offered then s.quotes[q].(status := Superseded) else s.quotes[q])
            && r.agreements == s.agreements
            && CreateQuote(key) in r.pricingDedup && r.pricingDedup[CreateQuote(key)] == QuoteMade(b, s.nextId)
  {
    hide RunOn, AppendRow, Superseding;
    QuoteRuns(s, b, person, key, price, expiresAt, now);
  }

  /** The quote asked for is the booking's own, open and not expired. */
  predicate MayConfirm(s: Saga, b: BookingId, wanted: QuoteId, now: Time) {
    wanted in s.quotes && s.quotes[wanted].booking == b && s.quotes[wanted].status == Offered && now < s.quotes[wanted].expiresAt
  }

  /** A confirmation without a crash that has no stored reply and a new pricing key is answered exactly for the booker's own booking in
      AWAITING_CONFIRMATION and an open, unexpired quote of that booking. */
  lemma ConfirmMeans(s: Saga, b: BookingId, person: PersonId, key: Key, wanted: QuoteId, now: Time)
    requires b !in s.inFlight && (ConfirmBooking(key) in s.bookingDedup ==> s.bookingDedup[ConfirmBooking(key)].booking != b)
    requires AcceptQuote(key) !in s.pricingDedup
    ensures RunOn(AskConfirm(s, b, person, key, wanted), b, now, 4).outcome.Answered? <==>
              Asks(s, b, person, AwaitingConfirmation, ConfirmBooking(key)) && MayConfirm(s, b, wanted, now)
  {
    hide RunOn, Moved, Remember;
    ConfirmRuns(s, b, person, key, wanted, now);
  }

  /** It leaves the booking SCHEDULED exactly if it is scheduled for later than the clock, else READY_FOR_DISPATCH; the quote ACCEPTED
      and a new agreement that copies the quote's booking and price. */
  lemma ConfirmLeaves(s: Saga, b: BookingId, person: PersonId, key: Key, wanted: QuoteId, now: Time)
    requires b !in s.inFlight && Asks(s, b, person, AwaitingConfirmation, ConfirmBooking(key)) && MayConfirm(s, b, wanted, now)
    requires AcceptQuote(key) !in s.pricingDedup
    ensures var r := RunOn(AskConfirm(s, b, person, key, wanted), b, now, 4).saga;
            && b in r.bookings && r.bookings[b].version == s.bookings[b].version + 2
            && (r.bookings[b].status == Scheduled <==> s.bookings[b].scheduledFor.Some? && s.bookings[b].scheduledFor.value > now)
            && (r.bookings[b].status == ReadyForDispatch <==> s.bookings[b].scheduledFor.None? || s.bookings[b].scheduledFor.value <= now)
            && (forall c :: c != b ==> (c in r.bookings <==> c in s.bookings) && (c in s.bookings ==> r.bookings[c] == s.bookings[c]))
            && r.quotes == s.quotes[wanted := s.quotes[wanted].(status := AcceptedQuote)]
            && r.agreements == s.agreements[s.nextId := Agreement(b, wanted, s.quotes[wanted].price)]
            && AcceptQuote(key) in r.pricingDedup && r.pricingDedup[AcceptQuote(key)] == FareAgreed(b, s.nextId)
  {
    hide RunOn, AppendRow;
    ConfirmRuns(s, b, person, key, wanted, now);
  }

  // ---------------------------------------------------------------- how bookings leave CONFIRMED

  predicate IsAdvance(e: Event, b: BookingId) {
    e.Advancing? && e.booking == b
  }

  /** The row out of CONFIRMED that the clock reading `now` calls for. */
  predicate ClassifiedAt(row: Transition, scheduledFor: Option<Time>, now: Time) {
    row.to == if scheduledFor.Some? && now < scheduledFor.value then Scheduled else ReadyForDispatch
  }

  ghost predicate RightlyClassified(events: seq<Event>, b: BookingId, scheduledFor: Option<Time>, row: Transition) {
    row.from == Some(Confirmed) ==> exists n :: 0 <= n < |events| && IsAdvance(events[n], b) && ClassifiedAt(row, scheduledFor, events[n].now)
  }

  ghost predicate AllClassified(s: Saga, events: seq<Event>) {
    && (forall b :: b in s.log ==> b in s.bookings)
    && (forall b, i :: b in s.bookings && 0 <= i < |Rows(s.log, b)| ==> RightlyClassified(events, b, s.bookings[b].scheduledFor, Rows(s.log, b)[i]))
  }

  /** One event: either the log of `b` stays, or it grows by one row, and only a step out of CONFIRMED writes such a row. */
  ghost predicate Writes(s: Saga, r: Saga, e: Event, b: BookingId) {
    && (b in s.bookings ==> b in r.bookings && r.bookings[b].scheduledFor == s.bookings[b].scheduledFor)
    && (Rows(r.log, b) == Rows(s.log, b)
        || (b in r.bookings && |Rows(r.log, b)| == |Rows(s.log, b)| + 1 && Rows(r.log, b)[..|Rows(s.log, b)|] == Rows(s.log, b)
            && var row := Rows(r.log, b)[|Rows(s.log, b)|];
               row.from == Some(Confirmed) ==> IsAdvance(e, b) && ClassifiedAt(row, r.bookings[b].scheduledFor, e.now)))
    && (b in r.log ==> b in s.log || b in r.bookings)
  }

  /** A transition of `b` as seen by `c`. */
  lemma MoveWrites(s: Saga, r: Saga, b: BookingId, to: Status, e: Event, c: BookingId)
    requires b in s.bookings && r.log == Moved(s, b, to).log && r.bookings == Moved(s, b, to).bookings
    requires s.bookings[b].status == Confirmed ==>
               IsAdvance(e, b) && ClassifiedAt(Transition(Some(Confirmed), to, s.bookings[b].version + 1), s.bookings[b].scheduledFor, e.now)
    ensures Writes(s, r, e, c)
  {
    if c == b { assert Rows(r.log, b) == Rows(s.log, b) + [Transition(Some(s.bookings[b].status), to, s.bookings[b].version + 1)]; }
  }

  lemma TransitionWrites(s: Saga, b: BookingId, from: Status, to: Status, next: Stage, now: Time, c: BookingId)
    requires from == Confirmed ==> to == if b in s.bookings then ReadyStatus(s.bookings[b].scheduledFor, now) else Scheduled
    ensures Writes(s, Transitioned(s, b, from, to, next).saga, Advancing(b, now), c)
  {
    hide Writes, Moved;
    if b in s.bookings && s.bookings[b].status == from { MoveWrites(s, Transitioned(s, b, from, to, next).saga, b, to, Advancing(b, now), c); }
    else { SameWrites(s, Drop(s, b), Advancing(b, now), c); }
  }

  lemma PricingWrites(s: Saga, b: BookingId, key: Key, price: Price, expiresAt: Time, wanted: QuoteId, now: Time)
    ensures PersistQuote(s, b, key, price, expiresAt).0.log == s.log && PersistQuote(s, b, key, price, expiresAt).0.bookings == s.bookings
    ensures AcceptOffer(s, b, key, wanted, now).Some? ==>
              AcceptOffer(s, b, key, wanted, now).value.0.log == s.log && AcceptOffer(s, b, key, wanted, now).value.0.bookings == s.bookings
  {
    hide Superseding;
  }

  lemma SameWrites(s: Saga, r: Saga, e: Event, c: BookingId)
    requires r.log == s.log && r.bookings == s.bookings
    ensures Writes(s, r, e, c)
  {
  }

  lemma FinishKeepsLog(s: Saga, b: BookingId, k: BookingKey, reply: Reply)
    ensures Drop(s, b).log == s.log && Drop(s, b).bookings == s.bookings
    ensures Drop(Remember(s, k, reply), b).log == s.log && Drop(Remember(s, k, reply), b).bookings == s.bookings
  {
  }

  /** The transactions of a request that are not transitions leave bookings and logs alone. */
  lemma OthersWriteNoLog(s: Saga, b: BookingId, now: Time)
    requires b in s.inFlight ==> s.inFlight[b].DraftRead? || s.inFlight[b].QuotePresented? || s.inFlight[b].AwaitingRead? || s.inFlight[b].Classified?
    ensures Advance(s, b, now).saga.log == s.log && Advance(s, b, now).saga.bookings == s.bookings
  {
    hide PersistQuote, AcceptOffer, Drop, Remember, Transitioned;
    if b in s.inFlight {
      var stage := s.inFlight[b];
      FinishKeepsLog(s, b, QuoteBooking(""), Created(b));
      match stage
      case DraftRead(key, price, x) => PricingWrites(s, b, key, price, x, 0, now);
      case AwaitingRead(key, wanted) => PricingWrites(s, b, key, Price(0, "", ""), 0, wanted, now);
      case QuotePresented(key, price, x, q) => FinishKeepsLog(s, b, QuoteBooking(key), Quoted(b, q, price, x));
      case Classified(key, a) => FinishKeepsLog(s, b, ConfirmBooking(key), Confirmation(b, a));
    }
  }

  lemma AdvanceWrites(s: Saga, b: BookingId, now: Time, c: BookingId)
    ensures Writes(s, Advance(s, b, now).saga, Advancing(b, now), c)
  {
    hide Writes, Transitioned, PersistQuote, AcceptOffer, ReadyStatus, Drop, Remember;
    if b in s.inFlight && !(s.inFlight[b].DraftRead? || s.inFlight[b].QuotePresented? || s.inFlight[b].AwaitingRead? || s.inFlight[b].Classified?) {
      match s.inFlight[b]
      case QuoteStored(key, price, x, q) => TransitionWrites(s, b, Draft, QuoteCreated, QuoteCreatedStage(key, price, x, q), now, c);
      case QuoteCreatedStage(key, price, x, q) =>
        TransitionWrites(s, b, QuoteCreated, AwaitingConfirmation, QuotePresented(key, price, x, q), now, c);
      case FareStored(key, a) => TransitionWrites(s, b, AwaitingConfirmation, Confirmed, ConfirmedStage(key, a), now, c);
      case ConfirmedStage(key, a) =>
        TransitionWrites(s, b, Confirmed, if b in s.bookings then ReadyStatus(s.bookings[b].scheduledFor, now) else Scheduled,
                         Classified(key, a), now, c);
    } else {
      OthersWriteNoLog(s, b, now);
      SameWrites(s, Advance(s, b, now).saga, Advancing(b, now), c);
    }
  }

  lemma CreateWrites(s: Saga, e: Event, c: BookingId)
    requires e.Creating? && s.nextId !in s.bookings && s.nextId !in s.log
    ensures Writes(s, Apply(s, e).saga, e, c)
  {
  }

  lemma EventWrites(s: Saga, e: Event, c: BookingId)
    requires IdsIssued(s) && forall b :: b in s.log ==> b in s.bookings
    ensures Writes(s, Apply(s, e).saga, e, c)
  {
    hide Writes, Advance, Moved, CanForward;
    match e
    case Creating(_, _, _) => CreateWrites(s, e, c);
    case Advancing(b, now) => AdvanceWrites(s, b, now, c);
    case Dispatching(b, to) =>
      if b in s.bookings && b !in s.inFlight && Rank(s.bookings[b].status) >= Rank(Scheduled) && CanForward(s.bookings[b].status, to) {
        DispatchWrites(s, b, to, c);
      } else { SameWrites(s, Apply(s, e).saga, e, c); }
    case _ => SameWrites(s, Apply(s, e).saga, e, c);
  }

  lemma DispatchWrites(s: Saga, b: BookingId, to: Status, c: BookingId)
    requires b in s.bookings && Rank(s.bookings[b].status) >= Rank(Scheduled)
    ensures Writes(s, Moved(s, b, to), Dispatching(b, to), c)
  {
    hide Writes, Moved;
    MoveWrites(s, Moved(s, b, to), b, to, Dispatching(b, to), c);
  }

  lemma LongerKeeps(events: seq<Event>, e: Event, b: BookingId, scheduledFor: Option<Time>, row: Transition)
    requires RightlyClassified(events, b, scheduledFor, row)
    ensures RightlyClassified(events + [e], b, scheduledFor, row)
  {
    if row.from == Some(Confirmed) {
      var n :| 0 <= n < |events| && IsAdvance(events[n], b) && ClassifiedAt(row, scheduledFor, events[n].now);
      assert (events + [e])[n] == events[n];
    }
  }

  lemma LastClassifies(events: seq<Event>, e: Event, b: BookingId, scheduledFor: Option<Time>, row: Transition)
    requires row.from == Some(Confirmed) ==> IsAdvance(e, b) && ClassifiedAt(row, scheduledFor, e.now)
    ensures RightlyClassified(events + [e], b, scheduledFor, row)
  {
    assert (events + [e])[|events|] == e;
  }

  lemma RowClassified(s: Saga, r: Saga, events: seq<Event>, e: Event, b: BookingId, i: nat)
    requires AllClassified(s, events) && Writes(s, r, e, b) && b in r.bookings && i < |Rows(r.log, b)|
    ensures RightlyClassified(events + [e], b, r.bookings[b].scheduledFor, Rows(r.log, b)[i])
  {
    hide RightlyClassified, ClassifiedAt, IsAdvance;
    if i < |Rows(s.log, b)| {
      assert Rows(r.log, b)[i] == Rows(s.log, b)[i];
      assert b in s.bookings;
      LongerKeeps(events, e, b, r.bookings[b].scheduledFor, Rows(r.log, b)[i]);
    } else {
      LastClassifies(events, e, b, r.bookings[b].scheduledFor, Rows(r.log, b)[i]);
    }
  }

  lemma LogsKnown(s: Saga, e: Event)
    requires IdsIssued(s) && forall b :: b in s.log ==> b in s.bookings
    ensures forall b :: b in Apply(s, e).saga.log ==> b in Apply(s, e).saga.bookings
  {
    hide Apply;
    forall b | b in Apply(s, e).saga.log ensures b in Apply(s, e).saga.bookings { EventWrites(s, e, b); }
  }

  lemma {:induction false} RunClassifies(events: seq<Event>)
    ensures IdsIssued(Run(EMPTY, events)) && AllClassified(Run(EMPTY, events), events)
    decreases |events|
  {
    hide Apply, IdsIssued, RightlyClassified, Writes;
    if events == [] {
      EmptyIssued();
    } else {
      var shorter, e := events[..|events| - 1], events[|events| - 1];
      var s := Run(EMPTY, shorter);
      RunClassifies(shorter);
      EventIssues(s, e);
      LogsKnown(s, e);
      assert shorter + [e] == events;
      forall b, i | b in Apply(s, e).saga.bookings && 0 <= i < |Rows(Apply(s, e).saga.log, b)|
        ensures RightlyClassified(events, b, Apply(s, e).saga.bookings[b].scheduledFor, Rows(Apply(s, e).saga.log, b)[i])
      {
        EventWrites(s, e, b);
        RowClassified(s, Apply(s, e).saga, shorter, e, b, i);
      }
    }
  }

  lemma EmptyIssued()
    ensures IdsIssued(EMPTY)
  {
  }

  /** In every run, with crashes, retries and shared keys: each booking's row out of CONFIRMED was written by one of its own steps and says
      SCHEDULED exactly if the booking was scheduled for later than the clock of that step, else READY_FOR_DISPATCH. */
  lemma LeftConfirmedByClock(events: seq<Event>, b: BookingId, i: nat)
    requires b in Run(EMPTY, events).bookings && i < |Rows(Run(EMPTY, events).log, b)|
    requires Rows(Run(EMPTY, events).log, b)[i].from == Some(Confirmed)
    ensures var s := Run(EMPTY, events);
            exists n :: 0 <= n < |events| && IsAdvance(events[n], b)
                        && Rows(s.log, b)[i].to == (if s.bookings[b].scheduledFor.Some? && s.bookings[b].scheduledFor.value > events[n].now
                                                    then Scheduled else ReadyForDispatch)
  {
    hide Run, IdsIssued;
    RunClassifies(events);
  }
}
