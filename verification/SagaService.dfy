/** The booking and pricing requests as the service runs them, transaction by transaction. */
module SagaService {
  import opened Prelude
  import opened BookingStatus
  import opened BookingSaga

  /** Runs the request in flight on `b` for up to `n` more transactions, or until it answers or fails. */
  function RunOn(step: Step, b: BookingId, now: Time, n: nat): Step
    decreases n
  {
    if n == 0 || step.outcome != Goes then step else RunOn(Advance(step.saga, b, now), b, now, n - 1)
  }

  class BookingService {
    var db: Saga

    constructor ()
      ensures db == EMPTY
    {
      db := EMPTY;
    }

    /** One transaction: guard on the status, then status, version and log row. */
    method TransitionBooking(b: BookingId, from: Status, to: Status) returns (ok: bool)
      modifies this
      ensures ok <==> b in old(db).bookings && old(db).bookings[b].status == from
      ensures if ok then db == Moved(old(db), b, to) else db == old(db)
    {
      if b !in db.bookings || db.bookings[b].status != from { return false; }
      var current := db.bookings[b];
      var version := current.version + 1;
      db := db.(bookings := db.bookings[b := current.(status := to, version := version)]);
      db := db.(log := AppendRow(db.log, b, Transition(Some(from), to, version)));
      ok := true;
    }

    method PersistQuoteTransaction(b: BookingId, key: Key, price: Price, expiresAt: Time) returns (quote: QuoteId)
      modifies this
      ensures (db, quote) == PersistQuote(old(db), b, key, price, expiresAt)
    {
      var k := CreateQuote(key);
      if k in db.pricingDedup && db.pricingDedup[k].QuoteMade? { return db.pricingDedup[k].quote; }
      db := db.(quotes := Superseding(db.quotes, b));
      quote := db.nextId;
      db := db.(quotes := db.quotes[quote := Quote(b, Offered, price, expiresAt)], nextId := quote + 1);
      db := db.(pricingDedup := db.pricingDedup[k := QuoteMade(b, quote)]);
    }

    /** Marks an expired quote EXPIRED before it throws, so the mark is rolled back with the rest. */
    method AcceptQuoteTransaction(b: BookingId, key: Key, wanted: QuoteId, now: Time) returns (agreement: Option<AgreementId>)
      modifies this
      ensures agreement.None? <==> AcceptOffer(old(db), b, key, wanted, now).None?
      ensures agreement.None? ==> db == old(db)
      ensures agreement.Some? ==> AcceptOffer(old(db), b, key, wanted, now).value == (db, agreement.value)
    {
      var k := AcceptQuote(key);
      if k in db.pricingDedup && db.pricingDedup[k].FareAgreed? { return Some(db.pricingDedup[k].agreement); }
      if wanted !in db.quotes || db.quotes[wanted].booking != b { return None; }
      var begin := db;
      var row := db.quotes[wanted];
      if !Usable(row, now) {
        if row.status == Offered && row.expiresAt <= now {
          db := db.(quotes := db.quotes[wanted := row.(status := ExpiredQuote)]);
        }
        db := begin;
        return None;
      }
      var a := db.nextId;
      db := db.(agreements := db.agreements[a := Agreement(b, wanted, row.price)], nextId := a + 1);
      db := db.(quotes := db.quotes[wanted := row.(status := AcceptedQuote)]);
      db := db.(pricingDedup := db.pricingDedup[k := FareAgreed(b, a)]);
      agreement := Some(a);
    }

    method RememberReply(k: BookingKey, reply: Reply)
      modifies this
      ensures db == Remember(old(db), k, reply)
    {
      if k !in db.bookingDedup { db := db.(bookingDedup := db.bookingDedup[k := reply]); }
    }

    /** The whole quote request when nothing crashes: exactly the request's transactions one after another. */
    method QuoteRiderBooking(b: BookingId, person: PersonId, key: Key, price: Price, expiresAt: Time, now: Time) returns (outcome: Outcome)
      requires b !in db.inFlight
      modifies this
      ensures Step(db, outcome) == RunOn(AskQuote(old(db), b, person, key, price, expiresAt), b, now, 4)
    {
      hide Moved, PersistQuote, Remember;
      QuoteRuns(db, b, person, key, price, expiresAt, now);
      if b !in db.bookings || db.bookings[b].booker != person { return Refused(Forbidden); }
      var stored := Stored(db, QuoteBooking(key), b);
      if stored.Some? { return Answered(stored.value); }
      if db.bookings[b].status != Draft { return Refused(Conflict); }
      var quote := PersistQuoteTransaction(b, key, price, expiresAt);
      var first := TransitionBooking(b, Draft, QuoteCreated);
      if !first { return Refused(Conflict); }
      var second := TransitionBooking(b, QuoteCreated, AwaitingConfirmation);
      if !second { return Refused(Conflict); }
      var reply := Quoted(b, quote, price, expiresAt);
      RememberReply(QuoteBooking(key), reply);
      outcome := Answered(reply);
    }

    method ConfirmRiderBooking(b: BookingId, person: PersonId, key: Key, wanted: QuoteId, now: Time) returns (outcome: Outcome)
      requires b !in db.inFlight
      modifies this
      ensures Step(db, outcome) == RunOn(AskConfirm(old(db), b, person, key, wanted), b, now, 4)
    {
      hide Moved, AcceptOffer, Remember;
      ConfirmRuns(db, b, person, key, wanted, now);
      if b !in db.bookings || db.bookings[b].booker != person { return Refused(Forbidden); }
      var stored := Stored(db, ConfirmBooking(key), b);
      if stored.Some? { return Answered(stored.value); }
      if db.bookings[b].status != AwaitingConfirmation { return Refused(Conflict); }
      var scheduledFor := db.bookings[b].scheduledFor;
      var agreement := AcceptQuoteTransaction(b, key, wanted, now);
      if agreement.None? { return Refused(QuoteNotUsable); }
      var first := TransitionBooking(b, AwaitingConfirmation, Confirmed);
      if !first { return Refused(Conflict); }
      var second := TransitionBooking(b, Confirmed, ReadyStatus(scheduledFor, now));
      if !second { return Refused(Conflict); }
      var reply := Confirmation(b, agreement.value);
      RememberReply(ConfirmBooking(key), reply);
      outcome := Answered(reply);
    }
  }

  /** `s` with a request on `b` at `stage`. */
  function At(s: Saga, b: BookingId, stage: Stage): Saga {
    s.(inFlight := s.inFlight[b := stage])
  }

  lemma PersistFramed(s: Saga, b: BookingId, stage: Stage, key: Key, price: Price, expiresAt: Time)
    ensures PersistQuote(At(s, b, stage), b, key, price, expiresAt).0 == At(PersistQuote(s, b, key, price, expiresAt).0, b, stage)
    ensures PersistQuote(At(s, b, stage), b, key, price, expiresAt).1 == PersistQuote(s, b, key, price, expiresAt).1
    ensures PersistQuote(s, b, key, price, expiresAt).0.bookings == s.bookings
    ensures PersistQuote(s, b, key, price, expiresAt).0.inFlight == s.inFlight
  {
    hide Superseding;
  }

  lemma PersistAt(s: Saga, b: BookingId, key: Key, price: Price, expiresAt: Time, now: Time)
    ensures var made := PersistQuote(s, b, key, price, expiresAt);
            && Advance(At(s, b, DraftRead(key, price, expiresAt)), b, now)
                 == Step(At(made.0, b, QuoteStored(key, price, expiresAt, made.1)), Goes)
            && made.0.bookings == s.bookings && made.0.inFlight == s.inFlight
  {
    hide PersistQuote;
    PersistFramed(s, b, DraftRead(key, price, expiresAt), key, price, expiresAt);
  }

  lemma AcceptAt(s: Saga, b: BookingId, key: Key, wanted: QuoteId, now: Time)
    requires b !in s.inFlight
    ensures var fare := AcceptOffer(s, b, key, wanted, now);
            && Advance(At(s, b, AwaitingRead(key, wanted)), b, now)
                 == (if fare.None? then Step(s, Refused(QuoteNotUsable)) else Step(At(fare.value.0, b, FareStored(key, fare.value.1)), Goes))
            && (fare.Some? ==> fare.value.0.bookings == s.bookings && fare.value.0.inFlight == s.inFlight)
  {
    assert At(s, b, AwaitingRead(key, wanted)).inFlight - {b} == s.inFlight;
  }

  lemma TransitionAt(s: Saga, b: BookingId, stage: Stage, from: Status, to: Status, next: Stage)
    requires b in s.bookings && s.bookings[b].status == from
    ensures Transitioned(At(s, b, stage), b, from, to, next) == Step(At(Moved(s, b, to), b, next), Goes)
    ensures Moved(s, b, to).inFlight == s.inFlight
    ensures b in Moved(s, b, to).bookings && Moved(s, b, to).bookings[b] == s.bookings[b].(status := to, version := s.bookings[b].version + 1)
  {
  }

  lemma FinishAt(s: Saga, b: BookingId, stage: Stage, k: BookingKey, reply: Reply)
    requires b !in s.inFlight
    ensures Drop(Remember(At(s, b, stage), k, reply), b) == Remember(s, k, reply)
  {
    assert At(s, b, stage).inFlight - {b} == s.inFlight;
  }

  /** The four transactions of a quote request that finds its booking in DRAFT. */
  lemma QuoteRuns(s: Saga, b: BookingId, person: PersonId, key: Key, price: Price, expiresAt: Time, now: Time)
    requires b !in s.inFlight
    ensures b in s.bookings && s.bookings[b].booker == person && Stored(s, QuoteBooking(key), b).None? && s.bookings[b].status == Draft ==>
              var made := PersistQuote(s, b, key, price, expiresAt);
              && b in made.0.bookings && made.0.bookings[b] == s.bookings[b]
              && b in Moved(made.0, b, QuoteCreated).bookings && Moved(made.0, b, QuoteCreated).bookings[b].status == QuoteCreated
              && RunOn(AskQuote(s, b, person, key, price, expiresAt), b, now, 4)
                 == Step(Remember(Moved(Moved(made.0, b, QuoteCreated), b, AwaitingConfirmation), QuoteBooking(key), Quoted(b, made.1, price, expiresAt)),
                         Answered(Quoted(b, made.1, price, expiresAt)))
    ensures !(b in s.bookings && s.bookings[b].booker == person && Stored(s, QuoteBooking(key), b).None? && s.bookings[b].status == Draft) ==>
              RunOn(AskQuote(s, b, person, key, price, expiresAt), b, now, 4) == AskQuote(s, b, person, key, price, expiresAt)
  {
    hide PersistQuote, AcceptOffer, Transitioned, Moved, Remember, Drop, At, RunOn;
    var asked := AskQuote(s, b, person, key, price, expiresAt);
    if asked.outcome == Goes {
      var made := PersistQuote(s, b, key, price, expiresAt);
      PersistAt(s, b, key, price, expiresAt, now);
      var created := Moved(made.0, b, QuoteCreated);
      var s1, s2 := QuoteStored(key, price, expiresAt, made.1), QuoteCreatedStage(key, price, expiresAt, made.1);
      var s3 := QuotePresented(key, price, expiresAt, made.1);
      TransitionAt(made.0, b, s1, Draft, QuoteCreated, s2);
      TransitionAt(created, b, s2, QuoteCreated, AwaitingConfirmation, s3);
      FinishAt(Moved(created, b, AwaitingConfirmation), b, s3, QuoteBooking(key), Quoted(b, made.1, price, expiresAt));
      Asked(s, b, DraftRead(key, price, expiresAt), asked.saga);
      Stages(made.0, b, s1);
      Stages(created, b, s2);
      Stages(Moved(created, b, AwaitingConfirmation), b, s3);
      FourSteps(asked, b, now);
    } else { Refuses(asked, b, now); }
  }

  lemma Asked(s: Saga, b: BookingId, stage: Stage, asked: Saga)
    requires asked == s.(inFlight := s.inFlight[b := stage])
    ensures asked == At(s, b, stage)
  {
  }

  lemma Stages(s: Saga, b: BookingId, stage: Stage)
    ensures b in At(s, b, stage).inFlight && At(s, b, stage).inFlight[b] == stage && At(s, b, stage).bookings == s.bookings
  {
  }

  lemma Refuses(step: Step, b: BookingId, now: Time)
    requires step.outcome != Goes
    ensures RunOn(step, b, now, 4) == step
  {
  }

  lemma FourSteps(step: Step, b: BookingId, now: Time)
    requires step.outcome == Goes
    ensures var a := Advance(step.saga, b, now);
            RunOn(step, b, now, 4) == if a.outcome != Goes then a else
              var c := Advance(a.saga, b, now);
              if c.outcome != Goes then c else
                var d := Advance(c.saga, b, now);
                if d.outcome != Goes then d else Advance(d.saga, b, now)
  {
    hide Advance;
    var a := Advance(step.saga, b, now);
    var c := Advance(a.saga, b, now);
    var d := Advance(c.saga, b, now);
    assert RunOn(step, b, now, 4) == RunOn(a, b, now, 3);
    assert a.outcome == Goes ==> RunOn(a, b, now, 3) == RunOn(c, b, now, 2);
    assert c.outcome == Goes ==> RunOn(c, b, now, 2) == RunOn(d, b, now, 1);
    assert d.outcome == Goes ==> RunOn(d, b, now, 1) == RunOn(Advance(d.saga, b, now), b, now, 0);
  }

  /** The four transactions of a confirmation that finds its booking in AWAITING_CONFIRMATION. */
  lemma ConfirmRuns(s: Saga, b: BookingId, person: PersonId, key: Key, wanted: QuoteId, now: Time)
    requires b !in s.inFlight
    ensures b in s.bookings && s.bookings[b].booker == person && Stored(s, ConfirmBooking(key), b).None?
            && s.bookings[b].status == AwaitingConfirmation && AcceptOffer(s, b, key, wanted, now).Some? ==>
              var (fare, a) := AcceptOffer(s, b, key, wanted, now).value;
              && b in fare.bookings && fare.bookings[b] == s.bookings[b]
              && b in Moved(fare, b, Confirmed).bookings && Moved(fare, b, Confirmed).bookings[b].status == Confirmed
              && RunOn(AskConfirm(s, b, person, key, wanted), b, now, 4)
                 == Step(Remember(Moved(Moved(fare, b, Confirmed), b, ReadyStatus(s.bookings[b].scheduledFor, now)), ConfirmBooking(key), Confirmation(b, a)),
                         Answered(Confirmation(b, a)))
    ensures b in s.bookings && s.bookings[b].booker == person && Stored(s, ConfirmBooking(key), b).None?
            && s.bookings[b].status == AwaitingConfirmation && AcceptOffer(s, b, key, wanted, now).None? ==>
              RunOn(AskConfirm(s, b, person, key, wanted), b, now, 4) == Step(s, Refused(QuoteNotUsable))
    ensures !(b in s.bookings && s.bookings[b].booker == person && Stored(s, ConfirmBooking(key), b).None?
              && s.bookings[b].status == AwaitingConfirmation) ==>
              RunOn(AskConfirm(s, b, person, key, wanted), b, now, 4) == AskConfirm(s, b, person, key, wanted)
  {
    hide PersistQuote, AcceptOffer, Transitioned, Moved, Remember, Drop, At, RunOn;
    var asked := AskConfirm(s, b, person, key, wanted);
    if asked.outcome == Goes {
      AcceptAt(s, b, key, wanted, now);
      Asked(s, b, AwaitingRead(key, wanted), asked.saga);
      FourSteps(asked, b, now);
      if AcceptOffer(s, b, key, wanted, now).Some? {
        var (fare, a) := AcceptOffer(s, b, key, wanted, now).value;
        var confirmed := Moved(fare, b, Confirmed);
        var next := ReadyStatus(s.bookings[b].scheduledFor, now);
        TransitionAt(fare, b, FareStored(key, a), AwaitingConfirmation, Confirmed, ConfirmedStage(key, a));
        TransitionAt(confirmed, b, ConfirmedStage(key, a), Confirmed, next, Classified(key, a));
        FinishAt(Moved(confirmed, b, next), b, Classified(key, a), ConfirmBooking(key), Confirmation(b, a));
        Stages(fare, b, FareStored(key, a));
        Stages(confirmed, b, ConfirmedStage(key, a));
        Stages(Moved(confirmed, b, next), b, Classified(key, a));
      }
    } else { Refuses(asked, b, now); }
  }
}
