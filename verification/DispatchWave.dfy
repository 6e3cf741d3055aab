/** The first wave: who is ranked, who is offered, who is left out, and why an offer just made would be accepted. */
module DispatchWave {
  import opened Prelude
  import opened BookingStatus
  import opened DriverDomain
  import opened DispatchStore
  import opened DispatchProtocol
  import opened DispatchInvariants
  import opened DispatchPreservation
  import opened DispatchRuns
  import opened DispatchTheorems

  // ---------------------------------------------------------------- ranking

  predicate NearestFirst(rows: seq<CandidateRow>) {
    forall i, j :: 0 <= i < j < |rows| ==> !Nearer(rows[j].distance, rows[i].distance)
  }

  predicate DriversDistinct(rows: seq<CandidateRow>) {
    forall i, j :: 0 <= i < j < |rows| ==> rows[i].driver != rows[j].driver
  }

  /** Filtering keeps the query's order and never repeats a driver. */
  lemma {:induction false} FilterKeepsOrder(p: CandidateRow -> bool, rows: seq<CandidateRow>)
    requires NearestFirst(rows) && DriversDistinct(rows)
    ensures NearestFirst(FilterSeq(p, rows)) && DriversDistinct(FilterSeq(p, rows))
  {
    if rows != [] {
      FilterKeepsOrder(p, rows[1..]);
      var rest := FilterSeq(p, rows[1..]);
      forall k | 0 <= k < |rest| ensures !Nearer(rest[k].distance, rows[0].distance) && rest[k].driver != rows[0].driver {
        assert rest[k] in rows[1..];
        var i :| 0 <= i < |rows[1..]| && rows[1..][i] == rest[k];
        assert rows[i + 1] == rest[k];
      }
    }
  }

  lemma EligibleRowsOrdered(s: Store, w: World, b: BookingId, rows: seq<CandidateRow>)
    requires b in s.bookings && NearestFirst(rows) && DriversDistinct(rows)
    ensures NearestFirst(EligibleRows(s, w, b, rows)) && DriversDistinct(EligibleRows(s, w, b, rows))
  {
    hide NearestFirst, DriversDistinct, RowEligible, FilterSeq;
    FilterKeepsOrder(r => RowEligible(s, w, b, s.bookings[b], r), rows);
  }

  /** Offer `k` of the wave of attempt `t`. */
  predicate IsWaveOffer(offers: map<OfferId, Offer>, t: AttemptId, k: nat, d: DriverId) {
    t + 1 + k in offers && offers[t + 1 + k].attempt == t && offers[t + 1 + k].driver == d && offers[t + 1 + k].status == OfferOpen
  }

  /** `d` got an offer of attempt `t`. */
  predicate WasOffered(offers: map<OfferId, Offer>, t: AttemptId, d: DriverId) {
    exists o :: o in offers && offers[o].attempt == t && offers[o].driver == d
  }

  lemma WaveRanks(s: Store, w: World, b: BookingId, eligible: seq<CandidateRow>)
    requires b in s.bookings
    ensures var t := s.nextId;
            var r := WithWave(s, w, b, eligible);
            && t in r.candidates && |r.candidates[t]| == |eligible|
            && (forall i :: 0 <= i < |eligible| ==> r.candidates[t][i].rank == i + 1 && r.candidates[t][i].driver == eligible[i].driver)
  {
    hide WaveDisclosure, MoveBooking, WaveOffers, InsertRows;
  }

  lemma WaveOffered(s: Store, w: World, b: BookingId, eligible: seq<CandidateRow>, offers: map<OfferId, Offer>)
    requires IdsIssued(s) && OffersFit(s.attempts, s.offers) && b in s.bookings
    requires offers == InsertRows(s.offers, s.nextId + 1, WaveOffers(s, w, b, s.nextId, eligible, WaveReach(|eligible|, w.config.waveSize)))
    ensures forall k :: 0 <= k < WaveReach(|eligible|, w.config.waveSize) ==> IsWaveOffer(offers, s.nextId, k, eligible[k].driver)
    ensures forall o :: o in offers && offers[o].attempt == s.nextId ==>
              s.nextId + 1 <= o < s.nextId + 1 + WaveReach(|eligible|, w.config.waveSize)
    ensures forall o :: o in s.offers ==> o in offers && offers[o] == s.offers[o]
  {
    hide WaveDisclosure, CurrentAvailability;
  }

  /** The wave ranks the eligible candidates 1..n and makes one open offer to each of the first min(n, waveSize), and no other. */
  lemma WaveContents(s: Store, w: World, b: BookingId, eligible: seq<CandidateRow>)
    requires IdsIssued(s) && OffersFit(s.attempts, s.offers) && b in s.bookings
    ensures var t := s.nextId;
            var r := WithWave(s, w, b, eligible);
            var reach := WaveReach(|eligible|, w.config.waveSize);
            && t in r.candidates && |r.candidates[t]| == |eligible|
            && (forall i :: 0 <= i < |eligible| ==> r.candidates[t][i].rank == i + 1 && r.candidates[t][i].driver == eligible[i].driver)
            && (forall k :: 0 <= k < reach ==> IsWaveOffer(r.offers, t, k, eligible[k].driver))
            && (forall o :: o in r.offers && r.offers[o].attempt == t ==> t + 1 <= o < t + 1 + reach)
            && (forall o :: o in s.offers ==> o in r.offers && r.offers[o] == s.offers[o])
  {
    hide WaveOffers, MoveBooking, WaveCandidate, IsWaveOffer, IdsIssued, OffersFit, InsertRows;
    WaveRanks(s, w, b, eligible);
    WaveOffered(s, w, b, eligible, WithWave(s, w, b, eligible).offers);
  }

  /** No eligible pool driver without an offer is nearer than a driver with one, whether the candidate query cut the driver off
      or the wave ended before the driver's rank. */
  lemma NoNearerDriverLeftOut(s: Store, w: World, b: BookingId, distance: map<DriverId, Option<nat>>, rows: seq<CandidateRow>,
                              d: DriverId, e: DriverId)
    requires IdsIssued(s) && OffersFit(s.attempts, s.offers) && b in s.bookings
    requires IsCandidateQuery(s, w, s.bookings[b].region, distance, rows)
    requires d in distance && InPool(s, w, s.bookings[b].region, d)
    requires RowEligible(s, w, b, s.bookings[b], CandidateRow(d, distance[d]))
    requires !WasOffered(WithWave(s, w, b, EligibleRows(s, w, b, rows)).offers, s.nextId, d)
    requires WasOffered(WithWave(s, w, b, EligibleRows(s, w, b, rows)).offers, s.nextId, e)
    ensures e in distance && !Nearer(distance[d], distance[e])
  {
    hide OffersFit, IdsIssued, RowEligible, WithWave, EligibleRows, InPool;
    var t, eligible := s.nextId, EligibleRows(s, w, b, rows);
    var reach := WaveReach(|eligible|, w.config.waveSize);
    var offers := WithWave(s, w, b, eligible).offers;
    WaveContents(s, w, b, eligible);
    EligibleRowsOrdered(s, w, b, rows);
    var o :| o in offers && offers[o].attempt == t && offers[o].driver == e;
    var i := o - t - 1;
    assert IsWaveOffer(offers, t, i, eligible[i].driver);
    assert eligible[i] in eligible && eligible[i] in rows;
    var row := CandidateRow(d, distance[d]);
    if row in rows {
      assert row in eligible;
      var k :| 0 <= k < |eligible| && eligible[k] == row;
      forall m | 0 <= m < reach ensures eligible[m].driver != d { assert IsWaveOffer(offers, t, m, eligible[m].driver); }
      assert k >= reach > i;
    } else {
      var q :| 0 <= q < |rows| && rows[q] == eligible[i];
    }
  }

  // ---------------------------------------------------------------- the two eligibility readings agree

  /** On one snapshot the wave filter and the accept-time recheck see the same facts: the service list is never empty,
      so the recheck never falls back to "any permission in the region". */
  lemma OfferTimeIsAcceptTime(s: Store, w: World, d: DriverId, b: BookingId, booking: Booking, offer: Offer)
    requires d in s.availability && d in w.drivers && offer.vehicle == s.availability[d].vehicle
    ensures RecheckInput(s, w, d, w.drivers[d].accountActive, offer, b, booking) == CandidateInput(s, w, d, b, booking)
  {
    hide FatiguePassed, HardRequirementsMatch, OperatingRestricted, MaintenancePermits;
    var services := RequiredServices(booking.requirements);
    assert services != [];
  }

  /** The recheck looks only at the driver's availability and assignments and at what the booking asks for. */
  lemma RecheckFramed(s: Store, r: Store, w: World, d: DriverId, actorActive: bool, offer: Offer, b: BookingId, booking: Booking, moved: Booking)
    requires d in w.drivers && r.availability == s.availability && r.assignments == s.assignments
    requires moved == booking.(status := moved.status, version := moved.version)
    ensures RecheckInput(r, w, d, actorActive, offer, b, moved) == RecheckInput(s, w, d, actorActive, offer, b, booking)
  {
    hide FatiguePassed, HardRequirementsMatch, OperatingRestricted, MaintenancePermits, RequiredServices;
  }

  predicate EarningKnown(fixture: Option<EarningFixture>) {
    && fixture.Some? && 0 <= fixture.value.etaMinutes && 0 <= fixture.value.amount <= MAX_SAFE_INTEGER
    && IsCurrencyCode(fixture.value.currency)
  }

  lemma ServiceNamed(requirements: seq<Requirement>)
    ensures Trim(RequiredServices(requirements)[0]) != ""
  {
    hide Mentions, Trim;
    NothingToTrim("HOSPITAL");
    NothingToTrim("SCHOOL");
    NothingToTrim("SPECIALIST");
    NothingToTrim("WAV");
    NothingToTrim("STANDARD");
  }

  lemma LabelsNamed()
    ensures Trim("SCHEDULED") != "" && Trim("ON_DEMAND") != "" && Trim("development-driver-earning-fixture-v1") != ""
  {
    hide Trim;
    NothingToTrim("SCHEDULED");
    NothingToTrim("ON_DEMAND");
    NothingToTrim("development-driver-earning-fixture-v1");
  }

  lemma WaveGaps(w: World, booking: Booking, distance: Option<nat>, g: DisclosureGap)
    ensures Missing(g, WaveDisclosure(w, booking, distance)) <==>
              (g == PickupDistance && distance.None?)
              || (g == PickupEta && (w.config.fixture.None? || w.config.fixture.value.etaMinutes < 0))
              || (g == ExpectedEarning && (w.config.fixture.None? || !(0 <= w.config.fixture.value.amount <= MAX_SAFE_INTEGER)
                                           || !IsCurrencyCode(w.config.fixture.value.currency)))
  {
    hide RequiredServices, FilterSeq, Upper, IsCurrencyCode, Trim;
    LabelsNamed();
    var disclosure := WaveDisclosure(w, booking, distance);
    ServiceNamed(booking.requirements);
    assert disclosure.serviceCodes[0] in disclosure.serviceCodes;
    assert disclosure.contextLabels[0] in disclosure.contextLabels;
  }

  /** An offer's disclosure is complete exactly when the pick-up distance is known and an earning fixture is configured and sound. */
  lemma WaveDisclosureComplete(w: World, booking: Booking, distance: Option<nat>)
    ensures AcceptanceAllowed(WaveDisclosure(w, booking, distance)) <==> distance.Some? && EarningKnown(w.config.fixture)
  {
    hide WaveDisclosure, Missing, IsCurrencyCode, AcceptanceAllowed;
    AcceptanceMeansComplete(WaveDisclosure(w, booking, distance));
    WaveGaps(w, booking, distance, PickupDistance);
    WaveGaps(w, booking, distance, PickupEta);
    WaveGaps(w, booking, distance, ExpectedEarning);
    if distance.Some? && EarningKnown(w.config.fixture) {
      forall g ensures !Missing(g, WaveDisclosure(w, booking, distance)) { WaveGaps(w, booking, distance, g); }
    }
  }

  /** An offer of a wave, seen in the store the wave leaves. */
  lemma WaveOfferAt(s: Store, w: World, b: BookingId, eligible: seq<CandidateRow>, k: nat)
    requires IdsIssued(s) && b in s.bookings && k < WaveReach(|eligible|, w.config.waveSize)
    ensures s.nextId + 1 + k in WithWave(s, w, b, eligible).offers
    ensures WithWave(s, w, b, eligible).offers[s.nextId + 1 + k] == WaveOffer(s, w, b, s.nextId, eligible[k])
    ensures WithWave(s, w, b, eligible).assignments == s.assignments && WithWave(s, w, b, eligible).availability == s.availability
    ensures WithWave(s, w, b, eligible).dedup == s.dedup
    ensures b in WithWave(s, w, b, eligible).bookings
    ensures WithWave(s, w, b, eligible).bookings[b] == s.bookings[b].(status := SearchingForDriver, version := s.bookings[b].version + 1)
  {
    hide WaveDisclosure, WaveCandidate;
  }

  /** An offer just made, answered on the same facts and clock, is accepted
      exactly if offers live for some time at all and the disclosure was complete. */
  lemma FreshOfferAccepted(commands: seq<Command>, s: Store, r: Store, w: World, b: BookingId,
                           eligible: seq<CandidateRow>, rows: seq<CandidateRow>, k: nat, key: Key)
    requires s == Run(EMPTY, commands) && b in s.bookings && s.bookings[b].status == ReadyForDispatch
    requires eligible == EligibleRows(s, w, b, rows) && r == WithWave(s, w, b, eligible)
    requires k < WaveReach(|eligible|, w.config.waveSize) && DedupKey(AcceptCmd, eligible[k].driver, key) !in s.dedup
    ensures eligible[k].driver in w.drivers
    ensures AcceptDriverOffer(r, eligible[k].driver, w.drivers[eligible[k].driver].accountActive, s.nextId + 1 + k, key, w).outcome.Accepted? <==>
              w.config.ttlSeconds > 0 && eligible[k].distance.Some? && EarningKnown(w.config.fixture)
  {
    hide IdsIssued, BookingSide, OfferSide, DriverSide, EligibleRows, WithWave, AcceptDriverOffer, WaveDisclosure, AcceptanceAllowed,
      EarningKnown, CandidateInput, RecheckInput, IsEligible, Run;
    ReachableHolds(commands);
    var row := eligible[k];
    assert row in eligible && RowEligible(s, w, b, s.bookings[b], row);
    var d := row.driver;
    WithWaveKeeps(s, w, b, eligible);
    WaveOfferAt(s, w, b, eligible, k);
    WaveDisclosureComplete(w, s.bookings[b], row.distance);
    var offer := r.offers[s.nextId + 1 + k];
    OfferTimeIsAcceptTime(s, w, d, b, s.bookings[b], offer);
    RecheckFramed(s, r, w, d, w.drivers[d].accountActive, offer, b, s.bookings[b], r.bookings[b]);
    AcceptanceExact(r, d, w.drivers[d].accountActive, s.nextId + 1 + k, key, w);
  }
}
