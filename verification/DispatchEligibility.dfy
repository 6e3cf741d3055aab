/**
 When a driver may be offered a booking, may accept it, or may go online: one condition on the rows of the tables,
 written without the decision functions, and proved to be what the commands test.
 */
module DispatchEligibility {
  import opened Prelude
  import opened BookingStatus
  import opened DriverDomain
  import opened DispatchStore
  import opened DispatchProtocol
  import opened DispatchInvariants
  import opened DispatchDrivers
  import opened DispatchPreservation
  import opened DispatchTheorems
  import opened DispatchWave

  // ---------------------------------------------------------------- words in requirement kinds and service codes

  /** `word` occurs in `s`. */
  ghost predicate Within(s: string, word: string) {
    exists i :: OccursAt(s, word, i)
  }

  predicate OccursAt(s: string, word: string, i: int) {
    0 <= i && i + |word| <= |s| && s[i..i + |word|] == word
  }

  lemma {:induction false} ContainsMeans(s: string, word: string)
    ensures Contains(s, word) <==> Within(s, word)
    decreases |s|
  {
    if word <= s { assert OccursAt(s, word, 0); }
    if s != "" {
      ContainsMeans(s[1..], word);
      if Within(s[1..], word) {
        var i :| OccursAt(s[1..], word, i);
        assert s[1..][i..i + |word|] == s[i + 1..i + 1 + |word|];
        assert OccursAt(s, word, i + 1);
      }
      if Within(s, word) && !(word <= s) {
        var i :| OccursAt(s, word, i);
        assert i > 0 && s[1..][i - 1..i - 1 + |word|] == s[i..i + |word|];
        assert OccursAt(s[1..], word, i - 1);
      }
    } else if Within(s, word) {
      var i :| OccursAt(s, word, i);
      assert word == "";
    }
  }

  predicate SameLetter(c: char, upper: char) {
    c == upper || ('a' <= c <= 'z' && (c - 'a') + 'A' == upper)
  }

  predicate SpelledAt(kind: string, word: string, i: int) {
    0 <= i && i + |word| <= |kind| && forall j :: 0 <= j < |word| ==> SameLetter(kind[i + j], word[j])
  }

  /** `kind` contains the upper-case `word` in any mixture of cases. */
  ghost predicate Spells(kind: string, word: string) {
    exists i :: SpelledAt(kind, word, i)
  }

  lemma SpellsMeans(kind: string, word: string)
    requires forall j :: 0 <= j < |word| ==> 'A' <= word[j] <= 'Z'
    ensures Contains(Upper(kind), word) <==> Spells(kind, word)
  {
    ContainsMeans(Upper(kind), word);
    forall i ensures OccursAt(Upper(kind), word, i) <==> SpelledAt(kind, word, i) {
      if 0 <= i && i + |word| <= |kind| {
        var part := Upper(kind)[i..i + |word|];
        forall j | 0 <= j < |word| ensures part[j] == word[j] <==> SameLetter(kind[i + j], word[j]) {}
      }
    }
  }

  ghost predicate SomeKindSpells(requirements: seq<Requirement>, word: string) {
    exists r :: r in requirements && Spells(r.kind, word)
  }

  lemma MentionsMeans(requirements: seq<Requirement>, word: string)
    requires forall j :: 0 <= j < |word| ==> 'A' <= word[j] <= 'Z'
    ensures Mentions(requirements, word) <==> SomeKindSpells(requirements, word)
  {
    forall r | r in requirements ensures Contains(Upper(r.kind), word) <==> Spells(r.kind, word) { SpellsMeans(r.kind, word); }
  }

  ghost predicate Special(requirements: seq<Requirement>, c: Service) {
    || (c == "SCHOOL" && SomeKindSpells(requirements, "SCHOOL"))
    || (c == "WAV" && (SomeKindSpells(requirements, "WAV") || SomeKindSpells(requirements, "WHEELCHAIR")))
    || (c == "HOSPITAL" && SomeKindSpells(requirements, "HOSPITAL"))
    || (c == "SPECIALIST" && (SomeKindSpells(requirements, "SPECIALIST") || SomeKindSpells(requirements, "HANDOVER")))
  }

  /** The services a booking asks of its driver; STANDARD only when it names nothing special. */
  ghost predicate Needed(requirements: seq<Requirement>, c: Service) {
    Special(requirements, c) || (c == "STANDARD" && forall x :: !Special(requirements, x))
  }

  lemma AllMentions(requirements: seq<Requirement>)
    ensures Mentions(requirements, "SCHOOL") <==> SomeKindSpells(requirements, "SCHOOL")
    ensures Mentions(requirements, "WAV") <==> SomeKindSpells(requirements, "WAV")
    ensures Mentions(requirements, "WHEELCHAIR") <==> SomeKindSpells(requirements, "WHEELCHAIR")
    ensures Mentions(requirements, "HOSPITAL") <==> SomeKindSpells(requirements, "HOSPITAL")
    ensures Mentions(requirements, "SPECIALIST") <==> SomeKindSpells(requirements, "SPECIALIST")
    ensures Mentions(requirements, "HANDOVER") <==> SomeKindSpells(requirements, "HANDOVER")
  {
    hide Mentions, SomeKindSpells;
    MentionsMeans(requirements, "SCHOOL");
    MentionsMeans(requirements, "WAV");
    MentionsMeans(requirements, "WHEELCHAIR");
    MentionsMeans(requirements, "HOSPITAL");
    MentionsMeans(requirements, "SPECIALIST");
    MentionsMeans(requirements, "HANDOVER");
  }

  lemma SpecialListed(requirements: seq<Requirement>, c: Service)
    requires Special(requirements, c)
    ensures c in RequiredServices(requirements) && RequiredServices(requirements) != ["STANDARD"]
  {
    hide Mentions, SomeKindSpells;
    AllMentions(requirements);
    assert c != "STANDARD";
    assert c in RequiredServices(requirements);
  }

  lemma ListedSpecial(requirements: seq<Requirement>, c: Service)
    requires c in RequiredServices(requirements) && RequiredServices(requirements) != ["STANDARD"]
    ensures Special(requirements, c)
  {
    hide Mentions, SomeKindSpells;
    AllMentions(requirements);
  }

  lemma NeededIsRequired(requirements: seq<Requirement>, c: Service)
    ensures c in RequiredServices(requirements) <==> Needed(requirements, c)
  {
    hide Special, RequiredServices;
    if RequiredServices(requirements) == ["STANDARD"] {
      forall x ensures !Special(requirements, x) { if Special(requirements, x) { SpecialListed(requirements, x); } }
    } else {
      var first := RequiredServices(requirements)[0];
      ListedSpecial(requirements, first);
      if c in RequiredServices(requirements) { ListedSpecial(requirements, c); }
      if Special(requirements, c) { SpecialListed(requirements, c); }
    }
  }

  // ---------------------------------------------------------------- the rows a driver is judged by

  /** The snapshot says ELIGIBLE and has not run out. */
  predicate Sound(snapshot: Option<Snapshot>, now: Time) {
    snapshot.Some? && snapshot.value.status == Eligible && snapshot.value.validUntil > now
  }

  /** The restriction is in force for the driver. */
  predicate InForce(r: Restriction, d: DriverId, now: Time) {
    r.driver == d && r.active && r.from <= now && (r.until == None || r.until.value > now)
  }

  /** No restriction in force bars new journeys altogether, or with this vehicle, or for school or wheelchair work asked for. */
  ghost predicate Unrestricted(w: World, d: DriverId, vehicle: VehicleId, needed: iset<Service>) {
    forall r :: r in w.restrictions && InForce(r, d, w.now) ==>
      && r.scope != AllServices && r.scope != NewJourneys
      && !(r.scope == SpecificVehicle && r.vehicle == Some(vehicle))
      && !(r.scope == SchoolOnly && "SCHOOL" in needed) && !(r.scope == WavOnly && "WAV" in needed)
  }

  /** The driver is authorised for the vehicle, which is eligible and may be operated for everything needed. */
  ghost predicate VehicleReady(w: World, d: DriverId, vehicle: VehicleId, needed: iset<Service>) {
    && (d, vehicle) in w.authorised && vehicle in w.vehicles && Sound(w.vehicles[vehicle].eligibility, w.now)
    && w.vehicles[vehicle].gate.Some? && w.vehicles[vehicle].gate.value.operatingPermitted
    && forall c :: c in needed ==> c !in w.vehicles[vehicle].gate.value.restricted
  }

  predicate Equals(given: Json, wanted: Json) {
    match wanted
    case JNested => false
    case _ => given == wanted
  }

  /** The vehicle has what the requirement asks for: a plain yes, or every field with the value asked for. */
  predicate Meets(capabilities: map<string, Capability>, r: Requirement) {
    r.kind in capabilities &&
    (capabilities[r.kind] == Scalar(JBool(true))
     || (capabilities[r.kind].Fields?
         && forall k :: k in r.value ==> k in capabilities[r.kind].fields && Equals(capabilities[r.kind].fields[k], r.value[k])))
  }

  predicate Capable(w: World, vehicle: VehicleId, requirements: seq<Requirement>)
    requires vehicle in w.vehicles
  {
    forall i :: 0 <= i < |requirements| ==> Meets(w.vehicles[vehicle].capabilities, requirements[i])
  }

  predicate Approved(w: World, d: DriverId) {
    d in w.drivers && w.drivers[d].approved && Sound(w.drivers[d].compliance, w.now)
  }

  predicate RestedFor(w: World, d: DriverId)
    requires d in w.drivers
  {
    Readable(w.drivers[d].fatigue, w.config.fatigue, w.now) && MayDrive(w.drivers[d].fatigue, w.config.fatigue, w.now)
  }

  /** A driver who may work and holds no ACTIVE assignment, seen where a fresh and confident position says. */
  predicate Present(s: Store, w: World, d: DriverId) {
    && d in s.availability && s.availability[d].status in {Available, Offered, FinishingSoon}
    && s.availability[d].observedAt.Some? && s.availability[d].observedAt.value <= w.now
    && w.now <= s.availability[d].observedAt.value + w.config.maxAgeSeconds * 1_000
    && s.availability[d].confidence.Some? && w.config.minimumConfidence <= s.availability[d].confidence.value
    && forall a :: a in s.assignments && s.assignments[a].driver == d ==> s.assignments[a].status != Active
  }

  /** The services needed, as a set. */
  ghost function NeededFor(requirements: seq<Requirement>): iset<Service> {
    iset c | Needed(requirements, c)
  }

  /** No accepted commitment to another booking covers the time of this one. */
  predicate Uncommitted(w: World, d: DriverId, b: BookingId, booking: Booking) {
    var at := if booking.scheduledFor.Some? then booking.scheduledFor.value else w.now;
    forall c :: c in w.commitments && c.driver == d && c.accepted && c.booking != b ==> at < c.from || c.until < at
  }

  /** The driver, with this vehicle, may take the booking: judged on the rows alone. */
  ghost predicate Fit(s: Store, w: World, d: DriverId, accountActive: bool, vehicle: Option<VehicleId>, b: BookingId, booking: Booking) {
    && accountActive && Approved(w, d) && RestedFor(w, d) && Present(s, w, d)
    && vehicle.Some? && VehicleReady(w, d, vehicle.value, NeededFor(booking.requirements))
    && Unrestricted(w, d, vehicle.value, NeededFor(booking.requirements))
    && (forall c :: c in NeededFor(booking.requirements) ==> Permission(d, booking.region, c) in w.permissions)
    && Uncommitted(w, d, b, booking) && Capable(w, vehicle.value, booking.requirements)
  }

  // ---------------------------------------------------------------- what the readers compute

  ghost predicate Lists(services: seq<Service>, needed: iset<Service>) {
    forall c :: c in services <==> c in needed
  }

  lemma RequiredListed(requirements: seq<Requirement>)
    ensures Lists(RequiredServices(requirements), NeededFor(requirements))
  {
    hide Needed, RequiredServices;
    forall c ensures c in RequiredServices(requirements) <==> c in NeededFor(requirements) { NeededIsRequired(requirements, c); }
  }

  lemma RestrictionMeans(r: Restriction, d: DriverId, now: Time)
    ensures RestrictionCurrent(r, d, now) <==> InForce(r, d, now)
  {
  }

  lemma RestrictedMeans(w: World, d: DriverId, vehicle: VehicleId, services: seq<Service>, needed: iset<Service>)
    requires Lists(services, needed)
    ensures OperatingRestricted(w, d, Some(vehicle), services) <==> !Unrestricted(w, d, vehicle, needed)
  {
    hide RestrictionCurrent, InForce;
    forall r | r in w.restrictions ensures RestrictionCurrent(r, d, w.now) <==> InForce(r, d, w.now) { RestrictionMeans(r, d, w.now); }
  }

  /** The vehicle status the evaluation is given. */
  function GatedStatus(record: VehicleRecord, services: seq<Service>): Option<EligibilityStatus> {
    if MaintenancePermits(record.gate, services) then StatusOf(record.eligibility) else Some(Ineligible)
  }

  lemma VehicleMeans(w: World, d: DriverId, vehicle: VehicleId, services: seq<Service>, needed: iset<Service>)
    requires Lists(services, needed)
    ensures VehicleReady(w, d, vehicle, needed) <==>
              && (d, vehicle) in w.authorised
              && StillEligible(GatedStatus(VehicleOf(w, Some(vehicle)), services), ValidityOf(VehicleOf(w, Some(vehicle)).eligibility), w.now)
  {
  }

  lemma RequirementMeans(capabilities: map<string, Capability>, r: Requirement)
    ensures MeetsRequirement(r, capabilities) <==> Meets(capabilities, r)
  {
  }

  lemma CapableMeans(w: World, vehicle: VehicleId, requirements: seq<Requirement>)
    requires vehicle in w.vehicles
    ensures HardRequirementsMatch(requirements, VehicleOf(w, Some(vehicle)).capabilities) <==> Capable(w, vehicle, requirements)
  {
    hide Meets, MeetsRequirement;
    var capabilities := w.vehicles[vehicle].capabilities;
    forall i | 0 <= i < |requirements| ensures MeetsRequirement(requirements[i], capabilities) <==> Meets(capabilities, requirements[i]) {
      RequirementMeans(capabilities, requirements[i]);
    }
  }

  lemma RestMeans(w: World, d: DriverId)
    requires d in w.drivers
    ensures FatiguePassed(w.drivers[d].fatigue, w).Success? <==> Readable(w.drivers[d].fatigue, w.config.fatigue, w.now)
    ensures FatiguePassed(w.drivers[d].fatigue, w) == Success(true) <==> RestedFor(w, d)
  {
    hide EvaluateFatigue, Readable, MayDrive;
    FatigueExact(w.drivers[d].fatigue, w.config.fatigue, w.now, false);
  }

  /** What the evaluation is told, field by field. */
  lemma InputFields(s: Store, w: World, d: DriverId, actorActive: bool, vehicle: Option<VehicleId>, region: Option<Region>,
                    requirements: seq<Requirement>, services: seq<Service>, serviceAt: Option<Time>, excluded: Option<BookingId>)
    requires d in w.drivers
    ensures DriverInput(s, w, d, actorActive, vehicle, region, requirements, services, serviceAt, excluded).Success?
       <==> FatiguePassed(w.drivers[d].fatigue, w).Success?
    ensures DriverInput(s, w, d, actorActive, vehicle, region, requirements, services, serviceAt, excluded).Success? ==>
              var i := DriverInput(s, w, d, actorActive, vehicle, region, requirements, services, serviceAt, excluded).value;
              && i.accountActive == actorActive && i.profileApproved == w.drivers[d].approved
              && i.complianceStatus == StatusOf(w.drivers[d].compliance) && i.complianceValidUntil == ValidityOf(w.drivers[d].compliance)
              && i.vehicleAuthorised == (vehicle.Some? && (d, vehicle.value) in w.authorised)
              && i.vehicleStatus == GatedStatus(VehicleOf(w, vehicle), services)
              && i.vehicleValidUntil == ValidityOf(VehicleOf(w, vehicle).eligibility)
              && i.operatingRestrictionActive == OperatingRestricted(w, d, vehicle, services)
              && i.fatigueSafetyPassed == FatiguePassed(w.drivers[d].fatigue, w).value
              && i.hardRequirementsMatch == HardRequirementsMatch(requirements, VehicleOf(w, vehicle).capabilities)
              && i.hasActiveAssignment == HasActiveAssignment(s.assignments, d)
              && i.availability == AvailabilityIn(s.availability, d).status
              && i.locationObservedAt == AvailabilityIn(s.availability, d).observedAt
              && i.locationConfidence == AvailabilityIn(s.availability, d).confidence
              && i.minimumLocationConfidence == w.config.minimumConfidence && i.maxLocationAgeSeconds == w.config.maxAgeSeconds
  {
    hide FatiguePassed, OperatingRestricted, HardRequirementsMatch, MaintenancePermits, HasActiveAssignment, AnyPermission, VehicleOf;
  }

  lemma PermissionField(s: Store, w: World, d: DriverId, actorActive: bool, vehicle: Option<VehicleId>, region: Region,
                        requirements: seq<Requirement>, services: seq<Service>, serviceAt: Option<Time>, excluded: Option<BookingId>)
    requires d in w.drivers && DriverInput(s, w, d, actorActive, vehicle, Some(region), requirements, services, serviceAt, excluded).Success?
    ensures var i := DriverInput(s, w, d, actorActive, vehicle, Some(region), requirements, services, serviceAt, excluded).value;
            i.servicePermissionMatch <==>
              if services == [] then AnyPermission(w, d, region) else forall c :: c in services ==> Permission(d, region, c) in w.permissions
  {
    hide FatiguePassed, OperatingRestricted, HardRequirementsMatch, MaintenancePermits, HasActiveAssignment, AnyPermission, VehicleOf;
  }

  lemma ScheduleField(s: Store, w: World, d: DriverId, actorActive: bool, vehicle: Option<VehicleId>, region: Option<Region>,
                      requirements: seq<Requirement>, services: seq<Service>, b: BookingId, booking: Booking)
    requires d in w.drivers
    requires DriverInput(s, w, d, actorActive, vehicle, region, requirements, services, Some(booking.scheduledFor.GetOr(w.now)), Some(b)).Success?
    ensures var at := Some(booking.scheduledFor.GetOr(w.now));
            var i := DriverInput(s, w, d, actorActive, vehicle, region, requirements, services, at, Some(b)).value;
            i.hasScheduleConflict <==> !Uncommitted(w, d, b, booking)
  {
    hide FatiguePassed, OperatingRestricted, HardRequirementsMatch, MaintenancePermits, HasActiveAssignment, AnyPermission, VehicleOf;
  }

  // ---------------------------------------------------------------- acceptance

  lemma RecheckQualified(s: Store, w: World, d: DriverId, active: bool, offer: Offer, b: BookingId, booking: Booking)
    requires d in w.drivers && RecheckInput(s, w, d, active, offer, b, booking).Success?
    ensures Qualified(RecheckInput(s, w, d, active, offer, b, booking).value, w.now) <==>
              && active && Approved(w, d) && offer.vehicle.Some?
              && VehicleReady(w, d, offer.vehicle.value, NeededFor(booking.requirements))
              && Unrestricted(w, d, offer.vehicle.value, NeededFor(booking.requirements))
              && (forall c :: c in NeededFor(booking.requirements) ==> Permission(d, booking.region, c) in w.permissions)
  {
    hide DriverInput, VehicleReady, Unrestricted, NeededFor, OperatingRestricted, GatedStatus, VehicleOf, ValidityOf, FatiguePassed,
      HardRequirementsMatch, HasActiveAssignment, RequiredServices, StillEligible;
    var services := RequiredServices(booking.requirements);
    RequiredListed(booking.requirements);
    var at := Some(booking.scheduledFor.GetOr(w.now));
    InputFields(s, w, d, active, offer.vehicle, Some(booking.region), booking.requirements, services, at, Some(b));
    PermissionField(s, w, d, active, offer.vehicle, booking.region, booking.requirements, services, at, Some(b));
    ComplianceMeans(w, d);
    if offer.vehicle.Some? {
      RestrictedMeans(w, d, offer.vehicle.value, services, NeededFor(booking.requirements));
      VehicleMeans(w, d, offer.vehicle.value, services, NeededFor(booking.requirements));
    }
  }

  lemma ComplianceMeans(w: World, d: DriverId)
    requires d in w.drivers
    ensures Approved(w, d) <==> w.drivers[d].approved && StillEligible(StatusOf(w.drivers[d].compliance), ValidityOf(w.drivers[d].compliance), w.now)
  {
  }

  lemma PresentMeans(s: Store, w: World, d: DriverId)
    ensures Present(s, w, d) <==>
              var a := AvailabilityIn(s.availability, d);
              && a.status in {Available, Offered, FinishingSoon}
              && a.observedAt.Some? && 0 <= w.now - a.observedAt.value <= w.config.maxAgeSeconds * 1_000
              && a.confidence.Some? && a.confidence.value >= w.config.minimumConfidence
              && !HasActiveAssignment(s.assignments, d)
  {
  }

  lemma RecheckAtHand(s: Store, w: World, d: DriverId, active: bool, offer: Offer, b: BookingId, booking: Booking)
    requires d in w.drivers && RecheckInput(s, w, d, active, offer, b, booking).Success? && offer.vehicle.Some? && offer.vehicle.value in w.vehicles
    ensures AtHand(RecheckInput(s, w, d, active, offer, b, booking).value, w.now) <==>
              Present(s, w, d) && RestedFor(w, d) && Uncommitted(w, d, b, booking) && Capable(w, offer.vehicle.value, booking.requirements)
  {
    hide DriverInput, Present, RestedFor, Uncommitted, Capable, OperatingRestricted, GatedStatus, VehicleOf, ValidityOf, FatiguePassed,
      HardRequirementsMatch, HasActiveAssignment, RequiredServices, AvailabilityIn;
    var services := RequiredServices(booking.requirements);
    InputFields(s, w, d, active, offer.vehicle, Some(booking.region), booking.requirements, services, Some(booking.scheduledFor.GetOr(w.now)), Some(b));
    ScheduleField(s, w, d, active, offer.vehicle, Some(booking.region), booking.requirements, services, b, booking);
    PresentMeans(s, w, d);
    RestMeans(w, d);
    CapableMeans(w, offer.vehicle.value, booking.requirements);
  }

  lemma ReadyKnown(w: World, d: DriverId, vehicle: VehicleId, needed: iset<Service>)
    requires VehicleReady(w, d, vehicle, needed)
    ensures vehicle in w.vehicles
  {
  }

  /** The recheck passes exactly for a fit driver. */
  lemma RecheckExact(s: Store, w: World, d: DriverId, active: bool, offer: Offer, b: BookingId, booking: Booking)
    requires d in w.drivers
    ensures RecheckInput(s, w, d, active, offer, b, booking).Success? && IsEligible(RecheckInput(s, w, d, active, offer, b, booking).value, w.now)
       <==> Fit(s, w, d, active, offer.vehicle, b, booking)
  {
    hide RecheckInput, IsEligible, Qualified, AtHand, VehicleReady, Unrestricted, NeededFor, Approved, Present, RestedFor, Uncommitted, Capable;
    RecheckReadable(s, w, d, active, offer, b, booking);
    if RecheckInput(s, w, d, active, offer, b, booking).Success? {
      EligibleExact(RecheckInput(s, w, d, active, offer, b, booking).value, w.now);
      RecheckQualified(s, w, d, active, offer, b, booking);
      if offer.vehicle.Some? && VehicleReady(w, d, offer.vehicle.value, NeededFor(booking.requirements)) {
        ReadyKnown(w, d, offer.vehicle.value, NeededFor(booking.requirements));
        RecheckAtHand(s, w, d, active, offer, b, booking);
      }
    }
  }

  lemma RecheckReadable(s: Store, w: World, d: DriverId, active: bool, offer: Offer, b: BookingId, booking: Booking)
    requires d in w.drivers
    ensures RecheckInput(s, w, d, active, offer, b, booking).Success? <==> Readable(w.drivers[d].fatigue, w.config.fatigue, w.now)
    ensures RestedFor(w, d) ==> Readable(w.drivers[d].fatigue, w.config.fatigue, w.now)
  {
    hide DriverInput, Readable, FatiguePassed, MayDrive, RequiredServices;
    RestMeans(w, d);
    InputFields(s, w, d, active, offer.vehicle, Some(booking.region), booking.requirements, RequiredServices(booking.requirements),
                Some(booking.scheduledFor.GetOr(w.now)), Some(b));
  }

  /** An acceptance under a new key succeeds exactly for an open, unexpired, fully disclosed offer of the driver's own and a fit driver. */
  lemma AcceptanceMeans(s: Store, d: DriverId, actorActive: bool, o: OfferId, key: Key, w: World)
    requires Inv(s) && DedupKey(AcceptCmd, d, key) !in s.dedup
    ensures AcceptDriverOffer(s, d, actorActive, o, key, w).outcome.Accepted? <==>
              && o in s.offers && s.offers[o].driver == d && s.offers[o].status == OfferOpen && s.offers[o].expiresAt > w.now
              && Disclosed(s.offers[o].disclosure) && s.offers[o].booking in s.bookings
              && Fit(s, w, d, actorActive, s.offers[o].vehicle, s.offers[o].booking, s.bookings[s.offers[o].booking])
  {
    hide Inv, AcceptDriverOffer, AcceptanceAllowed, Disclosed, Fit, RecheckInput, IsEligible;
    AcceptanceExact(s, d, actorActive, o, key, w);
    if o in s.offers {
      DisclosureExact(s.offers[o].disclosure);
      if s.offers[o].booking in s.bookings {
        FitKnown(s, w, d, actorActive, s.offers[o].vehicle, s.offers[o].booking, s.bookings[s.offers[o].booking]);
        if d in w.drivers { RecheckExact(s, w, d, actorActive, s.offers[o], s.offers[o].booking, s.bookings[s.offers[o].booking]); }
      }
    }
  }

  lemma FitKnown(s: Store, w: World, d: DriverId, active: bool, vehicle: Option<VehicleId>, b: BookingId, booking: Booking)
    ensures Fit(s, w, d, active, vehicle, b, booking) ==> d in w.drivers && d in s.availability
  {
    hide Qualified, VehicleReady, Unrestricted, NeededFor, RestedFor, Uncommitted, Capable;
  }

  // ---------------------------------------------------------------- the wave

  const NO_DISCLOSURE: Disclosure := Disclosure(None, None, [], [], None, None, None, false, false)

  /** A driver with an availability row is a candidate exactly if fit, with the vehicle of that row. */
  lemma CandidateExact(s: Store, w: World, b: BookingId, booking: Booking, row: CandidateRow)
    ensures RowEligible(s, w, b, booking, row) <==>
              && row.driver in s.availability && row.driver in w.drivers
              && Fit(s, w, row.driver, w.drivers[row.driver].accountActive, s.availability[row.driver].vehicle, b, booking)
  {
    hide CandidateInput, RecheckInput, IsEligible, Fit;
    var d := row.driver;
    if d in s.availability && d in w.drivers {
      var offer := Offer(0, b, d, s.availability[d].vehicle, OfferOpen, None, 0, NO_DISCLOSURE);
      OfferTimeIsAcceptTime(s, w, d, b, booking, offer);
      RecheckExact(s, w, d, w.drivers[d].accountActive, offer, b, booking);
    }
  }

  /** The row is of a driver whose fatigue evidence cannot be read. */
  predicate Unreadable(s: Store, w: World, row: CandidateRow) {
    row.driver in s.availability && row.driver in w.drivers && !Readable(w.drivers[row.driver].fatigue, w.config.fatigue, w.now)
  }

  lemma FaultyExact(s: Store, w: World, b: BookingId, booking: Booking, row: CandidateRow)
    ensures RowFaulty(s, w, b, booking, row) <==> Unreadable(s, w, row)
  {
    hide CandidateInput, RecheckInput, Readable;
    var d := row.driver;
    if d in s.availability && d in w.drivers {
      var offer := Offer(0, b, d, s.availability[d].vehicle, OfferOpen, None, 0, NO_DISCLOSURE);
      OfferTimeIsAcceptTime(s, w, d, b, booking, offer);
      RecheckReadable(s, w, d, w.drivers[d].accountActive, offer, b, booking);
    }
  }

  lemma {:induction false} FirstFaultExact(s: Store, w: World, b: BookingId, rows: seq<CandidateRow>)
    requires b in s.bookings
    ensures FirstFault(s, w, b, rows).None? <==> forall i :: 0 <= i < |rows| ==> !Unreadable(s, w, rows[i])
  {
    hide RowFaulty, Unreadable, CandidateInput;
    if rows != [] {
      FaultyExact(s, w, b, s.bookings[b], rows[0]);
      FirstFaultExact(s, w, b, rows[1..]);
      assert forall i :: 0 < i < |rows| ==> rows[i] == rows[1..][i - 1];
    }
  }

  /** A candidate row of a driver fit for the booking. */
  ghost predicate FitRow(s: Store, w: World, b: BookingId, row: CandidateRow)
    requires b in s.bookings
  {
    && row.driver in s.availability && row.driver in w.drivers
    && Fit(s, w, row.driver, w.drivers[row.driver].accountActive, s.availability[row.driver].vehicle, b, s.bookings[b])
  }

  lemma EligibleAreFit(s: Store, w: World, b: BookingId, rows: seq<CandidateRow>)
    requires b in s.bookings
    ensures forall r :: r in EligibleRows(s, w, b, rows) <==> r in rows && FitRow(s, w, b, r)
  {
    hide RowEligible, FitRow, FilterSeq;
    forall r ensures RowEligible(s, w, b, s.bookings[b], r) <==> FitRow(s, w, b, r) { RowExact(s, w, b, r); }
  }

  lemma RowExact(s: Store, w: World, b: BookingId, row: CandidateRow)
    requires b in s.bookings
    ensures RowEligible(s, w, b, s.bookings[b], row) <==> FitRow(s, w, b, row)
  {
    hide RowEligible, Fit;
    CandidateExact(s, w, b, s.bookings[b], row);
  }

  /** A dispatch under a new key is accepted exactly for the booker's own booking that is ready, unless the evidence of some
      candidate cannot be read. */
  lemma StartMeans(s: Store, account: AccountId, person: PersonId, b: BookingId, key: Key, rows: seq<CandidateRow>, w: World)
    requires DedupKey(StartCmd, account, key) !in s.dedup
    ensures StartBookingDispatch(s, account, person, b, key, rows, w).outcome.Accepted? <==>
              && b in s.bookings && s.bookings[b].booker == person && s.bookings[b].status == ReadyForDispatch
              && forall i :: 0 <= i < |rows| ==> !Unreadable(s, w, rows[i])
  {
    hide EligibleRows, FirstFault, Unreadable, WithWave, WithoutDriver;
    if b in s.bookings { FirstFaultExact(s, w, b, rows); }
  }

  lemma WaveStatuses(s: Store, w: World, b: BookingId, eligible: seq<CandidateRow>)
    requires b in s.bookings
    ensures b in WithWave(s, w, b, eligible).bookings && WithWave(s, w, b, eligible).bookings[b].status == SearchingForDriver
    ensures b in WithoutDriver(s, b).bookings && WithoutDriver(s, b).bookings[b].status == NoEligibleDriver
  {
    hide WaveOffers, WaveCandidate, InsertRows, AppendRow;
  }

  /** What an accepted dispatch under a new key answers and leaves of the booking. */
  lemma StartOutcome(s: Store, account: AccountId, person: PersonId, b: BookingId, key: Key, rows: seq<CandidateRow>, w: World)
    requires DedupKey(StartCmd, account, key) !in s.dedup && StartBookingDispatch(s, account, person, b, key, rows, w).outcome.Accepted?
    ensures var eligible := EligibleRows(s, w, b, rows);
            StartBookingDispatch(s, account, person, b, key, rows, w).outcome
              == Accepted(Started(b, s.nextId, eligible != [], |eligible|, if eligible == [] then 0 else WaveReach(|eligible|, w.config.waveSize)))
    ensures b in s.bookings
    ensures StartBookingDispatch(s, account, person, b, key, rows, w).store.bookings
              == if EligibleRows(s, w, b, rows) == [] then WithoutDriver(s, b).bookings else WithWave(s, w, b, EligibleRows(s, w, b, rows)).bookings
  {
    hide EligibleRows, FirstFault, WithWave, WithoutDriver;
  }

  /** It searches exactly if some candidate is fit, and otherwise closes the search. */
  lemma SearchMeans(s: Store, account: AccountId, person: PersonId, b: BookingId, key: Key, rows: seq<CandidateRow>, w: World)
    requires DedupKey(StartCmd, account, key) !in s.dedup && StartBookingDispatch(s, account, person, b, key, rows, w).outcome.Accepted?
    ensures var step := StartBookingDispatch(s, account, person, b, key, rows, w);
            && b in s.bookings && b in step.store.bookings
            && step.store.bookings[b].status == (if exists r :: r in rows && FitRow(s, w, b, r) then SearchingForDriver else NoEligibleDriver)
            && step.outcome.reply.booking == b && (step.outcome.reply.found <==> step.store.bookings[b].status == SearchingForDriver)
  {
    hide EligibleRows, StartBookingDispatch, FitRow, WithWave, WithoutDriver;
    StartOutcome(s, account, person, b, key, rows, w);
    EligibleAreFit(s, w, b, rows);
    EmptyIffNoMember(EligibleRows(s, w, b, rows));
    WaveStatuses(s, w, b, EligibleRows(s, w, b, rows));
  }

  /** What the offer says, in terms of the candidate's row and the clock. */
  predicate Invites(s: Store, w: World, b: BookingId, row: CandidateRow, offer: Offer)
    requires b in s.bookings
  {
    && offer.attempt == s.nextId && offer.booking == b && offer.driver == row.driver && offer.status == OfferOpen
    && row.driver in s.availability && offer.vehicle == s.availability[row.driver].vehicle
    && offer.expiresAt == w.now + w.config.ttlSeconds * 1_000 && offer.disclosure == WaveDisclosure(w, s.bookings[b], row.distance)
  }

  /** The context label of a requirement. */
  function LabelOf(kind: string): string {
    Upper(Trim(kind))
  }

  /** What a driver is told: the distance, the services needed, when and for whom, and what the development fixture says of time and pay. */
  lemma DisclosureSays(w: World, booking: Booking, distance: Option<nat>)
    ensures var d := WaveDisclosure(w, booking, distance);
            && (d.pickupDistance == if distance.Some? then Some(distance.value) else None)
            && (forall c :: c in d.serviceCodes <==> Needed(booking.requirements, c))
            && ("SCHEDULED" in d.contextLabels || "ON_DEMAND" in d.contextLabels)
            && d.contextLabels[0] == (if booking.scheduledFor.Some? then "SCHEDULED" else "ON_DEMAND")
            && (forall r :: r in booking.requirements && LabelOf(r.kind) != "" ==> LabelOf(r.kind) in d.contextLabels)
            && (w.config.fixture.None? ==> d.pickupEta.None? && d.earningAmount.None? && d.earningCurrency.None? && d.earningPolicy.None?)
            && (w.config.fixture.Some? ==>
                  && d.pickupEta == Some(w.config.fixture.value.etaMinutes) && d.earningAmount == Some(w.config.fixture.value.amount)
                  && d.earningCurrency == Some(w.config.fixture.value.currency)
                  && d.earningPolicy == Some("development-driver-earning-fixture-v1"))
            && !d.earningFromRiderFare && !d.declinePenaltyApplied
  {
    hide RequiredServices, Needed, LabelOf;
    forall c ensures c in RequiredServices(booking.requirements) <==> Needed(booking.requirements, c) { NeededIsRequired(booking.requirements, c); }
    assert WaveDisclosure(w, booking, distance).contextLabels[0] in WaveDisclosure(w, booking, distance).contextLabels;
    forall r | r in booking.requirements && LabelOf(r.kind) != "" ensures LabelOf(r.kind) in WaveDisclosure(w, booking, distance).contextLabels {
      LabelListed(w, booking, distance, r);
    }
  }

  lemma LabelListed(w: World, booking: Booking, distance: Option<nat>, r: Requirement)
    requires r in booking.requirements && LabelOf(r.kind) != ""
    ensures LabelOf(r.kind) in WaveDisclosure(w, booking, distance).contextLabels
  {
    hide RequiredServices, Upper, Trim;
    var i :| 0 <= i < |booking.requirements| && booking.requirements[i] == r;
    var labels := seq(|booking.requirements|, i requires 0 <= i < |booking.requirements| => Upper(Trim(booking.requirements[i].kind)));
    assert labels[i] == LabelOf(r.kind);
  }

  /** Every driver offered the booking in the wave is fit for it, and is offered it with the vehicle of the availability row. */
  lemma OfferedAreFit(s: Store, account: AccountId, person: PersonId, b: BookingId, key: Key, rows: seq<CandidateRow>, w: World, o: OfferId)
    requires Inv(s) && b in s.bookings && DedupKey(StartCmd, account, key) !in s.dedup
    requires o in StartBookingDispatch(s, account, person, b, key, rows, w).store.offers && o !in s.offers
    ensures exists r :: r in rows && FitRow(s, w, b, r)
                        && Invites(s, w, b, r, StartBookingDispatch(s, account, person, b, key, rows, w).store.offers[o])
  {
    hide EligibleRows, StartBookingDispatch, FitRow, BookingSide, OfferSide, DriverSide, IdsIssued, WithWave, WithoutDriver, Invites;
    EligibleAreFit(s, w, b, rows);
    StartAddsWave(s, account, person, b, key, rows, w);
    WithoutDriverKeepsOffers(s, b);
    forall r | r in EligibleRows(s, w, b, rows) ensures r.driver in s.availability { FitRowKnown(s, w, b, r); }
    WaveInvites(s, w, b, EligibleRows(s, w, b, rows), o);
  }

  lemma WaveInvites(s: Store, w: World, b: BookingId, eligible: seq<CandidateRow>, o: OfferId)
    requires IdsIssued(s) && b in s.bookings && o in WithWave(s, w, b, eligible).offers && o !in s.offers
    requires forall r :: r in eligible ==> r.driver in s.availability
    ensures exists r :: r in eligible && Invites(s, w, b, r, WithWave(s, w, b, eligible).offers[o])
  {
    hide WithWave, WaveDisclosure, IdsIssued;
    WaveNewOffer(s, w, b, eligible, o);
    var k := o - s.nextId - 1;
    WaveOfferAt(s, w, b, eligible, k);
    assert eligible[k] in eligible;
  }

  lemma FitRowKnown(s: Store, w: World, b: BookingId, row: CandidateRow)
    requires b in s.bookings && FitRow(s, w, b, row)
    ensures row.driver in s.availability
  {
  }

  lemma WithoutDriverKeepsOffers(s: Store, b: BookingId)
    requires b in s.bookings
    ensures WithoutDriver(s, b).offers == s.offers
  {
  }

  lemma StartAddsWave(s: Store, account: AccountId, person: PersonId, b: BookingId, key: Key, rows: seq<CandidateRow>, w: World)
    requires b in s.bookings
    ensures StartBookingDispatch(s, account, person, b, key, rows, w).store.offers
              in {s.offers, WithoutDriver(s, b).offers, WithWave(s, w, b, EligibleRows(s, w, b, rows)).offers}
  {
    hide EligibleRows, FirstFault, WithWave, WithoutDriver;
  }

  lemma WaveNewOffer(s: Store, w: World, b: BookingId, eligible: seq<CandidateRow>, o: OfferId)
    requires b in s.bookings && o in WithWave(s, w, b, eligible).offers && o !in s.offers
    ensures s.nextId < o <= s.nextId + WaveReach(|eligible|, w.config.waveSize) <= s.nextId + |eligible|
  {
    hide WaveDisclosure, WaveCandidate;
  }

  // ---------------------------------------------------------------- nearest first

  /** A driver at work in the region and seen somewhere, free or about to be. */
  predicate Waiting(s: Store, w: World, region: Region, d: DriverId) {
    && d in s.availability && d in w.drivers && s.availability[d].region.Some? && s.availability[d].region.value == region
    && s.availability[d].status !in {Offline, Offered, Assigned, OnBreak} && s.availability[d].observedAt != None
  }

  /** At least as near; nothing is known to be nearer than an unknown distance. */
  predicate AsNear(a: Option<nat>, b: Option<nat>) {
    b.Some? ==> a.Some? && a.value <= b.value
  }

  predicate Listed(rows: seq<CandidateRow>, d: DriverId) {
    exists i :: 0 <= i < |rows| && rows[i].driver == d
  }

  /** The rows are waiting drivers, once each and nearest first; a driver is left out only by 200 others who are at least as near. */
  predicate NearestFirst(s: Store, w: World, region: Region, distance: map<DriverId, Option<nat>>, rows: seq<CandidateRow>) {
    && (forall i :: 0 <= i < |rows| ==>
          Waiting(s, w, region, rows[i].driver) && rows[i].driver in distance && rows[i] == CandidateRow(rows[i].driver, distance[rows[i].driver]))
    && (forall i, j :: 0 <= i < j < |rows| ==> rows[i].driver != rows[j].driver && AsNear(rows[i].distance, rows[j].distance))
    && |rows| <= 200
    && (forall d :: d in distance && Waiting(s, w, region, d) && !Listed(rows, d) ==>
          |rows| == 200 && forall i :: 0 <= i < |rows| ==> AsNear(rows[i].distance, distance[d]))
  }

  lemma WaitingMeans(s: Store, w: World, region: Region, d: DriverId)
    ensures InPool(s, w, region, d) <==> Waiting(s, w, region, d)
  {
    if d in s.availability {
      match s.availability[d].status case Offline => case Available => case Offered => case Assigned => case OnBreak => case FinishingSoon =>
    }
  }

  lemma NearerMeans(a: Option<nat>, b: Option<nat>)
    ensures Nearer(b, a) <==> !AsNear(a, b)
  {
  }

  /** What an answer of the candidate query is. */
  lemma QueryMeans(s: Store, w: World, region: Region, distance: map<DriverId, Option<nat>>, rows: seq<CandidateRow>)
    ensures IsCandidateQuery(s, w, region, distance, rows) <==> NearestFirst(s, w, region, distance, rows)
  {
    hide InPool, Waiting, Nearer, AsNear;
    forall d ensures InPool(s, w, region, d) <==> Waiting(s, w, region, d) { WaitingMeans(s, w, region, d); }
    forall a, b ensures Nearer(b, a) <==> !AsNear(a, b) { NearerMeans(a, b); }
  }

  /** The wave goes to the nearest: a driver fit for the booking who gets no offer, whether the query or the wave ended before, is no nearer
      than any driver who gets one. */
  lemma WaveIsNearest(s: Store, account: AccountId, person: PersonId, b: BookingId, key: Key, distance: map<DriverId, Option<nat>>,
                      rows: seq<CandidateRow>, w: World, d: DriverId, o: OfferId)
    requires Inv(s) && b in s.bookings && NearestFirst(s, w, s.bookings[b].region, distance, rows)
    requires o in StartBookingDispatch(s, account, person, b, key, rows, w).store.offers && o !in s.offers
    requires d in distance && Waiting(s, w, s.bookings[b].region, d) && FitRow(s, w, b, CandidateRow(d, distance[d]))
    requires forall p :: p in StartBookingDispatch(s, account, person, b, key, rows, w).store.offers && p !in s.offers ==>
               StartBookingDispatch(s, account, person, b, key, rows, w).store.offers[p].driver != d
    ensures var e := StartBookingDispatch(s, account, person, b, key, rows, w).store.offers[o].driver;
            e in distance && AsNear(distance[e], distance[d])
  {
    hide EligibleRows, StartBookingDispatch, FitRow, BookingSide, OffersFit, AssignmentsFit, OutcomesFit, DriverSide, IdsIssued, WithWave,
      WithoutDriver, InPool, Waiting, NearestFirst, IsCandidateQuery, WasOffered, RowEligible, Nearer, AsNear;
    StartAddsWave(s, account, person, b, key, rows, w);
    WithoutDriverKeepsOffers(s, b);
    QueryMeans(s, w, s.bookings[b].region, distance, rows);
    WaitingMeans(s, w, s.bookings[b].region, d);
    RowExact(s, w, b, CandidateRow(d, distance[d]));
    NewInWave(s, w, b, EligibleRows(s, w, b, rows), d, o);
    var e := WithWave(s, w, b, EligibleRows(s, w, b, rows)).offers[o].driver;
    NoNearerDriverLeftOut(s, w, b, distance, rows, d, e);
    NearerMeans(distance[e], distance[d]);
  }

  /** The wave's own offers are the new ones. */
  lemma NewInWave(s: Store, w: World, b: BookingId, eligible: seq<CandidateRow>, d: DriverId, o: OfferId)
    requires IdsIssued(s) && OffersFit(s.attempts, s.offers) && b in s.bookings && o in WithWave(s, w, b, eligible).offers && o !in s.offers
    requires forall p :: p in WithWave(s, w, b, eligible).offers && p !in s.offers ==> WithWave(s, w, b, eligible).offers[p].driver != d
    ensures WasOffered(WithWave(s, w, b, eligible).offers, s.nextId, WithWave(s, w, b, eligible).offers[o].driver)
    ensures !WasOffered(WithWave(s, w, b, eligible).offers, s.nextId, d)
  {
    hide WithWave;
    WaveContents(s, w, b, eligible);
    WaveNewOffer(s, w, b, eligible, o);
    WaveOfferAt(s, w, b, eligible, o - s.nextId - 1);
  }

  // ---------------------------------------------------------------- going online

  /** The moves a driver may ask for: none while ASSIGNED, and only to AVAILABLE from OFFLINE; asking for the present status is allowed. */
  predicate MayAsk(from: AvailabilityStatus, to: AvailabilityStatus) {
    from != Assigned && (from == Offline ==> to in {Offline, Available})
  }

  lemma MayAskMeans(from: AvailabilityStatus, to: AvailabilityStatus)
    requires to in {Available, FinishingSoon, OnBreak, Offline}
    ensures MayMove(from, to) <==> MayAsk(from, to)
  {
  }

  /** Some permission of the driver in the region is not taken away by a restriction to school or to wheelchair work. */
  ghost predicate SomeService(w: World, d: DriverId, region: Region) {
    exists p :: p in w.permissions && p.driver == d && p.region == region && Spared(w, d, p)
  }

  ghost predicate Spared(w: World, d: DriverId, p: Permission) {
    forall r :: r in w.restrictions && InForce(r, d, w.now) ==>
      !(r.scope == SchoolOnly && Within(p.service, "SCHOOL")) && !(r.scope == WavOnly && Within(p.service, "WAV"))
  }

  /** One permission, restriction by restriction. */
  lemma SparedMeans(w: World, d: DriverId, p: Permission)
    ensures Spared(w, d, p) <==>
              !exists r :: r in w.restrictions && RestrictionCurrent(r, d, w.now) &&
                 ((r.scope == SchoolOnly && Contains(p.service, "SCHOOL")) || (r.scope == WavOnly && Contains(p.service, "WAV")))
  {
    hide RestrictionCurrent, InForce, Within, Contains;
    ContainsMeans(p.service, "SCHOOL");
    ContainsMeans(p.service, "WAV");
    forall r | r in w.restrictions ensures RestrictionCurrent(r, d, w.now) <==> InForce(r, d, w.now) { RestrictionMeans(r, d, w.now); }
  }

  lemma SomeServiceMeans(w: World, d: DriverId, region: Region)
    ensures AnyPermission(w, d, region) <==> SomeService(w, d, region)
  {
    hide Spared, RestrictionCurrent, Contains;
    forall p | p in w.permissions
      ensures Spared(w, d, p) <==>
                !exists r :: r in w.restrictions && RestrictionCurrent(r, d, w.now) &&
                   ((r.scope == SchoolOnly && Contains(p.service, "SCHOOL")) || (r.scope == WavOnly && Contains(p.service, "WAV")))
    {
      SparedMeans(w, d, p);
    }
  }

  /** A position the driver reports: not older than the limit, at most half a minute ahead, confident enough. */
  predicate Reported(w: World, p: Position) {
    && w.now - p.observedAt <= w.config.maxAgeSeconds * 1_000 && p.observedAt <= w.now + 30_000
    && 0 <= p.confidence <= 1_000 && w.config.minimumConfidence <= p.confidence
  }

  /** The driver may start or go on working with this vehicle in this region; fatigue is waived when coming from OFFLINE. */
  ghost predicate MayWork(s: Store, w: World, d: DriverId, accountActive: bool, vehicle: VehicleId, region: Region) {
    && accountActive && Approved(w, d) && VehicleReady(w, d, vehicle, iset{}) && Unrestricted(w, d, vehicle, iset{})
    && SomeService(w, d, region) && (FromStatus(s, d) != Offline ==> RestedFor(w, d))
  }

  /** The facts the pre-shift check looks at. */
  predicate PreShift(i: EligibilityInput, from: AvailabilityStatus, now: Time) {
    Qualified(i, now) && !i.hasActiveAssignment && !i.hasScheduleConflict && i.hardRequirementsMatch && (from != Offline ==> i.fatigueSafetyPassed)
  }

  lemma PreShiftKept(i: EligibilityInput, from: AvailabilityStatus, now: Time)
    ensures (forall b :: Stands(b, i, now) ==> b in {NotAvailable, LocationMissing, LocationStale, LocationConfidenceLow}
                                               || (from == Offline && b == FatigueSafetyBlocked))
       <==> NoneStanding(i, now) && !Stands(ActiveAssignment, i, now) && !Stands(ScheduleConflict, i, now)
            && !Stands(HardRequirementMismatch, i, now) && (from != Offline ==> !Stands(FatigueSafetyBlocked, i, now))
  {
    hide Stands;
    if NoneStanding(i, now) && !Stands(ActiveAssignment, i, now) && !Stands(ScheduleConflict, i, now)
       && !Stands(HardRequirementMismatch, i, now) && (from != Offline ==> !Stands(FatigueSafetyBlocked, i, now)) {
      forall b | Stands(b, i, now)
        ensures b in {NotAvailable, LocationMissing, LocationStale, LocationConfidenceLow} || (from == Offline && b == FatigueSafetyBlocked)
      {
        match b
        case AccountNotActive => case DriverProfileNotApproved => case ComplianceNotEligible => case ComplianceExpired =>
        case VehicleNotAuthorised => case VehicleNotEligible => case VehicleEligibilityExpired => case ServicePermissionMismatch =>
        case OperatingRestrictionActive => case NotAvailable => case LocationMissing => case LocationStale => case LocationConfidenceLow =>
        case ActiveAssignment => case ScheduleConflict => case FatigueSafetyBlocked => case HardRequirementMismatch =>
      }
    }
  }

  lemma PreShiftFacts(i: EligibilityInput, from: AvailabilityStatus, now: Time)
    ensures PreShift(i, from, now) <==>
              && NoneStanding(i, now) && !Stands(ActiveAssignment, i, now) && !Stands(ScheduleConflict, i, now)
              && !Stands(HardRequirementMismatch, i, now) && (from != Offline ==> !Stands(FatigueSafetyBlocked, i, now))
  {
    hide NoneStanding, Qualified;
    NoneStandingMeans(i, now);
  }

  lemma PreShiftEmpty(i: EligibilityInput, from: AvailabilityStatus, p: Position, w: World)
    ensures PreShiftBlockers(i, from, p, w) == [] <==>
              && (forall b :: Stands(b, i, w.now) ==> b in {NotAvailable, LocationMissing, LocationStale, LocationConfidenceLow}
                                                      || (from == Offline && b == FatigueSafetyBlocked))
              && w.now - p.observedAt <= w.config.maxAgeSeconds * 1_000 && p.observedAt <= w.now + 30_000
              && w.config.minimumConfidence <= p.confidence
  {
    hide Stands, Blockers, FilterSeq;
    var kept := FilterSeq(b => b !in {NotAvailable, LocationMissing, LocationStale, LocationConfidenceLow}
                               && !(from == Offline && b == FatigueSafetyBlocked), Blockers(i, w.now));
    EmptyIffNoMember(kept);
  }

  lemma PreShiftMeans(i: EligibilityInput, from: AvailabilityStatus, p: Position, w: World)
    requires 0 <= p.confidence <= 1_000
    ensures PreShiftBlockers(i, from, p, w) == [] <==> PreShift(i, from, w.now) && Reported(w, p)
  {
    hide PreShiftBlockers, PreShift, NoneStanding, Stands;
    PreShiftEmpty(i, from, p, w);
    PreShiftKept(i, from, w.now);
    PreShiftFacts(i, from, w.now);
  }

  lemma ShiftInputQualified(s: Store, w: World, d: DriverId, active: bool, vehicle: VehicleId, region: Region)
    requires d in w.drivers && DriverInput(s, w, d, active, Some(vehicle), Some(region), [], [], None, None).Success?
    ensures Qualified(DriverInput(s, w, d, active, Some(vehicle), Some(region), [], [], None, None).value, w.now) <==>
              && active && Approved(w, d) && VehicleReady(w, d, vehicle, iset{}) && Unrestricted(w, d, vehicle, iset{}) && SomeService(w, d, region)
  {
    hide DriverInput, VehicleReady, Unrestricted, OperatingRestricted, GatedStatus, VehicleOf, ValidityOf, FatiguePassed,
      HardRequirementsMatch, HasActiveAssignment, StillEligible, SomeService, AnyPermission;
    InputFields(s, w, d, active, Some(vehicle), Some(region), [], [], None, None);
    PermissionField(s, w, d, active, Some(vehicle), region, [], [], None, None);
    ComplianceMeans(w, d);
    SomeServiceMeans(w, d, region);
    RestrictedMeans(w, d, vehicle, [], iset{});
    VehicleMeans(w, d, vehicle, [], iset{});
  }

  lemma ShiftInputFree(s: Store, w: World, d: DriverId, active: bool, vehicle: VehicleId, region: Region)
    requires d in w.drivers && DriverInput(s, w, d, active, Some(vehicle), Some(region), [], [], None, None).Success?
    ensures var i := DriverInput(s, w, d, active, Some(vehicle), Some(region), [], [], None, None).value;
            && !i.hasScheduleConflict && i.hardRequirementsMatch && (i.fatigueSafetyPassed <==> RestedFor(w, d))
            && (i.hasActiveAssignment <==> HasActiveAssignment(s.assignments, d))
  {
    hide OperatingRestricted, VehicleOf, FatiguePassed, MaintenancePermits, HasActiveAssignment, AnyPermission, RestedFor;
    RestMeans(w, d);
  }

  lemma UnassignedIdle(s: Store, d: DriverId)
    requires Inv(s) && FromStatus(s, d) != Assigned
    ensures !HasActiveAssignment(s.assignments, d)
  {
    hide IdsIssued, BookingSide, OfferSide, PlacesKnown, ShiftsFit;
    forall a ensures !HoldsActive(s.assignments, a, d) {}
  }

  /** The pre-shift check passes exactly for a driver who may work and reports a good position. */
  lemma PreShiftExact(s: Store, w: World, d: DriverId, active: bool, vehicle: VehicleId, region: Region, p: Position)
    requires Inv(s) && d in w.drivers && FromStatus(s, d) != Assigned && 0 <= p.confidence <= 1_000
    requires DriverInput(s, w, d, active, Some(vehicle), Some(region), [], [], None, None).Success?
    ensures PreShiftBlockers(DriverInput(s, w, d, active, Some(vehicle), Some(region), [], [], None, None).value, FromStatus(s, d), p, w) == []
       <==> MayWork(s, w, d, active, vehicle, region) && Reported(w, p)
  {
    hide Inv, PreShiftBlockers, DriverInput, Qualified, VehicleReady, Unrestricted, SomeService, RestedFor, Approved, Reported, FromStatus,
      HasActiveAssignment;
    PreShiftMeans(DriverInput(s, w, d, active, Some(vehicle), Some(region), [], [], None, None).value, FromStatus(s, d), p, w);
    ShiftInputQualified(s, w, d, active, vehicle, region);
    ShiftInputFree(s, w, d, active, vehicle, region);
    UnassignedIdle(s, d);
  }

  /** The body of a request to go online is complete. */
  predicate Placed(request: AvailabilityRequest) {
    request.region.Some? && request.vehicle.Some? && request.position.Some?
  }

  lemma ShiftReadable(s: Store, w: World, d: DriverId, active: bool, vehicle: Option<VehicleId>, region: Option<Region>)
    requires d in w.drivers
    ensures DriverInput(s, w, d, active, vehicle, region, [], [], None, None).Success? <==> Readable(w.drivers[d].fatigue, w.config.fatigue, w.now)
  {
    hide DriverInput, Readable, FatiguePassed;
    RestMeans(w, d);
    InputFields(s, w, d, active, vehicle, region, [], [], None, None);
  }

  /** The commit of an allowed change never fails. */
  lemma ChangeCommits(s: Store, d: DriverId, request: AvailabilityRequest)
    requires Inv(s) && request.status in {Available, FinishingSoon, OnBreak, Offline} && MayMove(FromStatus(s, d), request.status)
    requires GoingOnline(request.status) ==> Placed(request)
    ensures AvailabilityCommit(s, d, NextAvailability(s, d, request)).Some?
  {
    hide IdsIssued, BookingSide, OfferSide, ActiveFits, ShiftsFit, PlacesKnown, AvailabilityCommit, NextAvailability, PlaceKnown;
    NextPlaceKnown(s, d, request);
    CommitNeedsNoPlace(s, d, NextAvailability(s, d, request));
  }

  /** The order of the service's own checks. */
  lemma AvailabilityChecks(s: Store, d: DriverId, actorActive: bool, request: AvailabilityRequest, key: Key, w: World)
    requires request.status in {Available, FinishingSoon, OnBreak, Offline} && DedupKey(AvailabilityCmd, d, key) !in s.dedup
    requires MayMove(FromStatus(s, d), request.status) && (GoingOnline(request.status) ==> Placed(request)) ==>
               AvailabilityCommit(s, d, NextAvailability(s, d, request)).Some?
    ensures SetDriverAvailability(s, d, actorActive, request, key, w).outcome.Accepted? <==>
              && MayMove(FromStatus(s, d), request.status) && d in w.drivers
              && DriverInput(s, w, d, actorActive, request.vehicle, request.region, [], [], None, None).Success?
              && (GoingOnline(request.status) ==>
                    && Placed(request) && 0 <= request.position.value.confidence <= 1_000
                    && PreShiftBlockers(DriverInput(s, w, d, actorActive, request.vehicle, request.region, [], [], None, None).value,
                                        FromStatus(s, d), request.position.value, w) == [])
  {
    hide AvailabilityCommit, NextAvailability, DriverInput, PreShiftBlockers, FromStatus, MayMove;
  }

  /** An availability change under a new key is accepted exactly if the move may be asked for, the driver's evidence can be read and,
      to work, the request names a region, a vehicle and a good position and the driver may work with them. */
  lemma AvailabilityMeans(s: Store, d: DriverId, actorActive: bool, request: AvailabilityRequest, key: Key, w: World)
    requires Inv(s) && request.status in {Available, FinishingSoon, OnBreak, Offline} && DedupKey(AvailabilityCmd, d, key) !in s.dedup
    ensures SetDriverAvailability(s, d, actorActive, request, key, w).outcome.Accepted? <==>
              && MayAsk(FromStatus(s, d), request.status)
              && d in w.drivers && Readable(w.drivers[d].fatigue, w.config.fatigue, w.now)
              && (request.status in {Available, FinishingSoon} ==>
                    && Placed(request) && Reported(w, request.position.value)
                    && MayWork(s, w, d, actorActive, request.vehicle.value, request.region.value))
  {
    hide Inv, SetDriverAvailability, AvailabilityCommit, NextAvailability, DriverInput, PreShiftBlockers, FromStatus, MayMove, MayAsk, MayWork, Readable;
    MayAskMeans(FromStatus(s, d), request.status);
    if MayMove(FromStatus(s, d), request.status) && (GoingOnline(request.status) ==> Placed(request)) { ChangeCommits(s, d, request); }
    AvailabilityChecks(s, d, actorActive, request, key, w);
    if d in w.drivers {
      ShiftReadable(s, w, d, actorActive, request.vehicle, request.region);
      if GoingOnline(request.status) && MayAsk(FromStatus(s, d), request.status) && Readable(w.drivers[d].fatigue, w.config.fatigue, w.now)
         && Placed(request) && 0 <= request.position.value.confidence <= 1_000 {
        AskedNotAssigned(s, d, request.status);
        PreShiftExact(s, w, d, actorActive, request.vehicle.value, request.region.value, request.position.value);
      }
    }
  }

  lemma AskedNotAssigned(s: Store, d: DriverId, to: AvailabilityStatus)
    requires MayAsk(FromStatus(s, d), to)
    ensures FromStatus(s, d) != Assigned
  {
  }

  /** What an accepted change leaves: the row asked for (nothing but the status when OFFLINE, the old place on BREAK), the next version
      and one logged move. */
  lemma AvailabilityStored(s: Store, d: DriverId, actorActive: bool, request: AvailabilityRequest, key: Key, w: World)
    requires request.status in {Available, FinishingSoon, OnBreak, Offline} && DedupKey(AvailabilityCmd, d, key) !in s.dedup
    requires SetDriverAvailability(s, d, actorActive, request, key, w).outcome.Accepted?
    ensures var r := SetDriverAvailability(s, d, actorActive, request, key, w).store;
            var before := AvailabilityIn(s.availability, d);
            var after := AvailabilityIn(r.availability, d);
            && d in r.availability && after.status == request.status && after.version == before.version + 1
            && (request.status == Offline ==> after.region.None? && after.vehicle.None? && after.observedAt.None? && after.confidence.None?)
            && (request.status == OnBreak ==> after.region == before.region && after.vehicle == before.vehicle
                                              && after.observedAt == before.observedAt && after.confidence == before.confidence)
            && (request.status in {Available, FinishingSoon} ==>
                  && Placed(request) && after.region == request.region && after.vehicle == request.vehicle
                  && after.observedAt == Some(request.position.value.observedAt) && after.confidence == Some(request.position.value.confidence))
            && (forall e :: e != d ==> AvailabilityIn(r.availability, e) == AvailabilityIn(s.availability, e))
    ensures Rows(SetDriverAvailability(s, d, actorActive, request, key, w).store.moves, d)
         == Rows(s.moves, d) + [AvailabilityMove(AvailabilityIn(s.availability, d).status, request.status, AvailabilityIn(s.availability, d).version + 1)]
  {
    hide AvailabilityCommit, DriverInput, PreShiftBlockers, MayMove, SetDriverAvailability;
    StoredIsCommit(s, d, actorActive, request, key, w);
    CommitTables(s, d, NextAvailability(s, d, request));
  }

  lemma StoredIsCommit(s: Store, d: DriverId, actorActive: bool, request: AvailabilityRequest, key: Key, w: World)
    requires request.status in {Available, FinishingSoon, OnBreak, Offline} && DedupKey(AvailabilityCmd, d, key) !in s.dedup
    requires SetDriverAvailability(s, d, actorActive, request, key, w).outcome.Accepted?
    ensures GoingOnline(request.status) ==> Placed(request)
    ensures AvailabilityCommit(s, d, NextAvailability(s, d, request)).Some?
    ensures var r := SetDriverAvailability(s, d, actorActive, request, key, w).store;
            var commit := AvailabilityCommit(s, d, NextAvailability(s, d, request)).value;
            r == commit.(dedup := r.dedup)
  {
    hide AvailabilityCommit, NextAvailability, DriverInput, PreShiftBlockers, FromStatus, MayMove;
  }
}
