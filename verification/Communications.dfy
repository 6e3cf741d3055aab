/**
 Planning a communication: which channels the recipient's contacts reach, which of the requested ones may be used,
 and whether the request is suppressed.
 */
module Communications {
  import opened Prelude

  datatype Channel = InApp | Push | Sms | Email | VoiceCall | MaskedCall | ProtectedChat | AuthenticatedPortal

  datatype ContactType = EmailContact | Mobile | Landline

  datatype Contact = Contact(kind: ContactType, verified: bool, purposeDenied: bool)

  function ChannelsFor(kind: ContactType): seq<Channel> {
    match kind
    case EmailContact => [Email]
    case Landline => [VoiceCall, MaskedCall]
    case Mobile => [Sms, VoiceCall, MaskedCall]
  }

  datatype Reach = Reach(verified: bool, denied: bool)

  predicate Reaches(c: Contact, channel: Channel) {
    channel in ChannelsFor(c.kind)
  }

  predicate SomeReaches(contacts: seq<Contact>, channel: Channel) {
    exists c :: c in contacts && Reaches(c, channel)
  }

  predicate SomeVerified(contacts: seq<Contact>, channel: Channel) {
    exists c :: c in contacts && Reaches(c, channel) && c.verified
  }

  predicate AllDenied(contacts: seq<Contact>, channel: Channel) {
    forall c :: c in contacts && Reaches(c, channel) ==> c.purposeDenied
  }

  /** The map holds a channel exactly if some contact reaches it: verified if one is, denied only if all are. */
  ghost predicate Summarises(m: map<Channel, Reach>, contacts: seq<Contact>) {
    forall channel ::
      && (channel in m <==> SomeReaches(contacts, channel))
      && (channel in m ==> m[channel] == Reach(SomeVerified(contacts, channel), AllDenied(contacts, channel)))
  }

  /** One `contactByChannel.set`. */
  function Merge(m: map<Channel, Reach>, c: Contact, channel: Channel): map<Channel, Reach> {
    m[channel := Reach(c.verified || (channel in m && m[channel].verified),
                       c.purposeDenied && (channel in m ==> m[channel].denied))]
  }

  lemma ChannelsDistinct(kind: ContactType)
    ensures forall i, j :: 0 <= i < j < |ChannelsFor(kind)| ==> ChannelsFor(kind)[i] != ChannelsFor(kind)[j]
  {
  }

  /** What `n` of the channels of contact `c`, merged after `before`, have made of the map. */
  ghost predicate MergedSoFar(m: map<Channel, Reach>, before: map<Channel, Reach>, c: Contact, n: nat)
    requires n <= |ChannelsFor(c.kind)|
  {
    forall channel ::
      if channel in ChannelsFor(c.kind)[..n] then channel in m && m[channel] == Merge(before, c, channel)[channel]
      else (channel in m <==> channel in before) && (channel in before ==> m[channel] == before[channel])
  }

  lemma ContactSummarised(m: map<Channel, Reach>, before: map<Channel, Reach>, contacts: seq<Contact>, c: Contact)
    requires Summarises(before, contacts) && MergedSoFar(m, before, c, |ChannelsFor(c.kind)|)
    ensures Summarises(m, contacts + [c])
  {
    var more := contacts + [c];
    assert c in more && forall x :: x in more <==> x in contacts || x == c;
    forall channel
      ensures channel in m <==> SomeReaches(more, channel)
      ensures channel in m ==> m[channel] == Reach(SomeVerified(more, channel), AllDenied(more, channel))
    {
      assert ChannelsFor(c.kind)[..|ChannelsFor(c.kind)|] == ChannelsFor(c.kind);
      assert SomeReaches(more, channel) <==> SomeReaches(contacts, channel) || Reaches(c, channel);
      assert SomeVerified(more, channel) <==> SomeVerified(contacts, channel) || (Reaches(c, channel) && c.verified);
      assert AllDenied(more, channel) <==> AllDenied(contacts, channel) && (Reaches(c, channel) ==> c.purposeDenied);
      if channel !in before { assert !SomeReaches(contacts, channel); }
    }
  }

  /** The fold over the recipient's contacts. */
  method FoldContacts(contacts: seq<Contact>) returns (m: map<Channel, Reach>)
    ensures Summarises(m, contacts)
  {
    m := map[];
    var i := 0;
    while i < |contacts|
      invariant 0 <= i <= |contacts|
      invariant Summarises(m, contacts[..i])
    {
      var c := contacts[i];
      var channels := ChannelsFor(c.kind);
      ghost var before := m;
      ChannelsDistinct(c.kind);
      var k := 0;
      while k < |channels|
        invariant 0 <= k <= |channels|
        invariant MergedSoFar(m, before, c, k)
      {
        m := Merge(m, c, channels[k]);
        k := k + 1;
      }
      ContactSummarised(m, before, contacts[..i], c);
      assert contacts[..i + 1] == contacts[..i] + [c];
      i := i + 1;
    }
    assert contacts[..|contacts|] == contacts;
  }

  lemma SummaryOrderFree(xs: seq<Contact>, ys: seq<Contact>, channel: Channel)
    requires forall c :: c in xs <==> c in ys
    ensures SomeReaches(xs, channel) <==> SomeReaches(ys, channel)
    ensures SomeVerified(xs, channel) <==> SomeVerified(ys, channel)
    ensures AllDenied(xs, channel) <==> AllDenied(ys, channel)
  {
  }

  /** The fold's answer does not depend on the order of the rows, nor on how often one occurs. */
  lemma FoldOrderFree(xs: seq<Contact>, ys: seq<Contact>, m: map<Channel, Reach>, n: map<Channel, Reach>)
    requires (forall c :: c in xs <==> c in ys) && Summarises(m, xs) && Summarises(n, ys)
    ensures m == n
  {
    hide SomeReaches, SomeVerified, AllDenied;
    forall channel
      ensures channel in m <==> channel in n
      ensures channel in m ==> m[channel] == n[channel]
    {
      SummaryOrderFree(xs, ys, channel);
    }
  }

  // ---------------------------------------------------------------- the route

  datatype Purpose =
    | BookingOperational | JourneyOperational | Safety | SchoolSafeguarding | Payment
    | AccountSecurity | DriverOperations | Support | Business | Marketing

  datatype Priority = P0 | P1 | P2 | P3 | P4

  datatype Health = Healthy | Degraded | Unavailable | Unknown

  datatype Candidate = Candidate(channel: Channel, contactPointVerified: bool, permissionAllowed: bool, health: Health, compromised: bool)

  datatype RouteState = Routable | DeferredQuietHours | SuppressedNoConsent | NoSafeChannel

  datatype Route = Route(state: RouteState, channels: seq<Channel>, fallbackRequired: bool)

  predicate Contactless(channel: Channel) {
    channel in {InApp, Push, ProtectedChat, AuthenticatedPortal}
  }

  predicate IsVoice(channel: Channel) {
    channel in {VoiceCall, MaskedCall}
  }

  /** The five filters of the pipeline. */
  predicate Safe(c: Candidate, silent: bool) {
    && c.permissionAllowed && !c.compromised && c.health != Unavailable
    && (Contactless(c.channel) || c.contactPointVerified)
    && !(silent && IsVoice(c.channel))
  }

  function SafeChannels(candidates: seq<Candidate>, silent: bool): seq<Channel> {
    if candidates == [] then []
    else SafeChannels(candidates[..|candidates| - 1], silent)
         + if Safe(candidates[|candidates| - 1], silent) then [candidates[|candidates| - 1].channel] else []
  }

  /** `filter((channel, index, all) => all.indexOf(channel) === index)`: the elements that do not occur earlier. */
  function FirstOccurrences(xs: seq<Channel>): (firsts: seq<Channel>)
    ensures forall c :: c in firsts <==> c in xs
  {
    if xs == [] then []
    else FirstOccurrences(xs[..|xs| - 1]) + if xs[|xs| - 1] in xs[..|xs| - 1] then [] else [xs[|xs| - 1]]
  }

  predicate Critical(purpose: Purpose, priority: Priority) {
    priority in {P0, P1} || purpose in {Safety, SchoolSafeguarding, AccountSecurity}
  }

  function PlanRoute(purpose: Purpose, priority: Priority, candidates: seq<Candidate>, consent: bool, quietHours: bool, silent: bool): Route {
    if purpose == Marketing && !consent then Route(SuppressedNoConsent, [], false)
    else if quietHours && !Critical(purpose, priority) then Route(DeferredQuietHours, [], false)
    else
      var channels := FirstOccurrences(SafeChannels(candidates, silent));
      if channels == [] then Route(NoSafeChannel, [], false) else Route(Routable, channels, Critical(purpose, priority))
  }

  // ---------------------------------------------------------------- the request

  datatype CommunicationRequest = CommunicationRequest(
    purpose: Purpose, priority: Priority, requested: seq<Channel>, quietHours: bool, silent: bool,
    sourceVersion: int, currentVersion: int, expiresAt: Option<Time>)

  datatype Preference = Preference(blocked: set<Channel>, marketingConsent: bool)

  datatype Suppression = Expired | SourceVersionStale | TemplateUnavailable | NoMarketingConsent | NoSafeChannelLeft

  datatype PlannedCommunication = PlannedCommunication(suppression: Option<Suppression>, route: Route, voiceOrAutoCall: bool)

  function CandidateFor(channel: Channel, reach: map<Channel, Reach>, blocked: set<Channel>, health: map<Channel, Health>): Candidate {
    Candidate(channel,
              Contactless(channel) || (channel in reach && reach[channel].verified),
              channel !in blocked && !(channel in reach && reach[channel].denied),
              if channel in health then health[channel] else Unknown,
              false)
  }

  /** assessCommunicationCurrency of a new, QUEUED communication. */
  function Currency(r: CommunicationRequest, now: Time): Option<Suppression> {
    if r.expiresAt.Some? && r.expiresAt.value <= now then Some(Expired)
    else if r.sourceVersion != r.currentVersion then Some(SourceVersionStale)
    else None
  }

  function SuppressionOf(r: CommunicationRequest, templateFound: bool, route: Route, now: Time): Option<Suppression> {
    if Currency(r, now).Some? then Currency(r, now)
    else if !templateFound then Some(TemplateUnavailable)
    else if route.state == SuppressedNoConsent then Some(NoMarketingConsent)
    else if route.state == NoSafeChannel then Some(NoSafeChannelLeft)
    else None
  }

  /** Channels that go through the platform itself need no verified contact point. */
  predicate NeedsContact(channel: Channel) {
    channel !in {InApp, Push, ProtectedChat, AuthenticatedPortal}
  }

  predicate Calls(channel: Channel) {
    channel !in {InApp, Push, Sms, Email, ProtectedChat, AuthenticatedPortal}
  }

  /** Urgent by priority, or by purpose. */
  predicate Urgent(r: CommunicationRequest) {
    r.priority !in {P2, P3, P4}
    || r.purpose !in {BookingOperational, JourneyOperational, Payment, DriverOperations, Support, Business, Marketing}
  }

  /** The kinds of contact through which a channel reaches someone. */
  function KindsFor(channel: Channel): set<ContactType> {
    match channel
    case Email => {EmailContact}
    case Sms => {Mobile}
    case VoiceCall => {Mobile, Landline}
    case MaskedCall => {Landline, Mobile}
    case _ => {}
  }

  lemma ReachesMeans(c: Contact, channel: Channel)
    ensures Reaches(c, channel) <==> c.kind in KindsFor(channel)
  {
  }

  /** Some contact reaches the channel and each one that does is denied for the purpose. */
  predicate AllRefused(contacts: seq<Contact>, channel: Channel) {
    && (exists i :: 0 <= i < |contacts| && contacts[i].kind in KindsFor(channel))
    && (forall i :: 0 <= i < |contacts| && contacts[i].kind in KindsFor(channel) ==> contacts[i].purposeDenied)
  }

  predicate SomeProven(contacts: seq<Contact>, channel: Channel) {
    exists i :: 0 <= i < |contacts| && contacts[i].kind in KindsFor(channel) && contacts[i].verified
  }

  /** The recipient may be reached on `channel`, by the contact rows, the preferences and the channel's health. */
  predicate Open(r: CommunicationRequest, contacts: seq<Contact>, preference: Preference, health: map<Channel, Health>, channel: Channel) {
    && channel !in preference.blocked && !AllRefused(contacts, channel) && !(channel in health && health[channel] == Unavailable)
    && (NeedsContact(channel) ==> SomeProven(contacts, channel)) && (r.silent ==> !Calls(channel))
  }

  lemma RowsMean(contacts: seq<Contact>, channel: Channel)
    ensures AllRefused(contacts, channel) <==> SomeReaches(contacts, channel) && AllDenied(contacts, channel)
    ensures SomeProven(contacts, channel) <==> SomeVerified(contacts, channel)
  {
    forall c | c in contacts ensures Reaches(c, channel) <==> c.kind in KindsFor(channel) { ReachesMeans(c, channel); }
  }

  lemma OpenMeans(r: CommunicationRequest, contacts: seq<Contact>, preference: Preference, health: map<Channel, Health>, channel: Channel)
    ensures MayUse(r, contacts, preference, health, channel) <==> Open(r, contacts, preference, health, channel)
  {
    hide SomeReaches, AllDenied, SomeVerified, AllRefused, SomeProven;
    RowsMean(contacts, channel);
  }

  /** Whether the recipient may be reached on `channel` for this request, read off the contact rows. */
  predicate MayUse(r: CommunicationRequest, contacts: seq<Contact>, preference: Preference, health: map<Channel, Health>, channel: Channel) {
    && channel !in preference.blocked
    && !(SomeReaches(contacts, channel) && AllDenied(contacts, channel))
    && (channel in health ==> health[channel] != Unavailable)
    && (Contactless(channel) || SomeVerified(contacts, channel))
    && !(r.silent && IsVoice(channel))
  }

  function Candidates(requested: seq<Channel>, reach: map<Channel, Reach>, blocked: set<Channel>, health: map<Channel, Health>)
    : (candidates: seq<Candidate>)
    ensures |candidates| == |requested|
    ensures forall i :: 0 <= i < |requested| ==> candidates[i] == CandidateFor(requested[i], reach, blocked, health)
  {
    seq(|requested|, i requires 0 <= i < |requested| => CandidateFor(requested[i], reach, blocked, health))
  }

  /** requestInternalCommunication up to its inserts. */
  method Plan(r: CommunicationRequest, contacts: seq<Contact>, preference: Preference, health: map<Channel, Health>,
              templateFound: bool, now: Time) returns (planned: PlannedCommunication)
    ensures planned.route.state == SuppressedNoConsent <==> r.purpose == Marketing && !preference.marketingConsent
    ensures planned.route.state == DeferredQuietHours <==> planned.route.state != SuppressedNoConsent && r.quietHours && !Urgent(r)
    ensures planned.route.state == NoSafeChannel <==>
              && planned.route.state !in {SuppressedNoConsent, DeferredQuietHours}
              && forall c :: c in r.requested ==> !Open(r, contacts, preference, health, c)
    ensures planned.route.state == Routable ==>
              IsFirstOccurrencePlan(r.requested, planned.route.channels, OpenIn(r, contacts, preference, health))
    ensures planned.route.state != Routable ==> planned.route.channels == []
    ensures planned.route.fallbackRequired <==> planned.route.state == Routable && Urgent(r)
    ensures planned.suppression == Some(Expired) <==> r.expiresAt.Some? && r.expiresAt.value <= now
    ensures planned.suppression == Some(SourceVersionStale) <==> planned.suppression != Some(Expired) && r.sourceVersion != r.currentVersion
    ensures planned.suppression == Some(TemplateUnavailable) <==> planned.suppression !in {Some(Expired), Some(SourceVersionStale)} && !templateFound
    ensures planned.suppression !in {Some(Expired), Some(SourceVersionStale), Some(TemplateUnavailable)} ==>
              && (planned.suppression == Some(NoMarketingConsent) <==> planned.route.state == SuppressedNoConsent)
              && (planned.suppression == Some(NoSafeChannelLeft) <==> planned.route.state == NoSafeChannel)
    ensures planned.voiceOrAutoCall <==> exists c :: c in planned.route.channels && Calls(c)
    ensures r.silent ==> !planned.voiceOrAutoCall && forall c :: c in planned.route.channels ==> !Calls(c)
  {
    var reach := FoldContacts(contacts);
    var candidates := Candidates(r.requested, reach, preference.blocked, health);
    var route := PlanRoute(r.purpose, r.priority, candidates, preference.marketingConsent, r.quietHours, r.silent);
    RouteMeans(r, contacts, preference, health, reach);
    SuppressionMeans(r, templateFound, route, now);
    CallsListed(route.channels);
    hide Candidates, PlanRoute, SuppressionOf, IsFirstOccurrencePlan, Open, OpenIn, Summarises, Urgent;
    planned := PlannedCommunication(SuppressionOf(r, templateFound, route, now), route,
                                    !r.silent && (VoiceCall in route.channels || MaskedCall in route.channels));
  }

  // ---------------------------------------------------------------- what a plan is

  function FirstIndex(xs: seq<Channel>, x: Channel): (i: nat)
    requires x in xs
    ensures i < |xs| && xs[i] == x && forall k :: 0 <= k < i ==> xs[k] != x
  {
    if xs[0] == x then 0 else 1 + FirstIndex(xs[1..], x)
  }

  /** Where a channel was first requested; past the end if it was not. */
  function FirstRequested(requested: seq<Channel>, x: Channel): nat {
    if x in requested then FirstIndex(requested, x) else |requested|
  }

  /** `plan` holds exactly the requested channels that may be used, once each, in the order they were first requested. */
  ghost predicate IsFirstOccurrencePlan(requested: seq<Channel>, plan: seq<Channel>, may: Channel -> bool) {
    && (forall c :: c in plan <==> c in requested && may(c))
    && (forall i, j | 0 <= i < j < |plan| :: FirstRequested(requested, plan[i]) < FirstRequested(requested, plan[j]))
  }

  lemma FirstIndexExtends(xs: seq<Channel>, x: Channel, c: Channel)
    requires c in xs
    ensures c in xs + [x] && FirstIndex(xs + [x], c) == FirstIndex(xs, c)
  {
    var i, k := FirstIndex(xs, c), FirstIndex(xs + [x], c);
    assert (xs + [x])[i] == c;
    assert k < |xs| ==> xs[k] == c;
  }

  lemma FirstIndexNew(xs: seq<Channel>, x: Channel)
    requires x !in xs
    ensures FirstIndex(xs + [x], x) == |xs|
  {
    var i := FirstIndex(xs + [x], x);
    assert (xs + [x])[|xs|] == x;
    assert forall k :: 0 <= k < |xs| ==> (xs + [x])[k] == xs[k] != x;
  }

  /** Adding one more requested channel keeps the plan, or appends the channel if it may be used and is new. */
  lemma PlanExtends(requested: seq<Channel>, plan: seq<Channel>, may: Channel -> bool, x: Channel)
    requires IsFirstOccurrencePlan(requested, plan, may)
    ensures IsFirstOccurrencePlan(requested + [x], if may(x) && x !in plan then plan + [x] else plan, may)
  {
    var more := requested + [x];
    forall c | c in requested ensures FirstIndex(more, c) == FirstIndex(requested, c) { FirstIndexExtends(requested, x, c); }
    if may(x) && x !in plan {
      FirstIndexNew(requested, x);
      var longer := plan + [x];
      forall i, j | 0 <= i < j < |longer| ensures FirstRequested(more, longer[i]) < FirstRequested(more, longer[j]) {
        assert longer[i] == plan[i] && plan[i] in requested;
        if j < |plan| { assert longer[j] == plan[j] && plan[j] in requested; }
      }
    }
  }

  lemma OneMoreCandidate(candidates: seq<Candidate>, silent: bool)
    requires candidates != []
    ensures var n := |candidates| - 1;
            var safe := SafeChannels(candidates[..n], silent);
            var plan := FirstOccurrences(safe);
            var x := candidates[n].channel;
            && SafeChannels(candidates, silent) == (if Safe(candidates[n], silent) then safe + [x] else safe)
            && FirstOccurrences(SafeChannels(candidates, silent)) == (if Safe(candidates[n], silent) && x !in safe then plan + [x] else plan)
  {
    hide Safe;
    var n := |candidates| - 1;
    var safe, x := SafeChannels(candidates[..n], silent), candidates[n].channel;
    assert (safe + [x])[..|safe + [x]| - 1] == safe;
  }

  lemma EmptyPlan(may: Channel -> bool)
    ensures IsFirstOccurrencePlan([], [], may)
  {
  }

  lemma {:induction false} PipelineIsPlan(candidates: seq<Candidate>, requested: seq<Channel>, silent: bool, may: Channel -> bool)
    requires |candidates| == |requested|
    requires forall i :: 0 <= i < |candidates| ==> candidates[i].channel == requested[i] && (Safe(candidates[i], silent) <==> may(requested[i]))
    ensures IsFirstOccurrencePlan(requested, FirstOccurrences(SafeChannels(candidates, silent)), may)
    decreases |candidates|
  {
    hide Safe, IsFirstOccurrencePlan, SafeChannels, FirstOccurrences;
    if candidates == [] {
      EmptyPlan(may);
      NoChannel(silent);
    } else {
      var n := |candidates| - 1;
      PipelineIsPlan(candidates[..n], requested[..n], silent, may);
      OneMoreCandidate(candidates, silent);
      PlanExtends(requested[..n], FirstOccurrences(SafeChannels(candidates[..n], silent)), may, requested[n]);
      assert requested == requested[..n] + [requested[n]];
    }
  }

  /** The candidate built from the folded contacts is safe exactly if the channel may be used. */
  lemma CandidateMeans(r: CommunicationRequest, contacts: seq<Contact>, preference: Preference, health: map<Channel, Health>,
                       reach: map<Channel, Reach>, channel: Channel)
    requires Summarises(reach, contacts)
    ensures Safe(CandidateFor(channel, reach, preference.blocked, health), r.silent) <==> MayUse(r, contacts, preference, health, channel)
  {
    assert SomeVerified(contacts, channel) ==> SomeReaches(contacts, channel);
    hide SomeReaches, SomeVerified, AllDenied;
    assert channel in reach <==> SomeReaches(contacts, channel);
  }

  function OpenIn(r: CommunicationRequest, contacts: seq<Contact>, preference: Preference, health: map<Channel, Health>): Channel -> bool {
    c => Open(r, contacts, preference, health, c)
  }

  lemma UrgentMeans(r: CommunicationRequest)
    ensures Critical(r.purpose, r.priority) <==> Urgent(r)
  {
    match r.priority { case P0 => case P1 => case P2 => case P3 => case P4 => }
    match r.purpose
    case BookingOperational => case JourneyOperational => case Safety => case SchoolSafeguarding => case Payment =>
    case AccountSecurity => case DriverOperations => case Support => case Business => case Marketing =>
  }

  /** The candidate may be used: allowed, not compromised, not down, with a proven contact point where one is needed, and no call in silence. */
  predicate Usable(c: Candidate, silent: bool) {
    && c.permissionAllowed && !c.compromised && c.health in {Healthy, Degraded, Unknown}
    && (NeedsContact(c.channel) ==> c.contactPointVerified) && (silent ==> !Calls(c.channel))
  }

  lemma UsableMeans(c: Candidate, silent: bool)
    ensures Safe(c, silent) <==> Usable(c, silent)
  {
    match c.health { case Healthy => case Degraded => case Unavailable => case Unknown => }
    match c.channel
    case InApp => case Push => case Sms => case Email => case VoiceCall => case MaskedCall => case ProtectedChat => case AuthenticatedPortal =>
  }

  /** Whatever the candidates, a channel comes out of the pipeline exactly if one of them offers it and may be used. */
  lemma {:induction false} ChannelUsedIff(candidates: seq<Candidate>, silent: bool, channel: Channel)
    ensures channel in FirstOccurrences(SafeChannels(candidates, silent)) <==>
              exists i :: 0 <= i < |candidates| && candidates[i].channel == channel && Usable(candidates[i], silent)
    decreases |candidates|
  {
    hide Safe, Usable, SafeChannels, FirstOccurrences;
    if candidates == [] {
      NoChannel(silent);
    } else {
      var n := |candidates| - 1;
      ChannelUsedIff(candidates[..n], silent, channel);
      UsableMeans(candidates[n], silent);
      OneMoreCandidate(candidates, silent);
      assert forall i :: 0 <= i < n ==> candidates[..n][i] == candidates[i];
    }
  }

  lemma NoChannel(silent: bool)
    ensures FirstOccurrences(SafeChannels([], silent)) == []
  {
  }

  lemma SafePlan(r: CommunicationRequest, contacts: seq<Contact>, preference: Preference, health: map<Channel, Health>, reach: map<Channel, Reach>)
    requires Summarises(reach, contacts)
    ensures var plan := FirstOccurrences(SafeChannels(Candidates(r.requested, reach, preference.blocked, health), r.silent));
            && IsFirstOccurrencePlan(r.requested, plan, OpenIn(r, contacts, preference, health))
            && (plan == [] <==> forall c :: c in r.requested ==> !Open(r, contacts, preference, health, c))
  {
    hide MayUse, Open, Safe, Summarises;
    var candidates := Candidates(r.requested, reach, preference.blocked, health);
    var may := OpenIn(r, contacts, preference, health);
    forall i | 0 <= i < |candidates| ensures candidates[i].channel == r.requested[i] && (Safe(candidates[i], r.silent) <==> may(r.requested[i])) {
      CandidateMeans(r, contacts, preference, health, reach, r.requested[i]);
      OpenMeans(r, contacts, preference, health, r.requested[i]);
    }
    PipelineIsPlan(candidates, r.requested, r.silent, may);
    PlanEmptyIff(r.requested, FirstOccurrences(SafeChannels(candidates, r.silent)), may);
  }

  lemma RouteMeans(r: CommunicationRequest, contacts: seq<Contact>, preference: Preference, health: map<Channel, Health>, reach: map<Channel, Reach>)
    requires Summarises(reach, contacts)
    ensures var route := PlanRoute(r.purpose, r.priority, Candidates(r.requested, reach, preference.blocked, health),
                                   preference.marketingConsent, r.quietHours, r.silent);
            && (route.state == SuppressedNoConsent <==> r.purpose == Marketing && !preference.marketingConsent)
            && (route.state == DeferredQuietHours <==> route.state != SuppressedNoConsent && r.quietHours && !Urgent(r))
            && (route.state == NoSafeChannel <==>
                  && route.state !in {SuppressedNoConsent, DeferredQuietHours}
                  && forall c :: c in r.requested ==> !Open(r, contacts, preference, health, c))
            && (route.state == Routable ==> IsFirstOccurrencePlan(r.requested, route.channels, OpenIn(r, contacts, preference, health)))
            && (route.state != Routable ==> route.channels == [])
            && (route.fallbackRequired <==> route.state == Routable && Urgent(r))
            && (r.silent ==> forall c :: c in route.channels ==> !Calls(c))
  {
    hide SafeChannels, FirstOccurrences, Candidates, Critical, Urgent, Open, Summarises, IsFirstOccurrencePlan;
    SafePlan(r, contacts, preference, health, reach);
    UrgentMeans(r);
    SilentPlan(r, contacts, preference, health, FirstOccurrences(SafeChannels(Candidates(r.requested, reach, preference.blocked, health), r.silent)));
  }

  lemma SilentPlan(r: CommunicationRequest, contacts: seq<Contact>, preference: Preference, health: map<Channel, Health>, plan: seq<Channel>)
    requires IsFirstOccurrencePlan(r.requested, plan, OpenIn(r, contacts, preference, health))
    ensures r.silent ==> forall c :: c in plan ==> !Calls(c)
  {
  }

  lemma SuppressionMeans(r: CommunicationRequest, templateFound: bool, route: Route, now: Time)
    ensures var why := SuppressionOf(r, templateFound, route, now);
            && (why == Some(Expired) <==> r.expiresAt.Some? && r.expiresAt.value <= now)
            && (why == Some(SourceVersionStale) <==> why != Some(Expired) && r.sourceVersion != r.currentVersion)
            && (why == Some(TemplateUnavailable) <==> why !in {Some(Expired), Some(SourceVersionStale)} && !templateFound)
            && (why !in {Some(Expired), Some(SourceVersionStale), Some(TemplateUnavailable)} ==>
                  && (why == Some(NoMarketingConsent) <==> route.state == SuppressedNoConsent)
                  && (why == Some(NoSafeChannelLeft) <==> route.state == NoSafeChannel))
  {
  }

  lemma CallsListed(channels: seq<Channel>)
    ensures VoiceCall in channels || MaskedCall in channels <==> exists c :: c in channels && Calls(c)
  {
    forall c: Channel ensures Calls(c) <==> c == VoiceCall || c == MaskedCall {
      match c case InApp => case Push => case Sms => case Email => case VoiceCall => case MaskedCall => case ProtectedChat => case AuthenticatedPortal =>
    }
  }

  lemma PlanEmptyIff(requested: seq<Channel>, plan: seq<Channel>, may: Channel -> bool)
    requires IsFirstOccurrencePlan(requested, plan, may)
    ensures plan == [] <==> forall c :: c in requested ==> !may(c)
  {
    if plan != [] { assert plan[0] in plan; }
  }
}
