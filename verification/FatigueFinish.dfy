/**
 Which handovers can still be completed. The service alone can finish every one whose hold carries the right reason; with the
 update trigger of the handover table, which refuses every recovery, one whose last task has run out never moves again.
 */
module FatigueFinish {
  import opened Prelude
  import opened DriverDomain
  import opened FatigueHandover
  import opened FatigueInvariants
  import opened FatigueTheorems

  // ---------------------------------------------------------------- acting on a handover

  function Act(person: PersonId, r: Request, key: Key, begin: Time, clock: Time): Event {
    Command(Call(Actor(person, true), r, key, begin, clock))
  }

  predicate Unused(s: Desk, person: PersonId, kind: CommandKind, key: Key) {
    DedupKey(kind, person, key) !in s.dedup
  }

  /** The original assignment of the handover and its leg have ended. */
  predicate OriginalEnded(row: Handover, fleet: Fleet) {
    && row.assignment in fleet.assignments && fleet.assignments[row.assignment].status != Active
    && row.assignment in fleet.legs && fleet.legs[row.assignment].status == LegInterrupted
  }

  /** The handover is in `person`'s hands at `t` and nothing outside it stands in the way of its completion. */
  predicate InHand(s: Desk, h: HandoverId, person: PersonId, t: Time) {
    && h in s.files && CurrentTask(s.files[h], s.roles, person, t).Some?
    && OriginalEnded(s.files[h].row, s.fleet) && s.files[h].hold.reason == FatigueSafety
  }

  lemma InHandMeans(s: Desk, h: HandoverId, person: PersonId, t: Time)
    requires InHand(s, h, person, t)
    ensures h in s.files
  {
  }

  lemma SameTasksSameCurrent(f: File, g: File, roles: seq<Role>, person: PersonId, t: Time, n: nat)
    requires f.tasks == g.tasks && n <= |f.tasks|
    ensures CurrentTaskBelow(g, roles, person, t, n) == CurrentTaskBelow(f, roles, person, t, n)
  {
  }

  lemma CanComplete(s: Desk, h: HandoverId, person: PersonId, key: Key, begin: Time, clock: Time)
    requires Inv(s) && InHand(s, h, person, begin) && Unused(s, person, CompleteKind, key) && begin <= clock
    requires s.files[h].row.status in {PassengerTransferred, SafeStopConfirmed}
    ensures var e := Act(person, Complete(h, ""), key, begin, clock);
            && Perform(s, e.call).outcome.Success? && Apply(s, e) == Perform(s, e.call).desk
            && h in Apply(s, e).files && Apply(s, e).files[h].row.status == HandedOver
  {
    hide TasksFit, LogFits, EvidenceFits, CurrentTask;
  }

  lemma CanStop(s: Desk, h: HandoverId, person: PersonId, key: Key, begin: Time, clock: Time)
    requires Inv(s) && InHand(s, h, person, begin) && Unused(s, person, SafeStopKind, key) && Unused(s, person, CompleteKind, key)
    requires s.files[h].row.status in {Owned, ReplacementAssigned} && begin <= clock
    ensures var e := Act(person, ConfirmSafeStop(h, ""), key, begin, clock);
            && Perform(s, e.call).outcome.Success? && Apply(s, e) == Perform(s, e.call).desk
            && InHand(Apply(s, e), h, person, begin) && Unused(Apply(s, e), person, CompleteKind, key)
            && Apply(s, e).files[h].row.status == SafeStopConfirmed && Apply(s, e).files[h].row.updatedAt == clock
  {
    hide TasksFit, LogFits, EvidenceFits;
    SameTasksSameCurrent(s.files[h], Recorded(s.files[h], ConfirmSafeStop(h, ""), clock), s.roles, person, begin, |s.files[h].tasks|);
  }

  function Taking(s: Desk, h: HandoverId): Request
    requires h in s.files
  {
    if s.files[h].row.status == Requested then Claim(h) else Recover(h, "")
  }

  lemma CanTake(s: Desk, h: HandoverId, person: PersonId, key: Key, t: Time)
    requires Inv(s) && h in s.files && s.files[h].row.status != HandedOver && s.files[h].hold.reason == FatigueSafety
    requires s.files[h].tasks != [] ==> s.files[h].tasks[|s.files[h].tasks| - 1].until <= t
    requires OriginalEnded(s.files[h].row, s.fleet) && ChosenRole(s.roles, person, t).Some?
    requires Unused(s, person, ClaimKind, key) && Unused(s, person, RecoverKind, key)
    ensures var e := Act(person, Taking(s, h), key, t, t);
            && Perform(s, e.call).outcome.Success? && Apply(s, e) == Perform(s, e.call).desk
            && InHand(Apply(s, e), h, person, t) && Unfinished(Apply(s, e).files[h].row.status) && Apply(s, e).files[h].row.updatedAt == t
            && (Unused(s, person, SafeStopKind, key) ==> Unused(Apply(s, e), person, SafeStopKind, key))
            && (Unused(s, person, CompleteKind, key) ==> Unused(Apply(s, e), person, CompleteKind, key))
  {
    hide LogFits, EvidenceFits, ChosenRole, Recoverable;
    RoleChosen(s.roles, person, t);
    LatestExpiredMeansNoneCurrent(s, h, t);
    var e := Act(person, Taking(s, h), key, t, t);
    CommandKeeps(s, e.call);
    NewTaskCurrent(Apply(s, e), h, t);
  }

  // ---------------------------------------------------------------- a run to completion

  function Ended(s: Desk, h: HandoverId): Fleet
    requires h in s.files
  {
    var row := s.files[h].row;
    var was := if row.assignment in s.fleet.assignments then s.fleet.assignments[row.assignment] else AssignmentRow(0, row.driver, Active);
    s.fleet.(assignments := s.fleet.assignments[row.assignment := was.(status := AssignmentCancelled)],
             legs := s.fleet.legs[row.assignment := Leg(row.journey, LegInterrupted)])
  }

  /** The original assignment ends early and a person gets authority at `t`. */
  function Preparation(s: Desk, h: HandoverId, person: PersonId, t: Time): seq<Event>
    requires h in s.files
  {
    [FleetMoves(Ended(s, h)), Grant(Role(person, HandoverOperator, t, t + 1))]
  }

  function Prepared(s: Desk, h: HandoverId, person: PersonId, t: Time): Desk
    requires h in s.files
  {
    Apply(Apply(s, Preparation(s, h, person, t)[0]), Preparation(s, h, person, t)[1])
  }

  lemma PreparedReady(s: Desk, h: HandoverId, person: PersonId, t: Time)
    requires Inv(s) && h in s.files
    ensures var r := Prepared(s, h, person, t);
            && Inv(r) && r.files == s.files && r.dedup == s.dedup && ChosenRole(r.roles, person, t).Some?
            && OriginalEnded(s.files[h].row, r.fleet)
  {
    hide Inv, ChosenRole;
    var r := Prepared(s, h, person, t);
    ApplyKeeps(s, Preparation(s, h, person, t)[0]);
    ApplyKeeps(Apply(s, Preparation(s, h, person, t)[0]), Preparation(s, h, person, t)[1]);
    RoleChosen(r.roles, person, t);
    assert RoleCurrent(r.roles[|r.roles| - 1], person, t);
  }

  /** A key longer than every key in use. */
  lemma {:induction false} NewKey(keys: set<DedupKey>) returns (key: Key)
    ensures key != "" && forall k :: k in keys ==> |k.key| < |key|
  {
    key := " ";
    if keys != {} {
      var k :| k in keys;
      var longer := NewKey(keys - {k});
      key := longer + k.key;
      forall other | other in keys ensures |other.key| < |key| {
        if other != k { assert other in keys - {k}; }
      }
    }
  }

  lemma RunMore(s: Desk, events: seq<Event>, e: Event)
    ensures Run(s, events + [e]) == Apply(Run(s, events), e)
  {
    assert (events + [e])[..|events|] == events;
  }

  lemma RunTwo(s: Desk, a: Event, b: Event)
    ensures Run(s, [a, b]) == Apply(Apply(s, a), b)
  {
    RunMore(s, [], a);
    RunMore(s, [a], b);
    assert [] + [a] == [a] && [a] + [b] == [a, b];
  }

  /** From a desk on which the handover is in hand, the run that finishes it. */
  lemma FinishesInHand(s: Desk, events: seq<Event>, h: HandoverId, person: PersonId, key: Key, t: Time) returns (later: seq<Event>)
    requires var r := Run(s, events);
             && Inv(r) && InHand(r, h, person, t) && Unfinished(r.files[h].row.status)
             && Unused(r, person, SafeStopKind, key) && Unused(r, person, CompleteKind, key)
    ensures h in Run(s, later).files && Run(s, later).files[h].row.status == HandedOver
  {
    hide Inv, Apply, InHand, Run, Perform;
    var r := Run(s, events);
    InHandMeans(r, h, person, t);
    var stop, complete := Act(person, ConfirmSafeStop(h, ""), key, t, t), Act(person, Complete(h, ""), key, t, t);
    if r.files[h].row.status in {Owned, ReplacementAssigned} {
      CanStop(r, h, person, key, t, t);
      ApplyKeeps(r, stop);
      RunMore(s, events, stop);
      CanComplete(Apply(r, stop), h, person, key, t, t);
      RunMore(s, events + [stop], complete);
      later := events + [stop] + [complete];
    } else {
      CanComplete(r, h, person, key, t, t);
      RunMore(s, events, complete);
      later := events + [complete];
    }
  }

  lemma Finishes(s: Desk, h: HandoverId) returns (later: seq<Event>)
    requires Inv(s) && h in s.files && s.files[h].row.status != HandedOver && s.files[h].hold.reason == FatigueSafety
    ensures h in Run(s, later).files && Run(s, later).files[h].row.status == HandedOver
  {
    hide Inv, Apply, InHand, ChosenRole, CurrentTask, Perform, OriginalEnded;
    var key := NewKey(s.dedup.Keys);
    var t := if s.files[h].tasks == [] then 0 else s.files[h].tasks[|s.files[h].tasks| - 1].until;
    var ready := Prepared(s, h, 0, t);
    PreparedReady(s, h, 0, t);
    RunTwo(s, Preparation(s, h, 0, t)[0], Preparation(s, h, 0, t)[1]);
    CanTake(ready, h, 0, key, t);
    var take := Act(0, Taking(ready, h), key, t, t);
    ApplyKeeps(ready, take);
    RunMore(s, Preparation(s, h, 0, t), take);
    later := FinishesInHand(s, Preparation(s, h, 0, t) + [take], h, 0, key, t);
  }

  // ---------------------------------------------------------------- the service without the trigger

  lemma {:induction false} ReasonNeverChanges(s: Desk, events: seq<Event>, h: HandoverId)
    requires h in s.files
    ensures h in Run(s, events).files && Run(s, events).files[h].hold.reason == s.files[h].hold.reason
    decreases |events|
  {
    hide ChosenRole, CurrentTask, Admits, Recoverable, Claimable;
    if events != [] { ReasonNeverChanges(s, events[..|events| - 1], h); }
  }

  ghost predicate CanFinish(s: Desk, h: HandoverId) {
    exists later :: h in Run(s, later).files && Run(s, later).files[h].row.status == HandedOver
  }

  lemma WrongReasonNeverFinishes(events: seq<Event>, h: HandoverId)
    requires h in Run(EMPTY, events).files && Run(EMPTY, events).files[h].hold.reason != FatigueSafety
    ensures !CanFinish(Run(EMPTY, events), h)
  {
    hide Run;
    var s := Run(EMPTY, events);
    ReasonOverRuns(EMPTY, events);
    forall later | h in Run(s, later).files ensures Run(s, later).files[h].row.status != HandedOver {
      ReasonNeverChanges(s, later, h);
      ReasonOverRuns(s, later);
    }
  }

  /** By the service code alone, a handover can still be completed exactly when its hold was placed for DRIVER_FATIGUE_SAFETY. */
  lemma FinishableWithoutGuardIff(events: seq<Event>, h: HandoverId)
    requires h in Run(EMPTY, events).files
    ensures CanFinish(Run(EMPTY, events), h) <==> Run(EMPTY, events).files[h].hold.reason == FatigueSafety
  {
    hide Run, Inv;
    var s := Run(EMPTY, events);
    ReachableHolds(events);
    if s.files[h].hold.reason == FatigueSafety {
      if s.files[h].row.status == HandedOver { RunNothing(s); assert h in Run(s, []).files; }
      else { var later := Finishes(s, h); }
    } else {
      WrongReasonNeverFinishes(events, h);
    }
  }

  lemma RunNothing(s: Desk)
    ensures Run(s, []) == s
  {
  }

  // ---------------------------------------------------------------- runs under the trigger

  /** The trigger lets the update of a handover row that `e` makes pass, if `e` makes one. */
  predicate Passes(s: Desk, e: Event) {
    e.Command? ==>
      var h := e.call.request.handover;
      h in s.files && h in Apply(s, e).files && Apply(s, e).files[h].row != s.files[h].row ==>
        GuardAllows(s.files[h].row, Apply(s, e).files[h].row)
  }

  /** An update the trigger refuses rolls its transaction back. */
  function GuardedApply(s: Desk, e: Event): Desk {
    if Passes(s, e) then Apply(s, e) else s
  }

  function GuardedRun(s: Desk, events: seq<Event>): Desk
    decreases |events|
  {
    if events == [] then s else GuardedApply(GuardedRun(s, events[..|events| - 1]), events[|events| - 1])
  }

  /** The events of a run that are not rolled back. */
  function Surviving(s: Desk, events: seq<Event>): seq<Event>
    decreases |events|
  {
    if events == [] then []
    else
      var shorter := events[..|events| - 1];
      var e := events[|events| - 1];
      Surviving(s, shorter) + if Passes(GuardedRun(s, shorter), e) then [e] else []
  }

  /** A run under the trigger is a run of the service on the events that survive, so everything proved about runs holds of it. */
  lemma {:induction false} GuardedIsRun(s: Desk, events: seq<Event>)
    ensures GuardedRun(s, events) == Run(s, Surviving(s, events))
    decreases |events|
  {
    hide Apply, Passes;
    if events != [] {
      var shorter, e := events[..|events| - 1], events[|events| - 1];
      GuardedIsRun(s, shorter);
      RunMore(s, Surviving(s, shorter), e);
      assert Surviving(s, shorter) + [] == Surviving(s, shorter);
    }
  }

  lemma GuardedFits(events: seq<Event>)
    ensures Inv(GuardedRun(EMPTY, events))
  {
    hide Inv, Run, Surviving;
    GuardedIsRun(EMPTY, events);
    ReachableHolds(Surviving(EMPTY, events));
  }

  lemma {:induction false} GuardedKeeps(s: Desk, events: seq<Event>)
    requires Inv(s)
    ensures Inv(GuardedRun(s, events))
  {
    hide Inv, Run, Surviving;
    GuardedIsRun(s, events);
    RunKeeps(s, Surviving(s, events));
  }

  /** No command of the run begins before `t`. */
  predicate AllFrom(events: seq<Event>, t: Time) {
    forall i :: 0 <= i < |events| && events[i].Command? ==> t <= events[i].call.begin
  }

  /** Owned and unfinished, with the last task over by `t`. */
  predicate RunOut(s: Desk, h: HandoverId, t: Time) {
    && h in s.files && Unfinished(s.files[h].row.status) && s.files[h].tasks != []
    && s.files[h].tasks[|s.files[h].tasks| - 1].until <= t
  }

  lemma NoTaskAfter(s: Desk, h: HandoverId, person: PersonId, t: Time, begin: Time)
    requires Inv(s) && RunOut(s, h, t) && t <= begin
    ensures CurrentTask(s.files[h], s.roles, person, begin).None?
  {
    hide LogFits, CaseFits, EvidenceFits;
    LatestIsLast(s.files[h].tasks, s.roles);
  }

  /** On such a handover the service itself would do nothing but recover it. */
  lemma OnlyRecoveryMoves(s: Desk, c: Call, t: Time)
    requires Inv(s) && RunOut(s, c.request.handover, t) && t <= c.begin
    requires Perform(s, c).desk != s
    ensures c.request.Recover? && Fresh(s, c) && Perform(s, c).outcome.Success?
    ensures c.request.handover in Perform(s, c).desk.files
    ensures Perform(s, c).desk.files[c.request.handover].row.version == s.files[c.request.handover].row.version + 1
  {
    hide Inv, ChosenRole, CurrentTask, Recoverable, Admits, Recorded;
    NoTaskAfter(s, c.request.handover, c.actor.person, t, c.begin);
  }

  lemma OtherFilesKept(s: Desk, c: Call, h: HandoverId)
    requires h in s.files && c.request.handover != h
    ensures h in Perform(s, c).desk.files && Perform(s, c).desk.files[h] == s.files[h]
  {
    hide ChosenRole, CurrentTask, Recoverable, Claimable, Admits, Recorded, Taken;
  }

  lemma RunOutStays(s: Desk, e: Event, h: HandoverId, t: Time)
    requires Inv(s) && RunOut(s, h, t) && (e.Command? ==> t <= e.call.begin)
    ensures h in GuardedApply(s, e).files && GuardedApply(s, e).files[h] == s.files[h]
  {
    hide Inv, Perform, GuardAllows;
    if e.Command? && e.call.begin <= e.call.clock {
      if e.call.request.handover != h { OtherFilesKept(s, e.call, h); }
      else if Perform(s, e.call).desk != s {
        OnlyRecoveryMoves(s, e.call, t);
        GuardRefusesRecovery(s, e.call);
      }
    }
  }

  lemma {:induction false} RunOutForever(s: Desk, later: seq<Event>, h: HandoverId, t: Time)
    requires Inv(s) && RunOut(s, h, t) && AllFrom(later, t)
    ensures h in GuardedRun(s, later).files && GuardedRun(s, later).files[h] == s.files[h]
    decreases |later|
  {
    hide Inv, GuardedApply;
    if later != [] {
      var shorter := later[..|later| - 1];
      assert AllFrom(shorter, t) by { assert forall i :: 0 <= i < |shorter| ==> shorter[i] == later[i]; }
      RunOutForever(s, shorter, h, t);
      GuardedKeeps(s, shorter);
      RunOutStays(GuardedRun(s, shorter), later[|later| - 1], h, t);
    }
  }

  /** Under the trigger, an owned, unfinished handover whose last task is over never changes again. */
  lemma StrandedByExpiry(events: seq<Event>, later: seq<Event>, h: HandoverId, t: Time)
    requires RunOut(GuardedRun(EMPTY, events), h, t) && AllFrom(later, t)
    ensures var s := GuardedRun(EMPTY, events);
            h in GuardedRun(s, later).files && GuardedRun(s, later).files[h] == s.files[h]
  {
    hide Inv, GuardedRun, AllFrom;
    GuardedFits(events);
    RunOutForever(GuardedRun(EMPTY, events), later, h, t);
  }

  // ---------------------------------------------------------------- what can still be finished under the trigger

  ghost predicate CanFinishFrom(s: Desk, h: HandoverId, t: Time) {
    exists later :: AllFrom(later, t) && h in GuardedRun(s, later).files && GuardedRun(s, later).files[h].row.status == HandedOver
  }

  lemma GuardedMore(s: Desk, events: seq<Event>, e: Event, t: Time)
    requires AllFrom(events, t) && (e.Command? ==> t <= e.call.begin)
    ensures GuardedRun(s, events + [e]) == GuardedApply(GuardedRun(s, events), e) && AllFrom(events + [e], t)
  {
    hide GuardedApply;
    assert (events + [e])[..|events|] == events;
  }

  lemma GuardedTwo(s: Desk, a: Event, b: Event, t: Time)
    requires !a.Command? && !b.Command?
    ensures GuardedRun(s, [a, b]) == Apply(Apply(s, a), b) && AllFrom([a, b], t)
  {
    hide Apply;
    GuardedMore(s, [], a, t);
    GuardedMore(s, [a], b, t);
    assert [] + [a] == [a] && [a] + [b] == [a, b];
  }

  /** A successful command that is not a recovery and is written later than the last update passes the trigger. */
  lemma LaterCommandPasses(s: Desk, e: Event)
    requires Inv(s) && e.Command? && e.call.request.handover in s.files && Fresh(s, e.call) && Perform(s, e.call).outcome.Success?
    requires !e.call.request.Recover? && e.call.clock > s.files[e.call.request.handover].row.updatedAt && Apply(s, e) == Perform(s, e.call).desk
    ensures GuardedApply(s, e) == Apply(s, e)
  {
    hide Inv, Perform, GuardAllows;
    GuardRefusesRecovery(s, e.call);
  }

  lemma GuardedFinishesInHand(s: Desk, events: seq<Event>, h: HandoverId, person: PersonId, key: Key, begin: Time, t: Time)
    returns (later: seq<Event>)
    requires var r := GuardedRun(s, events);
             && Inv(r) && InHand(r, h, person, begin) && Unfinished(r.files[h].row.status)
             && Unused(r, person, SafeStopKind, key) && Unused(r, person, CompleteKind, key)
    requires AllFrom(events, t) && t <= begin
    ensures AllFrom(later, t) && h in GuardedRun(s, later).files && GuardedRun(s, later).files[h].row.status == HandedOver
  {
    hide Inv, Apply, InHand, GuardedRun, GuardedApply, AllFrom, Perform;
    var r := GuardedRun(s, events);
    InHandMeans(r, h, person, begin);
    var at := if begin <= r.files[h].row.updatedAt then r.files[h].row.updatedAt + 1 else begin;
    if r.files[h].row.status in {Owned, ReplacementAssigned} {
      var stop, complete := Act(person, ConfirmSafeStop(h, ""), key, begin, at), Act(person, Complete(h, ""), key, begin, at + 1);
      CanStop(r, h, person, key, begin, at);
      LaterCommandPasses(r, stop);
      ApplyKeeps(r, stop);
      GuardedMore(s, events, stop, t);
      CanComplete(Apply(r, stop), h, person, key, begin, at + 1);
      InHandMeans(Apply(r, stop), h, person, begin);
      LaterCommandPasses(Apply(r, stop), complete);
      GuardedMore(s, events + [stop], complete, t);
      later := events + [stop] + [complete];
    } else {
      var complete := Act(person, Complete(h, ""), key, begin, at);
      CanComplete(r, h, person, key, begin, at);
      LaterCommandPasses(r, complete);
      GuardedMore(s, events, complete, t);
      later := events + [complete];
    }
  }

  /** A requested handover: someone gets authority, claims it and brings it to its end. */
  lemma GuardedFinishesRequested(s: Desk, h: HandoverId, t: Time) returns (later: seq<Event>)
    requires Inv(s) && h in s.files && s.files[h].row.status == Requested && s.files[h].hold.reason == FatigueSafety
    ensures AllFrom(later, t) && h in GuardedRun(s, later).files && GuardedRun(s, later).files[h].row.status == HandedOver
  {
    hide InHand, ChosenRole, CurrentTask, Perform, OriginalEnded, GuardedRun, GuardedApply, AllFrom, Apply, LogFits, EvidenceFits;
    var key := NewKey(s.dedup.Keys);
    var begin := if t <= s.files[h].row.updatedAt then s.files[h].row.updatedAt + 1 else t;
    var ready := Prepared(s, h, 0, begin);
    PreparedReady(s, h, 0, begin);
    GuardedTwo(s, Preparation(s, h, 0, begin)[0], Preparation(s, h, 0, begin)[1], t);
    CanTake(ready, h, 0, key, begin);
    var take := Act(0, Taking(ready, h), key, begin, begin);
    LaterCommandPasses(ready, take);
    ApplyKeeps(ready, take);
    GuardedMore(s, Preparation(s, h, 0, begin), take, t);
    later := GuardedFinishesInHand(s, Preparation(s, h, 0, begin) + [take], h, 0, key, begin, t);
  }

  /** A handover whose last task is not over: its operator brings it to its end. */
  lemma GuardedFinishesOwned(s: Desk, h: HandoverId, t: Time) returns (later: seq<Event>)
    requires Inv(s) && h in s.files && Unfinished(s.files[h].row.status) && s.files[h].hold.reason == FatigueSafety
    requires s.files[h].tasks != [] && s.files[h].tasks[|s.files[h].tasks| - 1].until > t
    ensures AllFrom(later, t) && h in GuardedRun(s, later).files && GuardedRun(s, later).files[h].row.status == HandedOver
  {
    hide ChosenRole, CurrentTask, Perform, OriginalEnded, GuardedRun, GuardedApply, AllFrom, Apply, LogFits, EvidenceFits, CaseFits;
    var key := NewKey(s.dedup.Keys);
    var last := s.files[h].tasks[|s.files[h].tasks| - 1];
    var begin := if t <= last.from then last.from else t;
    assert TaskFits(last, s.roles);
    var ready := Prepared(s, h, 0, t);
    PreparedReady(s, h, 0, t);
    NewTaskCurrent(ready, h, begin);
    GuardedTwo(s, Preparation(s, h, 0, t)[0], Preparation(s, h, 0, t)[1], t);
    later := GuardedFinishesInHand(s, Preparation(s, h, 0, t), h, last.operator, key, begin, t);
  }

  lemma WrongReasonNeverFinishesGuarded(events: seq<Event>, h: HandoverId, t: Time)
    requires h in GuardedRun(EMPTY, events).files && GuardedRun(EMPTY, events).files[h].hold.reason != FatigueSafety
    ensures !CanFinishFrom(GuardedRun(EMPTY, events), h, t)
  {
    hide Run, GuardedRun, Surviving, AllFrom;
    var s := GuardedRun(EMPTY, events);
    GuardedIsRun(EMPTY, events);
    WrongReasonNeverFinishes(Surviving(EMPTY, events), h);
    forall later | h in GuardedRun(s, later).files ensures GuardedRun(s, later).files[h].row.status != HandedOver {
      GuardedIsRun(s, later);
      assert h in Run(s, Surviving(s, later)).files;
    }
  }

  /** In the database as it is, a handover can still be completed by commands from `t` on exactly when its hold was placed for
      DRIVER_FATIGUE_SAFETY and it is complete already, or still waits for its first claim, or its last task is not over by `t`. */
  lemma FinishableIff(events: seq<Event>, h: HandoverId, t: Time)
    requires h in GuardedRun(EMPTY, events).files
    ensures var s := GuardedRun(EMPTY, events);
            var f := s.files[h];
            CanFinishFrom(s, h, t) <==>
              f.hold.reason == FatigueSafety
              && (f.row.status in {Requested, HandedOver} || (f.tasks != [] && f.tasks[|f.tasks| - 1].until > t))
  {
    hide GuardedRun, AllFrom, LogFits, CaseFits, EvidenceFits;
    var s := GuardedRun(EMPTY, events);
    GuardedFits(events);
    if s.files[h].hold.reason != FatigueSafety { WrongReasonNeverFinishesGuarded(events, h, t); }
    else if s.files[h].row.status == HandedOver { GuardedNothing(s, t); assert h in GuardedRun(s, []).files; }
    else if s.files[h].row.status == Requested { var later := GuardedFinishesRequested(s, h, t); }
    else if s.files[h].tasks[|s.files[h].tasks| - 1].until > t { var later := GuardedFinishesOwned(s, h, t); }
    else {
      forall later | AllFrom(later, t) ensures h in GuardedRun(s, later).files && GuardedRun(s, later).files[h] == s.files[h] {
        StrandedByExpiry(events, later, h, t);
      }
    }
  }

  lemma GuardedNothing(s: Desk, t: Time)
    ensures GuardedRun(s, []) == s && AllFrom([], t)
  {
  }

  const OPERATOR: Actor := Actor(1, true)

  /** The shortest such run: authority for ten milliseconds, a report, a claim. */
  const STRANDING: seq<Event> := [
    Grant(Role(1, HandoverOperator, 0, 10)),
    Report(0, 5, 6, 7, FatigueSafety, 0),
    Command(Call(OPERATOR, Claim(0), "k", 1, 1))]

  lemma StrandedExample()
    ensures RunOut(GuardedRun(EMPTY, STRANDING), 0, 10)
    ensures !CanFinishFrom(GuardedRun(EMPTY, STRANDING), 0, 10)
  {
    hide CanFinishFrom;
    var role := Role(1, HandoverOperator, 0, 10);
    assert STRANDING[..2][..1] == STRANDING[..1] && STRANDING[..3] == STRANDING && STRANDING[..1][..0] == [];
    var reported := EMPTY.(roles := [role], files := map[0 := NewFile(STRANDING[1])]);
    assert [] + [role] == [role];
    assert GuardedRun(EMPTY, STRANDING[..1]) == EMPTY.(roles := [role]);
    assert GuardedRun(EMPTY, STRANDING[..2]) == reported;
    assert ChosenRoleBelow([role], 1, 1, 1) == Some(0);
    FinishableIff(STRANDING, 0, 10);
  }
}
