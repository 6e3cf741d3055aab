/** What the handover protocol guarantees over every run, and where the code stops short of it. */
module FatigueTheorems {
  import opened Prelude
  import opened DriverDomain
  import opened FatigueHandover
  import opened FatigueInvariants

  // ---------------------------------------------------------------- one operator at a time

  /** At any instant at most one task of a handover is current; every task lasts exactly four hours, or until the end of the role
      it was taken under if that comes first, and lies inside the validity of that role of its operator. */
  lemma OneTaskAtATime(events: seq<Event>, h: HandoverId, i: nat, j: nat, t: Time)
    requires h in Run(EMPTY, events).files
    requires i < |Run(EMPTY, events).files[h].tasks| && j < |Run(EMPTY, events).files[h].tasks|
    ensures var s := Run(EMPTY, events);
            var tasks := s.files[h].tasks;
            && (TaskCurrent(tasks[i], t) && TaskCurrent(tasks[j], t) ==> i == j)
            && tasks[i].role < |s.roles|
            && tasks[i].until == (if s.roles[tasks[i].role].until - tasks[i].from <= 14_400_000 then s.roles[tasks[i].role].until
                                  else tasks[i].from + 14_400_000)
            && (TaskCurrent(tasks[i], t) ==> RoleCurrent(s.roles[tasks[i].role], tasks[i].operator, t))
  {
    hide Run, LogFits, CaseFits, EvidenceFits;
    ReachableHolds(events);
    var tasks := Run(EMPTY, events).files[h].tasks;
    assert TaskFits(tasks[i], Run(EMPTY, events).roles);
  }

  /** `role` sorts first among the person's current roles: an operator's role before a supervisor's, then the one that ends first. */
  predicate SortsFirst(roles: seq<Role>, role: Role, person: PersonId, t: Time) {
    && role.operator == person && role.from <= t && role.until > t
    && forall i :: 0 <= i < |roles| && roles[i].operator == person && roles[i].from <= t && roles[i].until > t ==>
         if role.code == SafetySupervisor then roles[i].code == SafetySupervisor && role.until <= roles[i].until
         else roles[i].code == HandoverOperator ==> role.until <= roles[i].until
  }

  lemma ChosenSortsFirst(roles: seq<Role>, person: PersonId, t: Time)
    ensures ChosenRole(roles, person, t).Some? ==>
              ChosenRole(roles, person, t).value < |roles| && SortsFirst(roles, roles[ChosenRole(roles, person, t).value], person, t)
  {
    var chosen := ChosenRoleBelow(roles, person, t, |roles|);
    if chosen.Some? {
      assert RoleCurrent(roles[chosen.value], person, t);
      forall i | 0 <= i < |roles| && roles[i].operator == person && roles[i].from <= t && roles[i].until > t
        ensures !RoleBefore(roles[i], roles[chosen.value])
      {
        assert RoleCurrent(roles[i], person, t);
      }
    }
  }

  /** A successful claim or recovery adds one task, in the caller's name and under the role that sorts first: it starts at the clock
      and ends with the role if that comes within four hours, else exactly four hours later. */
  lemma TaskTaken(s: Desk, c: Call)
    requires (c.request.Claim? || c.request.Recover?) && Fresh(s, c) && Perform(s, c).outcome.Success?
    ensures c.request.handover in s.files && c.request.handover in Perform(s, c).desk.files
    ensures var before := s.files[c.request.handover];
            var after := Perform(s, c).desk.files[c.request.handover];
            && |after.tasks| == |before.tasks| + 1 && after.tasks[..|before.tasks|] == before.tasks
            && var task := after.tasks[|before.tasks|];
               && task.operator == c.actor.person && after.row.owner == Some(c.actor.person) && task.from == c.clock
               && task.role < |s.roles| && SortsFirst(s.roles, s.roles[task.role], c.actor.person, c.begin)
               && task.until == if s.roles[task.role].until <= c.clock + 14_400_000 then s.roles[task.role].until else c.clock + 14_400_000
  {
    hide ChosenRole, Recoverable, Claimable, SortsFirst;
    ChosenSortsFirst(s.roles, c.actor.person, c.begin);
  }

  /** From the moment the last task starts, whoever holds a current task is the recorded owner. */
  lemma TaskHolderIsOwner(events: seq<Event>, h: HandoverId, i: nat, t: Time)
    requires h in Run(EMPTY, events).files && i < |Run(EMPTY, events).files[h].tasks|
    requires var tasks := Run(EMPTY, events).files[h].tasks; tasks[|tasks| - 1].from <= t && TaskCurrent(tasks[i], t)
    ensures Run(EMPTY, events).files[h].row.owner == Some(Run(EMPTY, events).files[h].tasks[i].operator)
  {
    hide Run, LogFits, CaseFits, EvidenceFits;
    ReachableHolds(events);
    var tasks := Run(EMPTY, events).files[h].tasks;
    OneTaskAtATime(events, h, i, |tasks| - 1, t);
  }

  /** The recovery's NOT EXISTS guard follows from its guard on the latest task. */
  lemma LatestExpiredMeansNoneCurrent(s: Desk, h: HandoverId, begin: Time)
    requires Inv(s) && h in s.files
    ensures Recoverable(s.files[h], begin) <==>
              Unfinished(s.files[h].row.status) && s.files[h].tasks[|s.files[h].tasks| - 1].until <= begin
  {
    hide LogFits, EvidenceFits;
    if s.files[h].tasks != [] { LatestIsLast(s.files[h].tasks, s.roles); }
  }

  // ---------------------------------------------------------------- the life of a handover

  /** In every run: the hold is ACTIVE until completion, the case keeps step with the handover, the version counts the logged
      rows, which form a path with at most four changes of status, and completion rests on evidence: a safe stop,
      or a transfer to another driver's assignment of the same booking. */
  lemma HandoverLife(events: seq<Event>, h: HandoverId)
    requires h in Run(EMPTY, events).files
    ensures var f := Run(EMPTY, events).files[h];
            && (f.hold.active <==> f.row.status != HandedOver)
            && f.support == CaseStatusFor(f.row.status)
            && f.row.version == |f.log| && IsPath(f.log, f.row.status) && StatusChanges(f.log) <= 4
            && (f.row.status == HandedOver && f.row.safeStopEvidence.None? ==>
                  f.row.transferEvidence.Some? && ReplacementSound(f.row, Run(EMPTY, events).fleet))
  {
    hide Run, TasksFit, IsPath, ReplacementSound;
    ReachableHolds(events);
    ChangesBounded(Run(EMPTY, events).files[h].log, Run(EMPTY, events).files[h].row.status);
  }

  // ---------------------------------------------------------------- idempotency

  ghost predicate RepliesKept(s: Desk, r: Desk) {
    forall k :: k in s.dedup ==> k in r.dedup && r.dedup[k] == s.dedup[k]
  }

  lemma {:induction false} RunKeepsReplies(s: Desk, events: seq<Event>)
    ensures RepliesKept(s, Run(s, events))
    decreases |events|
  {
    if events != [] { RunKeepsReplies(s, events[..|events| - 1]); }
  }

  lemma SuccessRecorded(s: Desk, c: Call)
    requires Perform(s, c).outcome.Success?
    ensures var k := DedupKey(KindOf(c.request), c.actor.person, c.key);
            k in Perform(s, c).desk.dedup && Perform(s, c).desk.dedup[k] == Answered(c.request, Perform(s, c).outcome.value)
  {
  }

  /** After a command has succeeded, sending it again, whatever ran in between, gives the stored reply and changes nothing;
      the same key for a different request of that kind is refused and changes nothing. */
  lemma AnsweredOnce(s: Desk, c: Call, later: seq<Event>, again: Call)
    requires Perform(s, c).outcome.Success?
    requires again.actor == c.actor && again.key == c.key && KindOf(again.request) == KindOf(c.request)
    ensures Perform(Run(Perform(s, c).desk, later), again)
         == Step(Run(Perform(s, c).desk, later),
                 if again.request == c.request then Success(Perform(s, c).outcome.value) else Failure(KeyReused))
  {
    hide Run, Recorded, Taken, Admits, Recoverable, Claimable, ChosenRole, CurrentTask;
    SuccessRecorded(s, c);
    RunKeepsReplies(Perform(s, c).desk, later);
  }

  lemma RefusalChangesNothing(s: Desk, c: Call)
    requires Perform(s, c).outcome.Failure?
    ensures Perform(s, c).desk == s
  {
    hide Recorded, Taken, Admits, Recoverable, Claimable, ChosenRole, CurrentTask;
  }

  // ---------------------------------------------------------------- the queue and the handover view

  predicate Supervises(roles: seq<Role>, person: PersonId, t: Time) {
    exists i :: 0 <= i < |roles| && roles[i].code == SafetySupervisor && RoleCurrent(roles[i], person, t)
  }

  /** Task `i` is one the queue's ORDER BY valid_until DESC LIMIT 1 may pick. */
  predicate EndsLast(tasks: seq<Task>, i: nat) {
    i < |tasks| && forall k :: 0 <= k < |tasks| ==> tasks[k].until <= tasks[i].until
  }

  /** The rows the recoverable queue may show a supervisor, before its limit, by the clauses of its query. */
  predicate Listed(s: Desk, h: HandoverId, person: PersonId, now: Time) {
    && h in s.files && Supervises(s.roles, person, now)
    && s.files[h].row.status in {Owned, ReplacementAssigned, PassengerTransferred, SafeStopConfirmed}
    && (exists i :: 0 <= i < |s.files[h].tasks| && EndsLast(s.files[h].tasks, i) && s.files[h].tasks[i].until <= now)
    && (forall i :: 0 <= i < |s.files[h].tasks| ==> !(s.files[h].tasks[i].from <= now && s.files[h].tasks[i].until > now))
    && s.files[h].support == InProgress && s.files[h].hold.active
  }

  predicate Fresh(s: Desk, c: Call) {
    DedupKey(KindOf(c.request), c.actor.person, c.key) !in s.dedup
  }

  /** The person's role is still valid when the clock is read: the one that sorts first counts, even if another lasts longer. */
  predicate RoleOutlasts(roles: seq<Role>, c: Call) {
    var role := ChosenRole(roles, c.actor.person, c.begin);
    role.Some? && role.value < |roles| && roles[role.value].until > c.clock
  }

  lemma TakeOverSucceedsIff(s: Desk, c: Call, f: File, role: RoleIndex, status: HandoverStatus)
    requires role < |s.roles|
    ensures TakeOver(s, c, f, role, status).outcome.Success? <==> s.roles[role].until > c.clock
  {
  }

  /** A new claim succeeds exactly for a handover that is requested and whose case awaits a human, by a person whose role
      outlasts the transaction. */
  lemma ClaimSucceedsIff(s: Desk, c: Call)
    requires Inv(s) && c.request.Claim? && c.actor.active && Fresh(s, c)
    ensures Perform(s, c).outcome.Success? <==>
              RoleOutlasts(s.roles, c) && c.request.handover in s.files && s.files[c.request.handover].row.status == Requested
  {
    hide TakeOver, ChosenRole, TasksFit, LogFits, EvidenceFits;
    RoleChosen(s.roles, c.actor.person, c.begin);
    if ChosenRole(s.roles, c.actor.person, c.begin).Some? && c.request.handover in s.files {
      TakeOverSucceedsIff(s, c, s.files[c.request.handover], ChosenRole(s.roles, c.actor.person, c.begin).value, Owned);
    }
  }

  /** A new recovery succeeds exactly for a handover whose owner's last task has run out unfinished, by a person whose role
      outlasts the transaction. */
  lemma RecoverySucceedsIff(s: Desk, c: Call)
    requires Inv(s) && c.request.Recover? && c.actor.active && Fresh(s, c)
    ensures Perform(s, c).outcome.Success? <==>
              && RoleOutlasts(s.roles, c)
              && c.request.handover in s.files && Unfinished(s.files[c.request.handover].row.status)
              && s.files[c.request.handover].tasks[|s.files[c.request.handover].tasks| - 1].until <= c.begin
  {
    hide TakeOver, ChosenRole, LogFits, CaseFits, EvidenceFits, Recoverable;
    RoleChosen(s.roles, c.actor.person, c.begin);
    if c.request.handover in s.files {
      LatestExpiredMeansNoneCurrent(s, c.request.handover, c.begin);
      if ChosenRole(s.roles, c.actor.person, c.begin).Some? {
        TakeOverSucceedsIff(s, c, s.files[c.request.handover], ChosenRole(s.roles, c.actor.person, c.begin).value,
                            s.files[c.request.handover].row.status);
      }
    }
  }

  /** The query's clauses come down to the last task having ended on an unfinished handover. */
  lemma ListedMeans(s: Desk, h: HandoverId, person: PersonId, now: Time)
    requires Inv(s) && h in s.files && Supervises(s.roles, person, now)
    ensures Listed(s, h, person, now) <==>
              Unfinished(s.files[h].row.status) && s.files[h].tasks[|s.files[h].tasks| - 1].until <= now
  {
    hide LogFits, EvidenceFits;
    var tasks := s.files[h].tasks;
    if tasks != [] {
      LatestIsLast(tasks, s.roles);
      assert EndsLast(tasks, |tasks| - 1);
    }
  }

  /** For a supervisor the queue lists exactly what the recover command would accept from that supervisor at that instant. */
  lemma QueueMeansRecoverable(s: Desk, h: HandoverId, evidence: string, person: PersonId, key: Key, now: Time)
    requires Inv(s) && Supervises(s.roles, person, now)
    requires Fresh(s, Call(Actor(person, true), Recover(h, evidence), key, now, now))
    ensures Listed(s, h, person, now) <==>
              Perform(s, Call(Actor(person, true), Recover(h, evidence), key, now, now)).outcome.Success?
  {
    hide Inv, Listed, Perform, ChosenRole;
    RecoverySucceedsIff(s, Call(Actor(person, true), Recover(h, evidence), key, now, now));
    RoleChosen(s.roles, person, now);
    if h in s.files { ListedMeans(s, h, person, now); } else { NotListed(s, h, person, now); }
  }

  lemma NotListed(s: Desk, h: HandoverId, person: PersonId, now: Time)
    requires h !in s.files
    ensures !Listed(s, h, person, now)
  {
  }

  datatype NextAction = RecordReplacementAssignment | RecordPassengerTransfer | ConfirmStop | CompleteHandover

  /** permittedNextActions of the handover view. */
  function Permitted(status: HandoverStatus): set<NextAction> {
    match status
    case Owned => {RecordReplacementAssignment, ConfirmStop}
    case ReplacementAssigned => {RecordPassengerTransfer, ConfirmStop}
    case PassengerTransferred => {CompleteHandover}
    case SafeStopConfirmed => {CompleteHandover}
    case _ => {}
  }

  /** What a command asks of the hold's reason and of the rows of other services. */
  predicate WorldReady(f: File, fleet: Fleet, r: Request) {
    match r
    case ConfirmSafeStop(_, _) => true
    case RecordReplacement(_, a, _) => ReplacementReady(f, fleet, a)
    case RecordTransfer(_, _) => TransferReady(f, fleet)
    case Complete(_, _) => CompletionReady(f, fleet)
    case _ => false
  }

  function ActionOf(r: Request): Option<NextAction> {
    match r
    case ConfirmSafeStop(_, _) => Some(ConfirmStop)
    case RecordReplacement(_, _, _) => Some(RecordReplacementAssignment)
    case RecordTransfer(_, _) => Some(RecordPassengerTransfer)
    case Complete(_, _) => Some(CompleteHandover)
    case _ => None
  }

  /** With the hold's reason and the rows of other services as a command needs them, the holder of the current task is accepted
      exactly for the actions the handover view permits: the hold and the support case never stand in the way. */
  lemma PermittedMeansAccepted(s: Desk, c: Call)
    requires Inv(s) && c.request.handover in s.files && c.actor.active && Fresh(s, c) && ActionOf(c.request).Some?
    requires CurrentTask(s.files[c.request.handover], s.roles, c.actor.person, c.begin).Some?
    requires WorldReady(s.files[c.request.handover], s.fleet, c.request)
    ensures Perform(s, c).outcome.Success? <==> ActionOf(c.request).value in Permitted(s.files[c.request.handover].row.status)
  {
    hide TasksFit, LogFits, EvidenceFits, Recorded, CurrentTask;
  }

  /** Right after a recovery the new owner holds the current task, and the view offers the next actions of the unchanged status. */
  lemma RecoveryHandsOver(s: Desk, c: Call, t: Time)
    requires Inv(s) && c.request.Recover? && c.begin <= c.clock && Fresh(s, c) && Perform(s, c).outcome.Success?
    requires var tasks := Perform(s, c).desk.files[c.request.handover].tasks; tasks != [] ==> c.clock <= t < tasks[|tasks| - 1].until
    ensures var f := Perform(s, c).desk.files[c.request.handover];
            && f.row.status == s.files[c.request.handover].row.status
            && f.row.owner == Some(c.actor.person)
            && CurrentTask(f, s.roles, c.actor.person, t) == Some(|f.tasks| - 1)
            && Permitted(f.row.status) != {}
  {
    hide Inv, ChosenRole, Admits;
    CommandKeeps(s, c);
    RoleChosen(s.roles, c.actor.person, c.begin);
    NewTaskCurrent(Perform(s, c).desk, c.request.handover, t);
  }

  lemma NewTaskCurrent(s: Desk, h: HandoverId, t: Time)
    requires Inv(s) && h in s.files && s.files[h].tasks != []
    requires TaskCurrent(s.files[h].tasks[|s.files[h].tasks| - 1], t)
    ensures CurrentTask(s.files[h], s.roles, s.files[h].tasks[|s.files[h].tasks| - 1].operator, t) == Some(|s.files[h].tasks| - 1)
  {
    hide LogFits, CaseFits, EvidenceFits;
    assert TaskFits(s.files[h].tasks[|s.files[h].tasks| - 1], s.roles);
  }

  // ---------------------------------------------------------------- the database guard

  /** The update trigger on the handover row. */
  predicate GuardAllows(was: Handover, now: Handover) {
    && was.journey == now.journey && was.assignment == now.assignment && was.driver == now.driver
    && now.version == was.version + 1 && now.updatedAt > was.updatedAt
    && (was.transferEvidence.Some? ==> now.transferEvidence == was.transferEvidence)
    && (was.safeStopEvidence.Some? ==> now.safeStopEvidence == was.safeStopEvidence)
    && was.status != HandedOver && Edge(was.status, now.status)
  }

  /** The trigger refuses every recovery the service would make, and of the other commands exactly
      those not written later than the row's last update. */
  lemma GuardRefusesRecovery(s: Desk, c: Call)
    requires Inv(s) && Fresh(s, c) && Perform(s, c).outcome.Success?
    ensures GuardAllows(s.files[c.request.handover].row, Perform(s, c).desk.files[c.request.handover].row) <==>
              !c.request.Recover? && c.clock > s.files[c.request.handover].row.updatedAt
  {
    hide TasksFit, LogFits, CaseFits, ChosenRole, CurrentTask;
  }

  // ---------------------------------------------------------------- the hold's reason

  /** The statuses a handover can be in while its hold carries any reason but DRIVER_FATIGUE_SAFETY. */
  ghost predicate ReasonFits(s: Desk) {
    forall h :: h in s.files && s.files[h].hold.reason != FatigueSafety ==> s.files[h].row.status in {Requested, Owned, SafeStopConfirmed}
  }

  lemma {:induction false} ReasonOverRuns(s: Desk, events: seq<Event>)
    requires ReasonFits(s)
    ensures ReasonFits(Run(s, events))
    decreases |events|
  {
    if events != [] {
      ReasonOverRuns(s, events[..|events| - 1]);
      ReasonStep(Run(s, events[..|events| - 1]), events[|events| - 1]);
    }
  }

  lemma ReasonStep(s: Desk, e: Event)
    requires ReasonFits(s)
    ensures ReasonFits(Apply(s, e))
  {
    hide ChosenRole, CurrentTask;
  }

  /** Reported the way the driver service reports it, no handover is ever replaced, transferred or completed. */
  lemma ReportedHandoversNeverFinish(events: seq<Event>, h: HandoverId)
    requires forall i :: 0 <= i < |events| && events[i].Report? ==> events[i].reason == FatigueReported
    requires h in Run(EMPTY, events).files
    ensures Run(EMPTY, events).files[h].row.status in {Requested, Owned, SafeStopConfirmed}
    ensures Run(EMPTY, events).files[h].hold.active
  {
    hide Run, Inv;
    ReasonsReported(events);
    ReasonOverRuns(EMPTY, events);
    HandoverLife(events, h);
  }

  lemma {:induction false} ReasonsReported(events: seq<Event>)
    requires forall i :: 0 <= i < |events| && events[i].Report? ==> events[i].reason == FatigueReported
    ensures forall h :: h in Run(EMPTY, events).files ==> Run(EMPTY, events).files[h].hold.reason == FatigueReported
    decreases |events|
  {
    hide ChosenRole, CurrentTask, Admits, Recoverable, Claimable;
    if events != [] { ReasonsReported(events[..|events| - 1]); }
  }

  // ---------------------------------------------------------------- the four commands of a current task

  /** The person holds a task on the handover that is current, under a role of their own that is still valid. */
  predicate OnTask(f: File, roles: seq<Role>, person: PersonId, t: Time) {
    exists i :: 0 <= i < |f.tasks| && f.tasks[i].operator == person && f.tasks[i].from <= t && t < f.tasks[i].until
                && f.tasks[i].role < |roles| && roles[f.tasks[i].role].operator == person
                && roles[f.tasks[i].role].from <= t && t < roles[f.tasks[i].role].until
  }

  lemma OnTaskMeans(f: File, roles: seq<Role>, person: PersonId, t: Time)
    ensures CurrentTask(f, roles, person, t).Some? <==> OnTask(f, roles, person, t)
  {
    var current := CurrentTaskBelow(f, roles, person, t, |f.tasks|);
    if current.Some? { assert Authorises(f.tasks[current.value], roles, person, t); }
    forall i | 0 <= i < |f.tasks| && OnTask(f, roles, person, t) && current.None? ensures !Authorises(f.tasks[i], roles, person, t) {}
  }

  /** The original assignment was ended before its time and its leg was broken off. */
  predicate BrokenOff(row: Handover, fleet: Fleet) {
    && row.assignment in fleet.assignments && fleet.assignments[row.assignment].status !in {Active, AssignmentCompleted}
    && row.assignment in fleet.legs && fleet.legs[row.assignment].status !in {LegPlanned, LegInProgress, LegCompleted}
  }

  /** The journey goes on with assignment `a`. */
  predicate GoesOnWith(row: Handover, fleet: Fleet, a: AssignmentId) {
    && row.journey in fleet.running && fleet.running[row.journey] == a && a in fleet.legs && fleet.legs[a].journey == row.journey
    && a in fleet.assignments && fleet.assignments[a].status == Active
  }

  lemma BrokenOffMeans(row: Handover, fleet: Fleet)
    ensures OriginalInterrupted(row, fleet) <==> BrokenOff(row, fleet)
  {
    if row.assignment in fleet.assignments { EndedStatuses(fleet.assignments[row.assignment].status); }
    if row.assignment in fleet.legs { LegStatuses(fleet.legs[row.assignment].status); }
  }

  lemma EndedStatuses(status: AssignmentStatus)
    ensures status in {AssignmentCancelled, Reassigned} <==> status !in {Active, AssignmentCompleted}
  {
    match status case Active => case AssignmentCancelled => case AssignmentCompleted => case Reassigned =>
  }

  lemma LegStatuses(status: LegStatus)
    ensures status == LegInterrupted <==> status !in {LegPlanned, LegInProgress, LegCompleted}
    ensures status in {LegPlanned, LegInProgress} <==> status !in {LegInterrupted, LegCompleted}
  {
    match status case LegPlanned => case LegInProgress => case LegInterrupted => case LegCompleted =>
  }

  lemma GoesOnMeans(row: Handover, fleet: Fleet, a: AssignmentId)
    ensures RunsOn(row, fleet, a) <==> GoesOnWith(row, fleet, a)
  {
  }

  /** What the command needs of the handover, its hold and the rows of other services. */
  predicate Provides(f: File, fleet: Fleet, r: Request) {
    match r
    case Claim(_) => false
    case Recover(_, _) => false
    case ConfirmSafeStop(_, _) => f.row.status in {Owned, ReplacementAssigned}
    case RecordReplacement(_, a, _) =>
      && f.row.status == Owned && f.hold.reason == FatigueSafety && BrokenOff(f.row, fleet) && GoesOnWith(f.row, fleet, a)
      && a != f.row.assignment && fleet.assignments[a].booking == fleet.assignments[f.row.assignment].booking
      && fleet.assignments[a].driver != f.row.driver && fleet.legs[a].status in {LegPlanned, LegInProgress}
    case RecordTransfer(_, _) =>
      && f.row.status == ReplacementAssigned && f.hold.reason == FatigueSafety && BrokenOff(f.row, fleet)
      && f.row.replacement.Some? && GoesOnWith(f.row, fleet, f.row.replacement.value)
      && fleet.legs[f.row.replacement.value].status == LegInProgress
    case Complete(_, _) =>
      && f.row.status in {PassengerTransferred, SafeStopConfirmed} && f.hold.reason == FatigueSafety
      && f.row.assignment in fleet.assignments && fleet.assignments[f.row.assignment].status != Active
      && f.row.assignment in fleet.legs && fleet.legs[f.row.assignment].status !in {LegPlanned, LegInProgress}
  }

  lemma ProvidesMeans(f: File, fleet: Fleet, r: Request)
    requires CaseFits(f)
    ensures Admits(f, fleet, r) <==> Provides(f, fleet, r)
  {
    hide OriginalInterrupted, BrokenOff, GoesOnWith, RunsOn;
    BrokenOffMeans(f.row, fleet);
    if r.RecordReplacement? { GoesOnMeans(f.row, fleet, r.assignment); RunsOnRows(f.row, fleet, r.assignment); }
    if f.row.replacement.Some? { GoesOnMeans(f.row, fleet, f.row.replacement.value); RunsOnRows(f.row, fleet, f.row.replacement.value); }
    BrokenOffRows(f.row, fleet);
    if r.RecordReplacement? && r.assignment in fleet.legs { LegStatuses(fleet.legs[r.assignment].status); }
    if f.row.assignment in fleet.legs { LegStatuses(fleet.legs[f.row.assignment].status); }
  }

  lemma RunsOnRows(row: Handover, fleet: Fleet, a: AssignmentId)
    ensures GoesOnWith(row, fleet, a) ==> a in fleet.assignments && a in fleet.legs
  {
  }

  lemma BrokenOffRows(row: Handover, fleet: Fleet)
    ensures BrokenOff(row, fleet) ==> row.assignment in fleet.assignments && row.assignment in fleet.legs
  {
  }

  /** Safe stop, replacement, transfer and completion succeed under a new key exactly for an active account holding a current task, on a
      handover and in a fleet that provide what the command needs. */
  lemma ProgressSucceedsIff(s: Desk, c: Call)
    requires Inv(s) && Fresh(s, c) && !c.request.Claim? && !c.request.Recover?
    ensures Perform(s, c).outcome.Success? <==>
              && c.actor.active && c.request.handover in s.files
              && OnTask(s.files[c.request.handover], s.roles, c.actor.person, c.begin)
              && Provides(s.files[c.request.handover], s.fleet, c.request)
    ensures !c.actor.active ==> Perform(s, c).outcome == Failure(Forbidden)
    ensures c.actor.active && Perform(s, c).outcome.Failure? ==> Perform(s, c).outcome == Failure(Conflict)
  {
    hide TasksFit, LogFits, EvidenceFits, CurrentTask, OnTask, Admits, Provides, Recorded;
    if c.request.handover in s.files {
      OnTaskMeans(s.files[c.request.handover], s.roles, c.actor.person, c.begin);
      ProvidesMeans(s.files[c.request.handover], s.fleet, c.request);
    }
  }

  function StatusAfter(r: Request, before: HandoverStatus): HandoverStatus {
    match r
    case Claim(_) => Owned
    case Recover(_, _) => before
    case ConfirmSafeStop(_, _) => SafeStopConfirmed
    case RecordReplacement(_, _, _) => ReplacementAssigned
    case RecordTransfer(_, _) => PassengerTransferred
    case Complete(_, _) => HandedOver
  }

  /** What every successful command leaves of the handover: the new status, the next version, one log row at the clock, the evidence the
      command is for and no other, hold and case closed by a completion only; other handovers, roles and the fleet are untouched. */
  lemma CommandLeaves(s: Desk, c: Call)
    requires Fresh(s, c) && Perform(s, c).outcome.Success?
    ensures c.request.handover in s.files && c.request.handover in Perform(s, c).desk.files
    ensures var before := s.files[c.request.handover];
            var after := Perform(s, c).desk.files[c.request.handover];
            var r := c.request;
            && after.row.status == StatusAfter(r, before.row.status)
            && after.row.version == before.row.version + 1 && after.row.updatedAt == c.clock
            && after.log == before.log + [Move(Some(before.row.status), after.row.status, c.clock)]
            && after.row.journey == before.row.journey && after.row.assignment == before.row.assignment && after.row.driver == before.row.driver
            && after.row.owner == (if r.Claim? || r.Recover? then Some(c.actor.person) else before.row.owner)
            && after.row.replacement == (if r.RecordReplacement? then Some(r.assignment) else before.row.replacement)
            && after.row.transferEvidence == (if r.RecordTransfer? then Some(r.evidence) else before.row.transferEvidence)
            && after.row.safeStopEvidence == (if r.ConfirmSafeStop? then Some(r.evidence) else before.row.safeStopEvidence)
            && after.row.completedAt == (if r.Complete? then Some(c.clock) else before.row.completedAt)
            && after.hold.reason == before.hold.reason && (after.hold.active <==> before.hold.active && !r.Complete?)
            && after.support == (if r.Claim? || r.Recover? then InProgress else if r.Complete? then Resolved else before.support)
            && (!r.Claim? && !r.Recover? ==> after.tasks == before.tasks)
    ensures Perform(s, c).desk == s.(files := s.files[c.request.handover := Perform(s, c).desk.files[c.request.handover]],
                                     dedup := Perform(s, c).desk.dedup)
  {
    hide ChosenRole, CurrentTask, Recoverable, Claimable, OriginalInterrupted, RunsOn, ReplacementReady, TransferReady, CompletionReady;
  }

  /** What it answers, and remembers under its key. */
  lemma CommandAnswers(s: Desk, c: Call)
    requires Fresh(s, c) && Perform(s, c).outcome.Success?
    ensures c.request.handover in Perform(s, c).desk.files
    ensures var after := Perform(s, c).desk.files[c.request.handover];
            var reply := Perform(s, c).outcome.value;
            && reply.handover == c.request.handover && reply.status == after.row.status && reply.version == after.row.version && reply.at == c.clock
            && Perform(s, c).desk.dedup == s.dedup[DedupKey(KindOf(c.request), c.actor.person, c.key) := Answered(c.request, reply)]
  {
    hide ChosenRole, CurrentTask, Recoverable, Claimable, OriginalInterrupted, RunsOn, ReplacementReady, TransferReady, CompletionReady;
  }

  /** Claims and recoveries are refused to inactive accounts and to people without a current role, and otherwise say what is missing. */
  lemma TakingRefused(s: Desk, c: Call)
    requires Fresh(s, c) && (c.request.Claim? || c.request.Recover?) && Perform(s, c).outcome.Failure?
    ensures Perform(s, c).outcome == Failure(Forbidden) <==>
              !c.actor.active || forall i :: 0 <= i < |s.roles| ==>
                                   !(s.roles[i].operator == c.actor.person && s.roles[i].from <= c.begin && c.begin < s.roles[i].until)
    ensures Perform(s, c).outcome == Failure(NotFound) ==> c.request.Claim?
    ensures Perform(s, c).outcome != Failure(KeyReused)
  {
    hide ChosenRole, Recoverable, Claimable;
    RoleChosen(s.roles, c.actor.person, c.begin);
  }

  /** Two kinds of command never share a key. */
  lemma KindsApart(a: Request, b: Request)
    ensures KindOf(a) == KindOf(b) <==>
              || (a.Claim? && b.Claim?) || (a.Recover? && b.Recover?) || (a.ConfirmSafeStop? && b.ConfirmSafeStop?)
              || (a.RecordReplacement? && b.RecordReplacement?) || (a.RecordTransfer? && b.RecordTransfer?) || (a.Complete? && b.Complete?)
  {
  }
}
