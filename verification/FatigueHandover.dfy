/**
 The control-room handover of a journey whose driver reported fatigue: six commands on a handover,
 its support case, its safety hold and a growing list of time-bounded tasks.
 */
module FatigueHandover {
  import opened Prelude
  import opened DriverDomain

  type HandoverId = nat
  type RoleIndex = nat
  type TaskIndex = nat

  const FOUR_HOURS: Time := 4 * 60 * 60 * 1_000

  datatype RoleCode = HandoverOperator | SafetySupervisor

  datatype Role = Role(operator: PersonId, code: RoleCode, from: Time, until: Time)

  datatype Task = Task(operator: PersonId, role: RoleIndex, from: Time, until: Time)

  datatype HandoverStatus = Requested | Owned | ReplacementAssigned | PassengerTransferred | SafeStopConfirmed | HandedOver

  datatype CaseStatus = EscalationRequired | InProgress | Resolved

  datatype HoldReason = FatigueReported | FatigueSafety | OtherHold

  datatype Hold = Hold(active: bool, reason: HoldReason)

  datatype Handover = Handover(
    journey: JourneyId, assignment: AssignmentId, driver: DriverId,
    status: HandoverStatus, version: nat, owner: Option<PersonId>, replacement: Option<AssignmentId>,
    transferEvidence: Option<string>, safeStopEvidence: Option<string>, completedAt: Option<Time>, updatedAt: Time)

  datatype Move = Move(from: Option<HandoverStatus>, to: HandoverStatus, at: Time)

  /** A handover with the rows that belong to it alone: its hold, its support case, its tasks and its transition log. */
  datatype File = File(row: Handover, hold: Hold, support: CaseStatus, tasks: seq<Task>, log: seq<Move>)

  datatype LegStatus = LegPlanned | LegInProgress | LegInterrupted | LegCompleted

  datatype AssignmentRow = AssignmentRow(booking: BookingId, driver: DriverId, status: AssignmentStatus)

  datatype Leg = Leg(journey: JourneyId, status: LegStatus)

  /** What dispatch and the journey services say about assignments, their legs and the assignment each journey runs on. */
  datatype Fleet = Fleet(assignments: map<AssignmentId, AssignmentRow>, legs: map<AssignmentId, Leg>,
                         running: map<JourneyId, AssignmentId>)

  datatype Request =
    | Claim(handover: HandoverId)
    | Recover(handover: HandoverId, evidence: string)
    | ConfirmSafeStop(handover: HandoverId, evidence: string)
    | RecordReplacement(handover: HandoverId, assignment: AssignmentId, evidence: string)
    | RecordTransfer(handover: HandoverId, evidence: string)
    | Complete(handover: HandoverId, evidence: string)

  datatype CommandKind = ClaimKind | RecoverKind | SafeStopKind | ReplacementKind | TransferKind | CompleteKind

  function KindOf(r: Request): CommandKind {
    match r
    case Claim(_) => ClaimKind
    case Recover(_, _) => RecoverKind
    case ConfirmSafeStop(_, _) => SafeStopKind
    case RecordReplacement(_, _, _) => ReplacementKind
    case RecordTransfer(_, _) => TransferKind
    case Complete(_, _) => CompleteKind
  }

  datatype Reply = Reply(handover: HandoverId, task: TaskIndex, status: HandoverStatus, version: nat, at: Time)

  datatype Refusal = Forbidden | NotFound | Conflict | KeyReused

  datatype DedupKey = DedupKey(kind: CommandKind, operator: PersonId, key: Key)

  /** The request itself stands for its fingerprint. */
  datatype Answered = Answered(request: Request, reply: Reply)

  datatype Desk = Desk(files: map<HandoverId, File>, roles: seq<Role>, fleet: Fleet, dedup: map<DedupKey, Answered>)

  const EMPTY: Desk := Desk(map[], [], Fleet(map[], map[], map[]), map[])

  datatype Actor = Actor(person: PersonId, active: bool)

  /** `begin` is the transaction's now(), `clock` the later clock_timestamp() it writes. */
  datatype Call = Call(actor: Actor, request: Request, key: Key, begin: Time, clock: Time)

  datatype Step = Step(desk: Desk, outcome: Result<Reply, Refusal>)

  // ---------------------------------------------------------------- authority

  predicate RoleCurrent(role: Role, person: PersonId, t: Time) {
    role.operator == person && role.from <= t < role.until
  }

  /** ORDER BY role_code, valid_until. */
  predicate RoleBefore(a: Role, b: Role) {
    if a.code == b.code then a.until < b.until else a.code == HandoverOperator
  }

  function ChosenRoleBelow(roles: seq<Role>, person: PersonId, t: Time, n: nat): (r: Option<RoleIndex>)
    requires n <= |roles|
    ensures r.Some? ==> r.value < n && RoleCurrent(roles[r.value], person, t)
    ensures r.Some? ==> forall i :: 0 <= i < n && RoleCurrent(roles[i], person, t) ==> !RoleBefore(roles[i], roles[r.value])
    ensures r.None? ==> forall i :: 0 <= i < n ==> !RoleCurrent(roles[i], person, t)
  {
    if n == 0 then None
    else
      var best := ChosenRoleBelow(roles, person, t, n - 1);
      if RoleCurrent(roles[n - 1], person, t) && (best.None? || RoleBefore(roles[n - 1], roles[best.value])) then Some(n - 1) else best
  }

  /** The role a claim or a recovery is made under, if the person has a current one. */
  function ChosenRole(roles: seq<Role>, person: PersonId, t: Time): Option<RoleIndex> {
    ChosenRoleBelow(roles, person, t, |roles|)
  }

  function TaskExpiry(role: Role, at: Time): Time {
    if role.until <= at + FOUR_HOURS then role.until else at + FOUR_HOURS
  }

  predicate TaskCurrent(task: Task, t: Time) {
    task.from <= t < task.until
  }

  predicate Authorises(task: Task, roles: seq<Role>, person: PersonId, t: Time) {
    && task.operator == person && TaskCurrent(task, t)
    && task.role < |roles| && RoleCurrent(roles[task.role], person, t)
  }

  function CurrentTaskBelow(f: File, roles: seq<Role>, person: PersonId, t: Time, n: nat): (r: Option<TaskIndex>)
    requires n <= |f.tasks|
    ensures r.Some? ==> r.value < n && Authorises(f.tasks[r.value], roles, person, t)
    ensures r.None? ==> forall i :: 0 <= i < n ==> !Authorises(f.tasks[i], roles, person, t)
  {
    if n == 0 then None
    else if Authorises(f.tasks[n - 1], roles, person, t) then Some(n - 1)
    else CurrentTaskBelow(f, roles, person, t, n - 1)
  }

  /** The task scope under which the person may act on the handover at `t`. */
  function CurrentTask(f: File, roles: seq<Role>, person: PersonId, t: Time): Option<TaskIndex> {
    CurrentTaskBelow(f, roles, person, t, |f.tasks|)
  }

  function LatestTaskBelow(tasks: seq<Task>, n: nat): (r: TaskIndex)
    requires 0 < n <= |tasks|
    ensures r < n && forall i :: 0 <= i < n ==> tasks[i].until <= tasks[r].until
  {
    if n == 1 then 0
    else
      var best := LatestTaskBelow(tasks, n - 1);
      if tasks[best].until <= tasks[n - 1].until then n - 1 else best
  }

  /** The scope with the latest expiry. */
  function LatestTask(tasks: seq<Task>): (r: TaskIndex)
    requires tasks != []
    ensures r < |tasks| && forall i :: 0 <= i < |tasks| ==> tasks[i].until <= tasks[r].until
  {
    LatestTaskBelow(tasks, |tasks|)
  }

  // ---------------------------------------------------------------- what each command asks of the handover

  predicate Unfinished(status: HandoverStatus) {
    status in {Owned, ReplacementAssigned, PassengerTransferred, SafeStopConfirmed}
  }

  predicate Running(f: File) {
    f.support == InProgress && f.hold.active
  }

  /** Claim: a requested handover whose case awaits a human. */
  predicate Claimable(f: File) {
    f.row.status == Requested && f.support == EscalationRequired && f.hold.active
  }

  /** Recover: an owned, unfinished handover whose latest task has expired and that has no current task. */
  predicate Recoverable(f: File, begin: Time) {
    && Unfinished(f.row.status) && Running(f) && f.tasks != []
    && f.tasks[LatestTask(f.tasks)].until <= begin
    && !exists i :: 0 <= i < |f.tasks| && TaskCurrent(f.tasks[i], begin)
  }

  predicate MayStop(f: File) {
    f.row.status in {Owned, ReplacementAssigned} && Running(f)
  }

  /** The original assignment has ended early and its leg was interrupted. */
  predicate OriginalInterrupted(row: Handover, fleet: Fleet) {
    && row.assignment in fleet.assignments && fleet.assignments[row.assignment].status in {AssignmentCancelled, Reassigned}
    && row.assignment in fleet.legs && fleet.legs[row.assignment].status == LegInterrupted
  }

  /** The journey runs on `a`, which is ACTIVE and has a leg of that journey. */
  predicate RunsOn(row: Handover, fleet: Fleet, a: AssignmentId) {
    && a in fleet.assignments && fleet.assignments[a].status == Active
    && row.journey in fleet.running && fleet.running[row.journey] == a
    && a in fleet.legs && fleet.legs[a].journey == row.journey
  }

  /** What a replacement asks of the hold's reason, the assignments and the legs. */
  predicate ReplacementReady(f: File, fleet: Fleet, a: AssignmentId) {
    && f.hold.reason == FatigueSafety
    && OriginalInterrupted(f.row, fleet) && RunsOn(f.row, fleet, a)
    && a != f.row.assignment && fleet.assignments[a].booking == fleet.assignments[f.row.assignment].booking
    && fleet.assignments[a].driver != f.row.driver
    && fleet.legs[a].status !in {LegInterrupted, LegCompleted}
  }

  predicate MayReplace(f: File, fleet: Fleet, a: AssignmentId) {
    f.row.status == Owned && Running(f) && ReplacementReady(f, fleet, a)
  }

  predicate TransferReady(f: File, fleet: Fleet) {
    && f.hold.reason == FatigueSafety && OriginalInterrupted(f.row, fleet)
    && f.row.replacement.Some? && RunsOn(f.row, fleet, f.row.replacement.value)
    && fleet.legs[f.row.replacement.value].status == LegInProgress
  }

  predicate MayTransfer(f: File, fleet: Fleet) {
    f.row.status == ReplacementAssigned && Running(f) && TransferReady(f, fleet)
  }

  predicate CompletionReady(f: File, fleet: Fleet) {
    && f.hold.reason == FatigueSafety
    && f.row.assignment in fleet.assignments && fleet.assignments[f.row.assignment].status != Active
    && f.row.assignment in fleet.legs && fleet.legs[f.row.assignment].status in {LegInterrupted, LegCompleted}
  }

  predicate MayComplete(f: File, fleet: Fleet) {
    f.row.status in {PassengerTransferred, SafeStopConfirmed} && Running(f) && CompletionReady(f, fleet)
  }

  /** Whether a command by the holder of the current task finds the row it asks for. */
  predicate Admits(f: File, fleet: Fleet, r: Request) {
    match r
    case ConfirmSafeStop(_, _) => MayStop(f)
    case RecordReplacement(_, a, _) => MayReplace(f, fleet, a)
    case RecordTransfer(_, _) => MayTransfer(f, fleet)
    case Complete(_, _) => MayComplete(f, fleet)
    case _ => false
  }

  // ---------------------------------------------------------------- what each command writes

  function Bumped(row: Handover, status: HandoverStatus, at: Time): Handover {
    row.(status := status, version := row.version + 1, updatedAt := at)
  }

  function Logged(f: File, to: HandoverStatus, at: Time): seq<Move> {
    f.log + [Move(Some(f.row.status), to, at)]
  }

  /** A claim or a recovery: a new task, and the handover in its operator's name. */
  function Taken(f: File, person: PersonId, role: RoleIndex, until: Time, status: HandoverStatus, at: Time): File {
    f.(row := Bumped(f.row, status, at).(owner := Some(person)),
       support := InProgress,
       tasks := f.tasks + [Task(person, role, at, until)],
       log := Logged(f, status, at))
  }

  function Recorded(f: File, r: Request, at: Time): File {
    match r
    case ConfirmSafeStop(_, e) =>
      f.(row := Bumped(f.row, SafeStopConfirmed, at).(safeStopEvidence := Some(e)), log := Logged(f, SafeStopConfirmed, at))
    case RecordReplacement(_, a, _) =>
      f.(row := Bumped(f.row, ReplacementAssigned, at).(replacement := Some(a)), log := Logged(f, ReplacementAssigned, at))
    case RecordTransfer(_, e) =>
      f.(row := Bumped(f.row, PassengerTransferred, at).(transferEvidence := Some(e)), log := Logged(f, PassengerTransferred, at))
    case Complete(_, _) =>
      f.(row := Bumped(f.row, HandedOver, at).(completedAt := Some(at)), log := Logged(f, HandedOver, at),
         hold := f.hold.(active := false), support := Resolved)
    case _ => f
  }

  function Commit(s: Desk, c: Call, f: File, task: TaskIndex): Step {
    var h := c.request.handover;
    var reply := Reply(h, task, f.row.status, f.row.version, c.clock);
    Step(s.(files := s.files[h := f],
            dedup := s.dedup[DedupKey(KindOf(c.request), c.actor.person, c.key) := Answered(c.request, reply)]),
         Success(reply))
  }

  /** A claim or a recovery, once the handover has been found. */
  function TakeOver(s: Desk, c: Call, f: File, role: RoleIndex, status: HandoverStatus): Step
    requires role < |s.roles|
  {
    var until := TaskExpiry(s.roles[role], c.clock);
    if until <= c.clock then Step(s, Failure(Conflict))
    else Commit(s, c, Taken(f, c.actor.person, role, until, status, c.clock), |f.tasks|)
  }

  /** The six commands. */
  function Perform(s: Desk, c: Call): Step {
    var dedupKey := DedupKey(KindOf(c.request), c.actor.person, c.key);
    var h := c.request.handover;
    if !c.actor.active then Step(s, Failure(Forbidden))
    else if dedupKey in s.dedup then
      Step(s, if s.dedup[dedupKey].request == c.request then Success(s.dedup[dedupKey].reply) else Failure(KeyReused))
    else if c.request.Claim? || c.request.Recover? then
      var role := ChosenRole(s.roles, c.actor.person, c.begin);
      if role.None? then Step(s, Failure(Forbidden))
      else if c.request.Claim? then
        if h in s.files && Claimable(s.files[h]) then TakeOver(s, c, s.files[h], role.value, Owned)
        else Step(s, Failure(NotFound))
      else if h in s.files && Recoverable(s.files[h], c.begin) then TakeOver(s, c, s.files[h], role.value, s.files[h].row.status)
      else Step(s, Failure(Conflict))
    else if h !in s.files then Step(s, Failure(Conflict))
    else
      var task := CurrentTask(s.files[h], s.roles, c.actor.person, c.begin);
      if task.Some? && Admits(s.files[h], s.fleet, c.request) then Commit(s, c, Recorded(s.files[h], c.request, c.clock), task.value)
      else Step(s, Failure(Conflict))
  }

  // ---------------------------------------------------------------- the world around the commands

  /** Other services may change statuses and legs and add rows, but never whose assignment a row is. */
  predicate FleetMayBecome(before: Fleet, next: Fleet) {
    forall a :: a in before.assignments ==>
      a in next.assignments && next.assignments[a] == before.assignments[a].(status := next.assignments[a].status)
  }

  datatype Event =
    | Report(handover: HandoverId, journey: JourneyId, assignment: AssignmentId, driver: DriverId, reason: HoldReason, at: Time)
    | Grant(role: Role)
    | FleetMoves(fleet: Fleet)
    | Command(call: Call)

  function NewFile(e: Event): File
    requires e.Report?
  {
    File(Handover(e.journey, e.assignment, e.driver, Requested, 1, None, None, None, None, None, e.at),
         Hold(true, e.reason), EscalationRequired, [], [Move(None, Requested, e.at)])
  }

  function Apply(s: Desk, e: Event): Desk {
    match e
    case Report(h, _, _, _, _, _) => if h in s.files then s else s.(files := s.files[h := NewFile(e)])
    case Grant(role) => s.(roles := s.roles + [role])
    case FleetMoves(fleet) => if FleetMayBecome(s.fleet, fleet) then s.(fleet := fleet) else s
    case Command(c) => if c.begin <= c.clock then Perform(s, c).desk else s
  }

  function Run(s: Desk, events: seq<Event>): Desk
    decreases |events|
  {
    if events == [] then s else Apply(Run(s, events[..|events| - 1]), events[|events| - 1])
  }
}
