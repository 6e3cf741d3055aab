/** What every reachable control-room desk satisfies. */
module FatigueInvariants {
  import opened Prelude
  import opened FatigueHandover

  // ---------------------------------------------------------------- tasks

  /** A task lasts four hours, or until the role it was taken under ends if that comes first. */
  predicate TaskFits(t: Task, roles: seq<Role>) {
    && t.role < |roles| && roles[t.role].operator == t.operator && roles[t.role].from <= t.from < t.until
    && t.until == if roles[t.role].until <= t.from + 14_400_000 then roles[t.role].until else t.from + 14_400_000
  }

  /** Each task starts only after every earlier one has ended. */
  predicate Disjoint(tasks: seq<Task>) {
    forall i, j :: 0 <= i < j < |tasks| ==> tasks[i].until <= tasks[j].from
  }

  predicate TasksFit(f: File, roles: seq<Role>) {
    && (forall i :: 0 <= i < |f.tasks| ==> TaskFits(f.tasks[i], roles))
    && Disjoint(f.tasks)
    && (f.row.status == Requested <==> f.tasks == [])
    && f.row.owner == if f.tasks == [] then None else Some(f.tasks[|f.tasks| - 1].operator)
  }

  // ---------------------------------------------------------------- the log

  predicate Edge(from: HandoverStatus, to: HandoverStatus) {
    match from
    case Requested => to == Owned
    case Owned => to in {ReplacementAssigned, SafeStopConfirmed}
    case ReplacementAssigned => to in {PassengerTransferred, SafeStopConfirmed}
    case PassengerTransferred => to == HandedOver
    case SafeStopConfirmed => to == HandedOver
    case HandedOver => false
  }

  function Stage(status: HandoverStatus): nat {
    match status
    case Requested => 0
    case Owned => 1
    case ReplacementAssigned => 2
    case PassengerTransferred => 3
    case SafeStopConfirmed => 3
    case HandedOver => 4
  }

  /** Rows that start at REQUESTED and form a path to `status`, each an edge or, for an ownership recovery, a standing still. */
  predicate IsPath(log: seq<Move>, status: HandoverStatus) {
    && log != [] && log[0].from == None && log[0].to == Requested && log[|log| - 1].to == status
    && forall i :: 0 < i < |log| ==>
         && log[i].from == Some(log[i - 1].to)
         && (Edge(log[i - 1].to, log[i].to) || (log[i].to == log[i - 1].to && Unfinished(log[i].to)))
  }

  /** How many rows of the log changed the status. */
  function StatusChanges(log: seq<Move>): nat {
    if |log| <= 1 then 0
    else StatusChanges(log[..|log| - 1]) + if log[|log| - 1].to != log[|log| - 2].to then 1 else 0
  }

  lemma {:induction false} ChangesBounded(log: seq<Move>, status: HandoverStatus)
    requires IsPath(log, status)
    ensures StatusChanges(log) <= Stage(status) <= 4
    decreases |log|
  {
    if |log| > 1 {
      var shorter := log[..|log| - 1];
      assert forall i :: 0 <= i < |shorter| ==> shorter[i] == log[i];
      ChangesBounded(shorter, log[|log| - 2].to);
    }
  }

  lemma PathExtends(log: seq<Move>, from: HandoverStatus, to: HandoverStatus, at: Time)
    requires IsPath(log, from) && (Edge(from, to) || (from == to && Unfinished(to)))
    ensures IsPath(log + [Move(Some(from), to, at)], to)
  {
    var longer := log + [Move(Some(from), to, at)];
    forall i | 0 < i < |longer|
      ensures longer[i].from == Some(longer[i - 1].to)
      ensures Edge(longer[i - 1].to, longer[i].to) || (longer[i].to == longer[i - 1].to && Unfinished(longer[i].to))
    {
      assert longer[i - 1] == log[i - 1];
      if i < |log| { assert longer[i] == log[i]; }
    }
  }

  predicate LogFits(f: File) {
    IsPath(f.log, f.row.status) && f.row.version == |f.log|
  }

  // ---------------------------------------------------------------- hold, case and evidence

  function CaseStatusFor(status: HandoverStatus): CaseStatus {
    if status == Requested then EscalationRequired else if status == HandedOver then Resolved else InProgress
  }

  predicate CaseFits(f: File) {
    && (f.hold.active <==> f.row.status != HandedOver)
    && f.support == CaseStatusFor(f.row.status)
    && (f.row.completedAt.Some? <==> f.row.status == HandedOver)
  }

  /** The recorded replacement is another driver's assignment of the same booking. */
  predicate ReplacementSound(row: Handover, fleet: Fleet) {
    && row.replacement.Some? && row.replacement.value in fleet.assignments && row.assignment in fleet.assignments
    && row.replacement.value != row.assignment
    && fleet.assignments[row.replacement.value].booking == fleet.assignments[row.assignment].booking
    && fleet.assignments[row.replacement.value].driver != row.driver
  }

  predicate EvidenceFits(row: Handover, fleet: Fleet) {
    && (row.replacement.Some? ==> ReplacementSound(row, fleet))
    && (row.transferEvidence.Some? ==> row.replacement.Some? && row.status in {PassengerTransferred, HandedOver})
    && (row.safeStopEvidence.Some? ==> row.status in {SafeStopConfirmed, HandedOver})
    && (row.status == ReplacementAssigned ==> row.replacement.Some?)
    && (row.status == PassengerTransferred ==> row.transferEvidence.Some?)
    && (row.status == SafeStopConfirmed ==> row.safeStopEvidence.Some?)
    && (row.status == HandedOver ==> row.safeStopEvidence.Some? || row.transferEvidence.Some?)
  }

  predicate FileFits(f: File, roles: seq<Role>, fleet: Fleet) {
    TasksFit(f, roles) && LogFits(f) && CaseFits(f) && EvidenceFits(f.row, fleet)
  }

  ghost predicate Inv(s: Desk) {
    forall h :: h in s.files ==> FileFits(s.files[h], s.roles, s.fleet)
  }

  // ---------------------------------------------------------------- preservation

  lemma LatestIsLast(tasks: seq<Task>, roles: seq<Role>)
    requires tasks != [] && Disjoint(tasks) && forall i :: 0 <= i < |tasks| ==> TaskFits(tasks[i], roles)
    ensures LatestTask(tasks) == |tasks| - 1
    ensures forall i :: 0 <= i < |tasks| ==> tasks[i].until <= tasks[|tasks| - 1].until
  {
    var last := |tasks| - 1;
    forall i | 0 <= i < last ensures tasks[i].until < tasks[last].until {
      assert tasks[i].until <= tasks[last].from < tasks[last].until;
    }
    assert tasks[last].until <= tasks[LatestTask(tasks)].until;
  }

  lemma TaskAdded(f: File, roles: seq<Role>, person: PersonId, role: RoleIndex, begin: Time, at: Time, status: HandoverStatus)
    requires TasksFit(f, roles) && role < |roles| && RoleCurrent(roles[role], person, begin) && begin <= at < TaskExpiry(roles[role], at)
    requires forall i :: 0 <= i < |f.tasks| ==> f.tasks[i].until <= begin
    requires status != Requested
    ensures TasksFit(Taken(f, person, role, TaskExpiry(roles[role], at), status, at), roles)
  {
  }

  lemma ClaimFits(f: File, roles: seq<Role>, fleet: Fleet, person: PersonId, role: RoleIndex, begin: Time, at: Time)
    requires FileFits(f, roles, fleet) && Claimable(f)
    requires role < |roles| && RoleCurrent(roles[role], person, begin) && begin <= at < TaskExpiry(roles[role], at)
    ensures FileFits(Taken(f, person, role, TaskExpiry(roles[role], at), Owned, at), roles, fleet)
  {
    TaskAdded(f, roles, person, role, begin, at, Owned);
    PathExtends(f.log, Requested, Owned, at);
  }

  lemma RecoverFits(f: File, roles: seq<Role>, fleet: Fleet, person: PersonId, role: RoleIndex, begin: Time, at: Time)
    requires FileFits(f, roles, fleet) && Recoverable(f, begin)
    requires role < |roles| && RoleCurrent(roles[role], person, begin) && begin <= at < TaskExpiry(roles[role], at)
    ensures FileFits(Taken(f, person, role, TaskExpiry(roles[role], at), f.row.status, at), roles, fleet)
  {
    LatestIsLast(f.tasks, roles);
    TaskAdded(f, roles, person, role, begin, at, f.row.status);
    PathExtends(f.log, f.row.status, f.row.status, at);
  }

  lemma RecordFits(f: File, roles: seq<Role>, fleet: Fleet, r: Request, at: Time)
    requires FileFits(f, roles, fleet) && Admits(f, fleet, r)
    ensures FileFits(Recorded(f, r, at), roles, fleet)
  {
    PathExtends(f.log, f.row.status, Recorded(f, r, at).row.status, at);
  }

  lemma CommandKeeps(s: Desk, c: Call)
    requires Inv(s) && c.begin <= c.clock
    ensures Inv(Perform(s, c).desk)
  {
    hide FileFits, Recoverable, Claimable, Admits, Recorded, Taken, ChosenRole, CurrentTask;
    var h := c.request.handover;
    var role := ChosenRole(s.roles, c.actor.person, c.begin);
    if h in s.files && Perform(s, c).desk != s {
      var f := s.files[h];
      if c.request.Claim? {
        RoleChosen(s.roles, c.actor.person, c.begin);
        ClaimFits(f, s.roles, s.fleet, c.actor.person, role.value, c.begin, c.clock);
      } else if c.request.Recover? {
        RoleChosen(s.roles, c.actor.person, c.begin);
        RecoverFits(f, s.roles, s.fleet, c.actor.person, role.value, c.begin, c.clock);
      } else {
        RecordFits(f, s.roles, s.fleet, c.request, c.clock);
      }
    }
  }

  lemma RoleChosen(roles: seq<Role>, person: PersonId, t: Time)
    ensures var r := ChosenRole(roles, person, t); r.Some? ==> r.value < |roles| && RoleCurrent(roles[r.value], person, t)
    ensures ChosenRole(roles, person, t).None? <==> forall i :: 0 <= i < |roles| ==> !RoleCurrent(roles[i], person, t)
  {
  }

  lemma GrantKeeps(s: Desk, role: Role)
    requires Inv(s)
    ensures Inv(s.(roles := s.roles + [role]))
  {
    hide LogFits, CaseFits, EvidenceFits, Disjoint;
    forall h | h in s.files ensures FileFits(s.files[h], s.roles + [role], s.fleet) {
      var f := s.files[h];
      forall i | 0 <= i < |f.tasks| ensures TaskFits(f.tasks[i], s.roles + [role]) { assert TaskFits(f.tasks[i], s.roles); }
    }
  }

  lemma FleetKeeps(s: Desk, fleet: Fleet)
    requires Inv(s) && FleetMayBecome(s.fleet, fleet)
    ensures Inv(s.(fleet := fleet))
  {
    hide LogFits, CaseFits, TasksFit;
  }

  lemma ApplyKeeps(s: Desk, e: Event)
    requires Inv(s)
    ensures Inv(Apply(s, e))
  {
    hide Perform;
    match e
    case Report(_, _, _, _, _, _) =>
    case Grant(role) => GrantKeeps(s, role);
    case FleetMoves(fleet) => if FleetMayBecome(s.fleet, fleet) { FleetKeeps(s, fleet); }
    case Command(c) => if c.begin <= c.clock { CommandKeeps(s, c); }
  }

  lemma {:induction false} RunKeeps(s: Desk, events: seq<Event>)
    requires Inv(s)
    ensures Inv(Run(s, events))
    decreases |events|
  {
    hide Inv, Apply;
    if events != [] {
      RunKeeps(s, events[..|events| - 1]);
      ApplyKeeps(Run(s, events[..|events| - 1]), events[|events| - 1]);
    }
  }

  lemma ReachableHolds(events: seq<Event>)
    ensures Inv(Run(EMPTY, events))
  {
    hide Run;
    RunKeeps(EMPTY, events);
  }
}
