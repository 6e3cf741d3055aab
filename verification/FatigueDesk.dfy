/** The six control-room commands as the service runs them, one statement after another. */
module FatigueDesk {
  import opened Prelude
  import opened FatigueHandover
  import opened FatigueInvariants

  class ControlRoom {
    var db: Desk

    constructor ()
      ensures db == EMPTY
    {
      db := EMPTY;
    }

    /** UPDATE driver_fatigue_handover, with the next version and its transition row. */
    method MoveHandover(h: HandoverId, row: Handover)
      requires h in db.files
      modifies this
      ensures db == old(db).(files := old(db.files)[h := old(db).files[h].(
                row := row.(version := old(db).files[h].row.version + 1),
                log := old(db).files[h].log + [Move(Some(old(db).files[h].row.status), row.status, row.updatedAt)])])
    {
      var f := db.files[h];
      db := db.(files := db.files[h := f.(row := row.(version := f.row.version + 1))]);
      db := db.(files := db.files[h := db.files[h].(log := f.log + [Move(Some(f.row.status), row.status, row.updatedAt)])]);
    }

    method Remember(c: Call, reply: Reply)
      modifies this
      ensures db == old(db).(dedup := old(db).dedup[DedupKey(KindOf(c.request), c.actor.person, c.key) := Answered(c.request, reply)])
    {
      db := db.(dedup := db.dedup[DedupKey(KindOf(c.request), c.actor.person, c.key) := Answered(c.request, reply)]);
    }

    /** What every command does before it looks at the handover: None means it goes on. */
    method Replay(c: Call) returns (answer: Option<Result<Reply, Refusal>>)
      ensures answer.Some? ==> Perform(db, c) == Step(db, answer.value)
      ensures answer.None? ==> c.actor.active && DedupKey(KindOf(c.request), c.actor.person, c.key) !in db.dedup
    {
      var dedupKey := DedupKey(KindOf(c.request), c.actor.person, c.key);
      if !c.actor.active { return Some(Failure(Forbidden)); }
      if dedupKey in db.dedup {
        if db.dedup[dedupKey].request != c.request { return Some(Failure(KeyReused)); }
        return Some(Success(db.dedup[dedupKey].reply));
      }
      answer := None;
    }

    /** Inserts the new task and puts the handover in its operator's name; rolled back if the authority has run out meanwhile. */
    method TakeHandover(c: Call, role: RoleIndex, status: HandoverStatus) returns (outcome: Result<Reply, Refusal>)
      requires c.request.handover in db.files && role < |db.roles|
      modifies this
      ensures Step(db, outcome) == TakeOver(old(db), c, old(db).files[c.request.handover], role, status)
    {
      var h := c.request.handover;
      var f := db.files[h];
      var until := TaskExpiry(db.roles[role], c.clock);
      if until <= c.clock { return Failure(Conflict); }
      db := db.(files := db.files[h := f.(tasks := f.tasks + [Task(c.actor.person, role, c.clock, until)])]);
      MoveHandover(h, f.row.(status := status, owner := Some(c.actor.person), updatedAt := c.clock));
      db := db.(files := db.files[h := db.files[h].(support := InProgress)]);
      var reply := Reply(h, |f.tasks|, db.files[h].row.status, db.files[h].row.version, c.clock);
      Remember(c, reply);
      outcome := Success(reply);
    }

    method ClaimHandover(c: Call) returns (outcome: Result<Reply, Refusal>)
      requires c.request.Claim?
      modifies this
      ensures Step(db, outcome) == Perform(old(db), c)
    {
      hide ChosenRole, TakeOver, Claimable;
      var answer := Replay(c);
      if answer.Some? { return answer.value; }
      var role := ChosenRole(db.roles, c.actor.person, c.begin);
      if role.None? { return Failure(Forbidden); }
      if c.request.handover !in db.files || !Claimable(db.files[c.request.handover]) { return Failure(NotFound); }
      RoleChosen(db.roles, c.actor.person, c.begin);
      outcome := TakeHandover(c, role.value, Owned);
    }

    method RecoverOwnership(c: Call) returns (outcome: Result<Reply, Refusal>)
      requires c.request.Recover?
      modifies this
      ensures Step(db, outcome) == Perform(old(db), c)
    {
      hide ChosenRole, TakeOver, Recoverable;
      var answer := Replay(c);
      if answer.Some? { return answer.value; }
      var role := ChosenRole(db.roles, c.actor.person, c.begin);
      if role.None? { return Failure(Forbidden); }
      var h := c.request.handover;
      if h !in db.files || !Recoverable(db.files[h], c.begin) { return Failure(Conflict); }
      RoleChosen(db.roles, c.actor.person, c.begin);
      outcome := TakeHandover(c, role.value, db.files[h].row.status);
    }

    /** Safe stop, replacement, transfer and completion, by the holder of the current task. */
    method RecordProgress(c: Call) returns (outcome: Result<Reply, Refusal>)
      requires !c.request.Claim? && !c.request.Recover?
      modifies this
      ensures Step(db, outcome) == Perform(old(db), c)
    {
      hide CurrentTask, MayStop, MayReplace, MayTransfer, MayComplete;
      var answer := Replay(c);
      if answer.Some? { return answer.value; }
      var h := c.request.handover;
      if h !in db.files { return Failure(Conflict); }
      var f := db.files[h];
      var task := CurrentTask(f, db.roles, c.actor.person, c.begin);
      if task.None? || !Admits(f, db.fleet, c.request) { return Failure(Conflict); }
      var row := f.row.(updatedAt := c.clock);
      match c.request {
        case ConfirmSafeStop(_, evidence) =>
          MoveHandover(h, row.(status := SafeStopConfirmed, safeStopEvidence := Some(evidence)));
        case RecordReplacement(_, a, _) =>
          MoveHandover(h, row.(status := ReplacementAssigned, replacement := Some(a)));
        case RecordTransfer(_, evidence) =>
          MoveHandover(h, row.(status := PassengerTransferred, transferEvidence := Some(evidence)));
        case Complete(_, _) =>
          MoveHandover(h, row.(status := HandedOver, completedAt := Some(c.clock)));
          db := db.(files := db.files[h := db.files[h].(hold := db.files[h].hold.(active := false))]);
          db := db.(files := db.files[h := db.files[h].(support := Resolved)]);
      }
      var reply := Reply(h, task.value, db.files[h].row.status, db.files[h].row.version, c.clock);
      Remember(c, reply);
      outcome := Success(reply);
    }
  }
}
