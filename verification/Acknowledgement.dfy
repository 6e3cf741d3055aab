/** Acknowledging a communication exactly once. */
module Acknowledgement {
  import opened Prelude

  type CommunicationId = nat
  type AckId = nat
  type ClientId = nat

  datatype CommStatus = Queued | DeliveryPending | Delivered | AckRequired | Acknowledged | FailedDelivery | ExpiredComm | SuppressedComm

  datatype Communication = Communication(recipient: PersonId, ackRequired: bool, status: CommStatus, createdAt: Time)

  datatype Ack = Ack(communication: CommunicationId, recipient: PersonId, client: ClientId, at: Time)

  datatype Request = Request(communication: CommunicationId, client: ClientId, acknowledgedAt: Time)

  datatype Reply = Reply(communication: CommunicationId, ack: AckId, at: Time, repeated: bool)

  datatype Refusal = NotFound | Forbidden | Conflict | KeyReused | ClientIdReused

  /** The stored answer of a command, under its person and key; the request itself stands for its fingerprint. */
  datatype Answered = Answered(request: Request, reply: Reply)

  datatype Box = Box(communications: map<CommunicationId, Communication>, acks: seq<Ack>, dedup: map<(PersonId, Key), Answered>)

  const EMPTY: Box := Box(map[], [], map[])

  datatype Step = Step(box: Box, outcome: Result<Reply, Refusal>)

  predicate Matches(a: Ack, person: PersonId, r: Request) {
    a.recipient == person && (a.client == r.client || a.communication == r.communication)
  }

  /** ORDER BY communication_id = $3 DESC LIMIT 1: a row of this communication if there is one, else some row with the client id. */
  function ExistingBelow(acks: seq<Ack>, person: PersonId, r: Request, n: nat): (e: Option<AckId>)
    requires n <= |acks|
    ensures e.Some? ==> e.value < n && Matches(acks[e.value], person, r)
    ensures e.None? ==> forall i :: 0 <= i < n ==> !Matches(acks[i], person, r)
    ensures e.Some? && acks[e.value].communication != r.communication ==>
              forall i :: 0 <= i < n && Matches(acks[i], person, r) ==> acks[i].communication != r.communication
  {
    if n == 0 then None
    else
      var rest := ExistingBelow(acks, person, r, n - 1);
      if Matches(acks[n - 1], person, r) && (rest.None? || acks[rest.value].communication != r.communication) then Some(n - 1) else rest
  }

  function Existing(acks: seq<Ack>, person: PersonId, r: Request): Option<AckId> {
    ExistingBelow(acks, person, r, |acks|)
  }

  function Acknowledge(s: Box, person: PersonId, r: Request, key: Key, now: Time): Step {
    if (person, key) in s.dedup then
      var stored := s.dedup[(person, key)];
      Step(s, if stored.request != r then Failure(KeyReused) else Success(stored.reply.(repeated := true)))
    else if r.communication !in s.communications then Step(s, Failure(NotFound))
    else
      var c := s.communications[r.communication];
      if c.recipient != person then Step(s, Failure(Forbidden))
      else if !c.ackRequired || c.status != AckRequired then Step(s, Failure(Conflict))
      else if r.acknowledgedAt > now + 30_000 || r.acknowledgedAt < c.createdAt then Step(s, Failure(Conflict))
      else
        var existing := Existing(s.acks, person, r);
        if existing.Some? && s.acks[existing.value].communication != r.communication then Step(s, Failure(ClientIdReused))
        else if existing.Some? then
          var reply := Reply(r.communication, existing.value, s.acks[existing.value].at, true);
          Step(s.(dedup := s.dedup[(person, key) := Answered(r, reply)]), Success(reply))
        else
          var reply := Reply(r.communication, |s.acks|, r.acknowledgedAt, false);
          Step(s.(acks := s.acks + [Ack(r.communication, person, r.client, r.acknowledgedAt)],
                  communications := s.communications[r.communication := c.(status := Acknowledged)],
                  dedup := s.dedup[(person, key) := Answered(r, reply)]),
               Success(reply))
  }

  // ---------------------------------------------------------------- the world around it

  /** Other services may move a communication in any way that neither enters nor leaves ACKNOWLEDGED. */
  predicate OthersMay(from: CommStatus, to: CommStatus) {
    from != Acknowledged && to != Acknowledged
  }

  datatype Event =
    | Requested(communication: CommunicationId, recipient: PersonId, ackRequired: bool, suppressed: bool, at: Time)
    | Moved(communication: CommunicationId, to: CommStatus)
    | Acknowledging(person: PersonId, request: Request, key: Key, now: Time)

  function Apply(s: Box, e: Event): Box {
    match e
    case Requested(c, p, required, suppressed, at) =>
      if c in s.communications then s
      else s.(communications := s.communications[c := Communication(p, required, if suppressed then SuppressedComm else Queued, at)])
    case Moved(c, to) =>
      if c in s.communications && OthersMay(s.communications[c].status, to)
      then s.(communications := s.communications[c := s.communications[c].(status := to)]) else s
    case Acknowledging(p, r, k, now) => Acknowledge(s, p, r, k, now).box
  }

  function Run(s: Box, events: seq<Event>): Box
    decreases |events|
  {
    if events == [] then s else Apply(Run(s, events[..|events| - 1]), events[|events| - 1])
  }

  // ---------------------------------------------------------------- exactly once

  /** Row `i` acknowledges communication `c`. */
  predicate AckOf(acks: seq<Ack>, i: int, c: CommunicationId) {
    0 <= i < |acks| && acks[i].communication == c
  }

  ghost predicate Inv(s: Box) {
    && (forall i :: 0 <= i < |s.acks| ==>
          && s.acks[i].communication in s.communications
          && s.communications[s.acks[i].communication].recipient == s.acks[i].recipient
          && s.communications[s.acks[i].communication].status == Acknowledged)
    && (forall c :: c in s.communications && s.communications[c].status == Acknowledged ==> exists i :: AckOf(s.acks, i, c))
    && (forall i, j, c | AckOf(s.acks, i, c) && AckOf(s.acks, j, c) :: i == j)
    && (forall i, j :: 0 <= i < j < |s.acks| && s.acks[i].recipient == s.acks[j].recipient ==> s.acks[i].client != s.acks[j].client)
  }

  /** When the guards have passed there is never an acknowledgement of the same communication yet. */
  lemma NothingToRepeat(s: Box, person: PersonId, r: Request)
    requires Inv(s) && r.communication in s.communications && s.communications[r.communication].status == AckRequired
    ensures var e := Existing(s.acks, person, r);
            e.Some? ==> s.acks[e.value].communication != r.communication
  {
  }

  lemma AcknowledgeKeeps(s: Box, person: PersonId, r: Request, key: Key, now: Time)
    requires Inv(s)
    ensures Inv(Acknowledge(s, person, r, key, now).box)
  {
    var t := Acknowledge(s, person, r, key, now).box;
    if t.acks != s.acks {
      NothingToRepeat(s, person, r);
      assert AckOf(t.acks, |s.acks|, r.communication);
      forall c | c in t.communications && t.communications[c].status == Acknowledged ensures exists i :: AckOf(t.acks, i, c) {
        if c != r.communication {
          var i :| AckOf(s.acks, i, c);
          assert AckOf(t.acks, i, c);
        }
      }
      forall i, j, c | AckOf(t.acks, i, c) && AckOf(t.acks, j, c) ensures i == j {
        assert i < |s.acks| ==> AckOf(s.acks, i, c);
        assert j < |s.acks| ==> AckOf(s.acks, j, c);
      }
    }
  }

  lemma {:induction false} RunKeeps(s: Box, events: seq<Event>)
    requires Inv(s)
    ensures Inv(Run(s, events))
    decreases |events|
  {
    hide Acknowledge;
    if events != [] {
      RunKeeps(s, events[..|events| - 1]);
      var before, e := Run(s, events[..|events| - 1]), events[|events| - 1];
      if e.Acknowledging? { AcknowledgeKeeps(before, e.person, e.request, e.key, e.now); }
    }
  }

  /** In every run: ACKNOWLEDGED exactly when there is exactly one acknowledgement row, by the recipient,
      and no recipient's client id is used twice. */
  lemma AcknowledgedExactlyOnce(events: seq<Event>, c: CommunicationId)
    ensures var s := Run(EMPTY, events);
            c in s.communications ==>
              && (s.communications[c].status == Acknowledged <==> exists i :: AckOf(s.acks, i, c))
              && (forall i, j | AckOf(s.acks, i, c) && AckOf(s.acks, j, c) :: i == j)
              && (forall i | AckOf(s.acks, i, c) :: s.acks[i].recipient == s.communications[c].recipient)
    ensures var s := Run(EMPTY, events);
            forall i, j :: 0 <= i < j < |s.acks| && s.acks[i].recipient == s.acks[j].recipient ==> s.acks[i].client != s.acks[j].client
  {
    hide Run;
    RunKeeps(EMPTY, events);
  }

  /** A success that is not a replay is always a first acknowledgement: the branch that reuses a row of the same communication
      is never taken, so `repeatedAcknowledgement` is true exactly on replays. */
  lemma RepeatedMeansReplayed(events: seq<Event>, person: PersonId, r: Request, key: Key, now: Time)
    ensures var s := Run(EMPTY, events);
            var step := Acknowledge(s, person, r, key, now);
            step.outcome.Success? ==>
              && (step.outcome.value.repeated <==> (person, key) in s.dedup)
              && (!step.outcome.value.repeated ==> |step.box.acks| == |s.acks| + 1)
              && (step.outcome.value.repeated ==> step.box == s)
  {
    hide Run;
    RunKeeps(EMPTY, events);
    var s := Run(EMPTY, events);
    if r.communication in s.communications && s.communications[r.communication].status == AckRequired { NothingToRepeat(s, person, r); }
  }

  /** With only the service's own requests, which start QUEUED or SUPPRESSED, nothing is ever acknowledged:
      no code in the repository moves a communication to ACK_REQUIRED. */
  lemma {:induction false} NothingAwaitsAcknowledgement(events: seq<Event>)
    requires forall i :: 0 <= i < |events| ==> !events[i].Moved?
    ensures Run(EMPTY, events).acks == []
    ensures forall c :: c in Run(EMPTY, events).communications ==> Run(EMPTY, events).communications[c].status in {Queued, SuppressedComm}
    decreases |events|
  {
    if events != [] { NothingAwaitsAcknowledgement(events[..|events| - 1]); }
  }

  // ---------------------------------------------------------------- the service

  class CommunicationsService {
    var db: Box

    constructor ()
      ensures db == EMPTY
    {
      db := EMPTY;
    }

    method AcknowledgeCommunication(person: PersonId, r: Request, key: Key, now: Time) returns (outcome: Result<Reply, Refusal>)
      modifies this
      ensures Step(db, outcome) == Acknowledge(old(db), person, r, key, now)
    {
      if (person, key) in db.dedup {
        var stored := db.dedup[(person, key)];
        if stored.request != r { return Failure(KeyReused); }
        return Success(stored.reply.(repeated := true));
      }
      if r.communication !in db.communications { return Failure(NotFound); }
      var row := db.communications[r.communication];
      if row.recipient != person { return Failure(Forbidden); }
      if !row.ackRequired { return Failure(Conflict); }
      if row.status != AckRequired { return Failure(Conflict); }
      if r.acknowledgedAt > now + 30_000 { return Failure(Conflict); }
      if r.acknowledgedAt < row.createdAt { return Failure(Conflict); }
      var existing := Existing(db.acks, person, r);
      if existing.Some? && db.acks[existing.value].communication != r.communication { return Failure(ClientIdReused); }
      var ack := existing.GetOr(|db.acks|);
      var recordedAt := if existing.Some? then db.acks[existing.value].at else r.acknowledgedAt;
      if existing.None? {
        db := db.(acks := db.acks + [Ack(r.communication, person, r.client, recordedAt)]);
        db := db.(communications := db.communications[r.communication := row.(status := Acknowledged)]);
      }
      var reply := Reply(r.communication, ack, recordedAt, existing.Some?);
      db := db.(dedup := db.dedup[(person, key) := Answered(r, reply)]);
      outcome := Success(reply);
    }
  }

  // ---------------------------------------------------------------- when an acknowledgement succeeds, and what it leaves

  /** The person has used the client id for another communication. */
  ghost predicate ClientIdTaken(s: Box, person: PersonId, client: ClientId) {
    exists i :: 0 <= i < |s.acks| && s.acks[i].recipient == person && s.acks[i].client == client
  }

  /** The communication waits for this person's acknowledgement, at a time that is neither before it nor more than half a minute ahead. */
  predicate Awaits(s: Box, person: PersonId, r: Request, now: Time) {
    && r.communication in s.communications && s.communications[r.communication].recipient == person
    && s.communications[r.communication].ackRequired && s.communications[r.communication].status == AckRequired
    && s.communications[r.communication].createdAt <= r.acknowledgedAt && r.acknowledgedAt - now <= 30_000
  }

  lemma ExistingMeans(s: Box, person: PersonId, r: Request, now: Time)
    requires Inv(s) && Awaits(s, person, r, now)
    ensures Existing(s.acks, person, r).Some? <==> ClientIdTaken(s, person, r.client)
    ensures Existing(s.acks, person, r).Some? ==> s.acks[Existing(s.acks, person, r).value].communication != r.communication
  {
    NothingToRepeat(s, person, r);
    if ClientIdTaken(s, person, r.client) {
      var i :| 0 <= i < |s.acks| && s.acks[i].recipient == person && s.acks[i].client == r.client;
      assert Matches(s.acks[i], person, r);
    }
  }

  /** Under a new key an acknowledgement succeeds exactly for a communication that awaits it and a client id the person has not used;
      it adds the row and marks the communication, and nothing else. Otherwise the answer says what is wrong and nothing changes. */
  lemma AcknowledgeMeans(s: Box, person: PersonId, r: Request, key: Key, now: Time)
    requires Inv(s) && (person, key) !in s.dedup
    ensures var step := Acknowledge(s, person, r, key, now);
            && (step.outcome.Success? <==> Awaits(s, person, r, now) && !ClientIdTaken(s, person, r.client))
            && (step.outcome == Failure(NotFound) <==> r.communication !in s.communications)
            && (step.outcome == Failure(Forbidden) <==> r.communication in s.communications && s.communications[r.communication].recipient != person)
            && (step.outcome == Failure(ClientIdReused) <==> Awaits(s, person, r, now) && ClientIdTaken(s, person, r.client))
            && (step.outcome.Failure? ==> step.box == s)
  {
    hide Existing;
    if Awaits(s, person, r, now) { ExistingMeans(s, person, r, now); }
  }

  lemma AcknowledgeLeaves(s: Box, person: PersonId, r: Request, key: Key, now: Time)
    requires Inv(s) && (person, key) !in s.dedup && Awaits(s, person, r, now) && !ClientIdTaken(s, person, r.client)
    ensures var t := Acknowledge(s, person, r, key, now).box;
            && |t.acks| == |s.acks| + 1 && t.acks[..|s.acks|] == s.acks
            && t.acks[|s.acks|] == Ack(r.communication, person, r.client, r.acknowledgedAt)
            && t.communications.Keys == s.communications.Keys
            && t.communications[r.communication] == s.communications[r.communication].(status := Acknowledged)
            && (forall c :: c in s.communications && c != r.communication ==> t.communications[c] == s.communications[c])
            && (person, key) in t.dedup && t.dedup[(person, key)].request == r
    ensures Acknowledge(s, person, r, key, now).outcome == Success(Reply(r.communication, |s.acks|, r.acknowledgedAt, false))
  {
    hide Existing;
    ExistingMeans(s, person, r, now);
  }

  /** After an answer, the same request under the same key is told that it is repeated, and another request is refused. */
  lemma KeyMeans(s: Box, person: PersonId, r: Request, key: Key, now: Time)
    requires (person, key) in s.dedup
    ensures Acknowledge(s, person, r, key, now)
         == Step(s, if s.dedup[(person, key)].request == r then Success(s.dedup[(person, key)].reply.(repeated := true)) else Failure(KeyReused))
  {
  }

  const STORY: seq<Event> := [
    Requested(4, 1, true, false, 100), Moved(4, AckRequired), Acknowledging(1, Request(4, 9, 150), "k", 120)]

  /** A run in which a communication is acknowledged; nothing the service requests gets that far by itself. */
  lemma AcknowledgedExample()
    ensures Run(EMPTY, STORY).communications == map[4 := Communication(1, true, Acknowledged, 100)]
    ensures Run(EMPTY, STORY).acks == [Ack(4, 1, 9, 150)]
    ensures Run(EMPTY, [Requested(4, 1, true, true, 100)]).communications == map[4 := Communication(1, true, SuppressedComm, 100)]
  {
    hide Acknowledge, Run;
    var one := Box(map[4 := Communication(1, true, Queued, 100)], [], map[]);
    var two := Box(map[4 := Communication(1, true, AckRequired, 100)], [], map[]);
    assert STORY[..3] == STORY && STORY[..3][..2] == STORY[..2] && STORY[..2][..1] == STORY[..1];
    RunStep(STORY[..1]);
    RunStep(STORY[..2]);
    RunStep(STORY);
    assert STORY[..1][..0] == [];
    RunNone();
    assert Run(EMPTY, STORY[..1]) == one;
    assert Run(EMPTY, STORY[..2]) == two;
    AcknowledgeLeaves(two, 1, Request(4, 9, 150), "k", 120);
    RunStep([Requested(4, 1, true, true, 100)]);
    assert [Requested(4, 1, true, true, 100)][..0] == [];
  }

  lemma RunNone()
    ensures Run(EMPTY, []) == EMPTY
  {
  }

  lemma RunStep(events: seq<Event>)
    requires events != []
    ensures Run(EMPTY, events) == Apply(Run(EMPTY, events[..|events| - 1]), events[|events| - 1])
  {
    hide Apply;
  }
}
