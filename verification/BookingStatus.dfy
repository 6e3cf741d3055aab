/** The booking life cycle: the canonical forward spine, and what every history of a booking looks like. */
module BookingStatus {
  import opened Prelude

  datatype Status =
    | Draft | QuoteCreated | AwaitingConfirmation | Confirmed | Scheduled | ReadyForDispatch
    | SearchingForDriver | DriverAssigned | DriverEnRoute | DriverArrived | AwaitingRideCheck
    | PassengerVerified | InProgress | Arriving | Completed | PaymentProcessing | Paid | Closed
    | NoEligibleDriver | RiderCancelled | DriverCancelled | OperationsCancelled | RiderNoShow
    | DriverNoShow | PaymentFailed | SafetyHold | ActiveIncident | Breakdown | ReassignmentRequired
    | ReplacementSearching | ReplacementAssigned | RefundPending | Refunded

  predicate IsException(status: Status) {
    status in {NoEligibleDriver, RiderCancelled, DriverCancelled, OperationsCancelled, RiderNoShow,
               DriverNoShow, PaymentFailed, SafetyHold, ActiveIncident, Breakdown, ReassignmentRequired,
               ReplacementSearching, ReplacementAssigned, RefundPending, Refunded}
  }

  function ForwardTransitions(from: Status): seq<Status> {
    match from
    case Draft => [QuoteCreated]
    case QuoteCreated => [AwaitingConfirmation]
    case AwaitingConfirmation => [Confirmed]
    case Confirmed => [Scheduled, ReadyForDispatch]
    case Scheduled => [ReadyForDispatch]
    case ReadyForDispatch => [SearchingForDriver]
    case SearchingForDriver => [DriverAssigned, NoEligibleDriver]
    case DriverAssigned => [DriverEnRoute]
    case DriverEnRoute => [DriverArrived]
    case DriverArrived => [AwaitingRideCheck]
    case AwaitingRideCheck => [PassengerVerified]
    case PassengerVerified => [InProgress]
    case InProgress => [Arriving]
    case Arriving => [Completed]
    case Completed => [PaymentProcessing]
    case PaymentProcessing => [Paid, PaymentFailed]
    case Paid => [Closed]
    case _ => []
  }

  predicate CanForward(from: Status, to: Status) {
    !IsException(from) && to in ForwardTransitions(from)
  }

  /** Position along the spine. Exception statuses sit past everything that can lead to them. */
  function Rank(status: Status): nat {
    match status
    case Draft => 0
    case QuoteCreated => 1
    case AwaitingConfirmation => 2
    case Confirmed => 3
    case Scheduled => 4
    case ReadyForDispatch => 5
    case SearchingForDriver => 6
    case DriverAssigned => 7
    case DriverEnRoute => 8
    case DriverArrived => 9
    case AwaitingRideCheck => 10
    case PassengerVerified => 11
    case InProgress => 12
    case Arriving => 13
    case Completed => 14
    case PaymentProcessing => 15
    case Paid => 16
    case Closed => 17
    case _ => 18
  }

  /** The edges some service writes: canonical ones, and the unsafe-termination edge out of a live journey. */
  predicate WrittenEdge(from: Status, to: Status) {
    CanForward(from, to) || (to == ActiveIncident && Rank(DriverEnRoute) <= Rank(from) <= Rank(Arriving))
  }

  datatype Transition = Transition(from: Option<Status>, to: Status, version: nat)

  /** A transition log that starts at DRAFT, chains row to row, numbers its rows and ends in `status`. */
  predicate IsHistory(rows: seq<Transition>, status: Status) {
    && rows != []
    && rows[0] == Transition(None, Draft, 1)
    && rows[|rows| - 1].to == status
    && (forall i :: 0 < i < |rows| ==>
          && rows[i].from == Some(rows[i - 1].to)
          && rows[i].version == i + 1
          && WrittenEdge(rows[i - 1].to, rows[i].to))
  }

  lemma HistoryExtends(rows: seq<Transition>, from: Status, to: Status)
    requires IsHistory(rows, from) && WrittenEdge(from, to)
    ensures IsHistory(rows + [Transition(Some(from), to, |rows| + 1)], to)
  {
    var longer := rows + [Transition(Some(from), to, |rows| + 1)];
    forall i | 0 < i < |longer|
      ensures longer[i].from == Some(longer[i - 1].to) && longer[i].version == i + 1
      ensures WrittenEdge(longer[i - 1].to, longer[i].to)
    {
      assert longer[i - 1] == rows[i - 1];
      if i < |rows| { assert longer[i] == rows[i]; }
    }
  }

  lemma {:induction false} HistoryRankIncreases(rows: seq<Transition>, status: Status, i: nat, j: nat)
    requires IsHistory(rows, status) && i < j < |rows|
    ensures Rank(rows[i].to) < Rank(rows[j].to)
    decreases j
  {
    assert WrittenEdge(rows[j - 1].to, rows[j].to);
    if i < j - 1 { HistoryRankIncreases(rows, status, i, j - 1); }
  }

  /** No booking ever returns to a status it has left. */
  lemma StatusNeverRepeats(rows: seq<Transition>, status: Status)
    requires IsHistory(rows, status)
    ensures forall i, j :: 0 <= i < j < |rows| ==> rows[i].to != rows[j].to
    ensures |rows| <= 19
  {
    forall i, j | 0 <= i < j < |rows| ensures rows[i].to != rows[j].to {
      HistoryRankIncreases(rows, status, i, j);
    }
    RankBoundsIndex(rows, status, |rows| - 1);
  }

  lemma {:induction false} RankBoundsIndex(rows: seq<Transition>, status: Status, i: nat)
    requires IsHistory(rows, status) && i < |rows|
    ensures i <= Rank(rows[i].to)
  {
    if i > 0 {
      RankBoundsIndex(rows, status, i - 1);
      HistoryRankIncreases(rows, status, i - 1, i);
    }
  }

  // ---------------------------------------------------------------- the table read backwards

  /** The statuses a booking can come to `to` from along the canonical spine. */
  function ComesFrom(to: Status): set<Status> {
    match to
    case QuoteCreated => {Draft}
    case AwaitingConfirmation => {QuoteCreated}
    case Confirmed => {AwaitingConfirmation}
    case Scheduled => {Confirmed}
    case ReadyForDispatch => {Confirmed, Scheduled}
    case SearchingForDriver => {ReadyForDispatch}
    case DriverAssigned => {SearchingForDriver}
    case NoEligibleDriver => {SearchingForDriver}
    case DriverEnRoute => {DriverAssigned}
    case DriverArrived => {DriverEnRoute}
    case AwaitingRideCheck => {DriverArrived}
    case PassengerVerified => {AwaitingRideCheck}
    case InProgress => {PassengerVerified}
    case Arriving => {InProgress}
    case Completed => {Arriving}
    case PaymentProcessing => {Completed}
    case Paid => {PaymentProcessing}
    case PaymentFailed => {PaymentProcessing}
    case Closed => {Paid}
    case _ => {}
  }

  lemma TableDecides(from: Status, to: Status)
    ensures CanForward(from, to) <==> to in ForwardTransitions(from)
  {
  }

  lemma ForwardBackwards(from: Status, to: Status)
    ensures CanForward(from, to) <==> from in ComesFrom(to)
  {
    hide IsException, CanForward;
    TableDecides(from, to);
  }

  /** An exception status is one off the spine, and nothing follows it; an incident ends a journey from its start to its last stretch. */
  lemma ExceptionsEnd(from: Status, to: Status)
    ensures IsException(from) <==>
              from !in {Draft, QuoteCreated, AwaitingConfirmation, Confirmed, Scheduled, ReadyForDispatch, SearchingForDriver, DriverAssigned,
                        DriverEnRoute, DriverArrived, AwaitingRideCheck, PassengerVerified, InProgress, Arriving, Completed,
                        PaymentProcessing, Paid, Closed}
    ensures IsException(from) ==> !CanForward(from, to)
    ensures WrittenEdge(from, ActiveIncident) <==>
              from in {DriverEnRoute, DriverArrived, AwaitingRideCheck, PassengerVerified, InProgress, Arriving}
  {
    match from
    case Draft => case QuoteCreated => case AwaitingConfirmation => case Confirmed => case Scheduled => case ReadyForDispatch =>
    case SearchingForDriver => case DriverAssigned => case DriverEnRoute => case DriverArrived => case AwaitingRideCheck =>
    case PassengerVerified => case InProgress => case Arriving => case Completed => case PaymentProcessing => case Paid => case Closed =>
    case NoEligibleDriver => case RiderCancelled => case DriverCancelled => case OperationsCancelled => case RiderNoShow =>
    case DriverNoShow => case PaymentFailed => case SafetyHold => case ActiveIncident => case Breakdown => case ReassignmentRequired =>
    case ReplacementSearching => case ReplacementAssigned => case RefundPending => case Refunded =>
  }
}
