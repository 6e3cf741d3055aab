/** Ledger balance and reversal, payment status runs, and the scan that keeps card secrets out of payloads. */
module Finance {
  import opened Prelude

  const MAX_SAFE_INTEGER: int := 9_007_199_254_740_991

  // ---------------------------------------------------------------- the ledger

  datatype Direction = Debit | Credit

  datatype Entry = Entry(account: string, direction: Direction, amount: int, currency: string)

  datatype LedgerError = TooFewEntries | InvalidCurrency | AccountRequired | InvalidAmount | MixedCurrencies | NotBalanced

  datatype Balance = Balance(balanced: bool, currency: string, debit: int, credit: int)

  /** What is wrong with one entry of a transaction in `currency`, in the order the checks are made. */
  function EntryError(e: Entry, currency: string): Option<LedgerError> {
    if Trim(e.account) == "" then Some(AccountRequired)
    else if e.amount <= 0 || e.amount > MAX_SAFE_INTEGER then Some(InvalidAmount)
    else if Upper(e.currency) != currency then Some(MixedCurrencies)
    else None
  }

  function FirstError(entries: seq<Entry>, currency: string): Option<LedgerError> {
    if entries == [] then None
    else if FirstError(entries[..|entries| - 1], currency).Some? then FirstError(entries[..|entries| - 1], currency)
    else EntryError(entries[|entries| - 1], currency)
  }

  function Total(entries: seq<Entry>, direction: Direction): int {
    if entries == [] then 0
    else Total(entries[..|entries| - 1], direction)
         + if entries[|entries| - 1].direction == direction then entries[|entries| - 1].amount else 0
  }

  /** The error of a transaction, if it has one, before its balance is looked at. */
  function TransactionError(entries: seq<Entry>): Option<LedgerError> {
    if |entries| < 2 then Some(TooFewEntries)
    else if !IsCurrency(Upper(entries[0].currency)) then Some(InvalidCurrency)
    else FirstError(entries, Upper(entries[0].currency))
  }

  /** The accumulating loop: the true debit and credit totals, or the first error in entry order. */
  method EvaluateBalancedLedger(entries: seq<Entry>) returns (r: Result<Balance, LedgerError>)
    ensures TransactionError(entries).Some? ==> r == Failure(TransactionError(entries).value)
    ensures TransactionError(entries).None? ==>
              r == Success(Balance(Total(entries, Debit) == Total(entries, Credit), Upper(entries[0].currency),
                                   Total(entries, Debit), Total(entries, Credit)))
  {
    if |entries| < 2 { return Failure(TooFewEntries); }
    var currency := Upper(entries[0].currency);
    if !IsCurrency(currency) { return Failure(InvalidCurrency); }
    var debit, credit := 0, 0;
    var i := 0;
    while i < |entries|
      invariant 0 <= i <= |entries|
      invariant FirstError(entries[..i], currency).None?
      invariant debit == Total(entries[..i], Debit) && credit == Total(entries[..i], Credit)
    {
      var e := entries[i];
      assert entries[..i + 1][..i] == entries[..i];
      var error := EntryError(e, currency);
      if error.Some? {
        ErrorStays(entries, i + 1, currency);
        return Failure(error.value);
      }
      match e.direction {
        case Debit => debit := debit + e.amount;
        case Credit => credit := credit + e.amount;
      }
      i := i + 1;
    }
    assert entries[..|entries|] == entries;
    r := Success(Balance(debit == credit, currency, debit, credit));
  }

  lemma {:induction false} ErrorStays(entries: seq<Entry>, n: nat, currency: string)
    requires n <= |entries| && FirstError(entries[..n], currency).Some?
    ensures FirstError(entries, currency) == FirstError(entries[..n], currency)
    decreases |entries| - n
  {
    if n == |entries| {
      assert entries[..n] == entries;
    } else {
      assert entries[..n + 1][..n] == entries[..n];
      ErrorStays(entries, n + 1, currency);
    }
  }

  function Opposite(d: Direction): Direction {
    if d == Debit then Credit else Debit
  }

  function Reverse(entries: seq<Entry>): (reversed: seq<Entry>)
    ensures |reversed| == |entries|
    ensures forall i :: 0 <= i < |entries| ==> reversed[i] == entries[i].(direction := Opposite(entries[i].direction))
  {
    seq(|entries|, i requires 0 <= i < |entries| => entries[i].(direction := Opposite(entries[i].direction)))
  }

  lemma ReverseTwice(entries: seq<Entry>)
    ensures Reverse(Reverse(entries)) == entries
  {
    assert forall i :: 0 <= i < |entries| ==> Reverse(Reverse(entries))[i] == entries[i];
  }

  /** Reversal swaps the two totals. */
  lemma {:induction false} ReverseSwaps(entries: seq<Entry>, d: Direction)
    ensures Total(Reverse(entries), d) == Total(entries, Opposite(d))
  {
    if entries != [] {
      var n := |entries| - 1;
      ReverseSwaps(entries[..n], d);
      assert Reverse(entries)[..n] == Reverse(entries[..n]);
    }
  }

  /** A reversal is judged like the original: the same error, or the same balance. */
  lemma {:induction false} ReverseKeepsErrors(entries: seq<Entry>, currency: string)
    ensures FirstError(Reverse(entries), currency) == FirstError(entries, currency)
  {
    if entries != [] {
      var n := |entries| - 1;
      ReverseKeepsErrors(entries[..n], currency);
      assert Reverse(entries)[..n] == Reverse(entries[..n]);
    }
  }

  predicate Postable(entries: seq<Entry>) {
    TransactionError(entries).None? && Total(entries, Debit) == Total(entries, Credit)
  }

  lemma ReversalPostable(entries: seq<Entry>)
    ensures Postable(Reverse(entries)) <==> Postable(entries)
  {
    ReverseSwaps(entries, Debit);
    ReverseSwaps(entries, Credit);
    if |entries| >= 2 { ReverseKeepsErrors(entries, Upper(entries[0].currency)); }
  }

  /** A side of one entry is its amount, and the sides of two lists add up. */
  lemma {:induction false} TotalsAdd(xs: seq<Entry>, ys: seq<Entry>, direction: Direction)
    ensures Total(xs + ys, direction) == Total(xs, direction) + Total(ys, direction)
    ensures forall e: Entry :: Total([e], direction) == if e.direction == direction then e.amount else 0
    decreases |ys|
  {
    forall e: Entry ensures Total([e], direction) == if e.direction == direction then e.amount else 0 { assert [e][..0] == []; }
    if ys == [] {
      assert xs + ys == xs;
    } else {
      var n := |ys| - 1;
      assert (xs + ys)[..|xs| + n] == xs + ys[..n];
      TotalsAdd(xs, ys[..n], direction);
    }
  }

  /** Every error by its own condition: the account is looked at before the amount, the amount before the currency. */
  lemma EntryErrorMeans(e: Entry, currency: string)
    ensures EntryError(e, currency) == Some(AccountRequired) <==> forall i :: 0 <= i < |e.account| ==> IsSpace(e.account[i])
    ensures EntryError(e, currency) == Some(InvalidAmount) <==>
              EntryError(e, currency) != Some(AccountRequired) && !(1 <= e.amount <= 9_007_199_254_740_991)
    ensures EntryError(e, currency) == Some(MixedCurrencies) <==>
              EntryError(e, currency) !in {Some(AccountRequired), Some(InvalidAmount)} && Upper(e.currency) != currency
    ensures EntryError(e, currency) in {None, Some(AccountRequired), Some(InvalidAmount), Some(MixedCurrencies)}
  {
    TrimEmptyIff(e.account);
  }

  /** The error of a list of entries is that of the first faulty one. */
  lemma {:induction false} FirstErrorMeans(entries: seq<Entry>, currency: string)
    ensures FirstError(entries, currency).None? <==> forall i :: 0 <= i < |entries| ==> EntryError(entries[i], currency).None?
    ensures FirstError(entries, currency).Some? ==>
              exists i :: 0 <= i < |entries| && EntryError(entries[i], currency) == FirstError(entries, currency)
                          && forall k :: 0 <= k < i ==> EntryError(entries[k], currency).None?
  {
    hide EntryError;
    if entries != [] {
      var n := |entries| - 1;
      FirstErrorMeans(entries[..n], currency);
      assert forall i :: 0 <= i < n ==> entries[..n][i] == entries[i];
      if FirstError(entries[..n], currency).Some? {
        var i :| 0 <= i < n && EntryError(entries[..n][i], currency) == FirstError(entries[..n], currency)
                 && forall k :: 0 <= k < i ==> EntryError(entries[..n][k], currency).None?;
        assert EntryError(entries[i], currency) == FirstError(entries, currency);
      } else if EntryError(entries[n], currency).Some? {
        assert EntryError(entries[n], currency) == FirstError(entries, currency);
      }
    }
  }

  /** A transaction is judged at all exactly if it has two entries or more, its first currency trims to three letters and no entry is faulty. */
  lemma TransactionErrorMeans(entries: seq<Entry>)
    ensures TransactionError(entries) == Some(TooFewEntries) <==> entries == [] || |entries| == 1
    ensures TransactionError(entries) == Some(InvalidCurrency) <==> |entries| > 1 && !IsCurrency(Upper(entries[0].currency))
    ensures TransactionError(entries).None? <==>
              && |entries| > 1 && IsCurrency(Upper(entries[0].currency))
              && forall i :: 0 <= i < |entries| ==> EntryError(entries[i], Upper(entries[0].currency)).None?
  {
    hide EntryError, IsCurrency, Upper;
    if |entries| > 1 {
      FirstErrorMeans(entries, Upper(entries[0].currency));
      NoOtherError(entries, Upper(entries[0].currency));
    }
  }

  lemma NoOtherError(entries: seq<Entry>, currency: string)
    ensures FirstError(entries, currency) != Some(TooFewEntries) && FirstError(entries, currency) != Some(InvalidCurrency)
  {
    hide EntryError;
    FirstErrorMeans(entries, currency);
    if FirstError(entries, currency).Some? {
      var i :| 0 <= i < |entries| && EntryError(entries[i], currency) == FirstError(entries, currency);
      EntryErrorMeans(entries[i], currency);
    }
  }

  // ---------------------------------------------------------------- accounts and histories

  function Signed(e: Entry): int {
    if e.direction == Debit then e.amount else -e.amount
  }

  function OfAccount(account: string, currency: string): Entry -> bool {
    (e: Entry) => e.account == account && e.currency == currency
  }

  function InCurrency(currency: string): Entry -> bool {
    (e: Entry) => Upper(e.currency) == currency
  }

  /** What the entries that satisfy `counts` come to, debits less credits. */
  function Net(entries: seq<Entry>, counts: Entry -> bool): int {
    if entries == [] then 0
    else Net(entries[..|entries| - 1], counts) + if counts(entries[|entries| - 1]) then Signed(entries[|entries| - 1]) else 0
  }

  /** What one entry does to an account: a debit adds and a credit takes away, in its own currency only. */
  lemma NetOfOne(e: Entry, account: string, currency: string)
    ensures Net([e], OfAccount(account, currency))
         == if e.account == account && e.currency == currency then (if e.direction == Credit then -e.amount else e.amount) else 0
  {
    assert [e][..0] == [];
  }

  lemma {:induction false} NetOfConcat(xs: seq<Entry>, ys: seq<Entry>, counts: Entry -> bool)
    ensures Net(xs + ys, counts) == Net(xs, counts) + Net(ys, counts)
    decreases |ys|
  {
    if ys == [] {
      assert xs + ys == xs;
    } else {
      assert (xs + ys)[..|xs + ys| - 1] == xs + ys[..|ys| - 1];
      NetOfConcat(xs, ys[..|ys| - 1], counts);
    }
  }

  /** `counts` does not look at the direction. */
  ghost predicate DirectionFree(counts: Entry -> bool) {
    forall e: Entry, d: Direction :: counts(e.(direction := d)) == counts(e)
  }

  lemma {:induction false} NetOfReverse(entries: seq<Entry>, counts: Entry -> bool)
    requires DirectionFree(counts)
    ensures Net(Reverse(entries), counts) == -Net(entries, counts)
  {
    if entries != [] {
      var n := |entries| - 1;
      NetOfReverse(entries[..n], counts);
      assert Reverse(entries)[..n] == Reverse(entries[..n]);
      assert Reverse(entries)[n] == entries[n].(direction := Opposite(entries[n].direction));
    }
  }

  /** A transaction together with its reversal leaves every account, in every currency, where it was. */
  lemma ReversalCancels(entries: seq<Entry>, account: string, currency: string)
    ensures Net(entries + Reverse(entries), OfAccount(account, currency)) == 0
  {
    var counts := OfAccount(account, currency);
    NetOfConcat(entries, Reverse(entries), counts);
    NetOfReverse(entries, counts);
  }

  lemma {:induction false} NetIsTotals(entries: seq<Entry>, counts: Entry -> bool)
    requires forall e :: e in entries ==> counts(e)
    ensures Net(entries, counts) == Total(entries, Debit) - Total(entries, Credit)
  {
    if entries != [] { NetIsTotals(entries[..|entries| - 1], counts); }
  }

  lemma {:induction false} NetOfNone(entries: seq<Entry>, counts: Entry -> bool)
    requires forall e :: e in entries ==> !counts(e)
    ensures Net(entries, counts) == 0
  {
    if entries != [] { NetOfNone(entries[..|entries| - 1], counts); }
  }

  lemma {:induction false} OneCurrency(entries: seq<Entry>, currency: string)
    requires FirstError(entries, currency).None?
    ensures forall e :: e in entries ==> Upper(e.currency) == currency && 0 < e.amount <= MAX_SAFE_INTEGER && Trim(e.account) != ""
  {
    if entries != [] { OneCurrency(entries[..|entries| - 1], currency); }
  }

  /** A posted transaction nets to zero in every currency. */
  lemma PostedNetsToZero(entries: seq<Entry>, currency: string)
    requires Postable(entries)
    ensures Net(entries, InCurrency(currency)) == 0
  {
    var counts := InCurrency(currency);
    OneCurrency(entries, Upper(entries[0].currency));
    if Upper(entries[0].currency) == currency { NetIsTotals(entries, counts); } else { NetOfNone(entries, counts); }
  }

  /** A ledger history: new transactions, which must balance, and reversals of earlier ones. */
  datatype Posting = Post(entries: seq<Entry>) | Reversal(of: nat)

  function History(postings: seq<Posting>): seq<seq<Entry>> {
    if postings == [] then []
    else
      var earlier := History(postings[..|postings| - 1]);
      match postings[|postings| - 1]
      case Post(entries) => if Postable(entries) then earlier + [entries] else earlier
      case Reversal(i) => if i < |earlier| then earlier + [Reverse(earlier[i])] else earlier
  }

  function Flatten(transactions: seq<seq<Entry>>): seq<Entry> {
    if transactions == [] then [] else Flatten(transactions[..|transactions| - 1]) + transactions[|transactions| - 1]
  }

  lemma {:induction false} HistoryPostable(postings: seq<Posting>)
    ensures forall i :: 0 <= i < |History(postings)| ==> Postable(History(postings)[i])
  {
    if postings != [] {
      hide Postable;
      var earlier := History(postings[..|postings| - 1]);
      HistoryPostable(postings[..|postings| - 1]);
      var last := postings[|postings| - 1];
      if last.Reversal? && last.of < |earlier| { ReversalPostable(earlier[last.of]); }
    }
  }

  lemma {:induction false} PostableNetsToZero(transactions: seq<seq<Entry>>, currency: string)
    requires forall i :: 0 <= i < |transactions| ==> Postable(transactions[i])
    ensures Net(Flatten(transactions), InCurrency(currency)) == 0
  {
    if transactions != [] {
      var n := |transactions| - 1;
      PostableNetsToZero(transactions[..n], currency);
      PostedNetsToZero(transactions[n], currency);
      NetOfConcat(Flatten(transactions[..n]), transactions[n], InCurrency(currency));
    }
  }

  /** Whatever is posted and reversed, in whatever order, the trial balance of every currency is zero. */
  lemma TrialBalance(postings: seq<Posting>, currency: string)
    ensures Net(Flatten(History(postings)), InCurrency(currency)) == 0
  {
    hide Postable;
    HistoryPostable(postings);
    PostableNetsToZero(History(postings), currency);
  }

  /** What a posting adds to the history: a transaction exactly if it can be posted, a reversal exactly of an earlier transaction. */
  lemma HistoryGrows(postings: seq<Posting>, last: Posting)
    ensures last.Post? ==> History(postings + [last]) == History(postings) + if Postable(last.entries) then [last.entries] else []
    ensures last.Reversal? ==>
              History(postings + [last]) == History(postings) + if last.of < |History(postings)| then [Reverse(History(postings)[last.of])] else []
    ensures History([]) == [] && Flatten([]) == []
  {
    hide Postable;
    assert (postings + [last])[..|postings|] == postings;
  }

  lemma FlattenGrows(transactions: seq<seq<Entry>>, last: seq<Entry>)
    ensures Flatten(transactions + [last]) == Flatten(transactions) + last
  {
    assert (transactions + [last])[..|transactions|] == transactions;
  }

  /** A transaction can be posted exactly if it is judged without error and its debits and credits are equal. */
  lemma PostableMeans(entries: seq<Entry>)
    ensures Postable(entries) <==> TransactionError(entries).None? && Total(entries, Debit) - Total(entries, Credit) == 0
  {
  }

  // ---------------------------------------------------------------- payment statuses

  datatype PaymentStatus =
    | Created | Processing | RequiresAction | Authorised | Captured | PartiallyRefunded | Refunded
    | Failed | Voided | Expired | StatusUnknown | Disputed | Chargeback

  function PaymentTransitions(from: PaymentStatus): set<PaymentStatus> {
    match from
    case Created => {Processing, Expired, Voided}
    case Processing => {RequiresAction, Authorised, Failed, StatusUnknown}
    case RequiresAction => {Processing, Authorised, Failed, Expired, StatusUnknown}
    case Authorised => {Captured, Voided, StatusUnknown}
    case Captured => {PartiallyRefunded, Refunded, Disputed, Chargeback}
    case PartiallyRefunded => {PartiallyRefunded, Refunded, Disputed, Chargeback}
    case Refunded => {Disputed, Chargeback}
    case StatusUnknown => {RequiresAction, Authorised, Captured, Failed, Voided}
    case Disputed => {Captured, PartiallyRefunded, Refunded, Chargeback}
    case _ => {}
  }

  predicate IsPaymentRun(run: seq<PaymentStatus>) {
    run != [] && forall i :: 0 < i < |run| ==> run[i] in PaymentTransitions(run[i - 1])
  }

  /** Money has been taken. */
  predicate Taken(s: PaymentStatus) {
    s in {Captured, PartiallyRefunded, Refunded, Disputed, Chargeback}
  }

  /** Once captured, a payment never becomes FAILED, VOIDED or EXPIRED, nor uncertain again. */
  lemma {:induction false} TakenForGood(run: seq<PaymentStatus>, i: nat, j: nat)
    requires IsPaymentRun(run) && i <= j < |run| && Taken(run[i])
    ensures Taken(run[j])
    decreases j
  {
    if i < j {
      TakenForGood(run, i, j - 1);
      assert run[j] in PaymentTransitions(run[j - 1]);
    }
  }

  /** Nothing but EXPIRED and VOIDED is reached from CREATED without PROCESSING; in particular no capture is. */
  lemma {:induction false} NoCaptureWithoutProcessing(run: seq<PaymentStatus>, j: nat)
    requires IsPaymentRun(run) && run[0] == Created && j < |run|
    requires Processing !in run[..j + 1]
    ensures run[j] in {Created, Expired, Voided}
    decreases j
  {
    if j > 0 {
      assert run[..j + 1][..j] == run[..j];
      NoCaptureWithoutProcessing(run, j - 1);
      assert run[j] in PaymentTransitions(run[j - 1]);
      assert run[j] in run[..j + 1];
    }
  }

  /** The statuses a payment can come to `to` from. */
  function ComesFrom(to: PaymentStatus): set<PaymentStatus> {
    match to
    case Created => {}
    case Processing => {Created, RequiresAction}
    case RequiresAction => {Processing, StatusUnknown}
    case Authorised => {Processing, RequiresAction, StatusUnknown}
    case Captured => {Authorised, StatusUnknown, Disputed}
    case PartiallyRefunded => {Captured, PartiallyRefunded, Disputed}
    case Refunded => {Captured, PartiallyRefunded, Disputed}
    case Failed => {Processing, RequiresAction, StatusUnknown}
    case Voided => {Created, Authorised, StatusUnknown}
    case Expired => {Created, RequiresAction}
    case StatusUnknown => {Processing, RequiresAction, Authorised}
    case Disputed => {Captured, PartiallyRefunded, Refunded}
    case Chargeback => {Captured, PartiallyRefunded, Refunded, Disputed}
  }

  /** Every step of a payment, read backwards. */
  lemma StepsBackwards(from: PaymentStatus, to: PaymentStatus)
    ensures to in PaymentTransitions(from) <==> from in ComesFrom(to)
  {
  }

  predicate IsRunFromTo(run: seq<PaymentStatus>, from: PaymentStatus, to: PaymentStatus) {
    IsPaymentRun(run) && run[0] == from && run[|run| - 1] == to
  }

  ghost predicate Leads(from: PaymentStatus, to: PaymentStatus) {
    exists run :: IsRunFromTo(run, from, to)
  }

  lemma StaysPut(s: PaymentStatus)
    ensures Leads(s, s)
  {
    assert IsRunFromTo([s], s, s);
  }

  lemma OneMore(from: PaymentStatus, middle: PaymentStatus, to: PaymentStatus)
    requires Leads(from, middle) && to in PaymentTransitions(middle)
    ensures Leads(from, to)
  {
    var run :| IsRunFromTo(run, from, middle);
    var longer := run + [to];
    forall i | 0 < i < |longer| ensures longer[i] in PaymentTransitions(longer[i - 1]) {
      assert longer[i - 1] == run[i - 1];
      if i < |run| { assert longer[i] == run[i]; }
    }
    assert IsRunFromTo(longer, from, to);
  }

  /** Neither settled nor fresh: anything may still come of the payment. */
  predicate Undecided(s: PaymentStatus) {
    s in {Processing, RequiresAction, Authorised, StatusUnknown}
  }

  predicate Reachable(from: PaymentStatus, to: PaymentStatus) {
    || to == from
    || (from == Created && to != Created)
    || (Undecided(from) && to != Created)
    || (Taken(from) && from != Chargeback && Taken(to))
  }

  lemma {:induction false} RunsReach(run: seq<PaymentStatus>)
    requires IsPaymentRun(run)
    ensures Reachable(run[0], run[|run| - 1])
    decreases |run|
  {
    if |run| > 1 {
      var n := |run| - 1;
      assert IsPaymentRun(run[..n]) by { assert forall i :: 0 <= i < n ==> run[..n][i] == run[i]; }
      RunsReach(run[..n]);
      assert run[n] in PaymentTransitions(run[n - 1]);
    }
  }

  /** From any undecided status, everything but CREATED. */
  lemma UndecidedLeads(from: PaymentStatus, start: PaymentStatus, to: PaymentStatus)
    requires Undecided(from) && Leads(start, from) && to != Created
    ensures Leads(start, to)
  {
    hide Leads;
    if from != StatusUnknown { OneMore(start, from, StatusUnknown); }
    OneMore(start, StatusUnknown, RequiresAction);
    OneMore(start, RequiresAction, Processing);
    OneMore(start, RequiresAction, Authorised);
    OneMore(start, RequiresAction, Expired);
    OneMore(start, StatusUnknown, Failed);
    OneMore(start, StatusUnknown, Voided);
    OneMore(start, Authorised, Captured);
    TakenLeads(Captured, start, to);
  }

  /** From any status of money taken but a chargeback, every such status. */
  lemma TakenLeads(from: PaymentStatus, start: PaymentStatus, to: PaymentStatus)
    requires Taken(from) && from != Chargeback && Leads(start, from)
    ensures Taken(to) ==> Leads(start, to)
  {
    hide Leads;
    if from != Disputed { OneMore(start, from, Disputed); }
    OneMore(start, Disputed, Captured);
    OneMore(start, Disputed, PartiallyRefunded);
    OneMore(start, Disputed, Refunded);
    OneMore(start, Disputed, Chargeback);
  }

  /** What can still become of a payment: from CREATED and from every undecided status anything but CREATED again; of money taken every
      status of money taken, until it is charged back; of FAILED, VOIDED, EXPIRED and CHARGEBACK nothing. */
  lemma LeadsIff(from: PaymentStatus, to: PaymentStatus)
    ensures Leads(from, to) <==> Reachable(from, to)
  {
    if Leads(from, to) {
      var run :| IsRunFromTo(run, from, to);
      RunsReach(run);
    }
    if Reachable(from, to) {
      StaysPut(from);
      if to != from {
        if from == Created { OneMore(Created, Created, Processing); UndecidedLeads(Processing, Created, to); }
        else if Undecided(from) { UndecidedLeads(from, from, to); }
        else { TakenLeads(from, from, to); }
      }
    }
  }

  // ---------------------------------------------------------------- secrets in payloads

  datatype Json = Leaf | Arr(items: seq<Json>) | Obj(fields: seq<Field>)

  datatype Field = Field(key: string, value: Json)

  const FORBIDDEN: set<string> := {"pan", "cardnumber", "fullcardnumber", "cvv", "cvc", "securitycode", "trackdata", "pin", "pinblock"}

  function LowerChar(c: char): char {
    if 'A' <= c <= 'Z' then (c - 'A') + 'a' else if c == '\U{212A}' then 'k' else c
  }

  /** The key without separators, in lower case. */
  function Canonical(key: string): string {
    if key == "" then ""
    else (if key[0] in {'_', '-'} then "" else [LowerChar(key[0])]) + Canonical(key[1..])
  }

  predicate IsSecret(key: string) {
    Canonical(key) in FORBIDDEN
  }

  /** A separator says nothing. */
  predicate Says(c: char) {
    c != '_' && c != '-'
  }

  /** `c` is the lower-case letter `l` in either case; the Kelvin sign is a k. */
  predicate SameLower(c: char, l: char) {
    c == l || ('a' <= l <= 'z' && c == (l - 'a') + 'A') || (l == 'k' && c == '\U{212A}')
  }

  predicate SpellsWord(letters: string, word: string) {
    |letters| == |word| && forall i :: 0 <= i < |word| ==> SameLower(letters[i], word[i])
  }

  function Letters(key: string): string {
    if key == "" then "" else (if Says(key[0]) then [key[0]] else []) + Letters(key[1..])
  }

  lemma {:induction false} CanonicalMeans(key: string)
    ensures |Canonical(key)| == |Letters(key)| && forall i :: 0 <= i < |Letters(key)| ==> Canonical(key)[i] == LowerChar(Letters(key)[i])
  {
    if key != "" { CanonicalMeans(key[1..]); }
  }

  lemma LowerMeans(c: char, l: char)
    requires 'a' <= l <= 'z'
    ensures LowerChar(c) == l <==> SameLower(c, l)
  {
  }

  lemma SpellsMeans(key: string, word: string)
    requires forall i :: 0 <= i < |word| ==> 'a' <= word[i] <= 'z'
    ensures Canonical(key) == word <==> SpellsWord(Letters(key), word)
  {
    CanonicalMeans(key);
    forall i | 0 <= i < |word| && i < |Letters(key)| ensures Canonical(key)[i] == word[i] <==> SameLower(Letters(key)[i], word[i]) {
      LowerMeans(Letters(key)[i], word[i]);
    }
  }

  /** The words no payload key may spell, separators and case apart. */
  const CARD_WORDS: seq<string> := ["pan", "pin", "cvc", "cvv", "pinblock", "trackdata", "cardnumber", "fullcardnumber", "securitycode"]

  lemma SecretMeans(key: string)
    ensures IsSecret(key) <==> exists i :: 0 <= i < |CARD_WORDS| && SpellsWord(Letters(key), CARD_WORDS[i])
  {
    hide Canonical, SpellsWord, Letters;
    forall i | 0 <= i < |CARD_WORDS| ensures Canonical(key) == CARD_WORDS[i] <==> SpellsWord(Letters(key), CARD_WORDS[i]) {
      SpellsMeans(key, CARD_WORDS[i]);
    }
    ForbiddenListed(Canonical(key));
  }

  lemma ForbiddenListed(word: string)
    ensures word in FORBIDDEN <==> exists i :: 0 <= i < |CARD_WORDS| && word == CARD_WORDS[i]
  {
    if word in FORBIDDEN {
      assert CARD_WORDS[0] == "pan" && CARD_WORDS[1] == "pin" && CARD_WORDS[2] == "cvc" && CARD_WORDS[3] == "cvv" && CARD_WORDS[4] == "pinblock";
      assert CARD_WORDS[5] == "trackdata" && CARD_WORDS[6] == "cardnumber" && CARD_WORDS[7] == "fullcardnumber" && CARD_WORDS[8] == "securitycode";
    }
  }

  /** The scan stops with an error at the first forbidden key, depth first. */
  predicate Clean(value: Json) {
    match value
    case Leaf => true
    case Arr(items) => forall i :: 0 <= i < |items| ==> Clean(items[i])
    case Obj(fields) => forall i :: 0 <= i < |fields| ==> !IsSecret(fields[i].key) && Clean(fields[i].value)
  }

  /** Child `i` of a value, by position. */
  function Child(value: Json, i: nat): Option<Json> {
    match value
    case Leaf => None
    case Arr(items) => if i < |items| then Some(items[i]) else None
    case Obj(fields) => if i < |fields| then Some(fields[i].value) else None
  }

  function Descend(value: Json, path: seq<nat>): Option<Json>
    decreases |path|
  {
    if path == [] then Some(value)
    else if Child(value, path[0]).None? then None
    else Descend(Child(value, path[0]).value, path[1..])
  }

  /** The object at the end of `path` has a forbidden key. */
  predicate SecretAt(value: Json, path: seq<nat>, i: nat) {
    && Descend(value, path).Some? && Descend(value, path).value.Obj?
    && i < |Descend(value, path).value.fields| && IsSecret(Descend(value, path).value.fields[i].key)
  }

  lemma {:induction false} CleanHasNoSecret(value: Json, path: seq<nat>, i: nat)
    requires Clean(value)
    ensures !SecretAt(value, path, i)
    decreases |path|
  {
    hide IsSecret;
    if path != [] && Child(value, path[0]).Some? { CleanHasNoSecret(Child(value, path[0]).value, path[1..], i); }
  }

  lemma {:induction false} SecretFound(value: Json) returns (path: seq<nat>, i: nat)
    requires !Clean(value)
    ensures SecretAt(value, path, i)
    decreases value
  {
    hide IsSecret;
    match value
    case Arr(items) =>
      var k :| 0 <= k < |items| && !Clean(items[k]);
      var rest, j := SecretFound(items[k]);
      path, i := [k] + rest, j;
      assert path[1..] == rest && Child(value, k) == Some(items[k]);
    case Obj(fields) =>
      var k :| 0 <= k < |fields| && !(!IsSecret(fields[k].key) && Clean(fields[k].value));
      if IsSecret(fields[k].key) {
        path, i := [], k;
      } else {
        var rest, j := SecretFound(fields[k].value);
        path, i := [k] + rest, j;
        assert path[1..] == rest && Child(value, k) == Some(fields[k].value);
      }
  }

  /** The scan passes exactly the payloads in which no object at any depth has a forbidden key. */
  lemma CleanIff(value: Json)
    ensures Clean(value) <==> forall path, i :: !SecretAt(value, path, i)
  {
    if Clean(value) {
      forall path, i ensures !SecretAt(value, path, i) { CleanHasNoSecret(value, path, i); }
    } else {
      var path, i := SecretFound(value);
    }
  }

  /** Separators and case hide nothing: they may be put anywhere in a key. */
  lemma {:induction false} SeparatorsIgnored(a: string, separator: char, b: string)
    requires separator in {'_', '-'}
    ensures Canonical(a + [separator] + b) == Canonical(a + b)
  {
    if a == "" {
      assert a + [separator] + b == [separator] + b && a + b == b;
      assert ([separator] + b)[1..] == b;
    } else {
      assert (a + [separator] + b)[1..] == a[1..] + [separator] + b && (a + b)[1..] == a[1..] + b;
      SeparatorsIgnored(a[1..], separator, b);
    }
  }
}
