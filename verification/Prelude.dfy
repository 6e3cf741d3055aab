/** Small shared vocabulary: optional values, command results and rows grouped by key. */
module Prelude {
  datatype Option<+T> = None | Some(value: T) {
    function GetOr(default: T): T {
      if Some? then value else default
    }
  }

  datatype Result<+T, +E> = Success(value: T) | Failure(error: E)

  /** Milliseconds since the epoch, as `Date.getTime()` reports them. */
  type Time = int

  type PersonId = nat
  type AccountId = nat
  type BookingId = nat
  type AssignmentId = nat
  type JourneyId = nat
  type Key = string

  /** The rows of an append-only table that belong to one key, oldest first. */
  function Rows<K, V>(table: map<K, seq<V>>, key: K): seq<V> {
    if key in table then table[key] else []
  }

  function AppendRow<K, V>(table: map<K, seq<V>>, key: K, row: V): map<K, seq<V>> {
    table[key := Rows(table, key) + [row]]
  }

  /** INSERT of `rows` under consecutive ids from `first` on. */
  function InsertRows<V>(table: map<nat, V>, first: nat, rows: seq<V>): (r: map<nat, V>)
    ensures forall k :: k in r <==> k in table || first <= k < first + |rows|
    ensures forall k :: k in r ==> r[k] == if first <= k < first + |rows| then rows[k - first] else table[k]
  {
    if rows == [] then table
    else InsertRows(table, first, rows[..|rows| - 1])[first + |rows| - 1 := rows[|rows| - 1]]
  }

  function FilterSeq<T(!new)>(p: T -> bool, xs: seq<T>): (ys: seq<T>)
    ensures forall y :: y in ys <==> y in xs && p(y)
    ensures |ys| <= |xs|
  {
    if xs == [] then []
    else (if p(xs[0]) then [xs[0]] else []) + FilterSeq(p, xs[1..])
  }

  predicate Distinct<T(==)>(xs: seq<T>) {
    forall i, j :: 0 <= i < j < |xs| ==> xs[i] != xs[j]
  }

  lemma {:induction false} FilterDistinct<T(!new)>(p: T -> bool, xs: seq<T>)
    requires Distinct(xs)
    ensures Distinct(FilterSeq(p, xs))
  {
    if xs != [] {
      FilterDistinct(p, xs[1..]);
      assert xs[0] !in xs[1..];
    }
  }

  lemma {:induction false} FilterAppend<T(!new)>(p: T -> bool, xs: seq<T>, y: T)
    ensures FilterSeq(p, xs + [y]) == FilterSeq(p, xs) + if p(y) then [y] else []
  {
    if xs == [] {
      assert [] + [y] == [y];
    } else {
      FilterAppend(p, xs[1..], y);
      assert (xs + [y])[1..] == xs[1..] + [y];
    }
  }

  lemma EmptyIffNoMember<T(!new)>(xs: seq<T>)
    ensures xs == [] <==> forall x :: x !in xs
  {
    if xs != [] { assert xs[0] in xs; }
  }

  /** `toUpperCase()` on ASCII letters. */
  function Upper(s: string): string {
    seq(|s|, i requires 0 <= i < |s| => if 'a' <= s[i] <= 'z' then (s[i] - 'a') + 'A' else s[i])
  }

  predicate IsSpace(c: char) {
    c in {' ', '\t', '\n', '\r'}
  }

  function TrimLeft(s: string): string {
    if s != "" && IsSpace(s[0]) then TrimLeft(s[1..]) else s
  }

  function TrimRight(s: string): string {
    if s != "" && IsSpace(s[|s| - 1]) then TrimRight(s[..|s| - 1]) else s
  }

  function Trim(s: string): string {
    TrimRight(TrimLeft(s))
  }

  lemma {:induction false} TrimRightEmptyIff(s: string)
    ensures TrimRight(s) == "" <==> forall i :: 0 <= i < |s| ==> IsSpace(s[i])
  {
    if s != "" && IsSpace(s[|s| - 1]) {
      TrimRightEmptyIff(s[..|s| - 1]);
      assert forall i :: 0 <= i < |s| - 1 ==> s[..|s| - 1][i] == s[i];
    }
  }

  /** A string trims to nothing exactly if it is blank. */
  lemma {:induction false} TrimEmptyIff(s: string)
    ensures Trim(s) == "" <==> forall i :: 0 <= i < |s| ==> IsSpace(s[i])
  {
    if s != "" && IsSpace(s[0]) {
      TrimEmptyIff(s[1..]);
      assert forall i :: 0 <= i < |s| - 1 ==> s[1..][i] == s[i + 1];
      assert forall i :: 0 < i < |s| ==> s[i] == s[1..][i - 1];
    } else {
      TrimRightEmptyIff(s);
    }
  }

  lemma NothingToTrim(s: string)
    requires s != "" && !IsSpace(s[0]) && !IsSpace(s[|s| - 1])
    ensures Trim(s) == s
  {
  }

  /** assertCurrencyCode: judged on the trimmed, upper-case form. */
  predicate IsCurrency(s: string) {
    var code := Upper(Trim(s));
    |code| == 3 && forall i :: 0 <= i < 3 ==> 'A' <= code[i] <= 'Z'
  }
}
