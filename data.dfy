/** The mock record generator (src/data.ts, createLogs): build `count`
    records whose fields derive from their index, then sort them by
    timestamp in place.

    The timestamp of record i, drawn at random in the source, is supplied
    by the caller as `draw(i)`. */
module Data {
  import opened NumberText

  datatype ObjectField = ObjectField(key: string)

  datatype Log = Log(
    body: string,
    severity: string,
    timestamp: int,
    id: string,
    stringField: string,
    numberField: int,
    objectField: ObjectField)

  const StringPrefix: string := "string "

  /** `id ${from}${to}${i}` */
  function RecordId(from: int, to: int, i: nat): string {
    "id " + IntToString(from) + IntToString(to) + NatToString(i)
  }

  function Severity(i: nat): string {
    if i % 5 == 1 then "error" else "info"
  }

  function Body(timestamp: int, i: nat, id: string, number: nat, str: string): string {
    "timestamp=" + IntToString(timestamp) + " line=" + NatToString(i) + " id=" + id
      + " number=" + NatToString(number) + " string=" + str
  }

  /** The record built on loop iteration i. */
  function MakeLog(i: nat, from: int, to: int, timestamp: int): Log {
    var id := RecordId(from, to, i);
    var number := i + 1000;
    var str := StringPrefix + NatToString(i);
    Log(Body(timestamp, i, id, number, str), Severity(i), timestamp, id, str, number,
        ObjectField("value " + NatToString(i)))
  }

  /** How many records the loop builds: `count`, or none when it is not positive. */
  function RecordCount(count: int): nat {
    if count > 0 then count else 0
  }

  /** The records in the order the loop pushes them. */
  function Built(count: int, from: int, to: int, draw: nat -> int): (s: seq<Log>)
    ensures |s| == RecordCount(count)
  {
    seq(RecordCount(count), i requires 0 <= i => MakeLog(i, from, to, draw(i)))
  }

  // ---------------------------------------------------------------------
  // Properties of the built records
  // ---------------------------------------------------------------------

  /** Record i of the loop: its timestamp is draw i, its id names the
      window and the index, one in five (index 1 mod 5) is an error, and
      its body repeats its own timestamp, index, id, number and string. */
  lemma BuiltRecordFields(count: int, from: int, to: int, draw: nat -> int, i: nat)
    requires i < RecordCount(count)
    ensures
      var log := Built(count, from, to, draw)[i];
      && log.timestamp == draw(i)
      && log.id == "id " + IntToString(from) + IntToString(to) + NatToString(i)
      && (log.severity == "error" <==> i % 5 == 1)
      && (log.severity != "error" ==> log.severity == "info")
      && log.numberField == i + 1000
      && log.stringField == "string " + NatToString(i)
      && log.objectField == ObjectField("value " + NatToString(i))
      && log.body == "timestamp=" + IntToString(log.timestamp) + " line=" + NatToString(i)
           + " id=" + log.id + " number=" + NatToString(log.numberField) + " string=" + log.stringField
  {
    assert Built(count, from, to, draw)[i] == MakeLog(i, from, to, draw(i));
  }

  /** Within one call the ids are pairwise distinct. */
  lemma BuiltIdsDistinct(count: int, from: int, to: int, draw: nat -> int, i: nat, j: nat)
    requires i < j < RecordCount(count)
    ensures Built(count, from, to, draw)[i].id != Built(count, from, to, draw)[j].id
  {
    var prefix := "id " + IntToString(from) + IntToString(to);
    assert Built(count, from, to, draw)[i] == MakeLog(i, from, to, draw(i));
    assert Built(count, from, to, draw)[j] == MakeLog(j, from, to, draw(j));
    var a := Built(count, from, to, draw)[i].id;
    var b := Built(count, from, to, draw)[j].id;
    assert a == prefix + NatToString(i) by { assert a == RecordId(from, to, i); }
    assert b == prefix + NatToString(j) by { assert b == RecordId(from, to, j); }
    if a == b {
      assert NatToString(i) == a[|prefix|..];
      assert NatToString(j) == b[|prefix|..];
      NatToStringInjective(i, j);
    }
  }

  /** The index of a record can be read back from its string field, and
      agrees with its number field and its object field. */
  lemma BuiltIndexRecoverable(count: int, from: int, to: int, draw: nat -> int, i: nat)
    requires i < RecordCount(count)
    ensures
      var log := Built(count, from, to, draw)[i];
      && |log.stringField| > |StringPrefix|
      && log.stringField[..|StringPrefix|] == StringPrefix
      && AllDigits(log.stringField[|StringPrefix|..])
      && ParseNat(log.stringField[|StringPrefix|..]) == i
      && log.numberField == i + 1000
      && log.objectField.key == "value " + log.stringField[|StringPrefix|..]
  {
    var log := Built(count, from, to, draw)[i];
    assert log == MakeLog(i, from, to, draw(i));
    assert log.stringField == StringPrefix + NatToString(i);
    assert log.stringField[|StringPrefix|..] == NatToString(i);
    ParseNatToString(i);
  }

  /** How many records of s have severity "error". */
  function ErrorCount(s: seq<Log>): nat {
    if s == [] then 0
    else ErrorCount(s[..|s| - 1]) + (if s[|s| - 1].severity == "error" then 1 else 0)
  }

  /** Every fifth record, starting with the second, is an error: among n
      records, (n + 3) / 5 are. */
  lemma {:induction false} BuiltErrorCount(count: int, from: int, to: int, draw: nat -> int)
    ensures ErrorCount(Built(count, from, to, draw)) == (RecordCount(count) + 3) / 5
  {
    if count > 0 {
      var s := Built(count, from, to, draw);
      assert s[..|s| - 1] == Built(count - 1, from, to, draw);
      BuiltErrorCount(count - 1, from, to, draw);
      assert s[count - 1] == MakeLog(count - 1, from, to, draw(count - 1));
      assert s[count - 1].severity == Severity(count - 1);
      OneMoreError(count - 1);
    }
  }

  lemma OneMoreError(m: nat)
    ensures (m + 4) / 5 == (m + 3) / 5 + (if m % 5 == 1 then 1 else 0)
  {
    var q, r := m / 5, m % 5;
    assert m == 5 * q + r;
    if r == 0 {
      assert (m + 4) / 5 == q && (m + 3) / 5 == q;
    } else if r == 1 {
      assert (m + 4) / 5 == q + 1 && (m + 3) / 5 == q;
    } else {
      assert (m + 4) / 5 == q + 1 && (m + 3) / 5 == q + 1;
    }
  }

  // ---------------------------------------------------------------------
  // Sorting by timestamp
  // ---------------------------------------------------------------------

  predicate SortedByTimestamp(s: seq<Log>) {
    forall i, j :: 0 <= i < j < |s| ==> s[i].timestamp <= s[j].timestamp
  }

  /** The records of s whose timestamp is t, in their order in s. */
  function WithTimestamp(s: seq<Log>, t: int): seq<Log> {
    if s == [] then []
    else WithTimestamp(s[..|s| - 1], t) + (if s[|s| - 1].timestamp == t then [s[|s| - 1]] else [])
  }

  /** Puts x after every element of s whose timestamp is not later than
      x's, moving from the right end as the in-place loop does. */
  function Insert(x: Log, s: seq<Log>): seq<Log> {
    if s == [] || s[|s| - 1].timestamp <= x.timestamp then s + [x]
    else Insert(x, s[..|s| - 1]) + [s[|s| - 1]]
  }

  /** Stable sort by timestamp, defined by insertion. */
  function SortByTimestamp(s: seq<Log>): seq<Log> {
    if s == [] then [] else Insert(s[|s| - 1], SortByTimestamp(s[..|s| - 1]))
  }

  lemma {:induction false} InsertPermutes(x: Log, s: seq<Log>)
    ensures multiset(Insert(x, s)) == multiset(s) + multiset{x}
  {
    if s != [] && s[|s| - 1].timestamp > x.timestamp {
      var init := s[..|s| - 1];
      InsertPermutes(x, init);
      assert s == init + [s[|s| - 1]];
    }
  }

  lemma {:induction false} InsertSorted(x: Log, s: seq<Log>)
    requires SortedByTimestamp(s)
    ensures SortedByTimestamp(Insert(x, s))
  {
    if s != [] && s[|s| - 1].timestamp > x.timestamp {
      var init, last := s[..|s| - 1], s[|s| - 1];
      InsertSorted(x, init);
      InsertPermutes(x, init);
      var r := Insert(x, init);
      forall k | 0 <= k < |r|
        ensures r[k].timestamp <= last.timestamp
      {
        assert r[k] in multiset(init) + multiset{x};
        if r[k] != x {
          assert r[k] in init;
        }
      }
    }
  }

  lemma {:induction false} WithTimestampAppend(a: seq<Log>, b: seq<Log>, t: int)
    ensures WithTimestamp(a + b, t) == WithTimestamp(a, t) + WithTimestamp(b, t)
  {
    if b != [] {
      var init := b[..|b| - 1];
      assert (a + b)[..|a + b| - 1] == a + init;
      WithTimestampAppend(a, init, t);
    } else {
      assert a + b == a;
    }
  }

  /** A one-record list keeps its record exactly when the record has timestamp t. */
  lemma WithTimestampSingle(x: Log, t: int)
    ensures WithTimestamp([x], t) == if x.timestamp == t then [x] else []
  {
    assert [x][..0] == [];
  }

  /** Insert keeps, for every timestamp, the order of the records that
      carry it, with x placed after the ones already there. */
  lemma {:induction false} InsertStable(x: Log, s: seq<Log>, t: int)
    ensures WithTimestamp(Insert(x, s), t) == WithTimestamp(s + [x], t)
  {
    if s != [] && s[|s| - 1].timestamp > x.timestamp {
      var init, last := s[..|s| - 1], s[|s| - 1];
      var wx, wl := WithTimestamp([x], t), WithTimestamp([last], t);
      // last is later than x, so at most one of the two carries timestamp t
      WithTimestampSingle(x, t);
      WithTimestampSingle(last, t);
      calc {
        WithTimestamp(Insert(x, s), t);
        WithTimestamp(Insert(x, init) + [last], t);
        { WithTimestampAppend(Insert(x, init), [last], t); }
        WithTimestamp(Insert(x, init), t) + wl;
        { InsertStable(x, init, t); }
        WithTimestamp(init + [x], t) + wl;
        { WithTimestampAppend(init, [x], t); }
        WithTimestamp(init, t) + wx + wl;
        WithTimestamp(init, t) + wl + wx;
        { WithTimestampAppend(init, [last], t); assert s == init + [last]; }
        WithTimestamp(s, t) + wx;
        { WithTimestampAppend(s, [x], t); }
        WithTimestamp(s + [x], t);
      }
    }
  }

  lemma {:induction false} SortByTimestampSorted(s: seq<Log>)
    ensures SortedByTimestamp(SortByTimestamp(s))
  {
    if s != [] {
      SortByTimestampSorted(s[..|s| - 1]);
      InsertSorted(s[|s| - 1], SortByTimestamp(s[..|s| - 1]));
    }
  }

  lemma {:induction false} SortByTimestampPermutes(s: seq<Log>)
    ensures multiset(SortByTimestamp(s)) == multiset(s)
  {
    if s != [] {
      var init, last := s[..|s| - 1], s[|s| - 1];
      SortByTimestampPermutes(init);
      InsertPermutes(last, SortByTimestamp(init));
      assert s == init + [last];
    }
  }

  /** Stability: for every timestamp, the records carrying it keep their
      input order. */
  lemma {:induction false} SortByTimestampStable(s: seq<Log>, t: int)
    ensures WithTimestamp(SortByTimestamp(s), t) == WithTimestamp(s, t)
  {
    if s != [] {
      var init, last := s[..|s| - 1], s[|s| - 1];
      SortByTimestampStable(init, t);
      InsertStable(last, SortByTimestamp(init), t);
      WithTimestampAppend(SortByTimestamp(init), [last], t);
      WithTimestampAppend(init, [last], t);
      assert s == init + [last];
    }
  }

  /** The sort yields a sorted, stable permutation of its input. */
  lemma SortByTimestampCorrect(s: seq<Log>)
    ensures SortedByTimestamp(SortByTimestamp(s))
    ensures multiset(SortByTimestamp(s)) == multiset(s)
    ensures forall t :: WithTimestamp(SortByTimestamp(s), t) == WithTimestamp(s, t)
  {
    SortByTimestampSorted(s);
    SortByTimestampPermutes(s);
    forall t
      ensures WithTimestamp(SortByTimestamp(s), t) == WithTimestamp(s, t)
    {
      SortByTimestampStable(s, t);
    }
  }

  /** x lands at position j when every element before j is not later than
      x (only the one at j - 1 matters in a sorted run) and every element
      from j on is later. */
  lemma {:induction false} InsertAt(x: Log, s: seq<Log>, j: nat)
    requires j <= |s|
    requires j == 0 || s[j - 1].timestamp <= x.timestamp
    requires forall k :: j <= k < |s| ==> s[k].timestamp > x.timestamp
    ensures Insert(x, s) == s[..j] + [x] + s[j..]
    decreases |s|
  {
    if j < |s| {
      var init, last := s[..|s| - 1], s[|s| - 1];
      InsertAt(x, init, j);
      assert init[..j] == s[..j];
      assert init[j..] + [last] == s[j..];
    } else {
      assert s[..j] == s;
    }
  }

  /** The array contents after one pass, stated on sequences: what was at
      i now sits at j, and the elements from j to i - 1 moved up by one. */
  lemma ShiftedIsInserted(before: seq<Log>, after: seq<Log>, i: nat, j: nat)
    requires i < |before| == |after| && j <= i
    requires forall k :: 0 <= k < j ==> after[k] == before[k]
    requires after[j] == before[i]
    requires forall k :: j < k <= i ==> after[k] == before[k - 1]
    requires forall k :: i < k < |after| ==> after[k] == before[k]
    requires j == 0 || before[j - 1].timestamp <= before[i].timestamp
    requires forall k :: j <= k < i ==> before[k].timestamp > before[i].timestamp
    ensures after == Insert(before[i], before[..i]) + before[i + 1..]
  {
    var sorted := before[..i];
    InsertAt(before[i], sorted, j);
    var inserted := sorted[..j] + [before[i]] + sorted[j..];
    forall k | 0 <= k < |after|
      ensures after[k] == (inserted + before[i + 1..])[k]
    {
    }
  }

  /** One pass of insertion sort: a[i] moves left past the run of
      elements directly before it whose timestamps are later than its own. */
  method InsertLast(a: array<Log>, i: nat)
    requires i < a.Length
    modifies a
    ensures a[..] == Insert(old(a[i]), old(a[..i])) + old(a[i + 1..])
  {
    var key := a[i];
    var j := i;
    while j > 0 && a[j - 1].timestamp > key.timestamp
      invariant 0 <= j <= i
      invariant forall k :: 0 <= k < j ==> a[k] == old(a[k])
      invariant forall k :: j < k <= i ==> a[k] == old(a[k - 1])
      invariant forall k :: j <= k < i ==> old(a[k]).timestamp > key.timestamp
      invariant forall k :: i < k < a.Length ==> a[k] == old(a[k])
    {
      a[j] := a[j - 1];
      j := j - 1;
    }
    a[j] := key;
    ShiftedIsInserted(old(a[..]), a[..], i, j);
  }

  /** `logs.sort((a, b) => a.timestamp - b.timestamp)`: a stable sort in
      place, carried out as an insertion sort. */
  method SortInPlace(a: array<Log>)
    modifies a
    ensures a[..] == SortByTimestamp(old(a[..]))
  {
    ghost var original := a[..];
    assert original[0..] == original;
    for i := 0 to a.Length
      invariant a[..] == SortByTimestamp(original[..i]) + original[i..]
    {
      ghost var done := SortByTimestamp(original[..i]);
      assert a[..i] == done && a[i] == original[i] && a[i + 1..] == original[i + 1..];
      InsertLast(a, i);
      assert original[..i + 1][..i] == original[..i];
    }
    assert original[..a.Length] == original;
  }

  /** Every record of s has its timestamp in [lo, hi]. */
  predicate TimestampsWithin(s: seq<Log>, lo: int, hi: int) {
    forall k :: 0 <= k < |s| ==> lo <= s[k].timestamp <= hi
  }

  lemma PermutationKeepsBounds(a: seq<Log>, b: seq<Log>, lo: int, hi: int)
    requires multiset(a) == multiset(b) && TimestampsWithin(b, lo, hi)
    ensures TimestampsWithin(a, lo, hi)
  {
    forall k | 0 <= k < |a|
      ensures lo <= a[k].timestamp <= hi
    {
      assert a[k] in multiset(b);
      var m :| 0 <= m < |b| && b[m] == a[k];
    }
  }

  /** createLogs: `count` records (none for a non-positive count), sorted by
      timestamp, holding exactly the records the loop built, with records
      of equal timestamp in the order they were built; when every draw lies
      in [from, to], so does every timestamp. */
  method CreateLogs(count: int, from: int, to: int, draw: nat -> int) returns (logs: seq<Log>)
    ensures |logs| == RecordCount(count)
    ensures SortedByTimestamp(logs)
    ensures multiset(logs) == multiset(Built(count, from, to, draw))
    ensures forall t :: WithTimestamp(logs, t) == WithTimestamp(Built(count, from, to, draw), t)
    ensures (forall i :: 0 <= i < count ==> from <= draw(i) <= to) ==> TimestampsWithin(logs, from, to)
  {
    var n := RecordCount(count);
    var a := new Log[n];
    for i := 0 to n
      invariant forall k :: 0 <= k < i ==> a[k] == MakeLog(k, from, to, draw(k))
    {
      var timestamp := draw(i);
      a[i] := MakeLog(i, from, to, timestamp);
    }
    ghost var built := Built(count, from, to, draw);
    forall k | 0 <= k < n
      ensures a[k] == built[k]
    {
    }
    assert a[..] == built;
    SortInPlace(a);
    logs := a[..];
    SortByTimestampCorrect(built);
    if forall i :: 0 <= i < count ==> from <= draw(i) <= to {
      assert TimestampsWithin(built, from, to);
      PermutationKeepsBounds(logs, built, from, to);
    }
  }
}
