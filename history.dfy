/**
 * The history buffer of the dashboard hook (web/dashboard/src/hooks/useTelemetryData.ts):
 * the reducer that folds one pushed sample into the buffer, and the ordering
 * the bootstrap fetch applies to the records it receives.
 *
 * The pushed-sample reducer is a pipeline of three steps, each modelled as the
 * JavaScript it comes from:
 *   - `reduce` into a `Map` keyed by `collectedAt`  ->  Dedup
 *   - `Array.prototype.sort` by parsed time          ->  SortByTime (stable)
 *   - `slice(-HISTORY_LIMIT)`                         ->  Newest
 */
module History {
  import opened Wrappers
  import opened Telemetry

  /** `HISTORY_LIMIT`: the number of samples the buffer keeps. */
  const HistoryLimit: nat := 120

  ghost predicate Sorted(s: seq<Record>) {
    forall i, j :: 0 <= i < j < |s| ==> s[i].collectedAt <= s[j].collectedAt
  }

  ghost predicate StrictlyIncreasing(s: seq<Record>) {
    forall i, j :: 0 <= i < j < |s| ==> s[i].collectedAt < s[j].collectedAt
  }

  ghost predicate DistinctKeys(s: seq<Record>) {
    forall i, j :: 0 <= i < j < |s| ==> s[i].collectedAt != s[j].collectedAt
  }

  /** The buffer invariant a pushed sample re-establishes. */
  ghost predicate ValidHistory(h: seq<Record>) {
    StrictlyIncreasing(h) && |h| <= HistoryLimit
  }

  /** The set of `collectedAt` keys occurring in `s`. */
  ghost function Keys(s: seq<Record>): set<int> {
    set r | r in s :: r.collectedAt
  }

  /** The records of `s` whose key is `k`, in their order in `s`. */
  ghost function WithKey(s: seq<Record>, k: int): seq<Record> {
    if s == [] then []
    else (if s[0].collectedAt == k then [s[0]] else []) + WithKey(s[1..], k)
  }

  /** The last record of `s` whose key is `k`, if any. */
  ghost function LastOfKey(s: seq<Record>, k: int): Option<Record> {
    if s == [] then None
    else if s[|s| - 1].collectedAt == k then Some(s[|s| - 1])
    else LastOfKey(s[..|s| - 1], k)
  }

  // ---------------------------------------------------------------------------
  // Map semantics: `map.set(record.collectedAt, record)`

  /**
   * `map.set(r.collectedAt, r)` on a Map seen as its entries in insertion
   * order: an existing key keeps its position and takes the new record, a new
   * key is added last.
   */
  function SetByKey(m: seq<Record>, r: Record): seq<Record> {
    if m == [] then [r]
    else if m[0].collectedAt == r.collectedAt then [r] + m[1..]
    else [m[0]] + SetByKey(m[1..], r)
  }

  /**
   * `Array.from(next.reduce((map, record) => map.set(record.collectedAt, record), new Map()).values())`:
   * one entry per key, in order of first appearance, holding the last record
   * with that key.
   */
  function Dedup(s: seq<Record>): seq<Record> {
    if s == [] then [] else SetByKey(Dedup(s[..|s| - 1]), s[|s| - 1])
  }

  /** A key not yet in the Map is added as its last entry. */
  lemma {:induction false} SetByKeyAppends(m: seq<Record>, r: Record)
    requires forall j :: 0 <= j < |m| ==> m[j].collectedAt != r.collectedAt
    ensures SetByKey(m, r) == m + [r]
  {
    if m != [] {
      SetByKeyAppends(m[1..], r);
      assert m == [m[0]] + m[1..];
    }
  }

  /** An existing key keeps its position and takes the new record. */
  lemma {:induction false} SetByKeyReplaces(m: seq<Record>, r: Record, i: nat)
    requires i < |m| && m[i].collectedAt == r.collectedAt
    requires forall j :: 0 <= j < i ==> m[j].collectedAt != r.collectedAt
    ensures SetByKey(m, r) == m[i := r]
  {
    if i > 0 {
      SetByKeyReplaces(m[1..], r, i - 1);
      assert m[i := r] == [m[0]] + m[1..][i - 1 := r];
    }
  }

  /** Keys of a sequence extended by one record. */
  lemma KeysSnoc(s: seq<Record>, x: Record)
    ensures Keys(s + [x]) == Keys(s) + {x.collectedAt}
  {
    assert forall r :: r in s + [x] <==> r in s || r == x;
  }

  /** The keys of a sequence, by index. */
  lemma KeysAt(s: seq<Record>, k: int)
    ensures k in Keys(s) <==> exists i :: 0 <= i < |s| && s[i].collectedAt == k
  {
    if k in Keys(s) {
      var r :| r in s && r.collectedAt == k;
      var i :| 0 <= i < |s| && s[i] == r;
    }
  }

  /** Replacing one record by another with the same key keeps the keys. */
  lemma KeysReplace(d: seq<Record>, i: nat, x: Record)
    requires i < |d| && d[i].collectedAt == x.collectedAt
    ensures Keys(d[i := x]) == Keys(d)
    ensures DistinctKeys(d) ==> DistinctKeys(d[i := x])
  {
    var d' := d[i := x];
    assert forall j :: 0 <= j < |d| ==> d'[j].collectedAt == d[j].collectedAt;
    forall k ensures k in Keys(d') <==> k in Keys(d) { KeysAt(d, k); KeysAt(d', k); }
  }

  /** The Map reduce keeps exactly one entry per key occurring in the input. */
  lemma {:induction false} DedupKeys(s: seq<Record>)
    ensures DistinctKeys(Dedup(s))
    ensures Keys(Dedup(s)) == Keys(s)
  {
    if s != [] {
      var p, x := s[..|s| - 1], s[|s| - 1];
      assert s == p + [x];
      DedupKeys(p);
      var d := Dedup(p);
      KeysSnoc(p, x);
      KeysAt(d, x.collectedAt);
      if i :| 0 <= i < |d| && d[i].collectedAt == x.collectedAt {
        SetByKeyReplaces(d, x, i);
        KeysReplace(d, i, x);
      } else {
        SetByKeyAppends(d, x);
        KeysSnoc(d, x);
      }
    }
  }

  /** Each entry the Map reduce keeps is the last record with its key (later wins). */
  lemma {:induction false} DedupLastWins(s: seq<Record>)
    ensures forall r :: r in Dedup(s) ==> LastOfKey(s, r.collectedAt) == Some(r)
  {
    if s != [] {
      var p, x := s[..|s| - 1], s[|s| - 1];
      DedupLastWins(p);
      DedupKeys(p);
      var d := Dedup(p);
      if i :| 0 <= i < |d| && d[i].collectedAt == x.collectedAt {
        SetByKeyReplaces(d, x, i);
        forall r | r in d[i := x] ensures LastOfKey(s, r.collectedAt) == Some(r) {
          var j :| 0 <= j < |d| && d[i := x][j] == r;
          if j != i {
            assert r == d[j] && r in d;
          }
        }
      } else {
        SetByKeyAppends(d, x);
        forall r | r in d + [x] ensures LastOfKey(s, r.collectedAt) == Some(r) {
          if r != x {
            assert r in d;
          }
        }
      }
    }
  }

  /** On input with distinct keys the Map reduce is the identity. */
  lemma {:induction false} DedupOfDistinct(s: seq<Record>)
    requires DistinctKeys(s)
    ensures Dedup(s) == s
  {
    if s != [] {
      var p, x := s[..|s| - 1], s[|s| - 1];
      DedupOfDistinct(p);
      SetByKeyAppends(p, x);
      assert s == p + [x];
    }
  }

  /** A sequence with distinct keys has as many keys as elements. */
  lemma {:induction false} DistinctKeysCount(s: seq<Record>)
    requires DistinctKeys(s)
    ensures |Keys(s)| == |s|
  {
    if s != [] {
      var p, x := s[..|s| - 1], s[|s| - 1];
      assert s == p + [x];
      DistinctKeysCount(p);
      KeysSnoc(p, x);
      KeysAt(p, x.collectedAt);
    }
  }

  // ---------------------------------------------------------------------------
  // `Array.prototype.sort` with comparator `time(a) - time(b)`: a stable sort

  /** Places `r` before the first record of `s` that is not older than it. */
  function Insert(r: Record, s: seq<Record>): seq<Record> {
    if s == [] || r.collectedAt <= s[0].collectedAt then [r] + s
    else [s[0]] + Insert(r, s[1..])
  }

  /** Stable sort ascending by `collectedAt` (insertion sort). */
  function SortByTime(s: seq<Record>): seq<Record> {
    if s == [] then [] else Insert(s[0], SortByTime(s[1..]))
  }

  lemma {:induction false} InsertPermutes(r: Record, s: seq<Record>)
    ensures multiset(Insert(r, s)) == multiset(s) + multiset{r}
    ensures Insert(r, s)[0] == r || (s != [] && Insert(r, s)[0] == s[0])
  {
    if !(s == [] || r.collectedAt <= s[0].collectedAt) {
      InsertPermutes(r, s[1..]);
      calc {
        multiset(Insert(r, s));
        multiset([s[0]] + Insert(r, s[1..]));
        multiset([s[0]]) + multiset(Insert(r, s[1..]));
        multiset([s[0]]) + multiset(s[1..]) + multiset{r};
        { assert s == [s[0]] + s[1..]; }
        multiset(s) + multiset{r};
      }
    }
  }

  lemma {:induction false} InsertSorted(r: Record, s: seq<Record>)
    requires Sorted(s)
    ensures Sorted(Insert(r, s))
  {
    if !(s == [] || r.collectedAt <= s[0].collectedAt) {
      InsertSorted(r, s[1..]);
      InsertPermutes(r, s[1..]);
    }
  }

  lemma {:induction false} InsertStrict(r: Record, s: seq<Record>)
    requires StrictlyIncreasing(s)
    requires forall j :: 0 <= j < |s| ==> s[j].collectedAt != r.collectedAt
    ensures StrictlyIncreasing(Insert(r, s))
  {
    if !(s == [] || r.collectedAt <= s[0].collectedAt) {
      InsertStrict(r, s[1..]);
      InsertPermutes(r, s[1..]);
    }
  }

  lemma {:induction false} InsertWithKey(r: Record, s: seq<Record>, k: int)
    ensures WithKey(Insert(r, s), k) == (if r.collectedAt == k then [r] else []) + WithKey(s, k)
  {
    if !(s == [] || r.collectedAt <= s[0].collectedAt) {
      InsertWithKey(r, s[1..], k);
    }
  }

  lemma {:induction false} SortByTimeSorted(s: seq<Record>)
    ensures Sorted(SortByTime(s))
  {
    if s != [] {
      SortByTimeSorted(s[1..]);
      InsertSorted(s[0], SortByTime(s[1..]));
    }
  }

  lemma {:induction false} SortByTimePermutes(s: seq<Record>)
    ensures multiset(SortByTime(s)) == multiset(s)
  {
    if s != [] {
      SortByTimePermutes(s[1..]);
      InsertPermutes(s[0], SortByTime(s[1..]));
      calc {
        multiset(SortByTime(s));
        multiset(Insert(s[0], SortByTime(s[1..])));
        multiset(s[1..]) + multiset{s[0]};
        { assert s == [s[0]] + s[1..]; }
        multiset(s);
      }
    }
  }

  lemma {:induction false} SortByTimeStable(s: seq<Record>, k: int)
    ensures WithKey(SortByTime(s), k) == WithKey(s, k)
  {
    if s != [] {
      SortByTimeStable(s[1..], k);
      InsertWithKey(s[0], SortByTime(s[1..]), k);
    }
  }

  /**
   * SortByTime is a stable sort: the result is ascending, a permutation of the
   * input, and records sharing a key keep their input order. The three
   * together determine the result of any stable sort uniquely.
   */
  lemma SortByTimeIsStableSort(s: seq<Record>)
    ensures Sorted(SortByTime(s))
    ensures multiset(SortByTime(s)) == multiset(s)
    ensures forall k :: WithKey(SortByTime(s), k) == WithKey(s, k)
  {
    SortByTimeSorted(s);
    SortByTimePermutes(s);
    forall k ensures WithKey(SortByTime(s), k) == WithKey(s, k) {
      SortByTimeStable(s, k);
    }
  }

  /** Sorting keeps the records and hence the keys and the length. */
  lemma SortKeepsMembers(s: seq<Record>)
    ensures |SortByTime(s)| == |s|
    ensures forall r :: r in SortByTime(s) <==> r in s
    ensures Keys(SortByTime(s)) == Keys(s)
  {
    SortByTimeIsStableSort(s);
    assert |multiset(SortByTime(s))| == |multiset(s)|;
    forall r ensures r in SortByTime(s) <==> r in s {
      assert r in SortByTime(s) <==> r in multiset(SortByTime(s));
      assert r in s <==> r in multiset(s);
    }
  }

  /** Sorting a sequence with distinct keys yields strictly increasing keys. */
  lemma {:induction false} SortOfDistinct(s: seq<Record>)
    requires DistinctKeys(s)
    ensures StrictlyIncreasing(SortByTime(s))
  {
    if s != [] {
      var tail := s[1..];
      SortOfDistinct(tail);
      SortKeepsMembers(tail);
      var st := SortByTime(tail);
      forall j | 0 <= j < |st| ensures st[j].collectedAt != s[0].collectedAt {
        assert st[j] in tail;
        var i :| 0 <= i < |tail| && tail[i] == st[j];
        assert s[i + 1] == st[j];
      }
      InsertStrict(s[0], st);
    }
  }

  /** Sorting an already ascending sequence changes nothing. */
  lemma {:induction false} SortOfSorted(s: seq<Record>)
    requires Sorted(s)
    ensures SortByTime(s) == s
  {
    if s != [] {
      SortOfSorted(s[1..]);
      assert s == [s[0]] + s[1..];
    }
  }

  // ---------------------------------------------------------------------------
  // `slice(-HISTORY_LIMIT)` and the pushed-sample reducer

  /** `s.slice(-n)` for n > 0: the last `n` elements, or all of `s` when shorter. */
  function Newest(s: seq<Record>, n: nat): (r: seq<Record>)
    ensures |r| == if |s| <= n then |s| else n
    ensures r == s[|s| - |r|..]
  {
    if |s| <= n then s else s[|s| - n..]
  }

  /**
   * The newest `n` of a strictly ascending sequence: still strictly
   * ascending, `min(n, |t|)` long, and every record left out is older than
   * every record kept.
   */
  lemma NewestOfAscending(t: seq<Record>, n: nat)
    requires StrictlyIncreasing(t)
    ensures StrictlyIncreasing(Newest(t, n))
    ensures |Newest(t, n)| == if |t| <= n then |t| else n
    ensures forall r :: r in Newest(t, n) ==> r in t
    ensures forall y, r :: y in t && y.collectedAt !in Keys(Newest(t, n)) && r in Newest(t, n) ==>
              y.collectedAt < r.collectedAt
  {
    if |t| > n {
      SuffixOfAscending(t, |t| - n);
    }
  }

  /** A suffix `t[off..]` of a strictly ascending sequence: everything left out is older. */
  lemma SuffixOfAscending(t: seq<Record>, off: nat)
    requires StrictlyIncreasing(t) && off <= |t|
    ensures forall y, r :: y in t && y.collectedAt !in Keys(t[off..]) && r in t[off..] ==>
              y.collectedAt < r.collectedAt
  {
    var h := t[off..];
    forall y, r | y in t && y.collectedAt !in Keys(h) && r in h ensures y.collectedAt < r.collectedAt {
      var i :| 0 <= i < |t| && t[i] == y;
      var j :| 0 <= j < |h| && h[j] == r;
      assert h[j] == t[off + j];
    }
  }

  /** The `setHistory` reducer of `onmessage`: append, dedup, sort, keep the newest. */
  function PushSample(prev: seq<Record>, payload: Record): seq<Record> {
    Newest(SortByTime(Dedup(prev + [payload])), HistoryLimit)
  }

  /**
   * After a pushed sample the buffer is strictly ascending, holds at most
   * HistoryLimit records, holds for each of its keys the last record that
   * arrived with that key, and holds exactly the newest
   * min(HistoryLimit, number of distinct keys) keys seen: every key it
   * dropped is older than every key it kept.
   */
  lemma PushSampleSpec(prev: seq<Record>, payload: Record)
    ensures ValidHistory(PushSample(prev, payload))
    ensures forall r :: r in PushSample(prev, payload) ==> LastOfKey(prev + [payload], r.collectedAt) == Some(r)
    ensures |PushSample(prev, payload)| ==
              if |Keys(prev + [payload])| <= HistoryLimit then |Keys(prev + [payload])| else HistoryLimit
    ensures forall x, r ::
              (x in prev + [payload] && x.collectedAt !in Keys(PushSample(prev, payload)) && r in PushSample(prev, payload))
              ==> x.collectedAt < r.collectedAt
  {
    var all := prev + [payload];
    var d := Dedup(all);
    DedupKeys(all);
    DedupLastWins(all);
    DistinctKeysCount(d);
    SortOfDistinct(d);
    SortKeepsMembers(d);
    var t := SortByTime(d);
    NewestOfAscending(t, HistoryLimit);
    forall x | x in all ensures exists y :: y in t && y.collectedAt == x.collectedAt {
      assert x.collectedAt in Keys(t);
    }
  }

  /** The pushed buffer is ascending; the form the hook's invariant uses. */
  lemma PushSampleSorted(prev: seq<Record>, payload: Record)
    ensures Sorted(PushSample(prev, payload))
  {
    PushSampleSpec(prev, payload);
  }

  /**
   * The record just pushed is in the buffer whenever its key is, and when it
   * was dropped the buffer is full of strictly newer records.
   */
  lemma PushSampleKeepsPayload(prev: seq<Record>, payload: Record)
    ensures payload.collectedAt in Keys(PushSample(prev, payload)) ==> payload in PushSample(prev, payload)
    ensures payload.collectedAt !in Keys(PushSample(prev, payload)) ==>
              |PushSample(prev, payload)| == HistoryLimit &&
              forall r :: r in PushSample(prev, payload) ==> payload.collectedAt < r.collectedAt
  {
    var all := prev + [payload];
    var h := PushSample(prev, payload);
    PushSampleSpec(prev, payload);
    assert LastOfKey(all, payload.collectedAt) == Some(payload);
    var d := Dedup(all);
    DedupKeys(all);
    SortKeepsMembers(d);
    var t := SortByTime(d);
    if |t| <= HistoryLimit {
      assert h == t;
      assert payload.collectedAt in Keys(all) by { assert payload in all; }
    }
  }

  /**
   * A sample newer than everything in a strictly ascending buffer is simply
   * appended, dropping the oldest record when the buffer was full.
   */
  lemma PushInOrder(prev: seq<Record>, payload: Record)
    requires StrictlyIncreasing(prev)
    requires prev == [] || prev[|prev| - 1].collectedAt < payload.collectedAt
    ensures PushSample(prev, payload) == Newest(prev + [payload], HistoryLimit)
  {
    var all := prev + [payload];
    assert StrictlyIncreasing(all);
    DedupOfDistinct(all);
    SortOfSorted(all);
  }

  /**
   * A sample whose key is already in a valid buffer overwrites that entry in
   * place: the buffer neither grows nor reorders.
   */
  lemma PushDuplicate(prev: seq<Record>, payload: Record, i: nat)
    requires ValidHistory(prev)
    requires i < |prev| && prev[i].collectedAt == payload.collectedAt
    ensures PushSample(prev, payload) == prev[i := payload]
  {
    var all := prev + [payload];
    assert all[..|all| - 1] == prev;
    DedupOfDistinct(prev);
    SetByKeyReplaces(prev, payload, i);
    assert Dedup(all) == prev[i := payload];
    assert Sorted(prev[i := payload]);
    SortOfSorted(prev[i := payload]);
  }

  // ---------------------------------------------------------------------------
  // Bootstrap

  /** `ordered[ordered.length - 1]`: the last record, `undefined` when empty. */
  function LastSample(h: seq<Record>): (r: Option<Record>)
    ensures r.None? <==> h == []
    ensures r.Some? ==> r.value == h[|h| - 1]
    ensures r.Some? ==> r.value in h && forall x :: x in h ==> Sorted(h) ==> x.collectedAt <= r.value.collectedAt
  {
    if h == [] then None else Some(h[|h| - 1])
  }
}
