/** The cancellation ledger of the transport prompt broker: an insertion-ordered map from a
    cancellation key to its time, purged by age and bounded in size. */
module CancellationLedger {
  import opened Text

  const WINDOW := 10 * 60 * 1000
  const CAPACITY := 1024

  datatype Entry = Entry(key: string, time: int)

  /** A JavaScript `Map` in insertion order. */
  type Ledger = seq<Entry>

  ghost predicate Distinct(l: Ledger) {
    forall i, j :: 0 <= i < j < |l| ==> l[i].key != l[j].key
  }

  ghost predicate Sorted(l: Ledger) {
    forall i, j :: 0 <= i < j < |l| ==> l[i].time <= l[j].time
  }

  predicate Has(l: Ledger, key: string) {
    exists i :: 0 <= i < |l| && l[i].key == key
  }

  // ---- the cancellation key ----

  function CancellationKey(plugin: string, operation: string): string {
    plugin + ['\0'] + operation
  }

  lemma NulsInKey(p: string, o: string)
    ensures var k := CancellationKey(p, o);
            && |k| == |p| + 1 + |o| && k[|p|] == '\0' && k[..|p|] == p && k[|p| + 1..] == o
            && (NulFree(p) ==> forall j :: 0 <= j < |p| ==> k[j] != '\0')
            && (NulFree(o) ==> forall j :: |p| < j < |k| ==> k[j] != '\0')
  {
    var k := CancellationKey(p, o);
    assert forall j :: 0 <= j < |p| ==> k[j] == p[j];
    assert forall j :: |p| < j < |k| ==> k[j] == o[j - |p| - 1];
  }

  /** Joining with NUL is injective as soon as either both plugin names or both operation names are
      free of NUL; the broker accepts neither kind with one. */
  lemma CancellationKeyIsInjective(p: string, o: string, p': string, o': string)
    requires (NulFree(p) && NulFree(p')) || (NulFree(o) && NulFree(o'))
    requires CancellationKey(p, o) == CancellationKey(p', o')
    ensures p == p' && o == o'
  {
    NulsInKey(p, o);
    NulsInKey(p', o');
    assert |p| == |p'|;
  }

  // ---- specification ----

  /** How many leading entries are older than `cutoff`. */
  function Stale(l: Ledger, cutoff: int): (n: nat)
    ensures n <= |l|
    ensures forall i :: 0 <= i < n ==> l[i].time < cutoff
    ensures n < |l| ==> l[n].time >= cutoff
  {
    if l == [] || l[0].time >= cutoff then 0 else 1 + Stale(l[1..], cutoff)
  }

  /** Entries leave from the front until one is young enough. */
  function Purge(l: Ledger, now: int): Ledger { l[Stale(l, now - WINDOW)..] }

  function Remove(l: Ledger, key: string): Ledger {
    if l == [] then []
    else if l[0].key == key then Remove(l[1..], key)
    else [l[0]] + Remove(l[1..], key)
  }

  function Evict(l: Ledger): Ledger {
    if |l| >= CAPACITY then l[|l| - CAPACITY + 1..] else l
  }

  function Remember(l: Ledger, key: string, now: int): Ledger {
    Evict(Remove(Purge(l, now), key)) + [Entry(key, now)]
  }

  /** `isCanceled`: the purged ledger, and whether the key is in it. */
  function IsCanceled(l: Ledger, key: string, now: int): (Ledger, bool) {
    (Purge(l, now), Has(Purge(l, now), key))
  }

  // ---- the loops of the source ----

  class CancellationMap {
    var entries: Ledger

    constructor ()
      ensures entries == []
    {
      entries := [];
    }

    /** `purgeCancellations`: the iteration stops at the first entry that is young enough. */
    method PurgeCancellations(now: int)
      modifies this
      ensures entries == Purge(old(entries), now)
    {
      var cutoff := now - WINDOW;
      ghost var i := 0;
      while entries != [] && entries[0].time < cutoff
        invariant 0 <= i <= |old(entries)|
        invariant entries == old(entries)[i..]
        invariant forall j :: 0 <= j < i ==> old(entries)[j].time < cutoff
      {
        entries := entries[1..];
        i := i + 1;
      }
      StaleIsFirst(old(entries), cutoff, i);
    }

    /** `Map.delete`: drops the entry of one key wherever it is. */
    method Delete(key: string)
      modifies this
      ensures entries == Remove(old(entries), key)
    {
      var kept: Ledger := [];
      for i := 0 to |entries|
        invariant entries == old(entries)
        invariant kept + Remove(entries[i..], key) == Remove(entries, key)
      {
        assert entries[i..][1..] == entries[i + 1..];
        if entries[i].key != key { kept := kept + [entries[i]]; }
      }
      entries := kept;
    }

    /** `rememberCancellation` */
    method RememberCancellation(key: string, now: int)
      modifies this
      ensures entries == Remember(old(entries), key, now)
    {
      PurgeCancellations(now);
      Delete(key);
      ghost var before := entries;
      while |entries| >= CAPACITY
        invariant |entries| <= |before| && entries == before[|before| - |entries|..]
        invariant |entries| < CAPACITY ==> |before| < CAPACITY || |entries| == CAPACITY - 1
        invariant |before| < CAPACITY ==> |entries| == |before|
      {
        entries := entries[1..];
      }
      entries := entries + [Entry(key, now)];
    }

    /** `isCanceled` */
    method CheckCanceled(key: string, now: int) returns (canceled: bool)
      modifies this
      ensures (entries, canceled) == IsCanceled(old(entries), key, now)
    {
      PurgeCancellations(now);
      canceled := Has(entries, key);
    }
  }

  lemma {:induction false} StaleIsFirst(l: Ledger, cutoff: int, i: nat)
    requires i <= |l|
    requires forall j :: 0 <= j < i ==> l[j].time < cutoff
    requires i < |l| ==> l[i].time >= cutoff
    ensures Stale(l, cutoff) == i
  {
    if i > 0 { StaleIsFirst(l[1..], cutoff, i - 1); }
  }

  // ---- the reference: the history of cancellations ----

  datatype Cancel = Cancel(key: string, time: int)

  ghost predicate Ordered(h: seq<Cancel>) {
    forall i, j :: 0 <= i < j < |h| ==> h[i].time <= h[j].time
  }

  /** The index of the last cancellation of `key`, or -1. */
  function LastIndex(h: seq<Cancel>, key: string): (i: int)
    ensures -1 <= i < |h|
    ensures i >= 0 ==> h[i].key == key
    ensures forall j :: i < j < |h| ==> h[j].key != key
  {
    if h == [] then -1
    else if h[|h| - 1].key == key then |h| - 1
    else LastIndex(h[..|h| - 1], key)
  }

  /** The distinct keys cancelled from index `from` on. */
  function KeysSince(h: seq<Cancel>, from: nat): set<string>
    requires from <= |h|
  {
    set i | from <= i < |h| :: h[i].key
  }

  /** What the broker promises at time `now`: the last cancellation is at most ten minutes old, and
      fewer than 1024 distinct other keys were cancelled since. */
  predicate Remembered(h: seq<Cancel>, key: string, now: int) {
    var i := LastIndex(h, key);
    i >= 0 && h[i].time >= now - 600_000 && |KeysSince(h, i + 1)| < 1024
  }

  /** Every key ever cancelled, in the order of its last cancellation. */
  function Recency(h: seq<Cancel>): Ledger {
    if h == [] then []
    else Remove(Recency(h[..|h| - 1]), h[|h| - 1].key) + [Entry(h[|h| - 1].key, h[|h| - 1].time)]
  }

  function Max(a: int, b: int): int { if a < b then b else a }

  /** Where the visible part starts. */
  function Start(recency: Ledger, touched: int): (n: nat)
    ensures n <= |recency| <= n + CAPACITY
  {
    Max(|recency| - CAPACITY, Stale(recency, touched - WINDOW))
  }

  /** The part of the recency list a ledger last purged at `touched` holds. */
  function Visible(recency: Ledger, touched: int): Ledger {
    recency[Start(recency, touched)..]
  }

  // ---- the ledger is the visible part of the recency list ----

  lemma {:induction false} RemoveMembers(l: Ledger, key: string)
    ensures forall e :: e in Remove(l, key) <==> e in l && e.key != key
  {
    if l != [] {
      RemoveMembers(l[1..], key);
      assert l == [l[0]] + l[1..];
    }
  }

  lemma DistinctCons(e: Entry, l: Ledger)
    requires Distinct(l) && forall x :: x in l ==> x.key != e.key
    ensures Distinct([e] + l)
  {
  }

  lemma SortedCons(e: Entry, l: Ledger)
    requires Sorted(l) && forall x :: x in l ==> e.time <= x.time
    ensures Sorted([e] + l)
  {
  }

  lemma {:induction false} RemoveKeepsOrder(l: Ledger, key: string)
    requires Distinct(l) && Sorted(l)
    ensures Distinct(Remove(l, key)) && Sorted(Remove(l, key)) && !Has(Remove(l, key), key)
    ensures forall e :: e in Remove(l, key) <==> e in l && e.key != key
  {
    RemoveMembers(l, key);
    if l != [] {
      var rest := Remove(l[1..], key);
      RemoveKeepsOrder(l[1..], key);
      forall x | x in rest ensures x.key != l[0].key && l[0].time <= x.time {
        var i :| 0 <= i < |l[1..]| && l[1..][i] == x;
        assert l[i + 1] == x;
      }
      DistinctCons(l[0], rest);
      SortedCons(l[0], rest);
    }
  }

  lemma {:induction false} RemoveAbsent(l: Ledger, key: string)
    requires !Has(l, key)
    ensures Remove(l, key) == l
  {
    if l != [] {
      forall i | 0 <= i < |l[1..]| ensures l[1..][i].key != key { assert l[1..][i] == l[i + 1]; }
      RemoveAbsent(l[1..], key);
    }
  }

  lemma {:induction false} RemoveAt(l: Ledger, i: nat)
    requires Distinct(l) && i < |l|
    ensures Remove(l, l[i].key) == l[..i] + l[i + 1..]
  {
    if i == 0 {
      assert !Has(l[1..], l[0].key);
      RemoveAbsent(l[1..], l[0].key);
    } else {
      RemoveAt(l[1..], i - 1);
    }
  }

  lemma {:induction false} RecencyIsOrdered(h: seq<Cancel>)
    requires Ordered(h)
    ensures Distinct(Recency(h)) && Sorted(Recency(h))
    ensures forall e :: e in Recency(h) ==> exists i :: 0 <= i < |h| && e == Entry(h[i].key, h[i].time)
  {
    if h != [] {
      var shorter := h[..|h| - 1];
      RecencyIsOrdered(shorter);
      RemoveKeepsOrder(Recency(shorter), h[|h| - 1].key);
      var kept := Remove(Recency(shorter), h[|h| - 1].key);
      forall e | e in Recency(h) ensures exists i :: 0 <= i < |h| && e == Entry(h[i].key, h[i].time) {
        if e in kept {
          var i :| 0 <= i < |shorter| && e == Entry(shorter[i].key, shorter[i].time);
          assert h[i] == shorter[i];
        } else {
          assert e == Entry(h[|h| - 1].key, h[|h| - 1].time);
        }
      }
      forall i | 0 <= i < |kept| ensures kept[i].time <= h[|h| - 1].time && kept[i].key != h[|h| - 1].key {
        assert kept[i] in kept;
        var j :| 0 <= j < |shorter| && kept[i] == Entry(shorter[j].key, shorter[j].time);
        assert h[j] == shorter[j];
      }
    }
  }

  lemma StaleOfSuffix(l: Ledger, n: nat, cutoff: int)
    requires Sorted(l) && n <= |l|
    ensures Stale(l[n..], cutoff) == Max(0, Stale(l, cutoff) - n)
  {
    var s := Stale(l, cutoff);
    if s <= n {
      if n < |l| { assert s < |l| && l[s].time <= l[n].time; }
      StaleIsFirst(l[n..], cutoff, 0);
    } else {
      StaleIsFirst(l[n..], cutoff, s - n);
    }
  }

  lemma StaleIsMonotone(l: Ledger, c: int, c': int)
    requires Sorted(l) && c <= c'
    ensures Stale(l, c) <= Stale(l, c')
  {
    assert Stale(l, c') < |l| ==> l[Stale(l, c')].time >= c;
  }

  /** Purging again later shows what is visible later. */
  lemma PurgeShowsVisible(recency: Ledger, touched: int, now: int)
    requires Sorted(recency) && touched <= now
    ensures Purge(Visible(recency, touched), now) == Visible(recency, now)
  {
    hide Stale, Sorted;
    var n := Start(recency, touched);
    StaleOfSuffix(recency, n, now - WINDOW);
    StaleIsMonotone(recency, touched - WINDOW, now - WINDOW);
  }

  lemma StaleMovedFront(l: Ledger, i: nat, e: Entry, cutoff: int)
    requires i < Stale(l, cutoff) && e.time >= cutoff
    ensures Stale(l[..i] + l[i + 1..] + [e], cutoff) == Stale(l, cutoff) - 1
  {
    hide Stale;
    var r, s := l[..i] + l[i + 1..] + [e], Stale(l, cutoff);
    assert forall j :: 0 <= j < |l| - 1 ==> r[j] == l[if j < i then j else j + 1];
    StaleIsFirst(r, cutoff, s - 1);
  }

  lemma StaleMovedTail(l: Ledger, i: nat, e: Entry, cutoff: int)
    requires Sorted(l) && Stale(l, cutoff) <= i < |l| && e.time >= cutoff
    ensures Stale(l[..i] + l[i + 1..] + [e], cutoff) == Stale(l, cutoff)
  {
    hide Stale;
    var r, s := l[..i] + l[i + 1..] + [e], Stale(l, cutoff);
    assert forall j :: 0 <= j < |l| - 1 ==> r[j] == l[if j < i then j else j + 1];
    assert i + 1 < |l| ==> l[i].time <= l[i + 1].time;
    StaleIsFirst(r, cutoff, s);
  }

  lemma StaleAppended(l: Ledger, e: Entry, cutoff: int)
    requires e.time >= cutoff
    ensures Stale(l + [e], cutoff) == Stale(l, cutoff)
  {
    hide Stale;
    StaleIsFirst(l + [e], cutoff, Stale(l, cutoff));
  }

  lemma MovedFromTail(l: Ledger, i: nat, n: nat, e: Entry)
    requires n <= i < |l|
    ensures (l[..i] + l[i + 1..] + [e])[n..] == l[n..][..i - n] + l[n..][i - n + 1..] + [e]
  {
  }

  lemma MovedFromFront(l: Ledger, i: nat, n: nat, e: Entry)
    requires i < n <= |l|
    ensures (l[..i] + l[i + 1..] + [e])[n - 1..] == l[n..] + [e]
  {
  }

  lemma NotInTail(l: Ledger, key: string, n: nat)
    requires n <= |l|
    requires forall i :: n <= i < |l| ==> l[i].key != key
    ensures Remove(l[n..], key) == l[n..]
  {
    RemoveAbsent(l[n..], key);
  }

  lemma MovedNotInTail(l: Ledger, i: nat, n: nat)
    requires Distinct(l) && i < n <= |l|
    ensures Remove(l[n..], l[i].key) == l[n..]
  {
    NotInTail(l, l[i].key, n);
  }

  /** Dropping the oldest of a full ledger moves the start by one. */
  lemma EvictedTail(l: Ledger, n: nat, e: Entry)
    requires |l| - CAPACITY <= n <= |l|
    ensures Evict(l[n..]) + [e] == (if |l| - n == CAPACITY then l[n + 1..] + [e] else l[n..] + [e])
  {
  }

  /** Cancelling a key that is still visible: its entry moves to the end. */
  lemma {:induction false} RememberVisibleKey(recency: Ledger, i: nat, now: int)
    requires Distinct(recency) && Sorted(recency) && Start(recency, now) <= i < |recency|
    ensures var key := recency[i].key;
            Evict(Remove(Visible(recency, now), key)) + [Entry(key, now)]
            == Visible(Remove(recency, key) + [Entry(key, now)], now)
  {
    hide Stale, Sorted, Remove, Distinct;
    var n := Start(recency, now);
    var e := Entry(recency[i].key, now);
    StaleMovedTail(recency, i, e, now - WINDOW);
    RemoveAt(recency, i);
    DistinctTail(recency, n);
    assert recency[n..][i - n] == recency[i];
    RemoveAt(recency[n..], i - n);
    MovedFromTail(recency, i, n, e);
  }

  lemma DistinctTail(l: Ledger, n: nat)
    requires Distinct(l) && n <= |l|
    ensures Distinct(l[n..])
  {
  }

  /** Cancelling a key that is known but no longer visible. */
  lemma RememberHiddenKey(recency: Ledger, i: nat, now: int)
    requires Distinct(recency) && Sorted(recency) && i < Start(recency, now)
    ensures var key := recency[i].key;
            Evict(Remove(Visible(recency, now), key)) + [Entry(key, now)]
            == Visible(Remove(recency, key) + [Entry(key, now)], now)
  {
    hide Evict, Distinct, Sorted, Remove, Start;
    var n := Start(recency, now);
    var e := Entry(recency[i].key, now);
    StartAfterHidden(recency, i, e);
    RemoveAt(recency, i);
    MovedNotInTail(recency, i, n);
    EvictedTail(recency, n, e);
    if |recency| - n == CAPACITY {
      MovedFromFront(recency, i, n + 1, e);
    } else {
      MovedFromFront(recency, i, n, e);
    }
  }

  /** The start moves by one unless the ledger is full. */
  lemma StartAfterHidden(recency: Ledger, i: nat, e: Entry)
    requires Sorted(recency) && i < Start(recency, e.time)
    ensures var n := Start(recency, e.time);
            Start(recency[..i] + recency[i + 1..] + [e], e.time) == if |recency| - n == CAPACITY then n else n - 1
  {
    hide Stale, Sorted;
    var cutoff := e.time - WINDOW;
    if i < Stale(recency, cutoff) {
      StaleMovedFront(recency, i, e, cutoff);
    } else {
      StaleMovedTail(recency, i, e, cutoff);
    }
  }

  lemma StartAfterNew(recency: Ledger, e: Entry)
    ensures var n := Start(recency, e.time);
            Start(recency + [e], e.time) == if |recency| - n == CAPACITY then n + 1 else n
  {
    hide Stale;
    StaleAppended(recency, e, e.time - WINDOW);
  }

  lemma TailOfAppended(l: Ledger, n: nat, e: Entry)
    requires n <= |l|
    ensures (l + [e])[n..] == l[n..] + [e]
  {
  }

  /** Cancelling a key for the first time. */
  lemma {:induction false} RememberNewKey(recency: Ledger, key: string, now: int)
    requires !Has(recency, key)
    ensures Evict(Remove(Visible(recency, now), key)) + [Entry(key, now)]
            == Visible(Remove(recency, key) + [Entry(key, now)], now)
  {
    hide Evict, Remove, Start, Has;
    var n := Start(recency, now);
    var e := Entry(key, now);
    StartAfterNew(recency, e);
    RemoveAbsent(recency, key);
    AbsentFromTail(recency, key, n);
    EvictedTail(recency, n, e);
    TailOfAppended(recency, if |recency| - n == CAPACITY then n + 1 else n, e);
  }

  lemma AbsentFromTail(l: Ledger, key: string, n: nat)
    requires !Has(l, key) && n <= |l|
    ensures Remove(l[n..], key) == l[n..]
  {
    NotInTail(l, key, n);
  }

  /** Remembering a cancellation keeps the ledger the visible part of the recency list. */
  lemma {:induction false} RememberShowsVisible(recency: Ledger, touched: int, key: string, now: int)
    requires Distinct(recency) && Sorted(recency) && touched <= now
    ensures Remember(Visible(recency, touched), key, now) == Visible(Remove(recency, key) + [Entry(key, now)], now)
  {
    hide Visible, Start, Evict, Remove, Distinct, Sorted, Stale;
    PurgeShowsVisible(recency, touched, now);
    if i :| 0 <= i < |recency| && recency[i].key == key {
      if i < Start(recency, now) { RememberHiddenKey(recency, i, now); } else { RememberVisibleKey(recency, i, now); }
    } else {
      RememberNewKey(recency, key, now);
    }
  }

  // ---- membership in the recency list is the history ----

  function Keys(l: Ledger): set<string> {
    set i | 0 <= i < |l| :: l[i].key
  }

  lemma {:induction false} DistinctKeysCount(l: Ledger)
    requires Distinct(l)
    ensures |Keys(l)| == |l|
  {
    if l != [] {
      var shorter := l[..|l| - 1];
      DistinctKeysCount(shorter);
      assert Keys(l) == Keys(shorter) + {l[|l| - 1].key};
    }
  }

  lemma KeysAppend(l: Ledger, e: Entry)
    ensures Keys(l + [e]) == Keys(l) + {e.key}
  {
    var m := l + [e];
    assert m[|l|] == e;
    forall i | 0 <= i < |l| ensures l[i].key in Keys(m) { assert m[i] == l[i]; }
  }

  lemma KeysMoved(l: Ledger, m: nat, e: Entry)
    requires m < |l| && e.key == l[m].key
    ensures Keys(l[..m] + l[m + 1..] + [e]) == Keys(l)
  {
    var r := l[..m] + l[m + 1..] + [e];
    forall i | 0 <= i < |l| ensures l[i].key in Keys(r) {
      if i < m { assert r[i] == l[i]; } else if i > m { assert r[i - 1] == l[i]; } else { assert r[|l| - 1] == e; }
    }
  }

  /** Cancelling another key: the entry at `j` stays, and the keys behind it gain that key. */
  lemma OtherKeyStep(r: Ledger, j: nat, key: string, time: int) returns (i: nat)
    requires Distinct(r) && j < |r| && r[j].key != key
    ensures var r' := Remove(r, key) + [Entry(key, time)];
            i < |r'| && r'[i] == r[j] && Keys(r'[i + 1..]) == Keys(r[j + 1..]) + {key}
  {
    hide Distinct, Keys;
    var e := Entry(key, time);
    i := j;
    KeysAppend(r[j + 1..], e);
    if m :| 0 <= m < |r| && r[m].key == key {
      RemoveAt(r, m);
      if m < j {
        i := j - 1;
        MovedFromFront(r, m, j + 1, e);
      } else {
        MovedFromTail(r, m, j + 1, e);
        KeysMoved(r[j + 1..], m - j - 1, e);
        KeyIn(r[j + 1..], m - j - 1);
        assert Keys(r[j + 1..]) + {key} == Keys(r[j + 1..]);
      }
    } else {
      RemoveAbsent(r, key);
      assert (r + [e])[j + 1..] == r[j + 1..] + [e];
    }
  }

  lemma NoKeys()
    ensures Keys([]) == {}
  {
  }

  lemma KeyIn(l: Ledger, i: nat)
    requires i < |l|
    ensures l[i].key in Keys(l)
  {
  }

  lemma KeysSinceGrow(h: seq<Cancel>, n: nat)
    requires n < |h|
    ensures KeysSince(h, n) == KeysSince(h[..|h| - 1], n) + {h[|h| - 1].key}
  {
    forall i | n <= i < |h| - 1 ensures h[i].key in KeysSince(h[..|h| - 1], n) { assert h[..|h| - 1][i] == h[i]; }
    var g := h[..|h| - 1];
    forall i | n <= i < |g| ensures g[i].key in KeysSince(h, n) { assert h[i] == g[i]; }
  }

  /** Where `key` stands in the recency list: at the entry of its last cancellation, followed by
      exactly the keys cancelled since. */
  lemma {:induction false} RecencyTellsHistory(h: seq<Cancel>, key: string) returns (i: int)
    requires Ordered(h)
    ensures (LastIndex(h, key) < 0) == (i < 0) && i < |Recency(h)|
    ensures i < 0 ==> !Has(Recency(h), key)
    ensures i >= 0 ==> && Recency(h)[i] == Entry(key, h[LastIndex(h, key)].time)
                       && Keys(Recency(h)[i + 1..]) == KeysSince(h, LastIndex(h, key) + 1)
  {
    hide Distinct, Sorted, Keys, Remove;
    if h == [] { return -1; }
    var last := h[|h| - 1];
    var shorter := h[..|h| - 1];
    var r := Recency(shorter);
    RecencyIsOrdered(shorter);
    var j := RecencyTellsHistory(shorter, key);
    if last.key == key {
      i := |Recency(h)| - 1;
      NoKeys();
      assert Recency(h)[i + 1..] == [] && KeysSince(h, |h|) == {};
    } else if j < 0 {
      i := -1;
      RemoveKeepsOrder(r, last.key);
      forall x | 0 <= x < |Recency(h)| ensures Recency(h)[x].key != key {
        if x < |Remove(r, last.key)| { assert Recency(h)[x] in Remove(r, last.key); assert Recency(h)[x] in r; }
      }
    } else {
      i := OtherKeyStep(r, j, last.key, last.time);
      var n := LastIndex(h, key);
      KeysSinceGrow(h, n + 1);
    }
  }

  /** What is visible: among the last entries, and young enough. */
  lemma VisibleEntries(recency: Ledger, i: nat, now: int)
    requires Sorted(recency) && i < |recency|
    ensures i >= Start(recency, now) <==> |recency| - i <= CAPACITY && recency[i].time >= now - WINDOW
  {
    hide Stale;
    var s := Stale(recency, now - WINDOW);
    assert s <= i ==> recency[s].time <= recency[i].time;
  }

  lemma SuffixOnlyDrops(l: Ledger, n: nat, key: string)
    requires n <= |l|
    ensures Has(l[n..], key) ==> Has(l, key)
  {
    if x :| 0 <= x < |l[n..]| && l[n..][x].key == key { assert l[x + n].key == key; }
  }

  lemma SuffixHas(l: Ledger, n: nat, i: nat)
    requires Distinct(l) && n <= |l| && i < |l|
    ensures Has(l[n..], l[i].key) <==> i >= n
  {
    if i >= n { assert l[n..][i - n] == l[i]; }
    if x :| 0 <= x < |l[n..]| && l[n..][x].key == l[i].key { assert l[x + n].key == l[i].key; }
  }

  /** Being visible is being remembered. */
  lemma VisibleIffRemembered(h: seq<Cancel>, key: string, now: int)
    requires Ordered(h)
    ensures Has(Visible(Recency(h), now), key) <==> Remembered(h, key, now)
  {
    hide Start, Recency, LastIndex, Distinct, Sorted, Has, Ordered, Keys;
    var r := Recency(h);
    RecencyIsOrdered(h);
    var i := RecencyTellsHistory(h, key);
    var n := Start(r, now);
    if i >= 0 {
      DistinctTail(r, i + 1);
      DistinctKeysCount(r[i + 1..]);
      SuffixHas(r, n, i);
      VisibleEntries(r, i, now);
    } else {
      SuffixOnlyDrops(r, n, key);
    }
  }

  // ---- whole runs ----

  /** A use of the ledger: a cancellation, or a lookup (which also purges). */
  datatype Use = Cancelled(key: string, time: int) | LookedUp(time: int)

  ghost predicate Monotone(uses: seq<Use>) {
    forall i, j :: 0 <= i < j < |uses| ==> uses[i].time <= uses[j].time
  }

  function After(uses: seq<Use>): Ledger {
    if uses == [] then []
    else
      var l := After(uses[..|uses| - 1]);
      match uses[|uses| - 1]
      case Cancelled(key, time) => Remember(l, key, time)
      case LookedUp(time) => Purge(l, time)
  }

  function History(uses: seq<Use>): (h: seq<Cancel>)
    ensures forall i :: 0 <= i < |h| ==> exists j :: 0 <= j < |uses| && h[i].time == uses[j].time
  {
    if uses == [] then []
    else
      var h := History(uses[..|uses| - 1]);
      match uses[|uses| - 1]
      case Cancelled(key, time) => h + [Cancel(key, time)]
      case LookedUp(_) => h
  }

  lemma {:induction false} HistoryIsOrdered(uses: seq<Use>)
    requires Monotone(uses)
    ensures Ordered(History(uses))
    ensures uses != [] ==> forall i :: 0 <= i < |History(uses)| ==> History(uses)[i].time <= uses[|uses| - 1].time
  {
    if uses != [] {
      var shorter := uses[..|uses| - 1];
      HistoryIsOrdered(shorter);
      var h := History(shorter);
      forall i | 0 <= i < |h| ensures h[i].time <= uses[|uses| - 1].time {
        assert shorter[|shorter| - 1].time <= uses[|uses| - 1].time;
      }
    }
  }

  lemma RecencyAppend(h: seq<Cancel>, key: string, time: int)
    ensures Recency(h + [Cancel(key, time)]) == Remove(Recency(h), key) + [Entry(key, time)]
  {
    assert (h + [Cancel(key, time)])[..|h|] == h;
  }

  lemma {:induction false} LedgerIsVisible(uses: seq<Use>)
    requires Monotone(uses) && uses != []
    ensures After(uses) == Visible(Recency(History(uses)), uses[|uses| - 1].time)
  {
    hide Remember, Purge, Recency, Remove, Distinct, Sorted, Ordered;
    var shorter := uses[..|uses| - 1];
    var last := uses[|uses| - 1];
    var h := History(shorter);
    HistoryIsOrdered(shorter);
    RecencyIsOrdered(h);
    var touched := if shorter == [] then last.time else shorter[|shorter| - 1].time;
    if shorter != [] { LedgerIsVisible(shorter); } else { NothingRemembered(); }
    assert After(shorter) == Visible(Recency(h), touched);
    hide Visible;
    match last {
      case Cancelled(key, time) =>
        RememberShowsVisible(Recency(h), touched, key, time);
        RecencyAppend(h, key, time);
      case LookedUp(time) =>
        PurgeShowsVisible(Recency(h), touched, time);
    }
  }

  lemma NothingRemembered()
    ensures Recency([]) == []
  {
  }

  /** The ledger is exact: after any run of cancellations and lookups under a clock that does not go
      back, a lookup at `now` finds a key exactly when its last cancellation is within ten minutes
      and fewer than 1024 other keys were cancelled since. */
  lemma {:induction false} LedgerIsExact(uses: seq<Use>, key: string, now: int)
    requires Monotone(uses) && (uses != [] ==> uses[|uses| - 1].time <= now)
    ensures IsCanceled(After(uses), key, now).1 <==> Remembered(History(uses), key, now)
    ensures |After(uses)| <= 1024
  {
    HistoryIsOrdered(uses);
    RecencyIsOrdered(History(uses));
    VisibleIffRemembered(History(uses), key, now);
    if uses != [] {
      LedgerIsVisible(uses);
      PurgeShowsVisible(Recency(History(uses)), uses[|uses| - 1].time, now);
    }
  }

  /** Under a clock that does not go back, stopping at the first young entry drops exactly the old
      ones. */
  lemma {:induction false} EarlyStopIsFilter(l: Ledger, now: int, e: Entry)
    requires Sorted(l)
    ensures e in Purge(l, now) <==> e in l && e.time >= now - WINDOW
  {
    var n := Stale(l, now - WINDOW);
    if e in l && e.time >= now - WINDOW {
      var i :| 0 <= i < |l| && l[i] == e;
      assert i >= n;
      assert Purge(l, now)[i - n] == e;
    }
    if e in Purge(l, now) {
      var i :| 0 <= i < |l[n..]| && l[n..][i] == e;
      assert l[n].time <= l[n + i].time;
    }
  }

  // ---- what leaves and what stays ----

  lemma PurgeOnlyDrops(l: Ledger, now: int, key: string)
    ensures Has(Purge(l, now), key) ==> Has(l, key)
  {
    SuffixOnlyDrops(l, Stale(l, now - WINDOW), key);
  }

  lemma {:induction false} RemoveOnlyDrops(l: Ledger, removed: string, key: string)
    ensures Has(Remove(l, removed), key) ==> Has(l, key) && key != removed
  {
    if l != [] {
      RemoveOnlyDrops(l[1..], removed, key);
      if Has(Remove(l, removed), key) {
        var r := Remove(l, removed);
        var i :| 0 <= i < |r| && r[i].key == key;
        if l[0].key == removed {
          assert Has(l[1..], key);
        } else if i > 0 {
          assert Remove(l[1..], removed)[i - 1].key == key;
        }
        if l[0].key != key || l[0].key == removed {
          var j :| 0 <= j < |l[1..]| && l[1..][j].key == key;
          assert l[j + 1].key == key;
        }
      }
    }
  }

  /** Remembering one key makes no other key a cancelled one. */
  lemma RememberAddsOne(l: Ledger, remembered: string, now: int, key: string)
    ensures Has(Remember(l, remembered, now), key) ==> key == remembered || Has(l, key)
    ensures Has(Remember(l, remembered, now), remembered)
  {
    var r := Remember(l, remembered, now);
    var removed := Remove(Purge(l, now), remembered);
    assert r[|r| - 1].key == remembered;
    if Has(r, key) && key != remembered {
      var i :| 0 <= i < |r| && r[i].key == key;
      assert r[i] == removed[|removed| - (|r| - 1) + i];
      assert Has(removed, key);
      RemoveOnlyDrops(Purge(l, now), remembered, key);
      PurgeOnlyDrops(l, now, key);
    }
  }
}
