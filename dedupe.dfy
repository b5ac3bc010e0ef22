/** The worker's de-duplication cache: a bounded set of document IDs with a time to live.
    A map from key to the stamp of its latest mark, plus a FIFO queue of (key, stamp)
    entries; compaction pops the queue front while the map is over capacity or the front
    entry has expired, and removes a key only when the popped entry is the key's latest.

    Time is an integer number of nanoseconds supplied by the caller (the source reads the
    clock itself). The queue entries carry a generation number besides the timestamp;
    the code as written compares timestamps only, which `GoMarked` below models and
    `TieLosesMark` shows to be wrong when two marks share a timestamp. */
module Dedupe {

  /** time.Hour in nanoseconds. */
  const Hour: int := 3_600_000_000_000

  /** When a key was marked: the clock reading and a generation number unique to the mark. */
  datatype Stamp = Stamp(ts: int, gen: nat)

  datatype Entry = Entry(key: string, stamp: Stamp)

  datatype CacheState = CacheState(
    items: map<string, Stamp>,
    order: seq<Entry>,
    capacity: int,
    ttl: int,
    next: nat)

  /** The cache invariant: positive capacity and ttl, every stored key has a queue entry
      carrying its current stamp, queue timestamps never decrease and generations strictly
      increase from front to back, all below the next generation to hand out. */
  ghost predicate Valid(s: CacheState) {
    && s.capacity >= 1 && s.ttl >= 1
    && (forall k :: k in s.items ==> Entry(k, s.items[k]) in s.order)
    && (forall i, j :: 0 <= i < j < |s.order| ==>
          s.order[i].stamp.ts <= s.order[j].stamp.ts && s.order[i].stamp.gen < s.order[j].stamp.gen)
    && (forall i :: 0 <= i < |s.order| ==> s.order[i].stamp.gen < s.next)
  }

  /** The clock has not gone back: no queued mark is later than now. */
  ghost predicate NotAfter(s: CacheState, now: int) {
    forall i :: 0 <= i < |s.order| ==> s.order[i].stamp.ts <= now
  }

  /** NewCache: capacity <= 0 becomes 1, ttl <= 0 becomes one hour, nothing stored. */
  function Init(capacity: int, ttl: int): (s: CacheState)
    ensures s.items == map[] && s.order == []
    ensures s.capacity >= 1 && s.ttl >= 1
    ensures capacity > 0 ==> s.capacity == capacity
    ensures capacity <= 0 ==> s.capacity == 1
    ensures ttl > 0 ==> s.ttl == ttl
    ensures ttl <= 0 ==> s.ttl == Hour
  {
    CacheState(map[], [], if capacity <= 0 then 1 else capacity, if ttl <= 0 then Hour else ttl, 0)
  }

  /** IsSeen: the key is stored and its mark is at most ttl before now. */
  predicate Seen(s: CacheState, key: string, now: int) {
    key in s.items && now - s.items[key].ts <= s.ttl
  }

  /** The condition of the compaction loop. */
  predicate ShouldPop(s: CacheState, now: int) {
    |s.order| > 0 && (|s.items| > s.capacity || s.order[0].stamp.ts < now - s.ttl)
  }

  /** One round of the compaction loop: drop the queue front, and its key if the front
      entry is the key's latest mark. */
  function Pop(s: CacheState): CacheState
    requires |s.order| > 0
  {
    var e := s.order[0];
    s.(order := s.order[1..],
       items := if e.key in s.items && s.items[e.key] == e.stamp then s.items - {e.key} else s.items)
  }

  /** compact(now): pop while ShouldPop holds. It ends with the loop condition false and
      touches neither the limits nor the generation counter. */
  function Compacted(s: CacheState, now: int): (r: CacheState)
    ensures !ShouldPop(r, now)
    ensures r.capacity == s.capacity && r.ttl == s.ttl && r.next == s.next
    ensures |r.order| <= |s.order|
    decreases |s.order|
  {
    if ShouldPop(s, now) then Compacted(Pop(s), now) else s
  }

  /** The first half of MarkSeen: store the key with a fresh stamp and queue it. */
  function Append(s: CacheState, key: string, now: int): CacheState {
    var st := Stamp(now, s.next);
    s.(items := s.items[key := st], order := s.order + [Entry(key, st)], next := s.next + 1)
  }

  /** MarkSeen(key) at time now. */
  function Marked(s: CacheState, key: string, now: int): CacheState {
    Compacted(Append(s, key, now), now)
  }

  /** The cache object: the fields the source updates in place, with the value above as
      its abstract state. */
  class Cache {
    var items: map<string, Stamp>
    var order: seq<Entry>
    var next: nat
    const capacity: int
    const ttl: int

    function State(): CacheState
      reads this
    {
      CacheState(items, order, capacity, ttl, next)
    }

    /** NewCache. */
    constructor (capacity: int, ttl: int)
      ensures State() == Init(capacity, ttl)
      ensures Valid(State())
    {
      this.capacity := if capacity <= 0 then 1 else capacity;
      this.ttl := if ttl <= 0 then Hour else ttl;
      items := map[];
      order := [];
      next := 0;
    }

    /** IsSeen reads the state and changes nothing. */
    method IsSeen(key: string, now: int) returns (seen: bool)
      ensures seen == Seen(State(), key, now)
    {
      seen := key in items && now - items[key].ts <= ttl;
    }

    /** MarkSeen: record the key, then compact. With a clock that has not gone back, the
        invariant is kept, the key reads as seen right away and the map is within capacity. */
    method MarkSeen(key: string, now: int)
      requires Valid(State()) && NotAfter(State(), now)
      modifies this
      ensures State() == Marked(old(State()), key, now)
      ensures Valid(State()) && NotAfter(State(), now)
      ensures |items| <= capacity
      ensures Seen(State(), key, now)
    {
      ghost var s0 := State();
      var st := Stamp(now, next);
      items := items[key := st];
      order := order + [Entry(key, st)];
      next := next + 1;
      assert State() == Append(s0, key, now);
      Compact(now);
      MarkedValid(s0, key, now);
      MarkedNotAfter(s0, key, now);
      MarkThenSeen(s0, key, now);
    }

    /** compact: the loop of the source, popping the queue front. */
    method Compact(now: int)
      modifies this
      ensures State() == Compacted(old(State()), now)
    {
      while |order| > 0 && (|items| > capacity || order[0].stamp.ts < now - ttl)
        invariant Compacted(State(), now) == Compacted(old(State()), now)
        decreases |order|
      {
        var oldest := order[0];
        order := order[1..];
        if oldest.key in items && items[oldest.key] == oldest.stamp {
          items := items - {oldest.key};
        }
      }
    }
  }

  // ---------------------------------------------------------------------------------
  // Properties of the specification functions

  /** A fresh cache is valid and has seen nothing. */
  lemma {:induction false} InitValid(capacity: int, ttl: int, key: string, now: int)
    ensures Valid(Init(capacity, ttl)) && NotAfter(Init(capacity, ttl), now)
    ensures !Seen(Init(capacity, ttl), key, now)
  {
  }

  lemma {:induction false} InOrderTail(order: seq<Entry>, x: Entry)
    requires x in order && x != order[0]
    ensures x in order[1..]
  {
    var i :| 0 <= i < |order| && order[i] == x;
    assert order[1..][i - 1] == x;
  }

  /** One loop round drops only the front entry and at most its key, and only when the
      front entry carries the key's current stamp. */
  lemma {:induction false} PopFrame(s: CacheState)
    requires |s.order| > 0
    ensures Pop(s).order == s.order[1..]
    ensures forall k :: k in Pop(s).items ==> k in s.items && Pop(s).items[k] == s.items[k]
    ensures forall k :: k in s.items && k !in Pop(s).items ==> Entry(k, s.items[k]) == s.order[0]
  {
  }

  /** One loop round keeps the invariant. */
  lemma {:induction false} PopValid(s: CacheState)
    requires Valid(s) && |s.order| > 0
    ensures Valid(Pop(s))
  {
    var p := Pop(s);
    forall k | k in p.items ensures Entry(k, p.items[k]) in p.order {
      assert Entry(k, s.items[k]) in s.order;
      InOrderTail(s.order, Entry(k, s.items[k]));
    }
  }

  /** Compaction removes queue entries from the front only, never changes a stored stamp,
      and removes a key only when one of the popped entries carries the key's current
      stamp (a stale entry of a key marked again later deletes nothing). */
  lemma {:induction false} CompactedFrame(s: CacheState, now: int)
    ensures var r := Compacted(s, now);
      && r.order == s.order[|s.order| - |r.order|..]
      && (forall k :: k in r.items ==> k in s.items && r.items[k] == s.items[k])
      && (forall k :: k in s.items && k !in r.items ==>
            Entry(k, s.items[k]) in s.order[..|s.order| - |r.order|])
    decreases |s.order|
  {
    var r := Compacted(s, now);
    if ShouldPop(s, now) {
      var p := Pop(s);
      PopFrame(s);
      CompactedFrame(p, now);
      assert r == Compacted(p, now);
      var n := |s.order| - |r.order|;
      var m := |p.order| - |r.order|;
      assert n == m + 1;
      assert r.order == s.order[n..];
      forall k | k in r.items ensures k in s.items && r.items[k] == s.items[k] {
        assert k in p.items;
      }
      forall k | k in s.items && k !in r.items
        ensures Entry(k, s.items[k]) in s.order[..n]
      {
        if k in p.items {
          assert Entry(k, p.items[k]) in p.order[..m];
          assert p.items[k] == s.items[k];
          var i :| 0 <= i < m && p.order[..m][i] == Entry(k, s.items[k]);
          assert s.order[..n][i + 1] == p.order[..m][i];
        } else {
          assert Entry(k, s.items[k]) == s.order[0];
          assert s.order[..n][0] == s.order[0];
        }
      }
    }
  }

  /** Compaction keeps the invariant. */
  lemma {:induction false} CompactedValid(s: CacheState, now: int)
    requires Valid(s)
    ensures Valid(Compacted(s, now))
    decreases |s.order|
  {
    if ShouldPop(s, now) {
      PopValid(s);
      CompactedValid(Pop(s), now);
    }
  }

  /** When compaction stops on a valid state, the map is within capacity and the queue
      front (hence, timestamps being ordered, every entry) is inside the ttl window. */
  lemma {:induction false} StoppedBounds(r: CacheState, now: int)
    requires Valid(r) && !ShouldPop(r, now)
    ensures |r.items| <= r.capacity
    ensures forall k :: k in r.items ==> now - r.ttl <= r.items[k].ts
  {
    assert r.items.Keys <= set e | e in r.order :: e.key by {
      forall k | k in r.items ensures k in set e | e in r.order :: e.key {
        assert Entry(k, r.items[k]) in r.order;
      }
    }
    if r.order == [] {
      assert (set e | e in r.order :: e.key) == {};
      assert r.items.Keys == {};
    }
    forall k | k in r.items ensures now - r.ttl <= r.items[k].ts {
      var i :| 0 <= i < |r.order| && r.order[i] == Entry(k, r.items[k]);
      assert i == 0 || r.order[0].stamp.ts <= r.order[i].stamp.ts;
    }
  }

  /** Marking keeps the invariant when the clock has not gone back. */
  lemma {:induction false} AppendValid(s: CacheState, key: string, now: int)
    requires Valid(s) && NotAfter(s, now)
    ensures Valid(Append(s, key, now)) && NotAfter(Append(s, key, now), now)
  {
    var a := Append(s, key, now);
    forall k | k in a.items ensures Entry(k, a.items[k]) in a.order {
      if k != key {
        assert Entry(k, s.items[k]) in s.order;
      } else {
        assert a.order[|s.order|] == Entry(key, Stamp(now, s.next));
      }
    }
  }

  /** MarkSeen keeps the invariant, leaves the map within capacity and leaves every stored
      key inside its ttl window. */
  lemma {:induction false} MarkedValid(s: CacheState, key: string, now: int)
    requires Valid(s) && NotAfter(s, now)
    ensures var r := Marked(s, key, now);
      && Valid(r) && |r.items| <= s.capacity
      && forall k :: k in r.items ==> now - s.ttl <= r.items[k].ts
  {
    var a := Append(s, key, now);
    AppendValid(s, key, now);
    CompactedValid(a, now);
    StoppedBounds(Marked(s, key, now), now);
  }

  /** After MarkSeen at now no queued mark is later than now. */
  lemma {:induction false} MarkedNotAfter(s: CacheState, key: string, now: int)
    requires NotAfter(s, now)
    ensures NotAfter(Marked(s, key, now), now)
  {
    var a := Append(s, key, now);
    assert NotAfter(a, now) by {
      forall i | 0 <= i < |a.order| ensures a.order[i].stamp.ts <= now {
        if i < |s.order| { assert a.order[i] == s.order[i]; }
      }
    }
    CompactedFrame(a, now);
    var r := Marked(s, key, now);
    forall i | 0 <= i < |r.order| ensures r.order[i].stamp.ts <= now {
      assert r.order[i] == a.order[|a.order| - |r.order| + i];
    }
  }

  /** In a valid state no stored mark is later than the latest queued one. */
  lemma {:induction false} StoredNotAfter(s: CacheState, now: int)
    requires Valid(s) && NotAfter(s, now)
    ensures forall k :: k in s.items ==> s.items[k].ts <= now
  {
    forall k | k in s.items ensures s.items[k].ts <= now {
      assert Entry(k, s.items[k]) in s.order;
    }
  }

  /** With a single queue entry that is live and is its key's latest mark, compaction
      stops: the map holds at most that key. */
  lemma {:induction false} SingleEntryStops(t: CacheState, now: int)
    requires Valid(t) && |t.order| == 1
    requires t.order[0].key in t.items && t.items[t.order[0].key] == t.order[0].stamp
    requires t.order[0].stamp.ts >= now - t.ttl
    ensures !ShouldPop(t, now)
  {
    var last := t.order[0];
    forall k | k in t.items ensures k == last.key {
      assert Entry(k, t.items[k]) in t.order;
    }
    assert t.items.Keys == {last.key};
  }

  /** Compaction never removes the key of the last queue entry when that entry is its
      key's latest mark and has not expired. */
  lemma {:induction false} CompactKeepsLast(t: CacheState, now: int)
    requires Valid(t) && |t.order| >= 1
    requires var last := t.order[|t.order| - 1];
      last.key in t.items && t.items[last.key] == last.stamp && last.stamp.ts >= now - t.ttl
    ensures var last := t.order[|t.order| - 1];
      last.key in Compacted(t, now).items && Compacted(t, now).items[last.key] == last.stamp
    decreases |t.order|
  {
    if |t.order| == 1 {
      SingleEntryStops(t, now);
    } else if ShouldPop(t, now) {
      PopKeepsLast(t);
      CompactKeepsLast(Pop(t), now);
    }
  }

  /** Popping the front of a queue of two or more keeps the invariant, the last entry, and
      the last entry's key when that entry is its key's latest mark. */
  lemma {:induction false} PopKeepsLast(t: CacheState)
    requires Valid(t) && |t.order| >= 2
    requires var last := t.order[|t.order| - 1];
      last.key in t.items && t.items[last.key] == last.stamp
    ensures Valid(Pop(t)) && |Pop(t).order| == |t.order| - 1
    ensures Pop(t).order[|Pop(t).order| - 1] == t.order[|t.order| - 1]
    ensures var last := t.order[|t.order| - 1];
      last.key in Pop(t).items && Pop(t).items[last.key] == last.stamp
  {
    var last := t.order[|t.order| - 1];
    PopValid(t);
    PopFrame(t);
    assert t.order[0].stamp.gen < last.stamp.gen;
    assert t.order[0] != Entry(last.key, t.items[last.key]);
  }

  /** Right after MarkSeen(key) at now the key is stored with the new stamp, so IsSeen(key)
      at the same time answers true (provided the clock has not gone back). */
  lemma {:induction false} MarkThenSeen(s: CacheState, key: string, now: int)
    requires Valid(s) && NotAfter(s, now)
    ensures key in Marked(s, key, now).items
    ensures Marked(s, key, now).items[key] == Stamp(now, s.next)
    ensures Seen(Marked(s, key, now), key, now)
  {
    var a := Append(s, key, now);
    AppendValid(s, key, now);
    CompactKeepsLast(a, now);
  }

  /** MarkSeen stores no key but the one it marks. */
  lemma {:induction false} MarkedAddsOnlyKey(s: CacheState, key: string, now: int, other: string)
    requires other != key && other !in s.items
    ensures other !in Marked(s, key, now).items
  {
    CompactedFrame(Append(s, key, now), now);
  }

  /** TTL: a key marked at t reads as seen at a later time exactly while at most ttl
      has passed, unless marked again. */
  lemma {:induction false} SeenWithinTtl(s: CacheState, key: string, t: int, now: int)
    requires Valid(s) && NotAfter(s, t)
    ensures Seen(Marked(s, key, t), key, now) <==> now - t <= s.ttl
  {
    MarkThenSeen(s, key, t);
  }

  lemma {:induction false} SingleKey(m: map<string, Stamp>, key: string)
    requires key in m && |m| <= 1
    ensures m == map[key := m[key]]
  {
    var rest := m.Keys - {key};
    assert m.Keys == rest + {key};
    assert m.Keys == {key};
  }

  /** With capacity 1, MarkSeen leaves exactly the marked key in the map. */
  lemma {:induction false} CapacityOneKeepsOnlyLast(s: CacheState, key: string, now: int)
    requires Valid(s) && NotAfter(s, now) && s.capacity == 1
    ensures Marked(s, key, now).items == map[key := Stamp(now, s.next)]
  {
    MarkThenSeen(s, key, now);
    MarkedValid(s, key, now);
    SingleKey(Marked(s, key, now).items, key);
  }

  /** The capacity test: with capacity 1, marking "first" then "second" leaves "first"
      unseen and "second" seen. */
  lemma {:induction false} CapacityEvictsOldest(ttl: int, t1: int, t2: int)
    requires t1 <= t2
    ensures var s1 := Marked(Init(1, ttl), "first", t1);
      var s2 := Marked(s1, "second", t2);
      !Seen(s2, "first", t2) && Seen(s2, "second", t2)
  {
    var s0 := Init(1, ttl);
    var s1 := Marked(s0, "first", t1);
    MarkedValid(s0, "first", t1);
    MarkedNotAfter(s0, "first", t1);
    CapacityOneKeepsOnlyLast(s1, "second", t2);
    MarkThenSeen(s1, "second", t2);
  }

  /** The expiry test: a key marked at t is unseen once more than ttl has passed. */
  lemma {:induction false} ExpiredIsUnseen(capacity: int, ttl: int, key: string, t: int, now: int)
    requires now - t > Init(capacity, ttl).ttl
    ensures !Seen(Marked(Init(capacity, ttl), key, t), key, now)
  {
    SeenWithinTtl(Init(capacity, ttl), key, t, now);
  }

  // ---------------------------------------------------------------------------------
  // The cache as written: queue entries carry the timestamp only, and compaction removes
  // a key when the popped entry's timestamp equals the stored one.

  datatype GoEntry = GoEntry(key: string, ts: int)

  datatype GoState = GoState(items: map<string, int>, order: seq<GoEntry>, capacity: int, ttl: int)

  function GoCompacted(s: GoState, now: int): (r: GoState)
    ensures |r.order| <= |s.order| && r.capacity == s.capacity && r.ttl == s.ttl
    decreases |s.order|
  {
    if |s.order| > 0 && (|s.items| > s.capacity || s.order[0].ts < now - s.ttl) then
      var e := s.order[0];
      var items := if e.key in s.items && s.items[e.key] == e.ts then s.items - {e.key} else s.items;
      GoCompacted(s.(order := s.order[1..], items := items), now)
    else s
  }

  function GoMarked(s: GoState, key: string, now: int): GoState {
    GoCompacted(s.(items := s.items[key := now], order := s.order + [GoEntry(key, now)]), now)
  }

  predicate GoSeen(s: GoState, key: string, now: int) {
    key in s.items && now - s.items[key] <= s.ttl
  }

  /** Capacity 1 and every mark at the same instant: mark b, b, c, b. The stale b entry at
      the queue front carries the same timestamp as the fresh mark, so compaction deletes
      the key just marked and IsSeen(b) answers false right after MarkSeen(b). */
  lemma {:induction false} TieLosesMark()
    ensures var s0 := GoState(map[], [], 1, Hour);
      var s1 := GoMarked(s0, "b", 5);
      var s2 := GoMarked(s1, "b", 5);
      var s3 := GoMarked(s2, "c", 5);
      var s4 := GoMarked(s3, "b", 5);
      !GoSeen(s4, "b", 5)
  {
    TieFirstMarks();
    TieMarkOther();
    TieMarkAgain();
    assert "b" !in map["c" := 5];
  }

  /** Marking b twice at 5 stores b once and queues it twice. */
  lemma {:induction false} TieFirstMarks()
    ensures GoMarked(GoMarked(GoState(map[], [], 1, Hour), "b", 5), "b", 5)
      == GoState(map["b" := 5], [GoEntry("b", 5), GoEntry("b", 5)], 1, Hour)
  {
    var s1 := GoMarked(GoState(map[], [], 1, Hour), "b", 5);
    assert s1 == GoState(map["b" := 5], [GoEntry("b", 5)], 1, Hour);
  }

  /** Marking c then overflows capacity 1: the first b entry is popped and, its timestamp
      being b's, deletes b. */
  lemma {:induction false} TieMarkOther()
    ensures GoMarked(GoState(map["b" := 5], [GoEntry("b", 5), GoEntry("b", 5)], 1, Hour), "c", 5)
      == GoState(map["c" := 5], [GoEntry("b", 5), GoEntry("c", 5)], 1, Hour)
  {
    var m3 := map["b" := 5, "c" := 5];
    assert map["b" := 5]["c" := 5] == m3;
    assert [GoEntry("b", 5), GoEntry("b", 5)] + [GoEntry("c", 5)] == [GoEntry("b", 5), GoEntry("b", 5), GoEntry("c", 5)];
    assert |m3| == 2;
    assert m3 - {"b"} == map["c" := 5];
    var t3 := GoState(map["c" := 5], [GoEntry("b", 5), GoEntry("c", 5)], 1, Hour);
    assert GoCompacted(GoState(m3, [GoEntry("b", 5), GoEntry("b", 5), GoEntry("c", 5)], 1, Hour), 5)
        == GoCompacted(t3, 5);
    assert GoCompacted(t3, 5) == t3;
  }

  /** Marking b again: the stale b entry at the front is popped, carries the same
      timestamp as the fresh mark and deletes it. */
  lemma {:induction false} TieMarkAgain()
    ensures GoMarked(GoState(map["c" := 5], [GoEntry("b", 5), GoEntry("c", 5)], 1, Hour), "b", 5)
      == GoState(map["c" := 5], [GoEntry("c", 5), GoEntry("b", 5)], 1, Hour)
  {
    var m4 := map["c" := 5, "b" := 5];
    assert map["c" := 5]["b" := 5] == m4;
    assert [GoEntry("b", 5), GoEntry("c", 5)] + [GoEntry("b", 5)] == [GoEntry("b", 5), GoEntry("c", 5), GoEntry("b", 5)];
    assert |m4| == 2;
    assert m4 - {"b"} == map["c" := 5];
    var t4 := GoState(map["c" := 5], [GoEntry("c", 5), GoEntry("b", 5)], 1, Hour);
    assert GoCompacted(GoState(m4, [GoEntry("b", 5), GoEntry("c", 5), GoEntry("b", 5)], 1, Hour), 5)
        == GoCompacted(t4, 5);
    assert GoCompacted(t4, 5) == t4;
  }
}
