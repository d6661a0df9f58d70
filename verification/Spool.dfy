/** The flow's durable dispatch queue (internal/flow/spool.go): one file an entry, listed
    in replay order, bounded on every write. */
module Spool {
  import opened Basics
  import opened Seal

  type Id = nat

  /** Times are the instants their text stands for; an absent retry time sorts first. */
  datatype Entry = Entry(id: Id, ts: int, nextTry: Option<int>, key: string, body: Json, attempts: nat)

  datatype Bounds = Bounds(maxEntries: int, ttl: int, maxAttempts: int, replayBatch: int)

  function WithDefaults(b: Bounds): (r: Bounds)
    ensures r.maxEntries > 0 && r.ttl > 0 && r.maxAttempts > 0 && r.replayBatch > 0
    ensures b.maxEntries > 0 ==> r.maxEntries == b.maxEntries
    ensures b.maxAttempts > 0 ==> r.maxAttempts == b.maxAttempts
    ensures b.ttl > 0 ==> r.ttl == b.ttl
    ensures b.replayBatch > 0 ==> r.replayBatch == b.replayBatch
  {
    Bounds(if b.maxEntries <= 0 then 256 else b.maxEntries,
           if b.ttl <= 0 then 72 * 3600 else b.ttl,
           if b.maxAttempts <= 0 then 5 else b.maxAttempts,
           if b.replayBatch <= 0 then 100 else b.replayBatch)
  }

  predicate Sooner(a: Option<int>, b: Option<int>) { b.Some? && (a.None? || a.value < b.value) }

  predicate Before(a: Entry, b: Entry) {
    if a.nextTry != b.nextTry then Sooner(a.nextTry, b.nextTry)
    else if a.ts != b.ts then a.ts < b.ts
    else a.id < b.id
  }

  // ---- the listing ----

  type Disk = map<Id, Entry>

  /** A file's name is its entry's id. */
  ghost predicate Named(disk: Disk) { forall i :: i in disk ==> disk[i].id == i }

  predicate Ordered(es: seq<Entry>) { forall i, j :: 0 <= i < j < |es| ==> Before(es[i], es[j]) }

  ghost predicate IsListing(disk: Disk, es: seq<Entry>) {
    Ordered(es) && (forall e :: e in es <==> e.id in disk && disk[e.id] == e)
  }

  function Insert(es: seq<Entry>, e: Entry): seq<Entry> {
    if es == [] || Before(e, es[0]) then [e] + es else [es[0]] + Insert(es[1..], e)
  }

  lemma {:induction false} InsertOrdered(es: seq<Entry>, e: Entry)
    requires Ordered(es) && forall x :: x in es ==> x.id != e.id
    ensures Ordered(Insert(es, e)) && forall x :: x in Insert(es, e) <==> x in es || x == e
  {
    if es != [] && !Before(e, es[0]) {
      InsertOrdered(es[1..], e);
      var rest := Insert(es[1..], e);
      assert Before(es[0], e);
      forall i | 0 <= i < |rest| ensures Before(es[0], rest[i]) { assert rest[i] in rest; }
      assert es == [es[0]] + es[1..];
    }
  }

  ghost function Listing(disk: Disk): (es: seq<Entry>)
    requires Named(disk)
    ensures IsListing(disk, es) && |es| == |disk|
    decreases |disk|
  {
    if disk == map[] then []
    else
      var id :| id in disk;
      var rest := disk - {id};
      InsertOrdered(Listing(rest), disk[id]);
      InsertLength(Listing(rest), disk[id]);
      assert disk.Keys == rest.Keys + {id};
      Insert(Listing(rest), disk[id])
  }

  lemma {:induction false} InsertLength(es: seq<Entry>, e: Entry)
    ensures |Insert(es, e)| == |es| + 1
  {
    if es != [] && !Before(e, es[0]) { InsertLength(es[1..], e); }
  }

  /** The replay order is total, so a directory has one listing. */
  lemma {:induction false} OneListing(a: seq<Entry>, b: seq<Entry>)
    requires Ordered(a) && Ordered(b) && forall e :: e in a <==> e in b
    ensures a == b
  {
    assert forall i :: 0 <= i < |a| ==> a[i] in b;
    assert forall i :: 0 <= i < |b| ==> b[i] in a;
    if a != [] {
      assert a[0] in b && b[0] in a;
      assert a[0] == b[0];
      forall e ensures e in a[1..] <==> e in b[1..] { TailMembers(a, e); TailMembers(b, e); }
      OneListing(a[1..], b[1..]);
      assert a == [a[0]] + a[1..] && b == [b[0]] + b[1..];
    }
  }

  lemma TailMembers(es: seq<Entry>, e: Entry)
    requires es != [] && Ordered(es)
    ensures e in es[1..] <==> e in es && e != es[0]
  {
    assert es == [es[0]] + es[1..];
  }

  // ---- the bound ----

  /** How many entries a write evicts: the incoming one counts. */
  function Over(disk: Disk, maxEntries: int): nat { Min(Max(|disk| + 1 - maxEntries, 0), |disk|) }

  /** The directory after the entries' files are removed. */
  function Removed(disk: Disk, es: seq<Entry>): Disk {
    if es == [] then disk else Removed(disk, es[..|es| - 1]) - {es[|es| - 1].id}
  }

  lemma RemovedAppend(disk: Disk, es: seq<Entry>, e: Entry)
    ensures Removed(disk, es + [e]) == Removed(disk, es) - {e.id}
  {
    assert (es + [e])[..|es|] == es;
  }

  lemma {:induction false} RemovedMembers(disk: Disk, es: seq<Entry>, i: Id)
    ensures i in Removed(disk, es) <==> i in disk && forall e :: e in es ==> e.id != i
    ensures i in Removed(disk, es) ==> Removed(disk, es)[i] == disk[i]
  {
    if es != [] {
      RemovedMembers(disk, es[..|es| - 1], i);
      assert es == es[..|es| - 1] + [es[|es| - 1]];
    }
  }

  /** The entries gone after a write whose evictions stopped short at `stop`, if any. */
  ghost function Evicted(disk: Disk, maxEntries: int, stop: Option<nat>): seq<Entry>
    requires Named(disk)
  {
    var k := Over(disk, maxEntries);
    Listing(disk)[..if stop.Some? && stop.value < k then stop.value else k]
  }

  ghost function Written(disk: Disk, maxEntries: int, e: Entry, stop: Option<nat>, r: Reply): Disk
    requires Named(disk)
  {
    var rest := Removed(disk, Evicted(disk, maxEntries, stop));
    if (stop.Some? && stop.value < Over(disk, maxEntries)) || !r.Landed() then rest else rest[e.id := e]
  }

  /** Entries of one directory that share an id are one entry, and no entry is before
      itself. */
  lemma LastIsNew(disk: Disk, front: seq<Entry>, last: Entry)
    requires Ordered(front + [last]) && forall e :: e in front + [last] ==> e.id in disk && disk[e.id] == e
    ensures forall e :: e in front ==> e.id != last.id
  {
    var es := front + [last];
    assert last in es;
    forall i | 0 <= i < |front| ensures front[i].id != last.id {
      assert es[i] in es && Before(es[i], es[|front|]);
    }
  }

  lemma OneLess(disk: Disk, id: Id)
    requires id in disk
    ensures |disk - {id}| == |disk| - 1
  {
    assert disk.Keys == (disk - {id}).Keys + {id};
  }

  lemma {:induction false} RemovingShrinks(disk: Disk, es: seq<Entry>)
    requires Ordered(es) && forall e :: e in es ==> e.id in disk && disk[e.id] == e
    ensures |Removed(disk, es)| == |disk| - |es|
  {
    if es != [] {
      var front, last := es[..|es| - 1], es[|es| - 1];
      assert es == front + [last];
      RemovingShrinks(disk, front);
      LastIsNew(disk, front, last);
      RemovedMembers(disk, front, last.id);
      OneLess(Removed(disk, front), last.id);
    }
  }

  lemma EvictedFacts(disk: Disk, maxEntries: int, stop: Option<nat>)
    requires Named(disk)
    ensures var es := Evicted(disk, maxEntries, stop);
      && |Removed(disk, es)| == |disk| - |es| && Ordered(es)
      && (forall e :: e in es ==> e.id in disk && disk[e.id] == e)
  {
    var es := Evicted(disk, maxEntries, stop);
    forall e | e in es ensures e.id in disk && disk[e.id] == e { assert e in Listing(disk); }
    RemovingShrinks(disk, es);
  }

  /** After any write that succeeds the queue is within its bound, whatever it was before,
      and what the write evicts is a prefix of the replay order. */
  lemma BoundHolds(disk: Disk, b: Bounds, e: Entry)
    requires Named(disk)
    ensures |Written(disk, WithDefaults(b).maxEntries, e, None, Done)| <= WithDefaults(b).maxEntries
  {
    var max := WithDefaults(b).maxEntries;
    EvictedFacts(disk, max, None);
    AtMostOneMore(Removed(disk, Evicted(disk, max, None)), e);
  }

  /** And one that is stopped or fails never takes it above what it was or its bound. */
  lemma NeverGrowsOver(disk: Disk, b: Bounds, e: Entry, stop: Option<nat>, r: Reply)
    requires Named(disk)
    ensures |Written(disk, WithDefaults(b).maxEntries, e, stop, r)| <= Max(WithDefaults(b).maxEntries, |disk|)
  {
    var max := WithDefaults(b).maxEntries;
    EvictedFacts(disk, max, stop);
    AtMostOneMore(Removed(disk, Evicted(disk, max, stop)), e);
  }

  lemma AtMostOneMore(disk: Disk, e: Entry)
    ensures |disk[e.id := e]| <= |disk| + 1
  {
    assert disk[e.id := e].Keys == disk.Keys + {e.id};
  }

  /** Everything before the cut is at least as old as everything after it. */
  predicate CutsByAge(es: seq<Entry>, k: nat) { forall a, b :: 0 <= a < k <= b < |es| ==> es[a].ts <= es[b].ts }

  /** No entry waits on a later retry than a younger one. */
  predicate RetriesByAge(es: seq<Entry>) {
    forall a, b :: 0 <= a < |es| && 0 <= b < |es| && Sooner(es[a].nextTry, es[b].nextTry) ==> es[a].ts <= es[b].ts
  }

  lemma EveryCutByAge(es: seq<Entry>)
    requires Ordered(es)
    ensures (forall k: nat :: k <= |es| ==> CutsByAge(es, k)) <==> RetriesByAge(es)
  {
    if forall k: nat :: k <= |es| ==> CutsByAge(es, k) {
      forall a, b | 0 <= a < |es| && 0 <= b < |es| && Sooner(es[a].nextTry, es[b].nextTry) ensures es[a].ts <= es[b].ts {
        assert !Before(es[b], es[a]);
        assert CutsByAge(es, b);
      }
    }
    if RetriesByAge(es) {
      forall k: nat | k <= |es| ensures CutsByAge(es, k) {
        forall a, b | 0 <= a < k <= b < |es| ensures es[a].ts <= es[b].ts { assert Before(es[a], es[b]); }
      }
    }
  }

  /** What an overflow evicts, the first of the listing, is the oldest there is. */
  ghost predicate EvictsOldest(disk: Disk, maxEntries: int)
    requires Named(disk)
  {
    CutsByAge(Listing(disk), |Evicted(disk, maxEntries, None)|)
  }

  /** An overflow evicts the first in replay order. For every bound these are the oldest
      exactly when no entry of the directory waits on a later retry than a younger one. */
  lemma OldestAreEvictedExactly(disk: Disk)
    requires Named(disk)
    ensures (forall maxEntries: int :: EvictsOldest(disk, maxEntries)) <==> RetriesByAge(Listing(disk))
  {
    var es := Listing(disk);
    EveryCutByAge(es);
    if forall maxEntries: int :: EvictsOldest(disk, maxEntries) {
      forall k: nat | k <= |es| ensures CutsByAge(es, k) { CutByBound(disk, k); }
    }
    if RetriesByAge(es) {
      forall maxEntries: int ensures EvictsOldest(disk, maxEntries) {
        assert |Evicted(disk, maxEntries, None)| <= |es|;
      }
    }
  }

  /** Every cut of the listing is made by some bound. */
  lemma CutByBound(disk: Disk, k: nat)
    requires Named(disk) && k <= |disk|
    ensures Evicted(disk, |disk| + 1 - k, None) == Listing(disk)[..k]
    ensures EvictsOldest(disk, |disk| + 1 - k) ==> CutsByAge(Listing(disk), k)
  {
    assert Over(disk, |disk| + 1 - k) == k;
  }

  /** A directory in which it does not hold: the older entry waits on a later retry. */
  lemma EvictsDueBeforeOld()
    ensures var elder := Entry(1, 10, Some(100), "a", Null, 3);
      var young := Entry(2, 50, Some(55), "b", Null, 0);
      var disk := map[1 := elder, 2 := young];
      Evicted(disk, 2, None) == [young]
  {
    var elder := Entry(1, 10, Some(100), "a", Null, 3);
    var young := Entry(2, 50, Some(55), "b", Null, 0);
    var disk: Disk := map[1 := elder, 2 := young];
    assert IsListing(disk, [young, elder]);
    OneListing(Listing(disk), [young, elder]);
    assert disk.Keys == {1, 2};
  }

  // ---- the store ----

  class Store {
    const bounds: Bounds
    var disk: Disk

    ghost predicate Valid()
      reads this
    {
      Named(disk)
    }

    constructor (b: Bounds)
      ensures Valid() && disk == map[] && bounds == WithDefaults(b)
    {
      bounds := WithDefaults(b);
      disk := map[];
    }

    method List() returns (es: seq<Entry>)
      requires Valid()
      ensures es == Listing(disk)
    {
      es := [];
      var left := disk;
      while left != map[]
        invariant left.Keys <= disk.Keys && Ordered(es)
        invariant forall i :: i in left ==> left[i] == disk[i]
        invariant forall e :: e in es <==> e.id in disk && e.id !in left && disk[e.id] == e
        decreases |left|
      {
        var id :| id in left;
        InsertOrdered(es, left[id]);
        es := Insert(es, left[id]);
        assert (left - {id}).Keys == left.Keys - {id};
        left := left - {id};
      }
      OneListing(es, Listing(disk));
    }

    /** Remove the first of the listed entries until there is room. `stop` is the eviction
        at which a removal fails. */
    method MakeRoom(existing: seq<Entry>, stop: Option<nat>) returns (drops: seq<Entry>, ok: bool)
      modifies this
      ensures var k := Min(Max(|existing| + 1 - bounds.maxEntries, 0), |existing|);
        && drops == existing[..if stop.Some? && stop.value < k then stop.value else k]
        && (ok <==> (stop.Some? ==> stop.value >= k))
      ensures disk == Removed(old(disk), drops)
    {
      var over := |existing| + 1 - bounds.maxEntries;
      drops := [];
      var i := 0;
      while i < over && i < |existing|
        invariant 0 <= i <= |existing| && i <= Max(over, 0)
        invariant drops == existing[..i] && disk == Removed(old(disk), drops)
        invariant stop.Some? ==> i <= stop.value
      {
        if stop == Some(i) { return drops, false; }
        assert existing[..i + 1] == existing[..i] + [existing[i]];
        RemovedAppend(old(disk), drops, existing[i]);
        disk := disk - {existing[i].id};
        drops := drops + [existing[i]];
        i := i + 1;
      }
      ok := true;
    }

    /** Make room, then write. */
    method Put(e: Entry, stop: Option<nat>, r: Reply) returns (drops: seq<Entry>, ok: bool)
      requires Valid()
      modifies this
      ensures Valid() && drops == Evicted(old(disk), bounds.maxEntries, stop)
      ensures disk == Written(old(disk), bounds.maxEntries, e, stop, r)
      ensures ok <==> r.Ok() && (stop.Some? ==> stop.value >= Over(old(disk), bounds.maxEntries))
    {
      var existing := List();
      drops, ok := MakeRoom(existing, stop);
      forall i ensures i in disk ==> i in old(disk) && disk[i] == old(disk)[i] { RemovedMembers(old(disk), drops, i); }
      if !ok { return; }
      if r.Landed() { disk := disk[e.id := e]; }
      ok := r.Ok();
    }

    method Delete(id: Id, r: Reply)
      requires Valid()
      modifies this
      ensures Valid() && disk == if r.Landed() then old(disk) - {id} else old(disk)
    {
      if r.Landed() { disk := disk - {id}; }
    }

    method Update(e: Entry, r: Reply)
      requires Valid()
      modifies this
      ensures Valid() && disk == if r.Landed() then old(disk)[e.id := e] else old(disk)
    {
      if r.Landed() { disk := disk[e.id := e]; }
    }
  }
}
