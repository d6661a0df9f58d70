/** The dedup gate (internal/hub/dedup.go): Redis keys with a bounded in-memory
    fallback, a degraded window and an index restored from the ledger.

    The functions on `View` say what one call does to everything the gate can see;
    the class is the program's object, proved against them. A Redis command is given
    the way it ended (`Reply`), so every failure is covered. */
module DedupGate {
  import opened Basics
  import opened LruPhases

  type Keys = map<string, Phase>

  datatype Answer = Absent | Pending | InLedger

  /** `attached` is false for a gate built over no client. */
  datatype View = View(attached: bool, cap: nat, grace: nat, keys: Keys, lru: seq<Cell>, degraded: bool,
                       restored: set<string>, trustUntil: Option<int>)

  ghost predicate Wf(v: View) { Distinct(v.lru) && |v.lru| <= v.cap && v.cap >= 1 }

  // ---- the Redis commands the gate uses ----

  function SetNX(keys: Keys, k: string, p: Phase, r: Reply): Keys {
    if r.Landed() && k !in keys then keys[k := p] else keys
  }

  function SetXX(keys: Keys, k: string, p: Phase, r: Reply): Keys {
    if r.Landed() && k in keys then keys[k := p] else keys
  }

  function Del(keys: Keys, k: string, r: Reply): Keys {
    if r.Landed() then keys - {k} else keys
  }

  // ---- one call of the gate ----

  predicate Trusted(v: View, k: string, now: int) {
    v.trustUntil.Some? && now < v.trustUntil.value && k in v.restored
  }

  function ClaimOf(v: View, k: string, now: int, r: Reply): (View, bool) {
    if Trusted(v, k, now) then (v, false)
    else if v.attached then
      var w := v.(keys := SetNX(v.keys, k, Enqueued, r), degraded := !r.Ok(),
                  lru := Stored(v.lru, v.cap, k, Enqueued));
      (w, if r.Ok() then k !in v.keys else !Has(v.lru, k))
    else (v.(lru := Stored(v.lru, v.cap, k, Enqueued)), !Has(v.lru, k))
  }

  /** `rival`: another client claims the key between the two writes of a mark. */
  function Rival(keys: Keys, k: string, rival: bool): Keys {
    if rival then SetNX(keys, k, Enqueued, Done) else keys
  }

  function MarkOf(v: View, k: string, rival: bool, r1: Reply, r2: Reply, r3: Reply): View {
    var w := v.(lru := Stored(v.lru, v.cap, k, Appended));
    if !v.attached || v.degraded then w
    else
      var k1 := SetXX(v.keys, k, Appended, r1);
      if !r1.Ok() then w.(keys := k1, degraded := true)
      else if k in v.keys then w.(keys := k1)
      else
        var k0 := Rival(k1, k, rival);
        var k2 := SetNX(k0, k, Appended, r2);
        if !r2.Ok() then w.(keys := k2, degraded := true)
        else if k !in k0 then w.(keys := k2)
        else w.(keys := SetXX(k2, k, Appended, r3), degraded := !r3.Ok())
  }

  function Read(p: Phase): Answer { if p.Appended? then InLedger else Pending }

  function FromLru(v: View, k: string): (View, Answer) {
    (v.(lru := Touched(v.lru, k)), if Has(v.lru, k) then Read(PhaseOf(v.lru, k)) else Absent)
  }

  function StateOf(v: View, k: string, now: int, r: Reply): (View, Answer) {
    if Trusted(v, k, now) then (v, InLedger)
    else if v.degraded || !v.attached then FromLru(v, k)
    else if r.Ok() then
      (v.(degraded := false), if k in v.keys then Read(v.keys[k]) else Absent)
    else FromLru(v.(degraded := true), k)
  }

  function ReleaseOf(v: View, k: string, r: Reply): View {
    var w := v.(lru := Without(v.lru, k));
    if !v.attached || v.degraded then w
    else w.(keys := Del(v.keys, k, r), degraded := !r.Ok())
  }

  function NonEmpty(keys: seq<string>): set<string> { set k | k in keys && k != "" }

  function RestoreOf(v: View, keys: seq<string>, now: int): View {
    v.(restored := NonEmpty(keys),
       trustUntil := if v.grace > 0 then Some(now + v.grace) else v.trustUntil,
       lru := StoredAll(v.lru, v.cap, keys))
  }

  // ---- what the calls guarantee ----

  /** Every `appended` mark the gate holds, in Redis, in the fallback or in the
      restored index, is on a key of `backed`. */
  ghost predicate MarksOnly(v: View, backed: iset<string>) {
    && (forall k :: k in v.keys && v.keys[k].Appended? ==> k in backed)
    && (forall k :: Marked(v.lru, k) ==> k in backed)
    && (forall k :: k in v.restored ==> k in backed)
  }

  /** Whatever Redis answers, loses or applies unseen, a claim, a check and a release
      mark no key, and an `appended` answer is given for a marked key only. */
  lemma CallsKeepMarks(v: View, backed: iset<string>, k: string, now: int, r: Reply)
    requires Wf(v) && MarksOnly(v, backed)
    ensures Wf(ClaimOf(v, k, now, r).0) && MarksOnly(ClaimOf(v, k, now, r).0, backed)
    ensures Wf(StateOf(v, k, now, r).0) && MarksOnly(StateOf(v, k, now, r).0, backed)
    ensures StateOf(v, k, now, r).1 == InLedger ==> k in backed
    ensures Wf(ReleaseOf(v, k, r)) && MarksOnly(ReleaseOf(v, k, r), backed)
  {
    MarkedAfterStore(v, k, Enqueued);
    TouchedFacts(v.lru, k);
    WithoutMembers(v.lru, k);
  }

  /** A mark adds its own key and no other, in every way it can end. */
  lemma MarkKeepsMarks(v: View, backed: iset<string>, k: string, rival: bool, r1: Reply, r2: Reply, r3: Reply)
    requires Wf(v) && MarksOnly(v, backed)
    ensures Wf(MarkOf(v, k, rival, r1, r2, r3))
    ensures MarksOnly(MarkOf(v, k, rival, r1, r2, r3), backed + iset{k})
  {
    MarkedAfterStore(v, k, Appended);
  }

  lemma MarkedAfterStore(v: View, k: string, p: Phase)
    requires Wf(v)
    ensures var t := Stored(v.lru, v.cap, k, p);
      && Distinct(t) && |t| <= v.cap
      && forall x :: Marked(t, x) ==> Marked(v.lru, x) || (x == k && p.Appended?)
  {
    StoredFacts(v.lru, v.cap, k, p);
  }

  lemma RestoreKeepsMarks(v: View, backed: iset<string>, keys: seq<string>, now: int)
    requires Wf(v) && MarksOnly(v, backed) && forall k :: k in keys ==> k in backed
    ensures Wf(RestoreOf(v, keys, now)) && MarksOnly(RestoreOf(v, keys, now), backed)
  {
    StoredAllMarksOnly(v.lru, v.cap, keys);
  }

  /** A completed mark is answered `appended` from then on: by the next check in the
      same window, whether or not Redis took the mark, when the check's own command
      succeeds or the window is degraded. */
  lemma MarkIsAnswered(v: View, k: string, now: int, rival: bool,
      r1: Reply, r2: Reply, r3: Reply, r: Reply)
    requires Wf(v)
    ensures StateOf(MarkOf(v, k, rival, r1, r2, r3), k, now, r).1 == InLedger
  {
    StoredFacts(v.lru, v.cap, k, Appended);
    UniquePhase(Stored(v.lru, v.cap, k, Appended), k);
  }

  function Fresh(attached: bool, cap: nat, grace: nat, keys: Keys): View {
    View(attached, cap, grace, keys, [], false, {}, None)
  }

  /** A gate re-warmed with no more keys than its capacity answers `appended` for all
      of them inside the trust window, whatever Redis holds or answers, and claims of
      them are replays; the fallback evicted none, so a degraded window that outlives
      the trust window still answers `appended`. */
  lemma RewarmIsComplete(attached: bool, cap: nat, grace: nat, redis: Keys, keys: seq<string>, at: int,
                         k: string, now: int, r: Reply)
    requires |keys| <= cap && cap >= 1 && k in keys && k != ""
    ensures var v := RestoreOf(Fresh(attached, cap, grace, redis), keys, at);
      && (grace > 0 && now < at + grace ==> StateOf(v, k, now, r).1 == InLedger && !ClaimOf(v, k, now, r).1)
      && StateOf(v.(degraded := true), k, now, r).1 == InLedger
  {
    StoredAllKeepsEveryKey([], cap, keys);
    UniquePhase(StoredAll([], cap, keys), k);
  }

  /** "A lost XADD costs nothing": after a release the sender's retry is a fresh
      acceptance exactly when the release really removed the Redis claim. A release
      inside a degraded window, or one whose DEL never reached Redis, leaves the
      claim behind, and the retry is then answered as a duplicate. */
  lemma ReleaseReopens(v: View, k: string, now: int, r: Reply)
    requires v.attached && !Trusted(v, k, now)
    ensures ClaimOf(ReleaseOf(v, k, r), k, now, Done).1
      <==> k !in v.keys || (!v.degraded && r.Landed())
  {
  }

  /** While Redis does not answer the fallback does, and it has let the claim go. */
  lemma ReleaseReopensLocally(v: View, k: string, now: int, r: Reply, again: Reply)
    requires Wf(v) && !Trusted(v, k, now) && (!v.attached || !again.Ok())
    ensures ClaimOf(ReleaseOf(v, k, r), k, now, again).1
  {
    WithoutMembers(v.lru, k);
  }

  /** Inside a degraded window a check, a mark and a release leave Redis alone, and what it
      holds makes no difference to the answer. */
  lemma DegradedIsLocal(v: View, k: string, now: int, rival: bool, r: Reply, r1: Reply, r2: Reply, r3: Reply, other: Keys)
    requires v.degraded
    ensures var (w, a) := StateOf(v, k, now, r);
      w.keys == v.keys && w.degraded && a == StateOf(v.(keys := other), k, now, r).1
    ensures MarkOf(v, k, rival, r1, r2, r3).keys == v.keys && MarkOf(v, k, rival, r1, r2, r3).degraded
    ensures ReleaseOf(v, k, r).keys == v.keys && ReleaseOf(v, k, r).degraded
  {
  }

  /** A window is opened by a command that fails and by nothing else, and it is closed by a
      claim that Redis answers. */
  lemma WindowIsEarned(v: View, k: string, now: int, rival: bool, r: Reply, r1: Reply, r2: Reply, r3: Reply)
    requires v.attached && !Trusted(v, k, now)
    ensures ClaimOf(v, k, now, r).0.degraded <==> !r.Ok()
    ensures !v.degraded ==> (StateOf(v, k, now, r).0.degraded <==> !r.Ok()) && (ReleaseOf(v, k, r).degraded <==> !r.Ok())
    ensures !v.degraded && r1.Ok() && r2.Ok() && r3.Ok() ==> !MarkOf(v, k, rival, r1, r2, r3).degraded
    ensures !v.degraded && (!r1.Ok() || (k !in v.keys && !r2.Ok())) ==> MarkOf(v, k, rival, r1, r2, r3).degraded
    ensures !v.degraded && rival && k !in v.keys && !r3.Ok() ==> MarkOf(v, k, rival, r1, r2, r3).degraded
  {
  }

  /** A key that is nowhere is claimed, whatever Redis answers. */
  lemma FreshClaimIsNew(v: View, k: string, now: int, r: Reply)
    requires !Trusted(v, k, now) && k !in v.keys && !Has(v.lru, k)
    ensures ClaimOf(v, k, now, r).1
  {
  }

  /** And once: a second claim of the key is new exactly when the first one did not reach
      Redis and Redis answers again. */
  lemma SecondClaimIsNewExactly(v: View, k: string, now: int, r1: Reply, r2: Reply)
    requires Wf(v)
    ensures ClaimOf(ClaimOf(v, k, now, r1).0, k, now, r2).1
      <==> v.attached && !Trusted(v, k, now) && k !in v.keys && !r1.Landed() && r2.Ok()
  {
    StoredFacts(v.lru, v.cap, k, Enqueued);
  }

  /** The claim the retry meets: claimed, XADD refused while Redis is out of reach,
      release not delivered, Redis back. */
  lemma LostReleaseWitness()
    ensures var v0 := Fresh(true, 8, 30, map[]);
            var (v1, first) := ClaimOf(v0, "k", 0, Done);
            var v2 := ReleaseOf(v1, "k", FailedClean);
            first && !ClaimOf(v2, "k", 1, Done).1
  {
  }

  // ---- the program's object ----

  class Store {
    var keys: Keys

    constructor (initial: Keys)
      ensures keys == initial
    { keys := initial; }

    method DoSetNX(k: string, p: Phase, r: Reply) returns (took: bool)
      modifies this
      ensures keys == SetNX(old(keys), k, p, r)
      ensures r.Ok() ==> (took <==> k !in old(keys))
    {
      took := k !in keys;
      if r.Landed() && took { keys := keys[k := p]; }
    }

    method DoSetXX(k: string, p: Phase, r: Reply) returns (took: bool)
      modifies this
      ensures keys == SetXX(old(keys), k, p, r)
      ensures r.Ok() ==> (took <==> k in old(keys))
    {
      took := k in keys;
      if r.Landed() && took { keys := keys[k := p]; }
    }

    method DoDel(k: string, r: Reply)
      modifies this
      ensures keys == Del(old(keys), k, r)
    {
      if r.Landed() { keys := keys - {k}; }
    }
  }

  class Gate {
    const client: Store?
    const fallback: Memory
    const grace: nat
    const spare: Keys
    var degraded: bool
    var degradedCount: nat
    var restored: set<string>
    var restoredKeys: nat
    var trustUntil: Option<int>

    ghost predicate Valid()
      reads this, fallback
    { fallback.Valid() && (client == null ==> spare == map[]) }

    ghost function Seen(): View
      reads this, client, fallback, fallback.order
      requires Valid()
    {
      View(client != null, fallback.cap, grace, if client == null then spare else client.keys,
           fallback.View(), degraded, restored, trustUntil)
    }

    constructor (c: Store?, lruCap: int, failoverGrace: nat)
      ensures Valid() && client == c && fresh(fallback) && fallback.order == []
      ensures Seen() == Fresh(c != null, if lruCap <= 0 then DEFAULT_CAPACITY else lruCap, failoverGrace,
                              if c == null then map[] else c.keys)
    {
      client := c;
      fallback := new Memory(lruCap);
      grace := failoverGrace;
      spare := map[];
      degraded, degradedCount := false, 0;
      restored, restoredKeys, trustUntil := {}, 0, None;
    }

    method MarkDegraded()
      modifies this`degraded, this`degradedCount
      ensures degraded && degradedCount == old(degradedCount) + (if old(degraded) then 0 else 1)
    {
      if !degraded { degradedCount := degradedCount + 1; }
      degraded := true;
    }

    method IsTrusted(key: string, now: int) returns (t: bool)
      requires Valid()
      ensures t == Trusted(Seen(), key, now)
    {
      if trustUntil.None? || !(now < trustUntil.value) {
        return false;
      }
      return key in restored;
    }

    method Claim(key: string, now: int, r: Reply) returns (isNew: bool)
      requires Valid()
      modifies this, client, fallback, fallback.order
      ensures Valid() && forall e :: e in fallback.order && e !in old(fallback.order) ==> fresh(e)
      ensures (Seen(), isNew) == ClaimOf(old(Seen()), key, now, r)
    {
      var t := IsTrusted(key, now);
      if t {
        return false;
      }
      if client != null {
        var took := ClaimRemote(key, r);
        if r.Ok() {
          var _ := ClaimFallback(key);
          return took;
        }
      }
      isNew := ClaimFallback(key);
    }

    method ClaimFallback(key: string) returns (isNew: bool)
      requires Valid()
      modifies fallback, fallback.order
      ensures Valid() && forall e :: e in fallback.order && e !in old(fallback.order) ==> fresh(e)
      ensures Seen() == old(Seen()).(lru := Stored(old(Seen()).lru, fallback.cap, key, Enqueued))
      ensures isNew == !Has(old(Seen()).lru, key)
    {
      isNew := fallback.Put(key, Enqueued);
    }

    method ClaimRemote(key: string, r: Reply) returns (took: bool)
      requires client != null
      modifies this`degraded, this`degradedCount, client
      ensures client.keys == SetNX(old(client.keys), key, Enqueued, r) && degraded == !r.Ok()
      ensures r.Ok() ==> (took <==> key !in old(client.keys))
    {
      took := client.DoSetNX(key, Enqueued, r);
      if r.Ok() {
        degraded := false;
      } else {
        MarkDegraded();
      }
    }

    method MarkAppended(key: string, rival: bool, r1: Reply, r2: Reply, r3: Reply)
      requires Valid()
      modifies this, client, fallback, fallback.order
      ensures Valid() && forall e :: e in fallback.order && e !in old(fallback.order) ==> fresh(e)
      ensures Seen() == MarkOf(old(Seen()), key, rival, r1, r2, r3)
    {
      var _ := fallback.Put(key, Appended);
      assert Seen() == old(Seen()).(lru := Stored(old(Seen()).lru, fallback.cap, key, Appended));
      if client == null || degraded {
        return;
      }
      MarkAppendedRemote(key, rival, r1, r2, r3);
    }

    method MarkAppendedRemote(key: string, rival: bool, r1: Reply, r2: Reply, r3: Reply)
      requires Valid() && client != null && !degraded
      modifies this`degraded, this`degradedCount, client
      ensures var k1 := SetXX(old(client.keys), key, Appended, r1);
        if !r1.Ok() || key in old(client.keys) then client.keys == k1 && degraded == !r1.Ok()
        else var k0 := Rival(k1, key, rival);
          var k2 := SetNX(k0, key, Appended, r2);
          if !r2.Ok() || key !in k0 then client.keys == k2 && degraded == !r2.Ok()
          else client.keys == SetXX(k2, key, Appended, r3) && degraded == !r3.Ok()
    {
      var ok := client.DoSetXX(key, Appended, r1);
      if !r1.Ok() {
        MarkDegraded();
        return;
      }
      if ok {
        return;
      }
      if rival {
        var _ := client.DoSetNX(key, Enqueued, Done);
      }
      var took := client.DoSetNX(key, Appended, r2);
      if !r2.Ok() {
        MarkDegraded();
        return;
      }
      if !took {
        var _ := client.DoSetXX(key, Appended, r3);
        if !r3.Ok() {
          MarkDegraded();
        }
      }
    }

    method State(key: string, now: int, r: Reply) returns (a: Answer)
      requires Valid()
      modifies this, client, fallback, fallback.order
      ensures Valid() && forall e :: e in fallback.order <==> e in old(fallback.order)
      ensures (Seen(), a) == StateOf(old(Seen()), key, now, r)
    {
      var t := IsTrusted(key, now);
      if t {
        return InLedger;
      }
      if !degraded && client != null {
        if r.Ok() {
          return if key in client.keys then Read(client.keys[key]) else Absent;
        }
        MarkDegraded();
      }
      var found := fallback.Get(key);
      return if found.Some? then Read(found.value) else Absent;
    }

    method Release(key: string, r: Reply)
      requires Valid()
      modifies this, client, fallback, fallback.order
      ensures Valid() && forall e :: e in fallback.order ==> e in old(fallback.order)
      ensures Seen() == ReleaseOf(old(Seen()), key, r)
    {
      fallback.Remove(key);
      if client == null || degraded {
        return;
      }
      client.DoDel(key, r);
      if !r.Ok() {
        MarkDegraded();
      }
    }

    method Restore(keys: seq<string>, now: int)
      requires Valid()
      modifies this, client, fallback, fallback.order
      ensures Valid() && forall e :: e in fallback.order && e !in old(fallback.order) ==> fresh(e)
      ensures Seen() == RestoreOf(old(Seen()), keys, now) && restoredKeys == |restored|
    {
      OpenWindow(keys, now);
      ghost var seen := Seen();
      assert seen == RestoreOf(old(Seen()), keys, now).(lru := old(Seen()).lru);
      RestoreFallback(keys);
      assert Seen() == seen.(lru := StoredAll(seen.lru, seen.cap, keys));
    }

    /** The restored index and the window in which it is trusted. */
    method OpenWindow(keys: seq<string>, now: int)
      modifies this
      ensures restored == NonEmpty(keys) && restoredKeys == |restored| && degraded == old(degraded)
      ensures trustUntil == if grace > 0 then Some(now + grace) else old(trustUntil)
      ensures degradedCount == old(degradedCount)
    {
      restored := NonEmpty(keys);
      restoredKeys := |restored|;
      if grace > 0 {
        trustUntil := Some(now + grace);
      }
    }

    method RestoreFallback(keys: seq<string>)
      requires Valid()
      modifies fallback, fallback.order
      ensures Valid() && forall e :: e in fallback.order && e !in old(fallback.order) ==> fresh(e)
      ensures fallback.View() == StoredAll(old(fallback.View()), fallback.cap, keys)
    {
      var i := 0;
      while i < |keys|
        invariant i <= |keys| && fallback.Valid()
        invariant forall e :: e in fallback.order && e !in old(fallback.order) ==> fresh(e)
        invariant StoredAll(old(fallback.View()), fallback.cap, keys)
          == StoredAll(fallback.View(), fallback.cap, keys[i..])
      {
        assert keys[i..][1..] == keys[i + 1..];
        if keys[i] != "" {
          var _ := fallback.Put(keys[i], Appended);
        }
        i := i + 1;
      }
    }
  }
}
