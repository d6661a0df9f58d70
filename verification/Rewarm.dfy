/** Re-warming a new gate from the ledger (internal/hub/runtime.go, rewarmGate), end to end
    with the claims a door takes; and how the steps of the ingestion protocol are the calls
    of the gate, command by command. */
module Rewarm {
  import opened Basics
  import opened LruPhases
  import opened DedupGate
  import opened Ingest
  import Identity

  /** Seed a freshly attached gate with the claims of the ledger's tail. */
  method RewarmGate(gate: Gate, c: Identity.Codec, ledger: seq<Identity.Record>, host: string, now: int) returns (n: nat)
    requires gate.Valid()
    modifies gate, gate.client, gate.fallback, gate.fallback.order
    ensures gate.Valid()
    ensures var keys := Identity.ClaimsOf(c, Identity.Tail(ledger, gate.fallback.cap), host);
      n == |keys| && gate.Seen() == if keys == [] then old(gate.Seen()) else RestoreOf(old(gate.Seen()), keys, now)
  {
    var keys := Identity.LedgerIdemKeys(c, ledger, host, gate.fallback.cap);
    if |keys| == 0 { return 0; }
    gate.Restore(keys, now);
    n := |keys|;
  }

  /** A duplicate that arrives right after a recovery: for any draft whose record is among
      the last `cap` of the ledger, a gate re-warmed from that ledger answers `appended`
      for the very key the door took, and refuses the claim, inside the trust window
      whatever Redis has lost; the fallback has evicted none of them. */
  lemma RecentClaimsAreAnswered(c: Identity.Codec, ledger: seq<Identity.Record>, i: nat, d: Identity.Draft, host: string,
                                localId: string, recId: string, cap: nat, grace: nat, redis: Keys, at: int, now: int, r: Reply)
    requires Identity.Sound(c) && host != "" && Identity.DoorKey(c, d, host).Some? && cap >= 1
    requires i < |ledger| && i + cap >= |ledger|
    requires ledger[i] == Identity.Landed(c, d, host, Identity.DoorKey(c, d, host).value, localId, recId)
    ensures var key := Identity.DoorKey(c, d, host).value;
      var keys := Identity.ClaimsOf(c, Identity.Tail(ledger, cap), host);
      var v := RestoreOf(DedupGate.Fresh(true, cap, grace, redis), keys, at);
      && (grace > 0 && now < at + grace ==> StateOf(v, key, now, r).1 == InLedger && !ClaimOf(v, key, now, r).1)
      && StateOf(v.(degraded := true), key, now, r).1 == InLedger
  {
    var key := Identity.DoorKey(c, d, host).value;
    Identity.DoorKeyContent(c, d, host);
    var tail := Identity.Tail(ledger, cap);
    Identity.NamedHostRoundTrip(c, d, host, localId, recId);
    assert ledger[i] in tail by {
      if |ledger| > cap { assert tail[i - (|ledger| - cap)] == ledger[i]; }
    }
    Identity.ClaimsOfMembers(c, tail, host);
    RewarmIsComplete(true, cap, grace, redis, Identity.ClaimsOf(c, tail, host), at, key, now, r);
  }

  // ---- the protocol's steps are the gate's calls ----

  /** The gate as the protocol's state holds it. */
  function GateOf(site: Site, s: State): View {
    View(true, site.cap, site.grace, s.bus.keys, s.mem.lru, s.mem.degraded, s.mem.restored, Some(s.mem.trustUntil))
  }

  /** The steps of one check, taken one after the other. */
  function Checked(site: Site, s: State, r: Reply): State
    requires s.cons.Busy? && s.cons.pc.AskTrust?
  {
    var s1 := ConsDo(site, s, Work(TrustCheck));
    if s1.cons.pc.Tell? then s1
    else
      var s2 := ConsDo(site, s1, Work(FlagCheck));
      if s2.cons.pc.AskLru? then ConsDo(site, s2, Work(LruGet))
      else
        var s3 := ConsDo(site, s2, Work(RedisGet(r)));
        if s3.cons.pc.AskLru? then ConsDo(site, s3, Work(LruGet)) else s3
  }

  /** The protocol leaves the degraded flag to the environment, which may move it at any
      moment; the gate's own call ends with it as given. */
  function Flagged(site: Site, s: State, degraded: bool): State { EnvDo(site, s, Flip(degraded)) }

  lemma FlaggedView(site: Site, s: State, t: State, v: View)
    requires v == GateOf(site, s).(keys := v.keys, lru := v.lru, degraded := v.degraded)
    requires t.bus.keys == v.keys && t.mem == s.mem.(lru := v.lru)
    ensures GateOf(site, Flagged(site, t, v.degraded)) == v
  {
  }

  /** A check of the protocol, uninterrupted, is the gate's `State`: it skips the entry
      exactly when the gate answers `appended`, and with the flag as the gate sets it
      leaves all the gate sees as the gate does. */
  lemma CheckIsState(site: Site, s: State, r: Reply)
    requires s.cons.Busy? && s.cons.pc.AskTrust?
    ensures var (v, a) := StateOf(GateOf(site, s), KeyAt(s, s.cons.pc.id), s.now, r);
      var t := Checked(site, s, r);
      && t.cons.Busy? && t.cons.pc == (if a.InLedger? then Tell(s.cons.pc.id, Skipped) else Ingest.Write(s.cons.pc.id, 0))
      && GateOf(site, Flagged(site, t, v.degraded)) == v
  {
    var (v, a) := StateOf(GateOf(site, s), KeyAt(s, s.cons.pc.id), s.now, r);
    CheckSteps(site, s, r);
    FlaggedView(site, s, Checked(site, s, r), v);
  }

  lemma CheckSteps(site: Site, s: State, r: Reply)
    requires s.cons.Busy? && s.cons.pc.AskTrust?
    ensures var (v, a) := StateOf(GateOf(site, s), KeyAt(s, s.cons.pc.id), s.now, r);
      var t := Checked(site, s, r);
      && t.cons.Busy? && t.cons.pc == (if a.InLedger? then Tell(s.cons.pc.id, Skipped) else Ingest.Write(s.cons.pc.id, 0))
      && t.bus.keys == v.keys && t.mem == s.mem.(lru := v.lru)
  {
  }

  /** Another offer of the key that comes to its own SET NX. */
  predicate Rivals(s: State, o: nat, k: string) { o in s.offers && s.offers[o].pc.CSet? && s.offers[o].key == k }

  function Rivalled(site: Site, s: State, rival: Option<nat>, k: string): State
    requires rival.Some? ==> Rivals(s, rival.value, k)
  {
    if rival.Some? then DoorDo(site, s, rival.value, Go(ClaimSet(Done))) else s
  }

  /** The second half of a mark in Redis, behind a rival claim if there is one. */
  function CreatedInRedis(site: Site, s: State, rival: Option<nat>, r2: Reply, r3: Reply): State
    requires s.cons.Busy? && s.cons.pc.MarkNX? && (rival.Some? ==> Rivals(s, rival.value, KeyAt(s, s.cons.pc.id)))
  {
    var s2 := ConsDo(site, Rivalled(site, s, rival, KeyAt(s, s.cons.pc.id)), Work(SetN(r2)));
    if s2.cons.pc.Tell? then s2 else ConsDo(site, s2, Work(Force(r3)))
  }

  lemma CreateHalf(site: Site, s: State, rival: Option<nat>, r2: Reply, r3: Reply)
    requires s.cons.Busy? && s.cons.pc.MarkNX? && (rival.Some? ==> Rivals(s, rival.value, KeyAt(s, s.cons.pc.id)))
    ensures var k := KeyAt(s, s.cons.pc.id); var t := CreatedInRedis(site, s, rival, r2, r3);
      && t.cons.Busy? && t.cons.pc == Tell(s.cons.pc.id, Recs(RecsAt(s, s.cons.pc.id))) && t.mem == s.mem
      && t.bus.keys == CreatedKeys(s.bus.keys, k, rival.Some?, r2, r3)
  {
    var k, id := KeyAt(s, s.cons.pc.id), s.cons.pc.id;
    var s1 := Rivalled(site, s, rival, k);
    assert s1.cons == s.cons && s1.mem == s.mem && s1.bus.keys == Rival(s.bus.keys, k, rival.Some?);
    assert KeyAt(s1, id) == k && RecsAt(s1, id) == RecsAt(s, id);
  }

  /** The Redis half of a mark, taken step after step, with a rival claim between the first
      two writes. */
  function MarkedInRedis(site: Site, s: State, rival: Option<nat>, r1: Reply, r2: Reply, r3: Reply): State
    requires s.cons.Busy? && s.cons.pc.MarkXX? && (rival.Some? ==> Rivals(s, rival.value, KeyAt(s, s.cons.pc.id)))
  {
    var s1 := ConsDo(site, s, Work(SetX(r1)));
    if s1.cons.pc.Tell? then s1 else CreatedInRedis(site, s1, rival, r2, r3)
  }

  lemma RedisHalf(site: Site, s: State, rival: Option<nat>, r1: Reply, r2: Reply, r3: Reply)
    requires s.cons.Busy? && s.cons.pc.MarkXX? && (rival.Some? ==> Rivals(s, rival.value, KeyAt(s, s.cons.pc.id)))
    ensures var k := KeyAt(s, s.cons.pc.id); var t := MarkedInRedis(site, s, rival, r1, r2, r3);
      && t.cons.Busy? && t.cons.pc == Tell(s.cons.pc.id, Recs(RecsAt(s, s.cons.pc.id))) && t.mem == s.mem
      && t.bus.keys == MarkedKeys(s.bus.keys, k, rival.Some?, r1, r2, r3)
  {
    var s1 := ConsDo(site, s, Work(SetX(r1)));
    if s1.cons.pc.MarkNX? { CreateHalf(site, s1, rival, r2, r3); }
  }

  function CreatedKeys(keys: Keys, k: string, rival: bool, r2: Reply, r3: Reply): Keys {
    var k0 := Rival(keys, k, rival);
    var k2 := SetNX(k0, k, Appended, r2);
    if !r2.Ok() || k !in k0 then k2 else SetXX(k2, k, Appended, r3)
  }

  function MarkedKeys(keys: Keys, k: string, rival: bool, r1: Reply, r2: Reply, r3: Reply): Keys {
    var k1 := SetXX(keys, k, Appended, r1);
    if !r1.Ok() || k in keys then k1 else CreatedKeys(k1, k, rival, r2, r3)
  }

  /** The steps of one mark, taken one after the other. */
  function MarkedBy(site: Site, s: State, rival: Option<nat>, r1: Reply, r2: Reply, r3: Reply): State
    requires s.cons.Busy? && s.cons.pc.MarkMem? && (rival.Some? ==> Rivals(s, rival.value, KeyAt(s, s.cons.pc.id)))
  {
    var t := ConsDo(site, ConsDo(site, s, Work(PutMark)), Work(CheckFlag));
    if t.cons.pc.MarkXX? then MarkedInRedis(site, t, rival, r1, r2, r3) else t
  }

  /** A mark of the protocol, with or without a rival claim in between, is the gate's
      `MarkAppended`. */
  lemma MarkIsMarkAppended(site: Site, s: State, rival: Option<nat>, r1: Reply, r2: Reply, r3: Reply)
    requires s.cons.Busy? && s.cons.pc.MarkMem? && (rival.Some? ==> Rivals(s, rival.value, KeyAt(s, s.cons.pc.id)))
    ensures var v := MarkOf(GateOf(site, s), KeyAt(s, s.cons.pc.id), rival.Some?, r1, r2, r3);
      var t := MarkedBy(site, s, rival, r1, r2, r3);
      && t.cons.Busy? && t.cons.pc == Tell(s.cons.pc.id, Recs(RecsAt(s, s.cons.pc.id)))
      && GateOf(site, Flagged(site, t, v.degraded)) == v
  {
    var v := MarkOf(GateOf(site, s), KeyAt(s, s.cons.pc.id), rival.Some?, r1, r2, r3);
    MarkSteps(site, s, rival, r1, r2, r3);
    FlaggedView(site, s, MarkedBy(site, s, rival, r1, r2, r3), v);
  }

  lemma MarkSteps(site: Site, s: State, rival: Option<nat>, r1: Reply, r2: Reply, r3: Reply)
    requires s.cons.Busy? && s.cons.pc.MarkMem? && (rival.Some? ==> Rivals(s, rival.value, KeyAt(s, s.cons.pc.id)))
    ensures var k := KeyAt(s, s.cons.pc.id); var t := MarkedBy(site, s, rival, r1, r2, r3);
      && t.cons.Busy? && t.cons.pc == Tell(s.cons.pc.id, Recs(RecsAt(s, s.cons.pc.id)))
      && t.mem == s.mem.(lru := Stored(s.mem.lru, site.cap, k, Appended))
      && t.bus.keys == if s.mem.degraded then s.bus.keys else MarkedKeys(s.bus.keys, k, rival.Some?, r1, r2, r3)
  {
    var t := ConsDo(site, ConsDo(site, s, Work(PutMark)), Work(CheckFlag));
    assert t.bus == s.bus && t.mem == s.mem.(lru := Stored(s.mem.lru, site.cap, KeyAt(s, s.cons.pc.id), Appended));
    if t.cons.pc.MarkXX? { RedisHalf(site, t, rival, r1, r2, r3); }
  }

  /** The steps of one claim by an offer of this wiring. */
  function ClaimedBy(site: Site, s: State, o: nat, r: Reply): State
    requires o in s.offers && s.offers[o].pc.CTrust?
  {
    var s1 := DoorDo(site, s, o, Go(ClaimTrust(false)));
    if s1.offers[o].pc.Replayed? then s1
    else DoorDo(site, DoorDo(site, s1, o, Go(ClaimSet(r))), o, Go(ClaimPut(false)))
  }

  /** An offer's claim, uninterrupted, is the gate's: it goes on exactly when the gate calls
      the claim new. */
  lemma ClaimIsClaim(site: Site, s: State, o: nat, r: Reply)
    requires o in s.offers && s.offers[o].pc.CTrust? && s.offers[o].gen == s.gen
    ensures var (v, isNew) := ClaimOf(GateOf(site, s), s.offers[o].key, s.now, r);
      var t := ClaimedBy(site, s, o, r);
      && o in t.offers && t.offers[o].pc == (if isNew then Claimed else Replayed)
      && (!Trusted(GateOf(site, s), s.offers[o].key, s.now) ==> GateOf(site, Flagged(site, t, v.degraded)) == v)
      && (Trusted(GateOf(site, s), s.offers[o].key, s.now) ==> GateOf(site, t) == v)
  {
  }

  /** The steps of one release. */
  function ReleasedBy(site: Site, s: State, o: nat, r: Reply): State
    requires o in s.offers && s.offers[o].pc.RelMem?
  {
    var s1 := DoorDo(site, DoorDo(site, s, o, Go(ReleaseMem)), o, Go(ReleaseFlag(false)));
    if s1.offers[o].pc.RelDel? then DoorDo(site, s1, o, Go(ReleaseDel(r))) else s1
  }

  lemma ReleaseIsRelease(site: Site, s: State, o: nat, r: Reply)
    requires o in s.offers && s.offers[o].pc.RelMem? && s.offers[o].gen == s.gen
    ensures var v := ReleaseOf(GateOf(site, s), s.offers[o].key, r);
      var t := ReleasedBy(site, s, o, r);
      o in t.offers && t.offers[o].pc == Returned(false) && GateOf(site, Flagged(site, t, v.degraded)) == v
  {
  }

  /** Two views that answer alike from an instant on: they differ at most in how they say
      that nothing is trusted. */
  ghost predicate SameFrom(v: View, w: View, now: int) {
    && v.(trustUntil := None) == w.(trustUntil := None)
    && forall k: string, later: int :: now <= later ==> (Trusted(v, k, later) <==> Trusted(w, k, later))
  }

  /** A rewire of the protocol attaches a fresh gate and restores it from the ledger; one
      with nothing to restore is left fresh. */
  lemma RewireIsRestore(site: Site, s: State, upto: nat)
    requires s.cons.Idle?
    ensures var keys := RewarmKeys(site, s.ledger, upto);
      var t := EnvDo(site, s, Rewire(upto));
      SameFrom(GateOf(site, t),
               if keys == [] then DedupGate.Fresh(true, site.cap, site.grace, s.bus.keys)
               else RestoreOf(DedupGate.Fresh(true, site.cap, site.grace, s.bus.keys), keys, s.now), s.now)
  {
  }
}
