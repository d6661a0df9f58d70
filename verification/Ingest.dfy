/** The light-hub ingestion protocol as a step system: offers at the door, the Redis
    stream and its consumer group, the dedup gate and the ledger (internal/hub/door.go,
    consume.go, dedup.go, runtime.go).

    One step is one Redis command, one lock region or one ledger append, so a run is
    any interleaving of any number of offers with the one consumer of the state root
    and with the environment: Redis losing keys or the queue, commands that fail before
    or after taking effect, the degraded flag moving at any moment, time passing, other
    writers, a rewire, a crash. */
module Ingest {
  import opened Basics
  import opened LruPhases
  import opened DedupGate
  import opened DoorHandoff
  import Identity

  type Draft = Identity.Draft

  /** What is fixed for a daemon: the outside functions, its host id, the gate's
      capacity and its trust window. */
  datatype Site = Site(codec: Identity.Codec, host: string, cap: nat, grace: nat)

  ghost predicate Good(site: Site) { Identity.Sound(site.codec) && site.host != "" && site.cap >= 1 }

  /** A ledger record is kept as its content; the minted id and the sequence number
      play no part in the claim. */
  function ClaimOn(site: Site, d: Draft): Option<string> {
    Identity.IdemKeyForRecord(site.codec, Identity.LedgerRecord(d, ""), site.host)
  }

  /** A stream entry as the consumer decodes it, with the key it derives for it. */
  datatype Raw = Garbage | Entry(key: string, recs: seq<Draft>)

  datatype Ans = Recs(recs: seq<Draft>) | Skipped | Refused

  /** `next` is the group's cursor; a stream id is an index. */
  datatype Bus = Bus(stream: seq<Raw>, next: nat, pending: set<nat>, acked: set<nat>, dead: set<nat>, keys: Keys)

  datatype Mem = Mem(lru: seq<Cell>, degraded: bool, restored: set<string>, trustUntil: int)

  datatype Pc =
    | Take | Bury(id: nat)
    | AskTrust(id: nat) | AskFlag(id: nat) | AskRedis(id: nat) | AskLru(id: nat)
    | Write(id: nat, n: nat)
    | MarkMem(id: nat) | MarkFlag(id: nat) | MarkXX(id: nat) | MarkNX(id: nat) | MarkForce(id: nat)
    | Tell(id: nat, ans: Ans) | Send(id: nat, ans: Ans, to: nat)

  datatype Cons = Idle | Busy(todo: seq<nat>, done: seq<nat>, pc: Pc) | Acking(ids: seq<nat>)

  datatype OfferPc =
    | CTrust | CSet | CPut(remote: Option<bool>) | Claimed
    | Added(id: nat) | Waiting(id: nat) | Leaving(id: nat, ok: bool)
    | RelMem | RelFlag | RelDel
    | Replayed | Returned(ok: bool)

  /** `gen` counts the wirings: an offer of an earlier one holds the old gate and door. */
  datatype Offer = Offer(gen: nat, key: string, draft: Draft, pc: OfferPc, chan: Option<Ans>)

  type Place = (nat, nat)

  /** `full` and `completed` are history: an entry whose records were all appended by
      one delivery, per key, and the completions made, per wiring and entry. */
  datatype State = State(ledger: seq<Draft>, bus: Bus, mem: Mem, now: int, gen: nat, cons: Cons,
                         offers: map<nat, Offer>, desk: Desk<Place, nat, Ans>,
                         full: map<string, nat>, completed: set<Place>)

  const EMPTY_MEM := Mem([], false, {}, 0)

  function Boot(): State {
    State([], Bus([], 0, {}, {}, {}, map[]), EMPTY_MEM, 0, 0, Idle, map[], Desk(map[], map[]), map[], {})
  }

  // ---- the environment ----

  datatype EnvStep =
    | Tick(to: int)
    | Flip(degraded: bool)
    | LoseKeys(gone: set<string>)
    | LoseQueue
    | Foreign(raw: Raw)
    | OtherWrite(d: Draft)
    | Rewire(upto: nat)
    | Crash(upto: nat)

  function AsRecords(ledger: seq<Draft>): seq<Identity.Record> {
    seq(|ledger|, i requires 0 <= i < |ledger| => Identity.LedgerRecord(ledger[i], ""))
  }

  /** The keys a rewarm hands to the new gate: the claims of the ledger's tail, or the
      first of them when the walk breaks off. */
  function RewarmKeys(site: Site, ledger: seq<Draft>, upto: nat): seq<string> {
    var all := Identity.ClaimsOf(site.codec, Identity.Tail(AsRecords(ledger), site.cap), site.host);
    if upto < |all| then all[..upto] else all
  }

  function Rewarmed(site: Site, s: State, upto: nat): Mem {
    var keys := RewarmKeys(site, s.ledger, upto);
    if keys == [] then EMPTY_MEM
    else Mem(StoredAll([], site.cap, keys), false, NonEmpty(keys), s.now + site.grace)
  }

  predicate EnvEnabled(s: State, e: EnvStep) {
    match e
    case Tick(to) => s.now <= to
    case Rewire(_) => s.cons.Idle?
    case _ => true
  }

  function EnvDo(site: Site, s: State, e: EnvStep): State {
    match e
    case Tick(to) => s.(now := to)
    case Flip(b) => s.(mem := s.mem.(degraded := b))
    case LoseKeys(gone) => s.(bus := s.bus.(keys := s.bus.keys - gone))
    case LoseQueue => s.(bus := s.bus.(pending := {}, next := |s.bus.stream|))
    case Foreign(raw) => s.(bus := s.bus.(stream := s.bus.stream + [raw]))
    case OtherWrite(d) => s.(ledger := s.ledger + [d])
    case Rewire(upto) => s.(gen := s.gen + 1, mem := Rewarmed(site, s, upto))
    case Crash(upto) =>
      s.(gen := s.gen + 1, mem := Rewarmed(site, s, upto), cons := Idle, offers := map[],
         desk := Desk(map[], map[]))
  }

  // ---- the consumer ----

  datatype ConsStep =
    | Deliver(n: nat, seen: bool)
    | Reclaim(ids: seq<nat>)
    | Work(w: WorkStep)
    | Ack(r: Reply)

  /** What the consumer does inside a batch. */
  datatype WorkStep =
    | Next
    | DeadLetter(r: Reply)
    | TrustCheck | FlagCheck | RedisGet(r: Reply) | LruGet
    | Append(r: Reply) | Wrote
    | PutMark | CheckFlag | SetX(r: Reply) | SetN(r: Reply) | Force(r: Reply)
    | Complete | Deposit

  function RawAt(s: State, id: nat): Raw {
    if id < |s.bus.stream| then s.bus.stream[id] else Garbage
  }

  function KeyAt(s: State, id: nat): string {
    if RawAt(s, id).Entry? then RawAt(s, id).key else ""
  }

  function RecsAt(s: State, id: nat): seq<Draft> {
    if RawAt(s, id).Entry? then RawAt(s, id).recs else []
  }

  predicate TrustedNow(s: State, k: string) { s.now < s.mem.trustUntil && k in s.mem.restored }

  predicate ConsEnabled(s: State, c: ConsStep) {
    match c
    case Deliver(n, _) => s.cons.Idle? && s.bus.next + n <= |s.bus.stream|
    case Reclaim(ids) => s.cons.Idle? && forall id :: id in ids ==> id in s.bus.pending
    case Ack(_) => s.cons.Acking?
    case Work(w) => s.cons.Busy? && WorkEnabled(s, s.cons.pc, w)
  }

  predicate WorkEnabled(s: State, pc: Pc, w: WorkStep) {
    match w
    case Next => pc.Take?
    case DeadLetter(_) => pc.Bury?
    case TrustCheck => pc.AskTrust?
    case FlagCheck => pc.AskFlag?
    case RedisGet(_) => pc.AskRedis?
    case LruGet => pc.AskLru?
    case Append(_) => pc.Write? && pc.n < |RecsAt(s, pc.id)|
    case Wrote => pc.Write? && pc.n == |RecsAt(s, pc.id)|
    case PutMark => pc.MarkMem?
    case CheckFlag => pc.MarkFlag?
    case SetX(_) => pc.MarkXX?
    case SetN(_) => pc.MarkNX?
    case Force(_) => pc.MarkForce?
    case Complete => pc.Tell?
    case Deposit => pc.Send?
  }

  function Ids(from: nat, n: nat): seq<nat> { seq(n, i requires 0 <= i < n => from + i) }

  function SettleUp(done: seq<nat>): Cons { if done == [] then Idle else Acking(done) }

  /** The consumer decides what to do with an entry by the phase it saw. */
  function Decide(id: nat, a: Answer): Pc {
    if a.InLedger? then Tell(id, Skipped) else Write(id, 0)
  }

  function ConsDo(site: Site, s: State, c: ConsStep): State
    requires ConsEnabled(s, c)
  {
    match c
    case Deliver(n, seen) =>
      var ids := Ids(s.bus.next, n);
      s.(bus := s.bus.(pending := s.bus.pending + (set i | i in ids), next := s.bus.next + n),
         cons := if seen && n > 0 then Busy(ids, [], Take) else Idle)
    case Reclaim(ids) => s.(cons := if ids == [] then Idle else Busy(ids, [], Take))
    case Ack(r) =>
      var ids := set i | i in s.cons.ids;
      s.(cons := Idle,
         bus := if r.Landed() then s.bus.(acked := s.bus.acked + ids, pending := s.bus.pending - ids) else s.bus)
    case Work(w) => WorkDo(site, s, s.cons.todo, s.cons.done, s.cons.pc, w)
  }

  function At(s: State, todo: seq<nat>, done: seq<nat>, pc: Pc): State { s.(cons := Busy(todo, done, pc)) }

  function WorkDo(site: Site, s: State, todo: seq<nat>, done: seq<nat>, pc: Pc, w: WorkStep): State
    requires WorkEnabled(s, pc, w) && s.cons == Busy(todo, done, pc)
  {
    match w
    case Next =>
      if todo == [] then s.(cons := SettleUp(done))
      else At(s, todo[1..], done, if RawAt(s, todo[0]).Garbage? then Bury(todo[0]) else AskTrust(todo[0]))
    case DeadLetter(r) =>
      var t := if r.Landed() then s.(bus := s.bus.(dead := s.bus.dead + {pc.id})) else s;
      if r.Ok() then At(t, todo, done, Tell(pc.id, Refused)) else t.(cons := SettleUp(done))
    case TrustCheck =>
      At(s, todo, done, if TrustedNow(s, KeyAt(s, pc.id)) then Tell(pc.id, Skipped) else AskFlag(pc.id))
    case FlagCheck =>
      At(s, todo, done, if s.mem.degraded then AskLru(pc.id) else AskRedis(pc.id))
    case RedisGet(r) =>
      var k := KeyAt(s, pc.id);
      At(s, todo, done,
         if !r.Ok() then AskLru(pc.id)
         else Decide(pc.id, if k in s.bus.keys then Read(s.bus.keys[k]) else Absent))
    case LruGet =>
      var k := KeyAt(s, pc.id);
      At(s.(mem := s.mem.(lru := Touched(s.mem.lru, k))), todo, done,
         Decide(pc.id, if Has(s.mem.lru, k) then Read(PhaseOf(s.mem.lru, k)) else Absent))
    case Append(r) =>
      var t := if r.Landed() then s.(ledger := s.ledger + [RecsAt(s, pc.id)[pc.n]]) else s;
      if r.Ok() then At(t, todo, done, Write(pc.id, pc.n + 1)) else t.(cons := SettleUp(done))
    case Wrote =>
      At(s.(full := s.full[KeyAt(s, pc.id) := pc.id]), todo, done, MarkMem(pc.id))
    case PutMark =>
      At(s.(mem := s.mem.(lru := Stored(s.mem.lru, site.cap, KeyAt(s, pc.id), Appended))), todo, done, MarkFlag(pc.id))
    case CheckFlag =>
      At(s, todo, done, if s.mem.degraded then Tell(pc.id, Recs(RecsAt(s, pc.id))) else MarkXX(pc.id))
    case SetX(r) =>
      var k := KeyAt(s, pc.id);
      At(s.(bus := s.bus.(keys := SetXX(s.bus.keys, k, Appended, r))), todo, done,
         if !r.Ok() || k in s.bus.keys then Tell(pc.id, Recs(RecsAt(s, pc.id))) else MarkNX(pc.id))
    case SetN(r) =>
      var k := KeyAt(s, pc.id);
      At(s.(bus := s.bus.(keys := SetNX(s.bus.keys, k, Appended, r))), todo, done,
         if !r.Ok() || k !in s.bus.keys then Tell(pc.id, Recs(RecsAt(s, pc.id))) else MarkForce(pc.id))
    case Force(r) =>
      At(s.(bus := s.bus.(keys := SetXX(s.bus.keys, KeyAt(s, pc.id), Appended, r))), todo, done,
         Tell(pc.id, Recs(RecsAt(s, pc.id))))
    case Complete =>
      var place := (s.gen, pc.id);
      var (desk, to) := Completed(s.desk, place, pc.ans);
      var t := s.(desk := desk, completed := s.completed + {place});
      if to.Some? then At(t, todo, done, Send(pc.id, pc.ans, to.value)) else At(t, todo, done + [pc.id], Take)
    case Deposit =>
      var t := if pc.to in s.offers && s.offers[pc.to].chan.None?
               then s.(offers := s.offers[pc.to := s.offers[pc.to].(chan := Some(pc.ans))]) else s;
      At(t, todo, done + [pc.id], Take)
  }

  // ---- the door ----

  datatype DoorStep =
    | Begin(draft: Draft, localId: string)
    | Go(g: OfferStep)

  /** What an offer does after it has derived its key. */
  datatype OfferStep =
    | ClaimTrust(stale: bool) | ClaimSet(r: Reply) | ClaimPut(stale: bool)
    | Add(r: Reply) | Register
    | Receive | GiveUp | Cleanup
    | ReleaseMem | ReleaseFlag(stale: bool) | ReleaseDel(r: Reply)

  predicate DoorEnabled(site: Site, s: State, o: nat, e: DoorStep) {
    match e
    case Begin(d, _) => o !in s.offers && Identity.DoorKey(site.codec, d, site.host).Some?
    case Go(g) => o in s.offers && OfferEnabled(s.offers[o], g)
  }

  predicate OfferEnabled(f: Offer, g: OfferStep) {
    match g
    case ClaimTrust(_) => f.pc.CTrust?
    case ClaimSet(_) => f.pc.CSet?
    case ClaimPut(_) => f.pc.CPut?
    case Add(_) => f.pc.Claimed?
    case Register => f.pc.Added?
    case Receive => f.pc.Waiting? && f.chan.Some?
    case GiveUp => f.pc.Waiting?
    case Cleanup => f.pc.Leaving?
    case ReleaseMem => f.pc.RelMem?
    case ReleaseFlag(_) => f.pc.RelFlag?
    case ReleaseDel(_) => f.pc.RelDel?
  }

  /** What the consumer will append for a draft offered here. */
  function Minted(site: Site, d: Draft, key: string, localId: string): Draft {
    Identity.DraftFromRecord(Identity.Transported(site.codec, Identity.LocalRecord(d, site.host, key, localId)))
  }

  function Move(s: State, o: nat, pc: OfferPc): State
    requires o in s.offers
  { s.(offers := s.offers[o := s.offers[o].(pc := pc)]) }

  function DoorDo(site: Site, s: State, o: nat, e: DoorStep): State
    requires DoorEnabled(site, s, o, e)
  {
    match e
    case Begin(d, localId) =>
      var key := Identity.DoorKey(site.codec, d, site.host).value;
      s.(offers := s.offers[o := Offer(s.gen, key, Minted(site, d, key, localId), CTrust, None)])
    case Go(g) => OfferDo(site, s, o, s.offers[o], g)
  }

  function OfferDo(site: Site, s: State, o: nat, f: Offer, g: OfferStep): State
    requires o in s.offers && s.offers[o] == f && OfferEnabled(f, g)
  {
    var mine := f.gen == s.gen;
    match g
    case ClaimTrust(stale) =>
      Move(s, o, if (if mine then TrustedNow(s, f.key) else stale) then Replayed else CSet)
    case ClaimSet(r) =>
      Move(s.(bus := s.bus.(keys := SetNX(s.bus.keys, f.key, Enqueued, r))), o,
           CPut(if r.Ok() then Some(f.key !in s.bus.keys) else None))
    case ClaimPut(stale) =>
      var isNew := if f.pc.remote.Some? then f.pc.remote.value
                   else if mine then !Has(s.mem.lru, f.key) else stale;
      var t := if mine then s.(mem := s.mem.(lru := Stored(s.mem.lru, site.cap, f.key, Enqueued))) else s;
      Move(t, o, if isNew then Claimed else Replayed)
    case Add(r) =>
      var t := if r.Landed() then s.(bus := s.bus.(stream := s.bus.stream + [Entry(f.key, [f.draft])])) else s;
      Move(t, o, if r.Ok() then Added(|s.bus.stream|) else RelMem)
    case Register =>
      var (desk, parked) := Registered(s.desk, (f.gen, f.pc.id), o);
      s.(desk := desk, offers := s.offers[o := f.(pc := Waiting(f.pc.id), chan := if parked.Some? then parked else f.chan)])
    case Receive => Move(s, o, Leaving(f.pc.id, !f.chan.value.Refused?))
    case GiveUp => Move(s, o, Leaving(f.pc.id, false))
    case Cleanup => Move(s.(desk := Cleaned(s.desk, (f.gen, f.pc.id))), o, Returned(f.pc.ok))
    case ReleaseMem =>
      Move(if mine then s.(mem := s.mem.(lru := Without(s.mem.lru, f.key))) else s, o, RelFlag)
    case ReleaseFlag(stale) =>
      Move(s, o, if (if mine then s.mem.degraded else stale) then Returned(false) else RelDel)
    case ReleaseDel(r) =>
      Move(s.(bus := s.bus.(keys := Del(s.bus.keys, f.key, r))), o, Returned(false))
  }

  // ---- runs ----

  datatype Step = Env(e: EnvStep) | Con(c: ConsStep) | Doo(o: nat, d: DoorStep)

  predicate Enabled(site: Site, s: State, x: Step) {
    match x
    case Env(e) => EnvEnabled(s, e)
    case Con(c) => ConsEnabled(s, c)
    case Doo(o, d) => DoorEnabled(site, s, o, d)
  }

  function Do(site: Site, s: State, x: Step): State
    requires Enabled(site, s, x)
  {
    match x
    case Env(e) => EnvDo(site, s, e)
    case Con(c) => ConsDo(site, s, c)
    case Doo(o, d) => DoorDo(site, s, o, d)
  }

  /** The steps of `run` can be taken one after another from `s`. */
  predicate Possible(site: Site, s: State, run: seq<Step>)
    decreases |run|
  {
    run == [] || (Enabled(site, s, run[0]) && Possible(site, Do(site, s, run[0]), run[1..]))
  }

  function After(site: Site, s: State, run: seq<Step>): State
    requires Possible(site, s, run)
    decreases |run|
  {
    if run == [] then s else After(site, Do(site, s, run[0]), run[1..])
  }
}
