/** What every interleaving of the ingestion protocol keeps: nothing is acked before it
    is durable, an `appended` mark never runs ahead of the ledger, an answer given to a
    sender is true, and no completion is lost between the consumer and the door. */
module IngestSafety {
  import opened Basics
  import opened LruPhases
  import opened DedupGate
  import opened DoorHandoff
  import opened Ingest
  import Identity

  ghost predicate HasClaim(site: Site, ledger: seq<Draft>, k: string) {
    exists d :: d in ledger && ClaimOn(site, d) == Some(k)
  }

  /** The ledger already holds the key: a record carries it as its claim, or an entry
      under this key was once appended whole. */
  ghost predicate Backed(site: Site, s: State, k: string) {
    HasClaim(site, s.ledger, k) || k in s.full
  }

  predicate AllIn(recs: seq<Draft>, ledger: seq<Draft>) { forall d :: d in recs ==> d in ledger }

  /** The entry may be acked: a dead-letter copy exists, or all its records are in the
      ledger, or its key already was. */
  ghost predicate Settled(site: Site, s: State, id: nat) {
    || id in s.bus.dead
    || (RawAt(s, id).Entry? && (AllIn(RecsAt(s, id), s.ledger) || Backed(site, s, KeyAt(s, id))))
  }

  /** An answer for entry `id` says only what is so. */
  ghost predicate Truthful(site: Site, s: State, id: nat, a: Ans) {
    match a
    case Refused => id in s.bus.dead
    case Skipped => RawAt(s, id).Entry? && Backed(site, s, KeyAt(s, id))
    case Recs(rs) => RawAt(s, id).Entry? && rs == RecsAt(s, id) && AllIn(rs, s.ledger)
  }

  // ---- the invariant, part by part ----

  ghost predicate FullOk(s: State) {
    forall k :: k in s.full ==>
      RawAt(s, s.full[k]).Entry? && KeyAt(s, s.full[k]) == k && AllIn(RecsAt(s, s.full[k]), s.ledger)
  }

  ghost predicate MemOk(site: Site, m: Mem) { Distinct(m.lru) && |m.lru| <= site.cap }

  ghost predicate MarksOk(site: Site, s: State) {
    && MemOk(site, s.mem)
    && (forall k :: k in s.bus.keys && s.bus.keys[k].Appended? ==> Backed(site, s, k))
    && (forall k :: Marked(s.mem.lru, k) ==> Backed(site, s, k))
    && (forall k :: k in s.mem.restored ==> Backed(site, s, k))
  }

  ghost predicate PcOk(site: Site, s: State, pc: Pc) {
    match pc
    case Take => true
    case Bury(id) => true
    case AskTrust(id) => RawAt(s, id).Entry?
    case AskFlag(id) => RawAt(s, id).Entry?
    case AskRedis(id) => RawAt(s, id).Entry?
    case AskLru(id) => RawAt(s, id).Entry?
    case Write(id, n) => RawAt(s, id).Entry? && n <= |RecsAt(s, id)| && AllIn(RecsAt(s, id)[..n], s.ledger)
    case MarkMem(id) => Whole(s, id)
    case MarkFlag(id) => Whole(s, id)
    case MarkXX(id) => Whole(s, id)
    case MarkNX(id) => Whole(s, id)
    case MarkForce(id) => Whole(s, id)
    case Tell(id, a) => Truthful(site, s, id, a)
    case Send(id, a, o) => Truthful(site, s, id, a)
  }

  /** Every id in use is the id of an entry that was added. */
  ghost predicate IdsOk(s: State) {
    && s.bus.next <= |s.bus.stream|
    && (forall id :: id in s.bus.pending ==> id < |s.bus.stream|)
    && (s.cons.Busy? ==>
         && (forall id :: id in s.cons.todo ==> id < |s.bus.stream|)
         && (s.cons.pc.Take? || s.cons.pc.id < |s.bus.stream|))
  }

  predicate Whole(s: State, id: nat) {
    RawAt(s, id).Entry? && AllIn(RecsAt(s, id), s.ledger) && KeyAt(s, id) in s.full
  }

  ghost predicate ConsOk(site: Site, s: State) {
    match s.cons
    case Idle => true
    case Busy(todo, done, pc) => (forall id :: id in done ==> Settled(site, s, id)) && PcOk(site, s, pc)
    case Acking(ids) => forall id :: id in ids ==> Settled(site, s, id)
  }

  ghost predicate AckedOk(site: Site, s: State) {
    forall id :: id in s.bus.acked ==> Settled(site, s, id)
  }

  predicate OnEntry(pc: OfferPc) { pc.Added? || pc.Waiting? || pc.Leaving? }

  ghost predicate OfferOk(site: Site, s: State, o: nat)
    requires o in s.offers
  {
    var f := s.offers[o];
    && f.gen <= s.gen
    && ClaimOn(site, f.draft) == Some(f.key)
    && (OnEntry(f.pc) ==> RawAt(s, f.pc.id) == Entry(f.key, [f.draft]))
    && (!f.pc.Waiting? && !f.pc.Leaving? && !f.pc.Returned? ==> f.chan == None)
    && (f.pc.Waiting? && f.chan.Some? ==> Truthful(site, s, f.pc.id, f.chan.value))
    && (f.pc.Leaving? && f.pc.ok ==> Backed(site, s, f.key))
    && (f.pc.Returned? && f.pc.ok ==> Backed(site, s, f.key))
  }

  ghost predicate OffersOk(site: Site, s: State) {
    forall o :: o in s.offers ==> OfferOk(site, s, o)
  }

  ghost predicate ParkedOk(site: Site, s: State) {
    forall p :: p in s.desk.parked ==> Truthful(site, s, p.1, s.desk.parked[p])
  }

  /** No two offers wait for one entry, and the desk's waiters are offers that wait. */
  ghost predicate DeskOk(s: State) {
    && (forall o, q :: o in s.offers && q in s.offers && o != q && OnEntry(s.offers[o].pc) && OnEntry(s.offers[q].pc)
         ==> s.offers[o].pc.id != s.offers[q].pc.id)
    && (forall p :: p in s.desk.waiters ==> WaitsAt(s, s.desk.waiters[p], p))
    && (s.cons.Busy? && s.cons.pc.Send? ==>
         s.cons.pc.to in s.offers && SendOk(s.offers[s.cons.pc.to], s.cons.pc.id))
    && (forall p :: p in s.completed ==> p.1 < |s.bus.stream|)
  }

  predicate WaitsAt(s: State, o: nat, p: Place) {
    o in s.offers && s.offers[o].gen == p.0
    && (s.offers[o].pc.Waiting? || s.offers[o].pc.Leaving?) && s.offers[o].pc.id == p.1
  }

  predicate SendOk(f: Offer, id: nat) {
    f.pc.Returned? || ((f.pc.Waiting? || f.pc.Leaving?) && f.pc.id == id)
  }

  /** A completed entry's offer has its answer: parked until the offer registers, then
      in its channel, or about to be put there. */
  ghost predicate HandoffOk(s: State) {
    forall o :: o in s.offers ==> Handed(s, o)
  }

  predicate Handed(s: State, o: nat)
    requires o in s.offers
  {
    var f := s.offers[o];
    && (f.pc.Added? && (f.gen, f.pc.id) in s.completed ==> (f.gen, f.pc.id) in s.desk.parked)
    && (f.pc.Waiting? && (f.gen, f.pc.id) in s.completed ==>
         f.chan.Some? || (s.cons.Busy? && s.cons.pc.Send? && s.cons.pc.to == o))
    && (f.pc.Waiting? && (f.gen, f.pc.id) !in s.completed ==>
         (f.gen, f.pc.id) in s.desk.waiters && s.desk.waiters[(f.gen, f.pc.id)] == o)
  }

  ghost predicate Inv(site: Site, s: State) {
    && IdsOk(s) && FullOk(s) && MarksOk(site, s) && ConsOk(site, s) && AckedOk(site, s)
    && OffersOk(site, s) && ParkedOk(site, s) && DeskOk(s) && HandoffOk(s)
  }

  // ---- what only grows ----

  ghost predicate Grew(s: State, t: State) {
    && (forall d :: d in s.ledger ==> d in t.ledger)
    && |s.bus.stream| <= |t.bus.stream|
    && (forall i :: 0 <= i < |s.bus.stream| ==> t.bus.stream[i] == s.bus.stream[i])
    && (forall k :: k in s.full ==> k in t.full)
    && s.bus.dead <= t.bus.dead
    && s.gen <= t.gen
  }

  lemma StepGrows(site: Site, s: State, x: Step)
    requires Enabled(site, s, x)
    ensures Grew(s, Do(site, s, x))
  {
    match x
    case Env(e) =>
    case Con(c) => if c.Work? { WorkGrows(site, s, c.w); }
    case Doo(o, d) => if d.Go? { OfferGrows(site, s, o, d.g); }
  }

  lemma WorkGrows(site: Site, s: State, w: WorkStep)
    requires ConsEnabled(s, Work(w))
    ensures Grew(s, ConsDo(site, s, Work(w)))
  {
  }

  lemma OfferGrows(site: Site, s: State, o: nat, g: OfferStep)
    requires DoorEnabled(site, s, o, Go(g))
    ensures Grew(s, DoorDo(site, s, o, Go(g)))
  {
  }

  /** Every statement about backing, settling and truth survives growth. */
  lemma GrewKeeps(site: Site, s: State, t: State)
    requires Grew(s, t)
    ensures forall k :: Backed(site, s, k) ==> Backed(site, t, k)
    ensures forall id: nat :: RawAt(s, id).Entry? ==> RawAt(t, id) == RawAt(s, id)
    ensures forall id: nat :: Settled(site, s, id) ==> Settled(site, t, id)
  {
  }

  lemma GrewTruth(site: Site, s: State, t: State, id: nat, a: Ans)
    requires Grew(s, t) && Truthful(site, s, id, a)
    ensures Truthful(site, t, id, a)
  {
  }

  // ---- each part is kept by each step ----

  lemma FullKept(site: Site, s: State, x: Step)
    requires Inv(site, s) && Enabled(site, s, x)
    ensures FullOk(Do(site, s, x))
  {
    var t := Do(site, s, x);
    StepGrows(site, s, x);
    GrewKeeps(site, s, t);
    if x.Con? && x.c.Work? && x.c.w.Wrote? {
      var id := s.cons.pc.id;
      assert RecsAt(s, id)[..|RecsAt(s, id)|] == RecsAt(s, id);
      assert t.full == s.full[KeyAt(s, id) := id];
    } else {
      FullUntouched(site, s, x);
    }
  }

  lemma FullUntouched(site: Site, s: State, x: Step)
    requires Enabled(site, s, x) && !(x.Con? && x.c.Work? && x.c.w.Wrote?)
    ensures Do(site, s, x).full == s.full
  {
    if x.Con? && x.c.Work? { WorkFull(site, s, x.c.w); }
  }

  lemma WorkFull(site: Site, s: State, w: WorkStep)
    requires ConsEnabled(s, Work(w)) && !w.Wrote?
    ensures ConsDo(site, s, Work(w)).full == s.full
  {
  }

  lemma RewarmedOk(site: Site, s: State, upto: nat)
    requires site.cap >= 1
    ensures MemOk(site, Rewarmed(site, s, upto))
    ensures forall k :: Marked(Rewarmed(site, s, upto).lru, k) ==> HasClaim(site, s.ledger, k)
    ensures forall k :: k in Rewarmed(site, s, upto).restored ==> HasClaim(site, s.ledger, k)
    ensures forall k :: Has(Rewarmed(site, s, upto).lru, k) ==> HasClaim(site, s.ledger, k)
  {
    var keys := RewarmKeys(site, s.ledger, upto);
    StoredAllMarksOnly([], site.cap, keys);
    forall k | k in keys ensures HasClaim(site, s.ledger, k) { RewarmKeyClaimed(site, s.ledger, upto, k); }
  }

  lemma RewarmKeyClaimed(site: Site, ledger: seq<Draft>, upto: nat, k: string)
    requires k in RewarmKeys(site, ledger, upto)
    ensures HasClaim(site, ledger, k)
  {
    var recs := AsRecords(ledger);
    var tail := Identity.Tail(recs, site.cap);
    Identity.ClaimsOfMembers(site.codec, tail, site.host);
    assert k in Identity.ClaimsOf(site.codec, tail, site.host);
    var r :| r in tail && Identity.IdemKeyForRecord(site.codec, r, site.host) == Some(k);
    assert r in recs;
    var i :| 0 <= i < |recs| && recs[i] == r;
    assert ClaimOn(site, ledger[i]) == Some(k);
  }

  lemma MarksKeptEnv(site: Site, s: State, e: EnvStep)
    requires site.cap >= 1 && Inv(site, s) && EnvEnabled(s, e)
    ensures MarksOk(site, EnvDo(site, s, e))
  {
    StepGrows(site, s, Env(e));
    GrewKeeps(site, s, EnvDo(site, s, e));
    if e.Rewire? || e.Crash? { RewarmedOk(site, s, e.upto); }
  }

  /** A step that marks nothing beyond what is backed afterwards. */
  lemma MarksLift(site: Site, s: State, t: State)
    requires MarksOk(site, s) && Grew(s, t) && MemOk(site, t.mem)
    requires forall k :: k in t.bus.keys && t.bus.keys[k].Appended? ==>
      (k in s.bus.keys && s.bus.keys[k].Appended?) || Backed(site, t, k)
    requires forall k :: Marked(t.mem.lru, k) ==> Marked(s.mem.lru, k) || Backed(site, t, k)
    requires t.mem.restored == s.mem.restored
    ensures MarksOk(site, t)
  {
    GrewKeeps(site, s, t);
  }

  lemma WorkMem(site: Site, s: State, w: WorkStep)
    requires site.cap >= 1 && MemOk(site, s.mem) && ConsEnabled(s, Work(w))
    ensures var t := ConsDo(site, s, Work(w));
      && MemOk(site, t.mem) && t.mem.restored == s.mem.restored
      && (forall k :: Marked(t.mem.lru, k) ==> Marked(s.mem.lru, k) || (w.PutMark? && k == KeyAt(s, s.cons.pc.id)))
  {
    if w.PutMark? {
      StoredFacts(s.mem.lru, site.cap, KeyAt(s, s.cons.pc.id), Appended);
      StoredMarks(s.mem.lru, site.cap, KeyAt(s, s.cons.pc.id), Appended);
    } else if w.LruGet? {
      TouchedFacts(s.mem.lru, KeyAt(s, s.cons.pc.id));
    }
  }

  lemma WorkKeys(site: Site, s: State, w: WorkStep)
    requires ConsEnabled(s, Work(w))
    ensures var t := ConsDo(site, s, Work(w));
      forall k :: k in t.bus.keys && t.bus.keys[k].Appended? ==>
        (k in s.bus.keys && s.bus.keys[k].Appended?)
        || ((w.SetX? || w.SetN? || w.Force?) && k == KeyAt(s, s.cons.pc.id))
  {
  }

  lemma MarksKeptCon(site: Site, s: State, c: ConsStep)
    requires site.cap >= 1 && Inv(site, s) && ConsEnabled(s, c)
    ensures MarksOk(site, ConsDo(site, s, c))
  {
    StepGrows(site, s, Con(c));
    if c.Work? {
      WorkMem(site, s, c.w);
      WorkKeys(site, s, c.w);
    }
    MarksLift(site, s, ConsDo(site, s, c));
  }

  lemma StoredMarks(lru: seq<Cell>, cap: nat, k: string, p: Phase)
    requires Distinct(lru) && |lru| <= cap && cap >= 1
    ensures forall x :: Marked(Stored(lru, cap, k, p), x) ==> Marked(lru, x) || (x == k && p.Appended?)
  {
    StoredFacts(lru, cap, k, p);
  }

  lemma OfferMarks(site: Site, s: State, o: nat, g: OfferStep)
    requires site.cap >= 1 && MemOk(site, s.mem) && DoorEnabled(site, s, o, Go(g))
    ensures var t := DoorDo(site, s, o, Go(g));
      && MemOk(site, t.mem) && t.mem.restored == s.mem.restored
      && (forall k :: Marked(t.mem.lru, k) ==> Marked(s.mem.lru, k))
      && (forall k :: k in t.bus.keys && t.bus.keys[k].Appended? ==> k in s.bus.keys && s.bus.keys[k].Appended?)
  {
    var k := s.offers[o].key;
    if g.ClaimPut? {
      StoredFacts(s.mem.lru, site.cap, k, Enqueued);
      StoredMarks(s.mem.lru, site.cap, k, Enqueued);
    } else if g.ReleaseMem? {
      WithoutMembers(s.mem.lru, k);
    }
  }

  lemma MarksKeptDoor(site: Site, s: State, o: nat, d: DoorStep)
    requires site.cap >= 1 && Inv(site, s) && DoorEnabled(site, s, o, d)
    ensures MarksOk(site, DoorDo(site, s, o, d))
  {
    StepGrows(site, s, Doo(o, d));
    if d.Go? { OfferMarks(site, s, o, d.g); }
    MarksLift(site, s, DoorDo(site, s, o, d));
  }

  lemma IdsKept(site: Site, s: State, x: Step)
    requires IdsOk(s) && Enabled(site, s, x)
    ensures IdsOk(Do(site, s, x))
  {
    StepGrows(site, s, x);
    if x.Con? { ConsIdsKept(site, s, x.c); }
  }

  lemma ConsIdsKept(site: Site, s: State, c: ConsStep)
    requires IdsOk(s) && ConsEnabled(s, c)
    ensures IdsOk(ConsDo(site, s, c))
  {
    match c
    case Deliver(n, seen) =>
      assert forall i :: i in Ids(s.bus.next, n) ==> i < s.bus.next + n;
    case Work(w) => WorkIdsKept(site, s, w);
    case _ =>
  }

  /** Inside a batch the consumer moves on to the entry at hand or to the next one. */
  lemma WorkIdsKept(site: Site, s: State, w: WorkStep)
    requires IdsOk(s) && ConsEnabled(s, Work(w))
    ensures IdsOk(ConsDo(site, s, Work(w)))
  {
    var t := ConsDo(site, s, Work(w));
    if w.Next? {
      if s.cons.todo != [] {
        assert s.cons.todo[0] in s.cons.todo;
        assert forall i :: i in s.cons.todo[1..] ==> i in s.cons.todo;
      }
    } else {
      StaysOnEntry(site, s, w);
    }
  }

  lemma StaysOnEntry(site: Site, s: State, w: WorkStep)
    requires ConsEnabled(s, Work(w)) && !w.Next?
    ensures var t := ConsDo(site, s, Work(w));
      && t.bus.stream == s.bus.stream && t.bus.next == s.bus.next && t.bus.pending == s.bus.pending
      && (t.cons.Busy? ==> t.cons.todo == s.cons.todo && (t.cons.pc.Take? || t.cons.pc.id == s.cons.pc.id))
  {
  }

  lemma ConsKept(site: Site, s: State, x: Step)
    requires Inv(site, s) && Enabled(site, s, x)
    ensures ConsOk(site, Do(site, s, x))
  {
    var t := Do(site, s, x);
    StepGrows(site, s, x);
    if x.Con? {
      if x.c.Work? { WorkKept(site, s, x.c.w); }
    } else {
      ConsLift(site, s, t);
    }
  }

  lemma ConsLift(site: Site, s: State, t: State)
    requires ConsOk(site, s) && Grew(s, t) && (t.cons == s.cons || t.cons.Idle?)
    ensures ConsOk(site, t)
  {
    GrewKeeps(site, s, t);
    if t.cons.Busy? { PcLift(site, s, t, s.cons.pc); }
  }

  lemma PcLift(site: Site, s: State, t: State, pc: Pc)
    requires PcOk(site, s, pc) && Grew(s, t)
    ensures PcOk(site, t, pc)
  {
    GrewKeeps(site, s, t);
    if pc.Tell? || pc.Send? { GrewTruth(site, s, t, pc.id, pc.ans); }
  }

  /** What the consumer may do next is justified by what the step just did. */
  lemma NextPc(site: Site, s: State, w: WorkStep)
    requires Inv(site, s) && ConsEnabled(s, Work(w))
    ensures var t := ConsDo(site, s, Work(w));
      t.cons.Busy? ==> PcOk(site, t, t.cons.pc)
  {
    var t := ConsDo(site, s, Work(w));
    StepGrows(site, s, Con(Work(w)));
    if w.Next? || w.DeadLetter? || w.TrustCheck? || w.FlagCheck? || w.RedisGet? || w.LruGet? {
      NextPcAsk(site, s, w);
    } else if w.Append? || w.Wrote? {
      NextPcWrite(site, s, w);
    } else if w.Complete? || w.Deposit? {
      GrewTruth(site, s, t, s.cons.pc.id, s.cons.pc.ans);
    } else {
      NextPcMark(site, s, w);
    }
  }

  lemma NextPcAsk(site: Site, s: State, w: WorkStep)
    requires MarksOk(site, s) && ConsOk(site, s) && ConsEnabled(s, Work(w))
    requires w.Next? || w.DeadLetter? || w.TrustCheck? || w.FlagCheck? || w.RedisGet? || w.LruGet?
    ensures var t := ConsDo(site, s, Work(w));
      t.cons.Busy? ==> PcOk(site, t, t.cons.pc)
  {
    if w.LruGet? {
      var k := KeyAt(s, s.cons.pc.id);
      assert Marked(s.mem.lru, k) ==> Backed(site, s, k);
    }
  }

  lemma NextPcWrite(site: Site, s: State, w: WorkStep)
    requires ConsOk(site, s) && ConsEnabled(s, Work(w)) && (w.Append? || w.Wrote?)
    ensures var t := ConsDo(site, s, Work(w));
      t.cons.Busy? ==> PcOk(site, t, t.cons.pc)
  {
    var recs := RecsAt(s, s.cons.pc.id);
    if w.Append? {
      assert recs[..s.cons.pc.n + 1] == recs[..s.cons.pc.n] + [recs[s.cons.pc.n]];
    } else {
      assert recs[..|recs|] == recs;
    }
  }

  lemma NextPcMark(site: Site, s: State, w: WorkStep)
    requires ConsOk(site, s) && ConsEnabled(s, Work(w))
    requires w.PutMark? || w.CheckFlag? || w.SetX? || w.SetN? || w.Force?
    ensures var t := ConsDo(site, s, Work(w));
      t.cons.Busy? ==> PcOk(site, t, t.cons.pc)
  {
  }

  lemma TruthSettles(site: Site, s: State, id: nat, a: Ans)
    requires Truthful(site, s, id, a)
    ensures Settled(site, s, id)
  {
  }

  lemma WorkKept(site: Site, s: State, w: WorkStep)
    requires Inv(site, s) && ConsEnabled(s, Work(w))
    ensures ConsOk(site, ConsDo(site, s, Work(w)))
  {
    var t := ConsDo(site, s, Work(w));
    NextPc(site, s, w);
    StepGrows(site, s, Con(Work(w)));
    GrewKeeps(site, s, t);
    if w.Complete? || w.Deposit? { TruthSettles(site, s, s.cons.pc.id, s.cons.pc.ans); }
  }

  lemma AckedKept(site: Site, s: State, x: Step)
    requires AckedOk(site, s) && ConsOk(site, s) && Enabled(site, s, x)
    ensures AckedOk(site, Do(site, s, x))
  {
    StepGrows(site, s, x);
    GrewKeeps(site, s, Do(site, s, x));
  }

  /** A step parks at most the answer the consumer was about to give. */
  lemma ParkedStep(site: Site, s: State, x: Step)
    requires Enabled(site, s, x)
    ensures forall p :: p in Do(site, s, x).desk.parked ==>
      || (p in s.desk.parked && Do(site, s, x).desk.parked[p] == s.desk.parked[p])
      || (s.cons.Busy? && s.cons.pc.Tell? && p.1 == s.cons.pc.id && Do(site, s, x).desk.parked[p] == s.cons.pc.ans)
  {
  }

  lemma ParkedKept(site: Site, s: State, x: Step)
    requires Inv(site, s) && Enabled(site, s, x)
    ensures ParkedOk(site, Do(site, s, x))
  {
    ParkedStep(site, s, x);
    StepGrows(site, s, x);
    ParkedLift(site, s, Do(site, s, x));
  }

  lemma ParkedLift(site: Site, s: State, t: State)
    requires ParkedOk(site, s) && ConsOk(site, s) && Grew(s, t)
    requires forall p :: p in t.desk.parked ==>
      || (p in s.desk.parked && t.desk.parked[p] == s.desk.parked[p])
      || (s.cons.Busy? && s.cons.pc.Tell? && p.1 == s.cons.pc.id && t.desk.parked[p] == s.cons.pc.ans)
    ensures ParkedOk(site, t)
  {
    forall p | p in t.desk.parked ensures Truthful(site, t, p.1, t.desk.parked[p]) {
      GrewTruth(site, s, t, p.1, t.desk.parked[p]);
    }
  }

  // ---- offers ----

  lemma MintedClaims(site: Site, d: Draft, localId: string)
    requires Good(site) && Identity.DoorKey(site.codec, d, site.host).Some?
    ensures var key := Identity.DoorKey(site.codec, d, site.host).value;
            ClaimOn(site, Minted(site, d, key, localId)) == Some(key)
  {
    Identity.NamedHostRoundTrip(site.codec, d, site.host, localId, "");
  }

  /** An offer nobody touched stays right while the system grows. */
  lemma OfferLift(site: Site, s: State, t: State, o: nat)
    requires o in s.offers && o in t.offers && t.offers[o] == s.offers[o]
    requires OfferOk(site, s, o) && Grew(s, t)
    ensures OfferOk(site, t, o)
  {
    GrewKeeps(site, s, t);
    var f := s.offers[o];
    if f.pc.Waiting? && f.chan.Some? { GrewTruth(site, s, t, f.pc.id, f.chan.value); }
  }

  predicate Early(pc: OfferPc) { !OnEntry(pc) && !pc.Returned? }

  lemma OfferMoved(site: Site, s: State, o: nat, g: OfferStep)
    requires OffersOk(site, s) && ParkedOk(site, s) && DoorEnabled(site, s, o, Go(g))
    ensures var t := DoorDo(site, s, o, Go(g)); o in t.offers && OfferOk(site, t, o)
  {
    var t := DoorDo(site, s, o, Go(g));
    StepGrows(site, s, Doo(o, Go(g)));
    assert OfferOk(site, s, o);
    if Early(s.offers[o].pc) {
      EarlyMove(site, s, o, g);
    } else if g.Register? {
      RegisterMove(site, s, o, t);
    } else {
      LateMove(site, s, o, g);
    }
  }

  /** Before the entry exists and on the refused path nothing is promised. */
  lemma EarlyMove(site: Site, s: State, o: nat, g: OfferStep)
    requires DoorEnabled(site, s, o, Go(g)) && OfferOk(site, s, o) && Early(s.offers[o].pc)
    ensures OfferOk(site, DoorDo(site, s, o, Go(g)), o)
  {
  }

  lemma RegisterMove(site: Site, s: State, o: nat, t: State)
    requires DoorEnabled(site, s, o, Go(Register)) && t == DoorDo(site, s, o, Go(Register))
    requires OfferOk(site, s, o) && ParkedOk(site, s) && Grew(s, t)
    ensures OfferOk(site, t, o)
  {
    var place := (s.offers[o].gen, s.offers[o].pc.id);
    if place in s.desk.parked { GrewTruth(site, s, t, place.1, s.desk.parked[place]); }
    GrewKeeps(site, s, t);
  }

  lemma LateMove(site: Site, s: State, o: nat, g: OfferStep)
    requires DoorEnabled(site, s, o, Go(g)) && OfferOk(site, s, o)
    requires g.Receive? || g.GiveUp? || g.Cleanup?
    ensures OfferOk(site, DoorDo(site, s, o, Go(g)), o)
  {
    var f := s.offers[o];
    var t := DoorDo(site, s, o, Go(g));
    StepGrows(site, s, Doo(o, Go(g)));
    GrewKeeps(site, s, t);
    if g.Receive? && !f.chan.value.Refused? { AnsweredIsBacked(site, s, f, f.pc.id); }
  }

  lemma AnsweredIsBacked(site: Site, s: State, f: Offer, id: nat)
    requires ClaimOn(site, f.draft) == Some(f.key) && RawAt(s, id) == Entry(f.key, [f.draft])
    requires f.chan.Some? && !f.chan.value.Refused? && Truthful(site, s, id, f.chan.value)
    ensures Backed(site, s, f.key)
  {
    if f.chan.value.Recs? {
      assert f.draft in RecsAt(s, id);
      assert f.draft in s.ledger;
    }
  }

  lemma OffersKeptDoor(site: Site, s: State, o: nat, d: DoorStep)
    requires Good(site) && OffersOk(site, s) && ParkedOk(site, s) && DoorEnabled(site, s, o, d)
    ensures OffersOk(site, DoorDo(site, s, o, d))
  {
    if d.Begin? { OfferBegun(site, s, o, d.draft, d.localId); } else { OfferMoved(site, s, o, d.g); }
    OthersKept(site, s, o, d);
  }

  lemma OthersKept(site: Site, s: State, o: nat, d: DoorStep)
    requires OffersOk(site, s) && DoorEnabled(site, s, o, d) && o in DoorDo(site, s, o, d).offers
    requires OfferOk(site, DoorDo(site, s, o, d), o)
    ensures OffersOk(site, DoorDo(site, s, o, d))
  {
    StepGrows(site, s, Doo(o, d));
    OthersUntouched(site, s, o, d);
    OthersLift(site, s, DoorDo(site, s, o, d), o);
  }

  lemma OfferBegun(site: Site, s: State, o: nat, d: Draft, localId: string)
    requires Good(site) && DoorEnabled(site, s, o, Begin(d, localId))
    ensures var t := DoorDo(site, s, o, Begin(d, localId)); o in t.offers && OfferOk(site, t, o)
  {
    MintedClaims(site, d, localId);
  }

  lemma OthersLift(site: Site, s: State, t: State, o: nat)
    requires OffersOk(site, s) && Grew(s, t) && o in t.offers && OfferOk(site, t, o)
    requires t.offers.Keys == s.offers.Keys + {o} && forall q :: q in s.offers && q != o ==> t.offers[q] == s.offers[q]
    ensures OffersOk(site, t)
  {
    forall q | q in t.offers && q != o ensures OfferOk(site, t, q) { OfferLift(site, s, t, q); }
  }

  lemma OthersUntouched(site: Site, s: State, o: nat, d: DoorStep)
    requires DoorEnabled(site, s, o, d)
    ensures var t := DoorDo(site, s, o, d);
      && t.offers.Keys == s.offers.Keys + {o}
      && (forall q :: q in s.offers && q != o ==> t.offers[q] == s.offers[q])
  {
    if d.Go? { OfferTouchesOne(site, s, o, d.g); }
  }

  lemma OfferTouchesOne(site: Site, s: State, o: nat, g: OfferStep)
    requires DoorEnabled(site, s, o, Go(g))
    ensures var t := DoorDo(site, s, o, Go(g));
      o in t.offers && t.offers == s.offers[o := t.offers[o]]
  {
  }

  lemma OffersKeptCon(site: Site, s: State, c: ConsStep)
    requires Inv(site, s) && ConsEnabled(s, c)
    ensures OffersOk(site, ConsDo(site, s, c))
  {
    var t := ConsDo(site, s, c);
    StepGrows(site, s, Con(c));
    ConsOffers(site, s, c);
    forall q | q in t.offers ensures OfferOk(site, t, q) {
      if t.offers[q] == s.offers[q] { OfferLift(site, s, t, q); } else { DepositTrue(site, s, t, q); }
    }
  }

  /** The consumer only ever fills the channel it is sending to. */
  lemma ConsOffers(site: Site, s: State, c: ConsStep)
    requires ConsEnabled(s, c)
    ensures var t := ConsDo(site, s, c);
      && (c != Work(Deposit) ==> t.offers == s.offers)
      && t.offers.Keys == s.offers.Keys
      && (forall q :: q in s.offers && t.offers[q] != s.offers[q] ==>
            && s.cons.Busy? && s.cons.pc.Send? && s.cons.pc.to == q
            && s.offers[q].chan.None? && t.offers[q] == s.offers[q].(chan := Some(s.cons.pc.ans)))
  {
    if c == Work(Deposit) {
    } else {
      assert ConsDo(site, s, c).offers == s.offers;
    }
  }

  lemma DepositTrue(site: Site, s: State, t: State, o: nat)
    requires o in s.offers && o in t.offers && OfferOk(site, s, o) && DeskOk(s) && ConsOk(site, s) && Grew(s, t)
    requires s.cons.Busy? && s.cons.pc.Send? && s.cons.pc.to == o
    requires t.offers[o] == s.offers[o].(chan := Some(s.cons.pc.ans))
    ensures OfferOk(site, t, o)
  {
    GrewKeeps(site, s, t);
    GrewTruth(site, s, t, s.cons.pc.id, s.cons.pc.ans);
    assert SendOk(s.offers[o], s.cons.pc.id);
  }

  lemma OffersKeptEnv(site: Site, s: State, e: EnvStep)
    requires Inv(site, s) && EnvEnabled(s, e)
    ensures OffersOk(site, EnvDo(site, s, e))
  {
    var t := EnvDo(site, s, e);
    StepGrows(site, s, Env(e));
    forall q | q in t.offers ensures OfferOk(site, t, q) { OfferLift(site, s, t, q); }
  }

  // ---- the desk and the hand-off ----

  lemma DeskKeptEnv(site: Site, s: State, e: EnvStep)
    requires DeskOk(s) && HandoffOk(s) && IdsOk(s) && EnvEnabled(s, e)
    ensures DeskOk(EnvDo(site, s, e)) && HandoffOk(EnvDo(site, s, e))
  {
    StepGrows(site, s, Env(e));
    var t := EnvDo(site, s, e);
    forall o | o in t.offers ensures Handed(t, o) { assert Handed(s, o); }
  }

  /** A consumer step and the desk: a completion takes its waiter out or parks, and
      only it starts a send. */
  lemma ConsDesk(site: Site, s: State, c: ConsStep)
    requires ConsEnabled(s, c)
    ensures c != Work(Complete) ==> DeskQuiet(s, ConsDo(site, s, c))
    ensures c == Work(Complete) ==> DeskCompleted(s, ConsDo(site, s, c))
  {
    if c.Work? && !c.w.Complete? { WorkDesk(site, s, c.w); }
  }

  lemma WorkDesk(site: Site, s: State, w: WorkStep)
    requires ConsEnabled(s, Work(w)) && !w.Complete?
    ensures DeskQuiet(s, ConsDo(site, s, Work(w)))
  {
  }

  predicate DeskQuiet(s: State, t: State) {
    t.gen == s.gen && t.desk == s.desk && t.completed == s.completed && (t.cons.Busy? ==> !t.cons.pc.Send?)
  }

  predicate DeskCompleted(s: State, t: State)
    requires s.cons.Busy? && s.cons.pc.Tell?
  {
    var place := (s.gen, s.cons.pc.id);
    && t.gen == s.gen
    && t.desk == Completed(s.desk, place, s.cons.pc.ans).0
    && t.completed == s.completed + {place}
    && t.cons.Busy?
    && (t.cons.pc.Send? <==> place in s.desk.waiters)
    && (t.cons.pc.Send? ==> t.cons.pc.to == s.desk.waiters[place] && t.cons.pc.id == place.1)
  }

  lemma DeskKeptCon(site: Site, s: State, c: ConsStep)
    requires DeskOk(s) && IdsOk(s) && ConsEnabled(s, c)
    ensures DeskOk(ConsDo(site, s, c))
  {
    ConsDesk(site, s, c);
    ConsInPlace(site, s, c);
    StepGrows(site, s, Con(c));
    DeskAfterCon(s, ConsDo(site, s, c));
  }

  lemma ConsInPlace(site: Site, s: State, c: ConsStep)
    requires ConsEnabled(s, c)
    ensures OffersInPlace(s, ConsDo(site, s, c))
  {
    ConsOffers(site, s, c);
  }

  /** The consumer moves no offer's place. */
  predicate OffersInPlace(s: State, t: State) {
    && t.offers.Keys == s.offers.Keys
    && (forall q :: q in s.offers ==> t.offers[q].pc == s.offers[q].pc && t.offers[q].gen == s.offers[q].gen)
  }

  lemma DeskAfterCon(s: State, t: State)
    requires DeskOk(s) && IdsOk(s) && Grew(s, t) && OffersInPlace(s, t)
    requires DeskQuiet(s, t) || (s.cons.Busy? && s.cons.pc.Tell? && DeskCompleted(s, t))
    ensures DeskOk(t)
  {
    DeskLift(s, t);
  }

  lemma DeskLift(s: State, t: State)
    requires DeskOk(s) && IdsOk(s) && |s.bus.stream| <= |t.bus.stream|
    requires t.offers.Keys == s.offers.Keys
    requires forall q :: q in s.offers ==> t.offers[q].pc == s.offers[q].pc && t.offers[q].gen == s.offers[q].gen
    requires forall p :: p in t.desk.waiters ==> p in s.desk.waiters && t.desk.waiters[p] == s.desk.waiters[p]
    requires forall p :: p in t.completed ==> p in s.completed || (s.cons.Busy? && s.cons.pc.Tell? && p.1 == s.cons.pc.id)
    requires t.cons.Busy? && t.cons.pc.Send? ==>
      exists p :: p in s.desk.waiters && t.cons.pc.to == s.desk.waiters[p] && t.cons.pc.id == p.1
    ensures DeskOk(t)
  {
    forall p | p in t.desk.waiters ensures WaitsAt(t, t.desk.waiters[p], p) {
      assert WaitsAt(s, s.desk.waiters[p], p);
    }
    if t.cons.Busy? && t.cons.pc.Send? {
      var p :| p in s.desk.waiters && t.cons.pc.to == s.desk.waiters[p] && t.cons.pc.id == p.1;
      assert WaitsAt(s, s.desk.waiters[p], p);
    }
  }

  lemma HandoffKeptCon(site: Site, s: State, c: ConsStep)
    requires Inv(site, s) && ConsEnabled(s, c)
    ensures HandoffOk(ConsDo(site, s, c))
  {
    var t := ConsDo(site, s, c);
    ConsDesk(site, s, c);
    ConsOffers(site, s, c);
    if c != Work(Complete) {
      if s.cons.Busy? && s.cons.pc.Send? { DepositFills(site, s, c); }
      forall o | o in t.offers ensures Handed(t, o) { assert Handed(s, o); }
    } else {
      forall o | o in t.offers ensures Handed(t, o) { HandedComplete(s, t, o); }
    }
  }

  lemma DepositFills(site: Site, s: State, c: ConsStep)
    requires ConsEnabled(s, c) && s.cons.Busy? && s.cons.pc.Send?
    ensures s.cons.pc.to in s.offers ==> ConsDo(site, s, c).offers[s.cons.pc.to].chan.Some?
  {
  }

  lemma HandedComplete(s: State, t: State, o: nat)
    requires DeskOk(s) && o in s.offers && t.offers == s.offers && Handed(s, o)
    requires s.cons.Busy? && s.cons.pc.Tell? && DeskCompleted(s, t)
    ensures Handed(t, o)
  {
    var place := (s.gen, s.cons.pc.id);
    var f := s.offers[o];
    if place in s.desk.waiters { assert WaitsAt(s, s.desk.waiters[place], place); }
  }

  /** How a step of one offer shows at the desk. */
  lemma OfferDesk(site: Site, s: State, o: nat, g: OfferStep)
    requires DoorEnabled(site, s, o, Go(g))
    ensures var t := DoorDo(site, s, o, Go(g)); var f := s.offers[o]; var h := t.offers[o];
      && t.cons == s.cons && t.completed == s.completed && t.gen == s.gen && h.gen == f.gen
      && t.offers.Keys == s.offers.Keys
      && (forall q :: q in s.offers && q != o ==> t.offers[q] == s.offers[q])
      && (match g
          case Add(_) => t.desk == s.desk && h.chan == f.chan
            && (h.pc.RelMem? || (h.pc == Added(|s.bus.stream|) && |t.bus.stream| == |s.bus.stream| + 1))
          case Register =>
            var place := (f.gen, f.pc.id);
            && t.desk == Registered(s.desk, place, o).0 && h.pc == Waiting(f.pc.id)
            && h.chan == (if place in s.desk.parked then Some(s.desk.parked[place]) else f.chan)
          case Receive => t.desk == s.desk && h.pc.Leaving? && h.pc.id == f.pc.id && f.pc.Waiting?
          case GiveUp => t.desk == s.desk && h.pc.Leaving? && h.pc.id == f.pc.id && f.pc.Waiting?
          case Cleanup => t.desk == Cleaned(s.desk, (f.gen, f.pc.id)) && f.pc.Leaving? && h.pc.Returned?
          case _ => t.desk == s.desk && !OnEntry(f.pc) && !OnEntry(h.pc))
  {
  }

  lemma DeskKeptGo(site: Site, s: State, o: nat, g: OfferStep)
    requires Inv(site, s) && DoorEnabled(site, s, o, Go(g))
    ensures DeskOk(DoorDo(site, s, o, Go(g)))
  {
    var t := DoorDo(site, s, o, Go(g));
    OfferDesk(site, s, o, g);
    StepGrows(site, s, Doo(o, Go(g)));
    assert OfferOk(site, s, o);
    forall q | q in s.offers && OnEntry(s.offers[q].pc) ensures s.offers[q].pc.id < |s.bus.stream| {
      assert OfferOk(site, s, q);
    }
    if g.Add? { DeskAfterAdd(s, t, o); }
    else if g.Register? || g.Cleanup? || g.Receive? || g.GiveUp? { DeskAfterWait(s, t, o); }
    else { DeskAfterQuiet(s, t, o); }
  }

  /** The other offers, the consumer and the completions are as they were. */
  predicate OnlyOffer(s: State, t: State, o: nat) {
    && o in s.offers && t.offers.Keys == s.offers.Keys && t.cons == s.cons && t.completed == s.completed
    && |s.bus.stream| <= |t.bus.stream| && t.offers[o].gen == s.offers[o].gen
    && (forall q :: q in s.offers && q != o ==> t.offers[q] == s.offers[q])
  }

  lemma DeskAfterQuiet(s: State, t: State, o: nat)
    requires DeskOk(s) && OnlyOffer(s, t, o) && t.desk == s.desk
    requires !OnEntry(s.offers[o].pc) && !OnEntry(t.offers[o].pc)
    requires s.cons.Busy? && s.cons.pc.Send? && s.cons.pc.to == o ==> t.offers[o].pc.Returned?
    ensures DeskOk(t)
  {
    forall p | p in t.desk.waiters ensures WaitsAt(t, t.desk.waiters[p], p) {
      assert WaitsAt(s, s.desk.waiters[p], p);
    }
  }

  lemma DeskAfterAdd(s: State, t: State, o: nat)
    requires DeskOk(s) && OnlyOffer(s, t, o) && t.desk == s.desk
    requires s.offers[o].pc.Claimed?
    requires t.offers[o].pc.RelMem? || t.offers[o].pc == Added(|s.bus.stream|)
    requires forall q :: q in s.offers && OnEntry(s.offers[q].pc) ==> s.offers[q].pc.id < |s.bus.stream|
    ensures DeskOk(t)
  {
    forall p | p in t.desk.waiters ensures WaitsAt(t, t.desk.waiters[p], p) {
      assert WaitsAt(s, s.desk.waiters[p], p);
    }
  }

  lemma DeskAfterWait(s: State, t: State, o: nat)
    requires DeskOk(s) && OnlyOffer(s, t, o) && OnEntry(s.offers[o].pc)
    requires var f, h := s.offers[o], t.offers[o]; var place := (f.gen, f.pc.id);
      || (f.pc.Added? && h.pc == Waiting(f.pc.id) && t.desk == Registered(s.desk, place, o).0)
      || (f.pc.Waiting? && h.pc.Leaving? && h.pc.id == f.pc.id && t.desk == s.desk)
      || (f.pc.Leaving? && h.pc.Returned? && t.desk == Cleaned(s.desk, place))
    ensures DeskOk(t)
  {
    forall p | p in t.desk.waiters ensures WaitsAt(t, t.desk.waiters[p], p) {
      if p in s.desk.waiters { assert WaitsAt(s, s.desk.waiters[p], p); }
    }
  }

  lemma HandoffKeptGo(site: Site, s: State, o: nat, g: OfferStep)
    requires Inv(site, s) && DoorEnabled(site, s, o, Go(g))
    ensures HandoffOk(DoorDo(site, s, o, Go(g)))
  {
    var t := DoorDo(site, s, o, Go(g));
    OfferDesk(site, s, o, g);
    StepGrows(site, s, Doo(o, Go(g)));
    var f := s.offers[o];
    forall q | q in t.offers ensures Handed(t, q) {
      assert Handed(s, q) && OfferOk(site, s, q);
      if q == o { HandedSelf(s, t, o); } else { HandedOther(s, t, o, q); }
    }
  }

  lemma HandedSelf(s: State, t: State, o: nat)
    requires DeskOk(s) && OnlyOffer(s, t, o) && Handed(s, o)
    requires var f, h := s.offers[o], t.offers[o];
      || (!OnEntry(h.pc))
      || (f.pc.Claimed? && h.pc == Added(|s.bus.stream|) && t.desk == s.desk)
      || (f.pc.Added? && h.pc == Waiting(f.pc.id) && t.desk == Registered(s.desk, (f.gen, f.pc.id), o).0
          && ((f.gen, f.pc.id) in s.desk.parked ==> h.chan.Some?))
      || (f.pc.Waiting? && h.pc.Leaving?)
    ensures Handed(t, o)
  {
  }

  lemma HandedOther(s: State, t: State, o: nat, q: nat)
    requires DeskOk(s) && OnlyOffer(s, t, o) && q in s.offers && q != o && Handed(s, q)
    requires var f := s.offers[o];
      || t.desk == s.desk
      || (f.pc.Added? && t.desk == Registered(s.desk, (f.gen, f.pc.id), o).0)
      || (f.pc.Leaving? && t.desk == Cleaned(s.desk, (f.gen, f.pc.id)))
    ensures Handed(t, q)
  {
  }

  /** A new offer has no entry yet. */
  lemma DeskKeptBegin(site: Site, s: State, o: nat, d: Draft, localId: string)
    requires Inv(site, s) && DoorEnabled(site, s, o, Begin(d, localId))
    ensures DeskOk(DoorDo(site, s, o, Begin(d, localId))) && HandoffOk(DoorDo(site, s, o, Begin(d, localId)))
  {
    var t := DoorDo(site, s, o, Begin(d, localId));
    forall p | p in t.desk.waiters ensures WaitsAt(t, t.desk.waiters[p], p) {
      assert WaitsAt(s, s.desk.waiters[p], p);
    }
    forall q | q in t.offers ensures Handed(t, q) { if q != o { assert Handed(s, q); } }
  }

  lemma InvKept(site: Site, s: State, x: Step)
    requires Good(site) && Inv(site, s) && Enabled(site, s, x)
    ensures Inv(site, Do(site, s, x))
  {
    IdsKept(site, s, x);
    FullKept(site, s, x);
    ConsKept(site, s, x);
    AckedKept(site, s, x);
    ParkedKept(site, s, x);
    MarksAndOffersKept(site, s, x);
    DeskAndHandoffKept(site, s, x);
  }

  lemma MarksAndOffersKept(site: Site, s: State, x: Step)
    requires Good(site) && Inv(site, s) && Enabled(site, s, x)
    ensures MarksOk(site, Do(site, s, x)) && OffersOk(site, Do(site, s, x))
  {
    match x
    case Env(e) => MarksKeptEnv(site, s, e); OffersKeptEnv(site, s, e);
    case Con(c) => MarksKeptCon(site, s, c); OffersKeptCon(site, s, c);
    case Doo(o, d) => MarksKeptDoor(site, s, o, d); OffersKeptDoor(site, s, o, d);
  }

  lemma DeskAndHandoffKept(site: Site, s: State, x: Step)
    requires Good(site) && Inv(site, s) && Enabled(site, s, x)
    ensures DeskOk(Do(site, s, x)) && HandoffOk(Do(site, s, x))
  {
    match x
    case Env(e) => DeskKeptEnv(site, s, e);
    case Con(c) => DeskKeptCon(site, s, c); HandoffKeptCon(site, s, c);
    case Doo(o, Begin(d, localId)) => DeskKeptBegin(site, s, o, d, localId);
    case Doo(o, Go(g)) => DeskKeptGo(site, s, o, g); HandoffKeptGo(site, s, o, g);
  }

  lemma {:induction false} InvHolds(site: Site, s: State, run: seq<Step>)
    requires Good(site) && Inv(site, s) && Possible(site, s, run)
    ensures Inv(site, After(site, s, run))
    decreases |run|
  {
    if run != [] {
      InvKept(site, s, run[0]);
      InvHolds(site, Do(site, s, run[0]), run[1..]);
    }
  }

  // ---- the theorems ----

  /** Ack after append: after any run, every acked entry is in the dead-letter stream,
      or has all its records in the ledger, or was a re-delivery under a key the ledger
      already held. */
  lemma AckedIsDurable(site: Site, run: seq<Step>, id: nat)
    requires Good(site) && Possible(site, Boot(), run)
    ensures var s := After(site, Boot(), run);
      id in s.bus.acked ==>
        || id in s.bus.dead
        || (RawAt(s, id).Entry? && AllIn(RecsAt(s, id), s.ledger))
        || (RawAt(s, id).Entry? && Backed(site, s, KeyAt(s, id)))
  {
    InvHolds(site, Boot(), run);
  }

  /** Every stream entry under `k` carries `k` as the claim of one of its records, which
      is how the door makes its entries. */
  ghost predicate DoorMade(site: Site, s: State, k: string) {
    forall id: nat :: id < |s.bus.stream| && s.bus.stream[id].Entry? && s.bus.stream[id].key == k ==>
      exists d :: d in s.bus.stream[id].recs && ClaimOn(site, d) == Some(k)
  }

  lemma BackedMeansClaimed(site: Site, s: State, k: string)
    requires FullOk(s) && DoorMade(site, s, k) && Backed(site, s, k)
    ensures HasClaim(site, s.ledger, k)
  {
    if k in s.full {
      var id := s.full[k];
      assert s.bus.stream[id].key == k;
      var d :| d in s.bus.stream[id].recs && ClaimOn(site, d) == Some(k);
      assert d in RecsAt(s, id);
    }
  }

  /** What the gate would answer `appended` for at this instant: by the trusted index,
      by Redis, or by the fallback. */
  predicate AnswersAppended(s: State, k: string) {
    || TrustedNow(s, k)
    || (k in s.bus.keys && s.bus.keys[k].Appended?)
    || Marked(s.mem.lru, k)
  }

  /** Gate soundness: in every reachable state, a door-made key is answered `appended`
      by any of the gate's three sources only if a ledger record carries its claim. */
  lemma GateIsSound(site: Site, run: seq<Step>, k: string)
    requires Good(site) && Possible(site, Boot(), run)
    ensures var s := After(site, Boot(), run);
      DoorMade(site, s, k) && AnswersAppended(s, k) ==> HasClaim(site, s.ledger, k)
  {
    InvHolds(site, Boot(), run);
    var s := After(site, Boot(), run);
    if DoorMade(site, s, k) && AnswersAppended(s, k) { BackedMeansClaimed(site, s, k); }
  }

  /** For the door's own entries this leaves two fates: an acked entry is dead-lettered, or
      a ledger record carries its key. */
  lemma AckedDoorEntry(site: Site, run: seq<Step>, id: nat)
    requires Good(site) && Possible(site, Boot(), run)
    ensures var s := After(site, Boot(), run);
      id in s.bus.acked && (RawAt(s, id).Entry? ==> DoorMade(site, s, KeyAt(s, id))) ==>
        id in s.bus.dead || HasClaim(site, s.ledger, KeyAt(s, id))
  {
    InvHolds(site, Boot(), run);
    AckedIsDurable(site, run, id);
    var s := After(site, Boot(), run);
    if id in s.bus.acked && id !in s.bus.dead && DoorMade(site, s, KeyAt(s, id)) {
      if AllIn(RecsAt(s, id), s.ledger) { WholeMeansClaimed(site, s, id); }
      else { BackedMeansClaimed(site, s, KeyAt(s, id)); }
    }
  }

  lemma WholeMeansClaimed(site: Site, s: State, id: nat)
    requires RawAt(s, id).Entry? && AllIn(RecsAt(s, id), s.ledger) && DoorMade(site, s, KeyAt(s, id))
    ensures HasClaim(site, s.ledger, KeyAt(s, id))
  {
    assert s.bus.stream[id].key == KeyAt(s, id);
    var d :| d in RecsAt(s, id) && ClaimOn(site, d) == Some(KeyAt(s, id));
    assert d in s.ledger;
  }

  /** The offer is refused on the word of a source of its own gate that says `appended`: the
      trusted index, the key in Redis, or the fallback when Redis did not answer. */
  predicate Hears(s: State, f: Offer, g: OfferStep) {
    f.gen == s.gen &&
    match g
    case ClaimTrust(_) => TrustedNow(s, f.key)
    case ClaimSet(r) => r.Ok() && f.key in s.bus.keys && s.bus.keys[f.key].Appended?
    case ClaimPut(_) => f.pc.CPut? && f.pc.remote.None? && Marked(s.mem.lru, f.key)
    case _ => false
  }

  /** A replayed offer is promised something after all when its answer came from `appended`:
      it is on its way to `Replayed`, and a ledger record carries its key. */
  lemma ReplayOnAppendedIsBacked(site: Site, run: seq<Step>, o: nat, g: OfferStep)
    requires Good(site) && Possible(site, Boot(), run)
    requires var s := After(site, Boot(), run);
      DoorEnabled(site, s, o, Go(g)) && Hears(s, s.offers[o], g) && DoorMade(site, s, s.offers[o].key)
    ensures var s := After(site, Boot(), run); var t := DoorDo(site, s, o, Go(g));
      (t.offers[o].pc == Replayed || t.offers[o].pc == CPut(Some(false))) && HasClaim(site, t.ledger, s.offers[o].key)
  {
    var s := After(site, Boot(), run);
    GateIsSound(site, run, s.offers[o].key);
  }

  /** A freshly claimed offer that returned without error has a ledger record with its
      key, whether the consumer appended it or skipped it on re-delivery. A replayed
      offer (`Replayed`) is promised nothing. */
  lemma ConfirmedIsInLedger(site: Site, run: seq<Step>, o: nat)
    requires Good(site) && Possible(site, Boot(), run)
    ensures var s := After(site, Boot(), run);
      o in s.offers && s.offers[o].pc == Returned(true) && DoorMade(site, s, s.offers[o].key) ==>
        HasClaim(site, s.ledger, s.offers[o].key)
  {
    InvHolds(site, Boot(), run);
    var s := After(site, Boot(), run);
    if o in s.offers && s.offers[o].pc == Returned(true) && DoorMade(site, s, s.offers[o].key) {
      assert OfferOk(site, s, o);
      BackedMeansClaimed(site, s, s.offers[o].key);
    }
  }

  /** No lost completion: once the entry of a waiting offer has been completed in its
      wiring, the answer is in the offer's channel or in the consumer's hand on its
      way there; before it registers, it is parked where registration picks it up. */
  lemma NoLostCompletion(site: Site, run: seq<Step>, o: nat)
    requires Good(site) && Possible(site, Boot(), run)
    ensures var s := After(site, Boot(), run);
      o in s.offers && OnEntry(s.offers[o].pc) && (s.offers[o].gen, s.offers[o].pc.id) in s.completed ==>
        && (s.offers[o].pc.Added? ==> (s.offers[o].gen, s.offers[o].pc.id) in s.desk.parked)
        && (s.offers[o].pc.Waiting? ==>
              s.offers[o].chan.Some? || (s.cons.Busy? && s.cons.pc.Send? && s.cons.pc.to == o))
  {
    InvHolds(site, Boot(), run);
    var s := After(site, Boot(), run);
    if o in s.offers { assert Handed(s, o); }
  }

  /** The registration takes the parked answer with it and leaves its waiter, the cleanup
      leaves neither, and both leave every other entry's alone. */
  lemma DeskIsLeftClean(site: Site, s: State, o: nat, g: OfferStep)
    requires DoorEnabled(site, s, o, Go(g)) && (g.Register? || g.Cleanup?)
    ensures var t := DoorDo(site, s, o, Go(g)); var place := (s.offers[o].gen, s.offers[o].pc.id);
      && place !in t.desk.parked
      && (if g.Register? then place in t.desk.waiters && t.desk.waiters[place] == o else place !in t.desk.waiters)
      && (g.Register? && place in s.desk.parked ==> t.offers[o].chan == Some(s.desk.parked[place]))
      && (forall p :: p != place ==> (p in t.desk.parked <==> p in s.desk.parked) && (p in s.desk.parked ==> t.desk.parked[p] == s.desk.parked[p]))
      && (forall p :: p != place ==> (p in t.desk.waiters <==> p in s.desk.waiters) && (p in s.desk.waiters ==> t.desk.waiters[p] == s.desk.waiters[p]))
  {
  }

  /** The send made with the door's lock held never blocks: an offer that is about to
      register has an empty channel. */
  lemma RegisterNeverBlocks(site: Site, run: seq<Step>, o: nat)
    requires Good(site) && Possible(site, Boot(), run)
    ensures var s := After(site, Boot(), run);
      DoorEnabled(site, s, o, Go(Register)) ==> s.offers[o].chan.None?
  {
    InvHolds(site, Boot(), run);
    var s := After(site, Boot(), run);
    if o in s.offers { assert OfferOk(site, s, o); }
  }

  // ---- runs that end badly ----

  ghost predicate Leads(site: Site, s: State, run: seq<Step>, t: State) {
    Possible(site, s, run) && After(site, s, run) == t
  }

  lemma {:induction false} RunExtends(site: Site, s: State, run: seq<Step>, x: Step)
    requires Possible(site, s, run) && Enabled(site, After(site, s, run), x)
    ensures Possible(site, s, run + [x])
    ensures After(site, s, run + [x]) == Do(site, After(site, s, run), x)
    decreases |run|
  {
    if run == [] {
      assert [x][1..] == [];
    } else {
      RunExtends(site, Do(site, s, run[0]), run[1..], x);
      assert (run + [x])[1..] == run[1..] + [x];
    }
  }

  lemma LeadsOn(site: Site, s: State, run: seq<Step>, t: State, x: Step, u: State)
    requires Leads(site, s, run, t) && Enabled(site, t, x) && Do(site, t, x) == u
    ensures Leads(site, s, run + [x], u)
  {
    RunExtends(site, s, run, x);
  }

  /** The way of an offer to the SET NX of its claim. */
  function Asking(run: seq<Step>, o: nat, d: Draft, localId: string): seq<Step> {
    run + [Doo(o, Begin(d, localId))] + [Doo(o, Go(ClaimTrust(false)))] + [Doo(o, Go(ClaimSet(Done)))]
  }

  lemma Asks(site: Site, run: seq<Step>, s: State, o: nat, d: Draft, localId: string, key: string)
    requires Leads(site, Boot(), run, s) && o !in s.offers && s.mem.restored == {}
    requires Identity.DoorKey(site.codec, d, site.host) == Some(key)
    ensures Leads(site, Boot(), Asking(run, o, d, localId),
                  s.(offers := s.offers[o := Offer(s.gen, key, Minted(site, d, key, localId), CPut(Some(key !in s.bus.keys)), None)],
                     bus := s.bus.(keys := SetNX(s.bus.keys, key, Enqueued, Done))))
  {
    var f := Offer(s.gen, key, Minted(site, d, key, localId), CTrust, None);
    var s1 := s.(offers := s.offers[o := f]);
    var s2 := s.(offers := s.offers[o := f.(pc := CSet)]);
    var s3 := s.(offers := s.offers[o := f.(pc := CPut(Some(key !in s.bus.keys)))], bus := s.bus.(keys := SetNX(s.bus.keys, key, Enqueued, Done)));
    LeadsOn(site, Boot(), run, s, Doo(o, Begin(d, localId)), s1);
    assert s1.offers[o := f.(pc := CSet)] == s2.offers;
    LeadsOn(site, Boot(), run + [Doo(o, Begin(d, localId))], s1, Doo(o, Go(ClaimTrust(false))), s2);
    assert s2.offers[o := f.(pc := CPut(Some(key !in s.bus.keys)))] == s3.offers;
    LeadsOn(site, Boot(), run + [Doo(o, Begin(d, localId))] + [Doo(o, Go(ClaimTrust(false)))], s2, Doo(o, Go(ClaimSet(Done))), s3);
  }

  /** A duplicate offer is answered with success although nothing is in the ledger:
      the first offer has claimed the key and not yet enqueued. */
  lemma DuplicateIsPromisedNothing(site: Site, d: Draft)
    requires Good(site) && Identity.DoorKey(site.codec, d, site.host).Some?
    ensures var run := Asking(Asking([], 0, d, "a"), 1, d, "b") + [Doo(1, Go(ClaimPut(false)))];
      && Possible(site, Boot(), run)
      && var s := After(site, Boot(), run);
         1 in s.offers && s.offers[1].pc == Replayed && s.ledger == [] && s.bus.stream == []
  {
    var key := Identity.DoorKey(site.codec, d, site.host).value;
    Asks(site, [], Boot(), 0, d, "a", key);
    var s := After(site, Boot(), Asking([], 0, d, "a"));
    assert key in s.bus.keys;
    Asks(site, Asking([], 0, d, "a"), s, 1, d, "b", key);
    var t := After(site, Boot(), Asking(Asking([], 0, d, "a"), 1, d, "b"));
    LeadsOn(site, Boot(), Asking(Asking([], 0, d, "a"), 1, d, "b"), t, Doo(1, Go(ClaimPut(false))), Do(site, t, Doo(1, Go(ClaimPut(false)))));
  }

  /** The way of one offer through everything, with nothing in its way: claimed, enqueued,
      read, appended, marked, completed, acked, and answered. */
  function ClaimedAndAdded(o: nat, d: Draft, localId: string): seq<Step> {
    Asking([], o, d, localId) + [Doo(o, Go(ClaimPut(false)))] + [Doo(o, Go(Add(Done)))] + [Doo(o, Go(Register))]
  }

  function AppendedAndMarked(run: seq<Step>): seq<Step> {
    FirstAppended(run) + [Con(Work(Wrote))] + [Con(Work(PutMark))] + [Con(Work(CheckFlag))] + [Con(Work(SetX(Done)))]
  }

  function AnsweredAndAcked(run: seq<Step>, o: nat): seq<Step> {
    run + [Con(Work(Complete))] + [Con(Work(Deposit))] + [Con(Work(Next))] + [Con(Ack(Done))]
      + [Doo(o, Go(Receive))] + [Doo(o, Go(Cleanup))]
  }

  /** An undisturbed offer is told of its success, with its record in the ledger, its entry
      acked and nothing pending, and its key marked everywhere. */
  lemma UndisturbedOfferSucceeds(site: Site, d: Draft)
    requires Good(site) && Identity.DoorKey(site.codec, d, site.host).Some?
    ensures var run := AnsweredAndAcked(AppendedAndMarked(ClaimedAndAdded(0, d, "a")), 0);
      && Possible(site, Boot(), run)
      && var s := After(site, Boot(), run); var key := Identity.DoorKey(site.codec, d, site.host).value;
         && 0 in s.offers && s.offers[0].pc == Returned(true) && s.offers[0].key == key
         && |s.ledger| == 1 && ClaimOn(site, s.ledger[0]) == Some(key)
         && s.bus.acked == {0} && s.bus.pending == {} && s.desk == Desk(map[], map[])
         && key in s.bus.keys && s.bus.keys[key].Appended? && Marked(s.mem.lru, key)
  {
    var key := Identity.DoorKey(site.codec, d, site.host).value;
    var m := Minted(site, d, key, "a");
    MintedClaims(site, d, "a");
    var s1 := Boot().(offers := map[0 := Offer(0, key, m, CPut(Some(true)), None)], bus := Boot().bus.(keys := map[key := Enqueued]));
    Asks(site, [], Boot(), 0, d, "a", key);
    assert SetNX(map[], key, Enqueued, Done) == map[key := Enqueued];
    assert Leads(site, Boot(), Asking([], 0, d, "a"), s1);
    var s2 := Enqueues(site, d, key, m, s1);
    var s3 := Appends(site, ClaimedAndAdded(0, d, "a"), s2, key, m);
    Answers(site, AppendedAndMarked(ClaimedAndAdded(0, d, "a")), s3, key, m);
  }

  lemma Enqueues(site: Site, d: Draft, key: string, m: Draft, s1: State) returns (s: State)
    requires site.cap >= 1 && Leads(site, Boot(), Asking([], 0, d, "a"), s1)
    requires s1 == Boot().(offers := map[0 := Offer(0, key, m, CPut(Some(true)), None)], bus := Boot().bus.(keys := map[key := Enqueued]))
    ensures Leads(site, Boot(), ClaimedAndAdded(0, d, "a"), s)
    ensures s == s1.(mem := EMPTY_MEM.(lru := [Cell(key, Enqueued)]), bus := s1.bus.(stream := [Entry(key, [m])]),
                     offers := map[0 := Offer(0, key, m, Waiting(0), None)], desk := Desk(map[(0, 0) := 0], map[]))
  {
    var r := Asking([], 0, d, "a");
    var a := s1.(mem := EMPTY_MEM.(lru := [Cell(key, Enqueued)]), offers := map[0 := Offer(0, key, m, Claimed, None)]);
    var b := a.(bus := a.bus.(stream := [Entry(key, [m])]), offers := map[0 := Offer(0, key, m, Added(0), None)]);
    s := b.(offers := map[0 := Offer(0, key, m, Waiting(0), None)], desk := Desk(map[(0, 0) := 0], map[]));
    assert Clip([Cell(key, Enqueued)] + [], site.cap) == [Cell(key, Enqueued)];
    assert s1.offers[0 := s1.offers[0].(pc := Claimed)] == a.offers;
    LeadsOn(site, Boot(), r, s1, Doo(0, Go(ClaimPut(false))), a);
    assert [] + [Entry(key, [m])] == b.bus.stream && a.offers[0 := a.offers[0].(pc := Added(0))] == b.offers;
    LeadsOn(site, Boot(), r + [Doo(0, Go(ClaimPut(false)))], a, Doo(0, Go(Add(Done))), b);
    assert b.offers[0 := b.offers[0].(pc := Waiting(0), chan := None)] == s.offers;
    assert b.desk.parked - {(0, 0)} == map[] && b.desk.waiters[(0, 0) := 0] == s.desk.waiters;
    LeadsOn(site, Boot(), r + [Doo(0, Go(ClaimPut(false)))] + [Doo(0, Go(Add(Done)))], b, Doo(0, Go(Register)), s);
  }

  lemma Appends(site: Site, run: seq<Step>, s: State, key: string, m: Draft) returns (t: State)
    requires site.cap >= 1 && Leads(site, Boot(), run, s)
    requires s.bus == Bus([Entry(key, [m])], 0, {}, {}, {}, map[key := Enqueued]) && s.cons == Idle && s.ledger == []
    requires s.mem == EMPTY_MEM.(lru := [Cell(key, Enqueued)]) && s.full == map[]
    ensures Leads(site, Boot(), AppendedAndMarked(run), t)
    ensures t == s.(ledger := [m], full := map[key := 0], mem := EMPTY_MEM.(lru := [Cell(key, Appended)]),
                    bus := Bus([Entry(key, [m])], 1, {0}, {}, {}, map[key := Appended]), cons := Busy([], [], Tell(0, Recs([m]))))
  {
    var u := s.(ledger := [m], bus := s.bus.(pending := {0}, next := 1), cons := Busy([], [], Ingest.Write(0, 1)));
    RecordIsAppended(site, run, s, key, m, u);
    var r := FirstAppended(run);
    var v := u.(full := map[key := 0], cons := Busy([], [], MarkMem(0)));
    assert u.full[key := 0] == v.full;
    LeadsOn(site, Boot(), r, u, Con(Work(Wrote)), v);
    t := v.(mem := EMPTY_MEM.(lru := [Cell(key, Appended)]), bus := v.bus.(keys := map[key := Appended]), cons := Busy([], [], Tell(0, Recs([m]))));
    EntryIsMarked(site, r + [Con(Work(Wrote))], v, key, m, t);
  }

  lemma EntryIsMarked(site: Site, run: seq<Step>, v: State, key: string, m: Draft, t: State)
    requires Leads(site, Boot(), run, v) && v.bus == Bus([Entry(key, [m])], 1, {0}, {}, {}, map[key := Enqueued])
    requires v.cons == Busy([], [], MarkMem(0)) && v.mem == EMPTY_MEM.(lru := [Cell(key, Enqueued)])
    requires t == v.(mem := EMPTY_MEM.(lru := [Cell(key, Appended)]), bus := v.bus.(keys := map[key := Appended]),
                     cons := Busy([], [], Tell(0, Recs([m]))))
    ensures Leads(site, Boot(), run + [Con(Work(PutMark))] + [Con(Work(CheckFlag))] + [Con(Work(SetX(Done)))], t)
  {
    var w := v.(mem := EMPTY_MEM.(lru := [Cell(key, Appended)]), cons := Busy([], [], MarkFlag(0)));
    OneCellStored(site.cap, key);
    LeadsOn(site, Boot(), run, v, Con(Work(PutMark)), w);
    LeadsOn(site, Boot(), run + [Con(Work(PutMark))], w, Con(Work(CheckFlag)), w.(cons := Busy([], [], MarkXX(0))));
    assert map[key := Enqueued][key := Appended] == map[key := Appended];
    LeadsOn(site, Boot(), run + [Con(Work(PutMark))] + [Con(Work(CheckFlag))], w.(cons := Busy([], [], MarkXX(0))),
            Con(Work(SetX(Done))), t);
  }

  lemma OneCellStored(cap: nat, key: string)
    ensures Stored([Cell(key, Enqueued)], cap, key, Appended) == [Cell(key, Appended)]
  {
    var one := [Cell(key, Enqueued)];
    assert one[0] in one && Has(one, key);
    assert one[1..] == [] && Without(one, key) == [];
  }

  lemma RecordIsAppended(site: Site, run: seq<Step>, s: State, key: string, m: Draft, u: State)
    requires Leads(site, Boot(), run, s) && s.bus == Bus([Entry(key, [m])], 0, {}, {}, {}, map[key := Enqueued])
    requires s.cons == Idle && s.ledger == [] && s.mem == EMPTY_MEM.(lru := [Cell(key, Enqueued)])
    requires u == s.(ledger := [m], bus := s.bus.(pending := {0}, next := 1), cons := Busy([], [], Ingest.Write(0, 1)))
    ensures Leads(site, Boot(), FirstAppended(run), u)
  {
    var one: seq<nat> := [0];
    assert Ids(0, 1) == one && one[1..] == [];
    var a := s.(bus := s.bus.(pending := {0}, next := 1), cons := Busy([0], [], Take));
    LeadsOn(site, Boot(), run, s, Con(Deliver(1, true)), a);
    LeadsOn(site, Boot(), run + [Con(Deliver(1, true))], a, Con(Work(Next)), a.(cons := Busy([], [], AskTrust(0))));
    var r := run + [Con(Deliver(1, true))] + [Con(Work(Next))];
    LeadsOn(site, Boot(), r, a.(cons := Busy([], [], AskTrust(0))), Con(Work(TrustCheck)), a.(cons := Busy([], [], AskFlag(0))));
    RecordIsWritten(site, r + [Con(Work(TrustCheck))], a.(cons := Busy([], [], AskFlag(0))), key, m, u);
  }

  lemma RecordIsWritten(site: Site, run: seq<Step>, s: State, key: string, m: Draft, u: State)
    requires Leads(site, Boot(), run, s) && s.bus == Bus([Entry(key, [m])], 1, {0}, {}, {}, map[key := Enqueued])
    requires s.cons == Busy([], [], AskFlag(0)) && s.ledger == [] && !s.mem.degraded
    requires u == s.(ledger := [m], cons := Busy([], [], Ingest.Write(0, 1)))
    ensures Leads(site, Boot(), run + [Con(Work(FlagCheck))] + [Con(Work(RedisGet(Done)))] + [Con(Work(Append(Done)))], u)
  {
    LeadsOn(site, Boot(), run, s, Con(Work(FlagCheck)), s.(cons := Busy([], [], AskRedis(0))));
    LeadsOn(site, Boot(), run + [Con(Work(FlagCheck))], s.(cons := Busy([], [], AskRedis(0))), Con(Work(RedisGet(Done))),
            s.(cons := Busy([], [], Ingest.Write(0, 0))));
    assert [] + [m] == [m];
    LeadsOn(site, Boot(), run + [Con(Work(FlagCheck))] + [Con(Work(RedisGet(Done)))], s.(cons := Busy([], [], Ingest.Write(0, 0))),
            Con(Work(Append(Done))), u);
  }

  lemma Answers(site: Site, run: seq<Step>, s: State, key: string, m: Draft)
    requires Leads(site, Boot(), run, s) && s.cons == Busy([], [], Tell(0, Recs([m]))) && s.gen == 0
    requires s.bus == Bus([Entry(key, [m])], 1, {0}, {}, {}, map[key := Appended])
    requires s.desk == Desk(map[(0, 0) := 0], map[]) && s.offers == map[0 := Offer(0, key, m, Waiting(0), None)] && s.completed == {}
    ensures Leads(site, Boot(), AnsweredAndAcked(run, 0),
                  s.(cons := Idle, bus := s.bus.(pending := {}, acked := {0}), desk := Desk(map[], map[]), completed := {(0, 0)},
                     offers := map[0 := Offer(0, key, m, Returned(true), Some(Recs([m])))]))
  {
    var a := s.(desk := Desk(map[], map[]), completed := {(0, 0)}, cons := Busy([], [], Send(0, Recs([m]), 0)));
    assert s.desk.waiters - {(0, 0)} == map[] && s.completed + {(0, 0)} == a.completed;
    LeadsOn(site, Boot(), run, s, Con(Work(Complete)), a);
    var b := a.(offers := map[0 := Offer(0, key, m, Waiting(0), Some(Recs([m])))], cons := Busy([], [0], Take));
    assert a.offers[0 := a.offers[0].(chan := Some(Recs([m])))] == b.offers && [] + [0] == [0];
    LeadsOn(site, Boot(), run + [Con(Work(Complete))], a, Con(Work(Deposit)), b);
    LeadsOn(site, Boot(), run + [Con(Work(Complete))] + [Con(Work(Deposit))], b, Con(Work(Next)), b.(cons := Acking([0])));
    AnswerIsHeard(site, run + [Con(Work(Complete))] + [Con(Work(Deposit))] + [Con(Work(Next))], b.(cons := Acking([0])), key, m);
  }

  lemma AnswerIsHeard(site: Site, run: seq<Step>, s: State, key: string, m: Draft)
    requires Leads(site, Boot(), run, s) && s.cons == Acking([0]) && s.gen == 0 && s.bus.pending == {0} && s.bus.acked == {}
    requires s.offers == map[0 := Offer(0, key, m, Waiting(0), Some(Recs([m])))] && s.desk == Desk(map[], map[])
    ensures Leads(site, Boot(), run + [Con(Ack(Done))] + [Doo(0, Go(Receive))] + [Doo(0, Go(Cleanup))],
                  s.(cons := Idle, bus := s.bus.(pending := {}, acked := {0}),
                     offers := map[0 := Offer(0, key, m, Returned(true), Some(Recs([m])))]))
  {
    var c := s.(cons := Idle, bus := s.bus.(pending := {}, acked := {0}));
    var ids := set i | i in [0];
    assert ids == {0};
    LeadsOn(site, Boot(), run, s, Con(Ack(Done)), c);
    var e := c.(offers := map[0 := Offer(0, key, m, Leaving(0, true), Some(Recs([m])))]);
    assert c.offers[0 := c.offers[0].(pc := Leaving(0, true))] == e.offers;
    LeadsOn(site, Boot(), run + [Con(Ack(Done))], c, Doo(0, Go(Receive)), e);
    var f := e.(offers := map[0 := Offer(0, key, m, Returned(true), Some(Recs([m])))]);
    assert e.offers[0 := e.offers[0].(pc := Returned(true))] == f.offers;
    assert e.desk.waiters - {(0, 0)} == map[] && e.desk.parked - {(0, 0)} == map[];
    LeadsOn(site, Boot(), run + [Con(Ack(Done))] + [Doo(0, Go(Receive))], e, Doo(0, Go(Cleanup)), f);
  }

  /** An entry that is not whole and has no claim of its own in the ledger is acked only
      into the dead-letter stream, or behind another entry of its key that is whole. */
  lemma AckedWithoutClaim(site: Site, run: seq<Step>, id: nat)
    requires Good(site) && Possible(site, Boot(), run)
    ensures var s := After(site, Boot(), run);
      id in s.bus.acked && !HasClaim(site, s.ledger, KeyAt(s, id)) && id !in s.bus.dead ==>
        || (RawAt(s, id).Entry? && AllIn(RecsAt(s, id), s.ledger))
        || (KeyAt(s, id) in s.full && Whole(s, s.full[KeyAt(s, id)]) && KeyAt(s, s.full[KeyAt(s, id)]) == KeyAt(s, id))
  {
    InvHolds(site, Boot(), run);
    AckedIsDurable(site, run, id);
  }

  /** The claims a crash finds in a ledger of one record. */
  lemma OneRewarmed(site: Site, s: State, d: Draft, k: string)
    requires site.cap >= 1 && s.ledger == [d] && ClaimOn(site, d) == Some(k) && k != ""
    ensures k in Rewarmed(site, s, 1).restored && Rewarmed(site, s, 1).trustUntil == s.now + site.grace
  {
    var recs := AsRecords(s.ledger);
    assert Identity.Tail(recs, site.cap) == recs && recs == [Identity.LedgerRecord(d, "")];
    Identity.ClaimsOfMembers(site.codec, recs, site.host);
    assert recs[0] in recs;
    assert k in Identity.ClaimsOf(site.codec, recs, site.host);
  }

  /** A delivery of the stream's one entry, up to the append of its first record. */
  function FirstAppended(run: seq<Step>): seq<Step> {
    run + [Con(Deliver(1, true))] + [Con(Work(Next))] + [Con(Work(TrustCheck))] + [Con(Work(FlagCheck))]
      + [Con(Work(RedisGet(Done)))] + [Con(Work(Append(Done)))]
  }

  /** A re-delivery of it that is skipped and acked. */
  function SkippedAgain(run: seq<Step>): seq<Step> {
    run + [Con(Reclaim([0]))] + [Con(Work(Next))] + [Con(Work(TrustCheck))] + [Con(Work(Complete))] + [Con(Work(Next))] + [Con(Ack(Done))]
  }

  /** An entry of another producer, of two records, with the claim of the first as its key:
      the first is appended, the daemon crashes and re-warms, and the re-delivery is skipped
      and acked although the second record is nowhere. */
  lemma PartOfAnEntryIsLost(site: Site, d: Draft, rest: Draft, k: string)
    requires Good(site) && site.grace > 0 && ClaimOn(site, d) == Some(k) && k != "" && rest != d
    ensures var run := SkippedAgain(FirstAppended([] + [Env(Foreign(Entry(k, [d, rest])))]) + [Env(Crash(1))]);
      && Possible(site, Boot(), run)
      && var s := After(site, Boot(), run);
         RecsAt(s, 0) == [d, rest] && 0 in s.bus.acked && 0 !in s.bus.dead && rest !in s.ledger
  {
    var b := Bus([Entry(k, [d, rest])], 0, {}, {}, {}, map[]);
    var s1 := Boot().(bus := b);
    var s2 := s1.(ledger := [d], bus := b.(pending := {0}, next := 1), cons := Busy([], [], Ingest.Write(0, 1)));
    var s3 := s2.(gen := 1, mem := Rewarmed(site, s2, 1), cons := Idle);
    var first := [] + [Env(Foreign(Entry(k, [d, rest])))];
    assert [] + [Entry(k, [d, rest])] == b.stream;
    LeadsOn(site, Boot(), [], Boot(), Env(Foreign(Entry(k, [d, rest]))), s1);
    FirstIsAppended(site, first, s1, k, d, rest, s2);
    LeadsOn(site, Boot(), FirstAppended(first), s2, Env(Crash(1)), s3);
    OneRewarmed(site, s2, d, k);
    RestIsSkipped(site, FirstAppended(first) + [Env(Crash(1))], s3, k, d, rest);
  }

  lemma FirstIsAppended(site: Site, run: seq<Step>, s: State, k: string, d: Draft, rest: Draft, t: State)
    requires Leads(site, Boot(), run, s)
    requires s == Boot().(bus := Bus([Entry(k, [d, rest])], 0, {}, {}, {}, map[]))
    requires t == s.(ledger := [d], bus := s.bus.(pending := {0}, next := 1), cons := Busy([], [], Ingest.Write(0, 1)))
    ensures Leads(site, Boot(), FirstAppended(run), t)
  {
    var u := s.(bus := s.bus.(pending := {0}, next := 1), cons := Busy([], [], AskFlag(0)));
    FirstIsTaken(site, run, s, k, d, rest, u);
    var r3 := run + [Con(Deliver(1, true))] + [Con(Work(Next))] + [Con(Work(TrustCheck))];
    LeadsOn(site, Boot(), r3, u, Con(Work(FlagCheck)), u.(cons := Busy([], [], AskRedis(0))));
    LeadsOn(site, Boot(), r3 + [Con(Work(FlagCheck))], u.(cons := Busy([], [], AskRedis(0))), Con(Work(RedisGet(Done))),
            u.(cons := Busy([], [], Ingest.Write(0, 0))));
    assert [] + [d] == [d];
    LeadsOn(site, Boot(), r3 + [Con(Work(FlagCheck))] + [Con(Work(RedisGet(Done)))], u.(cons := Busy([], [], Ingest.Write(0, 0))),
            Con(Work(Append(Done))), t);
  }

  lemma FirstIsTaken(site: Site, run: seq<Step>, s: State, k: string, d: Draft, rest: Draft, t: State)
    requires Leads(site, Boot(), run, s)
    requires s == Boot().(bus := Bus([Entry(k, [d, rest])], 0, {}, {}, {}, map[]))
    requires t == s.(bus := s.bus.(pending := {0}, next := 1), cons := Busy([], [], AskFlag(0)))
    ensures Leads(site, Boot(), run + [Con(Deliver(1, true))] + [Con(Work(Next))] + [Con(Work(TrustCheck))], t)
  {
    var one: seq<nat> := [0];
    assert Ids(0, 1) == one && one[1..] == [];
    LeadsOn(site, Boot(), run, s, Con(Deliver(1, true)), t.(cons := Busy([0], [], Take)));
    LeadsOn(site, Boot(), run + [Con(Deliver(1, true))], t.(cons := Busy([0], [], Take)), Con(Work(Next)), t.(cons := Busy([], [], AskTrust(0))));
    LeadsOn(site, Boot(), run + [Con(Deliver(1, true))] + [Con(Work(Next))], t.(cons := Busy([], [], AskTrust(0))), Con(Work(TrustCheck)), t);
  }

  /** The re-warmed index answers for the key, the entry is skipped and acked. */
  lemma RestIsSkipped(site: Site, run: seq<Step>, s: State, k: string, d: Draft, rest: Draft)
    requires Leads(site, Boot(), run, s) && s.bus == Bus([Entry(k, [d, rest])], 1, {0}, {}, {}, map[]) && s.ledger == [d]
    requires s.cons.Idle? && s.desk == Desk(map[], map[]) && TrustedNow(s, k)
    ensures var t := s.(bus := s.bus.(pending := {}, acked := {0}), desk := Completed(s.desk, (s.gen, 0), Skipped).0,
                        completed := s.completed + {(s.gen, 0)});
      Leads(site, Boot(), SkippedAgain(run), t)
  {
    var s3 := s.(cons := Busy([], [], Tell(0, Skipped)));
    var one: seq<nat> := [0];
    assert one[1..] == [];
    LeadsOn(site, Boot(), run, s, Con(Reclaim([0])), s.(cons := Busy([0], [], Take)));
    LeadsOn(site, Boot(), run + [Con(Reclaim([0]))], s.(cons := Busy([0], [], Take)), Con(Work(Next)), s.(cons := Busy([], [], AskTrust(0))));
    LeadsOn(site, Boot(), run + [Con(Reclaim([0]))] + [Con(Work(Next))], s.(cons := Busy([], [], AskTrust(0))), Con(Work(TrustCheck)), s3);
    SkippedIsAcked(site, run + [Con(Reclaim([0]))] + [Con(Work(Next))] + [Con(Work(TrustCheck))], s3);
  }

  lemma SkippedIsAcked(site: Site, run: seq<Step>, s: State)
    requires Leads(site, Boot(), run, s) && s.cons == Busy([], [], Tell(0, Skipped)) && s.desk == Desk(map[], map[])
    requires s.bus.acked == {} && s.bus.pending == {0}
    ensures var t := s.(cons := Idle, bus := s.bus.(pending := {}, acked := {0}), desk := Completed(s.desk, (s.gen, 0), Skipped).0,
                        completed := s.completed + {(s.gen, 0)});
      Leads(site, Boot(), run + [Con(Work(Complete))] + [Con(Work(Next))] + [Con(Ack(Done))], t)
  {
    var t := s.(desk := Completed(s.desk, (s.gen, 0), Skipped).0, completed := s.completed + {(s.gen, 0)});
    assert [] + [0] == [0];
    LeadsOn(site, Boot(), run, s, Con(Work(Complete)), t.(cons := Busy([], [0], Take)));
    LeadsOn(site, Boot(), run + [Con(Work(Complete))], t.(cons := Busy([], [0], Take)), Con(Work(Next)), t.(cons := Acking([0])));
    var ids := set i | i in [0];
    assert ids == {0};
    LeadsOn(site, Boot(), run + [Con(Work(Complete))] + [Con(Work(Next))], t.(cons := Acking([0])), Con(Ack(Done)),
            t.(cons := Idle, bus := s.bus.(pending := {}, acked := {0})));
  }
}
