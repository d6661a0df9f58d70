/** How many copies of one key the ledger can come to hold: one, plus one for each step
    of the run that lost the evidence that the key was already appended. */
module IngestDuplicates {
  import opened Basics
  import opened LruPhases
  import opened DedupGate
  import opened DoorHandoff
  import opened Ingest
  import opened IngestSafety
  import Identity

  function Copies(site: Site, ledger: seq<Draft>, k: string): nat {
    if ledger == [] then 0
    else Copies(site, ledger[..|ledger| - 1], k)
         + if ClaimOn(site, ledger[|ledger| - 1]) == Some(k) then 1 else 0
  }

  lemma CopiesAppend(site: Site, ledger: seq<Draft>, d: Draft, k: string)
    ensures Copies(site, ledger + [d], k) == Copies(site, ledger, k) + if ClaimOn(site, d) == Some(k) then 1 else 0
  {
    assert (ledger + [d])[..|ledger|] == ledger;
  }

  /** A raw entry that concerns `k` has one record; one under another key has no record
      claiming `k`. */
  predicate PlainRaw(site: Site, raw: Raw, k: string) {
    raw.Entry? ==>
      if raw.key == k then |raw.recs| <= 1
      else forall d :: d in raw.recs ==> ClaimOn(site, d) != Some(k)
  }

  /** Other producers and other writers play by the same rules for `k`. */
  predicate PlainStep(site: Site, x: Step, k: string) {
    match x
    case Env(Foreign(raw)) => PlainRaw(site, raw, k)
    case Env(OtherWrite(d)) => ClaimOn(site, d) != Some(k)
    case _ => true
  }

  ghost predicate PlainStream(site: Site, s: State, k: string) {
    forall i :: 0 <= i < |s.bus.stream| ==> PlainRaw(site, s.bus.stream[i], k)
  }

  predicate InRedis(s: State, k: string) { k in s.bus.keys && s.bus.keys[k].Appended? }

  /** What a check made at this instant would answer. */
  predicate Answered(s: State, k: string) {
    TrustedNow(s, k) || (if s.mem.degraded then Marked(s.mem.lru, k) else InRedis(s, k))
  }

  predicate OnKey(s: State, k: string) {
    s.cons.Busy? && !s.cons.pc.Take? && RawAt(s, s.cons.pc.id).Entry? && KeyAt(s, s.cons.pc.id) == k
  }

  /** The evidence that stands between `k` and a further copy: the source the consumer
      is about to read, the mark it is busy making, or else the gate's answer. */
  predicate Evidence(s: State, k: string) {
    if !OnKey(s, k) then Answered(s, k)
    else match s.cons.pc
      case AskRedis(_) => InRedis(s, k)
      case AskLru(_) => Marked(s.mem.lru, k)
      case Write(_, n) => n > 0
      case MarkMem(_) => true
      case MarkFlag(_) => true
      case MarkXX(_) => true
      case MarkNX(_) => true
      case MarkForce(_) => true
      case _ => Answered(s, k)
  }

  /** The step leaves `k` without evidence although there was some, or although the
      step itself put a copy into the ledger. */
  predicate Fault(site: Site, s: State, x: Step, k: string)
    requires Enabled(site, s, x)
  {
    var t := Do(site, s, x);
    !Evidence(t, k) && (Evidence(s, k) || Copies(site, t.ledger, k) > Copies(site, s.ledger, k))
  }

  function Faults(site: Site, s: State, run: seq<Step>, k: string): nat
    requires Possible(site, s, run)
    decreases |run|
  {
    if run == [] then 0
    else (if Fault(site, s, run[0], k) then 1 else 0) + Faults(site, Do(site, s, run[0]), run[1..], k)
  }

  lemma PlainKept(site: Site, s: State, x: Step, k: string)
    requires OffersOk(site, s) && Enabled(site, s, x) && PlainStep(site, x, k) && PlainStream(site, s, k)
    ensures PlainStream(site, Do(site, s, x), k)
  {
    match x
    case Env(e) =>
    case Con(c) => ConsStream(site, s, c);
    case Doo(o, d) => if d.Go? { OfferStream(site, s, o, d.g, k); }
  }

  lemma ConsStream(site: Site, s: State, c: ConsStep)
    requires ConsEnabled(s, c)
    ensures ConsDo(site, s, c).bus.stream == s.bus.stream
  {
  }

  lemma OfferStream(site: Site, s: State, o: nat, g: OfferStep, k: string)
    requires OffersOk(site, s) && DoorEnabled(site, s, o, Go(g)) && PlainStream(site, s, k)
    ensures PlainStream(site, DoorDo(site, s, o, Go(g)), k)
  {
    assert OfferOk(site, s, o);
    assert !g.Add? ==> DoorDo(site, s, o, Go(g)).bus.stream == s.bus.stream;
  }

  /** A step appends at most one record, and only the consumer's own append can add a
      copy of `k`, made for an entry of `k` with no evidence in the way. */
  lemma CopyNeedsNoEvidence(site: Site, s: State, x: Step, k: string)
    requires Inv(site, s) && Enabled(site, s, x) && PlainStep(site, x, k) && PlainStream(site, s, k)
    ensures var t := Do(site, s, x);
      || Copies(site, t.ledger, k) == Copies(site, s.ledger, k)
      || (Copies(site, t.ledger, k) == Copies(site, s.ledger, k) + 1 && !Evidence(s, k))
  {
    var t := Do(site, s, x);
    if x.Con? && x.c.Work? && x.c.w.Append? {
      AppendCopies(site, s, x.c.w, k);
    } else if x.Env? && x.e.OtherWrite? {
      CopiesAppend(site, s.ledger, x.e.d, k);
    } else {
      LedgerUntouched(site, s, x);
    }
  }

  lemma AppendCopies(site: Site, s: State, w: WorkStep, k: string)
    requires IdsOk(s) && ConsEnabled(s, Work(w)) && w.Append? && PlainStream(site, s, k)
    ensures var t := ConsDo(site, s, Work(w));
      || Copies(site, t.ledger, k) == Copies(site, s.ledger, k)
      || (Copies(site, t.ledger, k) == Copies(site, s.ledger, k) + 1 && !Evidence(s, k))
  {
    var id, n := s.cons.pc.id, s.cons.pc.n;
    var d := RecsAt(s, id)[n];
    var t := ConsDo(site, s, Work(w));
    assert t.ledger == if w.r.Landed() then s.ledger + [d] else s.ledger;
    CopiesAppend(site, s.ledger, d, k);
    assert PlainRaw(site, s.bus.stream[id], k);
    if ClaimOn(site, d) == Some(k) { assert OnKey(s, k) && n == 0; }
  }

  lemma LedgerUntouched(site: Site, s: State, x: Step)
    requires Enabled(site, s, x)
    requires !(x.Con? && x.c.Work? && x.c.w.Append?) && !(x.Env? && x.e.OtherWrite?)
    ensures Do(site, s, x).ledger == s.ledger
  {
    match x
    case Env(e) =>
    case Con(c) => if c.Work? { WorkLedger(site, s, c.w); }
    case Doo(o, d) =>
  }

  lemma WorkLedger(site: Site, s: State, w: WorkStep)
    requires ConsEnabled(s, Work(w)) && !w.Append?
    ensures ConsDo(site, s, Work(w)).ledger == s.ledger
  {
  }

  lemma {:induction false} CopiesGrowth(site: Site, s: State, run: seq<Step>, k: string)
    requires Good(site) && Inv(site, s) && Possible(site, s, run) && PlainStream(site, s, k)
    requires forall x :: x in run ==> PlainStep(site, x, k)
    ensures Copies(site, After(site, s, run).ledger, k) + (if Evidence(s, k) then 1 else 0)
         <= Copies(site, s.ledger, k) + Faults(site, s, run, k) + 1
    decreases |run|
  {
    if run != [] {
      var t := Do(site, s, run[0]);
      InvKept(site, s, run[0]);
      StepGrowth(site, s, run[0], k);
      assert forall x :: x in run[1..] ==> x in run;
      CopiesGrowth(site, t, run[1..], k);
    }
  }

  lemma StepGrowth(site: Site, s: State, x: Step, k: string)
    requires Inv(site, s) && Enabled(site, s, x) && PlainStep(site, x, k) && PlainStream(site, s, k)
    ensures var t := Do(site, s, x);
      && PlainStream(site, t, k)
      && Copies(site, t.ledger, k) + (if Evidence(s, k) then 1 else 0)
           <= Copies(site, s.ledger, k) + (if Evidence(t, k) then 1 else 0) + (if Fault(site, s, x, k) then 1 else 0)
  {
    PlainKept(site, s, x, k);
    CopyNeedsNoEvidence(site, s, x, k);
  }

  // ---- which steps can be faults ----

  predicate MarkLost(s: State, t: State, k: string) { Marked(s.mem.lru, k) && !Marked(t.mem.lru, k) }

  /** The consumer's own step for an entry of the key failed, or met a degraded flag
      that another goroutine has moved, or found the Redis key gone again. */
  predicate WindowMoved(s: State, w: WorkStep)
    requires ConsEnabled(s, Work(w))
  {
    match w
    case RedisGet(r) => !r.Ok() || s.mem.degraded
    case LruGet => !s.mem.degraded
    case Append(r) => !r.Ok()
    case CheckFlag => s.mem.degraded
    case SetX(r) => !r.Ok() || s.mem.degraded
    case SetN(r) => !r.Ok() || s.mem.degraded
    case Force(r) => !r.Ok() || s.mem.degraded || KeyAt(s, s.cons.pc.id) !in s.bus.keys
    case _ => false
  }

  /** The losses the protocol knows: the trust window closing over a restored key, the
      degraded flag moving, Redis losing the key, a rewire or crash, a command of the
      consumer failing or meeting a degraded window, the fallback dropping the key's
      mark, a release deleting the claim. */
  predicate KnownLoss(site: Site, s: State, x: Step, k: string)
    requires Enabled(site, s, x)
  {
    match x
    case Env(Tick(to)) => k in s.mem.restored && s.now < s.mem.trustUntil <= to
    case Env(Flip(b)) => b != s.mem.degraded
    case Env(LoseKeys(gone)) => k in gone
    case Env(Rewire(_)) => true
    case Env(Crash(_)) => true
    case Env(_) => false
    case Con(Work(w)) => (OnKey(s, k) && WindowMoved(s, w)) || MarkLost(s, Do(site, s, x), k)
    case Con(_) => false
    case Doo(o, Go(ReleaseDel(_))) => s.offers[o].key == k
    case Doo(o, _) => MarkLost(s, Do(site, s, x), k)
  }

  function Losses(site: Site, s: State, run: seq<Step>, k: string): nat
    requires Possible(site, s, run)
    decreases |run|
  {
    if run == [] then 0
    else (if KnownLoss(site, s, run[0], k) then 1 else 0) + Losses(site, Do(site, s, run[0]), run[1..], k)
  }

  /** A check that has passed the trust question stays untrusted: only a rewire opens a
      trust window, and it waits for the consumer to stop. */
  ghost predicate NotTrustedInCheck(s: State) {
    s.cons.Busy? && s.cons.pc.AskFlag? ==> !TrustedNow(s, KeyAt(s, s.cons.pc.id))
  }

  lemma NotTrustedKept(site: Site, s: State, x: Step)
    requires IdsOk(s) && Enabled(site, s, x) && NotTrustedInCheck(s)
    ensures NotTrustedInCheck(Do(site, s, x))
  {
    match x
    case Env(e) =>
    case Con(c) => if c.Work? { WorkNotTrusted(site, s, c.w); }
    case Doo(o, d) =>
  }

  lemma WorkNotTrusted(site: Site, s: State, w: WorkStep)
    requires ConsEnabled(s, Work(w))
    ensures NotTrustedInCheck(ConsDo(site, s, Work(w)))
  {
  }

  lemma FaultsAreKnown(site: Site, s: State, x: Step, k: string)
    requires site.cap >= 1 && Inv(site, s) && Enabled(site, s, x) && PlainStep(site, x, k) && PlainStream(site, s, k)
    requires NotTrustedInCheck(s) && Fault(site, s, x, k)
    ensures KnownLoss(site, s, x, k)
  {
    match x
    case Env(e) => EnvFault(site, s, e, k);
    case Con(c) => if c.Work? { WorkFault(site, s, c.w, k); } else { IdleFault(site, s, c, k); }
    case Doo(o, d) => DoorFault(site, s, o, d, k);
  }

  lemma EnvFault(site: Site, s: State, e: EnvStep, k: string)
    requires IdsOk(s) && EnvEnabled(s, e) && PlainStep(site, Env(e), k) && Fault(site, s, Env(e), k)
    ensures KnownLoss(site, s, Env(e), k)
  {
    if e.OtherWrite? { CopiesAppend(site, s.ledger, e.d, k); }
  }

  lemma IdleFault(site: Site, s: State, c: ConsStep, k: string)
    requires ConsEnabled(s, c) && !c.Work?
    ensures !Fault(site, s, Con(c), k)
  {
  }

  /** The sources of evidence after a step that moves on from `pc` to the consumer's
      next point. */
  predicate SameSources(s: State, t: State, k: string) {
    && t.bus.stream == s.bus.stream && t.mem.degraded == s.mem.degraded && t.now == s.now
    && t.mem.restored == s.mem.restored && t.mem.trustUntil == s.mem.trustUntil
    && (Marked(s.mem.lru, k) ==> Marked(t.mem.lru, k))
    && (InRedis(s, k) ==> InRedis(t, k))
  }

  lemma WorkSources(site: Site, s: State, w: WorkStep, k: string)
    requires ConsEnabled(s, Work(w)) && MemOk(site, s.mem) && site.cap >= 1
    ensures var t := ConsDo(site, s, Work(w)); SameSources(s, t, k) || MarkLost(s, t, k)
  {
    if w.LruGet? { TouchedFacts(s.mem.lru, KeyAt(s, s.cons.pc.id)); }
    if w.PutMark? { StoredFacts(s.mem.lru, site.cap, KeyAt(s, s.cons.pc.id), Appended); }
  }

  lemma WorkFault(site: Site, s: State, w: WorkStep, k: string)
    requires site.cap >= 1 && Inv(site, s) && ConsEnabled(s, Work(w)) && PlainStream(site, s, k)
    requires NotTrustedInCheck(s) && Fault(site, s, Con(Work(w)), k)
    ensures KnownLoss(site, s, Con(Work(w)), k)
  {
    WorkSources(site, s, w, k);
    if w.Append? { AppendFault(site, s, w, k); }
    else {
      WorkLedger(site, s, w);
      if !MarkLost(s, ConsDo(site, s, Work(w)), k) {
        if !OnKey(s, k) { OtherWork(site, s, w, k); }
        else if !WindowMoved(s, w) { KeyWork(site, s, w, k); }
      }
    }
  }

  lemma AppendFault(site: Site, s: State, w: WorkStep, k: string)
    requires ConsEnabled(s, Work(w)) && w.Append? && PlainStream(site, s, k)
    requires Fault(site, s, Con(Work(w)), k)
    ensures OnKey(s, k) && WindowMoved(s, w)
  {
    var id := s.cons.pc.id;
    assert PlainRaw(site, s.bus.stream[id], k);
    CopiesAppend(site, s.ledger, RecsAt(s, id)[s.cons.pc.n], k);
  }

  /** Work on another entry leaves the key's evidence alone. */
  lemma OtherWork(site: Site, s: State, w: WorkStep, k: string)
    requires ConsEnabled(s, Work(w)) && !OnKey(s, k) && Evidence(s, k)
    requires SameSources(s, ConsDo(site, s, Work(w)), k)
    ensures Evidence(ConsDo(site, s, Work(w)), k)
  {
    var t := ConsDo(site, s, Work(w));
    assert Answered(t, k);
    OtherMoves(site, s, w, k);
  }

  lemma OtherMoves(site: Site, s: State, w: WorkStep, k: string)
    requires ConsEnabled(s, Work(w)) && !OnKey(s, k)
    ensures var t := ConsDo(site, s, Work(w)); !OnKey(t, k) || t.cons.pc.AskTrust?
  {
  }

  /** Work on an entry of the key keeps its evidence unless a command fails. */
  lemma KeyWork(site: Site, s: State, w: WorkStep, k: string)
    requires Inv(site, s) && ConsEnabled(s, Work(w)) && !w.Append? && OnKey(s, k) && Evidence(s, k)
    requires NotTrustedInCheck(s) && !WindowMoved(s, w)
    requires SameSources(s, ConsDo(site, s, Work(w)), k)
    ensures Evidence(ConsDo(site, s, Work(w)), k)
  {
    match w
    case TrustCheck => CheckKeeps(site, s, w, k);
    case FlagCheck => CheckKeeps(site, s, w, k);
    case RedisGet(r) => CheckKeeps(site, s, w, k);
    case LruGet => CheckKeeps(site, s, w, k);
    case _ => MarkKeeps(site, s, w, k);
  }

  predicate Asks(w: WorkStep) { w.TrustCheck? || w.FlagCheck? || w.RedisGet? || w.LruGet? }

  lemma CheckKeeps(site: Site, s: State, w: WorkStep, k: string)
    requires Inv(site, s) && ConsEnabled(s, Work(w)) && Asks(w) && OnKey(s, k) && Evidence(s, k)
    requires NotTrustedInCheck(s) && !WindowMoved(s, w)
    requires SameSources(s, ConsDo(site, s, Work(w)), k)
    ensures Evidence(ConsDo(site, s, Work(w)), k)
  {
    if w.LruGet? && Marked(s.mem.lru, k) { UniquePhase(s.mem.lru, k); }
  }

  lemma MarkKeeps(site: Site, s: State, w: WorkStep, k: string)
    requires ConsEnabled(s, Work(w)) && !w.Append? && !Asks(w) && OnKey(s, k) && Evidence(s, k)
    requires !WindowMoved(s, w)
    requires SameSources(s, ConsDo(site, s, Work(w)), k)
    ensures Evidence(ConsDo(site, s, Work(w)), k)
  {
  }

  lemma DoorFault(site: Site, s: State, o: nat, d: DoorStep, k: string)
    requires IdsOk(s) && DoorEnabled(site, s, o, d) && Fault(site, s, Doo(o, d), k)
    ensures KnownLoss(site, s, Doo(o, d), k)
  {
    if d.Go? { OfferFault(site, s, o, d.g, k); }
  }

  lemma OfferFault(site: Site, s: State, o: nat, g: OfferStep, k: string)
    requires IdsOk(s) && DoorEnabled(site, s, o, Go(g))
    ensures var t := DoorDo(site, s, o, Go(g));
      && t.ledger == s.ledger
      && ((g.ReleaseDel? && s.offers[o].key == k) || MarkLost(s, t, k) || (Evidence(s, k) ==> Evidence(t, k)))
  {
    OfferSources(site, s, o, g, k);
    var t := DoorDo(site, s, o, Go(g));
    if s.cons.Busy? && !s.cons.pc.Take? { assert RawAt(t, s.cons.pc.id) == RawAt(s, s.cons.pc.id); }
  }

  lemma OfferSources(site: Site, s: State, o: nat, g: OfferStep, k: string)
    requires DoorEnabled(site, s, o, Go(g))
    ensures var t := DoorDo(site, s, o, Go(g));
      && t.ledger == s.ledger && t.cons == s.cons && t.mem.degraded == s.mem.degraded && t.now == s.now
      && t.mem.restored == s.mem.restored && t.mem.trustUntil == s.mem.trustUntil
      && (forall i :: 0 <= i < |s.bus.stream| ==> i < |t.bus.stream| && t.bus.stream[i] == s.bus.stream[i])
      && ((g.ReleaseDel? && s.offers[o].key == k) || (InRedis(s, k) ==> InRedis(t, k)))
  {
  }

  // ---- the theorem ----

  lemma {:induction false} FaultsBounded(site: Site, s: State, run: seq<Step>, k: string)
    requires Good(site) && Inv(site, s) && Possible(site, s, run) && PlainStream(site, s, k) && NotTrustedInCheck(s)
    requires forall x :: x in run ==> PlainStep(site, x, k)
    ensures Faults(site, s, run, k) <= Losses(site, s, run, k)
    decreases |run|
  {
    if run != [] {
      var t := Do(site, s, run[0]);
      InvKept(site, s, run[0]);
      PlainKept(site, s, run[0], k);
      NotTrustedKept(site, s, run[0]);
      if Fault(site, s, run[0], k) { FaultsAreKnown(site, s, run[0], k); }
      assert forall x :: x in run[1..] ==> x in run;
      FaultsBounded(site, t, run[1..], k);
    }
  }

  /** Bounded duplicates: over every run in which entries of `k` carry one record, the
      ledger holds at most one copy of `k` plus one for each fault, a step that leaves it
      without evidence, and faults are among the known losses; so a run without such a
      loss appends every key at most once. */
  lemma DuplicatesAreBounded(site: Site, run: seq<Step>, k: string)
    requires Good(site) && Possible(site, Boot(), run)
    requires forall x :: x in run ==> PlainStep(site, x, k)
    ensures Copies(site, After(site, Boot(), run).ledger, k) <= 1 + Faults(site, Boot(), run, k)
    ensures Faults(site, Boot(), run, k) <= Losses(site, Boot(), run, k)
  {
    CopiesGrowth(site, Boot(), run, k);
    FaultsBounded(site, Boot(), run, k);
  }
}
