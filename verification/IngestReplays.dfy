/** What an offer that is answered as a duplicate was a duplicate of: over every run, another
    offer had claimed its key, or a mark of it was made, or a ledger record carries it. */
module IngestReplays {
  import opened Basics
  import opened LruPhases
  import opened DedupGate
  import opened Ingest
  import opened IngestSafety

  /** What a step did to a key: an offer asked Redis for it or put it into the fallback, or
      the consumer marked it; or an offer began. */
  datatype Deed = Asked(o: nat, k: string) | Put(o: nat, k: string) | Mark(k: string) | Born(o: nat) | Nothing

  function DeedOf(site: Site, s: State, x: Step): Deed
    requires Enabled(site, s, x)
  {
    match x
    case Env(_) => Nothing
    case Con(c) => if c.Work? && (c.w.PutMark? || c.w.SetX? || c.w.SetN? || c.w.Force?) then Mark(KeyAt(s, s.cons.pc.id)) else Nothing
    case Doo(o, d) =>
      if d.Begin? then Born(o)
      else if d.g.ClaimSet? then Asked(o, s.offers[o].key)
      else if d.g.ClaimPut? then Put(o, s.offers[o].key)
      else Nothing
  }

  function Deeds(site: Site, s: State, run: seq<Step>): seq<Deed>
    requires Possible(site, s, run)
    decreases |run|
  {
    if run == [] then [] else [DeedOf(site, s, run[0])] + Deeds(site, Do(site, s, run[0]), run[1..])
  }

  predicate About(d: Deed, k: string) { (d.Asked? || d.Put? || d.Mark?) && d.k == k }

  /** The key was claimed or marked. */
  predicate Any(ds: seq<Deed>, k: string) {
    ds != [] && (About(ds[|ds| - 1], k) || Any(ds[..|ds| - 1], k))
  }

  /** It was put into the fallback. */
  predicate AnyPut(ds: seq<Deed>, k: string) {
    ds != [] && ((About(ds[|ds| - 1], k) && !ds[|ds| - 1].Asked?) || AnyPut(ds[..|ds| - 1], k))
  }

  predicate ByOffer(d: Deed, o: nat) { (d.Asked? || d.Put?) && d.o == o }

  /** The key was claimed by another offer than the one now called `o`, or marked. */
  predicate Others(ds: seq<Deed>, o: nat, k: string) {
    ds != [] && var front, d := ds[..|ds| - 1], ds[|ds| - 1];
    if d == Born(o) then Any(front, k) else (About(d, k) && !ByOffer(d, o)) || Others(front, o, k)
  }

  lemma {:induction false} PutIsAny(ds: seq<Deed>, k: string)
    ensures AnyPut(ds, k) ==> Any(ds, k)
  {
    if ds != [] { PutIsAny(ds[..|ds| - 1], k); }
  }

  lemma {:induction false} OthersIsAny(ds: seq<Deed>, o: nat, k: string)
    ensures Others(ds, o, k) ==> Any(ds, k)
  {
    if ds != [] { OthersIsAny(ds[..|ds| - 1], o, k); }
  }

  /** Among the deeds, one about the key by another offer, or by an earlier one of the name. */
  lemma {:induction false} OthersMeans(ds: seq<Deed>, o: nat, k: string) returns (i: nat)
    requires Others(ds, o, k)
    ensures i < |ds| && About(ds[i], k)
    ensures ByOffer(ds[i], o) ==> Born(o) in ds[i + 1..]
  {
    var front, d := ds[..|ds| - 1], ds[|ds| - 1];
    if d == Born(o) {
      i := AnyMeans(front, k);
      assert ds[i + 1..][|ds| - 1 - (i + 1)] == d;
    } else if About(d, k) && !ByOffer(d, o) {
      i := |ds| - 1;
    } else {
      i := OthersMeans(front, o, k);
      assert ds[i + 1..] == front[i + 1..] + [d];
    }
  }

  lemma {:induction false} AnyMeans(ds: seq<Deed>, k: string) returns (i: nat)
    requires Any(ds, k)
    ensures i < |ds| && About(ds[i], k)
  {
    if About(ds[|ds| - 1], k) { i := |ds| - 1; } else { i := AnyMeans(ds[..|ds| - 1], k); }
  }

  lemma Snoc(ds: seq<Deed>, d: Deed, o: nat, k: string)
    ensures Any(ds + [d], k) <==> About(d, k) || Any(ds, k)
    ensures AnyPut(ds + [d], k) <==> (About(d, k) && !d.Asked?) || AnyPut(ds, k)
    ensures Others(ds + [d], o, k) <==> if d == Born(o) then Any(ds, k) else (About(d, k) && !ByOffer(d, o)) || Others(ds, o, k)
    ensures Others(ds, o, k) ==> Others(ds + [d], o, k)
  {
    assert (ds + [d])[..|ds|] == ds;
    OthersIsAny(ds, o, k);
  }

  // ---- where the gate's keys come from ----

  /** A key the gate's fallback holds was put there, or came from the ledger. */
  ghost predicate FallbackFrom(site: Site, s: State, ds: seq<Deed>) {
    && MemOk(site, s.mem)
    && (forall k :: k in s.mem.restored ==> HasClaim(site, s.ledger, k))
    && (forall k :: Has(s.mem.lru, k) ==> HasClaim(site, s.ledger, k) || AnyPut(ds, k))
  }

  ghost predicate RedisFrom(s: State, ds: seq<Deed>) { forall k :: k in s.bus.keys ==> Any(ds, k) }

  /** Until it asks, an offer has claimed nothing; until it puts, it has put nothing; and
      what tells it that its key is taken is somebody else's. */
  ghost predicate OfferFrom(site: Site, s: State, ds: seq<Deed>, o: nat)
    requires o in s.offers
  {
    var f := s.offers[o];
    && f.gen <= s.gen
    && (f.pc.CTrust? || f.pc.CSet? ==> (Any(ds, f.key) ==> Others(ds, o, f.key)))
    && (f.pc.CPut? ==> (AnyPut(ds, f.key) ==> Others(ds, o, f.key)))
    && (f.pc == CPut(Some(false)) || (f.pc.Replayed? && f.gen == s.gen) ==> HasClaim(site, s.ledger, f.key) || Others(ds, o, f.key))
  }

  ghost predicate Linked(site: Site, s: State, ds: seq<Deed>) {
    FallbackFrom(site, s, ds) && RedisFrom(s, ds) && forall o :: o in s.offers ==> OfferFrom(site, s, ds, o)
  }

  lemma FallbackKept(site: Site, s: State, ds: seq<Deed>, x: Step)
    requires site.cap >= 1 && FallbackFrom(site, s, ds) && Enabled(site, s, x)
    ensures FallbackFrom(site, Do(site, s, x), ds + [DeedOf(site, s, x)])
  {
    var t, d := Do(site, s, x), DeedOf(site, s, x);
    StepGrows(site, s, x);
    FallbackMoves(site, s, x);
    forall k | k in t.mem.restored ensures HasClaim(site, t.ledger, k) { ClaimStays(site, s.ledger, t.ledger, k); }
    forall k | Has(t.mem.lru, k) ensures HasClaim(site, t.ledger, k) || AnyPut(ds + [d], k) {
      Snoc(ds, d, 0, k);
      ClaimStays(site, s.ledger, t.ledger, k);
    }
  }

  lemma ClaimStays(site: Site, a: seq<Draft>, b: seq<Draft>, k: string)
    requires forall d :: d in a ==> d in b
    ensures HasClaim(site, a, k) ==> HasClaim(site, b, k)
  {
  }

  lemma FallbackMoves(site: Site, s: State, x: Step)
    requires site.cap >= 1 && MemOk(site, s.mem) && Enabled(site, s, x)
    ensures var t, d := Do(site, s, x), DeedOf(site, s, x);
      && MemOk(site, t.mem)
      && (forall k :: k in t.mem.restored ==> k in s.mem.restored || HasClaim(site, s.ledger, k))
      && (forall k :: Has(t.mem.lru, k) ==> Has(s.mem.lru, k) || HasClaim(site, s.ledger, k) || (About(d, k) && !d.Asked?))
  {
    match x
    case Env(e) => if e.Rewire? || e.Crash? { RewarmedOk(site, s, e.upto); }
    case Con(c) => if c.Work? { WorkMoves(site, s, c.w); }
    case Doo(o, d) => if d.Go? { OfferMoves(site, s, o, d.g); }
  }

  lemma WorkMoves(site: Site, s: State, w: WorkStep)
    requires site.cap >= 1 && MemOk(site, s.mem) && ConsEnabled(s, Work(w))
    ensures var t := ConsDo(site, s, Work(w));
      && MemOk(site, t.mem) && t.mem.restored == s.mem.restored
      && (forall k :: Has(t.mem.lru, k) ==> Has(s.mem.lru, k) || (w.PutMark? && k == KeyAt(s, s.cons.pc.id)))
  {
    if w.PutMark? { StoredFacts(s.mem.lru, site.cap, KeyAt(s, s.cons.pc.id), Appended); }
    if w.LruGet? { TouchedFacts(s.mem.lru, KeyAt(s, s.cons.pc.id)); }
  }

  lemma OfferMoves(site: Site, s: State, o: nat, g: OfferStep)
    requires site.cap >= 1 && MemOk(site, s.mem) && DoorEnabled(site, s, o, Go(g))
    ensures var t := DoorDo(site, s, o, Go(g));
      && MemOk(site, t.mem) && t.mem.restored == s.mem.restored
      && (forall k :: Has(t.mem.lru, k) ==> Has(s.mem.lru, k) || (g.ClaimPut? && k == s.offers[o].key))
  {
    if g.ClaimPut? { StoredFacts(s.mem.lru, site.cap, s.offers[o].key, Enqueued); }
    if g.ReleaseMem? { WithoutMembers(s.mem.lru, s.offers[o].key); }
  }

  lemma RedisKept(site: Site, s: State, ds: seq<Deed>, x: Step)
    requires RedisFrom(s, ds) && Enabled(site, s, x)
    ensures RedisFrom(Do(site, s, x), ds + [DeedOf(site, s, x)])
  {
    var t, d := Do(site, s, x), DeedOf(site, s, x);
    RedisMoves(site, s, x);
    forall k | k in t.bus.keys ensures Any(ds + [d], k) { Snoc(ds, d, 0, k); }
  }

  lemma RedisMoves(site: Site, s: State, x: Step)
    requires Enabled(site, s, x)
    ensures forall k :: k in Do(site, s, x).bus.keys ==> k in s.bus.keys || About(DeedOf(site, s, x), k)
  {
    match x
    case Env(e) =>
    case Con(c) => if c.Work? { WorkAsks(site, s, c.w); }
    case Doo(o, d) => if d.Go? { OfferAsks(site, s, o, d.g); }
  }

  lemma WorkAsks(site: Site, s: State, w: WorkStep)
    requires ConsEnabled(s, Work(w))
    ensures forall k :: k in ConsDo(site, s, Work(w)).bus.keys ==>
      k in s.bus.keys || ((w.SetX? || w.SetN? || w.Force?) && k == KeyAt(s, s.cons.pc.id))
  {
  }

  lemma OfferAsks(site: Site, s: State, o: nat, g: OfferStep)
    requires DoorEnabled(site, s, o, Go(g))
    ensures forall k :: k in DoorDo(site, s, o, Go(g)).bus.keys ==> k in s.bus.keys || (g.ClaimSet? && k == s.offers[o].key)
  {
  }

  /** An offer that did not move keeps what is known of it. */
  lemma OfferStays(site: Site, s: State, ds: seq<Deed>, t: State, d: Deed, o: nat)
    requires o in s.offers && OfferFrom(site, s, ds, o) && Grew(s, t) && s.gen <= t.gen
    requires o in t.offers && t.offers[o].pc == s.offers[o].pc && t.offers[o].gen == s.offers[o].gen && t.offers[o].key == s.offers[o].key
    requires !ByOffer(d, o)
    ensures OfferFrom(site, t, ds + [d], o)
  {
    var k := s.offers[o].key;
    Snoc(ds, d, o, k);
    PutIsAny(ds, k);
    ClaimStays(site, s.ledger, t.ledger, k);
  }

  /** The claim of an offer, step by step. */
  lemma OfferClaims(site: Site, s: State, ds: seq<Deed>, o: nat, g: OfferStep)
    requires FallbackFrom(site, s, ds) && RedisFrom(s, ds) && DoorEnabled(site, s, o, Go(g)) && OfferFrom(site, s, ds, o)
    ensures var x := Doo(o, Go(g)); var t := Do(site, s, x);
      o in t.offers && OfferFrom(site, t, ds + [DeedOf(site, s, x)], o)
  {
    var k := s.offers[o].key;
    Snoc(ds, DeedOf(site, s, Doo(o, Go(g))), o, k);
    PutIsAny(ds, k);
    OfferKeepsLedger(site, s, o, g);
    match g
    case ClaimTrust(_) =>
    case ClaimSet(_) =>
    case ClaimPut(_) =>
    case _ => LaterMoves(site, s, o, g);
  }

  lemma OfferKeepsLedger(site: Site, s: State, o: nat, g: OfferStep)
    requires DoorEnabled(site, s, o, Go(g))
    ensures var t := DoorDo(site, s, o, Go(g));
      t.ledger == s.ledger && t.gen == s.gen && o in t.offers && t.offers[o].key == s.offers[o].key && t.offers[o].gen == s.offers[o].gen
  {
  }

  lemma LaterMoves(site: Site, s: State, o: nat, g: OfferStep)
    requires DoorEnabled(site, s, o, Go(g)) && !g.ClaimTrust? && !g.ClaimSet? && !g.ClaimPut?
    ensures var f := DoorDo(site, s, o, Go(g)).offers[o]; !f.pc.CTrust? && !f.pc.CSet? && !f.pc.CPut? && !f.pc.Replayed?
  {
    OfferKeepsLedger(site, s, o, g);
  }

  lemma LinkedKept(site: Site, s: State, ds: seq<Deed>, x: Step)
    requires site.cap >= 1 && Linked(site, s, ds) && Enabled(site, s, x)
    ensures Linked(site, Do(site, s, x), ds + [DeedOf(site, s, x)])
  {
    FallbackKept(site, s, ds, x);
    RedisKept(site, s, ds, x);
    var t, d := Do(site, s, x), DeedOf(site, s, x);
    forall o | o in t.offers ensures OfferFrom(site, t, ds + [d], o) { OfferKept(site, s, ds, x, o); }
  }

  lemma OfferKept(site: Site, s: State, ds: seq<Deed>, x: Step, o: nat)
    requires Linked(site, s, ds) && Enabled(site, s, x) && o in Do(site, s, x).offers
    ensures OfferFrom(site, Do(site, s, x), ds + [DeedOf(site, s, x)], o)
  {
    var t, d := Do(site, s, x), DeedOf(site, s, x);
    StepGrows(site, s, x);
    if x.Doo? && x.o == o {
      if x.d.Begin? { Snoc(ds, d, o, t.offers[o].key); }
      else { OfferClaims(site, s, ds, o, x.d.g); }
    } else {
      NotMoved(site, s, x, o);
      OfferStays(site, s, ds, t, d, o);
    }
  }

  lemma NotMoved(site: Site, s: State, x: Step, o: nat)
    requires Enabled(site, s, x) && o in Do(site, s, x).offers && !(x.Doo? && x.o == o)
    ensures var t := Do(site, s, x);
      o in s.offers && t.offers[o].pc == s.offers[o].pc && t.offers[o].gen == s.offers[o].gen && t.offers[o].key == s.offers[o].key
  {
    match x
    case Env(e) =>
    case Con(c) => ConsOffers(site, s, c);
    case Doo(q, d) => OthersUntouched(site, s, q, d);
  }

  lemma {:induction false} LinkedHolds(site: Site, s: State, ds: seq<Deed>, run: seq<Step>)
    requires site.cap >= 1 && Linked(site, s, ds) && Possible(site, s, run)
    ensures Linked(site, After(site, s, run), ds + Deeds(site, s, run))
    decreases |run|
  {
    if run == [] {
      assert ds + [] == ds;
    } else {
      var d := DeedOf(site, s, run[0]);
      LinkedKept(site, s, ds, run[0]);
      LinkedHolds(site, Do(site, s, run[0]), ds + [d], run[1..]);
      assert ds + ([d] + Deeds(site, Do(site, s, run[0]), run[1..])) == ds + [d] + Deeds(site, Do(site, s, run[0]), run[1..]);
    }
  }

  /** No offer is told that it is a duplicate for nothing: over every run, one of the current
      wiring that was so answered had its key claimed by another offer or marked before, or
      a ledger record carries it. */
  lemma DuplicateHasAnOriginal(site: Site, run: seq<Step>, o: nat)
    requires Good(site) && Possible(site, Boot(), run)
    ensures var s := After(site, Boot(), run);
      o in s.offers && s.offers[o].pc.Replayed? && s.offers[o].gen == s.gen ==>
        HasClaim(site, s.ledger, s.offers[o].key) || Others(Deeds(site, Boot(), run), o, s.offers[o].key)
  {
    LinkedHolds(site, Boot(), [], run);
    assert [] + Deeds(site, Boot(), run) == Deeds(site, Boot(), run);
    var s := After(site, Boot(), run);
    if o in s.offers { assert OfferFrom(site, s, Deeds(site, Boot(), run), o); }
  }
}
