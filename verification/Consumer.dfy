/** The consumer's loops (internal/hub/consume.go), taking the steps of the ingestion
    protocol one by one. Whatever Redis, the senders and the clock do in between is an
    input, so what the protocol keeps on every run holds of everything these methods do. */
module Consumer {
  import opened Basics
  import opened DedupGate
  import opened Ingest
  import opened IngestSafety

  /** What the world does before one of the consumer's commands, and how that command
      ends: how many new entries a read returns, which pending ones a claim takes over,
      and whether a refused claim was an authentication matter. */
  datatype Moment = Moment(others: seq<Step>, reply: Reply, count: nat, claim: seq<nat>, auth: bool)

  const STRANDED_ROUNDS := 3

  /** A step taken by someone else while the consumer runs: a wiring change or a crash
      would end it. */
  predicate Outside(x: Step) {
    match x
    case Env(e) => !e.Rewire? && !e.Crash?
    case Con(_) => false
    case Doo(_, _) => true
  }

  /** No entry is acked, and the entries already added and the records stay. */
  predicate Kept(s: State, t: State) {
    && s.ledger <= t.ledger && s.full.Keys <= t.full.Keys
    && t.bus.acked == s.bus.acked && s.bus.dead <= t.bus.dead && s.bus.next <= t.bus.next && |s.bus.stream| <= |t.bus.stream|
    && (forall i :: 0 <= i < |s.bus.stream| ==> t.bus.stream[i] == s.bus.stream[i])
  }

  /** The consumer's work on an entry moves nothing of the group. */
  predicate Still(s: State, t: State) {
    t.bus.stream == s.bus.stream && t.bus.next == s.bus.next && t.bus.pending == s.bus.pending && t.bus.acked == s.bus.acked
  }

  lemma OutsideKeeps(site: Site, s: State, x: Step)
    requires Outside(x) && Enabled(site, s, x) && IdsOk(s)
    ensures Do(site, s, x).cons == s.cons && Kept(s, Do(site, s, x))
  {
    if x.Doo? && x.d.Go? { OfferKeeps(site, s, x.o, x.d.g); }
  }

  lemma OfferKeeps(site: Site, s: State, o: nat, g: OfferStep)
    requires DoorEnabled(site, s, o, Go(g))
    ensures DoorDo(site, s, o, Go(g)).cons == s.cons && Kept(s, DoorDo(site, s, o, Go(g)))
  {
  }

  lemma WorkKeeps(site: Site, s: State, w: WorkStep)
    requires ConsEnabled(s, Work(w))
    ensures Kept(s, ConsDo(site, s, Work(w))) && Still(s, ConsDo(site, s, Work(w)))
  {
  }

  lemma StillEnabled(s: State, t: State, w: WorkStep)
    requires t.cons == s.cons && Kept(s, t) && ConsEnabled(s, Work(w)) && (s.cons.pc.Take? || s.cons.pc.id < |s.bus.stream|)
    ensures ConsEnabled(t, Work(w))
  {
  }

  lemma KeptBacked(site: Site, s: State, t: State, k: string)
    requires Kept(s, t) && Backed(site, s, k)
    ensures Backed(site, t, k)
  {
    if HasClaim(site, s.ledger, k) {
      var d :| d in s.ledger && ClaimOn(site, d) == Some(k);
      assert d in t.ledger;
    }
  }

  /** The state is what the run made of an empty world. */
  ghost predicate Ran(site: Site, run: seq<Step>, t: State) { forall s :: s == Boot() ==> Leads(site, s, run, t) }

  lemma RanInv(site: Site, run: seq<Step>, t: State)
    requires Good(site) && Ran(site, run, t)
    ensures Inv(site, t)
  {
    assert Leads(site, Boot(), run, t);
    InvHolds(site, Boot(), run);
  }

  lemma RanIds(site: Site, run: seq<Step>, t: State)
    requires Good(site) && Ran(site, run, t)
    ensures IdsOk(t)
  {
    RanInv(site, run, t);
  }

  lemma RanOn(site: Site, run: seq<Step>, t: State, x: Step)
    requires Ran(site, run, t) && Enabled(site, t, x)
    ensures Ran(site, run + [x], Do(site, t, x))
  {
    assert Leads(site, Boot(), run, t);
    RunExtends(site, Boot(), run, x);
  }

  lemma SkippedIsBacked(site: Site, run: seq<Step>, s: State, todo: seq<nat>, done: seq<nat>, id: nat)
    requires Good(site) && Ran(site, run, s) && s.cons == Busy(todo, done, Tell(id, Skipped))
    ensures Backed(site, s, KeyAt(s, id))
  {
    RanInv(site, run, s);
  }

  /** The records stand in the ledger in their order, with others between them perhaps. */
  ghost predicate Follows(recs: seq<Draft>, ledger: seq<Draft>)
    decreases |recs|
  {
    recs == [] || exists i :: 0 <= i < |ledger| && ledger[i] == recs[|recs| - 1] && Follows(recs[..|recs| - 1], ledger[..i])
  }

  lemma FollowsLonger(recs: seq<Draft>, a: seq<Draft>, b: seq<Draft>)
    requires Follows(recs, a) && a <= b
    ensures Follows(recs, b)
  {
    if recs != [] {
      var i :| 0 <= i < |a| && a[i] == recs[|recs| - 1] && Follows(recs[..|recs| - 1], a[..i]);
      assert b[..i] == a[..i];
    }
  }

  lemma FollowsNext(recs: seq<Draft>, n: nat, ledger: seq<Draft>)
    requires n < |recs| && Follows(recs[..n], ledger)
    ensures Follows(recs[..n + 1], ledger + [recs[n]])
  {
    var more := recs[..n + 1];
    assert more[..|more| - 1] == recs[..n];
    assert (ledger + [recs[n]])[..|ledger|] == ledger;
  }

  lemma TailGrows(n: nat, a: seq<Draft>, b: seq<Draft>)
    requires n <= |a| && a <= b
    ensures a[n..] <= b[n..]
  {
  }

  lemma {:induction false} FollowsAllIn(recs: seq<Draft>, ledger: seq<Draft>, was: nat)
    requires was <= |ledger| && Follows(recs, ledger[was..])
    ensures AllIn(recs, ledger)
  {
    FollowsMembers(recs, ledger[was..]);
  }

  lemma {:induction false} FollowsMembers(recs: seq<Draft>, ledger: seq<Draft>)
    requires Follows(recs, ledger)
    ensures AllIn(recs, ledger)
    decreases |recs|
  {
    if recs != [] {
      var i :| 0 <= i < |ledger| && ledger[i] == recs[|recs| - 1] && Follows(recs[..|recs| - 1], ledger[..i]);
      FollowsMembers(recs[..|recs| - 1], ledger[..i]);
      assert recs == recs[..|recs| - 1] + [recs[|recs| - 1]];
    }
  }

  lemma AppendedOne(recs: seq<Draft>, n: nat, was: nat, before: seq<Draft>, met: seq<Draft>)
    requires n < |recs| && was <= |before| && before <= met && Follows(recs[..n], before[was..])
    ensures Follows(recs[..n + 1], (met + [recs[n]])[was..])
  {
    TailGrows(was, before, met);
    FollowsLonger(recs[..n], before[was..], met[was..]);
    FollowsNext(recs, n, met[was..]);
    assert (met + [recs[n]])[was..] == met[was..] + [recs[n]];
  }

  /** The consumer's own commands in a run. */
  function Mine(run: seq<Step>): seq<WorkStep> {
    if run == [] then []
    else
      var last := run[|run| - 1];
      Mine(run[..|run| - 1]) + if last.Con? && last.c.Work? then [last.c.w] else []
  }

  lemma MineNext(run: seq<Step>, x: Step)
    ensures Mine(run + [x]) == Mine(run) + if x.Con? && x.c.Work? then [x.c.w] else []
  {
    assert (run + [x])[..|run|] == run;
  }

  /** Memory first; then Redis unless the window is degraded: overwrite the key, create it
      only if that was answered and found none, overwrite again only if it is there by then. */
  predicate MarkCommands(m: seq<WorkStep>) {
    && 2 <= |m| <= 5 && m[0] == PutMark && m[1] == CheckFlag
    && (|m| > 2 ==> m[2].SetX?)
    && (|m| > 3 ==> m[2].r.Ok() && m[3].SetN?)
    && (|m| > 4 ==> m[3].r.Ok() && m[4].Force?)
  }

  /** The consumer stands at `pc` inside a batch, on an entry that exists. */
  predicate Stands(s: State, todo: seq<nat>, done: seq<nat>, pc: Pc) {
    s.cons == Busy(todo, done, pc) && (pc.Take? || pc.id < |s.bus.stream|)
  }

  /** What the stranded counter looks at: a round that took entries back, or a sign of
      progress (nothing pending, or a batch acked whole). */
  datatype Round = Took | Progress

  function Streak(log: seq<Round>): nat {
    if log == [] || log[|log| - 1].Progress? then 0 else 1 + Streak(log[..|log| - 1])
  }

  /** The rounds that were at least the third in a row without progress. */
  function Alarms(log: seq<Round>): nat {
    if log == [] then 0
    else Alarms(log[..|log| - 1]) + if Streak(log) >= STRANDED_ROUNDS then 1 else 0
  }

  lemma Logged(log: seq<Round>, r: Round)
    ensures Streak(log + [r]) == if r.Took? then Streak(log) + 1 else 0
    ensures Alarms(log + [r]) == Alarms(log) + if Streak(log + [r]) >= STRANDED_ROUNDS then 1 else 0
  {
    assert (log + [r])[..|log|] == log;
  }

  function Elements(ids: seq<nat>): set<nat> { set id | id in ids }

  function Between(from: nat, to: nat): (ids: set<nat>)
    ensures forall id: nat :: id in ids <==> from <= id < to
  {
    if to <= from then {} else Between(from, to - 1) + {to - 1}
  }

  predicate Onward(s: State, t: State) { s.bus.next <= t.bus.next && |s.bus.stream| <= |t.bus.stream| }

  /** Nothing happened to the group but that `ids` were acked. */
  predicate AckedInPeace(s: State, t: State, ids: set<nat>) {
    && t.bus.stream == s.bus.stream && t.bus.next == s.bus.next
    && t.bus.acked == s.bus.acked + ids && t.bus.pending == s.bus.pending - ids
  }

  /** As many of the next entries as `count` asks for, at least one if there is one, were
      delivered and acked. */
  predicate ReadInPeace(s: State, t: State, read: seq<nat>, count: nat) {
    var n := Min(|s.bus.stream| - s.bus.next, Max(count, 1));
    && n >= 0 && |read| == n && Elements(read) == Between(s.bus.next, s.bus.next + n)
    && t.bus.stream == s.bus.stream && t.bus.next == s.bus.next + n
    && t.bus.acked == s.bus.acked + Elements(read) && t.bus.pending == s.bus.pending - Elements(read)
  }

  predicate FetchedInPeace(s: State, t: State, read: seq<nat>, count: nat) {
    var n := Min(|s.bus.stream| - s.bus.next, Max(count, 1));
    && n >= 0 && |read| == n && Elements(read) == Between(s.bus.next, s.bus.next + n)
    && t.bus.stream == s.bus.stream && t.bus.next == s.bus.next + n
    && t.bus.acked == s.bus.acked && t.bus.pending == s.bus.pending + Elements(read)
  }

  /** From nothing pending, `turns` turns later. */
  predicate Onwards(s: State, t: State, turns: nat) {
    && t.bus.stream == s.bus.stream && t.bus.pending == {} && s.bus.next <= t.bus.next <= |s.bus.stream|
    && t.bus.acked == s.bus.acked + Between(s.bus.next, t.bus.next)
    && t.bus.next >= Min(|s.bus.stream|, s.bus.next + turns)
  }

  predicate AllAcked(s: State, t: State) {
    && t.bus.stream == s.bus.stream && t.bus.pending == {} && t.bus.next == |s.bus.stream|
    && t.bus.acked == s.bus.acked + s.bus.pending + Between(s.bus.next, |s.bus.stream|)
  }

  lemma IdsBetween(from: nat, n: nat)
    ensures Elements(Ids(from, n)) == Between(from, from + n)
  {
    forall i | from <= i < from + n ensures i in Ids(from, n) { assert Ids(from, n)[i - from] == i; }
  }

  lemma AllReadAtOnce(s: State, b: State, t: State, read: seq<nat>, count: nat)
    requires AckedInPeace(s, b, s.bus.pending) && ReadInPeace(b, t, read, count) && count >= |s.bus.stream|
    ensures AllAcked(s, t)
  {
  }

  lemma OneRead(s: State, t: State, read: seq<nat>, count: nat)
    requires s.bus.pending == {} && ReadInPeace(s, t, read, count)
    ensures Onwards(s, t, 1)
  {
  }

  lemma TurnInPeace(s: State, b: State, t: State, taken: set<nat>, read: seq<nat>, count: nat)
    requires AckedInPeace(s, b, taken) && ReadInPeace(b, t, read, count)
    ensures s.bus.pending == {} && taken == {} ==> Onwards(s, t, 1)
    ensures s.bus.pending == taken && count >= |s.bus.stream| ==> AllAcked(s, t)
  {
    if s.bus.pending == {} && taken == {} { OneRead(b, t, read, count); }
    if s.bus.pending == taken && count >= |s.bus.stream| { AllReadAtOnce(s, b, t, read, count); }
  }

  lemma OneMoreTurn(s: State, b: State, t: State, turns: nat)
    requires Onwards(b, t, 1)
    ensures Onwards(s, b, turns) ==> Onwards(s, t, turns + 1)
    ensures AllAcked(s, b) ==> AllAcked(s, t)
  {
    if Onwards(s, b, turns) {
      assert Between(s.bus.next, b.bus.next) + Between(b.bus.next, t.bus.next) == Between(s.bus.next, t.bus.next);
      assert t.bus.acked == s.bus.acked + (Between(s.bus.next, b.bus.next) + Between(b.bus.next, t.bus.next));
    }
  }

  class Consumer {
    const site: Site
    const weather: nat -> Moment
    var tick: nat
    var world: State
    ghost var trace: seq<Step>
    ghost var log: seq<Round>

    var strandRounds: nat
    var acked: nat
    var appended: nat
    var dedupSkips: nat
    var decodeErrors: nat
    var stranded: nat

    /** The world is what the steps taken so far made of an empty one. */
    ghost predicate Valid()
      reads this
    {
      && Good(site) && Ran(site, trace, world)
      && strandRounds == Streak(log) && stranded == Alarms(log)
    }

    /** Nobody else moves, and every command is answered. */
    ghost predicate Calm() { forall n :: weather(n).others == [] && weather(n).reply.Done? }

    /** A consumer is started on whatever earlier ones left: on a stream with entries
        pending, after a crash. */
    constructor (site: Site, weather: nat -> Moment, world: State, ghost before: seq<Step>)
      requires Good(site) && Ran(site, before, world) && world.cons.Idle?
      ensures Valid() && this.site == site && this.weather == weather && this.world == world && strandRounds == 0
      ensures acked == appended == dedupSkips == decodeErrors == stranded == 0
    {
      this.site := site;
      this.weather := weather;
      tick, strandRounds, acked, appended, dedupSkips, decodeErrors, stranded := 0, 0, 0, 0, 0, 0, 0;
      this.world := world;
      trace, log := before, [];
    }

    method Perform(x: Step)
      requires Valid() && Enabled(site, world, x)
      modifies this`world, this`trace
      ensures Valid() && world == Do(site, old(world), x) && trace == old(trace) + [x]
    {
      RanOn(site, trace, world, x);
      trace := trace + [x];
      world := Do(site, world, x);
    }

    method DoWork(w: WorkStep)
      requires Valid() && ConsEnabled(world, Work(w))
      modifies this`world, this`trace
      ensures Valid() && world == WorkDo(site, old(world), old(world.cons.todo), old(world.cons.done), old(world.cons.pc), w)
      ensures Kept(old(world), world) && Still(old(world), world) && Mine(trace) == Mine(old(trace)) + [w]
    {
      MineNext(trace, Con(Work(w)));
      WorkKeeps(site, world, w);
      Perform(Con(Work(w)));
    }

    /** Everyone else moves. */
    method Meanwhile() returns (reply: Reply)
      requires Valid()
      modifies this`world, this`trace, this`tick
      ensures Valid() && world.cons == old(world).cons && Kept(old(world), world) && Mine(trace) == Mine(old(trace))
      ensures tick == old(tick) + 1 && (Calm() ==> reply.Done? && world == old(world))
    {
      var others := weather(tick).others;
      reply := weather(tick).reply;
      tick := tick + 1;
      var i := 0;
      while i < |others|
        invariant i <= |others| && tick == old(tick) + 1 && Valid() && world.cons == old(world).cons && Kept(old(world), world)
        invariant Mine(trace) == Mine(old(trace)) && (i == 0 ==> world == old(world))
      {
        if Outside(others[i]) && Enabled(site, world, others[i]) {
          RanIds(site, trace, world);
          OutsideKeeps(site, world, others[i]);
          MineNext(trace, others[i]);
          Perform(others[i]);
        }
        i := i + 1;
      }
    }

    /** Everyone else moves, and then the consumer gives a command. */
    method Act(w: WorkStep) returns (ghost met: State)
      requires Valid() && ConsEnabled(world, Work(w)) && (world.cons.pc.Take? || world.cons.pc.id < |world.bus.stream|)
      modifies this`world, this`trace, this`tick
      ensures Valid() && tick > old(tick) && Kept(old(world), world) && Mine(trace) == Mine(old(trace)) + [w]
      ensures Calm() ==> Still(old(world), world)
      ensures met.cons == old(world).cons && Kept(old(world), met) && ConsEnabled(met, Work(w))
      ensures world == WorkDo(site, met, met.cons.todo, met.cons.done, met.cons.pc, w)
    {
      var r := Meanwhile();
      met := world;
      StillEnabled(old(world), met, w);
      DoWork(w);
    }

    /** How the next command will end. */
    function Outlook(): Reply
      reads this
    {
      weather(tick).reply
    }

    /** The gate's answer for the entry: trusted index, fallback or Redis. */
    method AskGate(ghost todo: seq<nat>, ghost done: seq<nat>, id: nat) returns (inLedger: bool)
      requires Valid() && Stands(world, todo, done, AskTrust(id))
      modifies this`world, this`trace, this`tick
      ensures Valid() && Kept(old(world), world)
      ensures tick >= old(tick) && (Calm() ==> Still(old(world), world))
      ensures Stands(world, todo, done, if inLedger then Tell(id, Skipped) else Write(id, 0))
    {
      ghost var met := Act(TrustCheck);
      if world.cons.pc.Tell? { return true; }
      inLedger := AskSource(todo, done, id);
    }

    method AskSource(ghost todo: seq<nat>, ghost done: seq<nat>, id: nat) returns (inLedger: bool)
      requires Valid() && Stands(world, todo, done, AskFlag(id))
      modifies this`world, this`trace, this`tick
      ensures Valid() && Kept(old(world), world)
      ensures tick >= old(tick) && (Calm() ==> Still(old(world), world))
      ensures Stands(world, todo, done, if inLedger then Tell(id, Skipped) else Write(id, 0))
    {
      ghost var met := Act(FlagCheck);
      if world.cons.pc.AskRedis? {
        met := Act(RedisGet(Outlook()));
        if !world.cons.pc.AskLru? { return world.cons.pc.Tell?; }
      }
      met := Act(LruGet);
      inLedger := world.cons.pc.Tell?;
    }

    /** Append one record behind those appended so far. */
    method AppendOne(ghost todo: seq<nat>, ghost done: seq<nat>, id: nat, n: nat, ghost was: nat) returns (ok: bool)
      requires Valid() && Stands(world, todo, done, Write(id, n)) && n < |RecsAt(world, id)| && was <= |world.ledger|
      requires Follows(RecsAt(world, id)[..n], world.ledger[was..])
      modifies this`world, this`trace, this`tick
      ensures Valid() && Kept(old(world), world) && tick >= old(tick) && (Calm() ==> Still(old(world), world))
      ensures ok ==> Stands(world, todo, done, Write(id, n + 1)) && Follows(RecsAt(world, id)[..n + 1], world.ledger[was..])
      ensures !ok ==> world.cons == SettleUp(done) && !Calm()
    {
      ok := Outlook().Ok();
      ghost var met := Act(Append(Outlook()));
      if ok { AppendedOne(RecsAt(met, id), n, was, old(world.ledger), met.ledger); }
    }

    /** Append the entry's records in order, stopping at the first that fails. */
    method AppendAll(ghost todo: seq<nat>, ghost done: seq<nat>, id: nat, ghost was: nat) returns (ok: bool)
      requires Valid() && Stands(world, todo, done, Write(id, 0)) && was <= |world.ledger|
      modifies this`world, this`trace, this`tick
      ensures Valid() && Kept(old(world), world)
      ensures tick >= old(tick) && (Calm() ==> Still(old(world), world))
      ensures ok ==> Stands(world, todo, done, MarkMem(id)) && AllIn(RecsAt(world, id), world.ledger)
      ensures ok ==> Follows(RecsAt(world, id), world.ledger[was..])
      ensures !ok ==> world.cons == SettleUp(done) && !Calm()
    {
      var n := 0;
      while n < |RecsAt(world, id)|
        invariant Valid() && Kept(old(world), world) && was <= |world.ledger|
        invariant Calm() ==> Still(old(world), world)
        invariant tick >= old(tick) && n <= |RecsAt(world, id)| && Stands(world, todo, done, Write(id, n))
        invariant Follows(RecsAt(world, id)[..n], world.ledger[was..])
        decreases |RecsAt(old(world), id)| - n
      {
        ok := AppendOne(todo, done, id, n, was);
        if !ok { return; }
        n := n + 1;
      }
      assert RecsAt(world, id)[..n] == RecsAt(world, id);
      FollowsAllIn(RecsAt(world, id), world.ledger, was);
      DoWork(Wrote);
      ok := true;
    }

    /** The claim moves to `appended`: memory first, then Redis unless the window is
        degraded. */
    method MarkAppended(ghost todo: seq<nat>, ghost done: seq<nat>, id: nat) returns (ghost m: seq<WorkStep>)
      requires Valid() && Stands(world, todo, done, MarkMem(id))
      modifies this`world, this`trace, this`tick
      ensures Valid() && Kept(old(world), world)
      ensures tick >= old(tick) && (Calm() ==> Still(old(world), world))
      ensures Stands(world, todo, done, Tell(id, Recs(RecsAt(world, id))))
      ensures Mine(trace) == Mine(old(trace)) + m && MarkCommands(m)
    {
      ghost var met := Act(PutMark);
      met := Act(CheckFlag);
      m := [PutMark, CheckFlag];
      assert Mine(trace) == Mine(old(trace)) + m;
      if world.cons.pc.MarkXX? {
        ghost var more := MarkRedis(todo, done, id);
        assert Mine(trace) == Mine(old(trace)) + (m + more);
        m := m + more;
      }
    }

    /** Overwrite the key if it is there. */
    method MarkRedis(ghost todo: seq<nat>, ghost done: seq<nat>, id: nat) returns (ghost m: seq<WorkStep>)
      requires Valid() && Stands(world, todo, done, MarkXX(id))
      modifies this`world, this`trace, this`tick
      ensures Valid() && Kept(old(world), world)
      ensures tick >= old(tick) && (Calm() ==> Still(old(world), world))
      ensures Stands(world, todo, done, Tell(id, Recs(RecsAt(world, id))))
      ensures Mine(trace) == Mine(old(trace)) + m && MarkCommands([PutMark, CheckFlag] + m)
    {
      m := [SetX(Outlook())];
      ghost var met := Act(SetX(Outlook()));
      if world.cons.pc.MarkNX? {
        ghost var more := CreateKey(todo, done, id);
        m := m + more;
      }
    }

    /** Create the key, and if it is there by then overwrite it. */
    method CreateKey(ghost todo: seq<nat>, ghost done: seq<nat>, id: nat) returns (ghost m: seq<WorkStep>)
      requires Valid() && Stands(world, todo, done, MarkNX(id))
      modifies this`world, this`trace, this`tick
      ensures Valid() && Kept(old(world), world)
      ensures tick >= old(tick) && (Calm() ==> Still(old(world), world))
      ensures Stands(world, todo, done, Tell(id, Recs(RecsAt(world, id))))
      ensures Mine(trace) == Mine(old(trace)) + m && 1 <= |m| <= 2 && m[0].SetN?
      ensures |m| > 1 ==> m[0].r.Ok() && m[1].Force?
    {
      m := [SetN(Outlook())];
      ghost var met := Act(SetN(Outlook()));
      if world.cons.pc.MarkForce? {
        m := m + [Force(Outlook())];
        met := Act(Force(Outlook()));
      }
    }

    /** Tell the door, and hand the answer to the offer that waits for the entry. */
    method CompleteEntry(ghost todo: seq<nat>, ghost done: seq<nat>, id: nat, ghost ans: Ans)
      requires Valid() && Stands(world, todo, done, Tell(id, ans))
      modifies this`world, this`trace, this`tick
      ensures Valid() && Kept(old(world), world)
      ensures tick >= old(tick) && (Calm() ==> Still(old(world), world))
      ensures Stands(world, todo, done + [id], Take)
    {
      ghost var met := Act(Complete);
      if world.cons.pc.Send? { met := Act(Deposit); }
    }

    /** A copy to the dead-letter stream takes the entry's place. */
    method DeadLetterEntry(ghost todo: seq<nat>, ghost done: seq<nat>, id: nat) returns (ok: bool)
      requires Valid() && Stands(world, todo, done, Bury(id))
      modifies this`world, this`trace, this`tick, this`decodeErrors
      ensures Valid() && Kept(old(world), world) && decodeErrors == old(decodeErrors) + 1
      ensures tick >= old(tick) && (Calm() ==> Still(old(world), world))
      ensures ok ==> Stands(world, todo, done + [id], Take) && id in world.bus.dead
      ensures !ok ==> world.cons == SettleUp(done) && !Calm()
    {
      decodeErrors := decodeErrors + 1;
      ok := Outlook().Ok();
      ghost var met := Act(DeadLetter(Outlook()));
      if ok { CompleteEntry(todo, done, id, Refused); }
    }

    /** Bring one entry to its durable state. Exactly one of three things happens to an
        entry that is handled: it is buried, skipped because the ledger holds its key, or
        its records are appended, now and in order. */
    method HandleEntry(ghost todo: seq<nat>, ghost done: seq<nat>, id: nat) returns (ok: bool)
      requires Valid() && Stands(world, [id] + todo, done, Take) && id < |world.bus.stream|
      modifies this`world, this`trace, this`tick, this`decodeErrors, this`dedupSkips, this`appended
      ensures Valid() && Kept(old(world), world)
      ensures tick >= old(tick) && (Calm() ==> Still(old(world), world))
      ensures ok ==> Stands(world, todo, done + [id], Take)
      ensures !ok ==> world.cons == SettleUp(done) && !Calm()
      ensures ok && RawAt(world, id).Garbage? ==>
        id in world.bus.dead && decodeErrors == old(decodeErrors) + 1 && dedupSkips == old(dedupSkips) && appended == old(appended)
      ensures ok && RawAt(world, id).Entry? ==>
        && decodeErrors == old(decodeErrors)
        && ((dedupSkips == old(dedupSkips) + 1 && appended == old(appended) && Backed(site, world, KeyAt(world, id)))
            || (dedupSkips == old(dedupSkips) && appended == old(appended) + |RecsAt(world, id)|
                && Follows(RecsAt(world, id), world.ledger[|old(world.ledger)|..])))
    {
      ghost var was := |world.ledger|;
      DoWork(Next);
      if world.cons.pc.Bury? {
        ok := DeadLetterEntry(todo, done, id);
        return;
      }
      ok := LandEntry(todo, done, id, was);
    }

    /** A decoded entry is skipped or appended. */
    method LandEntry(ghost todo: seq<nat>, ghost done: seq<nat>, id: nat, ghost was: nat) returns (ok: bool)
      requires Valid() && Stands(world, todo, done, AskTrust(id)) && was <= |world.ledger|
      modifies this`world, this`trace, this`tick, this`dedupSkips, this`appended
      ensures Valid() && Kept(old(world), world) && tick >= old(tick) && (Calm() ==> Still(old(world), world))
      ensures ok ==> Stands(world, todo, done + [id], Take)
      ensures !ok ==> world.cons == SettleUp(done) && !Calm()
      ensures ok ==>
        || (dedupSkips == old(dedupSkips) + 1 && appended == old(appended) && Backed(site, world, KeyAt(world, id)))
        || (dedupSkips == old(dedupSkips) && appended == old(appended) + |RecsAt(world, id)| && Follows(RecsAt(world, id), world.ledger[was..]))
    {
      var inLedger := AskGate(todo, done, id);
      if inLedger {
        dedupSkips := dedupSkips + 1;
        SkipEntry(todo, done, id);
        return true;
      }
      ok := AppendEntry(todo, done, id, was);
      if ok { appended := appended + |RecsAt(world, id)|; }
    }

    /** The gate said `appended`, so the ledger holds the key. */
    method SkipEntry(ghost todo: seq<nat>, ghost done: seq<nat>, id: nat)
      requires Valid() && Stands(world, todo, done, Tell(id, Skipped))
      modifies this`world, this`trace, this`tick
      ensures Valid() && Kept(old(world), world) && tick >= old(tick) && (Calm() ==> Still(old(world), world))
      ensures Stands(world, todo, done + [id], Take) && Backed(site, world, KeyAt(world, id))
    {
      SkippedIsBacked(site, trace, world, todo, done, id);
      CompleteEntry(todo, done, id, Skipped);
      KeptBacked(site, old(world), world, KeyAt(world, id));
    }

    method AppendEntry(ghost todo: seq<nat>, ghost done: seq<nat>, id: nat, ghost was: nat) returns (ok: bool)
      requires Valid() && Stands(world, todo, done, Write(id, 0)) && was <= |world.ledger|
      modifies this`world, this`trace, this`tick
      ensures Valid() && Kept(old(world), world) && tick >= old(tick) && (Calm() ==> Still(old(world), world))
      ensures ok ==> Stands(world, todo, done + [id], Take) && Follows(RecsAt(world, id), world.ledger[was..])
      ensures !ok ==> world.cons == SettleUp(done) && !Calm()
    {
      ok := AppendAll(todo, done, id, was);
      if ok {
        ghost var recs, written := RecsAt(world, id), world.ledger;
        ghost var m := MarkAppended(todo, done, id);
        CompleteEntry(todo, done, id, Recs(RecsAt(world, id)));
        TailGrows(was, written, world.ledger);
        FollowsLonger(recs, written[was..], world.ledger[was..]);
      }
    }

    method Progressed()
      requires Valid()
      modifies this`strandRounds, this`log
      ensures Valid() && strandRounds == 0 && log == old(log) + [Progress]
    {
      Logged(log, Progress);
      strandRounds, log := 0, log + [Progress];
    }

    /** A round took entries back; from the third in a row the alarm is raised. */
    method TookBack()
      requires Valid()
      modifies this`strandRounds, this`log, this`stranded
      ensures Valid() && log == old(log) + [Took]
      ensures stranded == old(stranded) + if Streak(log) >= STRANDED_ROUNDS then 1 else 0
    {
      Logged(log, Took);
      strandRounds, log := strandRounds + 1, log + [Took];
      if strandRounds >= STRANDED_ROUNDS { stranded := stranded + 1; }
    }

    /** Handle the entries in order up to the first failure. */
    method HandleAll(entries: seq<nat>) returns (handled: nat, ok: bool)
      requires Valid() && entries != [] && Stands(world, entries, [], Take)
      requires forall id :: id in entries ==> id < |world.bus.stream|
      modifies this`world, this`trace, this`tick, this`decodeErrors, this`dedupSkips, this`appended
      ensures Valid() && Kept(old(world), world) && handled <= |entries| && (ok ==> handled == |entries|)
      ensures tick >= old(tick) && (Calm() ==> ok && Still(old(world), world))
      ensures world.cons == SettleUp(entries[..handled])
    {
      handled, ok := 0, true;
      while handled < |entries|
        invariant tick >= old(tick) && handled <= |entries| && Valid() && Kept(old(world), world)
        invariant Stands(world, entries[handled..], entries[..handled], Take)
        invariant ok && (Calm() ==> Still(old(world), world))
      {
        assert entries[handled] in entries && entries[handled..] == [entries[handled]] + entries[handled + 1..];
        assert entries[..handled + 1] == entries[..handled] + [entries[handled]];
        ok := HandleEntry(entries[handled + 1..], entries[..handled], entries[handled]);
        if !ok { return; }
        handled := handled + 1;
      }
      assert entries[handled..] == [];
      DoWork(Next);
    }

    /** One delivery batch: the entries are handled in order up to the first failure, and
        one command acks exactly those handled. */
    method HandleBatch(entries: seq<nat>) returns (handled: nat, ok: bool)
      requires Valid() && entries != [] && Stands(world, entries, [], Take)
      requires forall id :: id in entries ==> id < |world.bus.stream|
      modifies this
      ensures Valid() && world.cons.Idle? && handled <= |entries|
      ensures tick >= old(tick) && Onward(old(world), world)
      ensures Calm() ==> ok && AckedInPeace(old(world), world, Elements(entries))
      ensures forall id :: id in entries[..handled] ==> Settled(site, world, id)
      ensures world.bus.acked == old(world.bus.acked) || world.bus.acked == old(world.bus.acked) + Elements(entries[..handled])
      ensures ok ==> handled == |entries| && world.bus.acked == old(world.bus.acked) + Elements(entries) && acked == old(acked) + |entries|
      ensures acked == old(acked) || (acked == old(acked) + handled && Elements(entries[..handled]) <= world.bus.acked)
      ensures log == if ok then old(log) + [Progress] else old(log)
    {
      handled, ok := HandleAll(entries);
      if handled == 0 { return; }
      var acknowledged := AckHandled(entries[..handled]);
      if acknowledged { acked := acked + handled; }
      ok := ok && acknowledged;
      if ok {
        assert entries[..handled] == entries;
        Progressed();
      }
    }

    method AckHandled(ids: seq<nat>) returns (ok: bool)
      requires Valid() && world.cons == Acking(ids)
      modifies this`world, this`trace, this`tick
      ensures Valid() && world.cons.Idle?
      ensures tick >= old(tick) && Onward(old(world), world)
      ensures Calm() ==> ok && AckedInPeace(old(world), world, Elements(ids))
      ensures forall id :: id in ids ==> Settled(site, world, id)
      ensures world.bus.acked == old(world.bus.acked) || world.bus.acked == old(world.bus.acked) + Elements(ids)
      ensures ok ==> world.bus.acked == old(world.bus.acked) + Elements(ids)
    {
      var r := Meanwhile();
      RanInv(site, trace, world);
      ghost var before := world;
      Perform(Con(Ack(r)));
      assert forall id :: id in ids && Settled(site, before, id) ==> Settled(site, world, id);
      ok := r.Ok();
    }

    /** Take back what a dead consumer left, and handle it. A round that takes entries back
        counts towards the alarm until a batch is acked whole or nothing is pending. */
    method Reclaim() returns (taken: seq<nat>, ok: bool, fatal: bool)
      requires Valid() && world.cons.Idle?
      modifies this
      ensures Valid() && world.cons.Idle? && tick > old(tick) && Onward(old(world), world)
      ensures Calm() ==> ok && AckedInPeace(old(world), world, Elements(taken))
      ensures Calm() && old(world).bus.pending == {} ==> taken == []
      ensures Calm() && old(world).bus.pending != {} && Elements(weather(old(tick) + 1).claim) <= old(world).bus.pending ==>
        taken == weather(old(tick) + 1).claim
      ensures fatal ==> !ok && taken == []
      ensures taken == [] ==> log == old(log) || (ok && world.bus.pending == {} && log == old(log) + [Progress])
      ensures taken != [] ==> log == old(log) + [Took] + if ok then [Progress] else []
      ensures taken != [] && ok ==> Elements(taken) <= world.bus.acked
    {
      taken, fatal := [], false;
      var r := Meanwhile();
      if !r.Ok() { return [], false, false; }
      if world.bus.pending == {} {
        Progressed();
        return [], true, false;
      }
      taken, ok, fatal := TakeOver();
    }

    /** Claim pending entries and handle them. */
    method TakeOver() returns (taken: seq<nat>, ok: bool, fatal: bool)
      requires Valid() && world.cons.Idle?
      modifies this
      ensures Valid() && world.cons.Idle? && tick > old(tick) && Onward(old(world), world)
      ensures Calm() ==> ok && AckedInPeace(old(world), world, Elements(taken))
      ensures Calm() && Elements(weather(old(tick)).claim) <= old(world).bus.pending ==> taken == weather(old(tick)).claim
      ensures fatal ==> !ok && taken == []
      ensures taken == [] ==> log == old(log)
      ensures taken != [] ==> log == old(log) + [Took] + if ok then [Progress] else []
      ensures taken != [] && ok ==> Elements(taken) <= world.bus.acked
    {
      taken, ok, fatal := AutoClaim();
      if taken == [] { return; }
      TookBack();
      var handled;
      handled, ok := HandleBatch(taken);
    }

    /** One XAUTOCLAIM: its entries are in the consumer's hands, or it failed, or there are
        none. */
    method AutoClaim() returns (taken: seq<nat>, ok: bool, fatal: bool)
      requires Valid() && world.cons.Idle?
      modifies this`world, this`trace, this`tick
      ensures Valid() && tick > old(tick) && Onward(old(world), world)
      ensures if taken == [] then world.cons.Idle? else ok && Stands(world, taken, [], Take)
      ensures forall id :: id in taken ==> id < |world.bus.stream|
      ensures Calm() ==> ok && Still(old(world), world)
      ensures Calm() && Elements(weather(old(tick)).claim) <= old(world).bus.pending ==> taken == weather(old(tick)).claim
      ensures fatal ==> !ok && taken == []
    {
      var now := weather(tick);
      var r := Meanwhile();
      if !r.Ok() { return [], false, !now.auth; }
      taken, ok, fatal := [], true, false;
      if forall id :: id in now.claim ==> id in world.bus.pending { taken := now.claim; }
      assert Elements(now.claim) <= world.bus.pending ==> forall id :: id in now.claim ==> id in Elements(now.claim);
      RanIds(site, trace, world);
      Perform(Con(Ingest.Reclaim(taken)));
    }

    /** Read new entries, at least one if there are any, and handle them. */
    method Poll() returns (read: seq<nat>, ok: bool)
      requires Valid() && world.cons.Idle?
      modifies this
      ensures Valid() && world.cons.Idle? && tick > old(tick) && Onward(old(world), world)
      ensures ok && read == [] ==> world.bus.next >= |old(world).bus.stream|
      ensures Calm() ==> ok && ReadInPeace(old(world), world, read, weather(old(tick)).count)
      ensures read == [] ==> log == old(log)
      ensures read != [] ==> log == old(log) + if ok then [Progress] else []
      ensures read != [] && ok ==> Elements(read) <= world.bus.acked
    {
      read, ok := Fetch();
      if read == [] { return; }
      var handled;
      handled, ok := HandleBatch(read);
    }

    /** One XREADGROUP: its entries are in the consumer's hands, or it failed, or there are
        none. */
    method Fetch() returns (read: seq<nat>, ok: bool)
      requires Valid() && world.cons.Idle?
      modifies this`world, this`trace, this`tick
      ensures Valid() && tick > old(tick) && Onward(old(world), world)
      ensures if read == [] then world.cons.Idle? else ok && Stands(world, read, [], Take)
      ensures forall id :: id in read ==> id < |world.bus.stream|
      ensures ok && read == [] ==> world.bus.next >= |old(world).bus.stream|
      ensures Calm() ==> ok && FetchedInPeace(old(world), world, read, weather(old(tick)).count)
    {
      var now := weather(tick);
      var r := Meanwhile();
      var left := |world.bus.stream| - world.bus.next;
      RanIds(site, trace, world);
      var n := Min(left, Max(now.count, 1));
      var first := world.bus.next;
      IdsBetween(first, n);
      if r.Landed() { Perform(Con(Deliver(n, r.Ok()))); }
      read, ok := if r.Ok() then Ids(first, n) else [], r.Ok();
    }

    /** The consumer's loop, cancelled after `turns` turns, each of which asks Redis at
        least once: whatever it meets, every entry it acked is settled. In peace, from
        nothing pending, it acks in order at least one new entry a turn, and in one turn
        whatever its reads are wide enough for; what had been left pending too, where the
        claims list it. */
    method Run(turns: nat) returns (fatal: bool)
      requires Valid() && world.cons.Idle?
      modifies this
      ensures Valid() && world.cons.Idle? && (!fatal ==> tick >= old(tick) + turns)
      ensures forall id :: id in world.bus.acked ==> Settled(site, world, id)
      ensures stranded == Alarms(log) && old(log) <= log
      ensures Calm() && old(world).bus.pending == {} ==>
        && world.bus.acked == old(world).bus.acked + Between(old(world).bus.next, world.bus.next) && world.bus.pending == {}
        && world.bus.next >= Min(|old(world).bus.stream|, old(world).bus.next + turns)
      ensures Calm() && turns > 0 && Wide(old(world)) ==>
        && world.bus.acked == old(world).bus.acked + old(world).bus.pending + Between(old(world).bus.next, |old(world).bus.stream|)
        && world.bus.pending == {}
    {
      RanIds(site, trace, world);
      var turn := 0;
      fatal := false;
      while turn < turns && !fatal
        invariant turn <= turns && Valid() && world.cons.Idle? && old(log) <= log && (!fatal ==> tick >= old(tick) + turn)
        invariant Calm() && old(world).bus.pending == {} ==> !fatal && Onwards(old(world), world, turn)
        invariant Calm() && Wide(old(world)) ==> !fatal && if turn == 0 then world == old(world) else AllAcked(old(world), world)
      {
        ghost var before := world;
        fatal := Turn();
        if Calm() && before.bus.pending == {} { OneMoreTurn(old(world), before, world, turn); }
        turn := turn + 1;
      }
      RanInv(site, trace, world);
    }

    method Turn() returns (fatal: bool)
      requires Valid() && world.cons.Idle?
      modifies this
      ensures Valid() && world.cons.Idle? && tick > old(tick) && old(log) <= log
      ensures Calm() ==> !fatal
      ensures Calm() && old(world).bus.pending == {} ==> Onwards(old(world), world, 1)
      ensures Calm() && Wide(old(world)) ==> AllAcked(old(world), world)
    {
      var taken, ok;
      taken, ok, fatal := Reclaim();
      ghost var between, count := world, weather(tick).count;
      if ok {
        var read, polled := Poll();
        if Calm() { TurnInPeace(old(world), between, world, Elements(taken), read, count); }
      }
    }

    /** Every read is wide enough for the stream, and every claim lists what is pending. */
    ghost predicate Wide(s: State) {
      forall n :: weather(n).count >= |s.bus.stream| && Elements(weather(n).claim) == s.bus.pending
    }

    /** Handle what the stream holds now: a clean end means that it was all read and nothing
        is pending; in peace, from nothing pending, a drain of enough turns ends clean and
        has acked it. */
    method Drain(turns: nat) returns (clean: bool)
      requires Valid() && world.cons.Idle?
      modifies this
      ensures Valid() && world.cons.Idle?
      ensures clean ==> world.bus.pending == {} && world.bus.next >= |old(world).bus.stream|
      ensures forall id :: id in world.bus.acked ==> Settled(site, world, id)
      ensures Calm() && old(world).bus.pending == {} && turns > |old(world).bus.stream| - old(world).bus.next ==>
        clean && world.bus.acked == old(world).bus.acked + Between(old(world).bus.next, |old(world).bus.stream|)
    {
      RanIds(site, trace, world);
      var turn := 0;
      clean := false;
      while turn < turns && !clean
        invariant Valid() && world.cons.Idle? && Onward(old(world), world)
        invariant clean ==> world.bus.pending == {} && world.bus.next >= |old(world).bus.stream|
        invariant Calm() ==> world.bus.stream == old(world).bus.stream
        invariant Calm() && old(world).bus.pending == {} ==> Onwards(old(world), world, if clean then 0 else turn)
        invariant turn <= turns && (Calm() && old(world).bus.pending == {} && !clean ==> world.bus.next >= old(world).bus.next + turn)
      {
        ghost var before, count := world, weather(tick).count;
        var read, ok := Poll();
        if !ok { break; }
        if Calm() && old(world).bus.pending == {} {
          OneRead(before, world, read, count);
          OneMoreTurn(old(world), before, world, turn);
        }
        if read == [] {
          var r := Meanwhile();
          clean := r.Ok() && world.bus.pending == {};
        }
        turn := turn + 1;
      }
      RanInv(site, trace, world);
    }
  }
}
