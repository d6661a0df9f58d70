/** The hot-fix lane (internal/flow/flow.go, hotfix.go, spawn.go): spawns pass a gate, take
    the lease of their signature, ask the router and go live, one lock region a step, in
    any interleaving with each other, with decisions on live spawns and with the clock. */
module SpawnLane {
  import opened Basics

  type Sig = nat
  type Inc = nat

  datatype Config = Config(maxConcurrent: int, leaseTtl: int)

  datatype Lease = Lease(holder: Inc, expires: int)

  datatype Stage = Requested | Live | Promoted | Discarded

  /** `until` is when the lease it went live under runs out. */
  datatype Spawn = Spawn(sig: Sig, inc: Inc, stage: Stage, until: int)

  /** A call of Spawn past the gate: before its grant, at the router, or with the lease
      renewed and the spawn about to be marked live. */
  datatype Pc = Gated | AtRouter(until: int) | Renewed(until: int)

  datatype Call = Call(id: nat, sig: Sig, inc: Inc, pc: Pc)

  /** `passed` is the evidence seam: the spawn ids whose verify tuple reads passed. */
  datatype State = State(now: int, leases: map<Sig, Lease>, spawns: map<nat, Spawn>, calls: map<nat, Call>,
                         passed: set<nat>)

  datatype Decision = Promote | Discard | Wait

  datatype Step =
    | Tick(to: int)
    | Gate(p: nat, id: nat, sig: Sig, inc: Inc)
    | Grant(p: nat)
    | MutexTimeout(p: nat) | RouterFails(p: nat) | Answer(p: nat, worktree: bool) | MarkLive(p: nat)
    | Decide(id: nat, decision: Decision, allowed: bool)
    | Rollback(id: nat)
    | Verify(id: nat, result: bool)

  function Boot(): State { State(0, map[], map[], map[], {}) }

  function LiveIds(s: State): set<nat> { set id | id in s.spawns && s.spawns[id].stage.Live? }

  /** The grant falls back to half an hour on a zero TTL; the renewal does not. */
  function GrantTtl(c: Config): int { if c.leaseTtl <= 0 then 1800 else c.leaseTtl }

  /** leaseHeld: another incident's lease that has not run out. */
  predicate HeldByOther(s: State, sig: Sig, inc: Inc) {
    sig in s.leases && s.leases[sig].holder != inc && s.now <= s.leases[sig].expires
  }

  predicate Enabled(c: Config, s: State, x: Step) {
    match x
    case Tick(to) => s.now <= to
    case Gate(p, _, sig, inc) => p !in s.calls && !HeldByOther(s, sig, inc) && |LiveIds(s)| < c.maxConcurrent
    case Grant(p) => p in s.calls && s.calls[p].pc.Gated?
    case MutexTimeout(p) => p in s.calls && s.calls[p].pc.AtRouter?
    case RouterFails(p) => p in s.calls && s.calls[p].pc.AtRouter?
    case Answer(p, _) => p in s.calls && s.calls[p].pc.AtRouter?
    case MarkLive(p) => p in s.calls && s.calls[p].pc.Renewed?
    case Decide(id, _, _) => id in s.spawns
    case Rollback(id) => id in s.spawns && !s.spawns[id].stage.Requested?
    case Verify(_, _) => true
  }

  function Leaves(s: State, p: nat): State { s.(calls := s.calls - {p}) }

  function Released(s: State, sig: Sig): State { s.(leases := s.leases - {sig}) }

  function Staged(s: State, id: nat, stage: Stage): State
    requires id in s.spawns
  {
    s.(spawns := s.spawns[id := s.spawns[id].(stage := stage)])
  }

  function Do(c: Config, s: State, x: Step): State
    requires Enabled(c, s, x)
  {
    match x
    case Tick(to) => s.(now := to)
    case Gate(p, id, sig, inc) =>
      var t := if sig in s.leases && s.leases[sig].holder != inc then Released(s, sig) else s;
      t.(calls := t.calls[p := Call(id, sig, inc, Gated)])
    case Grant(p) =>
      var k := s.calls[p];
      var t := s.(spawns := s.spawns[k.id := Spawn(k.sig, k.inc, Requested, s.now)]);
      if k.sig in s.leases && s.now < s.leases[k.sig].expires && s.leases[k.sig].holder != k.inc then Leaves(t, p)
      else t.(leases := t.leases[k.sig := Lease(k.inc, s.now + GrantTtl(c))],
              calls := t.calls[p := k.(pc := AtRouter(s.now + GrantTtl(c)))])
    case MutexTimeout(p) => Leaves(Released(s, s.calls[p].sig), p)
    case RouterFails(p) => Leaves(s, p)
    case Answer(p, worktree) =>
      var k := s.calls[p];
      var t := s.(leases := s.leases[k.sig := Lease(k.inc, s.now + c.leaseTtl)]);
      if worktree then t.(calls := t.calls[p := k.(pc := Renewed(s.now + c.leaseTtl))]) else Leaves(t, p)
    case MarkLive(p) =>
      var k := s.calls[p];
      Leaves(s.(spawns := s.spawns[k.id := Spawn(k.sig, k.inc, Live, k.pc.until)]), p)
    case Decide(id, decision, allowed) =>
      if id !in s.passed then if decision.Discard? then Released(Staged(s, id, Discarded), s.spawns[id].sig) else s
      else if decision.Promote? then (if allowed then Released(Staged(s, id, Promoted), s.spawns[id].sig) else s)
      else if decision.Discard? then Released(Staged(s, id, Discarded), s.spawns[id].sig)
      else s
    case Rollback(id) => Released(Staged(s, id, Discarded), s.spawns[id].sig)
    case Verify(id, result) => s.(passed := if result then s.passed + {id} else s.passed - {id})
  }

  predicate Possible(c: Config, run: seq<Step>)
    decreases |run|, 0
  {
    run == [] || (Possible(c, run[..|run| - 1]) && Enabled(c, After(c, run[..|run| - 1]), run[|run| - 1]))
  }

  function After(c: Config, run: seq<Step>): State
    requires Possible(c, run)
    decreases |run|, 1
  {
    if run == [] then Boot() else Do(c, After(c, run[..|run| - 1]), run[|run| - 1])
  }

  // ---- the cap ----

  /** No more than `k` calls were ever past the gate at once. */
  predicate AtOnce(c: Config, run: seq<Step>, k: nat)
    requires Possible(c, run)
  {
    |After(c, run).calls| <= k && (run == [] || AtOnce(c, run[..|run| - 1], k))
  }

  lemma Fewer(a: set<nat>, b: set<nat>)
    requires a <= b
    ensures |a| <= |b|
  {
    assert b == a + (b - a);
  }

  function Load(s: State): nat { |LiveIds(s)| + |s.calls| }

  /** A step never adds to the live spawns and the calls together, but for the gate. */
  lemma LoadGrowsAtTheGate(c: Config, s: State, x: Step)
    requires Enabled(c, s, x)
    ensures !x.Gate? ==> Load(Do(c, s, x)) <= Load(s)
    ensures x.Gate? ==> LiveIds(Do(c, s, x)) == LiveIds(s)
  {
    if x.Decide? || x.Rollback? || x.Verify? || x.Tick? { DecisionLoad(c, s, x); }
    else if x.MarkLive? { MarkLiveLoad(c, s, x); }
    else if x.Grant? { GrantLoad(c, s, x); }
    else if !x.Gate? { RouterLoad(c, s, x); }
  }

  lemma DecisionLoad(c: Config, s: State, x: Step)
    requires Enabled(c, s, x) && (x.Decide? || x.Rollback? || x.Verify? || x.Tick?)
    ensures Load(Do(c, s, x)) <= Load(s)
  {
    Fewer(LiveIds(Do(c, s, x)), LiveIds(s));
  }

  lemma MarkLiveLoad(c: Config, s: State, x: Step)
    requires Enabled(c, s, x) && x.MarkLive?
    ensures Load(Do(c, s, x)) <= Load(s)
  {
    assert LiveIds(Do(c, s, x)) == LiveIds(s) + {s.calls[x.p].id};
    OneCallLess(s.calls, x.p);
  }

  lemma GrantLoad(c: Config, s: State, x: Step)
    requires Enabled(c, s, x) && x.Grant?
    ensures Load(Do(c, s, x)) <= Load(s)
  {
    var t := Do(c, s, x);
    assert LiveIds(t) <= LiveIds(s);
    Fewer(LiveIds(t), LiveIds(s));
    OneCallLess(s.calls, x.p);
    SameSize(s.calls, t.calls);
    assert x.p in t.calls ==> t.calls.Keys == s.calls.Keys;
  }

  lemma RouterLoad(c: Config, s: State, x: Step)
    requires Enabled(c, s, x) && (x.MutexTimeout? || x.RouterFails? || x.Answer?)
    ensures Load(Do(c, s, x)) <= Load(s)
  {
    var t := Do(c, s, x);
    assert LiveIds(t) == LiveIds(s);
    OneCallLess(s.calls, x.p);
    SameSize(s.calls, t.calls);
    assert x.p in t.calls ==> t.calls.Keys == s.calls.Keys;
  }

  lemma OneCallLess(m: map<nat, Call>, p: nat)
    requires p in m
    ensures |m - {p}| == |m| - 1
  {
    assert m.Keys == (m - {p}).Keys + {p};
  }

  lemma SameSize(a: map<nat, Call>, b: map<nat, Call>)
    ensures a.Keys == b.Keys ==> |a| == |b|
  {
    assert |a| == |a.Keys| && |b| == |b.Keys|;
  }

  /** The gate's count and the going live are not one step: with up to `k` calls past the
      gate at once, the live spawns number at most the cap plus `k - 1`; so one call at a
      time keeps the cap. */
  lemma {:induction false} CapPlusOverlap(c: Config, run: seq<Step>, k: nat)
    requires Possible(c, run) && AtOnce(c, run, k) && c.maxConcurrent >= 1 && k >= 1
    ensures |LiveIds(After(c, run))| + |After(c, run).calls| <= c.maxConcurrent - 1 + k
  {
    if run == [] {
      assert LiveIds(Boot()) == {};
    } else {
      CapPlusOverlap(c, run[..|run| - 1], k);
      LoadGrowsAtTheGate(c, After(c, run[..|run| - 1]), run[|run| - 1]);
    }
  }

  predicate Reaches(c: Config, run: seq<Step>, s: State) { Possible(c, run) && After(c, run) == s }

  lemma GoesOn(c: Config, run: seq<Step>, s: State, x: Step)
    requires Reaches(c, run, s) && Enabled(c, s, x)
    ensures Reaches(c, run + [x], Do(c, s, x))
  {
    assert (run + [x])[..|run|] == run;
  }

  /** `n` spawns live and `g` calls just past the gate, each on a signature of its own. */
  ghost predicate IsShape(s: State, n: nat, g: nat) {
    && |LiveIds(s)| == n && |s.calls| == g
    && (forall sig :: sig in s.leases ==> sig < n)
    && (forall id :: id in s.spawns ==> id < n)
    && (forall p: nat :: p in s.calls <==> n <= p < n + g)
    && (forall p :: p in s.calls ==> s.calls[p] == Call(p, p, p, Gated))
  }

  /** Some run with up to `k` calls at once leads to the state. */
  ghost predicate At(c: Config, k: nat, s: State) { exists run :: Reaches(c, run, s) && AtOnce(c, run, k) }

  ghost predicate Arrives(c: Config, k: nat, n: nat, g: nat) { exists s :: At(c, k, s) && IsShape(s, n, g) }

  lemma StaysAt(c: Config, k: nat, s: State, x: Step)
    requires At(c, k, s) && Enabled(c, s, x) && |Do(c, s, x).calls| <= k
    ensures At(c, k, Do(c, s, x))
  {
    var run :| Reaches(c, run, s) && AtOnce(c, run, k);
    GoesOn(c, run, s, x);
    assert (run + [x])[..|run|] == run;
  }

  function PastGate(s: State, p: nat): State { s.(calls := s.calls[p := Call(p, p, p, Gated)]) }

  lemma GateStep(c: Config, s: State, p: nat)
    requires p !in s.calls && p !in s.leases && |LiveIds(s)| < c.maxConcurrent
    ensures Enabled(c, s, Gate(p, p, p, p)) && Do(c, s, Gate(p, p, p, p)) == PastGate(s, p)
  {
  }

  lemma GateShape(s: State, t: State, n: nat, g: nat, p: nat)
    requires IsShape(s, n, g) && p == n + g && t == PastGate(s, p)
    ensures IsShape(t, n, g + 1)
  {
    assert LiveIds(t) == LiveIds(s);
    assert p !in s.calls;
    assert t.calls - {p} == s.calls;
    OneCallLess(t.calls, p);
    assert forall q: nat :: q in t.calls <==> q in s.calls || q == p;
  }

  lemma GateOne(c: Config, k: nat, n: nat, g: nat)
    requires Arrives(c, k, n, g) && n < c.maxConcurrent && g < k
    ensures Arrives(c, k, n, g + 1)
  {
    var s :| At(c, k, s) && IsShape(s, n, g);
    var p := n + g;
    GateStep(c, s, p);
    GateShape(s, PastGate(s, p), n, g, p);
    StaysAt(c, k, s, Gate(p, p, p, p));
  }

  /** The states a call goes through when it is granted, answered and goes live. */
  function Granted(c: Config, s: State, p: nat, sig: Sig, inc: Inc): State {
    s.(leases := s.leases[sig := Lease(inc, s.now + GrantTtl(c))], spawns := s.spawns[p := Spawn(sig, inc, Requested, s.now)],
       calls := s.calls[p := Call(p, sig, inc, AtRouter(s.now + GrantTtl(c)))])
  }

  function Answered(c: Config, s: State, p: nat, sig: Sig, inc: Inc): State {
    s.(leases := s.leases[sig := Lease(inc, s.now + c.leaseTtl)], spawns := s.spawns[p := Spawn(sig, inc, Requested, s.now)],
       calls := s.calls[p := Call(p, sig, inc, Renewed(s.now + c.leaseTtl))])
  }

  function Finished(c: Config, s: State, p: nat, sig: Sig, inc: Inc): State {
    s.(leases := s.leases[sig := Lease(inc, s.now + c.leaseTtl)], spawns := s.spawns[p := Spawn(sig, inc, Live, s.now + c.leaseTtl)],
       calls := s.calls - {p})
  }

  lemma GrantStep(c: Config, s: State, p: nat, sig: Sig, inc: Inc)
    requires p in s.calls && s.calls[p] == Call(p, sig, inc, Gated) && (sig in s.leases ==> s.leases[sig].holder == inc)
    ensures Enabled(c, s, Grant(p)) && Do(c, s, Grant(p)) == Granted(c, s, p, sig, inc)
  {
  }

  lemma AnswerStep(c: Config, s: State, p: nat, sig: Sig, inc: Inc)
    ensures Enabled(c, Granted(c, s, p, sig, inc), Answer(p, true))
    ensures Do(c, Granted(c, s, p, sig, inc), Answer(p, true)) == Answered(c, s, p, sig, inc)
  {
    var t, u := Granted(c, s, p, sig, inc), Answered(c, s, p, sig, inc);
    assert t.leases[sig := Lease(inc, s.now + c.leaseTtl)] == u.leases;
    assert t.calls[p := Call(p, sig, inc, Renewed(s.now + c.leaseTtl))] == u.calls;
  }

  lemma LiveStep(c: Config, s: State, p: nat, sig: Sig, inc: Inc)
    ensures Enabled(c, Answered(c, s, p, sig, inc), MarkLive(p))
    ensures Do(c, Answered(c, s, p, sig, inc), MarkLive(p)) == Finished(c, s, p, sig, inc)
  {
    var t, u := Answered(c, s, p, sig, inc), Finished(c, s, p, sig, inc);
    assert t.calls - {p} == u.calls;
    assert t.spawns[p := Spawn(sig, inc, Live, s.now + c.leaseTtl)] == u.spawns;
  }

  lemma Finishes(c: Config, run: seq<Step>, s: State, p: nat, sig: Sig, inc: Inc)
    requires p in s.calls && s.calls[p] == Call(p, sig, inc, Gated) && (sig in s.leases ==> s.leases[sig].holder == inc)
    requires Reaches(c, run, s)
    ensures Reaches(c, run + [Grant(p)] + [Answer(p, true)] + [MarkLive(p)], Finished(c, s, p, sig, inc))
  {
    GrantStep(c, s, p, sig, inc);
    GoesOn(c, run, s, Grant(p));
    AnswerStep(c, s, p, sig, inc);
    GoesOn(c, run + [Grant(p)], Granted(c, s, p, sig, inc), Answer(p, true));
    LiveStep(c, s, p, sig, inc);
    GoesOn(c, run + [Grant(p)] + [Answer(p, true)], Answered(c, s, p, sig, inc), MarkLive(p));
  }

  lemma CallsCounted(c: Config, s: State, p: nat, sig: Sig, inc: Inc)
    requires p in s.calls
    ensures |Granted(c, s, p, sig, inc).calls| == |s.calls| && |Answered(c, s, p, sig, inc).calls| == |s.calls|
    ensures |Finished(c, s, p, sig, inc).calls| == |s.calls| - 1
  {
    assert Granted(c, s, p, sig, inc).calls.Keys == s.calls.Keys;
    assert Answered(c, s, p, sig, inc).calls.Keys == s.calls.Keys;
    SameSize(Granted(c, s, p, sig, inc).calls, s.calls);
    SameSize(Answered(c, s, p, sig, inc).calls, s.calls);
    OneCallLess(s.calls, p);
  }

  lemma FinishesWithin(c: Config, k: nat, s: State, p: nat, sig: Sig, inc: Inc)
    requires p in s.calls && s.calls[p] == Call(p, sig, inc, Gated) && (sig in s.leases ==> s.leases[sig].holder == inc)
    requires At(c, k, s) && |s.calls| <= k
    ensures At(c, k, Finished(c, s, p, sig, inc))
  {
    CallsCounted(c, s, p, sig, inc);
    GrantStep(c, s, p, sig, inc);
    StaysAt(c, k, s, Grant(p));
    AnswerStep(c, s, p, sig, inc);
    StaysAt(c, k, Granted(c, s, p, sig, inc), Answer(p, true));
    LiveStep(c, s, p, sig, inc);
    StaysAt(c, k, Answered(c, s, p, sig, inc), MarkLive(p));
  }

  lemma FinishShape(s: State, t: State, n: nat, g: nat, l: Lease, sp: Spawn)
    requires IsShape(s, n, g) && g > 0 && sp.stage.Live?
    requires t.leases == s.leases[n := l] && t.spawns == s.spawns[n := sp] && t.calls == s.calls - {n}
    ensures IsShape(t, n + 1, g - 1)
  {
    OneCallLess(s.calls, n);
    OneMoreLive(s, t, n, sp);
    assert forall q: nat :: q in t.calls <==> q in s.calls && q != n;
  }

  lemma OneMoreLive(s: State, t: State, n: nat, sp: Spawn)
    requires n !in s.spawns && sp.stage.Live? && t.spawns == s.spawns[n := sp]
    ensures |LiveIds(t)| == |LiveIds(s)| + 1
  {
    assert LiveIds(t) == LiveIds(s) + {n};
  }

  lemma FinishOne(c: Config, k: nat, n: nat, g: nat)
    requires Arrives(c, k, n, g) && 0 < g <= k
    ensures Arrives(c, k, n + 1, g - 1)
  {
    var s :| At(c, k, s) && IsShape(s, n, g);
    FinishesWithin(c, k, s, n, n, n);
    FinishedShape(c, s, n, g);
  }

  lemma FinishedShape(c: Config, s: State, n: nat, g: nat)
    requires IsShape(s, n, g) && g > 0
    ensures IsShape(Finished(c, s, n, n, n), n + 1, g - 1)
  {
    FinishShape(s, Finished(c, s, n, n, n), n, g, Lease(n, s.now + c.leaseTtl), Spawn(n, n, Live, s.now + c.leaseTtl));
  }

  lemma {:induction false} SlotsFill(c: Config, k: nat, n: nat)
    requires n <= c.maxConcurrent && k >= 1
    ensures Arrives(c, k, n, 0)
  {
    if n == 0 {
      assert LiveIds(Boot()) == {} && IsShape(Boot(), 0, 0);
      assert Reaches(c, [], Boot()) && AtOnce(c, [], k);
    } else {
      SlotsFill(c, k, n - 1);
      GateOne(c, k, n - 1, 0);
      FinishOne(c, k, n - 1, 1);
    }
  }

  lemma {:induction false} AllGate(c: Config, k: nat, n: nat, g: nat)
    requires Arrives(c, k, n, g) && n < c.maxConcurrent && g <= k
    ensures Arrives(c, k, n, k)
    decreases k - g
  {
    if g < k {
      GateOne(c, k, n, g);
      AllGate(c, k, n, g + 1);
    }
  }

  lemma {:induction false} AllFinish(c: Config, k: nat, n: nat, g: nat)
    requires Arrives(c, k, n, g) && g <= k
    ensures Arrives(c, k, n + g, 0)
    decreases g
  {
    if g > 0 {
      FinishOne(c, k, n, g);
      AllFinish(c, k, n + 1, g - 1);
    }
  }

  /** The bound is met for every cap and every overlap: behind one free slot `k` calls pass
      the gate and all go live. */
  lemma CapPlusOverlapIsMet(c: Config, k: nat) returns (run: seq<Step>)
    requires c.maxConcurrent >= 1 && k >= 1
    ensures Possible(c, run) && AtOnce(c, run, k)
    ensures |LiveIds(After(c, run))| == c.maxConcurrent - 1 + k
  {
    var n: nat := c.maxConcurrent - 1;
    SlotsFill(c, k, n);
    AllGate(c, k, n, 0);
    AllFinish(c, k, n, k);
    var s :| At(c, k, s) && IsShape(s, n + k, 0);
    run :| Reaches(c, run, s) && AtOnce(c, run, k);
  }

  // ---- going live ----

  /** Where in the run the call `p` for the spawn took its steps: through the gate, granted,
      and answered with a worktree; no other call had its number since. */
  predicate Way(run: seq<Step>, p: nat, k: Call, i: seq<nat>) {
    && |i| == (if k.pc.Gated? then 1 else if k.pc.AtRouter? then 2 else 3)
    && (forall n :: 0 <= n < |i| ==> i[n] < |run| && (n > 0 ==> i[n - 1] < i[n]))
    && run[i[0]] == Gate(p, k.id, k.sig, k.inc)
    && (|i| > 1 ==> run[i[1]] == Grant(p))
    && (|i| > 2 ==> run[i[2]] == Answer(p, true))
    && (forall m :: i[0] < m < |run| ==> !(run[m].Gate? && run[m].p == p))
  }

  lemma {:induction false} CallCame(c: Config, run: seq<Step>, p: nat) returns (i: seq<nat>)
    requires Possible(c, run) && p in After(c, run).calls
    ensures Way(run, p, After(c, run).calls[p], i)
  {
    var front, x, last := run[..|run| - 1], run[|run| - 1], |run| - 1;
    var s := After(c, front);
    if x.Gate? && x.p == p {
      i := [last];
    } else {
      CallMoves(c, s, x, p);
      i := CallCame(c, front, p);
      if (x.Grant? || x.Answer?) && x.p == p { i := i + [last]; }
    }
  }

  lemma CallMoves(c: Config, s: State, x: Step, p: nat)
    requires Enabled(c, s, x) && p in Do(c, s, x).calls && !(x.Gate? && x.p == p)
    ensures p in s.calls
    ensures var k, t := s.calls[p], Do(c, s, x).calls[p];
      && t.id == k.id && t.sig == k.sig && t.inc == k.inc
      && (if x == Grant(p) then k.pc.Gated? && t.pc.AtRouter?
          else if x == Answer(p, true) then k.pc.AtRouter? && t.pc.Renewed?
          else t == k && !(x.Answer? && x.p == p))
  {
  }

  /** Nothing goes live that the router did not take: over every run a live spawn was marked
      live at some step by a call for it that had passed the gate, been granted the lease of
      its signature and been answered with a worktree. */
  lemma {:induction false} LiveWasAnswered(c: Config, run: seq<Step>, id: nat) returns (p: nat, i: seq<nat>, j: nat)
    requires Possible(c, run) && id in After(c, run).spawns && After(c, run).spawns[id].stage.Live?
    ensures var sp := After(c, run).spawns[id];
      j < |run| && run[j] == MarkLive(p) && Way(run[..j], p, Call(id, sp.sig, sp.inc, Renewed(sp.until)), i)
  {
    var front, x := run[..|run| - 1], run[|run| - 1];
    var s := After(c, front);
    if x.MarkLive? && s.calls[x.p].id == id {
      p, j := x.p, |run| - 1;
      i := CallCame(c, front, p);
    } else {
      LiveStays(c, s, x, id);
      p, i, j := LiveWasAnswered(c, front, id);
      assert front[..j] == run[..j];
    }
  }

  lemma LiveStays(c: Config, s: State, x: Step, id: nat)
    requires Enabled(c, s, x) && id in Do(c, s, x).spawns && Do(c, s, x).spawns[id].stage.Live?
    requires !(x.MarkLive? && s.calls[x.p].id == id)
    ensures id in s.spawns && s.spawns[id] == Do(c, s, x).spawns[id]
  {
  }

  /** A call ends when it times out at the repository, when the router fails it or finds no
      worktree, and when its spawn is live, or when its lease is held at the grant; one the
      router failed leaves leases and spawns as they are. */
  lemma CallEndsExactly(c: Config, s: State, x: Step, p: nat)
    requires Enabled(c, s, x) && p in s.calls
    ensures var t := Do(c, s, x); var k := s.calls[p];
      && (p !in t.calls <==>
            || x in {MutexTimeout(p), RouterFails(p), Answer(p, false), MarkLive(p)}
            || (x == Grant(p) && k.sig in s.leases && s.now < s.leases[k.sig].expires && s.leases[k.sig].holder != k.inc))
      && (x == RouterFails(p) ==> t.leases == s.leases && t.spawns == s.spawns)
  {
  }

  // ---- promotion ----

  /** What the evidence last said of a spawn. */
  predicate Passed(run: seq<Step>, id: nat) {
    run != [] &&
    if run[|run| - 1].Verify? && run[|run| - 1].id == id then run[|run| - 1].result else Passed(run[..|run| - 1], id)
  }

  lemma {:induction false} PassedIsRead(c: Config, run: seq<Step>, id: nat)
    requires Possible(c, run)
    ensures id in After(c, run).passed <==> Passed(run, id)
  {
    if run != [] { PassedIsRead(c, run[..|run| - 1], id); }
  }

  /** The `i`th step decides to promote, on evidence that stands then. */
  predicate PromotedAt(run: seq<Step>, i: nat, id: nat) {
    i < |run| && run[i] == Decide(id, Promote, true) && Passed(run[..i], id)
  }

  /** Over every run a promoted spawn was promoted by an allowed decision at which its
      verify tuple read passed, whatever the tuple read before and reads since. */
  lemma {:induction false} PromotedHadPassed(c: Config, run: seq<Step>, id: nat) returns (i: nat)
    requires Possible(c, run) && id in After(c, run).spawns && After(c, run).spawns[id].stage.Promoted?
    ensures PromotedAt(run, i, id)
  {
    var front, x := run[..|run| - 1], run[|run| - 1];
    var s := After(c, front);
    if id in s.spawns && s.spawns[id].stage.Promoted? {
      i := PromotedHadPassed(c, front, id);
      assert front[..i] == run[..i];
    } else {
      i := |run| - 1;
      PassedIsRead(c, front, id);
      assert x == Decide(id, Promote, true);
    }
  }

  /** What a decision makes of a spawn: promoted exactly when it is asked for, allowed and
      the evidence reads passed, discarded exactly when that is asked for; otherwise, and
      for every other spawn, nothing changes. */
  lemma DecidedExactly(c: Config, s: State, id: nat, decision: Decision, allowed: bool)
    requires id in s.spawns
    ensures var t := Do(c, s, Decide(id, decision, allowed));
      && t.spawns[id].sig == s.spawns[id].sig && t.spawns[id].inc == s.spawns[id].inc
      && t.spawns[id].stage == (if decision.Discard? then Discarded
                                else if decision.Promote? && allowed && id in s.passed then Promoted else s.spawns[id].stage)
      && t.spawns.Keys == s.spawns.Keys && (forall i :: i in s.spawns && i != id ==> t.spawns[i] == s.spawns[i])
      && (t.leases != s.leases ==> Settles(s, id, decision, allowed) && t.leases == s.leases - {s.spawns[id].sig})
      && (Settles(s, id, decision, allowed) ==> s.spawns[id].sig !in t.leases)
  {
  }

  // ---- one fix per signature ----

  /** A claim on a signature that has not run out is backed by the lease. */
  predicate Backs(s: State, sig: Sig, inc: Inc, until: int) {
    s.now < until ==> sig in s.leases && s.leases[sig].holder == inc && s.leases[sig].expires >= until
  }

  predicate CallBacked(s: State, p: nat)
    requires p in s.calls
  {
    var k := s.calls[p];
    !k.pc.Gated? ==> Backs(s, k.sig, k.inc, k.pc.until)
  }

  predicate SpawnBacked(s: State, id: nat)
    requires id in s.spawns
  {
    var sp := s.spawns[id];
    sp.stage.Live? ==> Backs(s, sp.sig, sp.inc, sp.until)
  }

  ghost predicate AllBacked(c: Config, s: State) {
    && (forall p :: p in s.calls ==> CallBacked(s, p))
    && (forall id :: id in s.spawns ==> SpawnBacked(s, id))
    && (forall sig :: sig in s.leases ==> s.leases[sig].expires <= s.now + c.leaseTtl)
  }

  /** Nobody but the releasing party has a claim on the signature that has not run out. */
  ghost predicate Sole(s: State, sig: Sig, p: Option<nat>, id: Option<nat>) {
    && (forall q :: q in s.calls && p != Some(q) && s.calls[q].sig == sig && !s.calls[q].pc.Gated? ==> s.now >= s.calls[q].pc.until)
    && (forall i :: i in s.spawns && id != Some(i) && s.spawns[i].sig == sig && s.spawns[i].stage.Live? ==> s.now >= s.spawns[i].until)
  }

  /** No other incident has a claim on the signature that has not run out. */
  ghost predicate NoRival(s: State, sig: Sig, inc: Inc) {
    && (forall q :: q in s.calls && s.calls[q].sig == sig && s.calls[q].inc != inc && !s.calls[q].pc.Gated? ==> s.now >= s.calls[q].pc.until)
    && (forall i :: i in s.spawns && s.spawns[i].sig == sig && s.spawns[i].inc != inc && s.spawns[i].stage.Live? ==> s.now >= s.spawns[i].until)
  }

  /** A decision lets the lease go unless it waits, is not allowed or lacks the evidence. */
  predicate Settles(s: State, id: nat, decision: Decision, allowed: bool) {
    decision.Discard? || (decision.Promote? && id in s.passed && allowed)
  }

  /** The steps that touch a lease without asking whose it is: the router's answer takes it,
      a timeout, a rollback and a settling decision let it go. */
  ghost predicate Safe(s: State, x: Step) {
    && (x.Answer? && x.p in s.calls ==> NoRival(s, s.calls[x.p].sig, s.calls[x.p].inc))
    && (x.MutexTimeout? && x.p in s.calls ==> Sole(s, s.calls[x.p].sig, Some(x.p), None))
    && (x.Rollback? && x.id in s.spawns ==> Sole(s, s.spawns[x.id].sig, None, Some(x.id)))
    && (x.Decide? && x.id in s.spawns && Settles(s, x.id, x.decision, x.allowed) ==> Sole(s, s.spawns[x.id].sig, None, Some(x.id)))
  }

  /** A step keeps every running claim backed exactly when it is safe: an answer must meet
      no rival, a release must be by the only claimant; every other step always does. */
  lemma StepIsSafeExactly(c: Config, s: State, x: Step)
    requires c.leaseTtl > 0 && AllBacked(c, s) && Enabled(c, s, x)
    ensures AllBacked(c, Do(c, s, x)) <==> Safe(s, x)
  {
    if x.Answer? { AnswerIsSafeExactly(c, s, x.p, x.worktree); }
    else if x.MutexTimeout? { ReleaseIsSafeExactly(c, s, Do(c, s, x), s.calls[x.p].sig, Some(x.p), None); }
    else if x.Rollback? { ReleaseIsSafeExactly(c, s, Do(c, s, x), s.spawns[x.id].sig, None, Some(x.id)); }
    else if x.Decide? && Settles(s, x.id, x.decision, x.allowed) {
      ReleaseIsSafeExactly(c, s, Do(c, s, x), s.spawns[x.id].sig, None, Some(x.id));
    } else { OthersAreSafe(c, s, x); }
  }

  /** The state after the lease of `sig` is let go by the call `p` or the spawn `id`. */
  ghost predicate LetGo(s: State, t: State, sig: Sig, p: Option<nat>, id: Option<nat>) {
    && t.now == s.now && t.leases == s.leases - {sig}
    && (forall q :: q in t.calls <==> q in s.calls && p != Some(q))
    && (forall q :: q in t.calls ==> t.calls[q] == s.calls[q])
    && t.spawns.Keys == s.spawns.Keys
    && (forall i :: i in t.spawns && id != Some(i) ==> t.spawns[i] == s.spawns[i])
    && (id.Some? && id.value in t.spawns ==> !t.spawns[id.value].stage.Live?)
  }

  lemma ReleaseIsSafeExactly(c: Config, s: State, t: State, sig: Sig, p: Option<nat>, id: Option<nat>)
    requires c.leaseTtl > 0 && AllBacked(c, s) && LetGo(s, t, sig, p, id)
    ensures AllBacked(c, t) <==> Sole(s, sig, p, id)
  {
    if AllBacked(c, t) {
      forall q | q in s.calls && p != Some(q) && s.calls[q].sig == sig && !s.calls[q].pc.Gated? ensures s.now >= s.calls[q].pc.until {
        assert CallBacked(t, q);
      }
      forall i | i in s.spawns && id != Some(i) && s.spawns[i].sig == sig && s.spawns[i].stage.Live? ensures s.now >= s.spawns[i].until {
        assert SpawnBacked(t, i);
      }
    }
    if Sole(s, sig, p, id) {
      forall q | q in t.calls ensures CallBacked(t, q) { assert CallBacked(s, q); }
      forall i | i in t.spawns ensures SpawnBacked(t, i) { assert SpawnBacked(s, i); }
    }
  }

  /** The renewal does not look who holds the lease by then: the router's answer keeps the
      claims backed exactly when no other incident has taken the signature meanwhile, and
      otherwise it takes the lease from under it. */
  lemma AnswerIsSafeExactly(c: Config, s: State, p: nat, worktree: bool)
    requires c.leaseTtl > 0 && AllBacked(c, s) && p in s.calls && s.calls[p].pc.AtRouter?
    ensures AllBacked(c, Do(c, s, Answer(p, worktree))) <==> NoRival(s, s.calls[p].sig, s.calls[p].inc)
  {
    var t, k := Do(c, s, Answer(p, worktree)), s.calls[p];
    if AllBacked(c, t) {
      forall q | q in s.calls && s.calls[q].sig == k.sig && s.calls[q].inc != k.inc && !s.calls[q].pc.Gated?
        ensures s.now >= s.calls[q].pc.until
      {
        assert CallBacked(t, q);
      }
      forall i | i in s.spawns && s.spawns[i].sig == k.sig && s.spawns[i].inc != k.inc && s.spawns[i].stage.Live?
        ensures s.now >= s.spawns[i].until
      {
        assert SpawnBacked(t, i);
      }
    }
    if NoRival(s, k.sig, k.inc) {
      forall q | q in t.calls ensures CallBacked(t, q) { assert CallBacked(s, q); }
      forall i | i in t.spawns ensures SpawnBacked(t, i) { assert SpawnBacked(s, i); }
    }
  }

  lemma OthersAreSafe(c: Config, s: State, x: Step)
    requires c.leaseTtl > 0 && AllBacked(c, s) && Enabled(c, s, x)
    requires !x.Answer? && !x.MutexTimeout? && !x.Rollback? && !(x.Decide? && Settles(s, x.id, x.decision, x.allowed))
    ensures AllBacked(c, Do(c, s, x))
  {
    var t := Do(c, s, x);
    if x.MarkLive? { assert CallBacked(s, x.p); }
    forall p | p in t.calls ensures CallBacked(t, p) { if p in s.calls { assert CallBacked(s, p); } }
    forall id | id in t.spawns ensures SpawnBacked(t, id) { if id in s.spawns { assert SpawnBacked(s, id); } }
  }

  /** A router that answers before the lease granted for the call runs out meets no rival. */
  lemma AnswerInTimeIsSafe(c: Config, s: State, p: nat, worktree: bool)
    requires AllBacked(c, s) && p in s.calls && s.calls[p].pc.AtRouter? && s.now < s.calls[p].pc.until
    ensures Safe(s, Answer(p, worktree))
  {
    assert CallBacked(s, p);
    assert forall q :: q in s.calls ==> CallBacked(s, q);
    assert forall i :: i in s.spawns ==> SpawnBacked(s, i);
  }

  ghost predicate AllSafe(c: Config, run: seq<Step>)
    requires Possible(c, run)
  {
    run == [] || (AllSafe(c, run[..|run| - 1]) && Safe(After(c, run[..|run| - 1]), run[|run| - 1]))
  }

  ghost predicate AlwaysBacked(c: Config, run: seq<Step>)
    requires Possible(c, run)
  {
    AllBacked(c, After(c, run)) && (run == [] || AlwaysBacked(c, run[..|run| - 1]))
  }

  /** The claims stay backed all through a run exactly when each of its steps is safe. */
  lemma {:induction false} BackedExactly(c: Config, run: seq<Step>)
    requires Possible(c, run) && c.leaseTtl > 0
    ensures AlwaysBacked(c, run) <==> AllSafe(c, run)
  {
    if run != [] {
      var front := run[..|run| - 1];
      BackedExactly(c, front);
      if AlwaysBacked(c, front) {
        BackedNow(c, front);
        StepIsSafeExactly(c, After(c, front), run[|run| - 1]);
      }
    }
  }

  lemma BackedNow(c: Config, run: seq<Step>)
    requires Possible(c, run) && AlwaysBacked(c, run)
    ensures AllBacked(c, After(c, run))
  {
  }

  /** One running fix: two live spawns on one signature whose leases have not run out belong
      to one incident. */
  predicate OneFix(s: State, i: nat, j: nat) {
    (i in s.spawns && j in s.spawns && s.spawns[i].stage.Live? && s.spawns[j].stage.Live?
     && s.spawns[i].sig == s.spawns[j].sig && s.now < s.spawns[i].until && s.now < s.spawns[j].until)
      ==> s.spawns[i].inc == s.spawns[j].inc
  }

  /** One fix per signature over every run of safe steps. */
  lemma OneFixPerSignature(c: Config, run: seq<Step>, i: nat, j: nat)
    requires Possible(c, run) && c.leaseTtl > 0 && AllSafe(c, run)
    ensures OneFix(After(c, run), i, j)
  {
    BackedExactly(c, run);
    BackedNow(c, run);
    var s := After(c, run);
    if i in s.spawns && j in s.spawns { assert SpawnBacked(s, i) && SpawnBacked(s, j); }
  }

  /** A call's way from the gate to the live spawn, with nobody in between. */
  function Lives(run: seq<Step>, p: nat, sig: Sig, inc: Inc): seq<Step> {
    run + [Gate(p, p, sig, inc)] + [Grant(p)] + [Answer(p, true)] + [MarkLive(p)]
  }

  lemma GoesLive(c: Config, run: seq<Step>, s: State, p: nat, sig: Sig, inc: Inc)
    requires Reaches(c, run, s) && p !in s.calls && !HeldByOther(s, sig, inc) && |LiveIds(s)| < c.maxConcurrent
    ensures Reaches(c, Lives(run, p, sig, inc),
                    s.(leases := s.leases[sig := Lease(inc, s.now + c.leaseTtl)],
                       spawns := s.spawns[p := Spawn(sig, inc, Live, s.now + c.leaseTtl)]))
  {
    var s1 := s.(leases := if sig in s.leases && s.leases[sig].holder != inc then s.leases - {sig} else s.leases,
                 calls := s.calls[p := Call(p, sig, inc, Gated)]);
    assert Enabled(c, s, Gate(p, p, sig, inc)) && Do(c, s, Gate(p, p, sig, inc)) == s1;
    GoesOn(c, run, s, Gate(p, p, sig, inc));
    Finishes(c, run + [Gate(p, p, sig, inc)], s1, p, sig, inc);
    var t := Finished(c, s1, p, sig, inc);
    assert t.calls == s.calls;
    assert t.leases == s.leases[sig := Lease(inc, s.now + c.leaseTtl)];
  }

  /** A release by a spawn whose own lease has run out takes another incident's: on this
      run every answer is in time, and still two incidents hold running fixes for one
      signature at the end. */
  lemma LateReleaseBreaksIt()
    ensures var c := Config(3, 100);
      var run := Lives(Lives(Lives([], 0, 0, 0) + [Tick(101)], 1, 0, 1) + [Decide(0, Discard, true)], 2, 0, 2);
      Possible(c, run) && !OneFix(After(c, run), 1, 2)
  {
    var c := Config(3, 100);
    var s0 := Boot();
    assert LiveIds(s0) == {};
    GoesLive(c, [], s0, 0, 0, 0);
    var r1, s1 := Lives([], 0, 0, 0), State(0, map[0 := Lease(0, 100)], map[0 := Spawn(0, 0, Live, 100)], map[], {});
    GoesOn(c, r1, s1, Tick(101));
    var s2 := s1.(now := 101);
    assert LiveIds(s2) == {0};
    GoesLive(c, r1 + [Tick(101)], s2, 1, 0, 1);
    var r3 := Lives(r1 + [Tick(101)], 1, 0, 1);
    var s3 := State(101, map[0 := Lease(1, 201)], map[0 := Spawn(0, 0, Live, 100), 1 := Spawn(0, 1, Live, 201)], map[], {});
    assert Reaches(c, r3, s3);
    GoesOn(c, r3, s3, Decide(0, Discard, true));
    var s4 := State(101, map[], map[0 := Spawn(0, 0, Discarded, 100), 1 := Spawn(0, 1, Live, 201)], map[], {});
    assert Do(c, s3, Decide(0, Discard, true)) == s4;
    assert LiveIds(s4) == {1};
    GoesLive(c, r3 + [Decide(0, Discard, true)], s4, 2, 0, 2);
  }
}
