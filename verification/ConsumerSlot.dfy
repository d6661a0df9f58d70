/** Who runs the consumer (internal/hub/runtime.go, startConsumer, stopConsumer and
    reconnect): the registration slot, the goroutines and the callers, one lock region or
    channel operation a step, in any interleaving. */
module ConsumerSlot {
  import opened Basics

  /** A consumer goroutine: inside `Run`, or past `close(done)` and not yet at the
      deferred clearing of its registration, or gone. */
  datatype Life = Inside | Closing | Gone

  /** A caller of reconnect: it holds the rewire lock from `Locked` to `Wired`. */
  datatype Caller = Resting | Locked | Watching(run: Option<nat>) | Stopped | Wired

  /** `slot` is consumerCancel/consumerDone, set and cleared together; `wiring` counts the
      attaches, and `gens` says of which wiring a goroutine's consumer is. */
  datatype State = State(slot: Option<nat>, lives: seq<Life>, gens: seq<nat>, wiring: nat,
                         rewiring: Option<nat>, callers: map<nat, Caller>)

  datatype Step =
    | Start(p: nat)
    | Lock(p: nat) | Snapshot(p: nat) | SeeDone(p: nat) | TimeOut(p: nat)
    | DialFails(p: nat) | Attach(p: nat) | StartNew(p: nat)
    | Return(i: nat) | Clear(i: nat)

  /** An attached runtime whose consumer has not been started. */
  function Boot(): State { State(None, [], [], 1, None, map[]) }

  function PcOf(s: State, p: nat): Caller { if p in s.callers then s.callers[p] else Resting }

  predicate Enabled(s: State, x: Step) {
    match x
    case Start(p) => PcOf(s, p).Resting?
    case Lock(p) => PcOf(s, p).Resting? && s.rewiring.None?
    case Snapshot(p) => PcOf(s, p).Locked?
    case SeeDone(p) =>
      PcOf(s, p).Watching? &&
      (PcOf(s, p).run.Some? ==> PcOf(s, p).run.value < |s.lives| && !s.lives[PcOf(s, p).run.value].Inside?)
    case TimeOut(p) => PcOf(s, p).Watching? && PcOf(s, p).run.Some?
    case DialFails(p) => PcOf(s, p).Stopped?
    case Attach(p) => PcOf(s, p).Stopped?
    case StartNew(p) => PcOf(s, p).Wired?
    case Return(i) => i < |s.lives| && s.lives[i].Inside?
    case Clear(i) => i < |s.lives| && s.lives[i].Closing?
  }

  /** startConsumer's lock region: nothing happens while a registration stands. */
  function Started(s: State): State {
    if s.slot.Some? then s
    else s.(slot := Some(|s.lives|), lives := s.lives + [Inside], gens := s.gens + [s.wiring])
  }

  function Goes(s: State, p: nat, pc: Caller): State { s.(callers := s.callers[p := pc]) }

  function Unlocks(s: State, p: nat): State { Goes(s.(rewiring := None), p, Resting) }

  function Do(s: State, x: Step): State
    requires Enabled(s, x)
  {
    match x
    case Start(p) => Started(s)
    case Lock(p) => Goes(s.(rewiring := Some(p)), p, Locked)
    case Snapshot(p) => Goes(s, p, Watching(s.slot))
    case SeeDone(p) => Goes(s, p, Stopped)
    case TimeOut(p) => Unlocks(s, p)
    case DialFails(p) => Unlocks(s, p)
    case Attach(p) => Goes(s.(wiring := s.wiring + 1), p, Wired)
    case StartNew(p) => Unlocks(Started(s), p)
    case Return(i) => s.(lives := s.lives[i := Closing])
    case Clear(i) => s.(lives := s.lives[i := Gone], slot := if s.slot == Some(i) then None else s.slot)
  }

  predicate Possible(s: State, run: seq<Step>)
    decreases |run|
  {
    run == [] || (Enabled(s, run[0]) && Possible(Do(s, run[0]), run[1..]))
  }

  function After(s: State, run: seq<Step>): State
    requires Possible(s, run)
    decreases |run|
  {
    if run == [] then s else After(Do(s, run[0]), run[1..])
  }

  /** The registration names the one goroutine that is not gone. */
  ghost predicate Owned(s: State) {
    && |s.gens| == |s.lives|
    && (forall i :: 0 <= i < |s.lives| && !s.lives[i].Gone? ==> s.slot == Some(i))
    && (s.slot.Some? ==> s.slot.value < |s.lives| && !s.lives[s.slot.value].Gone?)
  }

  lemma OwnedKept(s: State, x: Step)
    requires Owned(s) && Enabled(s, x)
    ensures Owned(Do(s, x))
  {
  }

  lemma {:induction false} OwnedHolds(s: State, run: seq<Step>)
    requires Owned(s) && Possible(s, run)
    ensures Owned(After(s, run))
    decreases |run|
  {
    if run != [] {
      OwnedKept(s, run[0]);
      OwnedHolds(Do(s, run[0]), run[1..]);
    }
  }

  /** One consumer per state root: in every interleaving of starts, supervisor restarts
      and rewires, at most one goroutine is inside `Run`. */
  lemma OneConsumer(run: seq<Step>, i: nat, j: nat)
    requires Possible(Boot(), run)
    ensures var s := After(Boot(), run);
      i < |s.lives| && j < |s.lives| && s.lives[i].Inside? && s.lives[j].Inside? ==> i == j
  {
    OwnedHolds(Boot(), run);
  }

  /** A finishing consumer clears its own registration and never another's: when it gets
      to the clearing, the slot is its own. */
  lemma ClearsOnlyItsOwn(run: seq<Step>, i: nat)
    requires Possible(Boot(), run)
    ensures var s := After(Boot(), run);
      Enabled(s, Clear(i)) ==> s.slot == Some(i) && Do(s, Clear(i)).slot == None
  {
    OwnedHolds(Boot(), run);
  }

  /** The lock is held by a caller that is at work. */
  ghost predicate LockHeld(s: State) { s.rewiring.Some? ==> !PcOf(s, s.rewiring.value).Resting? }

  lemma {:induction false} LockHolds(s: State, run: seq<Step>)
    requires LockHeld(s) && Possible(s, run) && (forall p :: p in s.callers && !s.callers[p].Resting? ==> s.rewiring == Some(p))
    ensures LockHeld(After(s, run))
    decreases |run|
  {
    if run != [] { LockHolds(Do(s, run[0]), run[1..]); }
  }

  /** A rewire gives up its lock by steps of its own, whatever the consumer it waits for and
      the dial do: in every reachable state the holder can run to where it is free. */
  lemma LockIsReleased(run: seq<Step>, p: nat) returns (more: seq<Step>)
    requires Possible(Boot(), run) && After(Boot(), run).rewiring == Some(p)
    ensures var s := After(Boot(), run);
      Possible(s, more) && After(s, more).rewiring == None && forall x :: x in more ==> x in {Snapshot(p), SeeDone(p), TimeOut(p), DialFails(p), StartNew(p)}
  {
    var s := After(Boot(), run);
    LockHolds(Boot(), run);
    more := WayOut(s, p);
  }

  lemma WayOut(s: State, p: nat) returns (more: seq<Step>)
    requires !PcOf(s, p).Resting?
    ensures Possible(s, more) && After(s, more).rewiring == None
    ensures forall x :: x in more ==> x in {Snapshot(p), SeeDone(p), TimeOut(p), DialFails(p), StartNew(p)}
    decreases match PcOf(s, p) case Locked => 3 case Watching(_) => 2 case _ => 1
  {
    var pc := PcOf(s, p);
    var x := if pc.Locked? then Snapshot(p)
             else if pc.Watching? then (if pc.run.Some? then TimeOut(p) else SeeDone(p))
             else if pc.Stopped? then DialFails(p) else StartNew(p);
    var t := Do(s, x);
    var rest: seq<Step> := [];
    if pc.Locked? || x == SeeDone(p) { rest := WayOut(t, p); }
    more := [x] + rest;
    assert more[1..] == rest;
  }

  predicate Draining(s: State) { exists i :: 0 <= i < |s.lives| && s.lives[i].Inside? }

  /** When a rewire's own start leaves a consumer running: exactly when the goroutine it
      stopped has cleared its registration by then, or another caller has already
      started one. */
  lemma StartNewStartsExactly(run: seq<Step>, p: nat)
    requires Possible(Boot(), run) && Enabled(After(Boot(), run), StartNew(p))
    ensures var s := After(Boot(), run);
      Draining(Do(s, StartNew(p))) <==> (s.slot.Some? ==> s.slot.value < |s.lives| && s.lives[s.slot.value].Inside?)
  {
    OwnedHolds(Boot(), run);
    var s := After(Boot(), run);
    var t := Do(s, StartNew(p));
    if s.slot.None? { assert t.lives[|s.lives|].Inside?; }
    else if s.lives[s.slot.value].Inside? { assert t.lives[s.slot.value].Inside?; }
  }

  /** `done` closes before the registration is cleared, so a rewire can report success
      and leave nobody draining: its start finds the slot still taken. */
  lemma RewireMayLeaveNobody()
    ensures var run := [Start(0), Lock(0), Snapshot(0), Return(0)] + [SeeDone(0), Attach(0), StartNew(0), Clear(0)];
      && Possible(Boot(), run)
      && After(Boot(), run).slot == None && !Draining(After(Boot(), run))
  {
    var s4 := State(Some(0), [Closing], [1], 1, Some(0), map[0 := Watching(Some(0))]);
    var s8 := State(None, [Gone], [1], 2, None, map[0 := Resting]);
    StartThenStop(s4);
    StopThenStart(s4, s8);
    RunsJoin(Boot(), [Start(0), Lock(0), Snapshot(0), Return(0)], [SeeDone(0), Attach(0), StartNew(0), Clear(0)]);
  }

  lemma StartThenStop(s4: State)
    requires s4 == State(Some(0), [Closing], [1], 1, Some(0), map[0 := Watching(Some(0))])
    ensures var run := [Start(0), Lock(0), Snapshot(0), Return(0)]; Possible(Boot(), run) && After(Boot(), run) == s4
  {
    var s0 := Boot();
    var s1 := State(Some(0), [Inside], [1], 1, None, map[]);
    var s2 := State(Some(0), [Inside], [1], 1, Some(0), map[0 := Locked]);
    var s3 := State(Some(0), [Inside], [1], 1, Some(0), map[0 := Watching(Some(0))]);
    var run := [Start(0), Lock(0), Snapshot(0), Return(0)];
    assert Do(s0, run[0]) == s1 && Do(s1, run[1]) == s2 && Do(s2, run[2]) == s3 && Do(s3, run[3]) == s4;
    ChainIsRun([s0, s1, s2, s3, s4], run, 0);
  }

  lemma StopThenStart(s4: State, s8: State)
    requires s4 == State(Some(0), [Closing], [1], 1, Some(0), map[0 := Watching(Some(0))])
    requires s8 == State(None, [Gone], [1], 2, None, map[0 := Resting])
    ensures var run := [SeeDone(0), Attach(0), StartNew(0), Clear(0)]; Possible(s4, run) && After(s4, run) == s8
  {
    var s5 := State(Some(0), [Closing], [1], 1, Some(0), map[0 := Stopped]);
    var s6 := State(Some(0), [Closing], [1], 2, Some(0), map[0 := Wired]);
    var s7 := State(Some(0), [Closing], [1], 2, None, map[0 := Resting]);
    var run := [SeeDone(0), Attach(0), StartNew(0), Clear(0)];
    assert Do(s4, run[0]) == s5 && Do(s5, run[1]) == s6 && Do(s6, run[2]) == s7 && Do(s7, run[3]) == s8;
    ChainIsRun([s4, s5, s6, s7, s8], run, 0);
  }

  lemma {:induction false} RunsJoin(s: State, a: seq<Step>, b: seq<Step>)
    requires Possible(s, a) && Possible(After(s, a), b)
    ensures Possible(s, a + b) && After(s, a + b) == After(After(s, a), b)
    decreases |a|
  {
    if a == [] {
      assert a + b == b;
    } else {
      RunsJoin(Do(s, a[0]), a[1..], b);
      assert (a + b)[1..] == a[1..] + b;
    }
  }

  /** From there the next start, which the supervisor makes on its next pass, brings the
      consumer of the current wiring up. */
  lemma NextStartRecovers(run: seq<Step>, p: nat)
    requires Possible(Boot(), run) && Enabled(After(Boot(), run), Start(p))
    ensures var s := After(Boot(), run); var t := Do(s, Start(p));
      s.slot.None? ==> Draining(t) && |t.gens| == |s.gens| + 1 && t.gens[|s.gens|] == t.wiring
  {
    var s := After(Boot(), run);
    var t := Do(s, Start(p));
    OwnedHolds(Boot(), run);
    if s.slot.None? { assert t.lives[|s.lives|].Inside?; }
  }

  lemma {:induction false} ChainIsRun(states: seq<State>, run: seq<Step>, i: nat)
    requires |states| == |run| + 1 && i <= |run|
    requires forall j :: i <= j < |run| ==> Enabled(states[j], run[j]) && Do(states[j], run[j]) == states[j + 1]
    ensures Possible(states[i], run[i..]) && After(states[i], run[i..]) == states[|run|]
    decreases |run| - i
  {
    if i < |run| {
      ChainIsRun(states, run, i + 1);
      assert run[i..][1..] == run[i + 1..];
    }
  }

  // ---- of which wiring the running consumer is ----

  /** The consumer that runs is of the current wiring. */
  ghost predicate RunsCurrent(s: State) {
    |s.gens| == |s.lives| && forall i :: 0 <= i < |s.lives| && s.lives[i].Inside? ==> s.gens[i] == s.wiring
  }

  ghost predicate NoneNewer(s: State) {
    |s.gens| == |s.lives| && forall i :: 0 <= i < |s.gens| ==> s.gens[i] <= s.wiring
  }

  lemma {:induction false} NoneNewerHolds(s: State, run: seq<Step>)
    requires NoneNewer(s) && Possible(s, run)
    ensures NoneNewer(After(s, run))
    decreases |run|
  {
    if run != [] { NoneNewerHolds(Do(s, run[0]), run[1..]); }
  }

  /** With any callers, from any reachable state: a step leaves the running consumer on the
      current wiring exactly when it is no attach made while somebody drains. */
  lemma StepKeepsCurrentExactly(run: seq<Step>, x: Step)
    requires Possible(Boot(), run) && Enabled(After(Boot(), run), x) && RunsCurrent(After(Boot(), run))
    ensures RunsCurrent(Do(After(Boot(), run), x)) <==> (x.Attach? ==> !Draining(After(Boot(), run)))
  {
    AttachIsCurrentExactly(run, if x.Attach? then x.p else 0);
  }

  /** And an attach makes whatever runs current exactly when nothing does. */
  lemma AttachIsCurrentExactly(run: seq<Step>, p: nat)
    requires Possible(Boot(), run)
    ensures Enabled(After(Boot(), run), Attach(p)) ==>
      (RunsCurrent(Do(After(Boot(), run), Attach(p))) <==> !Draining(After(Boot(), run)))
  {
    NoneNewerHolds(Boot(), run);
    var s := After(Boot(), run);
    if Draining(s) {
      var i :| 0 <= i < |s.lives| && s.lives[i].Inside?;
      assert s.gens[i] < s.wiring + 1;
    }
  }

  /** No start falls between a rewire's lock and its release. */
  predicate Apart(s: State, run: seq<Step>)
    requires Possible(s, run)
    decreases |run|
  {
    run == [] || ((run[0].Start? ==> s.rewiring.None?) && Apart(Do(s, run[0]), run[1..]))
  }

  ghost predicate Current(s: State) {
    && Owned(s) && RunsCurrent(s)
    && (forall p :: p in s.callers && !s.callers[p].Resting? ==> s.rewiring == Some(p))
    && (s.rewiring.Some? ==> Halting(s, PcOf(s, s.rewiring.value)))
  }

  /** What the rewire under way knows of the consumer it stops. */
  ghost predicate Halting(s: State, pc: Caller) {
    && (pc.Stopped? || pc.Wired? ==> !Draining(s))
    && (pc.Watching? && pc.run.Some? ==> pc.run.value < |s.lives|)
    && (pc.Watching? ==> forall i :: 0 <= i < |s.lives| && s.lives[i].Inside? ==> pc.run == Some(i))
  }

  lemma CurrentKept(s: State, x: Step)
    requires Current(s) && Enabled(s, x) && (x.Start? ==> s.rewiring.None?)
    ensures Current(Do(s, x))
  {
    OwnedKept(s, x);
    var t := Do(s, x);
    if x.Return? || x.Clear? {
      assert |t.lives| == |s.lives|;
      assert forall i :: 0 <= i < |s.lives| && t.lives[i].Inside? ==> s.lives[i].Inside?;
    }
  }

  lemma {:induction false} CurrentHolds(s: State, run: seq<Step>)
    requires Current(s) && Possible(s, run) && Apart(s, run)
    ensures Current(After(s, run))
    decreases |run|
  {
    if run != [] {
      CurrentKept(s, run[0]);
      CurrentHolds(Do(s, run[0]), run[1..]);
    }
  }

  /** With any number of callers, as long as no start falls into a rewire, the consumer
      that runs is the one of the current wiring: nobody drains for an old door. */
  lemma RunningIsCurrent(run: seq<Step>)
    requires Possible(Boot(), run) && Apart(Boot(), run)
    ensures RunsCurrent(After(Boot(), run))
  {
    CurrentHolds(Boot(), run);
  }

  /** Every caller's step is the supervisor's: nobody else starts or rewires. */
  predicate BySupervisor(x: Step) { x.Return? || x.Clear? || x.p == 0 }

  /** So with the supervisor as the only caller, which is all there is: its starts and its
      rewires follow one another. */
  lemma SupervisorIsApart(run: seq<Step>)
    requires Possible(Boot(), run) && forall x :: x in run ==> BySupervisor(x)
    ensures Apart(Boot(), run) && RunsCurrent(After(Boot(), run))
  {
    OneAtATime(Boot(), run);
    RunningIsCurrent(run);
  }

  lemma {:induction false} OneAtATime(s: State, run: seq<Step>)
    requires Possible(s, run) && (s.rewiring.Some? ==> s.rewiring == Some(0) && !PcOf(s, 0).Resting?)
    requires forall x :: x in run ==> BySupervisor(x)
    ensures Apart(s, run)
    decreases |run|
  {
    if run != [] {
      assert BySupervisor(run[0]);
      assert forall x :: x in run[1..] ==> x in run;
      OneAtATime(Do(s, run[0]), run[1..]);
    }
  }

  /** With a second caller, for which reconnect is written but which nobody is yet, a
      supervisor restart can slip in between its stop and its attach, and the consumer of
      the replaced wiring stays. */
  lemma ForcedRewireMayKeepTheOld()
    ensures var run := [Lock(1), Snapshot(1), SeeDone(1), Start(0), Attach(1), StartNew(1)];
      && Possible(Boot(), run)
      && var s := After(Boot(), run); s.lives == [Inside] && s.gens == [1] && s.wiring == 2
  {
    var s0 := Boot();
    var s1 := Do(s0, Lock(1));
    var s2 := Do(s1, Snapshot(1));
    var s3 := Do(s2, SeeDone(1));
    var s4 := Do(s3, Start(0));
    var s5 := Do(s4, Attach(1));
    var s6 := Do(s5, StartNew(1));
    ChainIsRun([s0, s1, s2, s3, s4, s5, s6],
               [Lock(1), Snapshot(1), SeeDone(1), Start(0), Attach(1), StartNew(1)], 0);
  }
}
