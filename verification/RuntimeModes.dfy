/** The runtime's state machine (internal/hub/runtime.go, errors.go, status.go): how a
    boot, an offer, a supervisor pass and a rewire move the mode, what they write to the
    ledger, and what a sender is told. Each operation is one atomic step; what happens
    between the locks of a rewire is ConsumerSlot. */
module RuntimeModes {
  import opened Basics

  datatype Mode = Standalone | Up | DegradedBoot | Unavailable | Refusing

  datatype Code = NoCode | Hub001 | Hub002 | Hub003 | Hub004 | Hub005 | Hub007
                | Hub009 | Hub010 | Hub012 | Hub015 | Hub016 | RedisRefusing

  datatype Reason = Fine | RedisAuth | RedisDown | RedisRefuses | ArchivePaused

  /** An error as the classifiers look at it: its code, whether its chain holds a
      cancelled or an expired context, and what the server's text says. */
  datatype Failure = Failure(code: Code, cancelled: bool, expired: bool, noGroup: bool, auth: bool)

  function Plain(code: Code): Failure { Failure(code, false, false, false, false) }

  function ReasonFor(code: Code, requireRedis: bool): Reason {
    match code
    case Hub002 => RedisAuth
    case Hub003 => RedisDown
    case Hub004 => if requireRedis then RedisRefuses else RedisDown
    case Hub009 => ArchivePaused
    case Hub010 => ArchivePaused
    case Hub012 => ArchivePaused
    case _ => Fine
  }

  /** The caller's request ended; an expired deadline counts only when the caller's own
      context says so. */
  predicate RequestEnded(f: Failure, callerExpired: bool) { f.cancelled || (f.expired && callerExpired) }

  predicate QueueFailure(f: Failure) {
    !RequestEnded(f, false) && (f.code.Hub002? || f.code.Hub003? || f.code.Hub004? || f.noGroup || f.auth)
  }

  /** What a refused sender is answered over HTTP. */
  function Status(f: Failure): nat { if f.code.RedisRefusing? then 503 else 429 }

  // ---- the state and its operations ----

  datatype Record = Lost(code: Code, reason: Reason) | Restored

  /** A lifecycle record the runtime tried to write; the ledger's error is ignored. */
  datatype Attempt = Attempt(rec: Record, landed: bool)

  datatype Config = Config(lightHub: bool, requireRedis: bool, standalone: bool)

  /** `wirings` counts the doors installed so far: none, or the one of the last wiring. */
  datatype Hub = Hub(mode: Mode, reason: Reason, bootCode: Code, wirings: nat, probeFailures: nat,
                     attempts: seq<Attempt>, fallbacks: nat)

  /** How a rewire goes: whether the old consumer stopped in time, the dial, the group,
      and whether the `redis_restored` record reached the ledger. */
  datatype Wire = Wire(stopped: bool, dial: Option<Failure>, group: Option<Failure>, landed: bool)

  datatype Answer = Accepted | Failed(f: Failure)

  datatype Boot = Booted(hub: Hub) | BootRefused(f: Failure)

  function Attached(h: Hub): Hub { h.(wirings := h.wirings + 1, mode := Up, reason := Fine) }

  function Opened(cfg: Config, dial: Option<Failure>, group: Option<Failure>): Boot {
    var off := Hub(Standalone, Fine, NoCode, 0, 0, [], 0);
    if !cfg.lightHub then Booted(off)
    else match dial
      case Some(f) =>
        if cfg.requireRedis then BootRefused(f)
        else Booted(off.(mode := DegradedBoot, reason := ReasonFor(f.code, false), bootCode := f.code))
      case None => if group.Some? then BootRefused(group.value) else Booted(Attached(off))
  }

  predicate Degraded(m: Mode) { !m.Up? && !m.Standalone? }

  /** The error moves the mode: it is about the queue and it names its cause. */
  predicate Attributable(cfg: Config, f: Failure, callerExpired: bool) {
    && !RequestEnded(f, callerExpired) && QueueFailure(f)
    && !f.code.NoCode? && !ReasonFor(f.code, cfg.requireRedis).Fine?
  }

  function MarkedLost(cfg: Config, h: Hub, f: Failure, callerExpired: bool, landed: bool): Hub {
    if Degraded(h.mode) || !Attributable(cfg, f, callerExpired) then h
    else
      var reason := ReasonFor(f.code, cfg.requireRedis);
      h.(mode := if cfg.requireRedis then Refusing else Unavailable, reason := reason,
         attempts := h.attempts + [Attempt(Lost(f.code, reason), landed)])
  }

  function Reconnected(cfg: Config, h: Hub, w: Wire): Hub {
    if !w.stopped then h
    else match w.dial
      case Some(f) =>
        h.(mode := if cfg.requireRedis then Refusing else Unavailable, reason := ReasonFor(f.code, cfg.requireRedis))
      case None =>
        if w.group.Some? then h.(mode := Refusing, reason := RedisDown)
        else var a := Attached(h); a.(attempts := a.attempts + [Attempt(Restored, w.landed)])
  }

  /** A supervisor pass: `probe` is the liveness probe's error, asked only while the mode
      says up. */
  function Supervised(cfg: Config, h: Hub, probe: Option<Failure>, callerExpired: bool, landed: bool, w: Wire): Hub {
    if !h.mode.Up? then Reconnected(cfg, h.(probeFailures := 0), w)
    else if probe.None? then h.(probeFailures := 0)
    else if !probe.value.noGroup && h.probeFailures + 1 < 2 then h.(probeFailures := h.probeFailures + 1)
    else Reconnected(cfg, MarkedLost(cfg, h, probe.value, callerExpired, landed).(probeFailures := 0), w)
  }

  /** `door` and `local` are the errors of the two write paths, if taken. */
  function Ingested(cfg: Config, h: Hub, door: Option<Failure>, local: Option<Failure>, callerExpired: bool, landed: bool): Hub {
    match h.mode
    case Up => if door.Some? then MarkedLost(cfg, h, door.value, callerExpired, landed) else h
    case DegradedBoot => if cfg.standalone && local.None? then h.(fallbacks := h.fallbacks + 1) else h
    case Standalone => h
    case _ => h
  }

  function Answered(cfg: Config, h: Hub, door: Option<Failure>, local: Option<Failure>): Answer {
    match h.mode
    case Up => if door.Some? then Failed(door.value) else Accepted
    case DegradedBoot =>
      if !cfg.standalone then Failed(Plain(Hub004)) else if local.Some? then Failed(local.value) else Accepted
    case Standalone =>
      if !cfg.standalone then Failed(Plain(Hub001)) else if local.Some? then Failed(local.value) else Accepted
    case _ => Failed(Plain(if cfg.requireRedis then RedisRefusing else Hub004))
  }

  // ---- runs ----

  datatype Event =
    | Offer(door: Option<Failure>, local: Option<Failure>, callerExpired: bool, landed: bool)
    | Pass(probe: Option<Failure>, callerExpired: bool, landed: bool, wire: Wire)
    | Rewire(wire: Wire)

  function Next(cfg: Config, h: Hub, e: Event): Hub {
    match e
    case Offer(door, local, x, landed) => Ingested(cfg, h, door, local, x, landed)
    case Pass(probe, x, landed, w) => Supervised(cfg, h, probe, x, landed, w)
    case Rewire(w) => Reconnected(cfg, h, w)
  }

  function After(cfg: Config, h: Hub, run: seq<Event>): Hub {
    if run == [] then h else Next(cfg, After(cfg, h, run[..|run| - 1]), run[|run| - 1])
  }

  // ---- require_redis ----

  /** With require_redis an enabled runtime is up or refusing, has a door whenever it is
      up, never takes the standalone path, and refuses every offer made outside `up`
      with the code that is answered 503. */
  lemma {:induction false} RequiredRedisNeverFallsBack(cfg: Config, dial: Option<Failure>, group: Option<Failure>, run: seq<Event>,
                                                       door: Option<Failure>, local: Option<Failure>)
    requires cfg.lightHub && cfg.requireRedis && Opened(cfg, dial, group).Booted?
    ensures var h := After(cfg, Opened(cfg, dial, group).hub, run);
      && (h.mode.Up? || h.mode.Refusing?) && h.wirings > 0 && h.fallbacks == 0
      && (!h.mode.Up? ==> Answered(cfg, h, door, local).Failed? && Status(Answered(cfg, h, door, local).f) == 503)
  {
    if run != [] { RequiredRedisNeverFallsBack(cfg, dial, group, run[..|run| - 1], door, local); }
  }

  /** In any configuration a runtime that is up has a door, and one that is refusing or
      unavailable accepts nothing. */
  lemma {:induction false} UpHasADoor(cfg: Config, dial: Option<Failure>, group: Option<Failure>, run: seq<Event>,
                                      door: Option<Failure>, local: Option<Failure>)
    requires Opened(cfg, dial, group).Booted?
    ensures var h := After(cfg, Opened(cfg, dial, group).hub, run);
      && (h.mode.Up? ==> h.wirings > 0)
      && (h.mode.Unavailable? || h.mode.Refusing? ==> Answered(cfg, h, door, local).Failed?)
  {
    if run != [] { UpHasADoor(cfg, dial, group, run[..|run| - 1], door, local); }
  }

  /** What an answer means, over every run: an event is accepted exactly when the path of the
      mode is there and reported no error, the door in `up` and the standalone path at a
      degraded boot or without a hub; and the error of a path that failed is the answer. */
  lemma AcceptedWasTaken(cfg: Config, dial: Option<Failure>, group: Option<Failure>, run: seq<Event>,
                         door: Option<Failure>, local: Option<Failure>)
    requires Opened(cfg, dial, group).Booted?
    ensures var h := After(cfg, Opened(cfg, dial, group).hub, run); var a := Answered(cfg, h, door, local);
      && (a.Accepted? <==>
            || (h.mode.Up? && h.wirings > 0 && door.None?)
            || ((h.mode.DegradedBoot? || h.mode.Standalone?) && cfg.standalone && local.None?))
      && (h.mode.Up? && door.Some? ==> a == Failed(door.value))
      && ((h.mode.DegradedBoot? || h.mode.Standalone?) && cfg.standalone && local.Some? ==> a == Failed(local.value))
  {
    UpHasADoor(cfg, dial, group, run, door, local);
  }

  /** A boot is up exactly with a Redis that answers and a usable group, and is refused
      exactly by an unusable group or by a Redis that is required and does not answer. */
  lemma BootIsExact(cfg: Config, dial: Option<Failure>, group: Option<Failure>)
    ensures var boot := Opened(cfg, dial, group);
      && (boot.Booted? && boot.hub.mode.Up? <==> cfg.lightHub && dial.None? && group.None?)
      && (boot.BootRefused? <==> cfg.lightHub && (if dial.Some? then cfg.requireRedis else group.Some?))
      && (boot.BootRefused? ==> Some(boot.f) == if dial.Some? then dial else group)
      && (boot.Booted? && boot.hub.mode.DegradedBoot? ==> dial.Some? && boot.hub.bootCode == dial.value.code)
  {
  }

  /** A boot that finds no Redis and need not have it still takes events. */
  lemma DegradedBootStillAccepts(cfg: Config, dial: Failure, group: Option<Failure>, door: Option<Failure>)
    requires cfg.lightHub && !cfg.requireRedis && cfg.standalone
    ensures Opened(cfg, Some(dial), group).Booted? && Answered(cfg, Opened(cfg, Some(dial), group).hub, door, None).Accepted?
  {
  }

  predicate GroupFailed(e: Event) {
    (e.Pass? || e.Rewire?) && e.wire.stopped && e.wire.dial.None? && e.wire.group.Some?
  }

  /** Without require_redis only an unusable group makes the runtime refuse; a loss makes it
      unavailable. */
  lemma {:induction false} RefusingMeansNoGroup(cfg: Config, dial: Option<Failure>, group: Option<Failure>, run: seq<Event>)
    requires !cfg.requireRedis && Opened(cfg, dial, group).Booted?
    ensures After(cfg, Opened(cfg, dial, group).hub, run).mode.Refusing? ==> exists e :: e in run && GroupFailed(e)
  {
    if run != [] {
      var front, e := run[..|run| - 1], run[|run| - 1];
      RefusingMeansNoGroup(cfg, dial, group, front);
      assert run == front + [e] && e in run;
      if After(cfg, Opened(cfg, dial, group).hub, front).mode.Refusing? {
        var x :| x in front && GroupFailed(x);
        assert x in run;
      }
    }
  }

  /** The events of a run that the standalone path took at a degraded boot. */
  function TakenOver(cfg: Config, h: Hub, run: seq<Event>): nat {
    if run == [] then 0
    else
      var front, e := run[..|run| - 1], run[|run| - 1];
      var s := After(cfg, h, front);
      TakenOver(cfg, h, front)
      + if e.Offer? && s.mode.DegradedBoot? && Answered(cfg, s, e.door, e.local).Accepted? then 1 else 0
  }

  /** Each of them is counted, and nothing else is. */
  lemma {:induction false} FallbacksAreCounted(cfg: Config, dial: Option<Failure>, group: Option<Failure>, run: seq<Event>)
    requires Opened(cfg, dial, group).Booted?
    ensures var h := Opened(cfg, dial, group).hub; After(cfg, h, run).fallbacks == TakenOver(cfg, h, run)
  {
    if run != [] { FallbacksAreCounted(cfg, dial, group, run[..|run| - 1]); }
  }

  /** The one refusal that is not a 503 under require_redis is the offer that discovers
      the loss: it is answered with the door's own error. */
  lemma RefusalIs503Exactly(cfg: Config, h: Hub, door: Option<Failure>, local: Option<Failure>)
    requires cfg.requireRedis && (h.mode.Up? || h.mode.Refusing?)
    requires door.Some? ==> !door.value.code.RedisRefusing?
    ensures var a := Answered(cfg, h, door, local);
      a.Failed? ==> (Status(a.f) == 503 <==> h.mode.Refusing?)
  {
  }

  /** The standalone path is left for good by the first rewire attempt that gets past
      the old consumer, whether it succeeds or not. */
  lemma {:induction false} StandalonePathIsLeftForGood(cfg: Config, h: Hub, run: seq<Event>)
    requires Degraded(h.mode) || h.mode.Up?
    ensures After(cfg, h, run).mode.DegradedBoot? ==>
      h.mode.DegradedBoot? && forall e :: e in run ==> (e.Rewire? || e.Pass?) ==> !e.wire.stopped
    ensures !After(cfg, h, run).mode.Standalone?
  {
    if run != [] {
      StandalonePathIsLeftForGood(cfg, h, run[..|run| - 1]);
      assert run == run[..|run| - 1] + [run[|run| - 1]];
    }
  }

  // ---- losses and recoveries ----

  predicate QueueCode(c: Code) { c.Hub002? || c.Hub003? || c.Hub004? }

  predicate ArchiveCode(c: Code) { c.Hub009? || c.Hub010? || c.Hub012? }

  /** A failed offer or probe moves the mode exactly when it is not the caller's own
      request ending and carries one of the queue's three codes (or one of the archive's,
      over a server that answered NOGROUP or refused the credentials). */
  lemma LossIsAttributed(cfg: Config, h: Hub, f: Failure, callerExpired: bool, landed: bool)
    requires h.mode.Up?
    ensures MarkedLost(cfg, h, f, callerExpired, landed) != h <==>
      && !f.cancelled && !(f.expired && callerExpired)
      && (QueueCode(f.code) || (ArchiveCode(f.code) && (f.noGroup || f.auth)))
  {
    var t := MarkedLost(cfg, h, f, callerExpired, landed);
    if Attributable(cfg, f, callerExpired) { assert t.mode != h.mode; }
  }

  /** Between any two losses there is a recovery, in the order they were recorded. */
  predicate Alternate(recs: seq<Record>) {
    forall i :: 0 <= i < |recs| - 1 ==> !(recs[i].Lost? && recs[i + 1].Lost?)
  }

  predicate NamesItsCause(recs: seq<Record>) {
    forall i :: 0 <= i < |recs| && recs[i].Lost? ==> !recs[i].code.NoCode? && !recs[i].reason.Fine?
  }

  function Recs(attempts: seq<Attempt>): seq<Record> {
    seq(|attempts|, i requires 0 <= i < |attempts| => attempts[i].rec)
  }

  /** What of the attempts is in the ledger. */
  function Landed(attempts: seq<Attempt>): seq<Record> {
    if attempts == [] then []
    else
      var last := attempts[|attempts| - 1];
      Landed(attempts[..|attempts| - 1]) + if last.landed then [last.rec] else []
  }

  ghost predicate Recorded(h: Hub) {
    && Alternate(Recs(h.attempts)) && NamesItsCause(Recs(h.attempts))
    && (h.attempts != [] && h.attempts[|h.attempts| - 1].rec.Lost? ==> Degraded(h.mode))
  }

  lemma RecordedKept(cfg: Config, h: Hub, e: Event)
    requires Recorded(h)
    ensures Recorded(Next(cfg, h, e))
  {
    match e
    case Offer(door, local, x, landed) => if door.Some? { LostKept(cfg, h, door.value, x, landed); }
    case Pass(probe, x, landed, w) =>
      var m := if probe.Some? then MarkedLost(cfg, h, probe.value, x, landed) else h;
      if probe.Some? { LostKept(cfg, h, probe.value, x, landed); }
      assert Recorded(m.(probeFailures := 0)) && Recorded(h.(probeFailures := 0));
      RestoredKept(cfg, m.(probeFailures := 0), w);
      RestoredKept(cfg, h.(probeFailures := 0), w);
    case Rewire(w) => RestoredKept(cfg, h, w);
  }

  lemma LostKept(cfg: Config, h: Hub, f: Failure, x: bool, landed: bool)
    requires Recorded(h)
    ensures Recorded(MarkedLost(cfg, h, f, x, landed))
  {
    var t := MarkedLost(cfg, h, f, x, landed);
    if t != h { assert Recs(t.attempts) == Recs(h.attempts) + [t.attempts[|h.attempts|].rec]; }
  }

  lemma RestoredKept(cfg: Config, h: Hub, w: Wire)
    requires Recorded(h)
    ensures Recorded(Reconnected(cfg, h, w))
  {
    var t := Reconnected(cfg, h, w);
    if t.attempts != h.attempts { assert Recs(t.attempts) == Recs(h.attempts) + [Restored]; }
  }

  /** Over every run two `redis_lost` records the runtime writes have a `redis_restored`
      between them, and each names a code and a reason. */
  lemma {:induction false} LossesAlternate(cfg: Config, dial: Option<Failure>, group: Option<Failure>, run: seq<Event>)
    requires Opened(cfg, dial, group).Booted?
    ensures Recorded(After(cfg, Opened(cfg, dial, group).hub, run))
  {
    if run != [] {
      LossesAlternate(cfg, dial, group, run[..|run| - 1]);
      RecordedKept(cfg, After(cfg, Opened(cfg, dial, group).hub, run[..|run| - 1]), run[|run| - 1]);
    }
  }

  predicate RestoresLand(attempts: seq<Attempt>) {
    forall i :: 0 <= i < |attempts| && attempts[i].rec.Restored? ==> attempts[i].landed
  }

  /** The ledger itself alternates when no `redis_restored` append was lost. */
  lemma {:induction false} LedgerAlternates(attempts: seq<Attempt>)
    requires Alternate(Recs(attempts)) && RestoresLand(attempts)
    ensures Alternate(Landed(attempts))
    ensures Landed(attempts) != [] && Landed(attempts)[|Landed(attempts)| - 1].Lost? ==>
      attempts[|attempts| - 1].rec.Lost?
  {
    if attempts != [] {
      var front, last := attempts[..|attempts| - 1], attempts[|attempts| - 1];
      forall i | 0 <= i < |front| - 1 ensures !(Recs(front)[i].Lost? && Recs(front)[i + 1].Lost?) {
        assert Recs(front)[i] == Recs(attempts)[i] && Recs(front)[i + 1] == Recs(attempts)[i + 1];
      }
      LedgerAlternates(front);
      if front != [] && last.rec.Lost? {
        assert Recs(attempts)[|front| - 1] == front[|front| - 1].rec && Recs(attempts)[|front|] == last.rec;
      }
    }
  }

  predicate LandedLoss(attempts: seq<Attempt>, i: nat) {
    i < |attempts| && attempts[i].rec.Lost? && attempts[i].landed
  }

  predicate RestoreLanded(attempts: seq<Attempt>, k: nat) {
    k < |attempts| && attempts[k].rec.Restored? && attempts[k].landed
  }

  /** A recovery in between reached the ledger. */
  ghost predicate Apart(attempts: seq<Attempt>, i: nat, j: nat) {
    exists k: nat :: i < k < j && RestoreLanded(attempts, k)
  }

  ghost predicate Separated(attempts: seq<Attempt>) {
    forall i: nat, j: nat :: i < j && LandedLoss(attempts, i) && LandedLoss(attempts, j) ==> Apart(attempts, i, j)
  }

  /** The last record in the ledger is that of an attempt after which none landed. */
  lemma {:induction false} LastLanded(attempts: seq<Attempt>) returns (l: nat)
    requires Landed(attempts) != []
    ensures l < |attempts| && attempts[l].landed && attempts[l].rec == Landed(attempts)[|Landed(attempts)| - 1]
    ensures forall m :: l < m < |attempts| ==> !attempts[m].landed
  {
    if attempts[|attempts| - 1].landed {
      l := |attempts| - 1;
    } else {
      l := LastLanded(attempts[..|attempts| - 1]);
    }
  }

  lemma {:induction false} LandedNone(attempts: seq<Attempt>, i: nat)
    requires Landed(attempts) == [] && i < |attempts|
    ensures !attempts[i].landed
  {
    if i < |attempts| - 1 { LandedNone(attempts[..|attempts| - 1], i); }
  }

  /** The ledger alternates exactly when between any two losses in it a recovery landed. */
  lemma {:induction false} LedgerAlternatesExactly(attempts: seq<Attempt>)
    ensures Alternate(Landed(attempts)) <==> Separated(attempts)
  {
    if attempts != [] {
      var front, n := attempts[..|attempts| - 1], |attempts| - 1;
      LedgerAlternatesExactly(front);
      SeparatedSplit(attempts, front, n);
      if LandedLoss(attempts, n) { NextLoss(attempts, front, n); }
      else {
        AlternateSplit(Landed(front), attempts[n].rec);
        assert Landed(front) + [] == Landed(front);
      }
    }
  }

  lemma SeparatedSplit(attempts: seq<Attempt>, front: seq<Attempt>, n: nat)
    requires n == |attempts| - 1 && front == attempts[..n]
    ensures Separated(attempts) <==>
      Separated(front) && (LandedLoss(attempts, n) ==> forall i: nat :: i < n && LandedLoss(front, i) ==> Apart(attempts, i, n))
  {
    assert forall i: nat :: i < n ==> (LandedLoss(attempts, i) <==> LandedLoss(front, i));
    assert forall k: nat :: k < n ==> (RestoreLanded(attempts, k) <==> RestoreLanded(front, k));
    assert forall i: nat, j: nat :: j < n ==> (Apart(attempts, i, j) <==> Apart(front, i, j));
    assert forall j: nat :: LandedLoss(attempts, j) ==> j <= n;
  }

  /** One more loss keeps the ledger alternating exactly when the last record is no loss. */
  lemma NextLoss(attempts: seq<Attempt>, front: seq<Attempt>, n: nat)
    requires n == |attempts| - 1 && front == attempts[..n] && LandedLoss(attempts, n)
    ensures Alternate(Landed(attempts)) <==>
      Alternate(Landed(front)) && forall i: nat :: i < n && LandedLoss(front, i) ==> Apart(attempts, i, n)
  {
    var was, all := Landed(front), Landed(attempts);
    assert all == was + [attempts[n].rec];
    assert Alternate(all) <==> Alternate(was) && (was != [] ==> !was[|was| - 1].Lost?) by {
      AlternateSplit(was, attempts[n].rec);
    }
    if was == [] {
      forall i: nat | i < n ensures !LandedLoss(front, i) { LandedNone(front, i); }
    } else {
      var l := LastLanded(front);
      if front[l].rec.Lost? {
        assert LandedLoss(front, l) && !Apart(attempts, l, n);
      } else {
        assert RestoreLanded(attempts, l);
        forall i: nat | i < n && LandedLoss(front, i) ensures Apart(attempts, i, n) { assert i < l; }
      }
    }
  }

  lemma AlternateSplit(recs: seq<Record>, r: Record)
    ensures Alternate(recs + [r]) <==> Alternate(recs) && (recs != [] && r.Lost? ==> !recs[|recs| - 1].Lost?)
  {
    var all, n := recs + [r], |recs|;
    assert forall i :: 0 <= i < n ==> all[i] == recs[i];
    if n > 0 { assert all[n - 1] == recs[n - 1] && all[n - 1 + 1] == r; }
  }

  /** The same attempts, with the losses landing as `flags` says. */
  function Relanded(attempts: seq<Attempt>, flags: seq<bool>): (r: seq<Attempt>)
    requires |flags| == |attempts|
    ensures |r| == |attempts|
    ensures forall i :: 0 <= i < |r| ==> r[i] == if attempts[i].rec.Lost? then Attempt(attempts[i].rec, flags[i]) else attempts[i]
  {
    seq(|attempts|, i requires 0 <= i < |attempts| =>
      if attempts[i].rec.Lost? then Attempt(attempts[i].rec, flags[i]) else attempts[i])
  }

  predicate IsLoss(attempts: seq<Attempt>, i: nat) { i < |attempts| && attempts[i].rec.Lost? }

  /** It alternates whichever of the losses land exactly when between any two losses, landed
      or not, the record of some recovery did. */
  lemma WhicheverLossesLand(attempts: seq<Attempt>)
    ensures (forall flags :: |flags| == |attempts| ==> Alternate(Landed(Relanded(attempts, flags))))
      <==> (forall i: nat, j: nat :: i < j && IsLoss(attempts, i) && IsLoss(attempts, j) ==> Apart(attempts, i, j))
  {
    if forall flags :: |flags| == |attempts| ==> Alternate(Landed(Relanded(attempts, flags))) {
      var flags := seq(|attempts|, i => true);
      assert Alternate(Landed(Relanded(attempts, flags)));
      AllLanding(attempts, flags);
    }
    if forall i: nat, j: nat :: i < j && IsLoss(attempts, i) && IsLoss(attempts, j) ==> Apart(attempts, i, j) {
      forall flags | |flags| == |attempts| ensures Alternate(Landed(Relanded(attempts, flags))) {
        AnyLanding(attempts, flags);
      }
    }
  }

  lemma AllLanding(attempts: seq<Attempt>, flags: seq<bool>)
    requires |flags| == |attempts| && (forall b :: b in flags ==> b) && Alternate(Landed(Relanded(attempts, flags)))
    ensures forall i: nat, j: nat :: i < j && IsLoss(attempts, i) && IsLoss(attempts, j) ==> Apart(attempts, i, j)
  {
    var a := Relanded(attempts, flags);
    LedgerAlternatesExactly(a);
    forall i: nat, j: nat | i < j && IsLoss(attempts, i) && IsLoss(attempts, j) ensures Apart(attempts, i, j) {
      assert flags[i] in flags && flags[j] in flags;
      assert LandedLoss(a, i) && LandedLoss(a, j);
      var k: nat :| i < k < j && RestoreLanded(a, k);
      assert RestoreLanded(attempts, k);
    }
  }

  lemma AnyLanding(attempts: seq<Attempt>, flags: seq<bool>)
    requires |flags| == |attempts|
    requires forall i: nat, j: nat :: i < j && IsLoss(attempts, i) && IsLoss(attempts, j) ==> Apart(attempts, i, j)
    ensures Alternate(Landed(Relanded(attempts, flags)))
  {
    var a := Relanded(attempts, flags);
    LedgerAlternatesExactly(a);
    forall i: nat, j: nat | i < j && LandedLoss(a, i) && LandedLoss(a, j) ensures Apart(a, i, j) {
      assert IsLoss(attempts, i) && IsLoss(attempts, j);
      var k: nat :| i < k < j && RestoreLanded(attempts, k);
      assert RestoreLanded(a, k);
    }
  }

  /** Without a landed recovery it fails: the write of `redis_restored` is not checked. */
  lemma LostRestoreLeavesTwoLosses()
    ensures var cfg := Config(true, false, false);
      var hub := Opened(cfg, None, None).hub;
      var lost := Offer(Some(Plain(Hub004)), None, false, true);
      Landed(After(cfg, hub, [lost, Rewire(Wire(true, None, None, false)), lost]).attempts)
        == [Lost(Hub004, RedisDown), Lost(Hub004, RedisDown)]
  {
    var cfg := Config(true, false, false);
    var h0 := Opened(cfg, None, None).hub;
    var lost := Offer(Some(Plain(Hub004)), None, false, true);
    var back := Rewire(Wire(true, None, None, false));
    var h1 := Next(cfg, h0, lost);
    var h2 := Next(cfg, h1, back);
    var h3 := Next(cfg, h2, lost);
    AfterThree(cfg, h0, lost, back, lost);
    LandedThree(Attempt(Lost(Hub004, RedisDown), true), Attempt(Restored, false), Attempt(Lost(Hub004, RedisDown), true));
    assert h3.attempts == [Attempt(Lost(Hub004, RedisDown), true), Attempt(Restored, false), Attempt(Lost(Hub004, RedisDown), true)];
  }

  lemma AfterThree(cfg: Config, h: Hub, x: Event, y: Event, z: Event)
    ensures After(cfg, h, [x, y, z]) == Next(cfg, Next(cfg, Next(cfg, h, x), y), z)
  {
    assert [x, y, z][..2] == [x, y] && [x, y][..1] == [x] && [x][..0] == [];
    assert After(cfg, h, []) == h;
    assert After(cfg, h, [x]) == Next(cfg, h, x);
    assert After(cfg, h, [x, y]) == Next(cfg, Next(cfg, h, x), y);
  }

  lemma LandedThree(a: Attempt, b: Attempt, c: Attempt)
    requires a.landed && !b.landed && c.landed
    ensures Landed([a, b, c]) == [a.rec, c.rec]
  {
    assert [a, b, c][..2] == [a, b] && [a, b][..1] == [a] && [a][..0] == [];
    assert Landed([a]) == [a.rec];
    assert Landed([a, b]) == [a.rec];
  }

  // ---- the probe ----

  /** The last supervisor pass of the run, if it was one whose probe got no answer. */
  predicate LastProbeUnanswered(cfg: Config, h: Hub, run: seq<Event>)
  {
    run != [] && var front, e := run[..|run| - 1], run[|run| - 1];
    if e.Pass? then After(cfg, h, front).mode.Up? && e.probe.Some? && !e.probe.value.noGroup && !LastProbeUnanswered(cfg, h, front)
    else LastProbeUnanswered(cfg, h, front)
  }

  /** One slow round trip never tears a working consumer down: while the mode stays up, a
      pass whose probe got no answer rewires only if the pass before had none either. */
  lemma {:induction false} OneSlowProbeIsForgiven(cfg: Config, dial: Option<Failure>, group: Option<Failure>, run: seq<Event>)
    requires Opened(cfg, dial, group).Booted?
    ensures var h0 := Opened(cfg, dial, group).hub;
      After(cfg, h0, run).probeFailures == if LastProbeUnanswered(cfg, h0, run) then 1 else 0
  {
    if run != [] { OneSlowProbeIsForgiven(cfg, dial, group, run[..|run| - 1]); }
  }

  lemma RewiresOnSecondSilence(cfg: Config, h: Hub, f: Failure, x: bool, landed: bool, w: Wire)
    requires h.mode.Up? && h.probeFailures <= 1 && w.stopped && w.dial.None? && w.group.None?
    ensures Supervised(cfg, h, Some(f), x, landed, w).wirings > h.wirings <==> (f.noGroup || h.probeFailures == 1)
  {
  }

  // ---- the stated reason ----

  /** The dial errors of an event name one of the queue's own causes. */
  predicate DialNamed(e: Event) {
    (e.Pass? || e.Rewire?) && e.wire.dial.Some? ==> QueueCode(e.wire.dial.value.code)
  }

  /** A degraded runtime says why, as long as every failed dial carried a code of the
      queue: a refused topology or persistence check (015, 016) leaves the reason empty. */
  lemma {:induction false} DegradedSaysWhy(cfg: Config, dial: Option<Failure>, group: Option<Failure>, run: seq<Event>)
    requires Opened(cfg, dial, group).Booted?
    requires dial.Some? ==> QueueCode(dial.value.code)
    requires forall e :: e in run ==> DialNamed(e)
    ensures var h := After(cfg, Opened(cfg, dial, group).hub, run);
      Degraded(h.mode) <==> !h.reason.Fine?
  {
    if run != [] {
      assert run == run[..|run| - 1] + [run[|run| - 1]];
      DegradedSaysWhy(cfg, dial, group, run[..|run| - 1]);
      ReasonKept(cfg, After(cfg, Opened(cfg, dial, group).hub, run[..|run| - 1]), run[|run| - 1]);
    }
  }

  lemma ReasonKept(cfg: Config, h: Hub, e: Event)
    requires (Degraded(h.mode) <==> !h.reason.Fine?) && DialNamed(e)
    ensures var t := Next(cfg, h, e); Degraded(t.mode) <==> !t.reason.Fine?
  {
  }

  lemma RewireSaysWhyExactly(cfg: Config, h: Hub, w: Wire)
    requires w.stopped
    ensures var t := Reconnected(cfg, h, w);
      Degraded(t.mode) && t.reason.Fine? <==> w.dial.Some? && ReasonFor(w.dial.value.code, cfg.requireRedis).Fine?
  {
  }

  // ---- the object ----

  class Runtime {
    const cfg: Config
    var mode: Mode
    var reason: Reason
    var bootCode: Code
    var wirings: nat
    var probeFailures: nat
    var attempts: seq<Attempt>
    var fallbacks: nat

    function View(): Hub
      reads this
    {
      Hub(mode, reason, bootCode, wirings, probeFailures, attempts, fallbacks)
    }

    /** A runtime before its boot has looked at anything. */
    constructor (cfg: Config)
      ensures this.cfg == cfg && View() == Hub(Standalone, Fine, NoCode, 0, 0, [], 0)
    {
      this.cfg := cfg;
      mode, reason, bootCode, wirings, probeFailures, attempts, fallbacks := Standalone, Fine, NoCode, 0, 0, [], 0;
    }

    method SetMode(m: Mode, why: Reason)
      modifies this`mode, this`reason
      ensures mode == m && reason == why
    {
      mode, reason := m, why;
    }

    method Open(dial: Option<Failure>, group: Option<Failure>) returns (refused: Option<Failure>)
      requires View() == Hub(Standalone, Fine, NoCode, 0, 0, [], 0)
      modifies this
      ensures refused.None? ==> Opened(cfg, dial, group) == Booted(View())
      ensures refused.Some? ==> Opened(cfg, dial, group) == BootRefused(refused.value)
    {
      if !cfg.lightHub { return None; }
      if dial.Some? {
        if cfg.requireRedis { return dial; }
        bootCode := dial.value.code;
        SetMode(DegradedBoot, ReasonFor(dial.value.code, false));
        return None;
      }
      refused := Attach(group);
    }

    method Attach(group: Option<Failure>) returns (refused: Option<Failure>)
      modifies this
      ensures refused == group
      ensures View() == if group.Some? then old(View()) else Attached(old(View()))
    {
      if group.Some? { return group; }
      wirings := wirings + 1;
      SetMode(Up, Fine);
      refused := None;
    }

    method MarkLost(f: Failure, callerExpired: bool, landed: bool)
      modifies this
      ensures View() == MarkedLost(cfg, old(View()), f, callerExpired, landed)
    {
      if Degraded(mode) { return; }
      if RequestEnded(f, callerExpired) { return; }
      if !QueueFailure(f) { return; }
      var why := ReasonFor(f.code, cfg.requireRedis);
      if f.code.NoCode? || why.Fine? { return; }
      SetMode(if cfg.requireRedis then Refusing else Unavailable, why);
      attempts := attempts + [Attempt(Lost(f.code, why), landed)];
    }

    method Reconnect(w: Wire) returns (live: bool)
      modifies this
      ensures View() == Reconnected(cfg, old(View()), w)
      ensures live <==> w.stopped && w.dial.None? && w.group.None?
    {
      if !w.stopped { return false; }
      if w.dial.Some? {
        SetMode(if cfg.requireRedis then Refusing else Unavailable, ReasonFor(w.dial.value.code, cfg.requireRedis));
        return false;
      }
      var refused := Attach(w.group);
      if refused.Some? {
        SetMode(Refusing, RedisDown);
        return false;
      }
      attempts := attempts + [Attempt(Restored, w.landed)];
      live := true;
    }

    method SuperviseOnce(probe: Option<Failure>, callerExpired: bool, landed: bool, w: Wire) returns (live: bool)
      modifies this
      ensures View() == Supervised(cfg, old(View()), probe, callerExpired, landed, w)
      ensures live ==> mode.Up?
    {
      if !mode.Up? {
        probeFailures := 0;
        live := Reconnect(w);
        return;
      }
      if probe.Some? {
        probeFailures := probeFailures + 1;
        if !probe.value.noGroup && probeFailures < 2 { return false; }
        MarkLost(probe.value, callerExpired, landed);
        probeFailures := 0;
        live := Reconnect(w);
        return;
      }
      probeFailures := 0;
      live := true;
    }

    method Ingest(door: Option<Failure>, local: Option<Failure>, callerExpired: bool, landed: bool) returns (a: Answer)
      modifies this
      ensures View() == Ingested(cfg, old(View()), door, local, callerExpired, landed)
      ensures a == Answered(cfg, old(View()), door, local)
    {
      match mode
      case Up =>
        if door.Some? {
          MarkLost(door.value, callerExpired, landed);
          return Failed(door.value);
        }
        a := Accepted;
      case DegradedBoot =>
        if !cfg.standalone { return Failed(Plain(Hub004)); }
        if local.Some? { return Failed(local.value); }
        fallbacks := fallbacks + 1;
        a := Accepted;
      case Standalone =>
        if !cfg.standalone { return Failed(Plain(Hub001)); }
        a := if local.Some? then Failed(local.value) else Accepted;
      case _ =>
        a := Failed(Plain(if cfg.requireRedis then RedisRefusing else Hub004));
    }
  }
}
