/** The auth-failure throttle (internal/dashboard/ratelimit.go): a pruned sliding window
    that answers like one keeping every failure, as long as the clock does not run back. */
module Throttle {
  import opened Basics

  const MAX_KEYS := 4096

  datatype Config = Config(limit: int, window: nat)

  type Times = map<string, seq<int>>

  /** `block` is the instant an identity is blocked until. */
  datatype Table = Table(fails: Times, block: map<string, int>)

  function At(fails: Times, key: string): seq<int> { if key in fails then fails[key] else [] }

  /** The instants after `cut`, in order. */
  function Since(ts: seq<int>, cut: int): seq<int> {
    if ts == [] then []
    else if ts[|ts| - 1] > cut then Since(ts[..|ts| - 1], cut) + [ts[|ts| - 1]]
    else Since(ts[..|ts| - 1], cut)
  }

  // ---- the throttle ----

  /** What of a key's failures is kept when one more comes. */
  function Kept(fails: Times, key: string, now: int, cut: int): seq<int> { Since(At(fails, key), cut) + [now] }

  function Trimmed(fails: Times, cut: int): Times { if |fails| > MAX_KEYS then Pruned(fails, cut) else fails }

  function Pruned(fails: Times, cut: int): Times {
    map key | key in fails && Since(fails[key], cut) != [] :: fails[key]
  }

  function Failed(cfg: Config, t: Table, key: string, now: int): (Table, bool) {
    if key == "" || cfg.limit <= 0 then (t, false)
    else
      var kept := Kept(t.fails, key, now, now - cfg.window);
      if |kept| > cfg.limit then (Table(t.fails - {key}, t.block[key := now + cfg.window]), true)
      else (Table(Trimmed(t.fails[key := kept], now - cfg.window), t.block), false)
  }

  function Asked(t: Table, key: string, now: int): (Table, bool) {
    if key == "" then (t, false)
    else if key in t.block && now < t.block[key] then (t, true)
    else (t.(block := t.block - {key}), false)
  }

  function Succeeded(t: Table, key: string): Table { t.(fails := t.fails - {key}) }

  // ---- the reference: nothing is ever forgotten but by success or by a block ----

  function RefFailed(cfg: Config, t: Table, key: string, now: int): (Table, bool) {
    if key == "" || cfg.limit <= 0 then (t, false)
    else
      var all := At(t.fails, key) + [now];
      if |Since(all[..|all| - 1], now - cfg.window)| + 1 > cfg.limit
      then (Table(t.fails[key := []], t.block[key := now + cfg.window]), true)
      else (t.(fails := t.fails[key := all]), false)
  }

  predicate RefBlocked(t: Table, key: string, now: int) { key != "" && key in t.block && now < t.block[key] }

  // ---- runs ----

  datatype Op = Fail(key: string, now: int) | Ask(key: string, now: int) | Success(key: string)

  function Do(cfg: Config, t: Table, op: Op): (Table, bool) {
    match op
    case Fail(key, now) => Failed(cfg, t, key, now)
    case Ask(key, now) => Asked(t, key, now)
    case Success(key) => (if key == "" then t else Succeeded(t, key), false)
  }

  function RefDo(cfg: Config, t: Table, op: Op): (Table, bool) {
    match op
    case Fail(key, now) => RefFailed(cfg, t, key, now)
    case Ask(key, now) => (t, RefBlocked(t, key, now))
    case Success(key) => (if key == "" then t else t.(fails := t.fails[key := []]), false)
  }

  function Answers(cfg: Config, t: Table, ops: seq<Op>): seq<bool>
    decreases |ops|
  {
    if ops == [] then [] else [Do(cfg, t, ops[0]).1] + Answers(cfg, Do(cfg, t, ops[0]).0, ops[1..])
  }

  function RefAnswers(cfg: Config, t: Table, ops: seq<Op>): seq<bool>
    decreases |ops|
  {
    if ops == [] then [] else [RefDo(cfg, t, ops[0]).1] + RefAnswers(cfg, RefDo(cfg, t, ops[0]).0, ops[1..])
  }

  /** The clock of a run never runs back. */
  predicate Forward(ops: seq<Op>, from: int) {
    ops == [] || (if ops[0].Success? then Forward(ops[1..], from) else ops[0].now >= from && Forward(ops[1..], ops[0].now))
  }

  // ---- the window ----

  lemma {:induction false} SinceSince(ts: seq<int>, a: int, b: int)
    requires a <= b
    ensures Since(Since(ts, a), b) == Since(ts, b)
  {
    if ts != [] {
      SinceSince(ts[..|ts| - 1], a, b);
      if ts[|ts| - 1] > a { SinceAppend(Since(ts[..|ts| - 1], a), ts[|ts| - 1], b); }
    }
  }

  lemma SinceAppend(ts: seq<int>, x: int, cut: int)
    ensures Since(ts + [x], cut) == if x > cut then Since(ts, cut) + [x] else Since(ts, cut)
  {
    assert (ts + [x])[..|ts|] == ts;
  }

  /** From `now` on the two tables cannot be told apart: every window still to come holds
      the same failures, and every block still to be asked about is the same. */
  ghost predicate Alike(cfg: Config, t: Table, r: Table, now: int) {
    && (forall key, cut :: cut >= now - cfg.window ==> SameWindow(t, r, key, cut))
    && (forall key, at :: at >= now ==> (BlockedAt(t, key, at) <==> BlockedAt(r, key, at)))
  }

  predicate SameWindow(t: Table, r: Table, key: string, cut: int) {
    Since(At(t.fails, key), cut) == Since(At(r.fails, key), cut)
  }

  predicate BlockedAt(t: Table, key: string, at: int) { key in t.block && at < t.block[key] }

  lemma AlikeLater(cfg: Config, t: Table, r: Table, now: int, later: int)
    requires Alike(cfg, t, r, now) && later >= now
    ensures Alike(cfg, t, r, later)
  {
  }

  /** A failure crosses the limit by the count of its own window alone. */
  lemma CrossesByCount(cfg: Config, t: Table, key: string, now: int)
    ensures Failed(cfg, t, key, now).1 <==> key != "" && cfg.limit > 0 && |Since(At(t.fails, key), now - cfg.window)| + 1 > cfg.limit
    ensures RefFailed(cfg, t, key, now).1 <==> key != "" && cfg.limit > 0 && |Since(At(t.fails, key), now - cfg.window)| + 1 > cfg.limit
  {
    var all := At(t.fails, key) + [now];
    assert all[..|all| - 1] == At(t.fails, key);
  }

  lemma FailAlike(cfg: Config, t: Table, r: Table, key: string, now: int)
    requires Alike(cfg, t, r, now)
    ensures var (u, a) := Failed(cfg, t, key, now); var (v, b) := RefFailed(cfg, r, key, now);
      a == b && Alike(cfg, u, v, now)
  {
    CrossesByCount(cfg, t, key, now);
    CrossesByCount(cfg, r, key, now);
    assert SameWindow(t, r, key, now - cfg.window);
    if key != "" && cfg.limit > 0 {
      if Failed(cfg, t, key, now).1 { CrossedAlike(cfg, t, r, key, now); } else { KeptAlike(cfg, t, r, key, now); }
    }
  }

  lemma CrossedAlike(cfg: Config, t: Table, r: Table, key: string, now: int)
    requires Alike(cfg, t, r, now) && key != "" && cfg.limit > 0
    requires Failed(cfg, t, key, now).1 && RefFailed(cfg, r, key, now).1
    ensures Alike(cfg, Failed(cfg, t, key, now).0, RefFailed(cfg, r, key, now).0, now)
  {
    var u, v := Failed(cfg, t, key, now).0, RefFailed(cfg, r, key, now).0;
    forall k, c | c >= now - cfg.window ensures SameWindow(u, v, k, c) {
      if k != key {
        assert SameWindow(t, r, k, c);
        assert At(u.fails, k) == At(t.fails, k) && At(v.fails, k) == At(r.fails, k);
      }
    }
    forall k, at | at >= now ensures BlockedAt(u, k, at) <==> BlockedAt(v, k, at) {
      if k != key { assert BlockedAt(t, k, at) <==> BlockedAt(r, k, at); }
    }
  }

  /** What an uncrossed failure leaves: its own window and itself, and every other key as
      it was, as far as later windows see. */
  lemma KeptShape(cfg: Config, t: Table, key: string, now: int, k: string, c: int)
    requires key != "" && cfg.limit > 0 && !Failed(cfg, t, key, now).1 && c >= now - cfg.window
    ensures var u := Failed(cfg, t, key, now).0;
      && u.block == t.block
      && Since(At(u.fails, k), c) == Since(if k == key then At(t.fails, key) + [now] else At(t.fails, k), c)
  {
    var cut := now - cfg.window;
    var kept := Kept(t.fails, key, now, cut);
    assert Failed(cfg, t, key, now).0 == Table(Trimmed(t.fails[key := kept], cut), t.block);
    KeptAt(t.fails, key, now, cut, k, c);
  }

  lemma KeptAt(fails: Times, key: string, now: int, cut: int, k: string, c: int)
    requires c >= cut
    ensures Since(At(Trimmed(fails[key := Kept(fails, key, now, cut)], cut), k), c)
      == Since(if k == key then At(fails, key) + [now] else At(fails, k), c)
  {
    TrimmedAt(fails[key := Kept(fails, key, now, cut)], cut, k, c);
    if k == key { WindowOfKept(At(fails, key), now, cut, c); }
  }

  lemma TrimmedAt(fails: Times, cut: int, key: string, c: int)
    requires c >= cut
    ensures Since(At(Trimmed(fails, cut), key), c) == Since(At(fails, key), c)
  {
    PrunedAt(fails, cut, key, c);
  }

  lemma WindowOfKept(ts: seq<int>, now: int, cut: int, c: int)
    requires c >= cut
    ensures Since(Since(ts, cut) + [now], c) == Since(ts + [now], c)
  {
    SinceSince(ts, cut, c);
    SinceAppend(Since(ts, cut), now, c);
    SinceAppend(ts, now, c);
  }

  lemma RefKeptShape(cfg: Config, r: Table, key: string, now: int, k: string)
    requires key != "" && cfg.limit > 0 && !RefFailed(cfg, r, key, now).1
    ensures var v := RefFailed(cfg, r, key, now).0;
      v.block == r.block && At(v.fails, k) == if k == key then At(r.fails, key) + [now] else At(r.fails, k)
  {
  }

  lemma KeptAlike(cfg: Config, t: Table, r: Table, key: string, now: int)
    requires Alike(cfg, t, r, now) && key != "" && cfg.limit > 0
    requires !Failed(cfg, t, key, now).1 && !RefFailed(cfg, r, key, now).1
    ensures Alike(cfg, Failed(cfg, t, key, now).0, RefFailed(cfg, r, key, now).0, now)
  {
    var u, v := Failed(cfg, t, key, now).0, RefFailed(cfg, r, key, now).0;
    KeptFailsAlike(cfg, t, r, key, now, u, v);
    KeptShape(cfg, t, key, now, key, now);
    RefKeptShape(cfg, r, key, now, key);
    forall k, at | at >= now ensures BlockedAt(u, k, at) <==> BlockedAt(v, k, at) {
      assert BlockedAt(t, k, at) <==> BlockedAt(r, k, at);
    }
  }

  lemma KeptFailsAlike(cfg: Config, t: Table, r: Table, key: string, now: int, u: Table, v: Table)
    requires Alike(cfg, t, r, now) && key != "" && cfg.limit > 0
    requires Failed(cfg, t, key, now) == (u, false) && RefFailed(cfg, r, key, now) == (v, false)
    ensures forall k, c :: c >= now - cfg.window ==> SameWindow(u, v, k, c)
  {
    forall k, c | c >= now - cfg.window ensures SameWindow(u, v, k, c) {
      KeptShape(cfg, t, key, now, k, c);
      RefKeptShape(cfg, r, key, now, k);
      assert SameWindow(t, r, k, c);
      SinceAppend(At(t.fails, k), now, c);
      SinceAppend(At(r.fails, k), now, c);
    }
  }

  lemma PrunedAt(fails: Times, cut: int, key: string, c: int)
    requires c >= cut
    ensures Since(At(Pruned(fails, cut), key), c) == Since(At(fails, key), c)
  {
    if key in fails { SinceSince(fails[key], cut, c); }
  }

  lemma AskAlike(cfg: Config, t: Table, r: Table, key: string, now: int)
    requires Alike(cfg, t, r, now)
    ensures Asked(t, key, now).1 == RefBlocked(r, key, now) && Alike(cfg, Asked(t, key, now).0, r, now)
  {
    var u := Asked(t, key, now).0;
    assert BlockedAt(t, key, now) <==> BlockedAt(r, key, now);
    forall k, c | c >= now - cfg.window ensures SameWindow(u, r, k, c) { assert SameWindow(t, r, k, c); }
    forall k, at | at >= now ensures BlockedAt(u, k, at) <==> BlockedAt(r, k, at) {
      assert BlockedAt(t, k, at) <==> BlockedAt(r, k, at);
    }
  }

  lemma SuccessAlike(cfg: Config, t: Table, r: Table, key: string, now: int)
    requires Alike(cfg, t, r, now)
    ensures Alike(cfg, Succeeded(t, key), r.(fails := r.fails[key := []]), now)
  {
    var u, v := Succeeded(t, key), r.(fails := r.fails[key := []]);
    forall k, c | c >= now - cfg.window ensures SameWindow(u, v, k, c) {
      assert SameWindow(t, r, k, c);
      if k != key { assert At(u.fails, k) == At(t.fails, k) && At(v.fails, k) == At(r.fails, k); }
    }
    forall k, at | at >= now ensures BlockedAt(u, k, at) <==> BlockedAt(v, k, at) {
      assert BlockedAt(t, k, at) <==> BlockedAt(r, k, at);
    }
  }

  lemma {:induction false} AnswersAlike(cfg: Config, t: Table, r: Table, ops: seq<Op>, now: int)
    requires Alike(cfg, t, r, now) && Forward(ops, now)
    ensures Answers(cfg, t, ops) == RefAnswers(cfg, r, ops)
    decreases |ops|
  {
    if ops != [] {
      var u, v := Do(cfg, t, ops[0]).0, RefDo(cfg, r, ops[0]).0;
      match ops[0]
      case Fail(key, at) =>
        AlikeLater(cfg, t, r, now, at);
        FailAlike(cfg, t, r, key, at);
        AnswersAlike(cfg, u, v, ops[1..], at);
      case Ask(key, at) =>
        AlikeLater(cfg, t, r, now, at);
        AskAlike(cfg, t, r, key, at);
        AnswersAlike(cfg, u, v, ops[1..], at);
      case Success(key) =>
        SuccessAlike(cfg, t, r, key, now);
        AnswersAlike(cfg, u, v, ops[1..], now);
    }
  }

  const EMPTY := Table(map[], map[])

  /** Pruning is invisible: over every run on a clock that does not run back, the throttle
      answers every failure and every question exactly like one that keeps the full
      history. */
  lemma PruningIsInvisible(cfg: Config, ops: seq<Op>, start: int)
    requires Forward(ops, start)
    ensures Answers(cfg, EMPTY, ops) == RefAnswers(cfg, EMPTY, ops)
  {
    AnswersAlike(cfg, EMPTY, EMPTY, ops, start);
  }

  /** On a clock that runs back it can be seen: a failure pruned at 20 would count again
      at 5. */
  lemma BackwardClockIsVisible()
    ensures var cfg := Config(2, 10);
      var t := Failed(cfg, Failed(cfg, EMPTY, "k", 0).0, "k", 20).0;
      var r := RefFailed(cfg, RefFailed(cfg, EMPTY, "k", 0).0, "k", 20).0;
      !Failed(cfg, t, "k", 5).1 && RefFailed(cfg, r, "k", 5).1
  {
    var cfg := Config(2, 10);
    var t1 := Table(map["k" := [0]], map[]);
    var t2 := Table(map["k" := [20]], map[]);
    var r2 := Table(map["k" := [0, 20]], map[]);
    FirstFailure(cfg, t1);
    SecondFailure(cfg, t1, t2, r2);
    WindowOf(0, 20, -5);
    CrossesByCount(cfg, t2, "k", 5);
    CrossesByCount(cfg, r2, "k", 5);
  }

  lemma FirstFailure(cfg: Config, t1: Table)
    requires cfg == Config(2, 10) && t1 == Table(map["k" := [0]], map[])
    ensures Failed(cfg, EMPTY, "k", 0) == (t1, false) && RefFailed(cfg, EMPTY, "k", 0) == (t1, false)
  {
    assert [] + [0] == [0];
  }

  lemma SecondFailure(cfg: Config, t1: Table, t2: Table, r2: Table)
    requires cfg == Config(2, 10) && t1 == Table(map["k" := [0]], map[])
    requires t2 == Table(map["k" := [20]], map[]) && r2 == Table(map["k" := [0, 20]], map[])
    ensures Failed(cfg, t1, "k", 20) == (t2, false) && RefFailed(cfg, t1, "k", 20) == (r2, false)
  {
    SecondPruned(cfg, t1, t2);
    SecondKept(cfg, t1, r2);
  }

  lemma SecondKept(cfg: Config, t1: Table, r2: Table)
    requires cfg == Config(2, 10) && t1 == Table(map["k" := [0]], map[]) && r2 == Table(map["k" := [0, 20]], map[])
    ensures RefFailed(cfg, t1, "k", 20) == (r2, false)
  {
    WindowOf(0, 20, 10);
    CrossesByCount(cfg, t1, "k", 20);
    assert [0] + [20] == [0, 20];
    assert t1.fails["k" := [0, 20]] == r2.fails;
  }

  lemma SecondPruned(cfg: Config, t1: Table, t2: Table)
    requires cfg == Config(2, 10) && t1 == Table(map["k" := [0]], map[]) && t2 == Table(map["k" := [20]], map[])
    ensures Failed(cfg, t1, "k", 20) == (t2, false)
  {
    WindowOf(0, 20, 10);
    CrossesByCount(cfg, t1, "k", 20);
    SmallTable(t1.fails, [20]);
    assert Since([0], 10) + [20] == [20];
  }

  lemma SmallTable(fails: Times, ts: seq<int>)
    requires fails.Keys == {"k"}
    ensures fails["k" := ts] == map["k" := ts] && |fails["k" := ts]| <= MAX_KEYS
  {
    assert fails["k" := ts].Keys == {"k"};
  }

  lemma WindowOf(a: int, b: int, cut: int)
    ensures Since([a], cut) == if a > cut then [a] else []
    ensures Since([a, b], cut) == if b > cut then Since([a], cut) + [b] else Since([a], cut)
    ensures Since([b], cut) == if b > cut then [b] else []
  {
    assert [a, b][..1] == [a] && [a][..0] == [] && [b][..0] == [];
  }

  /** Who is refused: an identity is blocked by the failure that finds more than the limit
      in the window, its own included, and stays blocked for one window. */
  lemma BlockedForAWindow(cfg: Config, t: Table, key: string, now: int, at: int)
    requires key != "" && at >= now && Failed(cfg, t, key, now).1
    ensures |Since(At(t.fails, key), now - cfg.window)| + 1 > cfg.limit > 0
    ensures Asked(Failed(cfg, t, key, now).0, key, at).1 <==> at < now + cfg.window
  {
  }

  // ---- the object ----

  class AuthThrottle {
    const cfg: Config
    var fails: Times
    var block: map<string, int>

    function View(): Table
      reads this
    {
      Table(fails, block)
    }

    constructor (cfg: Config)
      ensures this.cfg == cfg && View() == EMPTY
    {
      this.cfg := cfg;
      fails, block := map[], map[];
    }

    method Blocked(key: string, now: int) returns (b: bool)
      modifies this`block
      ensures (View(), b) == Asked(old(View()), key, now)
    {
      if key == "" { return false; }
      if key in block && now < block[key] { return true; }
      block := block - {key};
      b := false;
    }

    method RecordFailure(key: string, now: int) returns (crossed: bool)
      modifies this
      ensures (View(), crossed) == Failed(cfg, old(View()), key, now)
    {
      if key == "" || cfg.limit <= 0 { return false; }
      var cut := now - cfg.window;
      var kept := Filter(At(fails, key), cut);
      kept := kept + [now];
      fails := fails[key := kept];
      if |kept| > cfg.limit {
        block := block[key := now + cfg.window];
        PutThenRemove(old(fails), key, kept);
        fails := fails - {key};
        return true;
      }
      if |fails| > MAX_KEYS { Prune(now); }
      crossed := false;
    }

    method Filter(f: seq<int>, cut: int) returns (kept: seq<int>)
      ensures kept == Since(f, cut)
    {
      kept := [];
      var i := 0;
      while i < |f|
        invariant i <= |f| && kept == Since(f[..i], cut)
      {
        SinceAppend(f[..i], f[i], cut);
        assert f[..i + 1] == f[..i] + [f[i]];
        if f[i] > cut { kept := kept + [f[i]]; }
        i := i + 1;
      }
      assert f[..i] == f;
    }

    method Prune(now: int)
      modifies this`fails
      ensures fails == Pruned(old(fails), now - cfg.window)
    {
      var cut := now - cfg.window;
      var left := fails.Keys;
      while left != {}
        invariant left <= old(fails).Keys
        invariant forall key :: key in fails <==> key in old(fails) && (key in left || Since(old(fails)[key], cut) != [])
        invariant forall key :: key in fails ==> fails[key] == old(fails)[key]
        decreases |left|
      {
        var key :| key in left;
        var current := AnySince(fails[key], cut);
        if !current { fails := fails - {key}; }
        left := left - {key};
      }
    }

    method AnySince(ts: seq<int>, cut: int) returns (found: bool)
      ensures found <==> Since(ts, cut) != []
    {
      var i := 0;
      while i < |ts|
        invariant i <= |ts| && Since(ts[..i], cut) == []
      {
        SinceAppend(ts[..i], ts[i], cut);
        assert ts[..i + 1] == ts[..i] + [ts[i]];
        if ts[i] > cut {
          SinceKeeps(ts, i, cut);
          return true;
        }
        i := i + 1;
      }
      assert ts[..i] == ts;
      found := false;
    }

    method RecordSuccess(key: string)
      modifies this`fails
      ensures View() == if key == "" then old(View()) else Succeeded(old(View()), key)
    {
      if key == "" { return; }
      fails := fails - {key};
    }
  }

  lemma {:induction false} SinceKeeps(ts: seq<int>, i: nat, cut: int)
    requires i < |ts| && ts[i] > cut
    ensures Since(ts, cut) != []
  {
    if i < |ts| - 1 { SinceKeeps(ts[..|ts| - 1], i, cut); }
  }

  lemma PutThenRemove(m: Times, key: string, ts: seq<int>)
    ensures m[key := ts] - {key} == m - {key}
  {
    assert (m[key := ts] - {key}).Keys == (m - {key}).Keys;
  }
}
