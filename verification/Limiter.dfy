/** The dashboard's bucket maps (internal/dashboard/ratelimit.go): buckets made at the first
    use of a key, swept at every ten thousandth, and two of them asked for every read. */
module Limiter {
  import opened Basics
  import opened RateLimit

  type Levels = map<string, Level>

  const SWEEP_EVERY := 10000

  /** A bucket never used has been idle since the beginning of time. */
  predicate IsIdle(b: Level, now: real) { b.last.None? || now - b.last.value > IDLE }

  function Reaped(m: Levels, now: real): Levels { map k | k in m && !IsIdle(m[k], now) :: m[k] }

  datatype Rates = Rates(readRate: real, readBurst: real, writeRate: real, writeBurst: real)

  datatype State = State(toRead: Levels, toWrite: Levels, created: nat)

  function LevelOf(m: Levels, key: string): Level { if key in m then m[key] else UNUSED }

  /** The bucket made for a key is itself swept if making it starts the sweep; the take then
      goes to a bucket no longer in the map. */
  predicate Sweeps(m: Levels, key: string, created: nat) { key !in m && (created + 1) % SWEEP_EVERY == 0 }

  function ReadTaken(s: State, key: string, now: real, c: Rates): State {
    if Sweeps(s.toRead, key, s.created) then State(Reaped(s.toRead, now), Reaped(s.toWrite, now), s.created + 1)
    else State(s.toRead[key := Taken(LevelOf(s.toRead, key), now, c.readRate, c.readBurst).2], s.toWrite,
               if key in s.toRead then s.created else s.created + 1)
  }

  function WriteTaken(s: State, key: string, now: real, c: Rates): State {
    if Sweeps(s.toWrite, key, s.created) then State(Reaped(s.toRead, now), Reaped(s.toWrite, now), s.created + 1)
    else State(s.toRead, s.toWrite[key := Taken(LevelOf(s.toWrite, key), now, c.writeRate, c.writeBurst).2],
               if key in s.toWrite then s.created else s.created + 1)
  }

  /** A read spends from the token's bucket and from the address's, whatever the other
      says; it waits for the slower of those that refused. */
  function Read(s: State, token: string, ip: string, now: real, c: Rates): (bool, int, State) {
    var a := Taken(LevelOf(s.toRead, "r:" + token), now, c.readRate, c.readBurst);
    var mid := ReadTaken(s, "r:" + token, now, c);
    var b := Taken(LevelOf(mid.toRead, "i:" + ip), now, c.readRate, c.readBurst);
    (a.0 && b.0, if a.0 && b.0 then 0 else Max(a.1, b.1), ReadTaken(mid, "i:" + ip, now, c))
  }

  function Write(s: State, token: string, now: real, c: Rates): (bool, int, State) {
    var a := Taken(LevelOf(s.toWrite, "w:" + token), now, c.writeRate, c.writeBurst);
    (a.0, a.1, WriteTaken(s, "w:" + token, now, c))
  }

  /** A sweep leaves no idle bucket behind, and drops no other. */
  lemma SweepIsExact(s: State, key: string, now: real, c: Rates)
    requires Sweeps(s.toRead, key, s.created) || Sweeps(s.toWrite, key, s.created)
    ensures Sweeps(s.toRead, key, s.created) ==> SweptAt(s, ReadTaken(s, key, now, c), now)
    ensures Sweeps(s.toWrite, key, s.created) ==> SweptAt(s, WriteTaken(s, key, now, c), now)
  {
  }

  ghost predicate SweptAt(s: State, t: State, now: real) {
    && (forall k :: k in t.toRead <==> k in s.toRead && !IsIdle(s.toRead[k], now))
    && (forall k :: k in t.toWrite <==> k in s.toWrite && !IsIdle(s.toWrite[k], now))
    && (forall k :: k in t.toRead ==> t.toRead[k] == s.toRead[k]) && (forall k :: k in t.toWrite ==> t.toWrite[k] == s.toWrite[k])
  }

  // ---- isolation ----

  /** The level another caller meets is the one there was, or a fresh bucket where an idle
      one was swept. */
  predicate Undisturbed(before: Levels, after: Levels, key: string, now: real) {
    LevelOf(after, key) == LevelOf(before, key) || (IsIdle(LevelOf(before, key), now) && key !in after)
  }

  /** A read by one token from one address takes nothing from any other token, from any
      other address, or from any write; a write takes nothing from any read. */
  lemma CallersAreIsolated(s: State, token: string, ip: string, now: real, c: Rates, other: string)
    ensures var t := Read(s, token, ip, now, c).2;
      && (other != token ==> Undisturbed(s.toRead, t.toRead, "r:" + other, now))
      && (other != ip ==> Undisturbed(s.toRead, t.toRead, "i:" + other, now))
      && Undisturbed(s.toWrite, t.toWrite, "w:" + other, now)
    ensures var t := Write(s, token, now, c).2;
      && Undisturbed(s.toRead, t.toRead, "r:" + other, now) && Undisturbed(s.toRead, t.toRead, "i:" + other, now)
      && (other != token ==> Undisturbed(s.toWrite, t.toWrite, "w:" + other, now))
  {
    var mid := ReadTaken(s, "r:" + token, now, c);
    KeysDiffer("r:", token, other);
    KeysDiffer("i:", ip, other);
    KeysDiffer("w:", token, other);
    assert ("r:" + other)[0] != ("i:" + ip)[0] && ("i:" + other)[0] != ("r:" + token)[0];
    if other != token {
      TakeSpares(s, "r:" + token, now, c, "r:" + other);
      TakeSpares(mid, "i:" + ip, now, c, "r:" + other);
    }
    if other != ip {
      TakeSpares(s, "r:" + token, now, c, "i:" + other);
      TakeSpares(mid, "i:" + ip, now, c, "i:" + other);
    }
  }

  lemma KeysDiffer(p: string, a: string, b: string)
    ensures p + a == p + b ==> a == b
  {
    assert (p + a)[|p|..] == a && (p + b)[|p|..] == b;
  }

  lemma TakeSpares(s: State, key: string, now: real, c: Rates, other: string)
    requires other != key
    ensures Undisturbed(s.toRead, ReadTaken(s, key, now, c).toRead, other, now)
  {
  }

  // ---- the retry of a read ----

  ghost predicate Sane(m: Levels, now: real, burst: real) {
    forall k :: k in m ==> InRange(m[k], burst) && m[k].last.value <= now
  }

  /** After a take at `now` the key's level is at `now`, and a bucket used at `now` is not
      swept. */
  lemma TookNow(s: State, key: string, now: real, c: Rates)
    requires c.readRate > 0.0 && Sane(s.toRead, now, c.readBurst)
    ensures var t := ReadTaken(s, key, now, c);
      && Sane(t.toRead, now, c.readBurst)
      && (Sweeps(s.toRead, key, s.created) ==> LevelOf(t.toRead, key) == UNUSED)
      && (!Sweeps(s.toRead, key, s.created) ==> LevelOf(t.toRead, key) == Taken(LevelOf(s.toRead, key), now, c.readRate, c.readBurst).2)
      && (forall k :: k in s.toRead && k != key && s.toRead[k].last == Some(now) ==> k in t.toRead && t.toRead[k] == s.toRead[k])
  {
    TakenInRange(LevelOf(s.toRead, key), now, c.readRate, c.readBurst);
  }

  /** A level left at some instant holds a whole token again at a later one; a fresh bucket
      holds its burst. */
  predicate Refills(b: Level, again: real, rate: real) {
    b.last.Some? ==> b.tokens + (again - b.last.value) * rate >= 1.0
  }

  /** The level a read's second take finds for its address. */
  function AddressLevel(s: State, token: string, ip: string, now: real, c: Rates): Level {
    LevelOf(ReadTaken(s, "r:" + token, now, c).toRead, "i:" + ip)
  }

  lemma LaterTakeExactly(b: Level, again: real, rate: real, burst: real)
    requires rate > 0.0 && (b.last.Some? ==> b.last.value < again)
    ensures Taken(b, again, rate, burst).0 <==> burst >= 1.0 && Refills(b, again, rate)
  {
  }

  /** After a refusal at `now`, waiting it out is enough for the bucket that refused. */
  lemma RefusedRefills(b: Level, now: real, rate: real, burst: real, again: real)
    requires rate > 0.0 && (b.last.Some? ==> b.last.value <= now) && !Taken(b, now, rate, burst).0
    requires again >= now + Taken(b, now, rate, burst).1 as real
    ensures burst >= 1.0 ==> Refills(Taken(b, now, rate, burst).2, again, rate)
  {
    RetryAfterIsExact(b, now, rate, burst, again);
    RefusalLeaves(b, now, rate, burst);
    LaterTakeExactly(Taken(b, now, rate, burst).2, again, rate, burst);
  }

  lemma TakenAtNow(b: Level, now: real, rate: real, burst: real)
    requires rate > 0.0 && (b == UNUSED || (InRange(b, burst) && b.last.value <= now))
    ensures Taken(b, now, rate, burst).2.last == Some(now) && InRange(Taken(b, now, rate, burst).2, burst)
  {
    TakenInRange(b, now, rate, burst);
  }

  /** What the two takes of a read leave, as a later read finds it: for each bucket the
      level left at `now`, or a fresh one where a sweep dropped it. */
  lemma ReadLeaves(s: State, token: string, ip: string, now: real, c: Rates, again: real)
    requires c.readRate > 0.0 && Sane(s.toRead, now, c.readBurst) && again > now
    ensures var t := Read(s, token, ip, now, c).2;
      var x, y := LevelOf(t.toRead, "r:" + token), AddressLevel(t, token, ip, again, c);
      && (x == UNUSED || x == Taken(LevelOf(s.toRead, "r:" + token), now, c.readRate, c.readBurst).2)
      && (y == UNUSED || y == Taken(AddressLevel(s, token, ip, now, c), now, c.readRate, c.readBurst).2)
      && (x.last.Some? ==> x.last.value == now) && (y.last.Some? ==> y.last.value == now)
  {
    var r, i := "r:" + token, "i:" + ip;
    assert r[0] != i[0];
    var mid := ReadTaken(s, r, now, c);
    TookNow(s, r, now, c);
    TookNow(mid, i, now, c);
    TakenAtNow(LevelOf(s.toRead, r), now, c.readRate, c.readBurst);
    TakenAtNow(LevelOf(mid.toRead, i), now, c.readRate, c.readBurst);
    OtherKept(mid, i, r, now, c);
    OtherKept(ReadTaken(mid, i, now, c), r, i, again, c);
  }

  lemma OtherKept(s: State, key: string, other: string, now: real, c: Rates)
    requires key != other
    ensures var y := LevelOf(ReadTaken(s, key, now, c).toRead, other); y == LevelOf(s.toRead, other) || y == UNUSED
  {
  }

  /** When a refused read succeeds after its Retry-After, with nothing taken between:
      exactly when the burst admits a token and each bucket that accepted the refused read,
      and was spent by it, holds a whole token again by then. */
  lemma ReadRetryExactly(s: State, token: string, ip: string, now: real, c: Rates, again: real)
    requires Sane(s.toRead, now, c.readBurst) && !Read(s, token, ip, now, c).0
    requires again >= now + Read(s, token, ip, now, c).1 as real
    ensures var t := Read(s, token, ip, now, c).2;
      var okT := Taken(LevelOf(s.toRead, "r:" + token), now, c.readRate, c.readBurst).0;
      var okI := Taken(AddressLevel(s, token, ip, now, c), now, c.readRate, c.readBurst).0;
      Read(t, token, ip, again, c).0 <==>
        && c.readBurst >= 1.0
        && (okT ==> Refills(LevelOf(t.toRead, "r:" + token), again, c.readRate))
        && (okI ==> Refills(AddressLevel(t, token, ip, again, c), again, c.readRate))
  {
    var a, b := LevelOf(s.toRead, "r:" + token), AddressLevel(s, token, ip, now, c);
    var t := Read(s, token, ip, now, c).2;
    var x, y := LevelOf(t.toRead, "r:" + token), AddressLevel(t, token, ip, again, c);
    TookNow(s, "r:" + token, now, c);
    ReadLeaves(s, token, ip, now, c, again);
    LaterTakeExactly(x, again, c.readRate, c.readBurst);
    LaterTakeExactly(y, again, c.readRate, c.readBurst);
    if !Taken(a, now, c.readRate, c.readBurst).0 { RefusedRefills(a, now, c.readRate, c.readBurst, again); }
    if !Taken(b, now, c.readRate, c.readBurst).0 { RefusedRefills(b, now, c.readRate, c.readBurst, again); }
  }

  /** So it always does when a second brings a whole token. */
  lemma ReadRetrySucceeds(s: State, token: string, ip: string, now: real, c: Rates, again: real)
    requires c.readRate >= 1.0 && c.readBurst >= 1.0 && Sane(s.toRead, now, c.readBurst)
    requires !Read(s, token, ip, now, c).0 && again >= now + Read(s, token, ip, now, c).1 as real
    ensures Read(Read(s, token, ip, now, c).2, token, ip, again, c).0
  {
    ReadRetryExactly(s, token, ip, now, c, again);
    ReadLeaves(s, token, ip, now, c, again);
    TookNow(s, "r:" + token, now, c);
    FastRefills(LevelOf(s.toRead, "r:" + token), now, c.readRate, c.readBurst, again);
    FastRefills(AddressLevel(s, token, ip, now, c), now, c.readRate, c.readBurst, again);
  }

  lemma FastRefills(b: Level, now: real, rate: real, burst: real, again: real)
    requires rate >= 1.0 && burst >= 1.0 && again >= now + 1.0 && (b == UNUSED || (InRange(b, burst) && b.last.value <= now))
    ensures Refills(Taken(b, now, rate, burst).2, again, rate)
  {
    TakenAtNow(b, now, rate, burst);
    AtLeastOne(again - now, rate);
  }

  lemma AtLeastOne(d: real, rate: real)
    requires d >= 1.0 && rate >= 1.0
    ensures d * rate >= 1.0
  {
    assert d * rate >= 1.0 * rate;
  }

  const NOTHING := State(map[], map[], 0)

  /** With a slower rate it can fail, on this run from an empty limiter: the third read has
      spent the bucket of its own token, which a second later holds half a token. */
  lemma SlowReadRetryFails()
    ensures var c := Rates(0.5, 1.0, 0.5, 1.0);
      var s := Read(NOTHING, "u", "a", 0.0, c).2;
      var (ok, wait, t) := Read(s, "t", "a", 1.8, c);
      !ok && wait == 1 && !Read(t, "t", "a", 2.8, c).0
  {
    var c := Rates(0.5, 1.0, 0.5, 1.0);
    KeysApart();
    var s := Read(NOTHING, "u", "a", 0.0, c).2;
    FirstReadSpends(c, s);
    CeilFacts((1.0 - 0.9) / 0.5);
    var t := Read(s, "t", "a", 1.8, c).2;
    assert LevelOf(s.toRead, "r:t") == UNUSED && LevelOf(s.toRead, "i:a") == Level(0.0, Some(0.0));
    assert LevelOf(t.toRead, "r:t") == Level(0.0, Some(1.8));
  }

  lemma KeysApart()
    ensures "r:" + "t" == "r:t" && "r:" + "u" == "r:u" && "i:" + "a" == "i:a"
    ensures "r:t" != "i:a" && "r:u" != "i:a" && "r:t" != "r:u"
  {
    assert "r:t"[0] != "i:a"[0] && "r:u"[0] != "i:a"[0] && "r:t"[2] != "r:u"[2];
  }

  lemma FirstReadSpends(c: Rates, s: State)
    requires c == Rates(0.5, 1.0, 0.5, 1.0) && s == Read(NOTHING, "u", "a", 0.0, c).2
    ensures s == State(map["r:u" := Level(0.0, Some(0.0)), "i:a" := Level(0.0, Some(0.0))], map[], 2)
  {
    KeysApart();
    var mid := ReadTaken(NOTHING, "r:u", 0.0, c);
    assert mid == State(map["r:u" := Level(0.0, Some(0.0))], map[], 1);
  }

  // ---- the writes of one token ----

  /** A refused write that waits out its Retry-After succeeds exactly when the write burst
      admits a token. */
  lemma WriteRetryExactly(s: State, token: string, now: real, c: Rates, again: real)
    requires c.writeRate > 0.0 && Sane(s.toWrite, now, c.writeBurst) && !Write(s, token, now, c).0
    requires again >= now + Write(s, token, now, c).1 as real
    ensures Write(Write(s, token, now, c).2, token, again, c).0 <==> c.writeBurst >= 1.0
  {
    var b := LevelOf(s.toWrite, "w:" + token);
    RetryAfterIsExact(b, now, c.writeRate, c.writeBurst, again);
  }

  datatype Request = ReadBy(token: string, ip: string, now: real) | WriteBy(token: string, now: real)

  function Serve(s: State, q: Request, c: Rates): (bool, State) {
    match q
    case ReadBy(token, ip, now) => var r := Read(s, token, ip, now, c); (r.0, r.2)
    case WriteBy(token, now) => var r := Write(s, token, now, c); (r.0, r.2)
  }

  function Served(s: State, run: seq<Request>, c: Rates): State {
    if run == [] then s else Serve(Served(s, run[..|run| - 1], c), run[|run| - 1], c).1
  }

  /** No bucket made in the run is the one that starts a sweep. */
  predicate Unswept(s: State, run: seq<Request>, c: Rates) { Served(s, run, c).created / SWEEP_EVERY == s.created / SWEEP_EVERY }

  /** The instants of the token's writes, and how many were accepted. */
  function WriteTimes(run: seq<Request>, token: string): seq<real> {
    if run == [] then []
    else
      var q := run[|run| - 1];
      WriteTimes(run[..|run| - 1], token) + if q.WriteBy? && q.token == token then [q.now] else []
  }

  function WritesAccepted(s: State, run: seq<Request>, token: string, c: Rates): nat {
    if run == [] then 0
    else
      var front, q := run[..|run| - 1], run[|run| - 1];
      WritesAccepted(s, front, token, c)
      + if q.WriteBy? && q.token == token && Serve(Served(s, front, c), q, c).0 then 1 else 0
  }

  /** Among any requests of anybody, a token's writes are the takes of one bucket, at the
      write rate and burst. */
  lemma {:induction false} WritesAreOneBucket(s: State, run: seq<Request>, token: string, c: Rates)
    requires Unswept(s, run, c)
    ensures var b := LevelOf(s.toWrite, "w:" + token);
      && LevelOf(Served(s, run, c).toWrite, "w:" + token) == After(b, WriteTimes(run, token), c.writeRate, c.writeBurst)
      && WritesAccepted(s, run, token, c) == Accepted(b, WriteTimes(run, token), c.writeRate, c.writeBurst)
  {
    if run != [] {
      var front, q := run[..|run| - 1], run[|run| - 1];
      var m := Served(s, front, c);
      CreatedGrows(s, front, c);
      ServeCreates(m, q, c);
      WritesAreOneBucket(s, front, token, c);
      OneRequest(m, q, token, c);
      var times := WriteTimes(front, token);
      if q.WriteBy? && q.token == token {
        assert (times + [q.now])[..|times|] == times;
      } else {
        assert times + [] == times;
      }
    }
  }

  lemma ServeCreates(s: State, q: Request, c: Rates)
    ensures s.created <= Serve(s, q, c).1.created
  {
  }

  lemma {:induction false} CreatedGrows(s: State, run: seq<Request>, c: Rates)
    ensures s.created <= Served(s, run, c).created
  {
    if run != [] {
      CreatedGrows(s, run[..|run| - 1], c);
      ServeCreates(Served(s, run[..|run| - 1], c), run[|run| - 1], c);
    }
  }

  lemma NoSweepBelow(created: nat, later: nat)
    requires created < later && later / SWEEP_EVERY == created / SWEEP_EVERY
    ensures (created + 1) % SWEEP_EVERY != 0
  {
  }

  lemma OneRequest(s: State, q: Request, token: string, c: Rates)
    requires Serve(s, q, c).1.created / SWEEP_EVERY == s.created / SWEEP_EVERY
    ensures var t := Serve(s, q, c).1; var key := "w:" + token;
      LevelOf(t.toWrite, key) ==
        if q.WriteBy? && q.token == token then Taken(LevelOf(s.toWrite, key), q.now, c.writeRate, c.writeBurst).2
        else LevelOf(s.toWrite, key)
  {
    var t := Serve(s, q, c).1;
    if s.created < t.created { NoSweepBelow(s.created, t.created); }
    if q.WriteBy? { KeysDiffer("w:", q.token, token); }
    else {
      var mid := ReadTaken(s, "r:" + q.token, q.now, c);
      if mid.created < t.created { NoSweepBelow(mid.created, t.created); }
    }
  }

  /** So its accepted writes number at most the write burst plus the write rate times the
      time since the first of them. */
  lemma WritesAreBounded(s: State, run: seq<Request>, token: string, c: Rates, end: real)
    requires c.writeRate > 0.0 && Sane(s.toWrite, end, c.writeBurst) && Unswept(s, run, c)
    requires WriteTimes(run, token) != [] && Until(WriteTimes(run, token), end)
    ensures WritesAccepted(s, run, token, c) as real
      <= Allowance(c.writeRate, c.writeBurst, end - StartOf(LevelOf(s.toWrite, "w:" + token), WriteTimes(run, token)[0]))
  {
    WritesAreOneBucket(s, run, token, c);
    AcceptedIsBounded(LevelOf(s.toWrite, "w:" + token), WriteTimes(run, token), c.writeRate, c.writeBurst, end);
  }

  // ---- the reads of one token, or of one address ----

  predicate Touches(q: Request, key: string) { q.ReadBy? && ("r:" + q.token == key || "i:" + q.ip == key) }

  function ReadTimes(run: seq<Request>, key: string): seq<real> {
    if run == [] then []
    else
      var q := run[|run| - 1];
      ReadTimes(run[..|run| - 1], key) + if Touches(q, key) then [q.now] else []
  }

  function ReadsAccepted(s: State, run: seq<Request>, key: string, c: Rates): nat {
    if run == [] then 0
    else
      var front, q := run[..|run| - 1], run[|run| - 1];
      ReadsAccepted(s, front, key, c) + if Touches(q, key) && Serve(Served(s, front, c), q, c).0 then 1 else 0
  }

  /** A read takes from the bucket of its token and from that of its address, and is
      accepted only if both do; no other request touches them. */
  lemma OneRead(s: State, q: Request, key: string, c: Rates)
    requires Serve(s, q, c).1.created / SWEEP_EVERY == s.created / SWEEP_EVERY
    ensures var t := Serve(s, q, c).1; var b := LevelOf(s.toRead, key);
      && LevelOf(t.toRead, key) == (if Touches(q, key) then Taken(b, q.now, c.readRate, c.readBurst).2 else b)
      && (Touches(q, key) && Serve(s, q, c).0 ==> Taken(b, q.now, c.readRate, c.readBurst).0)
  {
    var t := Serve(s, q, c).1;
    if s.created < t.created { NoSweepBelow(s.created, t.created); }
    if q.ReadBy? {
      var mid := ReadTaken(s, "r:" + q.token, q.now, c);
      if mid.created < t.created { NoSweepBelow(mid.created, t.created); }
      assert ("r:" + q.token)[0] != ("i:" + q.ip)[0];
    }
  }

  lemma {:induction false} ReadsAreItsBucket(s: State, run: seq<Request>, key: string, c: Rates)
    requires Unswept(s, run, c)
    ensures var b := LevelOf(s.toRead, key);
      && LevelOf(Served(s, run, c).toRead, key) == After(b, ReadTimes(run, key), c.readRate, c.readBurst)
      && ReadsAccepted(s, run, key, c) <= Accepted(b, ReadTimes(run, key), c.readRate, c.readBurst)
  {
    if run != [] {
      var front, q := run[..|run| - 1], run[|run| - 1];
      var m := Served(s, front, c);
      CreatedGrows(s, front, c);
      ServeCreates(m, q, c);
      ReadsAreItsBucket(s, front, key, c);
      OneRead(m, q, key, c);
      var times := ReadTimes(front, key);
      if Touches(q, key) {
        assert (times + [q.now])[..|times|] == times;
      } else {
        assert times + [] == times;
      }
    }
  }

  /** So the reads accepted of one token, and those accepted of one address, whoever makes
      the others, number at most the read burst plus the read rate times the time. */
  lemma ReadsAreBounded(s: State, run: seq<Request>, key: string, c: Rates, end: real)
    requires c.readRate > 0.0 && Sane(s.toRead, end, c.readBurst) && Unswept(s, run, c)
    requires ReadTimes(run, key) != [] && Until(ReadTimes(run, key), end)
    ensures ReadsAccepted(s, run, key, c) as real
      <= Allowance(c.readRate, c.readBurst, end - StartOf(LevelOf(s.toRead, key), ReadTimes(run, key)[0]))
  {
    ReadsAreItsBucket(s, run, key, c);
    AcceptedIsBounded(LevelOf(s.toRead, key), ReadTimes(run, key), c.readRate, c.readBurst, end);
  }

  // ---- the object ----

  class RateLimiter {
    const rates: Rates
    var toRead: Levels
    var toWrite: Levels
    var created: nat

    function View(): State
      reads this
    {
      State(toRead, toWrite, created)
    }

    constructor (rates: Rates)
      ensures this.rates == rates && View() == State(map[], map[], 0)
    {
      this.rates := rates;
      toRead, toWrite, created := map[], map[], 0;
    }

    method Sweep(m: Levels, now: real) returns (kept: Levels)
      ensures kept == Reaped(m, now)
    {
      kept := m;
      var left := m.Keys;
      while left != {}
        invariant left <= m.Keys
        invariant forall k :: k in kept <==> k in m && (k in left || !IsIdle(m[k], now))
        invariant forall k :: k in kept ==> kept[k] == m[k]
        decreases |left|
      {
        var k :| k in left;
        if IsIdle(m[k], now) { kept := kept - {k}; }
        left := left - {k};
      }
    }

    /** Count a new bucket; every so many, drop the idle ones of both maps. */
    method Created(now: real) returns (swept: bool)
      modifies this
      ensures created == old(created) + 1 && (swept <==> created % SWEEP_EVERY == 0)
      ensures toRead == (if swept then Reaped(old(toRead), now) else old(toRead))
      ensures toWrite == (if swept then Reaped(old(toWrite), now) else old(toWrite))
    {
      created := created + 1;
      swept := created % SWEEP_EVERY == 0;
      if swept {
        toRead := Sweep(toRead, now);
        toWrite := Sweep(toWrite, now);
      }
    }

    method TakeRead(key: string, now: real) returns (ok: bool, wait: int)
      modifies this
      ensures View() == ReadTaken(old(View()), key, now, rates)
      ensures (ok, wait) == (Taken(LevelOf(old(toRead), key), now, rates.readRate, rates.readBurst).0,
                             Taken(LevelOf(old(toRead), key), now, rates.readRate, rates.readBurst).1)
    {
      var b := LevelOf(toRead, key);
      var orphan := false;
      if key !in toRead { orphan := Created(now); }
      var taken := Taken(b, now, rates.readRate, rates.readBurst);
      if !orphan { toRead := toRead[key := taken.2]; }
      return taken.0, taken.1;
    }

    method ReadTake(token: string, ip: string, now: real) returns (ok: bool, wait: int)
      modifies this
      ensures (ok, wait, View()) == Read(old(View()), token, ip, now, rates)
    {
      var okT, waitT := TakeRead("r:" + token, now);
      var okI, waitI := TakeRead("i:" + ip, now);
      if okT && okI { return true, 0; }
      if waitT < waitI { waitT := waitI; }
      return false, waitT;
    }

    method WriteTake(token: string, now: real) returns (ok: bool, wait: int)
      modifies this
      ensures (ok, wait, View()) == Write(old(View()), token, now, rates)
    {
      var key := "w:" + token;
      var b := LevelOf(toWrite, key);
      var orphan := false;
      if key !in toWrite { orphan := Created(now); }
      var taken := Taken(b, now, rates.writeRate, rates.writeBurst);
      if !orphan { toWrite := toWrite[key := taken.2]; }
      return taken.0, taken.1;
    }
  }
}
