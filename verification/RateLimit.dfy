/** The dashboard's token buckets (internal/dashboard/ratelimit.go), with times in seconds
    and arithmetic over the reals. */
module RateLimit {
  import opened Basics

  /** `last` is the latest instant the bucket was refilled at; none before its first use. */
  datatype Level = Level(tokens: real, last: Option<real>)

  const UNUSED := Level(0.0, None)

  function RMin(a: real, b: real): real { if a <= b then a else b }

  function Ceil(x: real): int { -((-x).Floor) }

  /** What the level is once the time since `last` has been credited. */
  function Refilled(b: Level, now: real, rate: real, burst: real): Level {
    if b.last.None? then Level(burst, Some(now))
    else if now > b.last.value then Level(RMin(burst, b.tokens + (now - b.last.value) * rate), Some(now))
    else b
  }

  function RetryAfter(tokens: real, rate: real): int
    requires rate > 0.0
  {
    Max(1, Ceil((1.0 - tokens) / rate))
  }

  /** The answer, the seconds to wait if refused, and the level left. */
  function Taken(b: Level, now: real, rate: real, burst: real): (bool, int, Level) {
    if rate <= 0.0 then (true, 0, b)
    else
      var full := Refilled(b, now, rate, burst);
      if full.tokens >= 1.0 then (true, 0, full.(tokens := full.tokens - 1.0))
      else (false, RetryAfter(full.tokens, rate), full)
  }

  // ---- runs of one bucket ----

  function After(b: Level, nows: seq<real>, rate: real, burst: real): Level {
    if nows == [] then b else Taken(After(b, nows[..|nows| - 1], rate, burst), nows[|nows| - 1], rate, burst).2
  }

  function Accepted(b: Level, nows: seq<real>, rate: real, burst: real): nat {
    if nows == [] then 0
    else
      var front := nows[..|nows| - 1];
      Accepted(b, front, rate, burst) + if Taken(After(b, front, rate, burst), nows[|nows| - 1], rate, burst).0 then 1 else 0
  }

  /** The level is what a use leaves: never over the burst, never under nothing (unless the
      burst itself is). */
  predicate InRange(b: Level, burst: real) { b.last.Some? && b.tokens <= burst && b.tokens >= RMin(burst, 0.0) }

  lemma TakenInRange(b: Level, now: real, rate: real, burst: real)
    requires rate > 0.0 && (b == UNUSED || InRange(b, burst))
    ensures InRange(Taken(b, now, rate, burst).2, burst)
  {
    if b.last.Some? && now > b.last.value {
      Positive(now - b.last.value, rate);
      GainStaysInRange(b.tokens, (now - b.last.value) * rate, burst);
    }
  }

  lemma Positive(x: real, y: real)
    requires x > 0.0 && y > 0.0
    ensures x * y > 0.0
  {
  }

  /** One take pays for itself: what it takes and leaves is at most what there was and what
      the time since the last refill brought. */
  lemma TakePays(b: Level, now: real, rate: real, burst: real)
    requires rate > 0.0 && InRange(b, burst)
    ensures var (ok, wait, t) := Taken(b, now, rate, burst);
      && InRange(t, burst) && t.last.value >= b.last.value && (t.last.value == b.last.value || t.last.value == now)
      && t.tokens + (if ok then 1.0 else 0.0) <= b.tokens + rate * (t.last.value - b.last.value)
  {
    TakenInRange(b, now, rate, burst);
    if now > b.last.value { Positive(now - b.last.value, rate); }
  }

  lemma Credit(rate: real, a: real, b: real, c: real)
    ensures rate * (b - a) + rate * (c - b) == rate * (c - a)
  {
  }

  /** The run's takes are paid for by what there was and what the time brought. */
  predicate Paid(b: Level, t: Level, accepted: int, rate: real, burst: real) {
    && InRange(b, burst) && InRange(t, burst) && b.last.value <= t.last.value
    && t.tokens + accepted as real <= b.tokens + rate * (t.last.value - b.last.value)
  }

  lemma StepPays(b: Level, s: Level, now: real, accepted: int, rate: real, burst: real)
    requires rate > 0.0 && Paid(b, s, accepted, rate, burst)
    ensures var (ok, wait, t) := Taken(s, now, rate, burst); Paid(b, t, accepted + if ok then 1 else 0, rate, burst)
  {
    TakePays(s, now, rate, burst);
    Credit(rate, b.last.value, s.last.value, Taken(s, now, rate, burst).2.last.value);
  }

  lemma NothingPaid(b: Level, rate: real, burst: real)
    requires InRange(b, burst)
    ensures Paid(b, b, 0, rate, burst)
  {
    assert b.last.value - b.last.value == 0.0;
  }

  lemma {:induction false} RunPays(b: Level, nows: seq<real>, rate: real, burst: real)
    requires rate > 0.0 && InRange(b, burst)
    ensures Paid(b, After(b, nows, rate, burst), Accepted(b, nows, rate, burst), rate, burst)
  {
    if nows == [] {
      NothingPaid(b, rate, burst);
    } else {
      var front := nows[..|nows| - 1];
      RunPays(b, front, rate, burst);
      StepPays(b, After(b, front, rate, burst), nows[|nows| - 1], Accepted(b, front, rate, burst), rate, burst);
    }
  }

  /** No instant of the run is after `end`. */
  predicate Until(nows: seq<real>, end: real) { forall i :: 0 <= i < |nows| ==> nows[i] <= end }

  lemma {:induction false} LastIsSeen(b: Level, nows: seq<real>, rate: real, burst: real, end: real)
    requires rate > 0.0 && InRange(b, burst) && b.last.value <= end && Until(nows, end)
    ensures InRange(After(b, nows, rate, burst), burst) && After(b, nows, rate, burst).last.value <= end
  {
    if nows != [] {
      var front := nows[..|nows| - 1];
      LastIsSeen(b, front, rate, burst, end);
      TakePays(After(b, front, rate, burst), nows[|nows| - 1], rate, burst);
    }
  }

  /** What a bucket may hand out in a stretch of time. */
  function Allowance(rate: real, burst: real, elapsed: real): real { (if burst > 0.0 then burst else 0.0) + rate * elapsed }

  /** Whatever uses there were, in any order of times, the level is in range and its clock
      is not beyond the latest of them. */
  lemma {:induction false} UsesKeepRange(before: seq<real>, rate: real, burst: real, end: real)
    requires rate > 0.0 && Until(before, end)
    ensures var b := After(UNUSED, before, rate, burst);
      if before == [] then b == UNUSED else InRange(b, burst) && b.last.value <= end
  {
    if before != [] {
      var front, now := before[..|before| - 1], before[|before| - 1];
      UsesKeepRange(front, rate, burst, end);
      if front == [] { TakenInRange(UNUSED, now, rate, burst); }
      else { TakePays(After(UNUSED, front, rate, burst), now, rate, burst); }
    }
  }

  /** Where the credit of a run starts: its first use, or the bucket's clock if that is
      already ahead of it. */
  function StartOf(b: Level, first: real): real { if b.last.Some? && b.last.value > first then b.last.value else first }

  /** A run may as well start from the level its first use finds. */
  lemma {:induction false} RunFromRefilled(b: Level, nows: seq<real>, rate: real, burst: real)
    requires rate > 0.0 && nows != []
    ensures var full := Refilled(b, nows[0], rate, burst);
      After(b, nows, rate, burst) == After(full, nows, rate, burst) && Accepted(b, nows, rate, burst) == Accepted(full, nows, rate, burst)
  {
    var front := nows[..|nows| - 1];
    if front != [] { RunFromRefilled(b, front, rate, burst); }
    else { assert Accepted(b, front, rate, burst) == 0; }
  }

  lemma RefilledInRange(b: Level, now: real, rate: real, burst: real)
    requires rate > 0.0 && (b == UNUSED || InRange(b, burst))
    ensures InRange(Refilled(b, now, rate, burst), burst) && Refilled(b, now, rate, burst).last == Some(StartOf(b, now))
  {
    if b.last.Some? && now > b.last.value {
      Positive(now - b.last.value, rate);
      GainStaysInRange(b.tokens, (now - b.last.value) * rate, burst);
    }
  }

  lemma GainStaysInRange(tokens: real, gain: real, burst: real)
    requires gain > 0.0 && RMin(burst, 0.0) <= tokens <= burst
    ensures RMin(burst, 0.0) <= RMin(burst, tokens + gain) <= burst
  {
  }

  /** The rate bound, for every bucket and every run of uses in any order of times: the
      takes accepted, the first included, number at most the burst plus the rate times the
      time since that first use. */
  lemma AcceptedIsBounded(b: Level, nows: seq<real>, rate: real, burst: real, end: real)
    requires rate > 0.0 && (b == UNUSED || (InRange(b, burst) && b.last.value <= end)) && nows != [] && Until(nows, end)
    ensures Accepted(b, nows, rate, burst) as real <= Allowance(rate, burst, end - StartOf(b, nows[0]))
  {
    var full := Refilled(b, nows[0], rate, burst);
    RefilledInRange(b, nows[0], rate, burst);
    RunFromRefilled(b, nows, rate, burst);
    RunPays(full, nows, rate, burst);
    LastIsSeen(full, nows, rate, burst, end);
    PaidIsBounded(full, After(full, nows, rate, burst), Accepted(full, nows, rate, burst), rate, burst, StartOf(b, nows[0]), end);
  }

  lemma PaidIsBounded(b: Level, t: Level, accepted: int, rate: real, burst: real, start: real, end: real)
    requires rate > 0.0 && Paid(b, t, accepted, rate, burst) && start <= b.last.value && t.last.value <= end
    ensures accepted as real <= Allowance(rate, burst, end - start)
  {
    Grows(rate, t.last.value - b.last.value, end - start);
    Sum(t.tokens, accepted as real, b.tokens, rate * (t.last.value - b.last.value), rate * (end - start), burst);
  }

  lemma Sum(left: real, accepted: real, tokens: real, gain: real, most: real, burst: real)
    requires left + accepted <= tokens + gain && gain <= most && tokens <= burst && left >= RMin(burst, 0.0)
    ensures accepted <= (if burst > 0.0 then burst else 0.0) + most
  {
  }

  lemma Grows(rate: real, x: real, y: real)
    requires rate > 0.0 && x <= y
    ensures rate * x <= rate * y
  {
  }

  /** No rate is no limit. */
  lemma {:induction false} NoRateNoLimit(b: Level, nows: seq<real>, rate: real, burst: real)
    requires rate <= 0.0
    ensures Accepted(b, nows, rate, burst) == |nows|
  {
    if nows != [] { NoRateNoLimit(b, nows[..|nows| - 1], rate, burst); }
  }

  predicate AtOnce(nows: seq<real>, now: real) { forall i :: 0 <= i < |nows| ==> nows[i] == now }

  /** And it is worth its burst: a fresh bucket accepts at one instant as many takes as the
      burst has whole tokens, and no more. */
  lemma {:induction false} FreshBucketGivesItsBurst(nows: seq<real>, now: real, rate: real, burst: real)
    requires rate > 0.0 && burst >= 0.0 && AtOnce(nows, now)
    ensures Accepted(UNUSED, nows, rate, burst) == Min(|nows|, burst.Floor)
    ensures nows != [] ==> After(UNUSED, nows, rate, burst) == Level(burst - Accepted(UNUSED, nows, rate, burst) as real, Some(now))
  {
    if nows != [] {
      var front := nows[..|nows| - 1];
      assert nows[|nows| - 1] == now;
      FreshBucketGivesItsBurst(front, now, rate, burst);
    }
  }

  /** Each use comes at least `gap` after the one before. */
  predicate Paced(nows: seq<real>, gap: real) { forall i :: 1 <= i < |nows| ==> Apart(nows, i, gap) }

  predicate Apart(nows: seq<real>, i: nat, gap: real)
    requires 1 <= i < |nows|
  { nows[i] >= nows[i - 1] + gap }

  /** A caller that leaves a token's time between its uses is never refused, if the burst
      admits a token. */
  lemma {:induction false} PacedIsNeverRefused(nows: seq<real>, gap: real, rate: real, burst: real)
    requires rate > 0.0 && burst >= 1.0 && gap > 0.0 && gap * rate >= 1.0 && Paced(nows, gap)
    ensures Accepted(UNUSED, nows, rate, burst) == |nows|
    ensures nows != [] ==> var t := After(UNUSED, nows, rate, burst); t.last == Some(nows[|nows| - 1]) && t.tokens >= 0.0
  {
    if |nows| == 1 {
      assert Accepted(UNUSED, nows[..0], rate, burst) == 0;
    } else if |nows| > 1 {
      var front := nows[..|nows| - 1];
      forall i | 1 <= i < |front| ensures Apart(front, i, gap) { assert Apart(nows, i, gap); }
      PacedIsNeverRefused(front, gap, rate, burst);
      assert Apart(nows, |nows| - 1, gap);
      PacedTake(After(UNUSED, front, rate, burst), nows[|nows| - 1], gap, rate, burst);
    }
  }

  lemma PacedTake(b: Level, now: real, gap: real, rate: real, burst: real)
    requires rate > 0.0 && burst >= 1.0 && gap > 0.0 && gap * rate >= 1.0
    requires b.last.Some? && b.tokens >= 0.0 && now - b.last.value >= gap
    ensures var (ok, wait, t) := Taken(b, now, rate, burst); ok && t.last == Some(now) && t.tokens >= 0.0
  {
    Grows(rate, gap, now - b.last.value);
  }

  // ---- the retry ----

  lemma CeilFacts(x: real)
    ensures Ceil(x) as real >= x && (Ceil(x) - 1) as real < x
  {
  }

  /** Whether a wait of `d` seconds after a refusal is long enough. */
  lemma WaitSuffices(tokens: real, rate: real, burst: real, d: real)
    requires rate > 0.0 && tokens < 1.0 && d > 0.0
    ensures RMin(burst, tokens + d * rate) >= 1.0 <==> burst >= 1.0 && d >= (1.0 - tokens) / rate
  {
    assert (1.0 - tokens) / rate * rate == 1.0 - tokens;
    if d >= (1.0 - tokens) / rate { Grows(rate, (1.0 - tokens) / rate, d); }
    else { GrowsStrictly(rate, d, (1.0 - tokens) / rate); }
  }

  lemma GrowsStrictly(rate: real, x: real, y: real)
    requires rate > 0.0 && x < y
    ensures rate * x < rate * y
  {
  }

  predicate OkAfter(t: Level, now: real, k: int, rate: real, burst: real) { Taken(t, now + k as real, rate, burst).0 }

  /** A refused caller that waits out Retry-After, with no takes between and a clock that
      does not run back, succeeds exactly when the burst admits a whole token; and no
      smaller whole number of seconds would have done. */
  lemma RetryAfterIsExact(b: Level, now: real, rate: real, burst: real, again: real)
    requires rate > 0.0 && (b.last.Some? ==> b.last.value <= now) && !Taken(b, now, rate, burst).0
    requires again >= now + Taken(b, now, rate, burst).1 as real
    ensures var (ok, wait, t) := Taken(b, now, rate, burst);
      && (Taken(t, again, rate, burst).0 <==> burst >= 1.0)
      && (forall k: int :: 1 <= k < wait ==> !OkAfter(t, now, k, rate, burst))
  {
    var (ok, wait, t) := Taken(b, now, rate, burst);
    RefusalLeaves(b, now, rate, burst);
    CeilFacts((1.0 - t.tokens) / rate);
    LaterTake(t, now, rate, burst, again - now);
    assert now + (again - now) == again;
    forall k: int | 1 <= k < wait ensures !OkAfter(t, now, k, rate, burst) {
      LaterTake(t, now, rate, burst, k as real);
    }
  }

  lemma RefusalLeaves(b: Level, now: real, rate: real, burst: real)
    requires rate > 0.0 && (b.last.Some? ==> b.last.value <= now) && !Taken(b, now, rate, burst).0
    ensures var (ok, wait, t) := Taken(b, now, rate, burst);
      t.last == Some(now) && t.tokens < 1.0 && wait == Max(1, Ceil((1.0 - t.tokens) / rate))
  {
  }

  lemma LaterTake(t: Level, now: real, rate: real, burst: real, d: real)
    requires rate > 0.0 && t.last == Some(now) && t.tokens < 1.0 && d > 0.0
    ensures Taken(t, now + d, rate, burst).0 <==> burst >= 1.0 && d >= (1.0 - t.tokens) / rate
  {
    WaitSuffices(t.tokens, rate, burst, d);
    assert now + d - now == d;
  }

  // ---- reaping ----

  const IDLE := 600.0

  /** A bucket not used for over ten minutes is dropped and its key starts a new one. That
      answers as the old one would have exactly when ten idle minutes and more had filled
      it anyway. */
  lemma ReapIsInvisibleExactly(b: Level, now: real, rate: real, burst: real)
    requires rate > 0.0 && InRange(b, burst) && now - b.last.value > IDLE
    ensures Taken(b, now, rate, burst) == Taken(UNUSED, now, rate, burst)
      <==> b.tokens + (now - b.last.value) * rate >= burst
  {
    var x, y := Refilled(b, now, rate, burst), Refilled(UNUSED, now, rate, burst);
    if x.tokens < y.tokens { assert Taken(b, now, rate, burst).2.tokens != Taken(UNUSED, now, rate, burst).2.tokens || x.tokens < 1.0; }
  }

  // ---- the objects ----

  class Bucket {
    var tokens: real
    var last: Option<real>

    function View(): Level
      reads this
    {
      Level(tokens, last)
    }

    constructor ()
      ensures View() == UNUSED
    {
      tokens, last := 0.0, None;
    }

    method Take(now: real, rate: real, burst: real) returns (ok: bool, wait: int)
      modifies this
      ensures (ok, wait, View()) == Taken(old(View()), now, rate, burst)
    {
      if rate <= 0.0 { return true, 0; }
      if last.None? {
        last := Some(now);
        tokens := burst;
      }
      var elapsed := now - last.value;
      if elapsed > 0.0 {
        tokens := RMin(burst, tokens + elapsed * rate);
        last := Some(now);
      }
      if tokens >= 1.0 {
        tokens := tokens - 1.0;
        return true, 0;
      }
      var need := (1.0 - tokens) / rate;
      wait := Ceil(need);
      if wait < 1 { wait := 1; }
      ok := false;
    }
  }
}
