/** The durable queue's write seam and its drain (internal/flow/replay.go): what becomes of
    every entry ever stored, whatever fails and whatever is written meanwhile. */
module Replay {
  import opened Basics
  import opened Seal
  import opened Spool

  datatype Why = Overflow | Ttl | Spent | Unreadable

  /** The records the flow leaves in the ledger about an entry. */
  datatype Note = Stored(id: Id) | StoreFailed(id: Id) | Dropped(id: Id, why: Why)
                | Delivered(id: Id) | Retrying(id: Id, attempts: nat)

  /** `sent` is every dispatch the drain has made, with the body it put on the wire. */
  datatype Queue = Queue(disk: Disk, notes: seq<Note>, sent: seq<(Id, Payload)>)

  /** How one dispatch and the file operation after it end. */
  datatype Try = Try(live: Live, ok: bool, file: Reply)

  const BACKOFF: seq<int> := [5, 15, 45, 120, 300]

  function NextAttempt(attempts: nat, now: int): int {
    if attempts == 0 then now else now + BACKOFF[Min(attempts - 1, 4)]
  }

  function DropNotes(es: seq<Entry>): seq<Note> {
    seq(|es|, i requires 0 <= i < |es| => Dropped(es[i].id, Overflow))
  }

  ghost function Wrote(b: Bounds, q: Queue, e: Entry, stop: Option<nat>, r: Reply): Queue
    requires Named(q.disk)
  {
    var stopped := stop.Some? && stop.value < Over(q.disk, b.maxEntries);
    Queue(Written(q.disk, b.maxEntries, e, stop, r),
          q.notes + DropNotes(Evicted(q.disk, b.maxEntries, stop))
            + [if !stopped && r.Ok() then Stored(e.id) else StoreFailed(e.id)],
          q.sent)
  }

  function Dropping(q: Queue, id: Id, why: Why, r: Reply): Queue {
    q.(disk := if r.Landed() then q.disk - {id} else q.disk, notes := q.notes + [Dropped(id, why)])
  }

  /** One listed entry considered at `now`: dropped when its time or its payload is past
      saving, left alone when it is not due or its key is in flight, else dispatched once. */
  function Considered(b: Bounds, q: Queue, e: Entry, now: int, busy: bool, t: Try): Queue {
    if now - e.ts > b.ttl then Dropping(q, e.id, Ttl, t.file)
    else if e.nextTry.Some? && now < e.nextTry.value then q
    else if Decode(e.body).Corrupt? then Dropping(q, e.id, Unreadable, t.file)
    else if busy then q
    else Attempted(b, q, e, now, t)
  }

  /** One dispatch, with the body the payload decodes to. */
  function Attempted(b: Bounds, q: Queue, e: Entry, now: int, t: Try): Queue
    requires !Decode(e.body).Corrupt?
  {
    var s := q.(sent := q.sent + [(e.id, Seal.Delivered(t.live, e.body).value)]);
    if t.ok then s.(disk := if t.file.Landed() then s.disk - {e.id} else s.disk, notes := s.notes + [Delivered(e.id)])
    else if e.attempts + 1 >= b.maxAttempts then Dropping(s, e.id, Spent, t.file)
    else
      var again := e.(attempts := e.attempts + 1, nextTry := Some(NextAttempt(e.attempts + 1, now)));
      s.(disk := if t.file.Landed() then s.disk[e.id := again] else s.disk,
         notes := s.notes + [Retrying(e.id, e.attempts + 1)])
  }

  // ---- runs: writes and considered entries in any interleaving ----

  datatype Step = Put(e: Entry, stop: Option<nat>, r: Reply) | Consider(e: Entry, now: int, busy: bool, t: Try)

  ghost function Next(b: Bounds, q: Queue, x: Step): (t: Queue)
    requires Named(q.disk)
    ensures Named(t.disk)
  {
    match x
    case Put(e, stop, r) => WrittenNamed(q.disk, b.maxEntries, e, stop, r); Wrote(b, q, e, stop, r)
    case Consider(e, now, busy, t) => Considered(b, q, e, now, busy, t)
  }

  lemma WrittenNamed(disk: Disk, maxEntries: int, e: Entry, stop: Option<nat>, r: Reply)
    requires Named(disk)
    ensures Named(Written(disk, maxEntries, e, stop, r))
  {
    forall i | i in Removed(disk, Evicted(disk, maxEntries, stop))
      ensures i in disk && Removed(disk, Evicted(disk, maxEntries, stop))[i] == disk[i]
    {
      RemovedMembers(disk, Evicted(disk, maxEntries, stop), i);
    }
  }

  function Empty(): Queue { Queue(map[], [], []) }

  ghost function After(b: Bounds, run: seq<Step>): (q: Queue)
    ensures Named(q.disk)
  {
    if run == [] then Empty() else Next(b, After(b, run[..|run| - 1]), run[|run| - 1])
  }

  /** The entries a run put on disk. */
  ghost function Born(b: Bounds, run: seq<Step>): set<Id> {
    if run == [] then {}
    else
      var front, x := run[..|run| - 1], run[|run| - 1];
      Born(b, front) + if x.Put? && x.e.id in After(b, run).disk then {x.e.id} else {}
  }

  predicate Closed(notes: seq<Note>, id: Id) {
    exists i :: 0 <= i < |notes| && notes[i].id == id && (notes[i].Dropped? || notes[i].Delivered?)
  }

  lemma ClosedGrows(notes: seq<Note>, more: seq<Note>, id: Id)
    requires Closed(notes, id)
    ensures Closed(notes + more, id)
  {
    var i :| 0 <= i < |notes| && notes[i].id == id && (notes[i].Dropped? || notes[i].Delivered?);
    assert (notes + more)[i] == notes[i];
  }

  lemma EvictionIsClosed(notes: seq<Note>, es: seq<Entry>, last: Note, e: Entry)
    requires e in es
    ensures Closed(notes + DropNotes(es) + [last], e.id)
  {
    var i :| 0 <= i < |es| && es[i] == e;
    assert (notes + DropNotes(es) + [last])[|notes| + i] == Dropped(e.id, Overflow);
  }

  lemma WroteLosesNothing(b: Bounds, q: Queue, e: Entry, stop: Option<nat>, r: Reply, id: Id)
    requires Named(q.disk) && (id in q.disk || Closed(q.notes, id))
    ensures var t := Wrote(b, q, e, stop, r); id in t.disk || Closed(t.notes, id)
  {
    var t := Wrote(b, q, e, stop, r);
    var gone := Evicted(q.disk, b.maxEntries, stop);
    if id in q.disk {
      RemovedMembers(q.disk, gone, id);
      if id !in Removed(q.disk, gone) {
        var x :| x in gone && x.id == id;
        EvictionIsClosed(q.notes, gone, t.notes[|t.notes| - 1], x);
      }
    } else {
      ClosedGrows(q.notes, DropNotes(gone) + [t.notes[|t.notes| - 1]], id);
      assert t.notes == q.notes + (DropNotes(gone) + [t.notes[|t.notes| - 1]]);
    }
  }

  lemma ConsideredLosesNothing(b: Bounds, q: Queue, e: Entry, now: int, busy: bool, y: Try, id: Id)
    requires id in q.disk || Closed(q.notes, id)
    ensures var t := Considered(b, q, e, now, busy, y); id in t.disk || Closed(t.notes, id)
  {
    var t := Considered(b, q, e, now, busy, y);
    if t.notes != q.notes {
      assert t.notes == q.notes + [t.notes[|q.notes|]] && t.notes[|q.notes|].id == e.id;
      if Closed(q.notes, id) { ClosedGrows(q.notes, [t.notes[|q.notes|]], id); }
    }
  }

  /** Nothing leaves the queue silently: over every run, with any file operation failing at
      any point and any write made between a drain's listing and its end, every entry ever
      stored is on disk or has a record of its delivery or of its drop. */
  lemma {:induction false} NothingLeavesSilently(b: Bounds, run: seq<Step>, id: Id)
    requires id in Born(b, run)
    ensures id in After(b, run).disk || Closed(After(b, run).notes, id)
  {
    var front, x := run[..|run| - 1], run[|run| - 1];
    if id in Born(b, front) {
      NothingLeavesSilently(b, front, id);
      var q := After(b, front);
      match x
      case Put(e, stop, r) => WroteLosesNothing(b, q, e, stop, r, id);
      case Consider(e, now, busy, t) => ConsideredLosesNothing(b, q, e, now, busy, t, id);
    }
  }

  // ---- exactly one fate ----

  function Closings(notes: seq<Note>, id: Id): nat {
    if notes == [] then 0
    else
      var last := notes[|notes| - 1];
      Closings(notes[..|notes| - 1], id) + Closing(last, id)
  }

  lemma {:induction false} ClosingsJoin(a: seq<Note>, b: seq<Note>, id: Id)
    ensures Closings(a + b, id) == Closings(a, id) + Closings(b, id)
  {
    if b == [] {
      assert a + b == a;
    } else {
      ClosingsJoin(a, b[..|b| - 1], id);
      assert (a + b)[..|a + b| - 1] == a + b[..|b| - 1];
    }
  }

  lemma {:induction false} EvictionsOnce(disk: Disk, es: seq<Entry>, id: Id)
    requires Ordered(es) && forall e :: e in es ==> e.id in disk && disk[e.id] == e
    ensures Closings(DropNotes(es), id) == if exists e :: e in es && e.id == id then 1 else 0
  {
    if es != [] {
      var front, last := es[..|es| - 1], es[|es| - 1];
      assert es == front + [last];
      EvictionsOnce(disk, front, id);
      LastIsNew(disk, front, last);
      assert DropNotes(es) == DropNotes(front) + [Dropped(last.id, Overflow)];
      OneNote(DropNotes(front), Dropped(last.id, Overflow), id);
      assert last in es && forall e :: e in es <==> e in front || e == last;
    }
  }

  function Here(disk: Disk, id: Id): nat { if id in disk then 1 else 0 }

  /** Where the entry is: on disk, and how often delivered or dropped. */
  function Fates(q: Queue, id: Id): nat { Here(q.disk, id) + Closings(q.notes, id) }

  lemma WroteBalances(b: Bounds, q: Queue, e: Entry, stop: Option<nat>, r: Reply, id: Id)
    requires Named(q.disk) && e.id !in q.disk
    ensures var t := Wrote(b, q, e, stop, r);
      Fates(t, id) == if id == e.id && e.id in t.disk then 1 + Closings(q.notes, id) else Fates(q, id)
  {
    var t := Wrote(b, q, e, stop, r);
    var gone := Evicted(q.disk, b.maxEntries, stop);
    var last := t.notes[|t.notes| - 1];
    EvictedFacts(q.disk, b.maxEntries, stop);
    RemovedMembers(q.disk, gone, id);
    EvictionsOnce(q.disk, gone, id);
    ClosingsJoin(q.notes, DropNotes(gone), id);
    ClosingsJoin(q.notes + DropNotes(gone), [last], id);
    assert [last][..0] == [];
  }

  /** The entry is dispatched when it is considered. */
  predicate Dispatched(b: Bounds, e: Entry, now: int, busy: bool) {
    && now - e.ts <= b.ttl && (e.nextTry.Some? ==> e.nextTry.value <= now)
    && !Decode(e.body).Corrupt? && !busy
  }

  /** It is dropped or delivered: past its time, due and unreadable, or dispatched for the
      last time. */
  predicate Closes(b: Bounds, e: Entry, now: int, busy: bool, y: Try) {
    || now - e.ts > b.ttl
    || ((e.nextTry.Some? ==> e.nextTry.value <= now) && Decode(e.body).Corrupt?)
    || (Dispatched(b, e, now, busy) && (y.ok || e.attempts + 1 >= b.maxAttempts))
  }

  /** Its dispatch fails with attempts to spare, and its file is rewritten. */
  predicate Updates(b: Bounds, e: Entry, now: int, busy: bool, y: Try) {
    Dispatched(b, e, now, busy) && !y.ok && e.attempts + 1 < b.maxAttempts && y.file.Landed()
  }

  /** The file of an entry that closes goes with it; and an entry whose file has gone
      meanwhile neither closes again nor is written back. */
  predicate Even(b: Bounds, q: Queue, e: Entry, now: int, busy: bool, y: Try) {
    if e.id in q.disk then Closes(b, e, now, busy, y) ==> y.file.Landed()
    else !Closes(b, e, now, busy, y) && !Updates(b, e, now, busy, y)
  }

  /** Whether on disk or not, and whatever fails: considering an entry conserves it exactly
      under that condition, and touches no other. */
  lemma ConsideredBalancesExactly(b: Bounds, q: Queue, e: Entry, now: int, busy: bool, y: Try, id: Id)
    ensures var t := Considered(b, q, e, now, busy, y);
      Fates(t, id) == Fates(q, id) <==> (id == e.id ==> Even(b, q, e, now, busy, y))
  {
    var t := Considered(b, q, e, now, busy, y);
    ConsideredShape(b, q, e, now, busy, y);
    if t.notes != q.notes { OneNote(q.notes, t.notes[|q.notes|], id); }
  }

  function Closing(n: Note, id: Id): nat { if n.id == id && (n.Dropped? || n.Delivered?) then 1 else 0 }

  lemma OneNote(notes: seq<Note>, n: Note, id: Id)
    ensures Closings(notes + [n], id) == Closings(notes, id) + Closing(n, id)
  {
    assert (notes + [n])[..|notes|] == notes;
  }

  /** A considered entry gets at most one note, a closing one exactly when it closes. */
  lemma ConsideredShape(b: Bounds, q: Queue, e: Entry, now: int, busy: bool, y: Try)
    ensures var t := Considered(b, q, e, now, busy, y);
      && (forall i :: i != e.id ==> (i in t.disk <==> i in q.disk))
      && (e.id in t.disk <==>
            Updates(b, e, now, busy, y) || (e.id in q.disk && !(Closes(b, e, now, busy, y) && y.file.Landed())))
      && (t.notes == q.notes ==> !Closes(b, e, now, busy, y))
      && (t.notes != q.notes ==>
            |t.notes| == |q.notes| + 1 && t.notes == q.notes + [t.notes[|q.notes|]] && t.notes[|q.notes|].id == e.id
            && (Closing(t.notes[|q.notes|], e.id) == 1 <==> Closes(b, e, now, busy, y)))
  {
  }

  /** The schedule of the retries: between five seconds and five minutes away, ever farther
      up to the fifth attempt and no closer after it. */
  lemma BackoffRises(a: nat, b: nat, now: int)
    requires 1 <= a <= b
    ensures now + 5 <= NextAttempt(a, now) <= NextAttempt(b, now) <= now + 300
    ensures a < b && a < 5 ==> NextAttempt(a, now) < NextAttempt(b, now)
    ensures a >= 5 ==> NextAttempt(a, now) == now + 300
  {
  }

  /** A failed dispatch is left alone until then: no drain touches the entry in the first
      five seconds, unless its time is past. */
  lemma FailedWaits(b: Bounds, q: Queue, e: Entry, now: int, y: Try, later: int, busy: bool, z: Try)
    requires Updates(b, e, now, false, y) && later < now + 5 && later - e.ts <= b.ttl
    ensures var t := Considered(b, q, e, now, false, y);
      && e.id in t.disk && t.disk[e.id].body == e.body && t.disk[e.id].attempts == e.attempts + 1
      && t.notes == q.notes + [Retrying(e.id, e.attempts + 1)]
      && Considered(b, t, t.disk[e.id], later, busy, z) == t
  {
    BackoffRises(e.attempts + 1, e.attempts + 1, now);
  }

  /** A drop says why: the entry's time was past, else it could not be read, else its last
      attempt failed. */
  lemma DropSaysWhyExactly(b: Bounds, q: Queue, e: Entry, now: int, busy: bool, y: Try, why: Why)
    ensures Considered(b, q, e, now, busy, y).notes == q.notes + [Dropped(e.id, why)] <==>
      || (why.Ttl? && now - e.ts > b.ttl)
      || (why.Unreadable? && now - e.ts <= b.ttl && (e.nextTry.Some? ==> e.nextTry.value <= now) && Decode(e.body).Corrupt?)
      || (why.Spent? && Dispatched(b, e, now, busy) && !y.ok && e.attempts + 1 >= b.maxAttempts)
  {
    var t := Considered(b, q, e, now, busy, y);
    if |t.notes| > |q.notes| { assert (q.notes + [Dropped(e.id, why)])[|q.notes|] == Dropped(e.id, why); }
  }

  /** What a write reports: stored exactly when nothing stopped it and the write succeeded,
      and then the entry is on disk as it was given. */
  lemma WriteIsToldExactly(b: Bounds, q: Queue, e: Entry, stop: Option<nat>, r: Reply)
    requires Named(q.disk)
    ensures var t := Wrote(b, q, e, stop, r); var stopped := stop.Some? && stop.value < Over(q.disk, b.maxEntries);
      && t.notes != [] && t.notes[|t.notes| - 1] == (if !stopped && r.Ok() then Note.Stored(e.id) else StoreFailed(e.id))
      && (!stopped && r.Landed() ==> e.id in t.disk && t.disk[e.id] == e)
      && (stopped ==> t.disk == Removed(q.disk, Evicted(q.disk, b.maxEntries, stop)))
  {
  }

  /** Over every run: what was reported as stored was put on disk. */
  lemma {:induction false} StoredWasWritten(b: Bounds, run: seq<Step>, id: Id)
    requires Note.Stored(id) in After(b, run).notes
    ensures id in Born(b, run)
  {
    var front, x := run[..|run| - 1], run[|run| - 1];
    var q, t := After(b, front), After(b, run);
    if Note.Stored(id) in q.notes {
      StoredWasWritten(b, front, id);
    } else if x.Put? {
      WriteIsToldExactly(b, q, x.e, x.stop, x.r);
      OnlyTheLastIsStored(b, q, x.e, x.stop, x.r, id);
    } else {
      ConsideredShape(b, q, x.e, x.now, x.busy, x.t);
      ConsideredStoresNothing(b, q, x.e, x.now, x.busy, x.t, id);
    }
  }

  lemma OnlyTheLastIsStored(b: Bounds, q: Queue, e: Entry, stop: Option<nat>, r: Reply, id: Id)
    requires Named(q.disk) && Note.Stored(id) !in q.notes
    ensures var t := Wrote(b, q, e, stop, r); Note.Stored(id) in t.notes ==> id == e.id && t.notes[|t.notes| - 1] == Note.Stored(e.id)
  {
    var t := Wrote(b, q, e, stop, r);
    var gone := DropNotes(Evicted(q.disk, b.maxEntries, stop));
    assert forall n :: n in gone ==> n.Dropped?;
    assert forall n :: n in t.notes ==> n in q.notes || n in gone || n == t.notes[|t.notes| - 1];
  }

  lemma ConsideredStoresNothing(b: Bounds, q: Queue, e: Entry, now: int, busy: bool, y: Try, id: Id)
    ensures Note.Stored(id) in Considered(b, q, e, now, busy, y).notes ==> Note.Stored(id) in q.notes
  {
  }

  /** Writes store under new ids. */
  ghost predicate NewIds(b: Bounds, run: seq<Step>) {
    run == [] ||
    (NewIds(b, run[..|run| - 1]) && (run[|run| - 1].Put? ==> run[|run| - 1].e.id !in Born(b, run[..|run| - 1])))
  }

  /** Each entry ever stored is in exactly one of three places, on disk, delivered once or
      dropped once, and nothing else is. */
  ghost predicate OneFate(q: Queue, born: set<Id>) {
    forall id: Id :: Fates(q, id) == if id in born then 1 else 0
  }

  ghost predicate AlwaysOneFate(b: Bounds, run: seq<Step>) {
    OneFate(After(b, run), Born(b, run)) && (run == [] || AlwaysOneFate(b, run[..|run| - 1]))
  }

  predicate EvenStep(b: Bounds, q: Queue, x: Step) { x.Consider? ==> Even(b, q, x.e, x.now, x.busy, x.t) }

  ghost predicate AllEven(b: Bounds, run: seq<Step>) {
    run == [] || (AllEven(b, run[..|run| - 1]) && EvenStep(b, After(b, run[..|run| - 1]), run[|run| - 1]))
  }

  /** Conservation, over every run whose writes use new ids: each entry has exactly one fate
      all through the run exactly when every considered entry is even. */
  lemma {:induction false} ExactlyOneFate(b: Bounds, run: seq<Step>)
    requires NewIds(b, run)
    ensures AlwaysOneFate(b, run) <==> AllEven(b, run)
  {
    if run != [] {
      ExactlyOneFate(b, run[..|run| - 1]);
      if AlwaysOneFate(b, run[..|run| - 1]) { StepKeepsOneFateExactly(b, run, run[..|run| - 1], run[|run| - 1]); }
    }
  }

  lemma StepKeepsOneFateExactly(b: Bounds, run: seq<Step>, front: seq<Step>, x: Step)
    requires run != [] && front == run[..|run| - 1] && x == run[|run| - 1]
    requires NewIds(b, run) && AlwaysOneFate(b, front)
    ensures OneFate(After(b, run), Born(b, run)) <==> EvenStep(b, After(b, front), x)
  {
    var q, born := After(b, front), Born(b, front);
    assert OneFate(q, born);
    if x.Put? {
      PutKeepsOneFate(b, q, born, x.e, x.stop, x.r);
    } else {
      assert Born(b, run) == born;
      ConsiderKeepsOneFateExactly(b, q, born, x.e, x.now, x.busy, x.t);
    }
  }

  lemma PutKeepsOneFate(b: Bounds, q: Queue, born: set<Id>, e: Entry, stop: Option<nat>, r: Reply)
    requires Named(q.disk) && OneFate(q, born) && e.id !in born
    ensures var t := Wrote(b, q, e, stop, r); OneFate(t, born + if e.id in t.disk then {e.id} else {})
  {
    var t := Wrote(b, q, e, stop, r);
    assert Fates(q, e.id) == 0;
    forall id: Id ensures Fates(t, id) == if id in born + (if e.id in t.disk then {e.id} else {}) then 1 else 0 {
      WroteBalances(b, q, e, stop, r, id);
      assert Fates(q, id) == if id in born then 1 else 0;
    }
  }

  lemma ConsiderKeepsOneFateExactly(b: Bounds, q: Queue, born: set<Id>, e: Entry, now: int, busy: bool, y: Try)
    requires OneFate(q, born)
    ensures OneFate(Considered(b, q, e, now, busy, y), born) <==> Even(b, q, e, now, busy, y)
  {
    var t := Considered(b, q, e, now, busy, y);
    forall id: Id ensures Fates(t, id) == (if id in born then 1 else 0) <==> (id == e.id ==> Even(b, q, e, now, busy, y)) {
      ConsideredBalancesExactly(b, q, e, now, busy, y, id);
      assert Fates(q, id) == if id in born then 1 else 0;
    }
    assert Fates(t, e.id) == (if e.id in born then 1 else 0) <==> Even(b, q, e, now, busy, y);
  }

  lemma RunStep(b: Bounds, run: seq<Step>, x: Step)
    ensures After(b, run + [x]) == Next(b, After(b, run), x)
    ensures NewIds(b, run + [x]) <==> NewIds(b, run) && (x.Put? ==> x.e.id !in Born(b, run))
  {
    assert (run + [x])[..|run|] == run;
  }

  /** A run on which it fails: the file of a delivered entry does not go, and the next drain
      delivers it again. */
  lemma FailedDeleteDeliversTwice(live: Live, e: Entry)
    requires e.nextTry == None && !Decode(e.body).Corrupt?
    ensures var b := Bounds(1, 10, 5, 100);
      var run := [] + [Put(e, None, Done)] + [Consider(e, e.ts, false, Try(live, true, FailedClean))]
                 + [Consider(e, e.ts, false, Try(live, true, Done))];
      NewIds(b, run) && Closings(After(b, run).notes, e.id) == 2 && |After(b, run).sent| == 2
  {
    var b := Bounds(1, 10, 5, 100);
    var first := [] + [Put(e, None, Done)];
    var second := first + [Consider(e, e.ts, false, Try(live, true, FailedClean))];
    RunStep(b, [], Put(e, None, Done));
    RunStep(b, first, Consider(e, e.ts, false, Try(live, true, FailedClean)));
    RunStep(b, second, Consider(e, e.ts, false, Try(live, true, Done)));
    WrittenToEmpty(b, e);
    TwiceDelivered(b, e, live, After(b, first));
  }

  lemma TwiceDelivered(b: Bounds, e: Entry, live: Live, q: Queue)
    requires b == Bounds(1, 10, 5, 100) && e.nextTry == None && !Decode(e.body).Corrupt?
    requires q == Queue(map[e.id := e], [Note.Stored(e.id)], [])
    ensures var t := Considered(b, Considered(b, q, e, e.ts, false, Try(live, true, FailedClean)), e, e.ts, false, Try(live, true, Done));
      Closings(t.notes, e.id) == 2 && |t.sent| == 2
  {
    var s := Considered(b, q, e, e.ts, false, Try(live, true, FailedClean));
    OneNote([], Note.Stored(e.id), e.id);
    assert [] + [Note.Stored(e.id)] == q.notes;
    OneNote(q.notes, Note.Delivered(e.id), e.id);
    OneNote(s.notes, Note.Delivered(e.id), e.id);
  }

  lemma WrittenToEmpty(b: Bounds, e: Entry)
    requires b.maxEntries == 1
    ensures Wrote(b, Empty(), e, None, Done) == Queue(map[e.id := e], [Note.Stored(e.id)], [])
  {
    assert Evicted(map[], 1, None) == [];
  }

  /** A considered entry adds a file exactly when it left the disk after it was listed, is
      dispatched, and the dispatch fails with attempts to spare and the update lands: the
      update brings it back. */
  lemma ConsiderAddsExactly(b: Bounds, q: Queue, e: Entry, now: int, busy: bool, y: Try)
    ensures var t := Considered(b, q, e, now, busy, y);
      !(t.disk.Keys <= q.disk.Keys) <==> e.id !in q.disk && Updates(b, e, now, busy, y)
  {
    var t := Considered(b, q, e, now, busy, y);
    if e.id !in q.disk && Updates(b, e, now, busy, y) { assert e.id in t.disk.Keys; }
  }

  /** So a drop for overflow is no proof that the entry is gone, nor the bound one that the
      queue is within it: a write during a drain evicts the entry being dispatched. */
  lemma EvictedEntryComesBack(live: Live, e: Entry, f: Entry)
    requires e.id != f.id && e.nextTry == None && e.attempts == 0 && !Decode(e.body).Corrupt?
    ensures var b := Bounds(1, 10, 5, 100);
      var full := Queue(map[e.id := e], [], []);
      var evicted := Wrote(b, full, f, None, Done);
      var t := Considered(b, evicted, e, e.ts, false, Try(live, false, Done));
      evicted.disk == map[f.id := f] && t.disk.Keys == {e.id, f.id}
  {
    OneEvicted(e, f);
    var b := Bounds(1, 10, 5, 100);
    var evicted := Wrote(b, Queue(map[e.id := e], [], []), f, None, Done);
    var t := Considered(b, evicted, e, e.ts, false, Try(live, false, Done));
    assert t.disk == evicted.disk[e.id := e.(attempts := 1, nextTry := Some(NextAttempt(1, e.ts)))];
  }

  lemma OneEvicted(e: Entry, f: Entry)
    requires e.id != f.id
    ensures Written(map[e.id := e], 1, f, None, Done) == map[f.id := f]
  {
    EvictsTheOne(e);
    RemovedAppend(map[e.id := e], [], e);
    assert [] + [e] == [e];
    assert map[e.id := e] - {e.id} == map[];
    assert map[][f.id := f] == map[f.id := f];
  }

  lemma EvictsTheOne(e: Entry)
    ensures Over(map[e.id := e], 1) == 1 && Evicted(map[e.id := e], 1, None) == [e]
  {
    var disk: Disk := map[e.id := e];
    assert disk.Keys == {e.id};
    assert IsListing(disk, [e]);
    OneListing(Listing(disk), [e]);
    assert [e][..1] == [e];
  }

  // ---- draining ----

  /** The attempts an entry has left, at least the one that drops it. */
  function Patience(b: Bounds, e: Entry): nat { Max(1, b.maxAttempts - e.attempts) }

  ghost function Work(b: Bounds, disk: Disk): nat
    decreases |disk|
  {
    if disk == map[] then 0
    else
      var i :| i in disk;
      OneLess(disk, i);
      Patience(b, disk[i]) + Work(b, disk - {i})
  }

  lemma {:induction false} WorkSplit(b: Bounds, disk: Disk, i: Id)
    requires i in disk
    ensures Work(b, disk) == Patience(b, disk[i]) + Work(b, disk - {i})
    decreases |disk|
  {
    var j :| j in disk && Work(b, disk) == Patience(b, disk[j]) + Work(b, disk - {j});
    if j != i {
      OneLess(disk, j);
      OneLess(disk, i);
      WorkSplit(b, disk - {j}, i);
      WorkSplit(b, disk - {i}, j);
      assert disk - {i} - {j} == disk - {j} - {i};
    }
  }

  /** A considered entry never adds work, and one that is due and whose key is free takes
      at least one attempt of it away. */
  lemma ConsideringWorks(b: Bounds, q: Queue, e: Entry, now: int, busy: bool, y: Try)
    requires b.maxAttempts > 0 && e.id in q.disk && q.disk[e.id] == e && y.file.Landed()
    ensures var t := Considered(b, q, e, now, busy, y);
      && Work(b, t.disk) <= Work(b, q.disk)
      && (!busy && (e.nextTry.Some? ==> e.nextTry.value <= now) ==> Work(b, t.disk) < Work(b, q.disk))
  {
    var t := Considered(b, q, e, now, busy, y);
    WorkSplit(b, q.disk, e.id);
    if e.id in t.disk {
      WorkSplit(b, t.disk, e.id);
      assert t.disk - {e.id} == q.disk - {e.id};
    } else {
      assert t.disk == q.disk - {e.id};
    }
  }

  /** One quiet pass of the drain over its listing, up to `budget` deliveries. */
  function Pass(b: Bounds, q: Queue, es: seq<Entry>, budget: nat, now: int, tries: nat -> Try): Queue
    decreases |es|
  {
    if es == [] || budget == 0 then q
    else
      var t := Considered(b, q, es[0], now, false, tries(|es|));
      Pass(b, t, es[1..], if DeliveredLast(q, t) then budget - 1 else budget, now, tries)
  }

  predicate DeliveredLast(q: Queue, t: Queue) { |t.notes| > |q.notes| && t.notes[|t.notes| - 1].Delivered? }

  predicate AllDue(disk: Disk, now: int) { forall i :: i in disk && disk[i].nextTry.Some? ==> disk[i].nextTry.value <= now }

  ghost predicate FilesLand(tries: nat -> Try) { forall n :: tries(n).file.Landed() }

  lemma OthersUntouched(b: Bounds, q: Queue, es: seq<Entry>, now: int, busy: bool, y: Try)
    requires es != [] && Ordered(es) && forall e :: e in es ==> e.id in q.disk && q.disk[e.id] == e
    ensures var t := Considered(b, q, es[0], now, busy, y);
      forall e :: e in es[1..] ==> e.id in t.disk && t.disk[e.id] == e
  {
    var t := Considered(b, q, es[0], now, busy, y);
    forall e | e in es[1..] ensures e.id in t.disk && t.disk[e.id] == e {
      assert es == [es[0]] + es[1..];
      TailMembers(es, e);
      assert e in es && es[0] in es;
    }
  }

  lemma {:induction false} PassWorks(b: Bounds, q: Queue, es: seq<Entry>, budget: nat, now: int, tries: nat -> Try)
    requires b.maxAttempts > 0 && FilesLand(tries)
    requires Ordered(es) && forall e :: e in es ==> e.id in q.disk && q.disk[e.id] == e
    ensures var t := Pass(b, q, es, budget, now, tries);
      && Work(b, t.disk) <= Work(b, q.disk) && t.disk.Keys <= q.disk.Keys
      && (es != [] && budget > 0 && (es[0].nextTry.Some? ==> es[0].nextTry.value <= now) ==> Work(b, t.disk) < Work(b, q.disk))
    decreases |es|
  {
    if es != [] && budget > 0 {
      assert es[0] in es;
      var t := Considered(b, q, es[0], now, false, tries(|es|));
      ConsideringWorks(b, q, es[0], now, false, tries(|es|));
      OthersUntouched(b, q, es, now, false, tries(|es|));
      PassWorks(b, t, es[1..], if DeliveredLast(q, t) then budget - 1 else budget, now, tries);
    }
  }

  lemma {:induction false} PassNamed(b: Bounds, q: Queue, es: seq<Entry>, budget: nat, now: int, tries: nat -> Try)
    requires Named(q.disk)
    ensures Named(Pass(b, q, es, budget, now, tries).disk)
    decreases |es|
  {
    if es != [] && budget > 0 {
      var t := Considered(b, q, es[0], now, false, tries(|es|));
      PassNamed(b, t, es[1..], if DeliveredLast(q, t) then budget - 1 else budget, now, tries);
    }
  }

  datatype Tick = Tick(now: int, tries: nat -> Try)

  ghost function Passes(b: Bounds, q: Queue, ticks: seq<Tick>): (t: Queue)
    requires b.replayBatch > 0 && Named(q.disk)
    ensures Named(t.disk)
  {
    if ticks == [] then q
    else
      var s := Passes(b, q, ticks[..|ticks| - 1]);
      var tick := ticks[|ticks| - 1];
      PassNamed(b, s, Listing(s.disk), b.replayBatch, tick.now, tick.tries);
      Pass(b, s, Listing(s.disk), b.replayBatch, tick.now, tick.tries)
  }

  /** Each pass happens after every retry time then on disk has come. */
  ghost predicate Patient(b: Bounds, q: Queue, ticks: seq<Tick>)
    requires b.replayBatch > 0 && Named(q.disk)
  {
    ticks == [] ||
    (Patient(b, q, ticks[..|ticks| - 1]) && FilesLand(ticks[|ticks| - 1].tries)
     && AllDue(Passes(b, q, ticks[..|ticks| - 1]).disk, ticks[|ticks| - 1].now))
  }

  /** A queue with no new writes drains, whatever the router answers: the attempts its
      entries have left bound the number of passes it takes. */
  lemma {:induction false} QueueDrains(b: Bounds, q: Queue, ticks: seq<Tick>)
    requires b.maxAttempts > 0 && b.replayBatch > 0 && Named(q.disk) && Patient(b, q, ticks)
    ensures Passes(b, q, ticks).disk == map[] || Work(b, Passes(b, q, ticks).disk) + |ticks| <= Work(b, q.disk)
    ensures |ticks| >= Work(b, q.disk) ==> Passes(b, q, ticks).disk == map[]
  {
    if ticks == [] {
      if q.disk != map[] {
        var i :| i in q.disk;
        WorkSplit(b, q.disk, i);
      }
    } else {
      var s, tick := Passes(b, q, ticks[..|ticks| - 1]), ticks[|ticks| - 1];
      QueueDrains(b, q, ticks[..|ticks| - 1]);
      PassDrains(b, s, tick);
    }
  }

  /** A pass over a queue that is all due takes work away, until there is none. */
  lemma PassDrains(b: Bounds, s: Queue, tick: Tick)
    requires b.maxAttempts > 0 && b.replayBatch > 0 && Named(s.disk) && FilesLand(tick.tries) && AllDue(s.disk, tick.now)
    ensures var t := Pass(b, s, Listing(s.disk), b.replayBatch, tick.now, tick.tries);
      && (s.disk == map[] ==> t.disk == map[])
      && (t.disk != map[] ==> 0 < Work(b, t.disk) < Work(b, s.disk))
  {
    var t := Pass(b, s, Listing(s.disk), b.replayBatch, tick.now, tick.tries);
    PassWorks(b, s, Listing(s.disk), b.replayBatch, tick.now, tick.tries);
    if s.disk == map[] {
      assert t.disk.Keys == {};
    } else if t.disk != map[] {
      var i :| i in t.disk;
      WorkSplit(b, t.disk, i);
      assert Listing(s.disk)[0] in Listing(s.disk);
    }
  }

  // ---- what is put on the wire ----

  /** The payload each entry was written with. */
  function Bodies(run: seq<Step>): map<Id, Json> {
    if run == [] then map[]
    else
      var bodies, x := Bodies(run[..|run| - 1]), run[|run| - 1];
      if x.Put? then bodies[x.e.id := x.e.body] else bodies
  }

  /** Ids are minted, and a drain considers entries as some listing showed them. */
  predicate Faithful(run: seq<Step>) {
    run == [] ||
    (Faithful(run[..|run| - 1]) &&
     match run[|run| - 1]
     case Put(e, _, _) => e.id !in Bodies(run[..|run| - 1])
     case Consider(e, _, _, _) => e.id in Bodies(run[..|run| - 1]) && Bodies(run[..|run| - 1])[e.id] == e.body)
  }

  /** Over every run, each dispatch of a sealed entry puts on the wire the body rendered
      when the entry was written, in its first replay and in every later one. */
  lemma {:induction false} SentAsSealed(b: Bounds, run: seq<Step>)
    requires Faithful(run)
    ensures forall i :: 0 <= i < |After(b, run).sent| ==>
      var (id, p) := After(b, run).sent[i];
      id in Bodies(run) && (Decode(Bodies(run)[id]).Sealed? ==> p == Decode(Bodies(run)[id]).sd.payload)
  {
    if run != [] {
      var front, x := run[..|run| - 1], run[|run| - 1];
      SentAsSealed(b, front);
      StepSends(b, After(b, front), x);
    }
  }

  /** A step sends nothing, or the considered entry's body. */
  lemma StepSends(b: Bounds, q: Queue, x: Step)
    requires Named(q.disk)
    ensures Next(b, q, x).sent == q.sent
      || (x.Consider? && !Decode(x.e.body).Corrupt? && exists p: Payload ::
            Next(b, q, x).sent == q.sent + [(x.e.id, p)] && (Decode(x.e.body).Sealed? ==> p == Decode(x.e.body).sd.payload))
  {
    if x.Consider? && !Decode(x.e.body).Corrupt? {
      var p := Seal.Delivered(x.t.live, x.e.body).value;
      assert Next(b, q, x).sent == q.sent || Next(b, q, x).sent == q.sent + [(x.e.id, p)];
    }
  }

  lemma {:induction false} DiskBodies(b: Bounds, run: seq<Step>, i: Id)
    requires Faithful(run) && i in After(b, run).disk
    ensures i in Bodies(run) && After(b, run).disk[i].body == Bodies(run)[i]
  {
    var front, x := run[..|run| - 1], run[|run| - 1];
    var q := After(b, front);
    StepBodies(b, q, x, i);
    if i in q.disk { DiskBodies(b, front, i); }
  }

  /** A step leaves a file's payload alone, unless it writes that file. */
  lemma StepBodies(b: Bounds, q: Queue, x: Step, i: Id)
    requires Named(q.disk) && i in Next(b, q, x).disk
    ensures (i == x.e.id && Next(b, q, x).disk[i].body == x.e.body)
      || (i in q.disk && Next(b, q, x).disk[i].body == q.disk[i].body)
  {
    if x.Put? { RemovedMembers(q.disk, Evicted(q.disk, b.maxEntries, x.stop), i); }
  }

  /** The entries a run has considered, in order. */
  function Looked(run: seq<Step>): seq<Entry> {
    if run == [] then []
    else Looked(run[..|run| - 1]) + if run[|run| - 1].Consider? then [run[|run| - 1].e] else []
  }

  predicate Follows(bodies: map<Id, Json>, x: Step) {
    if x.Put? then x.e.id !in bodies else x.e.id in bodies && bodies[x.e.id] == x.e.body
  }

  lemma StepOn(b: Bounds, run: seq<Step>, x: Step)
    ensures After(b, run + [x]) == Next(b, After(b, run), x)
    ensures Bodies(run + [x]) == if x.Put? then Bodies(run)[x.e.id := x.e.body] else Bodies(run)
    ensures Looked(run + [x]) == Looked(run) + if x.Consider? then [x.e] else []
    ensures Faithful(run + [x]) <==> Faithful(run) && Follows(Bodies(run), x)
  {
    assert (run + [x])[..|run|] == run;
  }

  /** The entries are as they were written. */
  ghost predicate Known(bodies: map<Id, Json>, es: seq<Entry>) { forall e :: e in es ==> e.id in bodies && bodies[e.id] == e.body }

  ghost predicate Grown(a: map<Id, Json>, b: map<Id, Json>) { forall i :: i in a ==> i in b && b[i] == a[i] }

  /** The queue is what the run made of an empty one, with ids minted below `minted`. */
  ghost predicate Traces(b: Bounds, run: seq<Step>, q: Queue, minted: Id) {
    Faithful(run) && After(b, run) == q && forall i :: i in Bodies(run) ==> i < minted
  }

  /** A write under a fresh id extends a trace. */
  lemma PutOn(b: Bounds, run: seq<Step>, q: Queue, e: Entry, stop: Option<nat>, r: Reply)
    requires Traces(b, run, q, e.id)
    ensures Named(q.disk)
    ensures var more := run + [Put(e, stop, r)];
      Traces(b, more, Wrote(b, q, e, stop, r), e.id + 1) && Grown(Bodies(run), Bodies(more)) && Looked(more) == Looked(run)
  {
    StepOn(b, run, Put(e, stop, r));
    NextIsWrote(b, After(b, run), e, stop, r);
    assert e.id !in Bodies(run) && Bodies(run + [Put(e, stop, r)]) == Bodies(run)[e.id := e.body];
  }

  lemma NextIsWrote(b: Bounds, q: Queue, e: Entry, stop: Option<nat>, r: Reply)
    requires Named(q.disk)
    ensures Next(b, q, Put(e, stop, r)) == Wrote(b, q, e, stop, r)
  {
  }

  // ---- the object ----

  /** What others do before an entry is considered: entries they queue, the idem keys they
      hold; and how the consideration ends. */
  datatype Moment = Moment(writes: seq<(Entry, Option<nat>, Reply)>, held: set<string>, t: Try)

  class Flow {
    const store: Store
    const weather: nat -> Moment
    var tick: nat
    var minted: Id
    var notes: seq<Note>
    var sent: seq<(Id, Payload)>
    var inflight: set<string>
    ghost var trace: seq<Step>

    ghost function View(): Queue
      reads this, store
    {
      Queue(store.disk, notes, sent)
    }

    ghost predicate Valid()
      reads this, store
    {
      store.bounds.replayBatch > 0 && store.Valid() && Traces(store.bounds, trace, View(), minted)
    }

    constructor (b: Bounds, weather: nat -> Moment)
      ensures Valid() && View() == Empty() && fresh(store)
    {
      store := new Store(b);
      this.weather := weather;
      tick, minted, notes, sent, inflight, trace := 0, 0, [], [], {}, [];
    }

    /** Queue an entry under a fresh id, record what was evicted for it, and say truthfully
        whether it is durable. */
    method SpoolWrite(e: Entry, stop: Option<nat>, r: Reply) returns (queued: bool)
      requires Valid() && e.id == minted
      modifies this`minted, this`notes, this`trace, store
      ensures Valid() && minted == old(minted) + 1
      ensures trace == old(trace) + [Put(e, stop, r)]
      ensures Grown(Bodies(old(trace)), Bodies(trace)) && Looked(trace) == Looked(old(trace))
      ensures queued ==> e.id in store.disk
      ensures notes != [] && (queued <==> notes[|notes| - 1] == Stored(e.id))
    {
      PutOn(store.bounds, trace, View(), e, stop, r);
      queued := Write(e, stop, r);
      trace := trace + [Put(e, stop, r)];
      minted := minted + 1;
    }

    method Write(e: Entry, stop: Option<nat>, r: Reply) returns (queued: bool)
      requires store.Valid()
      modifies this`notes, store
      ensures store.Valid() && View() == Wrote(store.bounds, old(View()), e, stop, r)
      ensures queued ==> e.id in store.disk
      ensures notes != [] && (queued <==> notes[|notes| - 1] == Stored(e.id))
    {
      var drops;
      drops, queued := store.Put(e, stop, r);
      notes := notes + DropNotes(drops) + [if queued then Stored(e.id) else StoreFailed(e.id)];
    }

    /** One in-flight dispatch a key. */
    method ClaimIdem(key: string) returns (ok: bool)
      modifies this`inflight
      ensures ok <==> key == "" || key !in old(inflight)
      ensures inflight == if ok && key != "" then old(inflight) + {key} else old(inflight)
    {
      if key == "" { return true; }
      if key in inflight { return false; }
      inflight := inflight + {key};
      ok := true;
    }

    method ReleaseIdem(key: string)
      modifies this`inflight
      ensures inflight == if key == "" then old(inflight) else old(inflight) - {key}
    {
      if key != "" { inflight := inflight - {key}; }
    }

    method DropSpoolEntry(id: Id, why: Why, r: Reply)
      requires store.Valid()
      modifies this`notes, store
      ensures store.Valid() && View() == Dropping(old(View()), id, why, r)
    {
      store.Delete(id, r);
      notes := notes + [Dropped(id, why)];
    }

    /** Consider one listed entry. */
    method ConsiderOne(e: Entry, now: int, t: Try) returns (delivered: bool)
      requires store.Valid()
      modifies this`notes, this`sent, this`inflight, store
      ensures View() == Considered(store.bounds, old(View()), e, now, e.key != "" && e.key in old(inflight), t)
      ensures delivered <==> |notes| > |old(notes)| && notes[|old(notes)|] == Delivered(e.id)
      ensures inflight == old(inflight)
    {
      delivered := false;
      if now - e.ts > store.bounds.ttl { DropSpoolEntry(e.id, Ttl, t.file); return; }
      if e.nextTry.Some? && now < e.nextTry.value { return; }
      var origin := Decode(e.body);
      if origin.Corrupt? { DropSpoolEntry(e.id, Unreadable, t.file); return; }
      var claimed := ClaimIdem(e.key);
      if !claimed { return; }
      delivered := Attempt(e, now, t);
      ReleaseIdem(e.key);
    }

    /** Put the entry's body on the wire, and keep, update or remove its file by what comes
        back. */
    method Attempt(e: Entry, now: int, t: Try) returns (delivered: bool)
      requires store.Valid() && !Decode(e.body).Corrupt?
      modifies this`notes, this`sent, store
      ensures View() == Attempted(store.bounds, old(View()), e, now, t)
      ensures delivered <==> t.ok
    {
      sent := sent + [(e.id, Seal.Delivered(t.live, e.body).value)];
      delivered := t.ok;
      if !t.ok {
        if e.attempts + 1 >= store.bounds.maxAttempts { DropSpoolEntry(e.id, Spent, t.file); return; }
        store.Update(e.(attempts := e.attempts + 1, nextTry := Some(NextAttempt(e.attempts + 1, now))), t.file);
        notes := notes + [Retrying(e.id, e.attempts + 1)];
        return;
      }
      store.Delete(e.id, t.file);
      notes := notes + [Delivered(e.id)];
    }

    /** Everyone else queues what they queue and holds what keys they hold. */
    method Meanwhile() returns (t: Try)
      requires Valid()
      modifies this`tick, this`minted, this`notes, this`trace, this`inflight, store
      ensures Valid() && Grown(Bodies(old(trace)), Bodies(trace)) && Looked(trace) == Looked(old(trace))
    {
      var m := weather(tick);
      tick := tick + 1;
      t := m.t;
      var i := 0;
      while i < |m.writes|
        invariant 0 <= i <= |m.writes| && Valid()
        invariant Grown(Bodies(old(trace)), Bodies(trace)) && Looked(trace) == Looked(old(trace))
      {
        var queued := SpoolWrite(m.writes[i].0.(id := minted), m.writes[i].1, m.writes[i].2);
        i := i + 1;
      }
      inflight := m.held;
    }

    /** Let everyone else move, then consider an entry some listing showed. */
    method ReplayOne(e: Entry, now: int) returns (delivered: bool)
      requires Valid() && Known(Bodies(trace), [e])
      modifies this, store
      ensures Valid() && Grown(Bodies(old(trace)), Bodies(trace)) && Looked(trace) == Looked(old(trace)) + [e]
      ensures delivered ==> Delivered(e.id) in notes
    {
      var t := Meanwhile();
      assert e in [e];
      ghost var x := Consider(e, now, e.key != "" && e.key in inflight, t);
      StepOn(store.bounds, trace, x);
      delivered := ConsiderOne(e, now, t);
      trace := trace + [x];
    }

    method Snapshot() returns (entries: seq<Entry>)
      requires Valid()
      ensures entries == Listing(store.disk) && Known(Bodies(trace), entries)
    {
      entries := store.List();
      forall e | e in entries ensures e.id in Bodies(trace) && Bodies(trace)[e.id] == e.body {
        DiskBodies(store.bounds, trace, e.id);
      }
    }

    /** Drain the queue: the listing's entries are considered in replay order, every one of
        them unless the budget of deliveries is spent first, with everyone else at work
        between any two. */
    method Replay(budget: int, now: int) returns (replayed: nat, ghost n: nat)
      requires Valid()
      modifies this, store
      ensures Valid()
      ensures replayed <= if budget <= 0 then store.bounds.replayBatch else budget
      ensures n <= |Listing(old(store.disk))| && Looked(trace) == Looked(old(trace)) + Listing(old(store.disk))[..n]
      ensures n < |Listing(old(store.disk))| ==> replayed == if budget <= 0 then store.bounds.replayBatch else budget
    {
      var limit := if budget <= 0 then store.bounds.replayBatch else budget;
      var entries := Snapshot();
      replayed, n := ReplayListed(entries, limit, now);
    }

    method ReplayListed(entries: seq<Entry>, limit: nat, now: int) returns (replayed: nat, ghost n: nat)
      requires Valid() && Known(Bodies(trace), entries)
      modifies this, store
      ensures Valid() && replayed <= limit
      ensures n <= |entries| && Looked(trace) == Looked(old(trace)) + entries[..n]
      ensures n < |entries| ==> replayed == limit
    {
      replayed := 0;
      var i := 0;
      while i < |entries|
        invariant 0 <= i <= |entries| && Valid() && replayed <= limit
        invariant Known(Bodies(trace), entries) && Looked(trace) == Looked(old(trace)) + entries[..i]
      {
        if replayed >= limit { break; }
        assert entries[..i + 1] == entries[..i] + [entries[i]];
        var delivered := ReplayOne(entries[i], now);
        if delivered { replayed := replayed + 1; }
        i := i + 1;
      }
      n := i;
    }
  }
}
