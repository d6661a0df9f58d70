/** The two files of a board and the operations on them, with the cached index kept beside
    (internal/flow/boardjsonl.go) and the boot reconcile (internal/flow/lifecycle.go). */
module BoardFiles {
  import opened Basics
  import opened TaskIds
  import opened Board

  const ATTEMPTS := 8

  predicate Blankish(s: string) { forall i :: 0 <= i < |s| ==> s[i] in {' ', '\t', '\n', '\r'} }

  /** The in-process schema check. */
  predicate ValidRow(row: Row) {
    && "tsk_" <= row.id && !Blankish(row.title) && |row.title| <= 200
    && row.status in {"todo", "blocked", "in_progress", "done"} && row.priority in {"P0", "P1", "P2", "P3"}
    && row.complexity in {"S", "M", "L"} && row.sig != "" && row.inc != ""
  }

  predicate HasEvent(events: seq<EventLine>, taskId: string, kind: Kind) {
    exists i :: 0 <= i < |events| && events[i].Event? && events[i].taskId == taskId && events[i].kind == kind
  }

  /** The number is a 64-bit one. */
  function NextId(max: nat): nat { if max >= MAX_U64 then 0 else max + 1 }

  function EventAppended(events: seq<EventLine>, max: nat, taskId: string, kind: Kind, r: Reply): seq<EventLine> {
    if r.Landed() then events + [Event(NextId(max), taskId, kind)] else events
  }

  function RowIndexed(ix: Index, row: Row): Index {
    ix.(bySig := ix.bySig[row.sig := row.id], rows := ix.rows[row.id := row], rowCount := ix.rowCount + 1)
  }

  // ---- the cache against a reload ----

  /** The cached index says what a reload would, and its maximum suffix is at least as
      far along (an id may be allocated and not yet written). */
  predicate Agrees(ix: Index, tasks: seq<Line>, events: seq<EventLine>) {
    var built := Reloaded(tasks, events);
    ix == built.(maxUlid := ix.maxUlid) && !Less(ix.maxUlid, built.maxUlid)
  }

  /** After a row is written the incremental index is the one a reload of the longer file
      builds; its maximum stays ahead exactly when it was not behind the row's own suffix,
      which the allocation sees to. */
  lemma RowWriteAgrees(ix: Index, tasks: seq<Line>, events: seq<EventLine>, row: Row)
    requires Agrees(ix, tasks, events) && ValidRow(row)
    ensures var t := RowIndexed(ix, row);
      && t == Reloaded(tasks + [Task(row)], events).(maxUlid := t.maxUlid)
      && (Agrees(t, tasks + [Task(row)], events) <==> !Less(ix.maxUlid, UlidSuffix(row.id)))
  {
    IndexAppend(tasks, Task(row));
    assert row.id != "";
    var top := Reloaded(tasks, events).maxUlid;
    if Less(ix.maxUlid, UlidSuffix(row.id)) { LessChain(top, ix.maxUlid, UlidSuffix(row.id)); }
  }

  predicate Rising(events: seq<EventLine>) {
    forall i, j :: 0 <= i < j < |events| && events[i].Event? && events[j].Event? ==> events[i].id < events[j].id
  }

  lemma {:induction false} AllBelowMax(events: seq<EventLine>, i: nat)
    requires i < |events| && events[i].Event?
    ensures events[i].id <= MaxEvent(events)
  {
    if i < |events| - 1 {
      assert events[..|events| - 1][i] == events[i];
      AllBelowMax(events[..|events| - 1], i);
    }
  }

  /** An event written on a board whose cached maximum is true gets an id above all others,
      and the cache stays true exactly when the append did not fail after its bytes landed:
      then the counter is taken back although the id is in the file. */
  lemma EventIdsRise(events: seq<EventLine>, taskId: string, kind: Kind, r: Reply)
    requires Rising(events) && MaxEvent(events) < MAX_U64
    ensures var max := MaxEvent(events); var t := EventAppended(events, max, taskId, kind, r);
      && Rising(t)
      && (MaxEvent(t) == (if r.Ok() then NextId(max) else max) <==> !r.FailedLanded?)
  {
    var max := MaxEvent(events);
    forall i | 0 <= i < |events| && events[i].Event? ensures events[i].id <= max { AllBelowMax(events, i); }
    MaxEventAppend(events, Event(NextId(max), taskId, kind));
  }

  /** At the end of its 64 bits the counter starts over, and the ids rise no more. */
  lemma ExhaustedCounterStartsOver(events: seq<EventLine>, i: nat, taskId: string, kind: Kind)
    requires i < |events| && events[i].Event? && events[i].id == MAX_U64 && MaxEvent(events) == MAX_U64
    ensures var t := EventAppended(events, MaxEvent(events), taskId, kind, Done); t[|events|].id == 0 && !Rising(t)
  {
    var t := EventAppended(events, MaxEvent(events), taskId, kind, Done);
    assert t[i] == events[i] && t[|events|].Event?;
  }

  /** So an append whose fsync fails gives the next event the same id. */
  lemma FailedSyncRepeatsTheId(events: seq<EventLine>, a: string, b: string, kind: Kind)
    requires MaxEvent(events) < MAX_U64
    ensures var max := MaxEvent(events);
      var t := EventAppended(EventAppended(events, max, a, kind, FailedLanded), max, b, kind, Done);
      |t| == |events| + 2 && t[|events|].id == t[|events| + 1].id && !Rising(t)
  {
    var max := MaxEvent(events);
    var t := EventAppended(EventAppended(events, max, a, kind, FailedLanded), max, b, kind, Done);
    assert t[|events|].Event? && t[|events| + 1].Event?;
  }

  // ---- the object ----

  class BoardIndex {
    var tasks: seq<Line>
    var events: seq<EventLine>
    var maxUlid: string
    var maxEvent: nat
    var bySig: map<string, string>
    var rows: map<string, Row>
    var rowCount: nat
    var bad: nat

    function View(): Index
      reads this
    {
      Index(maxUlid, maxEvent, bySig, rows, rowCount, bad)
    }

    predicate Synced()
      reads this
    {
      Agrees(View(), tasks, events) && '_' !in maxUlid
    }

    /** The files as some writers left them, not yet indexed. */
    constructor (tasks: seq<Line>, events: seq<EventLine>)
      ensures this.tasks == tasks && this.events == events
    {
      this.tasks, this.events := tasks, events;
      maxUlid, maxEvent, bySig, rows, rowCount, bad := "", 0, map[], map[], 0, 0;
    }

    /** One streaming pass over both files. */
    method Reload()
      modifies this
      ensures tasks == old(tasks) && events == old(events)
      ensures View() == Reloaded(tasks, events) && Synced() && Bounded(rows, maxUlid)
    {
      maxUlid, maxEvent, bySig, rows, rowCount, bad := "", 0, map[], map[], 0, 0;
      var i := 0;
      while i < |tasks|
        invariant i <= |tasks| && tasks == old(tasks) && events == old(events)
        invariant View() == IndexTasks(tasks[..i]) && maxEvent == 0
      {
        assert tasks[..i + 1] == tasks[..i] + [tasks[i]];
        IndexAppend(tasks[..i], tasks[i]);
        match tasks[i] {
          case Blank =>
          case Unparsable => bad := bad + 1;
          case Task(row) =>
            rowCount := rowCount + 1;
            if row.sig != "" { bySig := bySig[row.sig := row.id]; }
            if row.id != "" {
              rows := rows[row.id := row];
              var suf := UlidSuffix(row.id);
              if Less(maxUlid, suf) { maxUlid := suf; }
            }
        }
        i := i + 1;
      }
      assert tasks[..i] == tasks;
      ReloadFindsTheMax(tasks);
      LessTotal(maxUlid, maxUlid);
      ReloadEvents();
    }

    method ReloadEvents()
      requires maxEvent == 0
      modifies this`maxEvent
      ensures maxEvent == MaxEvent(events)
    {
      var i := 0;
      while i < |events|
        invariant i <= |events| && maxEvent == MaxEvent(events[..i])
      {
        assert events[..i + 1] == events[..i] + [events[i]];
        MaxEventAppend(events[..i], events[i]);
        if events[i].Event? && events[i].id > maxEvent { maxEvent := events[i].id; }
        i := i + 1;
      }
      assert events[..i] == events;
    }

    /** `mints` are the suffixes minted for the attempts. */
    method AllocTaskId(prefix: string, mints: seq<string>) returns (id: string)
      requires |mints| == ATTEMPTS
      modifies this`maxUlid
      ensures (id, maxUlid) == Alloc(prefix, old(maxUlid), rows, mints)
    {
      var attempt := 0;
      while attempt < ATTEMPTS
        invariant attempt <= ATTEMPTS
        invariant Alloc(prefix, old(maxUlid), rows, mints) == Alloc(prefix, maxUlid, rows, mints[attempt..])
      {
        assert mints[attempt..][0] == mints[attempt] && mints[attempt..][1..] == mints[attempt + 1..];
        var suf := mints[attempt];
        if maxUlid != "" && !Less(maxUlid, suf) { suf := BumpUlid(maxUlid); }
        id := prefix + suf;
        if id !in rows {
          maxUlid := suf;
          return;
        }
        maxUlid := BumpUlid(maxUlid);
        attempt := attempt + 1;
      }
      var last := BumpUlid(maxUlid);
      id := prefix + last;
    }

    method Holds(taskId: string, kind: Kind) returns (found: bool)
      ensures found == HasEvent(events, taskId, kind)
    {
      var i := 0;
      while i < |events|
        invariant i <= |events|
        invariant forall j :: 0 <= j < i ==> !(events[j].Event? && events[j].taskId == taskId && events[j].kind == kind)
      {
        if events[i].Event? && events[i].taskId == taskId && events[i].kind == kind { return true; }
        i := i + 1;
      }
      found := false;
    }

    method WriteEvent(taskId: string, kind: Kind, r: Reply) returns (id: nat, ok: bool)
      modifies this`maxEvent, this`events
      ensures events == EventAppended(old(events), old(maxEvent), taskId, kind, r) && ok == r.Ok()
      ensures maxEvent == if ok then NextId(old(maxEvent)) else old(maxEvent)
      ensures ok ==> id == maxEvent && HasEvent(events, taskId, kind)
    {
      var was := maxEvent;
      maxEvent := NextId(maxEvent);
      id := maxEvent;
      if r.Landed() { events := events + [Event(maxEvent, taskId, kind)]; }
      ok := r.Ok();
      if !ok { id, maxEvent := 0, was; }
      else { assert events[|events| - 1].Event?; }
    }

    /** An event is written once for a task and kind. */
    method AppendEvent(taskId: string, kind: Kind, r: Reply) returns (id: nat, ok: bool)
      modifies this`maxEvent, this`events
      ensures old(HasEvent(events, taskId, kind)) ==> events == old(events) && maxEvent == old(maxEvent) && ok && id == maxEvent
      ensures !old(HasEvent(events, taskId, kind)) ==>
        events == EventAppended(old(events), old(maxEvent), taskId, kind, r) && ok == r.Ok()
        && maxEvent == if ok then NextId(old(maxEvent)) else old(maxEvent)
      ensures ok ==> HasEvent(events, taskId, kind)
    {
      var held := Holds(taskId, kind);
      if held { return maxEvent, true; }
      id, ok := WriteEvent(taskId, kind, r);
    }

    method IndexRow(row: Row)
      modifies this`bySig, this`rows, this`rowCount
      ensures View() == RowIndexed(old(View()), row)
    {
      bySig := bySig[row.sig := row.id];
      rows := rows[row.id := row];
      rowCount := rowCount + 1;
    }

    /** The two-file write: the row first, its event second, nothing on a board that is not
        strict or for a row that is not valid. */
    method WriteRow(row: Row, kind: Kind, first: Reply, second: Reply) returns (wrote: bool)
      modifies this
      ensures old(bad) > 0 || !ValidRow(row) ==> !wrote && View() == old(View()) && tasks == old(tasks) && events == old(events)
      ensures old(bad) == 0 && ValidRow(row) ==> tasks == if first.Landed() then old(tasks) + [Task(row)] else old(tasks)
      ensures old(bad) == 0 && ValidRow(row) && first.Ok() ==>
        View() == RowIndexed(old(View()), row).(maxEvent := maxEvent)
      ensures !first.Ok() ==> !wrote && View() == old(View()) && events == old(events)
      ensures old(bad) == 0 && ValidRow(row) && first.Ok() ==>
        && (wrote <==> old(HasEvent(events, row.id, kind)) || second.Ok())
        && events == (if old(HasEvent(events, row.id, kind)) then old(events)
                      else EventAppended(old(events), old(maxEvent), row.id, kind, second))
      ensures wrote ==> HasEvent(events, row.id, kind) && row.id in rows && row.sig in bySig && bySig[row.sig] == row.id
      ensures (old(Synced()) && old(maxEvent) < MAX_U64 && !first.FailedLanded? && !second.FailedLanded?
               && !Less(old(maxUlid), UlidSuffix(row.id))) ==> Synced()
    {
      if bad > 0 { return false; }
      if !ValidRow(row) { return false; }
      if first.Landed() { tasks := tasks + [Task(row)]; }
      if !first.Ok() { return false; }
      if old(Synced()) { RowWriteAgrees(old(View()), old(tasks), events, row); }
      IndexRow(row);
      MaxEventAppend(events, Event(NextId(maxEvent), row.id, kind));
      var id;
      id, wrote := AppendEvent(row.id, kind, second);
    }
  }

  /** An allocation on an index that agrees with the files, and can go ahead, leaves one
      that agrees and an id no row has. */
  lemma AllocKeepsBound(ix: Index, tasks: seq<Line>, events: seq<EventLine>, prefix: string, mints: seq<string>)
    requires Bounded(ix.rows, ix.maxUlid) && '_' !in ix.maxUlid && mints != [] && '_' !in mints[0]
    requires prefix != [] && prefix[|prefix| - 1] == '_' && (Less(ix.maxUlid, mints[0]) || Bumpable(ix.maxUlid))
    ensures var (id, next) := Alloc(prefix, ix.maxUlid, ix.rows, mints);
      && id !in ix.rows && '_' !in next && Bounded(ix.rows, next)
      && (Agrees(ix, tasks, events) ==> Agrees(ix.(maxUlid := next), tasks, events))
  {
    AllocIsGreatest(prefix, ix.maxUlid, ix.rows, mints);
    var next := Alloc(prefix, ix.maxUlid, ix.rows, mints).1;
    forall r | r in ix.rows ensures !Less(next, UlidSuffix(r)) { LessTotal(UlidSuffix(r), next); }
    var top := Reloaded(tasks, events).maxUlid;
    if Less(next, top) {
      LessTotal(ix.maxUlid, next);
      LessChain(ix.maxUlid, next, top);
    }
  }

  // ---- reconcile ----

  predicate Complete(rows: map<string, Row>, events: seq<EventLine>) {
    forall id :: id in rows ==> HasEvent(events, id, TaskCreated)
  }

  /** What the boot pass added: created events, of rows that had none, one each. */
  predicate Repairs(rows: map<string, Row>, before: seq<EventLine>, after: seq<EventLine>) {
    && |before| <= |after| && after[..|before|] == before
    && (forall i :: |before| <= i < |after| ==>
          after[i].Event? && after[i].kind == TaskCreated && after[i].taskId in rows
          && !HasEvent(after[..i], after[i].taskId, TaskCreated))
  }

  /** Re-append the missing creation events of one board. */
  method ReconcileBoard(ix: BoardIndex, replies: string -> Reply) returns (failed: set<string>)
    modifies ix
    ensures ix.rows == old(ix.rows) && ix.tasks == old(ix.tasks) && ix.bad == old(ix.bad)
    ensures Repairs(ix.rows, old(ix.events), ix.events)
    ensures ix.bad > 0 ==> ix.events == old(ix.events) && failed == {}
    ensures ix.bad == 0 ==> forall id :: id in ix.rows && id !in failed ==> HasEvent(ix.events, id, TaskCreated)
    ensures forall id :: id in failed ==> id in ix.rows && !replies(id).Ok()
    ensures old(Complete(ix.rows, ix.events)) ==> ix.events == old(ix.events) && failed == {}
  {
    failed := {};
    if ix.bad > 0 { return; }
    var left := ix.rows.Keys;
    while left != {}
      invariant left <= ix.rows.Keys && ix.rows == old(ix.rows) && ix.tasks == old(ix.tasks) && ix.bad == old(ix.bad)
      invariant Repairs(ix.rows, old(ix.events), ix.events)
      invariant forall id :: id in ix.rows && id !in left && id !in failed ==> HasEvent(ix.events, id, TaskCreated)
      invariant forall id :: id in failed ==> id in ix.rows && !replies(id).Ok()
      invariant old(Complete(ix.rows, ix.events)) ==> ix.events == old(ix.events) && failed == {}
      decreases |left|
    {
      var id :| id in left;
      left := left - {id};
      ghost var before := ix.events;
      var n, ok := ix.AppendEvent(id, TaskCreated, replies(id));
      if !ok { failed := failed + {id}; }
      forall other | HasEvent(before, other, TaskCreated) ensures HasEvent(ix.events, other, TaskCreated) {
        var i :| 0 <= i < |before| && before[i].Event? && before[i].taskId == other && before[i].kind == TaskCreated;
        assert ix.events[i] == before[i];
      }
      if ix.events != before { assert ix.events[..|before|] == before; RepairsExtend(ix.rows, old(ix.events), before, ix.events); }
    }
  }

  lemma RepairsExtend(rows: map<string, Row>, before: seq<EventLine>, mid: seq<EventLine>, after: seq<EventLine>)
    requires Repairs(rows, before, mid) && |after| == |mid| + 1 && after[..|mid|] == mid
    requires after[|mid|].Event? && after[|mid|].kind == TaskCreated && after[|mid|].taskId in rows
    requires !HasEvent(mid, after[|mid|].taskId, TaskCreated)
    ensures Repairs(rows, before, after)
  {
    assert after[..|before|] == mid[..|before|];
    forall i | |before| <= i < |after|
      ensures after[i].Event? && after[i].kind == TaskCreated && after[i].taskId in rows
              && !HasEvent(after[..i], after[i].taskId, TaskCreated)
    {
      if i < |mid| { assert after[i] == mid[i] && after[..i] == mid[..i]; }
    }
  }

  /** The boot pass over every indexed board. When its appends succeed each row of a strict
      board has its creation event, and a second pass, finding them complete, appends
      nothing. */
  method Reconcile(boards: seq<BoardIndex>, replies: string -> Reply)
    requires forall i, j :: 0 <= i < j < |boards| ==> boards[i] != boards[j]
    modifies set b | b in boards
    ensures forall b :: b in boards ==> b.rows == old(b.rows) && b.bad == old(b.bad) && Repairs(b.rows, old(b.events), b.events)
    ensures (forall id :: replies(id).Ok()) ==> forall b :: b in boards && b.bad == 0 ==> Complete(b.rows, b.events)
    ensures forall b :: b in boards && old(Complete(b.rows, b.events)) ==> b.events == old(b.events)
  {
    var i := 0;
    while i < |boards|
      invariant i <= |boards|
      invariant forall j :: i <= j < |boards| ==>
        boards[j].rows == old(boards[j].rows) && boards[j].bad == old(boards[j].bad) && boards[j].events == old(boards[j].events)
      invariant forall j :: 0 <= j < i ==>
        boards[j].rows == old(boards[j].rows) && boards[j].bad == old(boards[j].bad)
        && Repairs(boards[j].rows, old(boards[j].events), boards[j].events)
      invariant (forall id :: replies(id).Ok()) ==> forall j :: 0 <= j < i && boards[j].bad == 0 ==> Complete(boards[j].rows, boards[j].events)
      invariant forall j :: 0 <= j < i && old(Complete(boards[j].rows, boards[j].events)) ==> boards[j].events == old(boards[j].events)
    {
      var failed := ReconcileBoard(boards[i], replies);
      i := i + 1;
    }
  }
}
