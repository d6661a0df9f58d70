/** The board writer (internal/flow/boardjsonl.go, lifecycle.go): two append-only files, a
    cached index over them, and the boot pass that repairs a half-made write. */
module Board {
  import opened Basics
  import opened TaskIds

  datatype Row = Row(id: string, title: string, status: string, priority: string, complexity: string, sig: string, inc: string)

  datatype Line = Blank | Unparsable | Task(row: Row)

  datatype Kind = TaskCreated | TaskComment | ReviewApprove | TaskClosed

  datatype EventLine = BadEvent | Event(id: nat, taskId: string, kind: Kind)

  /** The counts and maps kept in memory; `bad` is the number of unparsable rows, and a
      board with any is not strict. */
  datatype Index = Index(maxUlid: string, maxEvent: nat, bySig: map<string, string>, rows: map<string, Row>,
                         rowCount: nat, bad: nat)

  const MAX_U64: nat := 0xFFFF_FFFF_FFFF_FFFF

  /** What follows the last underscore. */
  function UlidSuffix(id: string): string {
    if id == [] || id[|id| - 1] == '_' then [] else UlidSuffix(id[..|id| - 1]) + [id[|id| - 1]]
  }

  // ---- the index a reload builds ----

  function Seen(ix: Index, line: Line): Index {
    match line
    case Blank => ix
    case Unparsable => ix.(bad := ix.bad + 1)
    case Task(row) =>
      var counted := ix.(rowCount := ix.rowCount + 1, bySig := if row.sig != "" then ix.bySig[row.sig := row.id] else ix.bySig);
      if row.id == "" then counted
      else counted.(rows := ix.rows[row.id := row],
                    maxUlid := if Less(ix.maxUlid, UlidSuffix(row.id)) then UlidSuffix(row.id) else ix.maxUlid)
  }

  function IndexTasks(lines: seq<Line>): Index {
    if lines == [] then Index("", 0, map[], map[], 0, 0) else Seen(IndexTasks(lines[..|lines| - 1]), lines[|lines| - 1])
  }

  function MaxEvent(events: seq<EventLine>): nat {
    if events == [] then 0
    else
      var last := events[|events| - 1];
      Max(MaxEvent(events[..|events| - 1]), if last.Event? then last.id else 0)
  }

  function Reloaded(tasks: seq<Line>, events: seq<EventLine>): Index {
    IndexTasks(tasks).(maxEvent := MaxEvent(events))
  }

  lemma IndexAppend(tasks: seq<Line>, line: Line)
    ensures IndexTasks(tasks + [line]) == Seen(IndexTasks(tasks), line)
  {
    assert (tasks + [line])[..|tasks|] == tasks;
  }

  lemma MaxEventAppend(events: seq<EventLine>, ev: EventLine)
    ensures MaxEvent(events + [ev]) == Max(MaxEvent(events), if ev.Event? then ev.id else 0)
  {
    assert (events + [ev])[..|events|] == events;
  }

  /** No row's suffix is beyond the maximum. */
  predicate Bounded(rows: map<string, Row>, max: string) { forall id :: id in rows ==> !Less(max, UlidSuffix(id)) }

  lemma {:induction false} ReloadFindsTheMax(tasks: seq<Line>)
    ensures var ix := IndexTasks(tasks); Bounded(ix.rows, ix.maxUlid) && '_' !in ix.maxUlid
  {
    if tasks != [] {
      var before := IndexTasks(tasks[..|tasks| - 1]);
      ReloadFindsTheMax(tasks[..|tasks| - 1]);
      var after := IndexTasks(tasks);
      match tasks[|tasks| - 1]
      case Task(row) =>
        SuffixIsPlain(row.id);
        LessTotal(before.maxUlid, UlidSuffix(row.id));
        LessTotal(UlidSuffix(row.id), UlidSuffix(row.id));
        forall id | id in before.rows ensures !Less(after.maxUlid, UlidSuffix(id)) {
          if Less(after.maxUlid, UlidSuffix(id)) && after.maxUlid != before.maxUlid {
            LessChain(before.maxUlid, after.maxUlid, UlidSuffix(id));
            LessTotal(before.maxUlid, after.maxUlid);
          }
        }
      case _ =>
    }
  }

  /** The `i`th line is the last valid row of the id. */
  predicate LastRow(tasks: seq<Line>, i: nat, id: string) {
    i < |tasks| && tasks[i].Task? && tasks[i].row.id == id
    && forall j :: i < j < |tasks| && tasks[j].Task? ==> tasks[j].row.id != id
  }

  /** The `i`th line is the last row of the signature. */
  predicate LastOfSig(tasks: seq<Line>, i: nat, sig: string) {
    i < |tasks| && tasks[i].Task? && tasks[i].row.sig == sig
    && forall j :: i < j < |tasks| && tasks[j].Task? ==> tasks[j].row.sig != sig
  }

  /** What a reload's index says of the file: of each id its last row, of each signature the
      id of its last row, and nothing of others. */
  lemma {:induction false} ReloadMeans(tasks: seq<Line>, key: string)
    requires key != ""
    ensures var ix := IndexTasks(tasks);
      && (key in ix.rows <==> exists i: nat :: LastRow(tasks, i, key))
      && (forall i: nat :: LastRow(tasks, i, key) ==> key in ix.rows && ix.rows[key] == tasks[i].row)
      && (key in ix.bySig <==> exists i: nat :: LastOfSig(tasks, i, key))
      && (forall i: nat :: LastOfSig(tasks, i, key) ==> key in ix.bySig && ix.bySig[key] == tasks[i].row.id)
  {
    if tasks != [] {
      var front, last, n := tasks[..|tasks| - 1], tasks[|tasks| - 1], |tasks| - 1;
      ReloadMeans(front, key);
      if last.Task? && last.row.id == key { assert LastRow(tasks, n, key); }
      else {
        assert forall i: nat :: LastRow(tasks, i, key) <==> LastRow(front, i, key) by { LastRowFront(tasks, front, n, key); }
      }
      if last.Task? && last.row.sig == key { assert LastOfSig(tasks, n, key); }
      else {
        assert forall i: nat :: LastOfSig(tasks, i, key) <==> LastOfSig(front, i, key) by { LastOfSigFront(tasks, front, n, key); }
      }
    }
  }

  lemma LastRowFront(tasks: seq<Line>, front: seq<Line>, n: nat, key: string)
    requires n == |tasks| - 1 && front == tasks[..n] && !(tasks[n].Task? && tasks[n].row.id == key)
    ensures forall i: nat :: LastRow(tasks, i, key) <==> LastRow(front, i, key)
  {
    assert forall i :: 0 <= i < n ==> front[i] == tasks[i];
  }

  lemma LastOfSigFront(tasks: seq<Line>, front: seq<Line>, n: nat, key: string)
    requires n == |tasks| - 1 && front == tasks[..n] && !(tasks[n].Task? && tasks[n].row.sig == key)
    ensures forall i: nat :: LastOfSig(tasks, i, key) <==> LastOfSig(front, i, key)
  {
    assert forall i :: 0 <= i < n ==> front[i] == tasks[i];
  }

  /** The numbers of the lines that are rows, and of those that could not be read. */
  function RowLines(tasks: seq<Line>): (r: set<nat>)
    ensures forall i: nat :: i in r <==> i < |tasks| && tasks[i].Task?
  {
    set i: nat | i < |tasks| && tasks[i].Task?
  }

  function BadLines(tasks: seq<Line>): (r: set<nat>)
    ensures forall i: nat :: i in r <==> i < |tasks| && tasks[i].Unparsable?
  {
    set i: nat | i < |tasks| && tasks[i].Unparsable?
  }

  lemma OneMoreLine(tasks: seq<Line>, front: seq<Line>, n: nat)
    requires n == |tasks| - 1 && front == tasks[..n]
    ensures n !in RowLines(front) && RowLines(tasks) == RowLines(front) + if tasks[n].Task? then {n} else {}
    ensures n !in BadLines(front) && BadLines(tasks) == BadLines(front) + if tasks[n].Unparsable? then {n} else {}
  {
    assert forall i: nat :: i < n ==> front[i] == tasks[i];
  }

  /** And it counts them. */
  lemma {:induction false} ReloadCounts(tasks: seq<Line>)
    ensures IndexTasks(tasks).rowCount == |RowLines(tasks)| && IndexTasks(tasks).bad == |BadLines(tasks)|
  {
    if tasks == [] {
      assert RowLines(tasks) == {} && BadLines(tasks) == {};
    } else {
      var front, n := tasks[..|tasks| - 1], |tasks| - 1;
      ReloadCounts(front);
      OneMoreLine(tasks, front, n);
    }
  }

  lemma {:induction false} SuffixIsPlain(id: string)
    ensures '_' !in UlidSuffix(id)
  {
    if id != [] && id[|id| - 1] != '_' { SuffixIsPlain(id[..|id| - 1]); }
  }

  lemma {:induction false} SuffixOf(prefix: string, suf: string)
    requires prefix != [] && prefix[|prefix| - 1] == '_' && '_' !in suf
    ensures UlidSuffix(prefix + suf) == suf
  {
    if suf == [] {
      assert prefix + suf == prefix;
    } else {
      SuffixOf(prefix, suf[..|suf| - 1]);
      assert (prefix + suf)[..|prefix + suf| - 1] == prefix + suf[..|suf| - 1];
    }
  }

  // ---- allocation ----

  /** The suffix tried first: the minted one, or one more than the board's maximum. */
  function Candidate(max: string, mint: string): string {
    if max != "" && !Less(max, mint) then Bumped(max) else mint
  }

  function Alloc(prefix: string, max: string, rows: map<string, Row>, mints: seq<string>): (string, string)
    decreases |mints|
  {
    if mints == [] then (prefix + Bumped(max), max)
    else
      var suf := Candidate(max, mints[0]);
      if prefix + suf !in rows then (prefix + suf, suf) else Alloc(prefix, Bumped(max), rows, mints[1..])
  }

  /** The maximum after that many collisions, and the suffix tried next. */
  function Bumps(max: string, n: nat): string
    decreases n
  { if n == 0 then max else Bumps(Bumped(max), n - 1) }

  function Try(max: string, mints: seq<string>, i: nat): string
    requires i < |mints|
  { Candidate(Bumps(max, i), mints[i]) }

  /** Whatever the rows are, the allocation takes the first of its tries that is free, and
      only when all are taken the incremented maximum, untried. */
  lemma {:induction false} AllocIsFirstFree(prefix: string, max: string, rows: map<string, Row>, mints: seq<string>) returns (i: nat)
    ensures i <= |mints| && forall j :: 0 <= j < i ==> prefix + Try(max, mints, j) in rows
    ensures var (id, next) := Alloc(prefix, max, rows, mints);
      if i < |mints| then next == Try(max, mints, i) && id == prefix + next && id !in rows
      else next == Bumps(max, |mints|) && id == prefix + Bumped(next)
    decreases |mints|
  {
    if mints == [] || prefix + Candidate(max, mints[0]) !in rows {
      i := 0;
    } else {
      var k := AllocIsFirstFree(prefix, Bumped(max), rows, mints[1..]);
      i := k + 1;
      forall j | 0 <= j < i ensures prefix + Try(max, mints, j) in rows {
        if j > 0 { assert Try(max, mints, j) == Try(Bumped(max), mints[1..], j - 1); }
      }
      if i < |mints| { assert Try(max, mints, i) == Try(Bumped(max), mints[1..], k); }
    }
  }

  lemma CandidateGrowsExactly(max: string, mint: string)
    ensures Less(max, Candidate(max, mint)) <==> Less(max, mint) || Bumpable(max)
  {
    BumpGrowsExactly(max);
  }

  lemma {:induction false} CarriedPlain(s: string)
    requires '_' !in s
    ensures Carried(s).Some? ==> '_' !in Carried(s).value
  {
    if s != [] {
      assert s == s[..|s| - 1] + [s[|s| - 1]];
      CarriedPlain(s[..|s| - 1]);
    }
  }

  /** Whenever the minted suffix is ahead of the board or the board's maximum can be
      incremented, the id allocated is greater than every id there is, at the first try:
      the collision branch is not taken. */
  lemma AllocIsGreatest(prefix: string, max: string, rows: map<string, Row>, mints: seq<string>)
    requires Bounded(rows, max) && '_' !in max && mints != [] && '_' !in mints[0]
    requires prefix != [] && prefix[|prefix| - 1] == '_'
    requires Less(max, mints[0]) || Bumpable(max)
    ensures var (id, next) := Alloc(prefix, max, rows, mints);
      && next == Candidate(max, mints[0])
      && id == prefix + next && UlidSuffix(id) == next && '_' !in next && id !in rows
      && Less(max, next) && (forall r :: r in rows ==> Less(UlidSuffix(r), next))
  {
    var suf := Candidate(max, mints[0]);
    CandidateGrowsExactly(max, mints[0]);
    CarriedPlain(max);
    SuffixOf(prefix, suf);
    forall r | r in rows ensures Less(UlidSuffix(r), suf) { LessChain(UlidSuffix(r), max, suf); }
    LessTotal(suf, suf);
  }

  /** A maximum of the alphabet that is not all Zs can be incremented. */
  lemma {:induction false} NotAllZIsBumpable(s: string)
    requires Valid(s)
    ensures Bumpable(s) <==> exists i :: 0 <= i < |s| && s[i] != 'Z'
  {
    if s != [] {
      var front := s[..|s| - 1];
      NotAllZIsBumpable(front);
      if s[|s| - 1] == 'Z' {
        if i :| 0 <= i < |s| && s[i] != 'Z' { assert front[i] != 'Z'; }
        if i :| 0 <= i < |front| && front[i] != 'Z' { assert s[i] != 'Z'; }
      }
    }
  }

  /** On a board whose maximum ends the carry in a foreign character the allocation repeats
      an existing id exactly when that maximum is a row's and no minted suffix is ahead. */
  lemma {:induction false} StuckRepeatsExactly(prefix: string, max: string, rows: map<string, Row>, mints: seq<string>)
    requires Bounded(rows, max) && max != "" && Carried(max).None?
    requires prefix != [] && prefix[|prefix| - 1] == '_' && forall i :: 0 <= i < |mints| ==> '_' !in mints[i]
    ensures var id := Alloc(prefix, max, rows, mints).0;
      id in rows <==> prefix + max in rows && forall i :: 0 <= i < |mints| ==> !Less(max, mints[i])
  {
    if mints != [] {
      if Less(max, mints[0]) {
        SuffixOf(prefix, mints[0]);
      } else {
        StuckRepeatsExactly(prefix, max, rows, mints[1..]);
        assert forall i :: 0 <= i < |mints| - 1 ==> mints[1..][i] == mints[i + 1];
      }
    }
  }

  /** Successive allocations, each with its own minted suffixes and recorded as a row. */
  function Allocs(prefix: string, max: string, rows: map<string, Row>, mints: seq<seq<string>>, row: Row): seq<string>
    decreases |mints|
  {
    if mints == [] then []
    else
      var (id, next) := Alloc(prefix, max, rows, mints[0]);
      [next] + Allocs(prefix, next, rows[id := row], mints[1..], row)
  }

  /** A number of `n` digits with room for `more` increments. */
  predicate Roomy(s: string, n: nat, more: nat) { Valid(s) && |s| == n && Value(s) + more < Pow32(n) }

  lemma {:induction false} ValidIsPlain(s: string)
    requires Valid(s)
    ensures '_' !in s
  {
    forall i | 0 <= i < |s| ensures s[i] != '_' { assert Digit(s[i]) >= 0; }
  }

  /** With room for one more the candidate is a greater number that leaves what room both
      had. */
  lemma CandidateGrows(max: string, mint: string, n: nat, more: nat)
    requires n > 0 && more > 0 && Roomy(max, n, more) && Roomy(mint, n, more)
    ensures var next := Candidate(max, mint); Roomy(next, n, more - 1) && Less(max, next)
    ensures Less(max, mint) || Bumpable(max)
  {
    BumpIsNext(max);
    OrderIsValue(max, Bumped(max));
    BumpGrowsExactly(max);
  }

  /** On a board whose maximum has n digits, with minted suffixes of n digits and room for
      the run, successive allocations strictly increase, each taken at its first try. */
  lemma {:induction false} AllocationsIncrease(prefix: string, max: string, rows: map<string, Row>, mints: seq<seq<string>>, row: Row, n: nat)
    requires prefix != [] && prefix[|prefix| - 1] == '_' && n > 0
    requires Bounded(rows, max) && Roomy(max, n, |mints|)
    requires forall i :: 0 <= i < |mints| ==> mints[i] != [] && Roomy(mints[i][0], n, |mints| - i)
    ensures var sufs := Allocs(prefix, max, rows, mints, row);
      && |sufs| == |mints|
      && FirstTries(max, sufs, mints) && Rises(max, sufs)
    decreases |mints|
  {
    if mints != [] {
      var (id, next) := Alloc(prefix, max, rows, mints[0]);
      OneAllocation(prefix, max, rows, mints[0], row, n, |mints|);
      assert forall i :: 0 <= i < |mints| - 1 ==> mints[1..][i] == mints[i + 1];
      AllocationsIncrease(prefix, next, rows[id := row], mints[1..], row, n);
      var rest := Allocs(prefix, next, rows[id := row], mints[1..], row);
      RisesOn(max, next, rest);
      FirstTriesOn(max, next, rest, mints);
    }
  }

  /** Each suffix is the candidate of its first minted one. */
  predicate FirstTries(max: string, sufs: seq<string>, mints: seq<seq<string>>)
    requires |sufs| == |mints| && forall i :: 0 <= i < |mints| ==> mints[i] != []
  {
    forall i :: 0 <= i < |sufs| ==> sufs[i] == Candidate(([max] + sufs)[i], mints[i][0])
  }

  predicate Rises(max: string, sufs: seq<string>) {
    forall i, j :: 0 <= i < j <= |sufs| ==> Less(([max] + sufs)[i], ([max] + sufs)[j])
  }

  lemma RisesOn(max: string, next: string, rest: seq<string>)
    requires Less(max, next) && Rises(next, rest)
    ensures Rises(max, [next] + rest)
  {
    var all := [max] + ([next] + rest);
    assert all[1..] == [next] + rest;
    forall i, j | 0 <= i < j < |all| ensures Less(all[i], all[j]) {
      assert all[j] == ([next] + rest)[j - 1];
      if i > 0 {
        assert all[i] == ([next] + rest)[i - 1];
      } else if j > 1 {
        assert Less(([next] + rest)[0], ([next] + rest)[j - 1]);
        LessTotal(max, next);
        LessChain(max, next, all[j]);
      }
    }
  }

  lemma FirstTriesOn(max: string, next: string, rest: seq<string>, mints: seq<seq<string>>)
    requires |rest| + 1 == |mints| && forall i :: 0 <= i < |mints| ==> mints[i] != []
    requires next == Candidate(max, mints[0][0]) && FirstTries(next, rest, mints[1..])
    ensures FirstTries(max, [next] + rest, mints)
  {
    var sufs := [next] + rest;
    forall i | 0 <= i < |sufs| ensures sufs[i] == Candidate(([max] + sufs)[i], mints[i][0]) {
      if i > 0 { assert sufs[i] == rest[i - 1] && mints[i] == mints[1..][i - 1] && ([max] + sufs)[i] == sufs[i - 1]; }
    }
  }

  lemma OneAllocation(prefix: string, max: string, rows: map<string, Row>, mints: seq<string>, row: Row, n: nat, more: nat)
    requires prefix != [] && prefix[|prefix| - 1] == '_' && n > 0 && more > 0 && mints != []
    requires Bounded(rows, max) && Roomy(max, n, more) && Roomy(mints[0], n, more)
    ensures var (id, next) := Alloc(prefix, max, rows, mints);
      && next == Candidate(max, mints[0]) && Less(max, next) && id !in rows
      && Roomy(next, n, more - 1) && Bounded(rows[id := row], next)
  {
    CandidateGrows(max, mints[0], n, more);
    ValidIsPlain(max);
    ValidIsPlain(mints[0]);
    AllocIsGreatest(prefix, max, rows, mints);
    var (id, next) := Alloc(prefix, max, rows, mints);
    LessTotal(next, next);
    forall r | r in rows[id := row] ensures !Less(next, UlidSuffix(r)) { LessTotal(UlidSuffix(r), next); }
  }
}
