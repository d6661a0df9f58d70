/** The archiver's operations over one marker file, ledger directory and target
    (internal/hub/archive.go): planning, exporting, the retention gate, marking a drop. */
module ArchiveTier {
  import opened Basics
  import opened Markers
  import opened Archive

  // ---- planning ----

  /** The plans of the generations no export is recorded for, in directory order. */
  function Planned(cfg: Config, s: Shelf, gens: seq<Name>): seq<Plan>
    requires forall g :: g in gens ==> g in s.files
  {
    if gens == [] then []
    else
      var g := gens[|gens| - 1];
      Planned(cfg, s, gens[..|gens| - 1])
      + if Accounted(s.lines, Id(cfg.tools.sha(s.files[g]))) then [] else [PlanFor(cfg, g, s.files[g])]
  }

  lemma {:induction false} PlannedExactly(cfg: Config, s: Shelf, gens: seq<Name>, p: Plan)
    requires forall g :: g in gens ==> g in s.files
    ensures p in Planned(cfg, s, gens) <==>
      p.file in gens && p == PlanFor(cfg, p.file, s.files[p.file]) && !Accounted(s.lines, p.id)
  {
    if gens != [] {
      var front, g := gens[..|gens| - 1], gens[|gens| - 1];
      assert gens == front + [g];
      PlannedExactly(cfg, s, front, p);
    }
  }

  /** What an export attempt leaves to be planned again: exactly the attempts whose line was
      lost, those that failed before the read-back, and those whose transition an older
      line already holds. One that fails at the read-back stays `exported` and is not
      retried, so it licenses nothing. */
  lemma RetriedExactly(cfg: Config, s: Shelf, f: Name, c: Chance)
    requires f in s.files
    requires var p := PlanFor(cfg, f, s.files[f]); p in Planned(cfg, s, [f])
    ensures var p := PlanFor(cfg, f, s.files[f]); var t := Archived(cfg, s, p, c).0;
      t.files == s.files && (p in Planned(cfg, t, [f]) <==> !c.line.Landed() || FailsEarly(cfg, c) || Repeats(cfg, s, p, c))
  {
    var p := PlanFor(cfg, f, s.files[f]);
    var t := Archived(cfg, s, p, c).0;
    ExportShape(cfg, s, p, c);
    PlannedExactly(cfg, s, [f], p);
    PlannedExactly(cfg, t, [f], p);
    if Traced(cfg, s, p, c) {
      LineStage(cfg, s, p, c);
      StageAppend(s.lines, t.lines[|s.lines|], p.id);
    }
  }

  /** The line an attempt leaves: `failed` before the read-back, else `exported` or
      `verified`. */
  lemma LineStage(cfg: Config, s: Shelf, p: Plan, c: Chance)
    requires p.file in s.files && p == PlanFor(cfg, p.file, s.files[p.file]) && Traced(cfg, s, p, c)
    ensures var t := Archived(cfg, s, p, c).0;
      |t.lines| == |s.lines| + 1 && (if FailsEarly(cfg, c) then t.lines[|s.lines|].stage.Failed?
                                     else t.lines[|s.lines|].stage in {Exported, Verified})
  {
  }

  /** Two generations of one content are both planned, export and fail under one id, and
      are planned again after the first was verified; a re-export that then stores
      something else and loses its line leaves the first licensed and not restorable. */
  lemma TwinsBreakTheLicence(cfg: Config, a: Bytes, b: Bytes)
    requires Sound(cfg) && cfg.verify && a != b
    ensures var first, second := PlanFor(cfg, 0, a), PlanFor(cfg, 1, a);
      var bad := Chance(true, Some(Packed(cfg, b)), true, true, true, Reply.FailedClean);
      var run := [Write(0, a)] + [Write(1, a)];
      var more := run + [Export(first, Smooth(cfg, a))] + [Export(second, Smooth(cfg, a).(stored := None, putOk := false))];
      var full := more + [Export(first, bad)];
      && Possible(cfg, full)
      && After(cfg, run).files == map[0 := a, 1 := a] && Planned(cfg, After(cfg, run), [0, 1]) == [first, second]
      && After(cfg, more).files == map[0 := a, 1 := a] && first in Planned(cfg, After(cfg, more), [0, 1])
      && Licensed(After(cfg, full).lines, 0) && !Restores(cfg, After(cfg, full), 0, a)
  {
    var id, sha := Id(cfg.tools.sha(a)), cfg.tools.sha(a);
    var first, second := PlanFor(cfg, 0, a), PlanFor(cfg, 1, a);
    var ok := Marker(id, 0, sha, |Packed(cfg, a)|, Verified);
    var bad := Marker(id, 1, sha, |Packed(cfg, a)|, Failed);
    var files := map[0 := a, 1 := a];
    var run := [Write(0, a)] + [Write(1, a)];
    assert [] + [Write(0, a)] == [Write(0, a)];
    RunStep(cfg, [], Write(0, a));
    RunStep(cfg, [Write(0, a)], Write(1, a));
    var s0, s1, s2 := Shelf(files, [], map[]), Shelf(files, [ok], map[0 := Packed(cfg, a)]), Shelf(files, [ok, bad], map[0 := Packed(cfg, a)]);
    var e1, e2 := Export(first, Smooth(cfg, a)), Export(second, Smooth(cfg, a).(stored := None, putOk := false));
    assert After(cfg, run) == s0;
    FirstExport(cfg, a, s0, s1);
    RunStep(cfg, run, e1);
    SecondFails(cfg, a, s1, s2);
    RunStep(cfg, run + [e1], e2);
    var e3 := Export(first, Chance(true, Some(Packed(cfg, b)), true, true, true, Reply.FailedClean));
    ThirdIsLost(cfg, a, b, s2);
    RunStep(cfg, run + [e1] + [e2], e3);
    StageAppend([ok], bad, id);
    assert [ok] + [bad] == [ok, bad];
    TwinsArePlanned(cfg, a, s0);
    PlannedExactly(cfg, s2, [0, 1], first);
  }

  lemma TwinsArePlanned(cfg: Config, a: Bytes, s: Shelf)
    requires s == Shelf(map[0 := a, 1 := a], [], map[])
    ensures Planned(cfg, s, [0, 1]) == [PlanFor(cfg, 0, a), PlanFor(cfg, 1, a)]
  {
    assert [0, 1][..1] == [0] && [0][..0] == [];
    assert Planned(cfg, s, [0]) == [PlanFor(cfg, 0, a)];
  }

  lemma FirstExport(cfg: Config, a: Bytes, s: Shelf, t: Shelf)
    requires Sound(cfg) && cfg.verify && s == Shelf(map[0 := a, 1 := a], [], map[])
    requires t == Shelf(s.files, [Marker(Id(cfg.tools.sha(a)), 0, cfg.tools.sha(a), |Packed(cfg, a)|, Verified)], map[0 := Packed(cfg, a)])
    ensures Archived(cfg, s, PlanFor(cfg, 0, a), Smooth(cfg, a)).0 == t
  {
    assert t.lines == [] + [t.lines[0]];
  }

  lemma SecondFails(cfg: Config, a: Bytes, s: Shelf, t: Shelf)
    requires s.files == map[0 := a, 1 := a] && |s.lines| == 1
    requires t == s.(lines := [s.lines[0], Marker(Id(cfg.tools.sha(a)), 1, cfg.tools.sha(a), |Packed(cfg, a)|, Failed)])
    ensures Archived(cfg, s, PlanFor(cfg, 1, a), Smooth(cfg, a).(stored := None, putOk := false)).0 == t
  {
    assert t.lines == s.lines + [t.lines[1]];
  }

  lemma ThirdIsLost(cfg: Config, a: Bytes, b: Bytes, s: Shelf)
    requires Sound(cfg) && cfg.verify && a != b && s.files == map[0 := a, 1 := a]
    requires |s.lines| == 2 && s.lines[0].file == 0 && s.lines[0].stage.Verified? && s.lines[1].file == 1
    ensures var t := Archived(cfg, s, PlanFor(cfg, 0, a), Chance(true, Some(Packed(cfg, b)), true, true, true, Reply.FailedClean)).0;
      t.lines == s.lines && Licensed(t.lines, 0) && !Restores(cfg, t, 0, a)
  {
    assert s.lines[..1] == [s.lines[0]];
  }

  // ---- retention ----

  function NewerThan(gens: seq<Name>, f: Name): set<Name> { set g | g in gens && g > f }

  /** Fewer than `keep` generations are newer. */
  predicate Retained(gens: seq<Name>, keep: nat, f: Name) { |NewerThan(gens, f)| < keep }

  function DropList(lines: seq<Marker>, gens: seq<Name>, all: seq<Name>, keep: nat): seq<Name> {
    if gens == [] then []
    else
      var g := gens[|gens| - 1];
      DropList(lines, gens[..|gens| - 1], all, keep)
      + if !Retained(all, keep, g) && Licensed(lines, g) then [g] else []
  }

  /** An export was attempted and is not to be trusted. */
  predicate Deferred(lines: seq<Marker>, f: Name) {
    var mk := LatestOf(lines, f);
    mk.Some? && !mk.value.stage.Dropped? && !mk.value.stage.Verified?
  }

  /** The gate's list is exactly the generations outside the `keep` newest whose latest
      line is `verified`. */
  lemma {:induction false} DropListExactly(lines: seq<Marker>, gens: seq<Name>, all: seq<Name>, keep: nat, f: Name)
    ensures f in DropList(lines, gens, all, keep) <==> f in gens && !Retained(all, keep, f) && Licensed(lines, f)
  {
    if gens != [] {
      assert gens == gens[..|gens| - 1] + [gens[|gens| - 1]];
      DropListExactly(lines, gens[..|gens| - 1], all, keep, f);
    }
  }

  function Elements(s: seq<Name>): set<Name> { set g | g in s }

  predicate Down(s: seq<Name>) { forall i, j :: 0 <= i < j < |s| ==> s[i] > s[j] }

  predicate Unique(s: seq<Name>) { forall i, j :: 0 <= i < j < |s| ==> s[i] != s[j] }

  function Insert(s: seq<Name>, f: Name): seq<Name> {
    if s == [] || f > s[0] then [f] + s else [s[0]] + Insert(s[1..], f)
  }

  function SortDown(s: seq<Name>): seq<Name> { if s == [] then [] else Insert(SortDown(s[1..]), s[0]) }

  lemma {:induction false} InsertDown(s: seq<Name>, f: Name)
    requires Down(s) && f !in s
    ensures Down(Insert(s, f)) && forall g :: g in Insert(s, f) <==> g in s || g == f
  {
    if s != [] && f < s[0] {
      InsertDown(s[1..], f);
      var rest := Insert(s[1..], f);
      forall i | 0 <= i < |rest| ensures rest[i] < s[0] { assert rest[i] in rest; }
      assert s == [s[0]] + s[1..];
    }
  }

  lemma {:induction false} SortedDown(s: seq<Name>)
    requires Unique(s)
    ensures Down(SortDown(s)) && forall g :: g in SortDown(s) <==> g in s
  {
    if s != [] {
      SortedDown(s[1..]);
      InsertDown(SortDown(s[1..]), s[0]);
      assert s == [s[0]] + s[1..];
    }
  }

  lemma {:induction false} FirstHave(s: seq<Name>, i: nat)
    requires Down(s) && i <= |s|
    ensures |Elements(s[..i])| == i
  {
    if i > 0 {
      FirstHave(s, i - 1);
      var front, last := s[..i - 1], s[i - 1];
      forall k | 0 <= k < |front| ensures front[k] != last { assert s[k] > last; }
      assert s[..i] == front + [last];
      OneMore(front, last);
    }
  }

  lemma OneMore(s: seq<Name>, f: Name)
    requires f !in s
    ensures |Elements(s + [f])| == |Elements(s)| + 1
  {
    assert Elements(s + [f]) == Elements(s) + {f};
  }

  /** The first `keep` of the names in descending order are the retained ones. */
  lemma FirstAreRetained(gens: seq<Name>, keep: nat, f: Name)
    requires Unique(gens) && f in gens
    ensures var s := SortDown(gens); Retained(gens, keep, f) <==> f in s[..Min(keep, |s|)]
  {
    var s := SortDown(gens);
    SortedDown(gens);
    var i :| 0 <= i < |s| && s[i] == f;
    FirstHave(s, i);
    assert NewerThan(gens, f) == Elements(s[..i]);
    if f in s[..Min(keep, |s|)] {
      var j :| 0 <= j < Min(keep, |s|) && s[j] == f;
      assert j == i;
    } else if i < keep {
      assert false;
    }
  }

  // ---- the object ----

  class Archiver {
    const cfg: Config
    const store: MarkerStore
    var files: map<Name, Bytes>
    var target: map<Name, Bytes>

    function View(): Shelf
      reads this, store
    {
      Shelf(files, store.lines, target)
    }

    constructor (cfg: Config)
      ensures this.cfg == cfg && View() == Archive.Fresh() && fresh(store)
    {
      this.cfg := cfg;
      store := new MarkerStore();
      files, target := map[], map[];
    }

    /** Every closed generation with no export recorded, or a refusal when the live file
        is not known. */
    method PlanArchive(gens: seq<Name>, liveKnown: bool) returns (plans: seq<Plan>, refused: Option<Code>)
      requires forall g :: g in gens ==> g in files
      ensures refused == if gens != [] && !liveKnown then Some(Hub011) else None
      ensures plans == if refused.Some? then [] else Planned(cfg, View(), gens)
    {
      plans, refused := [], None;
      if |gens| > 0 && !liveKnown { return [], Some(Hub011); }
      var exported := StageMap();
      var i := 0;
      while i < |gens|
        invariant i <= |gens| && plans == Planned(cfg, View(), gens[..i])
      {
        assert gens[..i + 1][..i] == gens[..i];
        var raw := files[gens[i]];
        var id := Id(cfg.tools.sha(raw));
        if !(id in exported && exported[id] in {Exported, Verified, Dropped}) {
          plans := plans + [PlanFor(cfg, gens[i], raw)];
        }
        i := i + 1;
      }
      assert gens[..i] == gens;
    }

    /** Marker id to last stage, read off the file in one pass. */
    method StageMap() returns (exported: map<string, Stage>)
      ensures forall id :: StageOf(store.lines, id) == if id in exported then Some(exported[id]) else None
    {
      exported := map[];
      var lines := store.lines;
      var i := 0;
      while i < |lines|
        invariant i <= |lines|
        invariant forall id :: StageOf(lines[..i], id) == if id in exported then Some(exported[id]) else None
      {
        assert lines[..i + 1] == lines[..i] + [lines[i]];
        forall id ensures StageOf(lines[..i + 1], id) == if lines[i].id == id then Some(lines[i].stage) else StageOf(lines[..i], id) {
          StageAppend(lines[..i], lines[i], id);
        }
        exported := exported[lines[i].id := lines[i].stage];
        i := i + 1;
      }
      assert lines[..i] == lines;
    }

    method ArchiveOne(p: Plan, c: Chance) returns (report: Report)
      modifies this`target, store
      ensures (View(), report) == Archived(cfg, old(View()), p, c)
    {
      if p.file !in files { return Refused(Hub011); }
      var raw := files[p.file];
      var sum := cfg.tools.sha(raw);
      if |raw| != p.size || sum != p.sha { return Refused(Hub011); }
      var mk := Marker(p.id, p.file, sum, 0, Pending);
      if cfg.gzip && !c.gzipOk {
        var _ := store.Append(mk.(stage := Failed), c.line);
        return Refused(Hub012);
      }
      var out := Packed(cfg, raw);
      mk := mk.(packed := |out|);
      target := Stored(target, p.file, c.stored);
      if !c.putOk || !c.sidecarOk {
        var _ := store.Append(mk.(stage := Failed), c.line);
        return Refused(Hub010);
      }
      mk := mk.(stage := Exported);
      if cfg.verify {
        report := ReadBackAndMark(mk, c);
      } else {
        report := Mark(mk, c.line);
      }
    }

    method ReadBackAndMark(mk: Marker, c: Chance) returns (report: Report)
      requires cfg.verify && c.putOk && c.sidecarOk && mk.stage.Exported?
      modifies store
      ensures (View(), report) == Exporting(cfg, old(View()), mk, c)
    {
      if !c.getOk || mk.file !in target {
        var _ := store.Append(mk, c.line);
        return Refused(Hub010);
      }
      if !Matches(cfg, target[mk.file], mk) {
        var _ := store.Append(mk, c.line);
        return Refused(Hub012);
      }
      report := Mark(mk.(stage := Verified), c.line);
    }

    method Mark(mk: Marker, r: Reply) returns (report: Report)
      modifies store
      ensures (View(), report) == Marking(old(View()), mk, r)
    {
      var added, ok := store.AppendTransition(mk, r);
      report := if ok then Reached(mk.stage) else Refused(Hub009);
    }

    /** The generations the sweep may delete, and those whose drop is refused. */
    method Droppable(gens: seq<Name>, keep: int) returns (drops: seq<Name>, blocked: set<Name>)
      requires Unique(gens)
      ensures drops == DropList(store.lines, gens, gens, Max(keep, 0))
      ensures forall f :: f in blocked <==> f in gens && !Retained(gens, Max(keep, 0), f) && Deferred(store.lines, f)
    {
      var k := if keep < 0 then 0 else keep;
      var sorted := SortDown(gens);
      var retained := sorted[..Min(k, |sorted|)];
      drops, blocked := [], {};
      var i := 0;
      while i < |gens|
        invariant i <= |gens| && drops == DropList(store.lines, gens[..i], gens, k)
        invariant forall f :: f in blocked <==> f in gens[..i] && !Retained(gens, k, f) && Deferred(store.lines, f)
      {
        var g := gens[i];
        assert gens[..i + 1] == gens[..i] + [g];
        FirstAreRetained(gens, k, g);
        if g !in retained {
          var mk := store.Latest(g);
          if mk.Some? && !mk.value.stage.Dropped? {
            if mk.value.stage.Verified? { drops := drops + [g]; } else { blocked := blocked + {g}; }
          }
        }
        i := i + 1;
      }
      assert gens[..i] == gens;
    }

    /** The line a deleted generation leaves behind. */
    method MarkDropped(f: Name, r: Reply) returns (refused: Option<Code>)
      modifies store
      ensures View() == old(View()).(lines := DropMarked(old(store.lines), f, r))
      ensures refused == Some(Hub014) <==> !Licensed(old(store.lines), f)
    {
      var mk := store.Latest(f);
      if mk.None? || !mk.value.stage.Verified? { return Some(Hub014); }
      var added, ok := store.AppendTransition(mk.value.(stage := Dropped), r);
      refused := if ok then None else Some(Hub009);
    }
  }
}
