/** The archive tier (internal/hub/archive.go): a generation is exported, read back,
    marked, and only then may the retention sweep delete it. The archive target is a map
    from generation to stored object; gzip and sha256 are outside functions. */
module Archive {
  import opened Basics
  import opened Markers

  datatype Tools = Tools(pack: Bytes -> Bytes, unpack: Bytes -> Option<Bytes>, sha: Bytes -> string)

  datatype Config = Config(tools: Tools, gzip: bool, verify: bool)

  /** Unpacking undoes packing, and no two contents met here share a digest. */
  ghost predicate Sound(cfg: Config) {
    && (forall b :: cfg.tools.unpack(cfg.tools.pack(b)) == Some(b))
    && (forall a, b :: cfg.tools.sha(a) == cfg.tools.sha(b) ==> a == b)
  }

  function Id(sha: string): string { if |sha| > 16 then sha[..16] else sha }

  function Packed(cfg: Config, raw: Bytes): Bytes { if cfg.gzip then cfg.tools.pack(raw) else raw }

  /** What the read-back compares; an object that does not unpack counts as empty. */
  function Unpacked(cfg: Config, back: Bytes): Bytes {
    if !cfg.gzip then back else match cfg.tools.unpack(back) case None => "" case Some(b) => b
  }

  datatype Plan = Plan(file: Name, id: string, sha: string, size: nat)

  /** The ledger directory's closed generations, the marker file, the archive target. */
  datatype Shelf = Shelf(files: map<Name, Bytes>, lines: seq<Marker>, target: map<Name, Bytes>)

  /** How the outside calls of one export end. A write to the target may store anything,
      whatever it answers. */
  datatype Chance = Chance(gzipOk: bool, stored: Option<Bytes>, putOk: bool, sidecarOk: bool, getOk: bool, line: Reply)

  datatype Code = Hub009 | Hub010 | Hub011 | Hub012 | Hub014

  datatype Report = Reached(stage: Stage) | Refused(code: Code)

  function Stored(target: map<Name, Bytes>, file: Name, stored: Option<Bytes>): map<Name, Bytes> {
    if stored.Some? then target[file := stored.value] else target
  }

  function Marked(s: Shelf, mk: Marker, r: Reply): Shelf { s.(lines := Appended(s.lines, mk, r)) }

  function ReadBack(s: Shelf, file: Name, c: Chance): Option<Bytes> {
    if c.getOk && file in s.target then Some(s.target[file]) else None
  }

  predicate Matches(cfg: Config, back: Bytes, mk: Marker) {
    |back| == mk.packed && cfg.tools.sha(Unpacked(cfg, back)) == mk.sha
  }

  function Archived(cfg: Config, s: Shelf, p: Plan, c: Chance): (Shelf, Report) {
    if p.file !in s.files || |s.files[p.file]| != p.size || cfg.tools.sha(s.files[p.file]) != p.sha then (s, Refused(Hub011))
    else
      var raw := s.files[p.file];
      var mk := Marker(p.id, p.file, p.sha, 0, Failed);
      if cfg.gzip && !c.gzipOk then (Marked(s, mk, c.line), Refused(Hub012))
      else Exporting(cfg, s.(target := Stored(s.target, p.file, c.stored)), mk.(packed := |Packed(cfg, raw)|), c)
  }

  function Exporting(cfg: Config, s: Shelf, mk: Marker, c: Chance): (Shelf, Report) {
    if !c.putOk || !c.sidecarOk then (Marked(s, mk, c.line), Refused(Hub010))
    else if !cfg.verify then Marking(s, mk.(stage := Exported), c.line)
    else match ReadBack(s, mk.file, c)
      case None => (Marked(s, mk.(stage := Exported), c.line), Refused(Hub010))
      case Some(back) =>
        if !Matches(cfg, back, mk) then (Marked(s, mk.(stage := Exported), c.line), Refused(Hub012))
        else Marking(s, mk.(stage := Verified), c.line)
  }

  function Marking(s: Shelf, mk: Marker, r: Reply): (Shelf, Report) {
    (s.(lines := Moved(s.lines, mk, r)), if Has(s.lines, mk.id, mk.stage) || r.Ok() then Reached(mk.stage) else Refused(Hub009))
  }

  predicate Licensed(lines: seq<Marker>, file: Name) {
    LatestOf(lines, file).Some? && LatestOf(lines, file).value.stage.Verified?
  }

  function DropMarked(lines: seq<Marker>, file: Name, r: Reply): seq<Marker> {
    if !Licensed(lines, file) then lines else Moved(lines, LatestOf(lines, file).value.(stage := Dropped), r)
  }

  // ---- runs ----

  /** A generation is written (first or again) by the ledger, exported under a plan, or
      deleted by a sweep under the gate's licence, which then marks the drop. */
  datatype Event = Write(file: Name, bytes: Bytes) | Export(plan: Plan, chance: Chance) | Drop(file: Name, line: Reply)

  predicate Enabled(s: Shelf, e: Event) { e.Drop? ==> e.file in s.files && Licensed(s.lines, e.file) }

  function Next(cfg: Config, s: Shelf, e: Event): Shelf {
    match e
    case Write(f, b) => s.(files := s.files[f := b])
    case Export(p, c) => Archived(cfg, s, p, c).0
    case Drop(f, r) => s.(files := s.files - {f}, lines := DropMarked(s.lines, f, r))
  }

  function Fresh(): Shelf { Shelf(map[], [], map[]) }

  predicate Possible(cfg: Config, run: seq<Event>) {
    run == [] ||
    (Possible(cfg, run[..|run| - 1]) && Enabled(After(cfg, run[..|run| - 1]), run[|run| - 1]))
  }

  function After(cfg: Config, run: seq<Event>): Shelf {
    if run == [] then Fresh() else Next(cfg, After(cfg, run[..|run| - 1]), run[|run| - 1])
  }

  // ---- what every line is worth ----

  /** A step adds at most one line. A `verified` line is added only when the object now in
      the target has the stored length and unpacks to the digest of the file as it is, and
      a `dropped` line only when the file's latest line was its `verified` one. */
  lemma EveryLineIsEarned(cfg: Config, s: Shelf, e: Event)
    requires Enabled(s, e)
    ensures var t := Next(cfg, s, e);
      t.lines == s.lines || (|t.lines| == |s.lines| + 1 && t.lines[..|s.lines|] == s.lines && Earned(cfg, s, t, t.lines[|s.lines|]))
  {
    if e.Drop? { LatestIsLast(s.lines, e.file); }
  }

  predicate Earned(cfg: Config, s: Shelf, t: Shelf, mk: Marker) {
    match mk.stage
    case Verified =>
      && mk.file in t.target && |t.target[mk.file]| == mk.packed && cfg.tools.sha(Unpacked(cfg, t.target[mk.file])) == mk.sha
      && mk.file in s.files && mk.sha == cfg.tools.sha(s.files[mk.file]) && mk.packed == |Packed(cfg, s.files[mk.file])|
    case Dropped => LatestOf(s.lines, mk.file) == Some(mk.(stage := Verified)) && mk.file !in t.files
    case _ => mk.file in s.files && mk.sha == cfg.tools.sha(s.files[mk.file])
  }

  predicate DropsFollowProof(lines: seq<Marker>) {
    forall i :: 0 <= i < |lines| && lines[i].stage.Dropped? ==>
      LatestOf(lines[..i], lines[i].file) == Some(lines[i].(stage := Verified))
  }

  /** Over every run: a `dropped` line directly follows, among its file's lines, the
      `verified` line it rests on. */
  lemma {:induction false} EveryDropRestsOnProof(cfg: Config, run: seq<Event>)
    requires Possible(cfg, run)
    ensures DropsFollowProof(After(cfg, run).lines)
  {
    if run != [] {
      var s, e := After(cfg, run[..|run| - 1]), run[|run| - 1];
      EveryDropRestsOnProof(cfg, run[..|run| - 1]);
      EveryLineIsEarned(cfg, s, e);
      var t := Next(cfg, s, e);
      forall i | 0 <= i < |t.lines| && t.lines[i].stage.Dropped?
        ensures LatestOf(t.lines[..i], t.lines[i].file) == Some(t.lines[i].(stage := Verified))
      {
        if i < |s.lines| { assert t.lines[..i] == s.lines[..i]; }
      }
    }
  }

  // ---- the licence ----

  /** A latest `verified` line means that the target restores the digest it names. */
  ghost predicate Honest(cfg: Config, s: Shelf) {
    && (!cfg.verify ==> forall i :: 0 <= i < |s.lines| ==> !s.lines[i].stage.Verified?)
    && forall f :: Licensed(s.lines, f) ==>
      f in s.target && cfg.tools.sha(Unpacked(cfg, s.target[f])) == LatestOf(s.lines, f).value.sha
  }

  /** The file is still the one the plan was made for. */
  predicate Holds(cfg: Config, s: Shelf, p: Plan) {
    p.file in s.files && |s.files[p.file]| == p.size && cfg.tools.sha(s.files[p.file]) == p.sha
  }

  predicate FailsEarly(cfg: Config, c: Chance) { (cfg.gzip && !c.gzipOk) || !c.putOk || !c.sidecarOk }

  /** The object read back after the write is the file's. */
  predicate ReadsBack(cfg: Config, s: Shelf, p: Plan, c: Chance)
    requires p.file in s.files
  {
    var back := ReadBack(s.(target := Stored(s.target, p.file, c.stored)), p.file, c);
    back.Some? && Matches(cfg, back.value, Marker(p.id, p.file, p.sha, |Packed(cfg, s.files[p.file])|, Exported))
  }

  /** The attempt gets to a transition some older line already holds. */
  predicate Repeats(cfg: Config, s: Shelf, p: Plan, c: Chance)
    requires p.file in s.files
  {
    if cfg.verify then ReadsBack(cfg, s, p, c) && Has(s.lines, p.id, Verified) else Has(s.lines, p.id, Exported)
  }

  /** The attempt leaves a line of its own. */
  predicate Traced(cfg: Config, s: Shelf, p: Plan, c: Chance)
    requires p.file in s.files
  {
    c.line.Landed() && (FailsEarly(cfg, c) || !Repeats(cfg, s, p, c))
  }

  /** The attempt puts another content over the object a licence rests on, and leaves no
      line that would end the licence. */
  predicate Undermines(cfg: Config, s: Shelf, p: Plan, c: Chance) {
    && Licensed(s.lines, p.file) && Holds(cfg, s, p) && !(cfg.gzip && !c.gzipOk) && !Traced(cfg, s, p, c)
    && c.stored.Some? && cfg.tools.sha(Unpacked(cfg, c.stored.value)) != LatestOf(s.lines, p.file).value.sha
  }

  predicate Spares(cfg: Config, s: Shelf, e: Event) { e.Export? ==> !Undermines(cfg, s, e.plan, e.chance) }

  predicate AllSpare(cfg: Config, run: seq<Event>) {
    run == [] || (AllSpare(cfg, run[..|run| - 1]) && Spares(cfg, After(cfg, run[..|run| - 1]), run[|run| - 1]))
  }

  ghost predicate AlwaysHonest(cfg: Config, run: seq<Event>) {
    Honest(cfg, After(cfg, run)) && (run == [] || AlwaysHonest(cfg, run[..|run| - 1]))
  }

  /** What an export reports: `verified` exactly when the object was read back as the file's
      and a line of that id and stage stands, and `exported` only where nothing verifies. */
  lemma ReportIsExact(cfg: Config, s: Shelf, p: Plan, c: Chance)
    ensures var (t, report) := Archived(cfg, s, p, c);
      && (report == Reached(Verified) <==>
            cfg.verify && Holds(cfg, s, p) && !FailsEarly(cfg, c) && ReadsBack(cfg, s, p, c)
            && (Has(s.lines, p.id, Verified) || c.line.Ok()))
      && (report == Reached(Verified) ==>
            Has(t.lines, p.id, Verified) && p.file in t.target && cfg.tools.sha(Unpacked(cfg, t.target[p.file])) == p.sha)
      && (report.Reached? ==> report.stage == if cfg.verify then Verified else Exported)
      && (report == Reached(Exported) ==> Has(t.lines, p.id, Exported) && Holds(cfg, s, p))
  {
    var mk := Marker(p.id, p.file, p.sha, if p.file in s.files then |Packed(cfg, s.files[p.file])| else 0,
                     if cfg.verify then Verified else Exported);
    HasAfterMove(s.lines, mk, c.line);
  }

  /** And a refusal says why: the plan is outdated, packing or the comparison failed, the
      store or the reading back did, or the line was not written. */
  lemma RefusalSaysWhy(cfg: Config, s: Shelf, p: Plan, c: Chance)
    ensures var report := Archived(cfg, s, p, c).1;
      && (report == Refused(Hub011) <==> !Holds(cfg, s, p))
      && (Holds(cfg, s, p) ==>
            && (report == Refused(Hub012) <==>
                  (cfg.gzip && !c.gzipOk)
                  || (!FailsEarly(cfg, c) && cfg.verify && !ReadsBack(cfg, s, p, c) && c.getOk && (p.file in s.target || c.stored.Some?)))
            && (report == Refused(Hub010) <==>
                  !(cfg.gzip && !c.gzipOk)
                  && (!c.putOk || !c.sidecarOk || (cfg.verify && !(c.getOk && (p.file in s.target || c.stored.Some?)))))
            && (report == Refused(Hub009) <==>
                  !FailsEarly(cfg, c) && (cfg.verify ==> ReadsBack(cfg, s, p, c))
                  && !Has(s.lines, p.id, if cfg.verify then Verified else Exported) && !c.line.Ok()))
  {
  }

  lemma HasAfterMove(lines: seq<Marker>, mk: Marker, r: Reply)
    ensures Has(Moved(lines, mk, r), mk.id, mk.stage) <==> Has(lines, mk.id, mk.stage) || r.Landed()
  {
    if !Has(lines, mk.id, mk.stage) { assert (lines + [mk])[|lines|] == mk; }
  }

  lemma {:induction false} LicenceHasALine(lines: seq<Marker>, f: Name)
    requires Licensed(lines, f)
    ensures exists i :: 0 <= i < |lines| && lines[i].stage.Verified?
  {
    LatestIsLast(lines, f);
    var i :| LastAbout(lines, i, LatestOf(lines, f).value);
  }

  /** A step keeps every licence honest exactly when it is no export that undermines one. */
  lemma StepIsHonestExactly(cfg: Config, s: Shelf, e: Event)
    requires Honest(cfg, s) && Enabled(s, e)
    ensures Honest(cfg, Next(cfg, s, e)) <==> Spares(cfg, s, e)
  {
    match e
    case Write(f, b) =>
    case Export(p, c) => ExportIsHonestExactly(cfg, s, p, c);
    case Drop(f, r) =>
      var mk := LatestOf(s.lines, f).value.(stage := Dropped);
      LatestIsLast(s.lines, f);
      forall g | Licensed(Next(cfg, s, e).lines, g) ensures Licensed(s.lines, g) && LatestOf(Next(cfg, s, e).lines, g) == LatestOf(s.lines, g) {
        LatestAppend(s.lines, mk, g);
      }
  }

  lemma ExportIsHonestExactly(cfg: Config, s: Shelf, p: Plan, c: Chance)
    requires Honest(cfg, s)
    ensures Honest(cfg, Archived(cfg, s, p, c).0) <==> !Undermines(cfg, s, p, c)
  {
    var t := Archived(cfg, s, p, c).0;
    if !cfg.verify {
      NeverVerified(cfg, s, p, c);
      if Licensed(s.lines, p.file) { LicenceHasALine(s.lines, p.file); }
    } else if Holds(cfg, s, p) {
      ExportShape(cfg, s, p, c);
      if Traced(cfg, s, p, c) { TracedIsHonest(cfg, s, p, c); }
      else { UntracedIsHonestExactly(cfg, s, p, c); }
    }
  }

  lemma TracedIsHonest(cfg: Config, s: Shelf, p: Plan, c: Chance)
    requires cfg.verify && Honest(cfg, s) && Holds(cfg, s, p) && Traced(cfg, s, p, c)
    ensures Honest(cfg, Archived(cfg, s, p, c).0)
  {
    var t := Archived(cfg, s, p, c).0;
    ExportShape(cfg, s, p, c);
    forall g | Licensed(t.lines, g) ensures g in t.target && cfg.tools.sha(Unpacked(cfg, t.target[g])) == LatestOf(t.lines, g).value.sha {
      LatestAppend(s.lines, t.lines[|s.lines|], g);
    }
  }

  lemma UntracedIsHonestExactly(cfg: Config, s: Shelf, p: Plan, c: Chance)
    requires cfg.verify && Honest(cfg, s) && Holds(cfg, s, p) && !Traced(cfg, s, p, c)
    ensures Honest(cfg, Archived(cfg, s, p, c).0) <==> !Undermines(cfg, s, p, c)
  {
    ExportShape(cfg, s, p, c);
  }

  lemma NeverVerified(cfg: Config, s: Shelf, p: Plan, c: Chance)
    requires !cfg.verify && forall i :: 0 <= i < |s.lines| ==> !s.lines[i].stage.Verified?
    ensures var t := Archived(cfg, s, p, c).0;
      && (forall i :: 0 <= i < |t.lines| ==> !t.lines[i].stage.Verified?)
      && (forall f :: !Licensed(t.lines, f))
  {
    var t := Archived(cfg, s, p, c).0;
    assert forall i :: 0 <= i < |t.lines| ==> !t.lines[i].stage.Verified?;
    forall f ensures !Licensed(t.lines, f) { if Licensed(t.lines, f) { LicenceHasALine(t.lines, f); } }
  }

  /** An export touches only its own file's object and leaves at most one line, about that
      file and its content; one that verifies it is earned. */
  lemma ExportShape(cfg: Config, s: Shelf, p: Plan, c: Chance)
    requires Holds(cfg, s, p)
    ensures var t := Archived(cfg, s, p, c).0;
      && t.files == s.files
      && t.target == (if cfg.gzip && !c.gzipOk then s.target else Stored(s.target, p.file, c.stored))
      && (!Traced(cfg, s, p, c) ==> t.lines == s.lines)
      && (Traced(cfg, s, p, c) ==>
            |t.lines| == |s.lines| + 1 && t.lines == s.lines + [t.lines[|s.lines|]] && LineFor(cfg, t, p, t.lines[|s.lines|]))
  {
  }

  predicate LineFor(cfg: Config, t: Shelf, p: Plan, mk: Marker) {
    && mk.file == p.file && mk.id == p.id && mk.sha == p.sha && !mk.stage.Dropped?
    && (mk.stage.Verified? ==> p.file in t.target && cfg.tools.sha(Unpacked(cfg, t.target[p.file])) == p.sha)
  }

  /** The licence is worth what it says all through a run exactly when no export of the run
      undermines one. */
  lemma {:induction false} LicenceHoldsExactly(cfg: Config, run: seq<Event>)
    requires Possible(cfg, run)
    ensures AlwaysHonest(cfg, run) <==> AllSpare(cfg, run)
  {
    if run != [] {
      var front := run[..|run| - 1];
      LicenceHoldsExactly(cfg, front);
      if AlwaysHonest(cfg, front) {
        HonestNow(cfg, front);
        StepIsHonestExactly(cfg, After(cfg, front), run[|run| - 1]);
      }
    }
  }

  lemma HonestNow(cfg: Config, run: seq<Event>)
    requires AlwaysHonest(cfg, run)
    ensures Honest(cfg, After(cfg, run))
  {
  }

  lemma LicenceHolds(cfg: Config, run: seq<Event>)
    requires Possible(cfg, run) && AllSpare(cfg, run)
    ensures Honest(cfg, After(cfg, run))
  {
    LicenceHoldsExactly(cfg, run);
    HonestNow(cfg, run);
  }

  predicate Restores(cfg: Config, s: Shelf, f: Name, b: Bytes) {
    f in s.target && Unpacked(cfg, s.target[f]) == b
  }

  /** The gate looks at the latest stage and not at the digest. It is right about a file
      it licenses exactly when the line's digest is the file's: a generation rewritten
      since then is licensed although its bytes were never exported. */
  lemma GateIsRightExactly(cfg: Config, run: seq<Event>, f: Name)
    requires Sound(cfg) && Possible(cfg, run) && AllSpare(cfg, run)
    requires f in After(cfg, run).files && Licensed(After(cfg, run).lines, f)
    ensures var s := After(cfg, run);
      Restores(cfg, s, f, s.files[f]) <==> LatestOf(s.lines, f).value.sha == cfg.tools.sha(s.files[f])
  {
    LicenceHolds(cfg, run);
  }

  /** Everything goes well. */
  function Smooth(cfg: Config, raw: Bytes): Chance {
    Chance(true, Some(Packed(cfg, raw)), true, true, true, Reply.Done)
  }

  function PlanFor(cfg: Config, f: Name, raw: Bytes): Plan {
    Plan(f, Id(cfg.tools.sha(raw)), cfg.tools.sha(raw), |raw|)
  }

  lemma RewrittenIsLicensed(cfg: Config, a: Bytes, b: Bytes)
    requires Sound(cfg) && cfg.verify && a != b
    ensures var run := [Write(0, a)] + [Export(PlanFor(cfg, 0, a), Smooth(cfg, a))] + [Write(0, b)];
      && Possible(cfg, run) && Enabled(After(cfg, run), Drop(0, Reply.Done))
      && After(cfg, run).files == map[0 := b] && !Restores(cfg, After(cfg, run), 0, b)
  {
    var out := Export(PlanFor(cfg, 0, a), Smooth(cfg, a));
    assert [] + [Write(0, a)] == [Write(0, a)];
    RunStep(cfg, [], Write(0, a));
    assert After(cfg, [Write(0, a)]) == Shelf(map[0 := a], [], map[]);
    RunStep(cfg, [Write(0, a)], out);
    SmoothExport(cfg, a);
    RunStep(cfg, [Write(0, a)] + [out], Write(0, b));
  }

  /** An undisturbed export ends verified and licenses its file. */
  lemma SmoothExport(cfg: Config, raw: Bytes)
    requires Sound(cfg) && cfg.verify
    ensures var t := Next(cfg, Shelf(map[0 := raw], [], map[]), Export(PlanFor(cfg, 0, raw), Smooth(cfg, raw)));
      t.files == map[0 := raw] && Licensed(t.lines, 0) && Restores(cfg, t, 0, raw)
  {
    var s := Shelf(map[0 := raw], [], map[]);
    var t := Next(cfg, s, Export(PlanFor(cfg, 0, raw), Smooth(cfg, raw)));
    var mk := Marker(Id(cfg.tools.sha(raw)), 0, cfg.tools.sha(raw), |Packed(cfg, raw)|, Verified);
    assert t.lines == [] + [mk];
    LatestAppend([], mk, 0);
  }

  lemma RunStep(cfg: Config, run: seq<Event>, e: Event)
    requires Possible(cfg, run) && Enabled(After(cfg, run), e)
    ensures Possible(cfg, run + [e]) && After(cfg, run + [e]) == Next(cfg, After(cfg, run), e)
  {
    assert (run + [e])[..|run|] == run;
  }

  /** A drop ends the licence it used, if its line lands, and the generation is not planned
      again. */
  lemma DropIsMarked(s: Shelf, f: Name, r: Reply)
    requires Licensed(s.lines, f) && r.Landed()
    ensures var t := DropMarked(s.lines, f, r); var mk := LatestOf(s.lines, f).value;
      !Has(s.lines, mk.id, Dropped) ==>
        LatestOf(t, f) == Some(mk.(stage := Dropped)) && !Licensed(t, f) && Accounted(t, mk.id)
  {
    var mk := LatestOf(s.lines, f).value;
    LatestIsLast(s.lines, f);
    LatestAppend(s.lines, mk.(stage := Dropped), f);
    StageAppend(s.lines, mk.(stage := Dropped), mk.id);
  }

  // ---- nothing is lost ----

  /** What each generation was written with. */
  function Born(run: seq<Event>): map<Name, Bytes> {
    if run == [] then map[]
    else
      var born, e := Born(run[..|run| - 1]), run[|run| - 1];
      if e.Write? then born[e.file := e.bytes] else born
  }

  /** The ledger writes a generation once, and no export undermines a licence. */
  predicate Orderly(cfg: Config, run: seq<Event>) {
    run == [] ||
    (Orderly(cfg, run[..|run| - 1]) && OrderlyStep(cfg, Born(run[..|run| - 1]), After(cfg, run[..|run| - 1]), run[|run| - 1]))
  }

  predicate OrderlyStep(cfg: Config, born: map<Name, Bytes>, s: Shelf, e: Event) {
    (e.Write? ==> e.file !in born) && Spares(cfg, s, e)
  }

  /** Each line about a file carries the digest of its one content, which is still there
      or safe in the target. */
  ghost predicate Kept(cfg: Config, born: map<Name, Bytes>, s: Shelf) {
    && Honest(cfg, s)
    && (forall i :: 0 <= i < |s.lines| ==> s.lines[i].file in born && s.lines[i].sha == cfg.tools.sha(born[s.lines[i].file]))
    && (forall f :: f in s.files ==> f in born && born[f] == s.files[f])
    && (forall f :: f in born ==> f in s.files || Restores(cfg, s, f, born[f]))
  }

  lemma {:induction false} KeptHolds(cfg: Config, run: seq<Event>)
    requires Sound(cfg) && Possible(cfg, run) && Orderly(cfg, run)
    ensures Kept(cfg, Born(run), After(cfg, run))
  {
    if run != [] {
      var front := run[..|run| - 1];
      KeptHolds(cfg, front);
      KeptStep(cfg, Born(front), After(cfg, front), run[|run| - 1]);
    }
  }

  lemma KeptStep(cfg: Config, born: map<Name, Bytes>, s: Shelf, e: Event)
    requires Sound(cfg) && Kept(cfg, born, s) && Enabled(s, e) && OrderlyStep(cfg, born, s, e)
    ensures Kept(cfg, if e.Write? then born[e.file := e.bytes] else born, Next(cfg, s, e))
  {
    StepIsHonestExactly(cfg, s, e);
    if e.Export? { KeptExport(cfg, born, s, e.plan, e.chance); }
    if e.Drop? { KeptDrop(cfg, born, s, e.file, e.line); }
  }

  lemma KeptDrop(cfg: Config, born: map<Name, Bytes>, s: Shelf, f: Name, r: Reply)
    requires Sound(cfg) && Kept(cfg, born, s) && Enabled(s, Drop(f, r)) && Honest(cfg, Next(cfg, s, Drop(f, r)))
    ensures Kept(cfg, born, Next(cfg, s, Drop(f, r)))
  {
    LatestIsLast(s.lines, f);
  }

  lemma KeptExport(cfg: Config, born: map<Name, Bytes>, s: Shelf, p: Plan, c: Chance)
    requires Sound(cfg) && Kept(cfg, born, s) && Honest(cfg, Archived(cfg, s, p, c).0)
    ensures Kept(cfg, born, Archived(cfg, s, p, c).0)
  {
    if Holds(cfg, s, p) { ExportShape(cfg, s, p, c); }
  }

  /** Over every run in which a generation is written once and no export undermines a
      licence, each generation ever written is still on the host or is restored, byte for
      byte, by the target. */
  lemma NothingIsLost(cfg: Config, run: seq<Event>, f: Name)
    requires Sound(cfg) && Possible(cfg, run) && Orderly(cfg, run) && f in Born(run)
    ensures var s := After(cfg, run);
      (f in s.files && s.files[f] == Born(run)[f]) || Restores(cfg, s, f, Born(run)[f])
  {
    KeptHolds(cfg, run);
  }

  /** The first export that does undermine one opens the way to a loss: the gate lets the
      generation go, and neither the host nor the target has its bytes. */
  lemma UnderminedIsLost(cfg: Config, run: seq<Event>, p: Plan, c: Chance, r: Reply)
    requires Sound(cfg) && Possible(cfg, run) && Orderly(cfg, run) && Undermines(cfg, After(cfg, run), p, c)
    ensures var full := run + [Export(p, c)] + [Drop(p.file, r)];
      && Possible(cfg, full) && p.file in Born(run)
      && p.file !in After(cfg, full).files && !Restores(cfg, After(cfg, full), p.file, Born(run)[p.file])
  {
    var s := After(cfg, run);
    KeptHolds(cfg, run);
    ExportShape(cfg, s, p, c);
    LatestIsLast(s.lines, p.file);
    RunStep(cfg, run, Export(p, c));
    RunStep(cfg, run + [Export(p, c)], Drop(p.file, r));
  }

  // ---- planned exports undermine nothing ----

  /** The ledger writes a generation once, under an id of its own, and an export is one the
      planning pass asks for. Its line may be lost. */
  predicate PlannedStep(cfg: Config, born: map<Name, Bytes>, s: Shelf, e: Event) {
    match e
    case Write(f, b) => f !in born && forall g :: g in born ==> Id(cfg.tools.sha(born[g])) != Id(cfg.tools.sha(b))
    case Export(p, _) => p.file in s.files && p == PlanFor(cfg, p.file, s.files[p.file]) && !Accounted(s.lines, p.id)
    case Drop(_, _) => true
  }

  predicate AsPlanned(cfg: Config, run: seq<Event>) {
    run == [] ||
    (AsPlanned(cfg, run[..|run| - 1]) && PlannedStep(cfg, Born(run[..|run| - 1]), After(cfg, run[..|run| - 1]), run[|run| - 1]))
  }

  /** An id stands for one generation, on the host and in the lines. */
  ghost predicate OwnIds(cfg: Config, born: map<Name, Bytes>, lines: seq<Marker>) {
    && (forall f, g :: f in born && g in born && Id(cfg.tools.sha(born[f])) == Id(cfg.tools.sha(born[g])) ==> f == g)
    && (forall i :: 0 <= i < |lines| ==> lines[i].file in born && lines[i].id == Id(cfg.tools.sha(born[lines[i].file])))
  }

  lemma OwnIdsKept(cfg: Config, born: map<Name, Bytes>, s: Shelf, e: Event)
    requires Kept(cfg, born, s) && OwnIds(cfg, born, s.lines) && Enabled(s, e) && PlannedStep(cfg, born, s, e)
    ensures OwnIds(cfg, if e.Write? then born[e.file := e.bytes] else born, Next(cfg, s, e).lines)
  {
    if e.Export? { OwnIdsExported(cfg, born, s, e.plan, e.chance); }
    if e.Drop? {
      LatestIsLast(s.lines, e.file);
      OwnIdsLine(cfg, born, s.lines, LatestOf(s.lines, e.file).value.(stage := Dropped));
    }
  }

  lemma OwnIdsExported(cfg: Config, born: map<Name, Bytes>, s: Shelf, p: Plan, c: Chance)
    requires Kept(cfg, born, s) && OwnIds(cfg, born, s.lines) && PlannedStep(cfg, born, s, Export(p, c))
    ensures OwnIds(cfg, born, Archived(cfg, s, p, c).0.lines)
  {
    var t := Archived(cfg, s, p, c).0;
    ExportShape(cfg, s, p, c);
    if |t.lines| > |s.lines| { OwnIdsLine(cfg, born, s.lines, t.lines[|s.lines|]); }
  }

  lemma OwnIdsLine(cfg: Config, born: map<Name, Bytes>, lines: seq<Marker>, mk: Marker)
    requires OwnIds(cfg, born, lines) && mk.file in born && mk.id == Id(cfg.tools.sha(born[mk.file]))
    ensures OwnIds(cfg, born, lines + [mk])
  {
  }

  /** A licensed generation is not planned, so its object is not written again. */
  lemma PlannedSpares(cfg: Config, born: map<Name, Bytes>, s: Shelf, e: Event)
    requires Kept(cfg, born, s) && OwnIds(cfg, born, s.lines) && PlannedStep(cfg, born, s, e)
    ensures OrderlyStep(cfg, born, s, e)
  {
    if e.Export? && Licensed(s.lines, e.plan.file) { StageIsLatest(s.lines, e.plan.id, e.plan.file); }
  }

  lemma {:induction false} PlannedIsOrderly(cfg: Config, run: seq<Event>)
    requires Sound(cfg) && Possible(cfg, run) && AsPlanned(cfg, run)
    ensures Orderly(cfg, run) && OwnIds(cfg, Born(run), After(cfg, run).lines)
  {
    if run != [] {
      var front := run[..|run| - 1];
      PlannedIsOrderly(cfg, front);
      KeptHolds(cfg, front);
      PlannedSpares(cfg, Born(front), After(cfg, front), run[|run| - 1]);
      OwnIdsKept(cfg, Born(front), After(cfg, front), run[|run| - 1]);
    }
  }

  /** Over every run of planned exports, each line landing or not, in which a generation is
      written once and under an id of its own, each one ever written is still on the host
      or is restored, byte for byte, by the target. */
  lemma PlannedExportsLoseNothing(cfg: Config, run: seq<Event>, f: Name)
    requires Sound(cfg) && Possible(cfg, run) && AsPlanned(cfg, run) && f in Born(run)
    ensures var s := After(cfg, run);
      (f in s.files && s.files[f] == Born(run)[f]) || Restores(cfg, s, f, Born(run)[f])
  {
    PlannedIsOrderly(cfg, run);
    NothingIsLost(cfg, run, f);
  }
}
