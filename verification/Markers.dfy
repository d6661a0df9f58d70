/** The append-only marker ledger of the archive tier (internal/hub/markers.go): the only
    statement about what has been exported, verified and dropped. */
module Markers {
  import opened Basics

  /** Generation files are numbered in the order of their names. */
  type Name = nat
  type Bytes = string

  datatype Stage = Pending | Exported | Verified | Dropped | Failed

  datatype Marker = Marker(id: string, file: Name, sha: string, packed: nat, stage: Stage)

  /** The last line about a file. */
  function LatestOf(lines: seq<Marker>, file: Name): Option<Marker> {
    if lines == [] then None
    else
      var last := lines[|lines| - 1];
      if last.file == file then Some(last) else LatestOf(lines[..|lines| - 1], file)
  }

  /** The last stage recorded under a marker id, whichever file it was about. */
  function StageOf(lines: seq<Marker>, id: string): Option<Stage> {
    if lines == [] then None
    else
      var last := lines[|lines| - 1];
      if last.id == id then Some(last.stage) else StageOf(lines[..|lines| - 1], id)
  }

  /** Nothing is left to be exported under the id. */
  predicate Accounted(lines: seq<Marker>, id: string) {
    StageOf(lines, id) in {Some(Exported), Some(Verified), Some(Dropped)}
  }

  /** Where an id stands for one file and the file for one id, the id's last stage is the
      file's. */
  lemma {:induction false} StageIsLatest(lines: seq<Marker>, id: string, file: Name)
    requires forall i :: 0 <= i < |lines| ==> (lines[i].id == id <==> lines[i].file == file)
    ensures StageOf(lines, id) == match LatestOf(lines, file) case None => None case Some(mk) => Some(mk.stage)
  {
    if lines != [] { StageIsLatest(lines[..|lines| - 1], id, file); }
  }

  predicate Has(lines: seq<Marker>, id: string, stage: Stage) {
    exists i :: 0 <= i < |lines| && lines[i].id == id && lines[i].stage == stage
  }

  function Appended(lines: seq<Marker>, mk: Marker, r: Reply): seq<Marker> {
    if r.Landed() then lines + [mk] else lines
  }

  /** One line per (id, stage). */
  function Moved(lines: seq<Marker>, mk: Marker, r: Reply): seq<Marker> {
    if Has(lines, mk.id, mk.stage) then lines else Appended(lines, mk, r)
  }

  lemma LatestAppend(lines: seq<Marker>, mk: Marker, file: Name)
    ensures LatestOf(lines + [mk], file) == if mk.file == file then Some(mk) else LatestOf(lines, file)
  {
    assert (lines + [mk])[..|lines|] == lines;
  }

  lemma StageAppend(lines: seq<Marker>, mk: Marker, id: string)
    ensures StageOf(lines + [mk], id) == if mk.id == id then Some(mk.stage) else StageOf(lines, id)
  {
    assert (lines + [mk])[..|lines|] == lines;
  }

  predicate LastAbout(lines: seq<Marker>, i: int, mk: Marker) {
    0 <= i < |lines| && lines[i] == mk && forall j :: i < j < |lines| ==> lines[j].file != mk.file
  }

  /** The latest line about a file is a line about it, and no later line is. */
  lemma {:induction false} LatestIsLast(lines: seq<Marker>, file: Name)
    ensures match LatestOf(lines, file)
            case None => forall i :: 0 <= i < |lines| ==> lines[i].file != file
            case Some(mk) => mk.file == file && exists i :: LastAbout(lines, i, mk)
  {
    if lines != [] && lines[|lines| - 1].file != file {
      var front := lines[..|lines| - 1];
      LatestIsLast(front, file);
      if LatestOf(front, file).Some? {
        var mk := LatestOf(front, file).value;
        var i :| LastAbout(front, i, mk);
        assert LastAbout(lines, i, mk);
      }
    } else if lines != [] {
      assert LastAbout(lines, |lines| - 1, lines[|lines| - 1]);
    }
  }

  class MarkerStore {
    var lines: seq<Marker>

    constructor ()
      ensures lines == []
    {
      lines := [];
    }

    method Append(mk: Marker, r: Reply) returns (ok: bool)
      modifies this
      ensures lines == Appended(old(lines), mk, r) && ok == r.Ok()
    {
      if r.Landed() { lines := lines + [mk]; }
      ok := r.Ok();
    }

    method AppendTransition(mk: Marker, r: Reply) returns (added: bool, ok: bool)
      modifies this
      ensures lines == Moved(old(lines), mk, r)
      ensures added <==> !Has(old(lines), mk.id, mk.stage)
      ensures ok <==> (added ==> r.Ok())
    {
      var i := 0;
      while i < |lines|
        invariant i <= |lines| && lines == old(lines)
        invariant forall j :: 0 <= j < i ==> !(lines[j].id == mk.id && lines[j].stage == mk.stage)
      {
        if lines[i].id == mk.id && lines[i].stage == mk.stage { return false, true; }
        i := i + 1;
      }
      added := true;
      ok := Append(mk, r);
    }

    method Latest(file: Name) returns (found: Option<Marker>)
      ensures found == LatestOf(lines, file)
    {
      found := None;
      var i := 0;
      while i < |lines|
        invariant i <= |lines| && found == LatestOf(lines[..i], file)
      {
        assert lines[..i + 1][..i] == lines[..i];
        if lines[i].file == file { found := Some(lines[i]); }
        i := i + 1;
      }
      assert lines[..i] == lines;
    }
  }
}
