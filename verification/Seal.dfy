/** What a queued dispatch carries and what its replay delivers (internal/flow/replay.go,
    router.go): the wire body rendered once and sealed, or, for an entry of an older
    build, a request rendered again from the live configuration. */
module Seal {
  import opened Basics

  /** The object keys the code reads, and any other. */
  datatype Key = SealedKey | Source | TaskId | Inc | Sig | Body
               | IdemKey | BoardPath | Repo | Title | Priority | Complexity | Tags | Severity | HostId | SubmittedTs
               | ReqId | Worktree | PriorityClass | Brief | ResearchBriefId | RouterRef | State | Attempts
               | LastError | RequestedTs | Other(name: string)

  /** A stored payload, parsed; `Garbled` is bytes that are no JSON. */
  datatype Json = Null | Bool(b: bool) | Str(s: string) | Num(n: int) | Arr(items: seq<Json>)
                | Obj(fields: map<Key, Json>) | Garbled

  datatype Payload = Payload(idemKey: string, taskId: string, boardPath: string, repo: string, sig: string, inc: string,
                             title: string, priority: string, complexity: string, tags: seq<string>,
                             severity: string, hostId: string, submittedTs: string)

  datatype Envelope = Envelope(isSealed: bool, source: string, taskId: string, inc: string, sig: string, payload: Payload)

  datatype Request = Request(id: string, inc: string, sig: string, repo: string, taskId: string, requestedTs: string)

  datatype Decoded = Sealed(sd: Envelope) | Rederived(req: Request) | Corrupt

  // ---- typed reading: an absent or null field keeps its zero value ----

  function Field(m: map<Key, Json>, k: Key): Json { if k in m then m[k] else Null }

  predicate StrTyped(m: map<Key, Json>, k: Key) { Field(m, k).Null? || Field(m, k).Str? }

  function StrAt(m: map<Key, Json>, k: Key): string { if Field(m, k).Str? then Field(m, k).s else "" }

  predicate TagsTyped(m: map<Key, Json>) {
    var j := Field(m, Tags);
    j.Null? || (j.Arr? && forall i :: 0 <= i < |j.items| ==> j.items[i].Str? || j.items[i].Null?)
  }

  function TagsAt(m: map<Key, Json>): seq<string> {
    var j := Field(m, Tags);
    if j.Arr? then seq(|j.items|, i requires 0 <= i < |j.items| => if j.items[i].Str? then j.items[i].s else "") else []
  }

  predicate PayloadTyped(j: Json) {
    j.Null? || (j.Obj? && TagsTyped(j.fields) &&
      forall k :: k in {IdemKey, TaskId, BoardPath, Repo, Sig, Inc, Title, Priority, Complexity, Severity, HostId, SubmittedTs}
        ==> StrTyped(j.fields, k))
  }

  function PayloadOf(j: Json): Payload {
    var m := if j.Obj? then j.fields else map[];
    Payload(StrAt(m, IdemKey), StrAt(m, TaskId), StrAt(m, BoardPath), StrAt(m, Repo), StrAt(m, Sig), StrAt(m, Inc),
            StrAt(m, Title), StrAt(m, Priority), StrAt(m, Complexity), TagsAt(m), StrAt(m, Severity), StrAt(m, HostId),
            StrAt(m, SubmittedTs))
  }

  predicate EnvelopeTyped(j: Json) {
    j.Null? || (j.Obj? && (Field(j.fields, SealedKey).Null? || Field(j.fields, SealedKey).Bool?)
                && (forall k :: k in {Source, TaskId, Inc, Sig} ==> StrTyped(j.fields, k))
                && PayloadTyped(Field(j.fields, Body)))
  }

  function EnvelopeOf(j: Json): Envelope {
    var m := if j.Obj? then j.fields else map[];
    Envelope(Field(m, SealedKey) == Bool(true), StrAt(m, Source), StrAt(m, TaskId), StrAt(m, Inc), StrAt(m, Sig),
             PayloadOf(Field(m, Body)))
  }

  const REQUEST_STRINGS: set<Key> := {ReqId, Inc, Sig, Repo, Worktree, TaskId, PriorityClass, Brief, ResearchBriefId,
                                      RouterRef, State, LastError, RequestedTs}

  predicate RequestTyped(j: Json) {
    j.Null? || (j.Obj? && (Field(j.fields, Attempts).Null? || Field(j.fields, Attempts).Num?) &&
      forall k :: k in REQUEST_STRINGS ==> StrTyped(j.fields, k))
  }

  function RequestOf(j: Json): Request {
    var m := if j.Obj? then j.fields else map[];
    Request(StrAt(m, ReqId), StrAt(m, Inc), StrAt(m, Sig), StrAt(m, Repo), StrAt(m, TaskId), StrAt(m, RequestedTs))
  }

  function Decode(j: Json): Decoded {
    if EnvelopeTyped(j) && EnvelopeOf(j).isSealed then
      var sd := EnvelopeOf(j);
      if sd.payload.taskId == "" || sd.payload.idemKey == "" then Corrupt else Sealed(sd)
    else if RequestTyped(j) then Rederived(RequestOf(j))
    else Corrupt
  }

  // ---- writing ----

  function EncodePayload(p: Payload): Json {
    Obj(map[IdemKey := Str(p.idemKey), TaskId := Str(p.taskId), BoardPath := Str(p.boardPath), Repo := Str(p.repo),
            Sig := Str(p.sig), Inc := Str(p.inc), Title := Str(p.title), Priority := Str(p.priority),
            Complexity := Str(p.complexity), Tags := Arr(seq(|p.tags|, i requires 0 <= i < |p.tags| => Str(p.tags[i]))),
            Severity := Str(p.severity), HostId := Str(p.hostId), SubmittedTs := Str(p.submittedTs)])
  }

  function Encode(sd: Envelope): Json {
    Obj(map[SealedKey := Bool(sd.isSealed), Source := Str(sd.source), TaskId := Str(sd.taskId), Inc := Str(sd.inc),
            Sig := Str(sd.sig), Body := EncodePayload(sd.payload)])
  }

  function SealDispatch(p: Payload, source: string): Envelope {
    Envelope(true, source, p.taskId, p.inc, p.sig, p)
  }

  // ---- rendering ----

  datatype Row = Row(id: string, title: string, priority: string, complexity: string, tags: seq<string>,
                     sig: string, inc: string, repo: string)

  /** What a rendering reads of the live world: the board a row belongs to, the host, the
      scrubber, the clock, and the id minted for a row that has none. */
  datatype Live = Live(boardOf: Row -> string, host: string, scrub: string -> string, now: string, minted: string)

  function WirePayload(live: Live, row: Row, severity: string): Payload {
    Payload(row.id, row.id, live.boardOf(row), row.repo, row.sig, row.inc, row.title, row.priority, row.complexity,
            row.tags, severity, live.host, live.now)
  }

  function TitleFor(live: Live, req: Request): string {
    var t := "hotfix: " + req.sig + " (" + req.taskId + ")";
    live.scrub(if |t| > 200 then t[..200] else t)
  }

  function SpawnRow(live: Live, req: Request): Row {
    Row(if req.taskId != "" then req.taskId else live.minted, TitleFor(live, req), "P1", "", [], req.sig, req.inc, req.repo)
  }

  const SEV_HIGH := "high"

  /** The wire body a replay sends for a stored payload. */
  function Delivered(live: Live, j: Json): Option<Payload> {
    match Decode(j)
    case Sealed(sd) => Some(sd.payload)
    case Rederived(req) => Some(WirePayload(live, SpawnRow(live, req), SEV_HIGH))
    case Corrupt => None
  }

  // ---- properties ----

  lemma PayloadRoundTrip(p: Payload)
    ensures PayloadTyped(EncodePayload(p)) && PayloadOf(EncodePayload(p)) == p
  {
    var m := EncodePayload(p).fields;
    assert TagsAt(m) == p.tags;
  }

  /** What is sealed comes back as it was, exactly when it has an identity. */
  lemma SealRoundTrip(p: Payload, source: string)
    ensures Decode(Encode(SealDispatch(p, source))) ==
      if p.taskId != "" && p.idemKey != "" then Sealed(SealDispatch(p, source)) else Corrupt
  {
    PayloadRoundTrip(p);
    var j := Encode(SealDispatch(p, source));
    assert EnvelopeTyped(j) && EnvelopeOf(j) == SealDispatch(p, source);
  }

  /** Whatever happens to the configuration, the board, the clock and the host between the
      write and the replay, the delivered body and its idem key are those rendered at the
      write; and a row with an id is always delivered. */
  lemma SealedDelivery(before: Live, later: Live, row: Row, severity: string, source: string)
    ensures var p := WirePayload(before, row, severity);
      && Delivered(later, Encode(SealDispatch(p, source))) == (if row.id != "" then Some(p) else None)
      && p.idemKey == row.id && p.taskId == row.id
      && p.sig == row.sig && p.inc == row.inc && p.repo == row.repo && p.title == row.title && p.tags == row.tags
      && p.priority == row.priority && p.complexity == row.complexity && p.severity == severity
      && p.boardPath == before.boardOf(row) && p.hostId == before.host && p.submittedTs == before.now
  {
    SealRoundTrip(WirePayload(before, row, severity), source);
  }

  /** The spawn path always seals something deliverable: a request without a task id gets
      the minted one, once. */
  lemma SpawnIsDeliverable(before: Live, later: Live, req: Request)
    requires before.minted != ""
    ensures var p := WirePayload(before, SpawnRow(before, req), SEV_HIGH);
      && Delivered(later, Encode(SealDispatch(p, "spawn"))) == Some(p)
      && (req.taskId != "" ==> p.idemKey == req.taskId) && (req.taskId == "" ==> p.idemKey == before.minted)
      && p.sig == req.sig && p.inc == req.inc && p.repo == req.repo && p.severity == SEV_HIGH
  {
    SealedDelivery(before, later, SpawnRow(before, req), SEV_HIGH, "spawn");
  }

  /** Its title is scrubbed, of at most two hundred characters before the scrubber. */
  lemma SpawnTitleIsScrubbed(live: Live, req: Request) returns (raw: string)
    ensures |raw| <= 200 && WirePayload(live, SpawnRow(live, req), SEV_HIGH).title == live.scrub(raw)
    ensures |req.sig| + |req.taskId| <= 100 ==> raw == "hotfix: " + req.sig + " (" + req.taskId + ")"
  {
    var t := "hotfix: " + req.sig + " (" + req.taskId + ")";
    raw := if |t| > 200 then t[..200] else t;
  }

  predicate MarkedSealed(j: Json) { j.Obj? && Field(j.fields, SealedKey) == Bool(true) }

  /** A marked envelope is treated as a request to re-derive exactly when one of its other
      fields has the wrong type while every field a request shares with it has the right
      one; one that only lost its identity is refused. */
  lemma MarkedIsRederivedExactly(j: Json)
    requires MarkedSealed(j)
    ensures Decode(j).Rederived? <==> !EnvelopeTyped(j) && RequestTyped(j)
    ensures EnvelopeTyped(j) && (PayloadOf(Field(j.fields, Body)).taskId == "" || PayloadOf(Field(j.fields, Body)).idemKey == "")
      ==> Decode(j).Corrupt?
  {
    assert EnvelopeOf(j).isSealed;
  }

  /** Such an envelope exists: the payload is intact, the source is a number, and what is
      delivered follows the live host instead of the payload. */
  lemma MistypedEnvelopeIsRederived(p: Payload, live: Live)
    requires p.taskId != "" && p.idemKey != "" && live.host != p.hostId
    ensures var j := Obj(Encode(SealDispatch(p, "dispatch")).fields[Source := Num(1)]);
      && MarkedSealed(j) && Delivered(live, j).Some?
      && Delivered(live, j).value.hostId == live.host && Delivered(live, j).value != p
  {
    var j := Obj(Encode(SealDispatch(p, "dispatch")).fields[Source := Num(1)]);
    assert !StrTyped(j.fields, Source);
    assert !EnvelopeTyped(j);
    assert RequestTyped(j);
  }

  /** An older entry is delivered under one idem key by all its replays exactly when its
      request carries a task id: otherwise each replay mints another. */
  lemma LegacyKeyIsStableExactly(a: Live, b: Live, j: Json)
    requires Decode(j).Rederived? && a.minted != b.minted
    ensures Delivered(a, j).value.idemKey == Delivered(b, j).value.idemKey <==> Decode(j).req.taskId != ""
    ensures var p := Delivered(a, j).value;
      j.Obj? ==> p.sig == StrAt(j.fields, Sig) && p.inc == StrAt(j.fields, Inc) && p.repo == StrAt(j.fields, Repo)
                 && (StrAt(j.fields, TaskId) != "" ==> p.taskId == StrAt(j.fields, TaskId) && p.idemKey == p.taskId)
  {
  }
}
