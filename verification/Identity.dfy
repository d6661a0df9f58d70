/** How a record's dedup key is derived at the door, travels with the record, and is
    read back from the ledger (internal/hub/door.go, protocol.go, consume.go,
    idemindex.go). */
module Identity {
  import opened Basics

  /** A JSON value of a payload; only strings are looked into. */
  datatype Value = Text(s: string) | Tree(tag: nat)

  type Payload = map<string, Value>

  datatype Origin = Origin(host: string, source: string)

  datatype Actor = Actor(kind: string, id: string)

  /** `payload == None` is the nil map. */
  datatype Draft = Draft(kind: string, sig: string, inc: string, origin: Origin, actor: Actor,
                         payload: Option<Payload>)

  datatype Record = Record(recId: string, kind: string, sig: string, inc: string, origin: Origin,
                           actor: Actor, payload: Option<Payload>)

  /** The outside functions: canonical JSON (which can refuse a payload), the first 16
      hex digits of SHA-256, the norm version of a parseable sig, and what a JSON
      round trip makes of one payload value. */
  datatype Codec = Codec(canonical: Option<Payload> -> Option<string>,
                         digest16: string -> string,
                         normVersion: string -> Option<nat>,
                         wire: Value -> Value)

  /** Hex digits hold no separator, and a JSON round trip returns a string as it was
      (a struct may come back as a map, which is why digests are carried, not
      recomputed). */
  ghost predicate Sound(c: Codec) {
    && (forall x :: '|' !in c.digest16(x))
    && (forall s :: c.wire(Text(s)) == Text(s))
  }

  const IDEM_DIGEST := "idem_digest"
  const LOCAL_REC_ID := "local_rec_id"

  function Itoa(n: nat): string {
    if n < 10 then [('0' as int + n) as char] else Itoa(n / 10) + [('0' as int + n % 10) as char]
  }

  function IdemKey(sig: string, normVersion: nat, host: string): string {
    sig + "|" + Itoa(normVersion) + "|" + host
  }

  function IdemKeyForSig(c: Codec, sig: string, host: string): Option<string> {
    if sig == "" then None
    else match c.normVersion(sig)
      case None => None
      case Some(n) => Some(IdemKey(sig, if n == 0 then 1 else n, host))
  }

  function ContentIdemKey(c: Codec, kind: string, body: string): string {
    "content:sha256v1:" + c.digest16("trouble.hub.idem.v1\U{1f}" + kind + "\U{1f}" + body + "\U{1e}")
  }

  /** A scoped key when the sig parses, the bare content key otherwise. */
  function Scoped(c: Codec, sig: string, kind: string, host: string, content: string): string {
    match IdemKeyForSig(c, sig, host)
    case Some(scope) => scope + "|" + kind + "|" + content
    case None => content
  }

  /** None is the refusal of a payload that is not canonical JSON (code 007). */
  function IdemKeyForDraft(c: Codec, d: Draft, host: string): Option<string> {
    match c.canonical(d.payload)
    case None => None
    case Some(body) => Some(Scoped(c, d.sig, d.kind, host, ContentIdemKey(c, d.kind, body)))
  }

  /** The door's own host wins; without one it takes the draft's origin. */
  function DoorKey(c: Codec, d: Draft, daemonHost: string): Option<string> {
    IdemKeyForDraft(c, d, if daemonHost == "" then d.origin.host else daemonHost)
  }

  /** What follows the last `|`; the whole key when there is none. */
  function ContentComponent(key: string): string {
    if key == "" then ""
    else if key[|key| - 1] == '|' then ""
    else ContentComponent(key[..|key| - 1]) + [key[|key| - 1]]
  }

  function LocalRecord(d: Draft, daemonHost: string, claim: string, recId: string): Record {
    var origin := if d.origin.host == "" then d.origin.(host := daemonHost) else d.origin;
    var actor := if d.actor.kind == "" || d.actor.id == "" then Actor("daemon", "hub-door") else d.actor;
    var base := if d.payload.Some? then d.payload.value else map[];
    var payload := if claim != "" then base[IDEM_DIGEST := Text(ContentComponent(claim))] else base;
    Record(recId, d.kind, d.sig, d.inc, origin, actor, Some(payload))
  }

  /** The record as the consumer decodes it from the stream entry. */
  function Transported(c: Codec, r: Record): Record {
    match r.payload
    case None => r
    case Some(p) => r.(payload := Some(map k | k in p :: c.wire(p[k])))
  }

  function DraftFromRecord(r: Record): Draft {
    var base := if r.payload.Some? then r.payload.value else map[];
    var payload :=
      if r.recId != "" && LOCAL_REC_ID !in base then base[LOCAL_REC_ID := Text(r.recId)] else base;
    var actor := if r.actor.kind == "" || r.actor.id == "" then Actor("daemon", "hub") else r.actor;
    var host := if r.origin.host == "" then "unknown-host" else r.origin.host;
    var source := if r.origin.source == "" then "hub" else r.origin.source;
    Draft(r.kind, r.sig, r.inc, Origin(host, source), actor, Some(payload))
  }

  /** The ledger mints the id and keeps every other field of the draft. */
  function LedgerRecord(d: Draft, recId: string): Record {
    Record(recId, d.kind, d.sig, d.inc, d.origin, d.actor, d.payload)
  }

  /** None: the record carries no claim. */
  function IdemKeyForRecord(c: Codec, r: Record, daemonHost: string): Option<string> {
    if r.payload.Some? && IDEM_DIGEST in r.payload.value && r.payload.value[IDEM_DIGEST].Text?
       && r.payload.value[IDEM_DIGEST].s != "" then
      var host := if daemonHost == "" then r.origin.host else daemonHost;
      Some(Scoped(c, r.sig, r.kind, host, r.payload.value[IDEM_DIGEST].s))
    else None
  }

  /** The record the ledger ends up with for a draft offered at the door. */
  function Landed(c: Codec, d: Draft, daemonHost: string, key: string, localId: string, recId: string): Record {
    LedgerRecord(DraftFromRecord(Transported(c, LocalRecord(d, daemonHost, key, localId))), recId)
  }

  lemma {:induction false} AfterLastBar(prefix: string, b: string)
    requires '|' !in b
    ensures ContentComponent(b) == b
    ensures ContentComponent(prefix + "|" + b) == b
  {
    var whole := prefix + "|" + b;
    if b == "" {
      assert whole[|whole| - 1] == '|';
    } else {
      var shorter := b[..|b| - 1];
      AfterLastBar(prefix, shorter);
      assert whole[..|whole| - 1] == prefix + "|" + shorter;
      assert b == shorter + [b[|b| - 1]];
    }
  }

  lemma DoorKeyContent(c: Codec, d: Draft, host: string)
    requires Sound(c) && c.canonical(d.payload).Some?
    ensures var key := IdemKeyForDraft(c, d, host).value;
            var content := ContentIdemKey(c, d.kind, c.canonical(d.payload).value);
            key != "" && ContentComponent(key) == content && content != ""
  {
    var content := ContentIdemKey(c, d.kind, c.canonical(d.payload).value);
    assert '|' !in "content:sha256v1:";
    assert '|' !in content;
    match IdemKeyForSig(c, d.sig, host)
    case Some(scope) =>
      AfterLastBar(scope + "|" + d.kind, content);
    case None =>
      AfterLastBar("", content);
  }

  // ---- one key, one content ----

  /** No two inputs met share a digest. */
  ghost predicate NoCollision(c: Codec) { forall x, y :: c.digest16(x) == c.digest16(y) ==> x == y }

  /** What stands before the first separator is told apart from what follows it. */
  lemma {:induction false} CutOnce(a: string, b: string, x: string, y: string, sep: char)
    requires sep !in a && sep !in b && a + [sep] + x == b + [sep] + y
    ensures a == b && x == y
  {
    var s, t := a + [sep] + x, b + [sep] + y;
    assert s[0] == t[0];
    if a == "" || b == "" {
      assert a == b;
      assert s[1..] == x && t[1..] == y;
    } else {
      assert s[1..] == a[1..] + [sep] + x && t[1..] == b[1..] + [sep] + y;
      CutOnce(a[1..], b[1..], x, y, sep);
    }
  }

  const UNIT_SEPARATOR := '\U{1f}'

  lemma ContentKeyTells(c: Codec, kind: string, body: string, otherKind: string, otherBody: string)
    requires NoCollision(c) && UNIT_SEPARATOR !in kind && UNIT_SEPARATOR !in otherKind
    requires ContentIdemKey(c, kind, body) == ContentIdemKey(c, otherKind, otherBody)
    ensures kind == otherKind && body == otherBody
  {
    var head, tail := "trouble.hub.idem.v1\U{1f}", "\U{1e}";
    var x, y := head + kind + "\U{1f}" + body + tail, head + otherKind + "\U{1f}" + otherBody + tail;
    assert ContentIdemKey(c, kind, body)[|"content:sha256v1:"|..] == c.digest16(x);
    assert ContentIdemKey(c, otherKind, otherBody)[|"content:sha256v1:"|..] == c.digest16(y);
    assert x[|head|..] == kind + [UNIT_SEPARATOR] + (body + tail);
    assert y[|head|..] == otherKind + [UNIT_SEPARATOR] + (otherBody + tail);
    CutOnce(kind, otherKind, body + tail, otherBody + tail, UNIT_SEPARATOR);
    assert (body + tail)[..|body + tail| - 1] == body && (otherBody + tail)[..|otherBody + tail| - 1] == otherBody;
  }

  /** Drafts of one key are of one kind and of one content. */
  lemma DoorKeyTellsContent(c: Codec, d: Draft, e: Draft, host: string)
    requires Sound(c) && NoCollision(c) && UNIT_SEPARATOR !in d.kind && UNIT_SEPARATOR !in e.kind
    requires DoorKey(c, d, host).Some? && DoorKey(c, d, host) == DoorKey(c, e, host)
    ensures d.kind == e.kind && c.canonical(d.payload) == c.canonical(e.payload)
  {
    DoorKeyContent(c, d, if host == "" then d.origin.host else host);
    DoorKeyContent(c, e, if host == "" then e.origin.host else host);
    ContentKeyTells(c, d.kind, c.canonical(d.payload).value, e.kind, c.canonical(e.payload).value);
  }

  /** At a daemon that knows its host two drafts have one key exactly when they are of one
      kind and one content, and of one sig or both without one that scopes. */
  lemma DoorKeyTellsExactly(c: Codec, d: Draft, e: Draft, host: string)
    requires Sound(c) && NoCollision(c) && UNIT_SEPARATOR !in d.kind && UNIT_SEPARATOR !in e.kind
    requires host != "" && '|' !in d.sig && '|' !in e.sig && DoorKey(c, d, host).Some?
    ensures DoorKey(c, d, host) == DoorKey(c, e, host) <==>
      && d.kind == e.kind && c.canonical(d.payload) == c.canonical(e.payload)
      && (d.sig == e.sig || (IdemKeyForSig(c, d.sig, host).None? && IdemKeyForSig(c, e.sig, host).None?))
  {
    if DoorKey(c, d, host) == DoorKey(c, e, host) {
      DoorKeyTellsContent(c, d, e, host);
      SigTells(c, d.sig, e.sig, d.kind, host, ContentIdemKey(c, d.kind, c.canonical(d.payload).value));
    }
  }

  lemma SigTells(c: Codec, a: string, b: string, kind: string, host: string, content: string)
    requires '|' !in a && '|' !in b && Scoped(c, a, kind, host, content) == Scoped(c, b, kind, host, content)
    ensures a == b || (IdemKeyForSig(c, a, host).None? && IdemKeyForSig(c, b, host).None?)
  {
    var x, y := IdemKeyForSig(c, a, host), IdemKeyForSig(c, b, host);
    var tail := "|" + kind + "|" + content;
    if x.Some? && y.Some? {
      ScopeSplits(c, a, host, tail);
      ScopeSplits(c, b, host, tail);
      assert Scoped(c, a, kind, host, content) == x.value + tail && Scoped(c, b, kind, host, content) == y.value + tail;
      var na, nb := x.value[|a| + 1..] + tail, y.value[|b| + 1..] + tail;
      CutOnce(a, b, na, nb, '|');
    }
  }

  /** And a draft has the same key at two hosts exactly when its sig does not scope it. */
  lemma HostsAreApart(c: Codec, d: Draft, a: string, b: string)
    requires Sound(c) && a != "" && b != "" && a != b && '|' !in a && '|' !in b && DoorKey(c, d, a).Some?
    ensures DoorKey(c, d, a) == DoorKey(c, d, b) <==> IdemKeyForSig(c, d.sig, a).None?
  {
    if IdemKeyForSig(c, d.sig, a).Some? && DoorKey(c, d, a) == DoorKey(c, d, b) {
      var n := c.normVersion(d.sig).value;
      var head := d.sig + "|" + Itoa(if n == 0 then 1 else n) + "|";
      var tail := d.kind + "|" + ContentIdemKey(c, d.kind, c.canonical(d.payload).value);
      HostSplits(c, d, a, head, tail);
      HostSplits(c, d, b, head, tail);
      CutOnce(a, b, tail, tail, '|');
    }
  }

  lemma HostSplits(c: Codec, d: Draft, host: string, head: string, tail: string)
    requires host != "" && DoorKey(c, d, host).Some? && IdemKeyForSig(c, d.sig, host).Some?
    requires var n := c.normVersion(d.sig).value; head == d.sig + "|" + Itoa(if n == 0 then 1 else n) + "|"
    requires tail == d.kind + "|" + ContentIdemKey(c, d.kind, c.canonical(d.payload).value)
    ensures |DoorKey(c, d, host).value| >= |head| && DoorKey(c, d, host).value[|head|..] == host + ['|'] + tail
  {
    assert DoorKey(c, d, host).value == head + (host + ['|'] + tail);
  }

  lemma ScopeSplits(c: Codec, sig: string, host: string, tail: string)
    requires IdemKeyForSig(c, sig, host).Some?
    ensures var scope := IdemKeyForSig(c, sig, host).value;
      |scope| > |sig| && scope + tail == sig + ['|'] + (scope[|sig| + 1..] + tail)
  {
  }

  lemma LandedPayload(c: Codec, d: Draft, daemonHost: string, key: string, localId: string, recId: string)
    requires Sound(c) && key != ""
    ensures var r := Landed(c, d, daemonHost, key, localId, recId);
      && r.payload.Some? && IDEM_DIGEST in r.payload.value
      && r.payload.value[IDEM_DIGEST] == Text(ContentComponent(key))
      && r.sig == d.sig && r.kind == d.kind
      && r.origin.host == (if d.origin.host != "" then d.origin.host
                           else if daemonHost != "" then daemonHost else "unknown-host")
      && r.inc == d.inc && (d.origin.source != "" ==> r.origin.source == d.origin.source)
      && (d.actor.kind != "" && d.actor.id != "" ==> r.actor == d.actor)
      && (d.payload.Some? ==> forall k :: k in d.payload.value && k != IDEM_DIGEST ==>
            k in r.payload.value && r.payload.value[k] == c.wire(d.payload.value[k]))
      && (forall k :: k in r.payload.value ==> k == IDEM_DIGEST || k == LOCAL_REC_ID || (d.payload.Some? && k in d.payload.value))
  {
  }

  /** The exact condition under which the claim read back from the ledger is the
      claim the door took: some host id is known, or the key is not host-scoped. The
      daemon writes `unknown-host` into a record that names no host, so a scoped claim
      taken with no host at all is read back as another key. */
  lemma ClaimRoundTrip(c: Codec, d: Draft, daemonHost: string, localId: string, recId: string)
    requires Sound(c) && DoorKey(c, d, daemonHost).Some?
    ensures var key := DoorKey(c, d, daemonHost).value;
            var back := IdemKeyForRecord(c, Landed(c, d, daemonHost, key, localId, recId), daemonHost);
            && back.Some?
            && (back == Some(key)
                <==> daemonHost != "" || d.origin.host != "" || IdemKeyForSig(c, d.sig, "").None?)
  {
    var host := if daemonHost == "" then d.origin.host else daemonHost;
    var key := DoorKey(c, d, daemonHost).value;
    var content := ContentIdemKey(c, d.kind, c.canonical(d.payload).value);
    DoorKeyContent(c, d, host);
    LandedPayload(c, d, daemonHost, key, localId, recId);
    var r := Landed(c, d, daemonHost, key, localId, recId);
    var back := IdemKeyForRecord(c, r, daemonHost).value;
    if daemonHost == "" && d.origin.host == "" && IdemKeyForSig(c, d.sig, "").Some? {
      var a := IdemKeyForSig(c, d.sig, "").value;
      var b := IdemKeyForSig(c, d.sig, "unknown-host").value;
      assert key == a + "|" + d.kind + "|" + content;
      assert back == b + "|" + d.kind + "|" + content;
      assert |b| == |a| + 12;
      assert |key| != |back|;
    }
  }

  /** A daemon that knows its host mints a record whose claim is the key it claimed. */
  lemma NamedHostRoundTrip(c: Codec, d: Draft, daemonHost: string, localId: string, recId: string)
    requires Sound(c) && daemonHost != "" && DoorKey(c, d, daemonHost).Some?
    ensures var key := DoorKey(c, d, daemonHost).value;
            IdemKeyForRecord(c, Landed(c, d, daemonHost, key, localId, recId), daemonHost) == Some(key)
  {
    ClaimRoundTrip(c, d, daemonHost, localId, recId);
  }

  // ---- the rewarm index ----

  /** The claims a run of ledger records carries, in ledger order. */
  function ClaimsOf(c: Codec, recs: seq<Record>, daemonHost: string): seq<string> {
    if recs == [] then []
    else
      var front := ClaimsOf(c, recs[..|recs| - 1], daemonHost);
      match IdemKeyForRecord(c, recs[|recs| - 1], daemonHost)
      case Some(k) => front + [k]
      case None => front
  }

  /** The last `limit` records of a ledger. */
  function Tail(ledger: seq<Record>, limit: nat): seq<Record> {
    if |ledger| > limit then ledger[|ledger| - limit..] else ledger
  }

  lemma {:induction false} ClaimsOfMembers(c: Codec, recs: seq<Record>, daemonHost: string)
    ensures |ClaimsOf(c, recs, daemonHost)| <= |recs|
    ensures forall k :: (k in ClaimsOf(c, recs, daemonHost)
                         <==> exists r :: r in recs && IdemKeyForRecord(c, r, daemonHost) == Some(k))
  {
    if recs != [] {
      var front, last := recs[..|recs| - 1], recs[|recs| - 1];
      ClaimsOfMembers(c, front, daemonHost);
      assert recs == front + [last];
      assert forall r :: r in recs <==> r in front || r == last;
    }
  }

  /** The bounded walk of the ledger's tail: it stops early after `limit` keys, and
      yet returns every claim of the last `limit` records, in order. */
  method LedgerIdemKeys(c: Codec, ledger: seq<Record>, daemonHost: string, limit: int) returns (keys: seq<string>)
    ensures limit <= 0 ==> keys == []
    ensures limit > 0 ==> keys == ClaimsOf(c, Tail(ledger, limit), daemonHost) && |keys| <= limit
  {
    keys := [];
    if limit <= 0 {
      return;
    }
    var from := 1;
    if |ledger| > limit {
      from := |ledger| - limit + 1;
    }
    assert ledger[from - 1..] == Tail(ledger, limit);
    keys := ScanFrom(c, ledger, daemonHost, from, limit);
  }

  /** The ledger's ordered scan with the index's yield function. */
  method ScanFrom(c: Codec, ledger: seq<Record>, daemonHost: string, from: nat, limit: nat)
    returns (keys: seq<string>)
    requires 1 <= from <= |ledger| + 1 && |ledger| - (from - 1) <= limit
    ensures keys == ClaimsOf(c, ledger[from - 1..], daemonHost) && |keys| <= limit
  {
    keys := [];
    ghost var tail := ledger[from - 1..];
    var n := 0;
    while from - 1 + n < |ledger|
      invariant n <= |tail|
      invariant keys == ClaimsOf(c, tail[..n], daemonHost)
      invariant |keys| <= n
    {
      var key := IdemKeyForRecord(c, ledger[from - 1 + n], daemonHost);
      ClaimsOfStep(c, tail, n, daemonHost);
      n := n + 1;
      if key.Some? {
        keys := keys + [key.value];
        if |keys| >= limit {
          break;
        }
      }
    }
    assert tail[..n] == tail;
  }

  lemma ClaimsOfStep(c: Codec, recs: seq<Record>, n: nat, daemonHost: string)
    requires n < |recs|
    ensures ClaimsOf(c, recs[..n + 1], daemonHost)
      == ClaimsOf(c, recs[..n], daemonHost)
         + (match IdemKeyForRecord(c, recs[n], daemonHost) case Some(k) => [k] case None => [])
  {
    assert recs[..n + 1][..n] == recs[..n];
  }
}
