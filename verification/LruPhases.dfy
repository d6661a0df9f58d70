/** The bounded phase memory of the dedup gate (internal/hub/dedup.go).

    `Stored`, `Touched` and `Without` on sequences are the reference: a recency sequence,
    most recent first. The class keeps what the program keeps, a key index into a
    list of entries whose phase is overwritten in place, and is proved to move the
    recency sequence exactly as the reference says. */
module LruPhases {
  import opened Basics

  datatype Phase = Enqueued | Appended

  datatype Cell = Cell(key: string, phase: Phase)

  predicate Distinct(s: seq<Cell>) {
    forall i, j :: 0 <= i < j < |s| ==> s[i].key != s[j].key
  }

  /** The memory holds `k` in phase `appended`. */
  predicate Marked(s: seq<Cell>, k: string) { Cell(k, Appended) in s }

  predicate Has(s: seq<Cell>, k: string) { Cell(k, Appended) in s || Cell(k, Enqueued) in s }

  function Join(a: Phase, b: Phase): Phase {
    if a.Appended? || b.Appended? then Appended else Enqueued
  }

  function PhaseOf(s: seq<Cell>, k: string): Phase
    requires Has(s, k)
  { if Marked(s, k) then Appended else Enqueued }

  function Without(s: seq<Cell>, k: string): seq<Cell> {
    if s == [] then []
    else if s[0].key == k then Without(s[1..], k)
    else [s[0]] + Without(s[1..], k)
  }

  function Clip(s: seq<Cell>, cap: nat): seq<Cell> {
    if |s| <= cap then s else s[..cap]
  }

  function Stored(s: seq<Cell>, cap: nat, k: string, phase: Phase): seq<Cell> {
    if Has(s, k) then [Cell(k, Join(PhaseOf(s, k), phase))] + Without(s, k)
    else Clip([Cell(k, phase)] + s, cap)
  }

  function Touched(s: seq<Cell>, k: string): seq<Cell> {
    if Has(s, k) then [Cell(k, PhaseOf(s, k))] + Without(s, k) else s
  }

  function StoredAll(s: seq<Cell>, cap: nat, keys: seq<string>): seq<Cell>
    decreases |keys|
  {
    if keys == [] then s
    else if keys[0] == "" then StoredAll(s, cap, keys[1..])
    else StoredAll(Stored(s, cap, keys[0], Appended), cap, keys[1..])
  }

  // ---- facts about the reference ----

  lemma {:induction false} WithoutMembers(s: seq<Cell>, k: string)
    ensures forall c :: c in Without(s, k) <==> c in s && c.key != k
    ensures |Without(s, k)| <= |s|
    ensures Has(s, k) ==> |Without(s, k)| < |s|
    ensures Distinct(s) ==> Distinct(Without(s, k))
  {
    if s != [] {
      WithoutMembers(s[1..], k);
      assert s == [s[0]] + s[1..];
      if Distinct(s) {
        assert Distinct(s[1..]);
        var w := Without(s[1..], k);
        forall i | 0 <= i < |w| ensures s[0].key != w[i].key {
          assert w[i] in s[1..];
        }
      }
    }
  }

  lemma NotHeld(s: seq<Cell>, k: string, c: Cell)
    requires !Has(s, k) && c in s
    ensures c.key != k
  {
    match c.phase
    case Appended => assert c == Cell(c.key, Appended);
    case Enqueued => assert c == Cell(c.key, Enqueued);
  }

  lemma {:induction false} WithoutNothing(s: seq<Cell>, k: string)
    requires !Has(s, k)
    ensures Without(s, k) == s
  {
    if s != [] {
      NotHeld(s, k, s[0]);
      assert forall c :: c in s[1..] ==> c in s;
      WithoutNothing(s[1..], k);
    }
  }

  /** Everything one store does to the recency sequence: the key comes first, the
      bound holds, only the least recent key can leave, and a phase never goes back
      from `appended` to `enqueued`. */
  lemma StoredFacts(s: seq<Cell>, cap: nat, k: string, phase: Phase)
    requires Distinct(s) && |s| <= cap && cap >= 1
    ensures var t := Stored(s, cap, k, phase);
      && Distinct(t) && 1 <= |t| <= cap && t[0].key == k
      && (forall c :: c in t && c.key != k ==> c in s)
      && (forall c :: c in s && c.key != k && c !in t ==> !Has(s, k) && |s| == cap && c == s[|s| - 1])
      && (Marked(t, k) <==> Marked(s, k) || phase.Appended?)
      && Has(t, k)
  {
    if Has(s, k) { StoredHeld(s, cap, k, phase); } else { StoredNew(s, cap, k, phase); }
  }

  lemma StoredHeld(s: seq<Cell>, cap: nat, k: string, phase: Phase)
    requires Distinct(s) && |s| <= cap && Has(s, k)
    ensures var t := Stored(s, cap, k, phase);
      && Distinct(t) && 1 <= |t| <= cap && t[0] == Cell(k, Join(PhaseOf(s, k), phase))
      && (forall c :: c in t && c.key == k ==> c == t[0])
      && (forall c: Cell :: c.key != k ==> (c in t <==> c in s))
  {
    WithoutMembers(s, k);
    var w := Without(s, k);
    var t := Stored(s, cap, k, phase);
    assert forall c :: c in t <==> c == t[0] || c in w;
    forall i | 0 <= i < |w| ensures w[i].key != k { assert w[i] in w; }
  }

  lemma StoredNew(s: seq<Cell>, cap: nat, k: string, phase: Phase)
    requires Distinct(s) && |s| <= cap && cap >= 1 && !Has(s, k)
    ensures var t := Stored(s, cap, k, phase);
      && Distinct(t) && 1 <= |t| <= cap && t[0] == Cell(k, phase)
      && (forall c :: c in t && c.key == k ==> c == t[0])
      && (forall c :: c in t && c.key != k ==> c in s)
      && (forall c :: c in s && c !in t ==> |s| == cap && c == s[|s| - 1])
  {
    var t := Stored(s, cap, k, phase);
    StoredNewShape(s, cap, k, phase);
    forall i | 0 <= i < |s| ensures s[i].key != k { NotHeld(s, k, s[i]); }
    assert forall i :: 0 <= i < |t| - 1 ==> t[i + 1] == s[i];
    forall i | 1 <= i < |t| ensures t[i] in s && t[i].key != k { assert t[i] == s[i - 1]; }
    forall c | c in s && c !in t ensures |s| == cap && c == s[|s| - 1] {
      var i :| 0 <= i < |s| && s[i] == c;
      assert i + 1 >= |t|;
    }
  }

  /** A new key comes before as many of the others as still fit. */
  lemma StoredNewShape(s: seq<Cell>, cap: nat, k: string, phase: Phase)
    requires !Has(s, k) && cap >= 1
    ensures Stored(s, cap, k, phase) == [Cell(k, phase)] + Clip(s, cap - 1)
  {
    assert ([Cell(k, phase)] + s)[1..] == s;
  }

  lemma TouchedFacts(s: seq<Cell>, k: string)
    requires Distinct(s)
    ensures var t := Touched(s, k);
      && Distinct(t) && |t| <= |s|
      && (forall c :: c in t <==> c in s)
  {
    WithoutMembers(s, k);
    if Has(s, k) {
      var w, first := Without(s, k), Cell(k, PhaseOf(s, k));
      assert first in s;
      FrontOf(s, w, first);
    }
  }

  /** A key's one cell put before all the others. */
  lemma FrontOf(s: seq<Cell>, w: seq<Cell>, first: Cell)
    requires Distinct(s) && Distinct(w) && first in s && forall c :: c in w <==> c in s && c.key != first.key
    ensures Distinct([first] + w) && forall c :: c in [first] + w <==> c in s
  {
    forall i | 0 <= i < |w| ensures w[i].key != first.key { assert w[i] in w; }
    forall c ensures c in [first] + w <==> c in s {
      if c in s && c.key == first.key { OneCell(s, c, first); }
    }
  }

  lemma OneCell(s: seq<Cell>, a: Cell, b: Cell)
    requires Distinct(s) && a in s && b in s && a.key == b.key
    ensures a == b
  {
    var i :| 0 <= i < |s| && s[i] == a;
    var j :| 0 <= j < |s| && s[j] == b;
    assert i == j;
  }

  lemma UniquePhase(s: seq<Cell>, k: string)
    requires Distinct(s)
    ensures !(Cell(k, Appended) in s && Cell(k, Enqueued) in s)
  {
  }

  function KeysOf(s: seq<Cell>): seq<string> {
    seq(|s|, i requires 0 <= i < |s| => s[i].key)
  }

  predicate DistinctKeys(ks: seq<string>) {
    forall i, j :: 0 <= i < j < |ks| ==> ks[i] != ks[j]
  }

  function WithoutKey(ks: seq<string>, k: string): seq<string> {
    if ks == [] then []
    else if ks[0] == k then WithoutKey(ks[1..], k)
    else [ks[0]] + WithoutKey(ks[1..], k)
  }

  function First(ks: seq<string>, n: nat): seq<string> { if |ks| <= n then ks else ks[..n] }

  /** The keys of a history of stores, the one stored last first. */
  function Recent(history: seq<Cell>): seq<string> {
    if history == [] then []
    else
      var last := history[|history| - 1].key;
      [last] + WithoutKey(Recent(history[..|history| - 1]), last)
  }

  function StoredRun(cap: nat, history: seq<Cell>): seq<Cell> {
    if history == [] then []
    else
      var last := history[|history| - 1];
      Stored(StoredRun(cap, history[..|history| - 1]), cap, last.key, last.phase)
  }

  /** A key that is looked up becomes the most recent, and the others keep their order. */
  lemma TouchedIsRecent(s: seq<Cell>, k: string)
    ensures KeysOf(Touched(s, k)) == if Has(s, k) then [k] + WithoutKey(KeysOf(s), k) else KeysOf(s)
  {
    if Has(s, k) {
      KeysOfWithout(s, k);
      var w := Without(s, k);
      assert KeysOf([Cell(k, PhaseOf(s, k))] + w) == [k] + KeysOf(w);
    }
  }

  lemma {:induction false} KeysOfWithout(s: seq<Cell>, k: string)
    ensures KeysOf(Without(s, k)) == WithoutKey(KeysOf(s), k)
  {
    if s != [] {
      KeysOfWithout(s[1..], k);
      assert KeysOf(s)[1..] == KeysOf(s[1..]);
      if s[0].key != k { KeysOfCons(s[0], Without(s[1..], k)); }
    }
  }

  lemma {:induction false} WithoutKeyShort(ks: seq<string>, k: string)
    ensures |WithoutKey(ks, k)| <= |ks|
    ensures |WithoutKey(ks, k)| == |ks| ==> WithoutKey(ks, k) == ks
    ensures k in ks ==> |WithoutKey(ks, k)| < |ks|
    ensures forall x :: x in WithoutKey(ks, k) ==> x in ks && x != k
  {
    if ks != [] { WithoutKeyShort(ks[1..], k); }
  }

  lemma {:induction false} WithoutKeyFirst(ks: seq<string>, k: string, n: nat)
    requires n >= 1 && DistinctKeys(ks)
    ensures First([k] + WithoutKey(First(ks, n), k), n) == First([k] + WithoutKey(ks, k), n)
  {
    if |ks| > n {
      if n == 1 {
      } else if ks[0] == k {
        KeyGone(ks[1..], k);
        assert First(ks, n)[1..] == ks[1..][..n - 1];
        KeyGone(ks[1..][..n - 1], k);
      } else {
        WithoutKeyFirst(ks[1..], k, n - 1);
        assert First(ks, n)[1..] == First(ks[1..], n - 1);
        var a, b := WithoutKey(First(ks[1..], n - 1), k), WithoutKey(ks[1..], k);
        FirstSwap(k, ks[0], a, b, n);
      }
    }
  }

  lemma FirstSwap(k: string, h: string, a: seq<string>, b: seq<string>, n: nat)
    requires n >= 2 && First([k] + a, n - 1) == First([k] + b, n - 1)
    ensures First([k] + ([h] + a), n) == First([k] + ([h] + b), n)
  {
    FirstTwo(k, h, a, n);
    FirstTwo(k, h, b, n);
  }

  lemma FirstTwo(k: string, h: string, a: seq<string>, n: nat)
    requires n >= 2
    ensures First(a, n - 2) == First([k] + a, n - 1)[1..]
    ensures First([k] + ([h] + a), n) == [k, h] + First(a, n - 2)
  {
  }

  lemma {:induction false} KeyGone(ks: seq<string>, k: string)
    requires k !in ks
    ensures WithoutKey(ks, k) == ks
  {
    if ks != [] { KeyGone(ks[1..], k); }
  }

  lemma {:induction false} RecentDistinct(history: seq<Cell>)
    ensures DistinctKeys(Recent(history))
  {
    if history != [] {
      var rest := Recent(history[..|history| - 1]);
      var last := history[|history| - 1].key;
      RecentDistinct(history[..|history| - 1]);
      WithoutKeyDistinct(rest, last);
      WithoutKeyShort(rest, last);
      var w := WithoutKey(rest, last);
      forall i | 0 <= i < |w| ensures w[i] != last { assert w[i] in w; }
      assert Recent(history) == [last] + w;
    }
  }

  lemma {:induction false} WithoutKeyDistinct(ks: seq<string>, k: string)
    requires DistinctKeys(ks)
    ensures DistinctKeys(WithoutKey(ks, k))
  {
    if ks != [] {
      WithoutKeyDistinct(ks[1..], k);
      WithoutKeyShort(ks[1..], k);
      var w := WithoutKey(ks[1..], k);
      forall i | 0 <= i < |w| ensures w[i] != ks[0] { assert w[i] in ks[1..]; }
    }
  }

  /** After any history of stores the memory holds exactly the `cap` keys stored
      last, in that order: eviction never touches a key while an older one stays. */
  lemma {:induction false} HoldsTheMostRecent(cap: nat, history: seq<Cell>)
    requires cap >= 1
    ensures Distinct(StoredRun(cap, history)) && |StoredRun(cap, history)| <= cap
    ensures KeysOf(StoredRun(cap, history)) == First(Recent(history), cap)
  {
    if history != [] {
      var front := history[..|history| - 1];
      var last := history[|history| - 1];
      HoldsTheMostRecent(cap, front);
      RecentDistinct(front);
      var s := StoredRun(cap, front);
      StoredFacts(s, cap, last.key, last.phase);
      StoredKeys(s, cap, last);
      WithoutKeyFirst(Recent(front), last.key, cap);
    }
  }

  lemma StoredKeys(s: seq<Cell>, cap: nat, c: Cell)
    requires Distinct(s) && |s| <= cap && cap >= 1
    ensures KeysOf(Stored(s, cap, c.key, c.phase)) == First([c.key] + WithoutKey(KeysOf(s), c.key), cap)
  {
    KeysOfWithout(s, c.key);
    if Has(s, c.key) {
      StoredHeld(s, cap, c.key, c.phase);
      var head := Cell(c.key, Join(PhaseOf(s, c.key), c.phase));
      KeysOfCons(head, Without(s, c.key));
    } else {
      WithoutNothing(s, c.key);
      KeysOfCons(c, s);
      assert c == Cell(c.key, c.phase);
      var all := [c] + s;
      assert KeysOf(Clip(all, cap)) == First(KeysOf(all), cap);
    }
  }

  lemma KeysOfCons(c: Cell, s: seq<Cell>)
    ensures KeysOf([c] + s) == [c.key] + KeysOf(s)
  {
  }

  /** Restoring no more keys than there is room for evicts nothing: what was marked
      stays marked and every non-empty restored key ends up marked. */
  lemma {:induction false} StoredAllKeepsEveryKey(s: seq<Cell>, cap: nat, keys: seq<string>)
    requires Distinct(s) && |s| + |keys| <= cap && cap >= 1
    ensures var t := StoredAll(s, cap, keys);
      && Distinct(t) && |t| <= cap
      && (forall k :: Marked(s, k) ==> Marked(t, k))
      && (forall k :: k in keys && k != "" ==> Marked(t, k))
    decreases |keys|
  {
    if keys != [] {
      if keys[0] == "" {
        StoredAllKeepsEveryKey(s, cap, keys[1..]);
      } else {
        StoredFacts(s, cap, keys[0], Appended);
        WithoutMembers(s, keys[0]);
        var t := Stored(s, cap, keys[0], Appended);
        assert |t| <= |s| + 1;
        forall k | Marked(s, k) ensures Marked(t, k) {
          if k != keys[0] && Cell(k, Appended) !in t { assert false; }
        }
        StoredAllKeepsEveryKey(t, cap, keys[1..]);
      }
      assert forall k :: k in keys ==> k == keys[0] || k in keys[1..];
    }
  }

  /** Restoring marks nothing beyond the restored keys. */
  lemma {:induction false} StoredAllMarksOnly(s: seq<Cell>, cap: nat, keys: seq<string>)
    requires Distinct(s) && |s| <= cap && cap >= 1
    ensures var t := StoredAll(s, cap, keys);
      && Distinct(t) && |t| <= cap
      && (forall k :: Marked(t, k) ==> Marked(s, k) || k in keys)
      && (forall k :: Has(t, k) ==> Has(s, k) || k in keys)
    decreases |keys|
  {
    if keys != [] {
      if keys[0] == "" {
        StoredAllMarksOnly(s, cap, keys[1..]);
      } else {
        StoredFacts(s, cap, keys[0], Appended);
        StoredAllMarksOnly(Stored(s, cap, keys[0], Appended), cap, keys[1..]);
      }
      assert forall k :: k in keys[1..] ==> k in keys;
    }
  }

  // ---- the program's structure ----

  class Entry {
    const key: string
    var phase: Phase

    constructor (k: string, p: Phase)
      ensures key == k && phase == p
    { key := k; phase := p; }
  }

  function RemoveAt<T>(s: seq<T>, i: nat): seq<T>
    requires i < |s|
  { s[..i] + s[i + 1..] }

  lemma RemoveAtMembers<T>(s: seq<T>, i: nat)
    requires i < |s|
    ensures forall x :: x in s ==> x == s[i] || x in RemoveAt(s, i)
    ensures forall x :: x in RemoveAt(s, i) ==> x in s
  {
    forall x | x in s ensures x == s[i] || x in RemoveAt(s, i) {
      var n :| 0 <= n < |s| && s[n] == x;
      if n < i { assert RemoveAt(s, i)[n] == x; } else if n > i { assert RemoveAt(s, i)[n - 1] == x; }
    }
  }

  /** The index points at exactly the listed entries, one per key. */
  ghost predicate Wired(order: seq<Entry>, items: map<string, Entry>) {
    && (forall i, j :: 0 <= i < j < |order| ==> order[i].key != order[j].key)
    && (forall e :: e in order ==> e.key in items && items[e.key] == e)
    && (forall k :: k in items ==> items[k] in order && items[k].key == k)
  }

  lemma WiredFront(order: seq<Entry>, items: map<string, Entry>, i: nat)
    requires Wired(order, items) && i < |order|
    ensures Wired([order[i]] + RemoveAt(order, i), items)
    ensures forall x :: x in [order[i]] + RemoveAt(order, i) <==> x in order
  {
    RemoveAtMembers(order, i);
    var r := RemoveAt(order, i);
    forall n | 0 <= n < |r| ensures r[n].key != order[i].key {
      if n < i { assert r[n] == order[n]; } else { assert r[n] == order[n + 1]; }
    }
  }

  lemma WiredDrop(order: seq<Entry>, items: map<string, Entry>, i: nat)
    requires Wired(order, items) && i < |order|
    ensures Wired(RemoveAt(order, i), items - {order[i].key})
  {
    RemoveAtMembers(order, i);
    var r := RemoveAt(order, i);
    forall e | e in r ensures e.key != order[i].key {
      var n :| 0 <= n < |r| && r[n] == e;
      if n < i { assert r[n] == order[n]; } else { assert r[n] == order[n + 1]; }
    }
  }

  lemma WiredPush(order: seq<Entry>, items: map<string, Entry>, e: Entry)
    requires Wired(order, items) && e.key !in items
    ensures Wired([e] + order, items[e.key := e])
  {
    forall n | 0 <= n < |order| ensures order[n].key != e.key { assert order[n] in order; }
  }

  ghost function CellsOf(order: seq<Entry>): seq<Cell>
    reads order
  {
    seq(|order|, i requires 0 <= i < |order| reads order => Cell(order[i].key, order[i].phase))
  }

  /** The index and the list agree on which keys are held, and in which phase. */
  lemma IndexAgrees(order: seq<Entry>, items: map<string, Entry>, k: string)
    requires Wired(order, items)
    ensures Distinct(CellsOf(order))
    ensures k in items <==> Has(CellsOf(order), k)
    ensures k in items ==> PhaseOf(CellsOf(order), k) == items[k].phase
  {
    var v := CellsOf(order);
    forall c | c in v ensures c.key in items {
      var i :| 0 <= i < |v| && v[i] == c;
      assert order[i] in order;
    }
    if k in items {
      var i :| 0 <= i < |order| && order[i] == items[k];
      assert v[i] == Cell(k, items[k].phase) && v[i] in v;
      UniquePhase(v, k);
      match items[k].phase
      case Appended => assert Marked(v, k);
      case Enqueued => assert Has(v, k);
    }
  }

  lemma CellsRemoveAt(order: seq<Entry>, items: map<string, Entry>, i: nat)
    requires Wired(order, items) && i < |order|
    ensures CellsOf(RemoveAt(order, i)) == Without(CellsOf(order), order[i].key)
    ensures CellsOf([order[i]] + RemoveAt(order, i))
      == [Cell(order[i].key, order[i].phase)] + Without(CellsOf(order), order[i].key)
  {
    var v := CellsOf(order);
    IndexAgrees(order, items, order[i].key);
    WithoutOne(v, i);
    CellsOfRemoved(order, i);
    CellsOfPushed(order[i], RemoveAt(order, i));
  }

  lemma CellsOfRemoved(order: seq<Entry>, i: nat)
    requires i < |order|
    ensures CellsOf(RemoveAt(order, i)) == RemoveAt(CellsOf(order), i)
  {
  }

  lemma CellsOfPushed(e: Entry, rest: seq<Entry>)
    ensures CellsOf([e] + rest) == [Cell(e.key, e.phase)] + CellsOf(rest)
  {
  }

  class Memory {
    const cap: nat
    var items: map<string, Entry>
    var order: seq<Entry>

    ghost predicate Valid()
      reads this
    { 1 <= cap && |order| <= cap && Wired(order, items) }

    ghost function View(): seq<Cell>
      reads this, order
    { CellsOf(order) }

    constructor (capacity: int)
      ensures Valid() && View() == [] && order == []
      ensures cap == if capacity <= 0 then DEFAULT_CAPACITY else capacity
    {
      cap := if capacity <= 0 then DEFAULT_CAPACITY else capacity;
      items := map[];
      order := [];
    }

    method MoveToFront(e: Entry)
      requires Valid() && e in order
      modifies this`order
      ensures Valid() && forall x :: x in order <==> x in old(order)
      ensures View() == [Cell(e.key, e.phase)] + Without(old(View()), e.key)
    {
      var i :| 0 <= i < |order| && order[i] == e;
      WiredFront(order, items, i);
      CellsRemoveAt(order, items, i);
      order := [e] + RemoveAt(order, i);
    }

    method Put(key: string, phase: Phase) returns (isNew: bool)
      requires Valid()
      modifies this, order
      ensures Valid() && forall e :: e in order && e !in old(order) ==> fresh(e)
      ensures View() == Stored(old(View()), cap, key, phase)
      ensures isNew <==> !Has(old(View()), key)
    {
      IndexAgrees(order, items, key);
      if key in items {
        Upgrade(items[key], phase);
        MoveToFront(items[key]);
        return false;
      }
      Push(key, phase);
      return true;
    }

    method Upgrade(e: Entry, phase: Phase)
      requires Valid() && e in order
      modifies e
      ensures e.phase == Join(old(e.phase), phase)
      ensures Distinct(View()) && Without(View(), e.key) == Without(old(View()), e.key)
    {
      ghost var before := View();
      ghost var i :| 0 <= i < |order| && order[i] == e;
      IndexAgrees(order, items, e.key);
      if phase == Appended || e.phase == Appended {
        e.phase := Appended;
      }
      assert View() == before[i := Cell(e.key, e.phase)];
      WithoutUpdate(before, i, e.phase);
    }

    method Push(key: string, phase: Phase)
      requires Valid() && key !in items
      modifies this
      ensures Valid() && forall e :: e in order && e !in old(order) ==> fresh(e)
      ensures View() == Clip([Cell(key, phase)] + old(View()), cap)
    {
      var e := new Entry(key, phase);
      WiredPush(order, items, e);
      ghost var before := View();
      items := items[key := e];
      order := [e] + order;
      assert View() == [Cell(key, phase)] + before;
      if |order| > cap { DropLast(); }
    }

    /** Evict the least recent entry. */
    method DropLast()
      requires cap >= 1 && Wired(order, items) && |order| == cap + 1
      modifies this
      ensures Valid() && order == old(order)[..cap] && View() == old(View())[..cap]
    {
      var n := |order| - 1;
      WiredDrop(order, items, n);
      assert RemoveAt(order, n) == order[..n];
      items := items - {order[n].key};
      order := order[..n];
    }

    method Get(key: string) returns (found: Option<Phase>)
      requires Valid()
      modifies this`order
      ensures Valid() && forall e :: e in order <==> e in old(order)
      ensures View() == Touched(old(View()), key)
      ensures found == if Has(old(View()), key) then Some(PhaseOf(old(View()), key)) else None
    {
      IndexAgrees(order, items, key);
      if key !in items {
        return None;
      }
      MoveToFront(items[key]);
      return Some(items[key].phase);
    }

    method Remove(key: string)
      requires Valid()
      modifies this
      ensures Valid() && forall e :: e in order ==> e in old(order)
      ensures View() == Without(old(View()), key)
    {
      IndexAgrees(order, items, key);
      if key !in items {
        WithoutNothing(View(), key);
        return;
      }
      var i :| 0 <= i < |order| && order[i] == items[key];
      CellsRemoveAt(order, items, i);
      WiredDrop(order, items, i);
      RemoveAtMembers(order, i);
      items := items - {key};
      order := RemoveAt(order, i);
    }
  }

  /** hub.dedup_lru's default. */
  const DEFAULT_CAPACITY := 65536

  lemma {:induction false} WithoutOne(s: seq<Cell>, i: nat)
    requires Distinct(s) && i < |s|
    ensures Without(s, s[i].key) == s[..i] + s[i + 1..]
  {
    if i == 0 {
      assert forall c :: c in s[1..] ==> c.key != s[0].key;
      WithoutNothing(s[1..], s[0].key);
    } else {
      WithoutOne(s[1..], i - 1);
      assert s[..i] == [s[0]] + s[1..][..i - 1];
      assert s[i + 1..] == s[1..][i..];
    }
  }

  lemma WithoutUpdate(s: seq<Cell>, i: nat, p: Phase)
    requires Distinct(s) && i < |s|
    ensures Without(s[i := Cell(s[i].key, p)], s[i].key) == Without(s, s[i].key)
  {
    var t := s[i := Cell(s[i].key, p)];
    WithoutOne(s, i);
    WithoutOne(t, i);
    assert t[..i] == s[..i] && t[i + 1..] == s[i + 1..];
  }
}
