/** Task ids (internal/flow/boardjsonl.go): base-32 suffixes that only ever grow. */
module TaskIds {
  import opened Basics

  /** The place of a character in Crockford's alphabet, which is the digits and the
      capitals without I, L, O and U; -1 outside it. */
  function Digit(c: char): int {
    if '0' <= c <= '9' then c as int - '0' as int
    else if 'A' <= c <= 'H' then c as int - 'A' as int + 10
    else if 'J' <= c <= 'K' then c as int - 'J' as int + 18
    else if 'M' <= c <= 'N' then c as int - 'M' as int + 20
    else if 'P' <= c <= 'T' then c as int - 'P' as int + 22
    else if 'V' <= c <= 'Z' then c as int - 'V' as int + 27
    else -1
  }

  /** The character of a digit. */
  function Glyph(d: int): (c: char)
    requires 0 <= d < 32
    ensures Digit(c) == d
  {
    if d < 10 then ('0' as int + d) as char
    else if d < 18 then ('A' as int + d - 10) as char
    else if d < 20 then ('J' as int + d - 18) as char
    else if d < 22 then ('M' as int + d - 20) as char
    else if d < 27 then ('P' as int + d - 22) as char
    else ('V' as int + d - 27) as char
  }

  predicate Valid(s: string) { forall i :: 0 <= i < |s| ==> Digit(s[i]) >= 0 }

  function Pow32(n: nat): (p: nat)
    ensures p > 0
  { if n == 0 then 1 else 32 * Pow32(n - 1) }

  function Value(s: string): nat
    requires Valid(s)
  {
    if s == [] then 0 else Value(s[..|s| - 1]) * 32 + Digit(s[|s| - 1])
  }

  /** Lexicographic order, as the strings compare. */
  predicate Less(a: string, b: string) {
    if b == [] then false
    else if a == [] then true
    else if a[0] != b[0] then a[0] < b[0]
    else Less(a[1..], b[1..])
  }

  // ---- the increment ----

  /** Increment from the right; nothing when the carry meets a character outside the
      alphabet. */
  function Carried(s: string): Option<string> {
    if s == [] then Some([])
    else
      var front, d := s[..|s| - 1], Digit(s[|s| - 1]);
      if d < 0 then None
      else if d < 31 then Some(front + [Glyph(d + 1)])
      else match Carried(front)
        case None => None
        case Some(t) => Some(t + ['0'])
  }

  function Bumped(s: string): string { match Carried(s) case None => s case Some(t) => t }

  lemma CarriedAt(s: string, i: nat)
    requires i < |s|
    ensures s[..i + 1][i] == s[i]
    ensures Carried(s[..i + 1]) ==
      if Digit(s[i]) < 0 then None
      else if Digit(s[i]) < 31 then Some(s[..i] + [Glyph(Digit(s[i]) + 1)])
      else match Carried(s[..i]) case None => None case Some(t) => Some(t + ['0'])
  {
    assert s[..i + 1][..i] == s[..i];
  }

  function Joined(c: Option<string>, tail: string): Option<string> {
    match c case None => None case Some(t) => Some(t + tail)
  }

  /** What the carry out of position `i` leaves to its left. */
  lemma CarryStep(s: string, i: nat, tail: string)
    requires i < |s| && Digit(s[i]) == 31
    ensures Joined(Carried(s[..i + 1]), tail) == Joined(Carried(s[..i]), ['0'] + tail)
  {
    CarriedAt(s, i);
    if Carried(s[..i]).Some? {
      var t := Carried(s[..i]).value;
      assert (t + ['0']) + tail == t + (['0'] + tail);
    }
  }

  lemma CarryStarts(s: string)
    ensures Joined(Carried(s[..|s|]), []) == Carried(s)
  {
    assert s[..|s|] == s;
    if Carried(s).Some? { assert Carried(s).value + [] == Carried(s).value; }
  }

  method BumpUlid(s: string) returns (t: string)
    ensures t == Bumped(s)
  {
    if s == "" { return s; }
    var b := new char[|s|](i requires 0 <= i < |s| => s[i]);
    var i := |s| - 1;
    CarryStarts(s);
    ghost var tail := [];
    while i >= 0
      invariant -1 <= i < |s| && |tail| == |s| - 1 - i
      invariant b[..] == s[..i + 1] + tail
      invariant Carried(s) == Joined(Carried(s[..i + 1]), tail)
    {
      assert b[..][i] == s[i];
      var idx := Digit(b[i]);
      CarriedAt(s, i);
      if idx < 0 { return s; }
      if idx < 31 {
        b[i] := Glyph(idx + 1);
        assert b[..] == s[..i] + [Glyph(idx + 1)] + tail;
        return b[..];
      }
      CarryStep(s, i, tail);
      b[i] := Glyph(0);
      tail := ['0'] + tail;
      assert b[..] == s[..i] + tail;
      i := i - 1;
    }
    t := b[..];
    assert t == tail;
  }

  lemma {:induction false} ValueBound(s: string)
    requires Valid(s)
    ensures Value(s) < Pow32(|s|)
  {
    if s != [] { ValueBound(s[..|s| - 1]); }
  }

  /** On the alphabet the increment adds one, modulo 32 to the length. */
  lemma {:induction false} BumpIsIncrement(s: string)
    requires Valid(s)
    ensures var t := Bumped(s);
      Valid(t) && |t| == |s| && Value(t) == (Value(s) + 1) % Pow32(|s|)
  {
    CarryIsIncrement(s);
    ValueBound(s);
    var t := Bumped(s);
    SmallMod(Value(s) + 1, Pow32(|s|));
  }

  /** While it does not overflow, the increment is the next number. */
  lemma BumpIsNext(s: string)
    requires Valid(s) && Value(s) + 1 < Pow32(|s|)
    ensures Valid(Bumped(s)) && |Bumped(s)| == |s| && Value(Bumped(s)) == Value(s) + 1
  {
    CarryIsIncrement(s);
  }

  lemma SmallMod(a: nat, n: nat)
    requires n > 0 && a <= n
    ensures a % n == if a < n then a else 0
  {
  }

  lemma {:induction false} CarryIsIncrement(s: string)
    requires Valid(s)
    ensures Carried(s).Some?
    ensures var t := Carried(s).value;
      Valid(t) && |t| == |s| && Value(t) == if Value(s) + 1 < Pow32(|s|) then Value(s) + 1 else 0
  {
    if s != [] {
      var front, c := s[..|s| - 1], s[|s| - 1];
      ValueBound(front);
      if Digit(c) < 31 {
        ValueAppend(front, Glyph(Digit(c) + 1));
      } else {
        CarryIsIncrement(front);
        ValueAppend(Carried(front).value, '0');
      }
    }
  }

  // ---- the order ----

  lemma DigitOrder(a: char, b: char)
    requires Digit(a) >= 0 && Digit(b) >= 0
    ensures (a < b <==> Digit(a) < Digit(b)) && (a == b <==> Digit(a) == Digit(b)) && Digit(a) < 32
  {
  }

  lemma {:induction false} ValueFront(c: char, s: string)
    requires Digit(c) >= 0 && Valid(s)
    ensures Valid([c] + s) && Value([c] + s) == Digit(c) * Pow32(|s|) + Value(s)
  {
    if s == [] {
      assert [c] + s == [] + [c];
      ValueAppend([], c);
    } else {
      var front := s[..|s| - 1];
      ValueFront(c, front);
      ValueAppend([c] + front, s[|s| - 1]);
      assert ([c] + front) + [s[|s| - 1]] == [c] + s;
      Distribute(Digit(c), Pow32(|front|), Value(front));
    }
  }

  lemma ValueAppend(s: string, c: char)
    requires Valid(s) && Digit(c) >= 0
    ensures Valid(s + [c]) && Value(s + [c]) == Value(s) * 32 + Digit(c)
  {
    assert (s + [c])[..|s|] == s;
  }

  lemma Distribute(d: int, p: int, v: int)
    ensures (d * p + v) * 32 == d * (32 * p) + v * 32
  {
  }

  /** Among suffixes of one length the string order is the order of the numbers. */
  lemma {:induction false} OrderIsValue(a: string, b: string)
    requires Valid(a) && Valid(b) && |a| == |b|
    ensures Less(a, b) <==> Value(a) < Value(b)
  {
    if a != [] {
      var x, y := a[1..], b[1..];
      assert a == [a[0]] + x && b == [b[0]] + y;
      ValueFront(a[0], x);
      ValueFront(b[0], y);
      ValueBound(x);
      ValueBound(y);
      DigitOrder(a[0], b[0]);
      OrderIsValue(x, y);
      Digits(Digit(a[0]), Value(x), Digit(b[0]), Value(y), Pow32(|x|));
    }
  }

  lemma Digits(d: int, x: int, e: int, y: int, p: int)
    requires 0 <= x < p && 0 <= y < p
    ensures d < e ==> d * p + x < e * p + y
    ensures d > e ==> d * p + x > e * p + y
  {
    if d < e { assert (d + 1) * p <= e * p; }
    if d > e { assert (e + 1) * p <= d * p; }
  }

  lemma {:induction false} LessTotal(a: string, b: string)
    ensures (Less(a, b) ==> !Less(b, a) && a != b) && (!Less(a, b) && !Less(b, a) ==> a == b)
  {
    if a != [] && b != [] && a[0] == b[0] {
      LessTotal(a[1..], b[1..]);
      assert a == [a[0]] + a[1..] && b == [b[0]] + b[1..];
    }
  }

  lemma {:induction false} LessChain(a: string, b: string, c: string)
    requires !Less(b, a) && Less(b, c)
    ensures Less(a, c)
  {
    if a != [] && b != [] && a[0] == b[0] && c[0] == b[0] { LessChain(a[1..], b[1..], c[1..]); }
  }

  lemma {:induction false} LessAfter(p: string, a: string, b: string)
    ensures Less(p + a, p + b) <==> Less(a, b)
  {
    if p == [] {
      assert p + a == a && p + b == b;
    } else {
      assert (p + a)[1..] == p[1..] + a && (p + b)[1..] == p[1..] + b;
      LessAfter(p[1..], a, b);
    }
  }

  /** Behind its trailing Zs the suffix has a character of the alphabet. */
  predicate Bumpable(s: string) {
    s != [] && (if s[|s| - 1] == 'Z' then Bumpable(s[..|s| - 1]) else Digit(s[|s| - 1]) >= 0)
  }

  /** For any string at all, the increment is greater exactly when it is bumpable: an all-Z
      suffix wraps round, and one whose carry meets a foreign character stays as it is. */
  lemma {:induction false} BumpGrowsExactly(s: string)
    ensures Less(s, Bumped(s)) <==> Bumpable(s)
  {
    CarryGrowsExactly(s);
    LessTotal(s, s);
  }

  lemma {:induction false} CarryGrowsExactly(s: string)
    ensures Carried(s).Some? ==> |Carried(s).value| == |s| && (Less(s, Carried(s).value) <==> Bumpable(s))
    ensures Carried(s).None? ==> !Bumpable(s)
  {
    if s != [] {
      var front, c := s[..|s| - 1], s[|s| - 1];
      assert s == front + [c];
      var d := Digit(c);
      if 0 <= d < 31 {
        LessAfter(front, [c], [Glyph(d + 1)]);
        DigitOrder(c, Glyph(d + 1));
      } else if d == 31 {
        CarryGrowsExactly(front);
        if Carried(front).Some? { LessPrefix(front, Carried(front).value, c, '0'); }
      }
    }
  }

  lemma {:induction false} LessPrefix(a: string, b: string, x: char, y: char)
    requires |a| == |b| && x > y
    ensures Less(a + [x], b + [y]) <==> Less(a, b)
  {
    if a == [] {
      assert a + [x] == [x] && b + [y] == [y];
    } else {
      assert (a + [x])[1..] == a[1..] + [x] && (b + [y])[1..] == b[1..] + [y];
      LessPrefix(a[1..], b[1..], x, y);
    }
  }
}
