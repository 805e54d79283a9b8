/** The lock order.  Accounts are locked in the order of their canonical UUID strings; that
    order is the order of the 16 bytes and of the 128-bit number, so the state machine may
    use the number. */
module Uuid {
  import Serial
  import Protocol

  newtype Byte = x: int | 0 <= x < 256

  type Uuid = u: seq<Byte> | |u| == 16 witness seq(16, i => 0)

  // ---------- Lexicographic order ----------

  /** Go's < on strings: the first differing byte decides, a proper prefix is smaller. */
  predicate Less(s: seq<int>, t: seq<int>) {
    if t == [] then false
    else if s == [] then true
    else if s[0] != t[0] then s[0] < t[0]
    else Less(s[1..], t[1..])
  }

  /** On concatenations with equally long heads, the heads decide first. */
  lemma {:induction false} LessConcat(a: seq<int>, b: seq<int>, s: seq<int>, t: seq<int>)
    requires |a| == |b|
    ensures Less(a + s, b + t) <==> Less(a, b) || (a == b && Less(s, t))
  {
    if a == [] {
      assert a + s == s && b + t == t;
    } else {
      assert (a + s)[1..] == a[1..] + s && (b + t)[1..] == b[1..] + t;
      assert a == [a[0]] + a[1..] && b == [b[0]] + b[1..];
      LessConcat(a[1..], b[1..], s, t);
    }
  }

  lemma {:induction false} LessAsymmetric(s: seq<int>, t: seq<int>)
    ensures !(Less(s, t) && Less(t, s))
    ensures Less(s, t) || Less(t, s) || s == t
    ensures Less(s, t) ==> s != t
  {
    if s != [] && t != [] {
      LessAsymmetric(s[1..], t[1..]);
      assert s == [s[0]] + s[1..] && t == [t[0]] + t[1..];
    }
  }

  // ---------- Canonical text ----------

  /** The ASCII code of a lower-case hexadecimal digit. */
  function Digit(d: int): int
    requires 0 <= d < 16
  {
    if d < 10 then 48 + d else 87 + d
  }

  function Ints(bs: seq<Byte>): seq<int> {
    seq(|bs|, i requires 0 <= i < |bs| => bs[i] as int)
  }

  function Hex(bs: seq<Byte>): (r: seq<int>)
    ensures |r| == 2 * |bs|
  {
    if bs == [] then []
    else [Digit(bs[0] as int / 16), Digit(bs[0] as int % 16)] + Hex(bs[1..])
  }

  const DASH: int := 45

  /** uuid.String(): 8-4-4-4-12 hexadecimal digits. */
  function Canonical(u: Uuid): seq<int> {
    Hex(u[..4]) + ([DASH] + (Hex(u[4..6]) + ([DASH] + (Hex(u[6..8]) +
      ([DASH] + (Hex(u[8..10]) + ([DASH] + Hex(u[10..]))))))))
  }

  /** The UUID as a big-endian 128-bit number. */
  function Value(bs: seq<Byte>): nat {
    if bs == [] then 0 else 256 * Value(bs[..|bs| - 1]) + bs[|bs| - 1] as nat
  }

  // ---------- The three orders agree ----------

  lemma DigitLess(b: Byte, c: Byte)
    ensures Less([Digit(b as int / 16), Digit(b as int % 16)], [Digit(c as int / 16), Digit(c as int % 16)]) <==> b < c
    ensures [Digit(b as int / 16), Digit(b as int % 16)] == [Digit(c as int / 16), Digit(c as int % 16)] <==> b == c
  {
    var s, t := [Digit(b as int / 16), Digit(b as int % 16)], [Digit(c as int / 16), Digit(c as int % 16)];
    assert s[1..] == [s[1]] && t[1..] == [t[1]];
    assert s[1..][1..] == [] && t[1..][1..] == [];
    assert Less(s[1..], t[1..]) <==> s[1] < t[1];
    if s == t { assert s[0] == t[0] && s[1] == t[1]; }
  }

  lemma IntsCons(bs: seq<Byte>)
    requires bs != []
    ensures Ints(bs) == [bs[0] as int] + Ints(bs[1..])
    ensures Ints(bs)[1..] == Ints(bs[1..])
  {
  }

  lemma {:induction false} IntsInjective(x: seq<Byte>, y: seq<Byte>)
    requires Ints(x) == Ints(y)
    ensures x == y
  {
    assert |x| == |Ints(x)| && |y| == |Ints(y)|;
    forall i | 0 <= i < |x| ensures x[i] == y[i] {
      assert Ints(x)[i] == Ints(y)[i];
    }
  }

  /** Hexadecimal text of equally long byte strings compares as the bytes do. */
  lemma {:induction false} HexLess(x: seq<Byte>, y: seq<Byte>)
    requires |x| == |y|
    ensures Less(Hex(x), Hex(y)) <==> Less(Ints(x), Ints(y))
    ensures Hex(x) == Hex(y) ==> x == y
  {
    if x != [] {
      HexLess(x[1..], y[1..]);
      DigitLess(x[0], y[0]);
      var s, t := Hex(x)[..2], Hex(y)[..2];
      assert s == [Digit(x[0] as int / 16), Digit(x[0] as int % 16)];
      assert t == [Digit(y[0] as int / 16), Digit(y[0] as int % 16)];
      assert Hex(x) == s + Hex(x[1..]) && Hex(y) == t + Hex(y[1..]);
      LessConcat(s, t, Hex(x[1..]), Hex(y[1..]));
      IntsCons(x);
      IntsCons(y);
      if Hex(x) == Hex(y) {
        assert s == t;
        assert Hex(x)[2..] == Hex(x[1..]) && Hex(y)[2..] == Hex(y[1..]);
        assert x == [x[0]] + x[1..] && y == [y[0]] + y[1..];
      }
    }
  }

  lemma IntsConcat(x: seq<Byte>, y: seq<Byte>)
    ensures Ints(x + y) == Ints(x) + Ints(y)
  {
  }

  /** One group of the canonical text, its dash, and the rest. */
  lemma GroupLess(x: seq<Byte>, y: seq<Byte>, s: seq<int>, t: seq<int>, xs: seq<Byte>, ys: seq<Byte>)
    requires |x| == |y|
    requires Less(s, t) <==> Less(Ints(xs), Ints(ys))
    ensures Less(Hex(x) + ([DASH] + s), Hex(y) + ([DASH] + t)) <==> Less(Ints(x + xs), Ints(y + ys))
  {
    HexLess(x, y);
    LessConcat(Hex(x), Hex(y), [DASH] + s, [DASH] + t);
    LessConcat([DASH], [DASH], s, t);
    assert !Less([DASH], [DASH]) by { LessAsymmetric([DASH], [DASH]); }
    IntsConcat(x, xs);
    IntsConcat(y, ys);
    LessConcat(Ints(x), Ints(y), Ints(xs), Ints(ys));
    if Ints(x) == Ints(y) { IntsInjective(x, y); }
  }

  /** Comparing canonical strings is comparing the sixteen bytes. */
  lemma TextIsBytes(u: Uuid, v: Uuid)
    ensures Less(Canonical(u), Canonical(v)) <==> Less(Ints(u), Ints(v))
  {
    HexLess(u[10..], v[10..]);
    GroupLess(u[8..10], v[8..10], Hex(u[10..]), Hex(v[10..]), u[10..], v[10..]);
    var s4, t4 := Hex(u[8..10]) + ([DASH] + Hex(u[10..])), Hex(v[8..10]) + ([DASH] + Hex(v[10..]));
    assert u[8..10] + u[10..] == u[8..] && v[8..10] + v[10..] == v[8..];
    GroupLess(u[6..8], v[6..8], s4, t4, u[8..], v[8..]);
    var s3, t3 := Hex(u[6..8]) + ([DASH] + s4), Hex(v[6..8]) + ([DASH] + t4);
    assert u[6..8] + u[8..] == u[6..] && v[6..8] + v[8..] == v[6..];
    GroupLess(u[4..6], v[4..6], s3, t3, u[6..], v[6..]);
    var s2, t2 := Hex(u[4..6]) + ([DASH] + s3), Hex(v[4..6]) + ([DASH] + t3);
    assert u[4..6] + u[6..] == u[4..] && v[4..6] + v[6..] == v[4..];
    GroupLess(u[..4], v[..4], s2, t2, u[4..], v[4..]);
    assert u[..4] + u[4..] == u && v[..4] + v[4..] == v;
  }

  lemma IntsSnoc(x: seq<Byte>)
    requires x != []
    ensures Ints(x) == Ints(x[..|x| - 1]) + [x[|x| - 1] as int]
  {
  }

  lemma LessOne(a: int, b: int)
    ensures Less([a], [b]) <==> a < b
  {
    assert [a][1..] == [] && [b][1..] == [];
  }

  /** Comparing equally long byte strings is comparing the numbers they spell. */
  lemma {:induction false} BytesAreValue(x: seq<Byte>, y: seq<Byte>)
    requires |x| == |y|
    ensures Less(Ints(x), Ints(y)) <==> Value(x) < Value(y)
    ensures x == y <==> Value(x) == Value(y)
  {
    if x != [] {
      var p, q, a, b := x[..|x| - 1], y[..|y| - 1], x[|x| - 1], y[|y| - 1];
      BytesAreValue(p, q);
      IntsSnoc(x);
      IntsSnoc(y);
      LessConcat(Ints(p), Ints(q), [a as int], [b as int]);
      LessOne(a as int, b as int);
      if Ints(p) == Ints(q) { IntsInjective(p, q); }
      assert x == p + [a] && y == q + [b];
    }
  }

  /** The lock order is a strict total order, and it is the numeric order of the UUIDs. */
  lemma LockOrder(u: Uuid, v: Uuid, w: Uuid)
    ensures Less(Canonical(u), Canonical(v)) <==> Value(u) < Value(v)
    ensures Canonical(u) == Canonical(v) <==> u == v
    ensures u != v ==> Less(Canonical(u), Canonical(v)) || Less(Canonical(v), Canonical(u))
    ensures !(Less(Canonical(u), Canonical(v)) && Less(Canonical(v), Canonical(u)))
    ensures Less(Canonical(u), Canonical(v)) && Less(Canonical(v), Canonical(w)) ==> Less(Canonical(u), Canonical(w))
  {
    TextIsBytes(u, v);
    TextIsBytes(v, u);
    TextIsBytes(v, w);
    TextIsBytes(u, w);
    BytesAreValue(u, v);
    BytesAreValue(v, u);
    BytesAreValue(v, w);
    BytesAreValue(u, w);
    LessAsymmetric(Canonical(u), Canonical(v));
    LessAsymmetric(Canonical(v), Canonical(u));
  }

  // ---------- Sorting the ids to lock ----------

  predicate AscendingBy<T>(f: T -> nat, s: seq<T>) {
    forall i, j :: 0 <= i < j < |s| ==> f(s[i]) <= f(s[j])
  }

  predicate Ascending(ids: seq<Uuid>) {
    AscendingBy((u: Uuid) => Value(u), ids)
  }

  /** LockAccountsForUpdate's sorted copy.  The caller's ids are a value and stay as they are. */
  method SortedCopy(ids: seq<Uuid>) returns (sorted: seq<Uuid>)
    ensures Ascending(sorted)
    ensures multiset(sorted) == multiset(ids)
  {
    sorted := [];
    for n := 0 to |ids|
      invariant Ascending(sorted)
      invariant multiset(sorted) == multiset(ids[..n])
    {
      var k := 0;
      while k < |sorted| && Less(Canonical(sorted[k]), Canonical(ids[n]))
        invariant 0 <= k <= |sorted|
        invariant forall i :: 0 <= i < k ==> Value(sorted[i]) < Value(ids[n])
      {
        LockOrder(sorted[k], ids[n], ids[n]);
        k := k + 1;
      }
      if k < |sorted| { LockOrder(sorted[k], ids[n], ids[n]); }
      InsertedBy((u: Uuid) => Value(u), sorted, k, ids[n]);
      InsertedOnce(sorted, k, ids[n]);
      assert ids[..n + 1] == ids[..n] + [ids[n]];
      sorted := sorted[..k] + [ids[n]] + sorted[k..];
    }
    assert ids[..|ids|] == ids;
  }

  lemma InsertedBy<T>(f: T -> nat, s: seq<T>, k: nat, u: T)
    requires AscendingBy(f, s) && k <= |s|
    requires forall i :: 0 <= i < k ==> f(s[i]) < f(u)
    requires k < |s| ==> f(u) <= f(s[k])
    ensures AscendingBy(f, s[..k] + [u] + s[k..])
  {
    var t := s[..k] + [u] + s[k..];
    forall i, j | 0 <= i < j < |t| ensures f(t[i]) <= f(t[j]) {
      InsertedAt(s, k, u, i);
      InsertedAt(s, k, u, j);
      assert j > k ==> f(s[k]) <= f(s[j - 1]);
    }
  }

  lemma InsertedAt<T>(s: seq<T>, k: nat, u: T, i: nat)
    requires k <= |s| && i <= |s|
    ensures (s[..k] + [u] + s[k..])[i] == if i < k then s[i] else if i == k then u else s[i - 1]
  {
  }

  lemma InsertedOnce<T>(s: seq<T>, k: nat, u: T)
    requires k <= |s|
    ensures multiset(s[..k] + [u] + s[k..]) == multiset(s) + multiset{u}
  {
    assert s == s[..k] + s[k..];
  }

  lemma TailOf<T>(s: seq<T>)
    requires s != []
    ensures s == [s[0]] + s[1..] && multiset(s) == multiset{s[0]} + multiset(s[1..])
    ensures forall x :: x in s[1..] ==> x in s
  {
    assert s == [s[0]] + s[1..];
  }

  lemma SameHead<T>(f: T -> nat, s: seq<T>, t: seq<T>)
    requires AscendingBy(f, s) && AscendingBy(f, t) && s != [] && t != [] && s[0] in t && t[0] in s
    ensures f(s[0]) == f(t[0])
  {
    var i :| 0 <= i < |t| && t[i] == s[0];
    var j :| 0 <= j < |s| && s[j] == t[0];
  }

  ghost predicate Injective<T(!new)>(f: T -> nat) {
    forall x, y :: f(x) == f(y) ==> x == y
  }

  lemma SameParts<T(!new)>(f: T -> nat, s: seq<T>, t: seq<T>)
    requires AscendingBy(f, s) && AscendingBy(f, t) && multiset(s) == multiset(t) && s != [] && Injective(f)
    ensures t != [] && s[0] == t[0] && multiset(s[1..]) == multiset(t[1..])
    ensures AscendingBy(f, s[1..]) && AscendingBy(f, t[1..])
  {
    assert s[0] in multiset(s);
    assert t[0] in multiset(t);
    SameHead(f, s, t);
    TailOf(s);
    TailOf(t);
    assert multiset(s[1..]) == multiset(s) - multiset{s[0]};
    assert multiset(t[1..]) == multiset(t) - multiset{t[0]};
  }

  lemma {:induction false} SortIsUniqueBy<T(!new)>(f: T -> nat, s: seq<T>, t: seq<T>)
    requires AscendingBy(f, s) && AscendingBy(f, t) && multiset(s) == multiset(t) && Injective(f)
    ensures s == t
  {
    if s == [] {
      assert |t| == |multiset(t)|;
    } else {
      SameParts(f, s, t);
      SortIsUniqueBy(f, s[1..], t[1..]);
      assert s == [s[0]] + s[1..] && t == [t[0]] + t[1..];
    }
  }

  /** There is only one ascending arrangement, so every call locks in the same order
      whatever order it was given. */
  lemma SortIsUnique(s: seq<Uuid>, t: seq<Uuid>)
    requires Ascending(s) && Ascending(t) && multiset(s) == multiset(t)
    ensures s == t
  {
    forall x: Uuid, y: Uuid | Value(x) == Value(y) ensures x == y {
      BytesAreValue(x, y);
    }
    SortIsUniqueBy((u: Uuid) => Value(u), s, t);
  }

  /** The pair of rows the state machine locks, in its order, is the sorted pair of UUIDs. */
  lemma TargetsAreSorted(u: Uuid, v: Uuid, sorted: seq<Uuid>, m: Serial.Move)
    requires u != v && m.debit == Value(u) && m.credit == Value(v)
    requires Ascending(sorted) && multiset(sorted) == multiset([u, v])
    ensures |sorted| == 2 && Protocol.Targets(m) == [Value(sorted[0]), Value(sorted[1])]
  {
    BytesAreValue(u, v);
    var pair := if Value(u) < Value(v) then [u, v] else [v, u];
    assert multiset(pair) == multiset([u, v]);
    SortIsUnique(sorted, pair);
  }
}
