/** The string utilities: the field splitter and the key hash that picks a host. */
module Utils {
  import opened Bytes
  import opened Fields

  method Split(data: seq<Byte>, d: Byte) returns (result: seq<seq<Byte>>)
    ensures IsSplit(data, d, result)
  {
    result := [];
    var buffer: seq<Byte> := [];
    var i := 0;
    while i < |data|
      invariant 0 <= i <= |data|
      invariant i < |data| ==> d !in buffer && AllFree(result, d) && Join(result + [buffer], d) == data[..i]
      invariant i == |data| ==> IsSplit(data, d, result)
    {
      assert data[..i + 1] == data[..i] + [data[i]];
      if data[i] == d && i == |data| - 1 {
        JoinSnoc(result + [buffer], [], d);
        result := result + [buffer];
        result := result + [[]];
      } else if data[i] == d || i == |data| - 1 {
        if data[i] != d {
          JoinExtend(result, buffer, [data[i]], d);
          buffer := buffer + [data[i]];
        } else {
          JoinSnoc(result + [buffer], [], d);
        }
        result := result + [buffer];
        buffer := [];
      } else {
        JoinExtend(result, buffer, [data[i]], d);
        buffer := buffer + [data[i]];
      }
      i := i + 1;
      assert data[..|data|] == data;
    }
  }

  function Pow32(k: nat): nat {
    if k == 0 then 1 else 32 * Pow32(k - 1)
  }

  /** The sum of s[i] * 32^(n-1-i), over the integers, with the bytes sign-extended. */
  function Weighted(s: seq<Byte>): int {
    if s == [] then 0 else s[0] * Pow32(|s| - 1) + Weighted(s[1..])
  }

  /** The same sum, one byte at a time. */
  function Horner(s: seq<Byte>): int {
    if s == [] then 0 else 32 * Horner(s[..|s| - 1]) + s[|s| - 1]
  }

  function Hash(key: seq<Byte>): int {
    Horner(key) % TWO_32
  }

  /** The loop computes 32h + c in uint32_t arithmetic, since it adds 31h + c to h. */
  method HashIt(val: seq<Byte>) returns (h: nat)
    requires |val| < TWO_32
    ensures h == Weighted(val) % TWO_32 == Hash(val)
  {
    h := 0;
    var i := 0;
    while i < |val|
      invariant 0 <= i <= |val|
      invariant h == Hash(val[..i])
    {
      assert val[..i + 1] == val[..i] + [val[i]];
      WrapStep(Horner(val[..i]), val[i]);
      h := (h + (31 * h + val[i]) % TWO_32) % TWO_32;
      i := i + 1;
    }
    assert val[..i] == val;
    HornerIsWeighted(val);
  }

  /** Unsigned wrap-around may be applied at every addition or once at the end. */
  lemma WrapStep(w: int, c: int)
    ensures (w % TWO_32 + (31 * (w % TWO_32) + c) % TWO_32) % TWO_32 == (32 * w + c) % TWO_32
  {
    var h := w % TWO_32;
    var x := 31 * h + c;
    assert 32 * w + c == h + x % TWO_32 + TWO_32 * (32 * (w / TWO_32) + x / TWO_32);
    ModMultiple(h + x % TWO_32, 32 * (w / TWO_32) + x / TWO_32, TWO_32);
  }

  lemma ModMultiple(x: int, k: int, m: int)
    requires m > 0
    ensures (x + m * k) % m == x % m
  {
    var y := x + m * k;
    var d := y / m - x / m - k;
    assert m * d == x % m - y % m by {
      assert m * d == m * (y / m) - m * (x / m) - m * k;
    }
    MulSign(m, d);
  }

  lemma MulSign(m: int, d: int)
    requires m >= 0
    ensures d >= 1 ==> m * d >= m
    ensures d <= -1 ==> m * d <= -m
  {
  }

  lemma {:induction false} HornerAppend(a: seq<Byte>, b: seq<Byte>)
    ensures Horner(a + b) == Horner(a) * Pow32(|b|) + Horner(b)
  {
    if b == [] {
      assert a + b == a;
    } else {
      var n := |b| - 1;
      HornerAppend(a, b[..n]);
      assert a + b == (a + b[..n]) + [b[n]];
      assert Horner(a) * (32 * Pow32(n)) == 32 * (Horner(a) * Pow32(n));
    }
  }

  lemma {:induction false} HornerIsWeighted(s: seq<Byte>)
    ensures Horner(s) == Weighted(s)
  {
    if s != [] {
      HornerIsWeighted(s[1..]);
      HornerAppend(s[..1], s[1..]);
      assert s == s[..1] + s[1..];
      assert Horner(s[..1]) == s[0];
    }
  }

  lemma {:induction false} PowAdd(j: nat, k: nat)
    ensures Pow32(j + k) == Pow32(j) * Pow32(k)
  {
    if j > 0 {
      PowAdd(j - 1, k);
      assert Pow32(j + k) == 32 * (Pow32(j - 1) * Pow32(k)) == (32 * Pow32(j - 1)) * Pow32(k);
    }
  }

  /** m * 32^n. */
  function Scale(n: nat, m: int): int {
    if n == 0 then m else 32 * Scale(n - 1, m)
  }

  lemma {:induction false} ScaleAdd(j: nat, k: nat, m: int)
    ensures Scale(j, Scale(k, m)) == Scale(j + k, m)
  {
    if j > 0 {
      ScaleAdd(j - 1, k, m);
    }
  }

  lemma ScaleWrap(n: nat, q: int)
    requires n <= 6
    ensures TWO_32 * q == Scale(n, Scale(6 - n, 4 * q))
  {
    ScaleAdd(n, 6 - n, 4 * q);
    ScaleAdd(3, 3, 4 * q);
    Scale3(4 * q);
    Scale3(Scale(3, 4 * q));
  }

  lemma Scale3(m: int)
    ensures Scale(3, m) == 32768 * m
  {
    assert Scale(0, m) == m;
    assert Scale(1, m) == 32 * m;
    assert Scale(2, m) == 1024 * m;
  }

  predicate Alike(x: Byte, y: Byte) {
    x % 32 == y % 32
  }

  /** No two different bytes of the two keys agree mod 32: true of digits, and of letters of one case. */
  ghost predicate Distinct32(a: seq<Byte>, b: seq<Byte>) {
    forall i, j {:trigger Alike(a[i], b[j])} ::
      0 <= i < |a| && 0 <= j < |b| && Alike(a[i], b[j]) ==> a[i] == b[j]
  }

  lemma LastBytesAgree(a: seq<Byte>, b: seq<Byte>, t: int)
    requires a != [] && b != [] && Distinct32(a, b)
    requires Horner(a) - Horner(b) == 32 * t
    ensures a[|a| - 1] == b[|b| - 1]
    ensures Horner(a[..|a| - 1]) - Horner(b[..|b| - 1]) == t
  {
    var x, y := a[|a| - 1], b[|b| - 1];
    var k := t - Horner(a[..|a| - 1]) + Horner(b[..|b| - 1]);
    assert x == y + 32 * k;
    ModMultiple(y, k, 32);
    assert Alike(x, y);
  }

  /** Sums that differ by a multiple of 32^n belong to keys with the same last n bytes. */
  lemma {:induction false} SuffixDetermined(a: seq<Byte>, b: seq<Byte>, n: nat, m: int)
    requires |a| >= n && |b| >= n && Distinct32(a, b)
    requires Horner(a) - Horner(b) == Scale(n, m)
    ensures a[|a| - n..] == b[|b| - n..]
    ensures Horner(a[..|a| - n]) - Horner(b[..|b| - n]) == m
  {
    if n == 0 {
      assert a[..|a|] == a && b[..|b|] == b;
    } else {
      LastBytesAgree(a, b, Scale(n - 1, m));
      SuffixDetermined(a[..|a| - 1], b[..|b| - 1], n - 1, m);
      CutOnce(a, n);
      CutOnce(b, n);
    }
  }

  lemma CutOnce(a: seq<Byte>, n: nat)
    requires 0 < n <= |a|
    ensures var p := a[..|a| - 1];
            a[|a| - n..] == p[|p| - (n - 1)..] + [a[|a| - 1]] && a[..|a| - n] == p[..|p| - (n - 1)]
  {
  }

  lemma ModDifference(x: int, y: int, m: int) returns (q: int)
    requires m > 0 && x % m == y % m
    ensures x - y == m * q
  {
    q := x / m - y / m;
  }

  /**
   Exactly which long keys collide: those that agree on their last six bytes and, mod 4, on the byte before.
   Nothing further to the left has any influence.
   */
  lemma HashWindow(a: seq<Byte>, b: seq<Byte>)
    requires |a| >= 7 && |b| >= 7 && Distinct32(a, b)
    ensures Hash(a) == Hash(b) <==>
            a[|a| - 6..] == b[|b| - 6..] && a[|a| - 7] % 4 == b[|b| - 7] % 4
  {
    SixAndTwoBits(a);
    SixAndTwoBits(b);
    if Hash(a) == Hash(b) {
      var q := ModDifference(Horner(a), Horner(b), TWO_32);
      ScaleWrap(6, q);
      SuffixDetermined(a, b, 6, 4 * q);
      LastBits(a[..|a| - 6]);
      LastBits(b[..|b| - 6]);
    }
  }

  lemma LastBits(p: seq<Byte>)
    requires p != []
    ensures Horner(p) % 32 == p[|p| - 1] % 32 && Horner(p) % 4 == p[|p| - 1] % 4
  {
    var n := |p| - 1;
    assert p == p[..n] + [p[n]];
    ModMultiple(p[n], Horner(p[..n]), 32);
    ModMultiple(p[n], 8 * Horner(p[..n]), 4);
  }

  /** The hash of a long key, from its last six bytes and two bits of the byte before; no condition on the alphabet. */
  lemma SixAndTwoBits(s: seq<Byte>)
    requires |s| >= 7
    ensures Hash(s) == (s[|s| - 7] % 4 * Pow32(6) + Horner(s[|s| - 6..])) % TWO_32
  {
    var n := |s| - 6;
    LastBits(s[..n]);
    HornerAppend(s[..n], s[n..]);
    assert s == s[..n] + s[n..];
    var w := Horner(s[..n]);
    assert w == 4 * (w / 4) + s[n - 1] % 4;
    assert w * Pow32(6) == (w / 4) * TWO_32 + s[n - 1] % 4 * Pow32(6);
  }

  /** Keys of one length of at most six bytes never collide. */
  lemma ShortKeysInjective(a: seq<Byte>, b: seq<Byte>)
    requires |a| == |b| <= 6 && Distinct32(a, b) && Hash(a) == Hash(b)
    ensures a == b
  {
    var q := ModDifference(Horner(a), Horner(b), TWO_32);
    ScaleWrap(|a|, q);
    SuffixDetermined(a, b, |a|, Scale(6 - |a|, 4 * q));
  }

  ghost predicate Decimal(s: seq<Byte>) {
    forall i :: 0 <= i < |s| ==> 48 <= s[i] <= 57
  }

  lemma {:induction false} DecimalBounds(s: seq<Byte>)
    requires Decimal(s)
    ensures 0 <= Horner(s) <= 2 * Pow32(|s|) - 2
    ensures s != [] ==> Horner(s) > 0
  {
    if s != [] {
      DecimalBounds(s[..|s| - 1]);
      PowMonotone(0, |s|);
    }
  }

  lemma DecimalNoWrap(s: seq<Byte>)
    requires Decimal(s) && |s| <= 6
    ensures Hash(s) == Horner(s)
  {
    DecimalBounds(s);
    PowMonotone(|s|, 6);
  }

  lemma {:induction false} ScaleZero(n: nat)
    ensures Scale(n, 0) == 0
  {
    if n > 0 {
      ScaleZero(n - 1);
    }
  }

  /** Decimal keys of at most six digits never collide, whatever their lengths. */
  lemma DecimalKeysInjective(a: seq<Byte>, b: seq<Byte>)
    requires Decimal(a) && Decimal(b) && |a| <= |b| <= 6 && Hash(a) == Hash(b)
    ensures a == b
  {
    DecimalNoWrap(a);
    DecimalNoWrap(b);
    assert Scale(|a|, 0) == 0 by {
      ScaleZero(|a|);
    }
    SuffixDetermined(a, b, |a|, 0);
    assert a[..0] == [];
    DecimalBounds(b[..|b| - |a|]);
    assert b == b[..|b| - |a|] + b[|b| - |a|..];
  }

  lemma {:induction false} PowMonotone(j: nat, k: nat)
    requires j <= k
    ensures 0 < Pow32(j) <= Pow32(k)
    decreases k
  {
    if j < k {
      PowMonotone(j, k - 1);
    } else if j > 0 {
      PowMonotone(j - 1, k - 1);
    }
  }

  ghost predicate InjectiveOnDecimals(n: nat) {
    forall a, b :: Decimal(a) && Decimal(b) && |a| == n && |b| == n && Hash(a) == Hash(b) ==> a == b
  }

  /** Six digits is the limit: at every greater length two decimal keys collide. */
  lemma DecimalLimit(n: nat)
    ensures InjectiveOnDecimals(n) <==> n <= 6
  {
    if n <= 6 {
      forall a, b | Decimal(a) && Decimal(b) && |a| == n && |b| == n && Hash(a) == Hash(b)
        ensures a == b
      {
        DecimalKeysInjective(a, b);
      }
    } else {
      var a := seq(n, i => 48 as Byte);
      var b := seq(n, i => if i == n - 7 then 52 as Byte else 48);
      assert a[n - 7] == 48 && b[n - 7] == 52;
      assert a[n - 6..] == b[n - 6..];
      HashWindow(a, b);
    }
  }

  /** When the number of hosts divides 32, the host of a key depends on its last byte alone. */
  lemma RouteByLastByte(key: seq<Byte>, hosts: nat)
    requires key != [] && hosts > 0 && 32 % hosts == 0
    ensures Hash(key) % hosts == key[|key| - 1] % hosts
  {
    assert hosts * (32 / hosts) == 32;
    SameResidue(Hash(key), key[|key| - 1], 32 / hosts, hosts);
  }

  lemma SameResidue(x: int, y: int, d: nat, m: nat)
    requires m > 0 && m * d == 32 && x % 32 == y % 32
    ensures x % m == y % m
  {
    var k := x / 32 - y / 32;
    assert x == y + m * (d * k) by {
      assert (m * d) * k == m * (d * k);
    }
    ModMultiple(y, d * k, m);
  }
}
