/** Bytes and little-endian integers. */
module Bytes {

  type Byte = b: int | 0 <= b < 256 witness 0

  const U32: int := 0x1_0000_0000
  const U64: int := 0x1_0000_0000_0000_0000

  function Pow256(n: nat): (p: nat)
    ensures p >= 1
  {
    if n == 0 then 1 else 256 * Pow256(n - 1)
  }

  lemma WordSizes()
    ensures Pow256(4) == U32 && Pow256(8) == U64
  {
    assert Pow256(1) == 256 && Pow256(2) == 65536 && Pow256(4) == 256 * (256 * Pow256(2));
    assert Pow256(8) == 256 * (256 * (256 * (256 * Pow256(4))));
  }

  /** The low n bytes of v, least significant first. */
  function Le(v: nat, n: nat): (s: seq<Byte>)
    ensures |s| == n
    decreases n
  {
    if n == 0 then [] else [v % 256] + Le(v / 256, n - 1)
  }

  function FromLe(s: seq<Byte>): nat
    decreases |s|
  {
    if s == [] then 0 else s[0] + 256 * FromLe(s[1..])
  }

  /** Reading back what was written. */
  lemma {:induction false} LeRoundTrip(v: nat, n: nat)
    requires v < Pow256(n)
    ensures FromLe(Le(v, n)) == v
    decreases n
  {
    if n > 0 {
      LeRoundTrip(v / 256, n - 1);
      assert Le(v, n)[1..] == Le(v / 256, n - 1);
    }
  }

  lemma LowByte(b: Byte, r: nat)
    ensures (b + 256 * r) % 256 == b && (b + 256 * r) / 256 == r
  {
  }

  lemma LeStep(b: Byte, r: nat, n: nat)
    ensures Le(b + 256 * r, n + 1) == [b] + Le(r, n)
  {
    LowByte(b, r);
  }

  /** Writing what was read gives the same bytes. */
  lemma {:induction false} FromLeRoundTrip(s: seq<Byte>)
    ensures FromLe(s) < Pow256(|s|) && Le(FromLe(s), |s|) == s
    decreases |s|
  {
    if s == [] {
      assert Le(0, 0) == [];
    } else {
      FromLeRoundTrip(s[1..]);
      hide Le;
      LeStep(s[0], FromLe(s[1..]), |s| - 1);
    }
  }

  // ----- bitwise exclusive or -----

  function Xor(a: nat, b: nat): nat
    decreases a + b
  {
    if a == 0 && b == 0 then 0
    else 2 * Xor(a / 2, b / 2) + (if a % 2 == b % 2 then 0 else 1)
  }

  lemma {:induction false} XorInjective(a: nat, b: nat, c: nat)
    requires Xor(a, b) == Xor(a, c)
    ensures b == c
    decreases a + b + c
  {
    if a + b + c > 0 {
      assert a == 0 && b == 0 ==> Xor(a, b) == 2 * Xor(a / 2, b / 2);
      assert a == 0 && c == 0 ==> Xor(a, c) == 2 * Xor(a / 2, c / 2);
      XorInjective(a / 2, b / 2, c / 2);
    }
  }

  lemma {:induction false} XorCommutes(a: nat, b: nat)
    ensures Xor(a, b) == Xor(b, a)
    decreases a + b
  {
    if a + b > 0 { XorCommutes(a / 2, b / 2); }
  }

  lemma {:induction false} XorZero(a: nat)
    ensures Xor(a, 0) == a
    decreases a
  {
    if a > 0 { XorZero(a / 2); }
  }

  function Pow2(n: nat): (p: nat)
    ensures p >= 1
  {
    if n == 0 then 1 else 2 * Pow2(n - 1)
  }

  lemma {:induction false} XorInRange(a: nat, b: nat, n: nat)
    requires a < Pow2(n) && b < Pow2(n)
    ensures Xor(a, b) < Pow2(n)
    decreases n
  {
    if n > 0 { XorInRange(a / 2, b / 2, n - 1); }
  }
}
