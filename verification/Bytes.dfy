/** Octets, fixed-width unsigned integers and their big-endian forms. */
module Bytes {

  type Byte = x: int | 0 <= x < 0x100
  type U16 = x: int | 0 <= x < 0x1_0000
  type U32 = x: int | 0 <= x < 0x1_0000_0000
  type U64 = x: int | 0 <= x < 0x1_0000_0000_0000_0000

  const U64_MAX: U64 := 0xffff_ffff_ffff_ffff

  /** An IPv4 address in network order. */
  type Address = s: seq<Byte> | |s| == 4 witness [0, 0, 0, 0]

  ghost function Pow256(n: nat): nat {
    if n == 0 then 1 else 256 * Pow256(n - 1)
  }

  /** The low `n` octets of `x`, most significant first. */
  function ToBE(x: nat, n: nat): (s: seq<Byte>)
    ensures |s| == n
  {
    if n == 0 then [] else ToBE(x / 256, n - 1) + [x % 256]
  }

  /** The number an octet string stands for, most significant octet first. */
  function FromBE(s: seq<Byte>): (x: nat)
    ensures x < Pow256(|s|)
  {
    if s == [] then 0 else 256 * FromBE(s[..|s| - 1]) + s[|s| - 1]
  }

  lemma {:induction false} FromToBE(x: nat, n: nat)
    requires x < Pow256(n)
    ensures FromBE(ToBE(x, n)) == x
  {
    if n > 0 {
      FromToBE(x / 256, n - 1);
      assert ToBE(x, n)[..n - 1] == ToBE(x / 256, n - 1);
    }
  }

  lemma LastOctet(n: nat, x: Byte)
    ensures (256 * n + x) / 256 == n && (256 * n + x) % 256 == x
  {
  }

  lemma {:induction false} ToFromBE(s: seq<Byte>)
    ensures ToBE(FromBE(s), |s|) == s
  {
    if s != [] {
      ToFromBE(s[..|s| - 1]);
      LastOctet(FromBE(s[..|s| - 1]), s[|s| - 1]);
      assert s == s[..|s| - 1] + [s[|s| - 1]];
    }
  }

  /** Both directions at the three widths the wire format uses. */
  lemma Widths()
    ensures Pow256(2) == 0x1_0000
    ensures Pow256(4) == 0x1_0000_0000
    ensures Pow256(8) == 0x1_0000_0000_0000_0000
  {
  }

  function BE16(x: U16): (s: seq<Byte>)
    ensures |s| == 2 && FromBE(s) == x
  {
    Widths();
    FromToBE(x, 2);
    ToBE(x, 2)
  }

  function BE32(x: U32): (s: seq<Byte>)
    ensures |s| == 4 && FromBE(s) == x
  {
    Widths();
    FromToBE(x, 4);
    ToBE(x, 4)
  }

  function BE64(x: U64): (s: seq<Byte>)
    ensures |s| == 8 && FromBE(s) == x
  {
    Widths();
    FromToBE(x, 8);
    ToBE(x, 8)
  }

  function FromBE16(s: seq<Byte>): (x: U16)
    requires |s| == 2
    ensures BE16(x) == s
  {
    Widths();
    ToFromBE(s);
    FromBE(s)
  }

  function FromBE32(s: seq<Byte>): (x: U32)
    requires |s| == 4
    ensures BE32(x) == s
  {
    Widths();
    ToFromBE(s);
    FromBE(s)
  }

  function FromBE64(s: seq<Byte>): (x: U64)
    requires |s| == 8
    ensures BE64(x) == s
  {
    Widths();
    ToFromBE(s);
    FromBE(s)
  }

  lemma BE16Iff(x: U16, s: seq<Byte>)
    requires |s| == 2
    ensures FromBE16(s) == x <==> s == BE16(x)
  {
  }

  lemma BE64Iff(x: U64, s: seq<Byte>)
    requires |s| == 8
    ensures FromBE64(s) == x <==> s == BE64(x)
  {
  }

  /** Bitwise or, one binary digit at a time. */
  function Or(a: nat, b: nat): (c: nat)
    ensures c == 0 <==> a == 0 && b == 0
    decreases a + b
  {
    if a == 0 && b == 0 then 0 else 2 * Or(a / 2, b / 2) + (if a % 2 == 0 && b % 2 == 0 then 0 else 1)
  }

  ghost function Pow2(n: nat): (p: nat) {
    if n == 0 then 1 else 2 * Pow2(n - 1)
  }

  // Exclusive or of octets, one bit at a time from the top

  type Digit = d: int | 0 <= d < 16

  function Xor1(a: int, b: int): (c: int)
    ensures 0 <= c < 2
  {
    if a == b then 0 else 1
  }

  function Xor2(a: int, b: int): (c: int)
    ensures 0 <= c < 4
  {
    if a >= 2 then if b >= 2 then Xor1(a - 2, b - 2) else 2 + Xor1(a - 2, b)
    else if b >= 2 then 2 + Xor1(a, b - 2) else Xor1(a, b)
  }

  function Xor3(a: int, b: int): (c: int)
    ensures 0 <= c < 8
  {
    if a >= 4 then if b >= 4 then Xor2(a - 4, b - 4) else 4 + Xor2(a - 4, b)
    else if b >= 4 then 4 + Xor2(a, b - 4) else Xor2(a, b)
  }

  function XorDigit(a: Digit, b: Digit): (c: Digit) {
    if a >= 8 then if b >= 8 then Xor3(a - 8, b - 8) else 8 + Xor3(a - 8, b)
    else if b >= 8 then 8 + Xor3(a, b - 8) else Xor3(a, b)
  }

  function XorByte(a: Byte, b: Byte): (c: Byte) {
    16 * XorDigit(a / 16, b / 16) + XorDigit(a % 16, b % 16)
  }

  /** An octet and its two hexadecimal digits. */
  function Octet(h: Digit, l: Digit): (x: Byte) {
    16 * h + l
  }

  lemma XorOctets(ah: Digit, al: Digit, bh: Digit, bl: Digit)
    ensures XorByte(Octet(ah, al), Octet(bh, bl)) == Octet(XorDigit(ah, bh), XorDigit(al, bl))
  {
    hide XorDigit;
  }

  /** The same octet twice cancels out, and only equal octets leave nothing. */
  lemma XorCancels(ah: Digit, al: Digit, bh: Digit, bl: Digit)
    ensures var a, b := Octet(ah, al), Octet(bh, bl);
            XorByte(XorByte(a, b), b) == a && (XorByte(a, b) == 0 <==> a == b)
  {
    hide XorDigit, XorByte;
    XorDigitCancels(ah, bh);
    XorDigitCancels(al, bl);
    XorOctets(ah, al, bh, bl);
    XorOctets(XorDigit(ah, bh), XorDigit(al, bl), bh, bl);
  }

  lemma XorDigitCancels(a: Digit, b: Digit)
    ensures XorDigit(XorDigit(a, b), b) == a && (XorDigit(a, b) == 0 <==> a == b)
  {
    Xor3Cancels(if a >= 8 then a - 8 else a, if b >= 8 then b - 8 else b);
    hide Xor3;
  }

  lemma Xor3Cancels(a: int, b: int)
    requires 0 <= a < 8 && 0 <= b < 8
    ensures Xor3(Xor3(a, b), b) == a && (Xor3(a, b) == 0 <==> a == b)
  {
    Xor2Cancels(if a >= 4 then a - 4 else a, if b >= 4 then b - 4 else b);
    hide Xor2;
  }

  lemma Xor2Cancels(a: int, b: int)
    requires 0 <= a < 4 && 0 <= b < 4
    ensures Xor2(Xor2(a, b), b) == a && (Xor2(a, b) == 0 <==> a == b)
  {
  }

  lemma XorZero(a: Byte, b: Byte)
    ensures XorByte(a, b) == 0 <==> a == b
  {
    hide XorDigit, XorByte;
    assert a == Octet(a / 16, a % 16) && b == Octet(b / 16, b % 16);
    XorCancels(a / 16, a % 16, b / 16, b % 16);
  }

  // Parts of octet strings

  lemma {:induction false} FromBEJoin(a: seq<Byte>, b: seq<Byte>)
    ensures FromBE(a + b) == FromBE(a) * Pow256(|b|) + FromBE(b)
  {
    if b == [] {
      assert a + b == a;
    } else {
      var front := b[..|b| - 1];
      assert (a + b)[..|a + b| - 1] == a + front;
      FromBEJoin(a, front);
      OneMore(FromBE(a), Pow256(|front|), FromBE(front), b[|b| - 1]);
    }
  }

  lemma OneMore(f: nat, p: nat, g: nat, x: Byte)
    ensures 256 * (f * p + g) + x == f * (256 * p) + (256 * g + x)
  {
    assert 256 * (f * p) == f * (256 * p);
  }

  lemma {:induction false} AllZero(s: seq<Byte>)
    ensures FromBE(s) == 0 <==> forall i | 0 <= i < |s| :: s[i] == 0
  {
    if s != [] {
      AllZero(s[..|s| - 1]);
      assert forall i | 0 <= i < |s| - 1 :: s[..|s| - 1][i] == s[i];
    }
  }
}
