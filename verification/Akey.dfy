/** The six check digits of an A-key (section 2.2.1 of S.S0053). */
module Akey {
  import opened Bytes
  import opened Cave
  import opened CaveRounds

  const AAV: Byte := 0xc7
  const CHECK_DIGITS: nat := 6
  const ROUNDS: nat := 8

  // Loading

  /** The low 64 bits of the key. */
  function KeyOctets(akey: int): (s: seq<Byte>)
    ensures |s| == 8
  {
    ToBE(akey % 0x1_0000_0000_0000_0000, 8)
  }

  /** The low 32 bits of the serial number. */
  function EsnOctets(esn: int): (s: seq<Byte>)
    ensures |s| == 4
  {
    ToBE(esn % 0x1_0000_0000, 4)
  }

  function Loaded(key: seq<Byte>, esn: seq<Byte>): (st: State)
    requires |key| == 8 && |esn| == 4
  {
    State(if key[..4] == [0, 0, 0, 0] then esn else key[..4],
          key + [AAV, key[5], key[6], key[7]] + esn, 128, 128)
  }

  lemma Halves(s: seq<Byte>, n: nat)
    requires n <= |s|
    ensures FromBE(s) == FromBE(s[..n]) * Pow256(|s| - n) + FromBE(s[n..])
    ensures FromBE(s[n..]) < Pow256(|s| - n)
  {
    assert s == s[..n] + s[n..];
    FromBEJoin(s[..n], s[n..]);
  }

  /** What is loaded, in numbers: the key, the algorithm version, the key's last three octets and the serial number;
      and into the shift register the high word of the key or, if that is zero, the serial number. */
  lemma LoadedNumbers(akey: int, esn: int)
    ensures
      var st := Loaded(KeyOctets(akey), EsnOctets(esn));
      var key, number := akey % 0x1_0000_0000_0000_0000, esn % 0x1_0000_0000;
      && FromBE(st.reg[..8]) == key && st.reg[8] == 0xc7
      && FromBE(st.reg[9..12]) == akey % 0x100_0000 && FromBE(st.reg[12..]) == number
      && FromBE(st.lfsr) == (if key / 0x1_0000_0000 == 0 then number else key / 0x1_0000_0000)
      && st.low == 128 && st.high == 128
  {
    hide FromBE, ToBE;
    var k, e := KeyOctets(akey), EsnOctets(esn);
    var st := Loaded(k, e);
    var key := akey % 0x1_0000_0000_0000_0000;
    KeyNumbers(akey);
    Widths();
    FromToBE(esn % 0x1_0000_0000, 4);
    assert st.reg[..8] == k && st.reg[12..] == e;
    assert k[5..] == [k[5], k[6], k[7]];
    assert st.reg[9..12] == [st.reg[9], st.reg[10], st.reg[11]];
    AllZero(k[..4]);
    assert k[..4] == [0, 0, 0, 0] <==> forall i | 0 <= i < 4 :: k[..4][i] == 0;
  }

  lemma KeyNumbers(akey: int)
    ensures
      var k, key := KeyOctets(akey), akey % 0x1_0000_0000_0000_0000;
      FromBE(k) == key && FromBE(k[..4]) == key / 0x1_0000_0000 && FromBE(k[5..]) == akey % 0x100_0000
  {
    hide FromBE, ToBE;
    var k, key := KeyOctets(akey), akey % 0x1_0000_0000_0000_0000;
    Widths();
    assert Pow256(3) == 0x100_0000;
    FromToBE(key, 8);
    Halves(k, 4);
    HighWord(key, FromBE(k[..4]), FromBE(k[4..]));
    Halves(k, 5);
    LowPart(akey, key, FromBE(k[..5]), FromBE(k[5..]));
  }

  lemma HighWord(v: nat, high: nat, low: nat)
    requires v == high * 0x1_0000_0000 + low && low < 0x1_0000_0000
    ensures v / 0x1_0000_0000 == high
  {
  }

  lemma LowPart(akey: int, key: nat, high: nat, low: nat)
    requires key == akey % 0x1_0000_0000_0000_0000 && key == high * 0x100_0000 + low && low < 0x100_0000
    ensures akey % 0x100_0000 == low
  {
    var n := akey / 0x1_0000_0000_0000_0000;
    Remainder(akey, 0x100_0000_0000 * n + high, low);
  }

  lemma Remainder(v: int, n: int, low: nat)
    requires v == 0x100_0000 * n + low && low < 0x100_0000
    ensures v % 0x100_0000 == low
  {
  }

  /** The 18 bits that the check digits write out. */
  function CheckOctets(reg: Registers): (d: seq<Byte>)
    ensures |d| == 3 && d[0] < 4
  {
    [(XorByte(reg[0], reg[13]) as int) % 4, XorByte(reg[1], reg[14]), XorByte(reg[2], reg[15])]
  }

  function CheckValue(akey: int, esn: int): (v: nat) {
    FromBE(CheckOctets(Rounds(Loaded(KeyOctets(akey), EsnOctets(esn)), ZEROS, ROUNDS).reg))
  }

  // Decimal digits

  /** The number a digit string stands for. */
  function Decimal(digits: seq<nat>): (v: nat) {
    if digits == [] then 0 else 10 * Decimal(digits[..|digits| - 1]) + digits[|digits| - 1]
  }

  predicate AreDigits(digits: seq<nat>) {
    forall i | 0 <= i < |digits| :: digits[i] < 10
  }

  ghost function Pow10(n: nat): (p: nat) {
    if n == 0 then 1 else 10 * Pow10(n - 1)
  }

  lemma {:induction false} DecimalCons(d: nat, rest: seq<nat>)
    ensures Decimal([d] + rest) == d * Pow10(|rest|) + Decimal(rest)
  {
    var all := [d] + rest;
    if rest == [] {
      assert all[..0] == [];
    } else {
      var front := rest[..|rest| - 1];
      assert all[..|all| - 1] == [d] + front;
      DecimalCons(d, front);
    }
  }

  /** Divides in place; every partial quotient fits an octet. */
  method DivideByTen(d: array<Byte>) returns (rem: nat)
    modifies d
    ensures FromBE(d[..]) == old(FromBE(d[..])) / 10 && rem == old(FromBE(d[..])) % 10
  {
    rem := 0;
    for i := 0 to d.Length
      invariant rem < 10
      invariant 10 * FromBE(d[..i]) + rem == old(FromBE(d[..i]))
      invariant forall j | i <= j < d.Length :: d[j] == old(d[j])
    {
      var cur := rem * 256 + d[i];
      d[i] := cur / 10;
      rem := cur % 10;
      PrefixStep(d[..], i);
      PrefixStep(old(d[..]), i);
      assert d[..i + 1][..i] == d[..i];
    }
    assert d[..d.Length] == d[..];
    assert old(d[..d.Length]) == old(d[..]);
  }

  lemma PrefixStep(s: seq<Byte>, i: nat)
    requires i < |s|
    ensures FromBE(s[..i + 1]) == 256 * FromBE(s[..i]) + s[i]
  {
    assert s[..i + 1][..i] == s[..i];
  }

  /** Writes out the number in six digits, leaving nothing over. */
  method WriteDigits(d: array<Byte>) returns (digits: seq<nat>)
    requires d.Length == 3 && FromBE(d[..]) < 1000000
    modifies d
    ensures |digits| == CHECK_DIGITS && AreDigits(digits)
    ensures Decimal(digits) == old(FromBE(d[..])) && FromBE(d[..]) == 0
  {
    hide Decimal, Pow10, FromBE;
    digits := [];
    NoDigits(FromBE(d[..]));
    ghost var v := FromBE(d[..]);
    var k := CHECK_DIGITS;
    while k > 0
      invariant 0 <= k <= CHECK_DIGITS && |digits| == CHECK_DIGITS - k
      invariant AreDigits(digits)
      invariant FromBE(d[..]) * Pow10(|digits|) + Decimal(digits) == v
    {
      NextDigit(FromBE(d[..]), digits);
      var rem := DivideByTen(d);
      digits := [rem] + digits;
      k := k - 1;
    }
    NothingLeft(FromBE(d[..]), Decimal(digits));
  }

  lemma NoDigits(v: nat)
    ensures v * Pow10(0) + Decimal([]) == v
  {
  }

  lemma NextDigit(q: nat, digits: seq<nat>)
    ensures (q / 10) * Pow10(|digits| + 1) + Decimal([q % 10] + digits) == q * Pow10(|digits|) + Decimal(digits)
  {
    DecimalCons(q % 10, digits);
    CarryOver(q, Pow10(|digits|));
  }

  lemma CarryOver(q: nat, p: nat)
    ensures (q / 10) * (10 * p) + (q % 10) * p == q * p
  {
    assert q == 10 * (q / 10) + q % 10;
  }

  lemma NothingLeft(q: nat, v: nat)
    requires q * Pow10(CHECK_DIGITS) + v < 1000000
    ensures q == 0
  {
    assert Pow10(3) == 1000;
    assert Pow10(6) == 1000 * Pow10(3);
  }

  // The checksum

  lemma CheckValueBound(akey: int, esn: int)
    ensures CheckValue(akey, esn) < 0x4_0000
  {
    hide Rounds, XorByte;
    ThreeOctets(CheckOctets(Rounds(Loaded(KeyOctets(akey), EsnOctets(esn)), ZEROS, ROUNDS).reg));
  }

  lemma ThreeOctets(d: seq<Byte>)
    requires |d| == 3
    ensures FromBE(d) == 0x1_0000 * (d[0] as int) + 0x100 * (d[1] as int) + d[2]
  {
    PrefixStep(d, 0);
    PrefixStep(d, 1);
    PrefixStep(d, 2);
    assert d[..0] == [] && d[..3] == d;
  }

  predicate IsNumeral(s: string) {
    forall i | 0 <= i < |s| :: '0' <= s[i] <= '9'
  }

  function Text(digits: seq<nat>): (s: string)
    requires AreDigits(digits)
    ensures |s| == |digits| && IsNumeral(s) && Digits(s) == digits
  {
    seq(|digits|, i requires 0 <= i < |digits| => ('0' as int + digits[i]) as char)
  }

  /** The digits a decimal text is made of. */
  function Digits(s: string): (digits: seq<nat>)
    requires IsNumeral(s)
  {
    seq(|s|, i requires 0 <= i < |s| => s[i] as int - '0' as int)
  }

  /** For every key and serial number: six decimal digits, and exactly the 18-bit result of CAVE. */
  method AkeyChecksum(akey: int, esn: int) returns (s: string)
    ensures |s| == CHECK_DIGITS && IsNumeral(s)
    ensures Decimal(Digits(s)) == CheckValue(akey, esn) < 0x4_0000
  {
    hide Rounds, XorByte, Decimal, FromBE;
    var key, e := KeyOctets(akey), EsnOctets(esn);
    var st := Loaded(key, e);
    var lfsr := FromSeq(st.lfsr);
    var reg := FromSeq(st.reg);
    var offsets := FromSeq([128, 128]);
    RunCave(lfsr, reg, offsets, ROUNDS);
    CheckValueBound(akey, esn);
    var d := FromSeq(CheckOctets(reg[..]));
    var digits := WriteDigits(d);
    s := Text(digits);
  }

  method FromSeq(s: seq<Byte>) returns (a: array<Byte>)
    ensures a[..] == s
    ensures fresh(a)
  {
    a := new Byte[|s|](i requires 0 <= i < |s| => s[i]);
  }
}
