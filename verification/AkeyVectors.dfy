/** The A-key checksums of two published pairs of key and serial number, worked out. */
module AkeyVectors {
  import opened Bytes
  import opened Cave
  import opened CaveRounds
  import opened CaveSteps
  import opened Akey
  import CaveVector1
  import CaveVector2

  /** Octets that stand for the key and the serial number are those that are loaded. */
  lemma Octets(akey: int, esn: int, k: seq<Byte>, e: seq<Byte>)
    requires |k| == 8 && |e| == 4 && 0 <= akey && 0 <= esn
    requires akey == 0x1_0000_0000 * Word(k[0], k[1], k[2], k[3]) + Word(k[4], k[5], k[6], k[7])
    requires esn == Word(e[0], e[1], e[2], e[3])
    ensures KeyOctets(akey) == k && EsnOctets(esn) == e
  {
    hide FromBE, ToBE, Word;
    FourOctets(e);
    ToFromBE(e);
    EsnBound(e);
    KeyWord(k);
    ToFromBE(k);
    Small(akey, 0x1_0000_0000_0000_0000);
    Small(esn, 0x1_0000_0000);
  }

  lemma Small(n: nat, p: nat)
    requires n < p
    ensures n % p == n
  {
  }

  lemma EsnBound(e: seq<Byte>)
    requires |e| == 4
    ensures FromBE(e) < 0x1_0000_0000
  {
    Widths();
  }

  lemma KeyWord(k: seq<Byte>)
    requires |k| == 8
    ensures FromBE(k) == 0x1_0000_0000 * Word(k[0], k[1], k[2], k[3]) + Word(k[4], k[5], k[6], k[7])
    ensures FromBE(k) < 0x1_0000_0000_0000_0000
  {
    hide FromBE;
    Widths();
    FourOctets(k[..4]);
    FourOctets(k[4..]);
    assert k == k[..4] + k[4..];
    FromBEJoin(k[..4], k[4..]);
  }

  /** What is loaded, octet by octet. */
  lemma LoadedOctets(k: seq<Byte>, e: seq<Byte>)
    requires |k| == 8 && |e| == 4 && k[0] != 0
    ensures var st := Loaded(k, e);
            && st.lfsr == [k[0], k[1], k[2], k[3]] && st.low == 128 && st.high == 128
            && Reg(st, 0, k[0]) && Reg(st, 1, k[1]) && Reg(st, 2, k[2]) && Reg(st, 3, k[3])
            && Reg(st, 4, k[4]) && Reg(st, 5, k[5]) && Reg(st, 6, k[6]) && Reg(st, 7, k[7])
            && Reg(st, 8, 0xc7) && Reg(st, 9, k[5]) && Reg(st, 10, k[6]) && Reg(st, 11, k[7])
            && Reg(st, 12, e[0]) && Reg(st, 13, e[1]) && Reg(st, 14, e[2]) && Reg(st, 15, e[3])
  {
    assert k[..4] == [k[0], k[1], k[2], k[3]];
    assert k[..4][0] != 0 && [0, 0, 0, 0][0] == 0;
  }

  /** The registers that eight rounds leave, and the value they are checked by. */
  lemma Checked(reg: Registers, a: Byte, ah: Digit, al: Digit, b: Byte, bh: Digit, bl: Digit, c: Byte, ch: Digit,
                cl: Digit, d: Byte, dh: Digit, dl: Digit, e: Byte, eh: Digit, el: Digit, f: Byte, fh: Digit, fl: Digit,
                top: Byte)
    requires reg[0] == a && reg[1] == b && reg[2] == c && reg[13] == d && reg[14] == e && reg[15] == f
    requires a == 16 * ah + al && b == 16 * bh + bl && c == 16 * ch + cl
    requires d == 16 * dh + dl && e == 16 * eh + el && f == 16 * fh + fl
    requires top < 4 && exists n :: XorDigit(al, dl) == 4 * n + top
    ensures FromBE(CheckOctets(reg)) == 0x1_0000 * (top as int) + 0x100 * (16 * XorDigit(bh, eh) + XorDigit(bl, el))
                                        + (16 * XorDigit(ch, fh) + XorDigit(cl, fl))
  {
    hide XorDigit, XorByte, FromBE;
    XorOctets(ah, al, dh, dl);
    XorOctets(bh, bl, eh, el);
    XorOctets(ch, cl, fh, fl);
    var n :| XorDigit(al, dl) == 4 * n + top;
    LowBits(4 * XorDigit(ah, dh) + n, top);
    ThreeOctets(CheckOctets(reg));
  }

  lemma LowBits(n: int, top: nat)
    requires top < 4
    ensures (4 * n + top) % 4 == top
  {
  }

  // Key 14142135623730950488, serial number 0xd75a96ec

  const KEY1: seq<Byte> := [0xc4, 0x42, 0xf5, 0x6b, 0xe9, 0xe1, 0x71, 0x58]
  const ESN1: seq<Byte> := [0xd7, 0x5a, 0x96, 0xec]

  lemma Loads1()
    ensures Loaded(KeyOctets(14142135623730950488), EsnOctets(0xd75a96ec)) == Loaded(KEY1, ESN1)
  {
    Octets(14142135623730950488, 0xd75a96ec, KEY1, ESN1);
  }

  lemma Starts1(st: State)
    requires st == Loaded(KEY1, ESN1)
    ensures At(st, 0, 0xc442f56b, 0x80, 0x80)
    ensures Reg(st, 0, 0xc4) && Reg(st, 1, 0x42) && Reg(st, 2, 0xf5) && Reg(st, 3, 0x6b)
    ensures Reg(st, 4, 0xe9) && Reg(st, 5, 0xe1) && Reg(st, 6, 0x71) && Reg(st, 7, 0x58)
    ensures Reg(st, 8, 0xc7) && Reg(st, 9, 0xe1) && Reg(st, 10, 0x71) && Reg(st, 11, 0x58)
    ensures Reg(st, 12, 0xd7) && Reg(st, 13, 0x5a) && Reg(st, 14, 0x96) && Reg(st, 15, 0xec)
  {
    hide At, ToBE, FromBE, Loaded, Reg;
    LoadedOctets(KEY1, ESN1);
    FourOctets([0xc4, 0x42, 0xf5, 0x6b]);
    Begins(st, 0xc442f56b);
  }

  lemma Vector1()
    ensures CheckValue(14142135623730950488, 0xd75a96ec) == 86500
  {
    hide Rounds, At, Reg, FromBE, CheckOctets, Loaded;
    Loads1();
    var st := Loaded(KEY1, ESN1);
    Starts1(st);
    CaveVector1.Runs(st);
    Reads1(Rounds(st, ZEROS, 8));
  }

  lemma Reads1(end: State)
    requires Reg(end, 0, 0x62) && Reg(end, 1, 0x3d) && Reg(end, 2, 0xfb)
    requires Reg(end, 13, 0xd7) && Reg(end, 14, 0x6c) && Reg(end, 15, 0x1f)
    ensures FromBE(CheckOctets(end.reg)) == 86500
  {
    hide FromBE, CheckOctets;
    assert XorDigit(2, 7) == 4 * 1 + 1;
    Checked(end.reg, 0x62, 6, 2, 0x3d, 3, 13, 0xfb, 15, 11, 0xd7, 13, 7, 0x6c, 6, 12, 0x1f, 1, 15, 1);
  }

  // Key 11223344556677889900, serial number 0xf274799a

  const KEY2: seq<Byte> := [0x9b, 0xc1, 0x54, 0x69, 0x14, 0x99, 0x7f, 0x6c]
  const ESN2: seq<Byte> := [0xf2, 0x74, 0x79, 0x9a]

  lemma Loads2()
    ensures Loaded(KeyOctets(11223344556677889900), EsnOctets(0xf274799a)) == Loaded(KEY2, ESN2)
  {
    Octets(11223344556677889900, 0xf274799a, KEY2, ESN2);
  }

  lemma Starts2(st: State)
    requires st == Loaded(KEY2, ESN2)
    ensures At(st, 0, 0x9bc15469, 0x80, 0x80)
    ensures Reg(st, 0, 0x9b) && Reg(st, 1, 0xc1) && Reg(st, 2, 0x54) && Reg(st, 3, 0x69)
    ensures Reg(st, 4, 0x14) && Reg(st, 5, 0x99) && Reg(st, 6, 0x7f) && Reg(st, 7, 0x6c)
    ensures Reg(st, 8, 0xc7) && Reg(st, 9, 0x99) && Reg(st, 10, 0x7f) && Reg(st, 11, 0x6c)
    ensures Reg(st, 12, 0xf2) && Reg(st, 13, 0x74) && Reg(st, 14, 0x79) && Reg(st, 15, 0x9a)
  {
    hide At, ToBE, FromBE, Loaded, Reg;
    LoadedOctets(KEY2, ESN2);
    FourOctets([0x9b, 0xc1, 0x54, 0x69]);
    Begins(st, 0x9bc15469);
  }

  lemma Vector2()
    ensures CheckValue(11223344556677889900, 0xf274799a) == 10032
  {
    hide Rounds, At, Reg, FromBE, CheckOctets, Loaded;
    Loads2();
    var st := Loaded(KEY2, ESN2);
    Starts2(st);
    CaveVector2.Runs(st);
    Reads2(Rounds(st, ZEROS, 8));
  }

  lemma Reads2(end: State)
    requires Reg(end, 0, 0x0a) && Reg(end, 1, 0x38) && Reg(end, 2, 0xb3)
    requires Reg(end, 13, 0xf2) && Reg(end, 14, 0x1f) && Reg(end, 15, 0x83)
    ensures FromBE(CheckOctets(end.reg)) == 10032
  {
    hide FromBE, CheckOctets;
    assert XorDigit(10, 2) == 4 * 2 + 0;
    Checked(end.reg, 0x0a, 0, 10, 0x38, 3, 8, 0xb3, 11, 3, 0xf2, 15, 2, 0x1f, 1, 15, 0x83, 8, 3, 0);
  }

  // The texts

  lemma {:induction false} DecimalUnique(a: seq<nat>, b: seq<nat>)
    requires |a| == |b| && AreDigits(a) && AreDigits(b) && Decimal(a) == Decimal(b)
    ensures a == b
  {
    if a != [] {
      var n := |a| - 1;
      LastDigit(Decimal(a[..n]), a[n], Decimal(b[..n]), b[n]);
      DecimalUnique(a[..n], b[..n]);
      assert a == a[..n] + [a[n]] && b == b[..n] + [b[n]];
    }
  }

  lemma LastDigit(m: nat, x: nat, n: nat, y: nat)
    requires x < 10 && y < 10 && 10 * m + x == 10 * n + y
    ensures m == n && x == y
  {
  }

  /** A numeral of given length is told by its value. */
  lemma NumeralUnique(s: string, t: string)
    requires |s| == |t| && IsNumeral(s) && IsNumeral(t) && Decimal(Digits(s)) == Decimal(Digits(t))
    ensures s == t
  {
    hide Decimal;
    DecimalUnique(Digits(s), Digits(t));
    forall i | 0 <= i < |s| ensures s[i] == t[i] {
      assert Digits(s)[i] == Digits(t)[i];
    }
  }

  /** The published check digits of the two pairs. */
  method PublishedDigits() returns (first: string, second: string)
    ensures first == "086500" && second == "010032"
  {
    hide Rounds, CheckValue;
    first := AkeyChecksum(14142135623730950488, 0xd75a96ec);
    second := AkeyChecksum(11223344556677889900, 0xf274799a);
    Vector1();
    Vector2();
    Values();
    hide Decimal;
    NumeralUnique(first, "086500");
    NumeralUnique(second, "010032");
  }

  lemma Values()
    ensures IsNumeral("086500") && Decimal(Digits("086500")) == 86500
    ensures IsNumeral("010032") && Decimal(Digits("010032")) == 10032
  {
    SixDigits([0, 8, 6, 5, 0, 0]);
    SixDigits([0, 1, 0, 0, 3, 2]);
    assert Digits("086500") == [0, 8, 6, 5, 0, 0] && Digits("010032") == [0, 1, 0, 0, 3, 2];
  }

  lemma SixDigits(d: seq<nat>)
    requires |d| == 6
    ensures Decimal(d) == 100000 * d[0] + 10000 * d[1] + 1000 * d[2] + 100 * d[3] + 10 * d[4] + d[5]
  {
    assert d[..5][..4] == d[..4] && d[..4][..3] == d[..3] && d[..3][..2] == d[..2] && d[..2][..1] == d[..1];
    assert Decimal(d[..1]) == d[0];
    assert Decimal(d[..2]) == 10 * Decimal(d[..1]) + d[1];
    assert Decimal(d[..3]) == 10 * Decimal(d[..2]) + d[2];
    assert Decimal(d[..4]) == 10 * Decimal(d[..3]) + d[3];
    assert Decimal(d[..5]) == 10 * Decimal(d[..4]) + d[4];
  }
}
