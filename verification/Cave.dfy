/** The CAVE mixing of S.S0053 section 2: a 32-bit shift register, sixteen registers and two table offsets. */
module Cave {
  import opened Bytes
  import opened CaveTable

  const RETRY_LIMIT: nat := 32

  /** The shift register. */
  type Lfsr = s: seq<Byte> | |s| == 4 witness [0, 0, 0, 0]

  type Registers = s: seq<Byte> | |s| == 16 witness [0, 0, 0, 0, 0, 0, 0, 0, 0, 0, 0, 0, 0, 0, 0, 0]

  // Shifting by one bit

  /** One bit to the right, with `top` entering on the left. */
  function Shifted(s: seq<Byte>, top: nat): (t: seq<Byte>)
    requires top <= 1
    ensures |t| == |s|
  {
    seq(|s|, i requires 0 <= i < |s| => (s[i] as int) / 2 + 128 * (if i == 0 then top else (s[i - 1] as int) % 2))
  }

  lemma Parity(s: seq<Byte>)
    requires s != []
    ensures FromBE(s) % 2 == (s[|s| - 1] as int) % 2
  {
  }

  /** Shifting the octets shifts the number they stand for. */
  lemma {:induction false} ShiftedValue(s: seq<Byte>, top: nat)
    requires s != [] && top <= 1
    ensures FromBE(Shifted(s, top)) == FromBE(s) / 2 + top * (128 * Pow256(|s| - 1))
  {
    var front, last := s[..|s| - 1], s[|s| - 1];
    var t := Shifted(s, top);
    if front == [] {
      assert t[..0] == [];
    } else {
      assert t[..|s| - 1] == Shifted(front, top);
      ShiftedValue(front, top);
      Parity(front);
      assert s[|s| - 2] == front[|front| - 1];
      ShiftStep(FromBE(front), last, top, Pow256(|s| - 2));
    }
  }

  lemma ShiftStep(f: nat, x: Byte, top: nat, p: nat)
    requires top <= 1
    ensures 256 * (f / 2 + top * (128 * p)) + ((x as int) / 2 + 128 * (f % 2))
         == (256 * f + x) / 2 + top * (128 * (256 * p))
  {
    assert top == 0 || top == 1;
  }

  method ShiftRight(a: array<Byte>, top: nat)
    requires a.Length > 0 && top <= 1
    modifies a
    ensures a[..] == Shifted(old(a[..]), top)
  {
    var i := a.Length - 1;
    while i > 0
      invariant 0 <= i < a.Length
      invariant a[..i + 1] == old(a[..i + 1])
      invariant forall j | i < j < a.Length :: a[j] == Shifted(old(a[..]), top)[j]
    {
      a[i] := (a[i] as int) / 2;
      if (a[i - 1] as int) % 2 != 0 {
        a[i] := (a[i] as int) + 128;
      }
      i := i - 1;
    }
    a[0] := (a[0] as int) / 2 + 128 * top;
  }

  // The shift register

  /** The bit of a number at a place, given by its value. */
  function Bit(n: nat, place: nat): (bit: nat)
    requires place > 0
    ensures bit <= 1
  {
    (n / place) % 2
  }

  /** The exclusive or of four bits. */
  function Odd(a: nat, b: nat, c: nat, d: nat): (bit: nat)
    ensures bit <= 1
  {
    (a + b + c + d) % 2
  }

  function Carry(s: Lfsr): (top: nat)
    ensures top <= 1
  {
    Odd(Bit(s[1], 64), Bit(s[3], 4), Bit(s[3], 2), Bit(s[3], 1))
  }

  function Cycle(s: Lfsr): (t: Lfsr) {
    Shifted(s, Carry(s))
  }

  method LfsrCycle(lfsr: array<Byte>)
    requires lfsr.Length == 4
    modifies lfsr
    ensures lfsr[..] == Cycle(old(lfsr[..]))
  {
    var carry := Carry(lfsr[..]);
    ShiftRight(lfsr, carry);
  }

  /** The step on 32-bit words: taps at bits 22, 2, 1 and 0. */
  function NextWord(w: nat): (w': nat) {
    w / 2 + 0x8000_0000 * Odd(Bit(w, 0x40_0000), Bit(w, 4), Bit(w, 2), Bit(w, 1))
  }

  function PreviousWord(w: nat): (w': nat) {
    2 * (w % 0x8000_0000) + Odd(Bit(w, 0x8000_0000), Bit(w, 0x20_0000), Bit(w, 2), Bit(w, 1))
  }

  /** A bit above 31 others. */
  lemma TopBit(h: nat, c: nat)
    requires h < 0x8000_0000 && c <= 1
    ensures var n := h + 0x8000_0000 * c;
            && n < 0x1_0000_0000 && Bit(n, 0x8000_0000) == c && n % 0x8000_0000 == h
            && Bit(n, 0x20_0000) == Bit(h, 0x20_0000) && Bit(n, 2) == Bit(h, 2) && Bit(n, 1) == Bit(h, 1)
  {
    if c == 1 {
      Lifted(h);
    }
  }

  lemma Lifted(h: nat)
    requires h < 0x8000_0000
    ensures var n := h + 0x8000_0000;
            && n / 0x8000_0000 == 1 && n % 0x8000_0000 == h
            && (n / 0x20_0000) % 2 == (h / 0x20_0000) % 2 && (n / 2) % 2 == (h / 2) % 2 && n % 2 == h % 2
  {
    var n := h + 0x8000_0000;
    assert n / 0x20_0000 == h / 0x20_0000 + 0x400;
    assert n / 2 == h / 2 + 0x4000_0000;
  }

  /** Three of four bits and the exclusive or of all give back the fourth. */
  lemma OddCancels(a: nat, b: nat, c: nat, d: nat)
    requires d <= 1
    ensures Odd(Odd(a, b, c, d), a, b, c) == d && Odd(a, b, c, Odd(d, a, b, c)) == d
  {
  }

  /** A bit below 31 others. */
  lemma LowBit(h: nat, b: nat)
    requires h < 0x8000_0000 && b <= 1
    ensures var n := 2 * h + b;
            && n < 0x1_0000_0000 && n / 2 == h && Bit(n, 1) == b
            && Bit(n, 0x40_0000) == Bit(h, 0x20_0000) && Bit(n, 4) == Bit(h, 2) && Bit(n, 2) == Bit(h, 1)
  {
  }

  lemma NextThenPrevious(w: U32)
    ensures NextWord(w) < 0x1_0000_0000 && PreviousWord(NextWord(w)) == w
  {
    hide Bit, Odd;
    var h, b := w / 2, w % 2;
    LowBit(h, b);
    TopBit(h, Odd(Bit(w, 0x40_0000), Bit(w, 4), Bit(w, 2), Bit(w, 1)));
    OddCancels(Bit(w, 0x40_0000), Bit(w, 4), Bit(w, 2), b);
  }

  lemma PreviousThenNext(w: U32)
    ensures PreviousWord(w) < 0x1_0000_0000 && NextWord(PreviousWord(w)) == w
  {
    hide Bit, Odd;
    var h, c := w % 0x8000_0000, w / 0x8000_0000;
    TopBit(h, c);
    LowBit(h, Odd(c, Bit(w, 0x20_0000), Bit(w, 2), Bit(w, 1)));
    OddCancels(Bit(w, 0x20_0000), Bit(w, 2), Bit(w, 1), c);
  }

  function Word(a: int, b: int, c: int, d: int): (w: int) {
    0x100_0000 * a + 0x1_0000 * b + 0x100 * c + d
  }

  lemma FourOctets(s: Lfsr)
    ensures FromBE(s) == Word(s[0], s[1], s[2], s[3])
  {
    assert s[..3][..2] == s[..2] && s[..2][..1] == s[..1] && s[..1][..0] == [];
    assert FromBE(s[..1]) == s[0];
    assert FromBE(s[..2]) == 256 * FromBE(s[..1]) + s[1];
    assert FromBE(s[..3]) == 256 * FromBE(s[..2]) + s[2];
  }

  lemma Taps(a: Byte, b: Byte, c: Byte, d: Byte)
    ensures Word(a, b, c, d) >= 0 && Bit(Word(a, b, c, d), 0x40_0000) == Bit(b, 64)
    ensures Bit(Word(a, b, c, d), 4) == Bit(d, 4)
    ensures Bit(Word(a, b, c, d), 2) == Bit(d, 2)
    ensures Bit(Word(a, b, c, d), 1) == Bit(d, 1)
  {
    var w := Word(a, b, c, d);
    BitBetween(a, b, 0x100 * (c as int) + d, w);
    BitOver(0x1_0000 * (a as int) + 0x100 * (b as int) + c, d, w);
  }

  lemma BitOver(high: nat, d: Byte, w: nat)
    requires w == 0x100 * high + d
    ensures Bit(w, 4) == Bit(d, 4) && Bit(w, 2) == Bit(d, 2) && Bit(w, 1) == Bit(d, 1)
  {
    assert w / 4 == 0x40 * high + (d as int) / 4;
    assert w / 2 == 0x80 * high + (d as int) / 2;
    EvenAbove(0x20 * high, (d as int) / 4);
    EvenAbove(0x40 * high, (d as int) / 2);
    EvenAbove(0x80 * high, d);
  }

  lemma EvenAbove(n: nat, m: nat)
    ensures (2 * n + m) % 2 == m % 2
  {
  }

  lemma BitBetween(a: Byte, b: Byte, low: U16, w: nat)
    requires w == 0x100_0000 * (a as int) + 0x1_0000 * (b as int) + low
    ensures Bit(w, 0x40_0000) == Bit(b, 64)
  {
    assert w / 0x40_0000 == 4 * (a as int) + (b as int) / 64;
  }

  lemma CycleWord(s: Lfsr)
    ensures FromBE(Cycle(s)) == NextWord(FromBE(s))
  {
    var top := Carry(s);
    assert 128 * Pow256(3) == 0x8000_0000 by {
      Widths();
      assert Pow256(4) == 256 * Pow256(3);
    }
    hide Bit, Odd, FromBE, Word, Shifted, Pow256;
    ShiftedValue(s, top);
    FourOctets(s);
    Taps(s[0], s[1], s[2], s[3]);
    assert top * (128 * Pow256(3)) == 0x8000_0000 * top;
  }

  /** The step that undoes a cycle of the shift register. */
  function Uncycle(s: Lfsr): (t: Lfsr) {
    ToBE(PreviousWord(FromBE(s)), 4)
  }

  /** Cycling is a bijection on the register's states. */
  lemma CycleBijection(s: Lfsr)
    ensures Uncycle(Cycle(s)) == s && Cycle(Uncycle(s)) == s
  {
    hide Cycle, PreviousWord, NextWord;
    Widths();
    var w := FromBE(s);
    CycleWord(s);
    NextThenPrevious(w);
    PreviousThenNext(w);
    ToFromBE(s);
    FromToBE(PreviousWord(w), 4);
    CycleWord(Uncycle(s));
    ToFromBE(Cycle(Uncycle(s)));
  }

  // The rotation

  const TOP: nat := 0x8000_0000_0000_0000_0000_0000_0000_0000

  function Rotate(s: Registers): (t: Registers) {
    Shifted(s, Bit(s[15], 1))
  }

  method RotateRegisters(reg: array<Byte>)
    requires reg.Length == 16
    modifies reg
    ensures reg[..] == Rotate(old(reg[..]))
  {
    var last := reg[15];
    ShiftRight(reg, Bit(last, 1));
  }

  /** The registers, read as one 128-bit number, are rotated right by one. */
  lemma RotateWord(s: Registers)
    ensures FromBE(s) < 2 * TOP
    ensures FromBE(Rotate(s)) == FromBE(s) / 2 + (FromBE(s) % 2) * TOP
  {
    Parity(s);
    Sixteen();
    ShiftedValue(s, Bit(s[15], 1));
  }

  lemma Sixteen()
    ensures 128 * Pow256(15) == TOP && Pow256(16) == 2 * TOP
  {
    assert Pow256(16) == 256 * Pow256(15);
    assert Pow256(12) == 0x1_0000_0000_0000_0000_0000_0000 by {
      Widths();
      assert Pow256(12) == 0x1_0000_0000 * Pow256(8);
    }
    assert Pow256(15) == 0x100_0000 * Pow256(12);
  }

  /** Rotating left undoes it. */
  lemma RotateBack(s: Registers)
    ensures var v := FromBE(Rotate(s)); FromBE(s) == 2 * (v % TOP) + v / TOP
  {
    hide Rotate, FromBE;
    RotateWord(s);
    TurnBack(FromBE(s));
  }

  lemma TurnBack(w: nat)
    requires w < 2 * TOP
    ensures var v := w / 2 + (w % 2) * TOP; w == 2 * (v % TOP) + v / TOP
  {
    if w % 2 == 0 {
      assert (w / 2 + 0 * TOP) / TOP == 0;
    } else {
      assert (w / 2 + 1 * TOP) / TOP == 1;
    }
  }

  // The shuffle

  /** Where the shuffle of a round puts a register; past the table's sixteen rows everything goes to place 0. */
  function Place(k: nat, r: nat): (v: nat)
    requires r < 16
    ensures v < 16
  {
    if k < 16 then Low(Row(k, r)) else 0
  }

  /** The first `n` registers put in their places. */
  function Scatter(k: nat, s: Registers, into: Registers, n: nat): (t: Registers)
    requires n <= 16
  {
    if n == 0 then into else Scatter(k, s, into, n - 1)[Place(k, n - 1) := s[n - 1]]
  }

  function Shuffled(k: nat, s: Registers): (t: Registers)
    requires k < 16
  {
    Scatter(k, s, s, 16)
  }

  function Unshuffled(k: nat, t: Registers): (s: Registers)
    requires k < 16
  {
    seq(16, r requires 0 <= r < 16 => t[Place(k, r)])
  }

  lemma {:induction false} ScatterAt(k: nat, s: Registers, into: Registers, n: nat, r: nat)
    requires k < 16 && r < n <= 16
    ensures Scatter(k, s, into, n)[Place(k, r)] == s[r]
  {
    hide Row, Low;
    if r < n - 1 {
      ScatterAt(k, s, into, n - 1, r);
      if Place(k, r) == Place(k, n - 1) {
        Apart(k, r, n - 1);
      }
    }
  }

  ghost function Below(n: nat): (s: set<nat>)
    ensures |s| == n && forall v: nat :: v in s <==> v < n
  {
    if n == 0 then {} else Below(n - 1) + {n - 1}
  }

  ghost function Places(k: nat, n: nat): (s: set<nat>)
    requires k < 16 && n <= 16
    ensures forall v :: v in s <==> exists r: nat | r < n :: Place(k, r) == v
  {
    if n == 0 then {} else Places(k, n - 1) + {Place(k, n - 1)}
  }

  lemma {:induction false} CountPlaces(k: nat, n: nat)
    requires k < 16 && n <= 16
    ensures |Places(k, n)| == n
  {
    hide Row, Low;
    if n > 0 {
      CountPlaces(k, n - 1);
      if Place(k, n - 1) in Places(k, n - 1) {
        var r: nat :| r < n - 1 && Place(k, r) == Place(k, n - 1);
        Apart(k, r, n - 1);
      }
    }
  }

  lemma {:induction false} Smaller(a: set<nat>, b: set<nat>)
    requires a <= b
    ensures |a| <= |b|
  {
    if a != {} {
      var x :| x in a;
      Smaller(a - {x}, b - {x});
    }
  }

  /** Every place receives a register. */
  lemma Filled(k: nat, v: nat) returns (r: nat)
    requires k < 16 && v < 16
    ensures r < 16 && Place(k, r) == v
  {
    hide Place;
    CountPlaces(k, 16);
    PlacesBelow(k);
    AllOf(Places(k, 16), 16, v);
    r :| r < 16 && Place(k, r) == v;
  }

  lemma PlacesBelow(k: nat)
    requires k < 16
    ensures Places(k, 16) <= Below(16)
  {
    hide Place, Below;
  }

  lemma AllOf(a: set<nat>, n: nat, v: nat)
    requires a <= Below(n) && |a| == n && v < n
    ensures v in a
  {
    if v !in a {
      Smaller(a + {v}, Below(n));
    }
  }

  /** What the scatter starts from does not matter: all of it is overwritten. */
  lemma ScatterAll(k: nat, s: Registers, into: Registers)
    requires k < 16
    ensures Scatter(k, s, into, 16) == Shuffled(k, s)
  {
    hide Place, Scatter;
    forall v: nat | v < 16 ensures Scatter(k, s, into, 16)[v] == Scatter(k, s, s, 16)[v] {
      var r := Filled(k, v);
      ScatterAt(k, s, into, 16, r);
      ScatterAt(k, s, s, 16, r);
    }
  }

  /** Every round's shuffle is a permutation of the registers. */
  lemma ShufflePermutes(k: nat, s: Registers)
    requires k < 16
    ensures Unshuffled(k, Shuffled(k, s)) == s && Shuffled(k, Unshuffled(k, s)) == s
    ensures forall r, r' :: 0 <= r < r' < 16 ==> Place(k, r) != Place(k, r')
  {
    hide Place, Scatter, Row, Low;
    forall r: nat | r < 16 ensures Shuffled(k, s)[Place(k, r)] == s[r] {
      ScatterAt(k, s, s, 16, r);
    }
    var t := Unshuffled(k, s);
    forall v: nat | v < 16 ensures Shuffled(k, t)[v] == s[v] {
      var r := Filled(k, v);
      ScatterAt(k, t, t, 16, r);
    }
    forall r: nat, r': nat | r < r' < 16 ensures Place(k, r) != Place(k, r') {
      PlacesApart(k, r, r');
    }
  }

  lemma PlacesApart(k: nat, r: nat, r': nat)
    requires k < 16 && r < r' < 16
    ensures Place(k, r) != Place(k, r')
  {
    hide Row, Low;
    if Place(k, r) == Place(k, r') {
      Apart(k, r, r');
    }
  }

  method ShuffleRegisters(reg: array<Byte>, shuffle: array<Byte>, k: nat)
    requires reg.Length == 16 && shuffle.Length == 16 && reg != shuffle
    modifies reg, shuffle
    ensures reg[..] == shuffle[..] == Scatter(k, old(reg[..]), old(shuffle[..]), 16)
  {
    hide Row, Low;
    for r := 0 to 16
      invariant reg[..] == old(reg[..])
      invariant shuffle[..] == Scatter(k, old(reg[..]), old(shuffle[..]), r)
    {
      shuffle[Place(k, r)] := reg[r];
    }
    for r := 0 to 16
      invariant shuffle[..] == Scatter(k, old(reg[..]), old(shuffle[..]), 16)
      invariant reg[..r] == shuffle[..r]
    {
      reg[r] := shuffle[r];
    }
    assert reg[..] == reg[..16] && shuffle[..] == shuffle[..16];
  }
}
