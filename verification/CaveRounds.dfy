/** The rounds of CAVE: sixteen mixing steps, a rotation and a shuffle each. */
module CaveRounds {
  import opened Bytes
  import opened CaveTable
  import opened Cave

  datatype State = State(lfsr: Lfsr, reg: Registers, low: Byte, high: Byte)

  // Looking for a nibble

  /** The low nibble of an octet, or its high nibble in place. */
  function Nibble(high: bool, x: Byte): (n: Byte)
  {
    if high then (x as int) / 16 * 16 else (x as int) % 16
  }

  /** Where a search ended: the shift register, the offset, the nibble found and the tries it took. */
  datatype Found = Found(lfsr: Lfsr, offset: Byte, nibble: Byte, tries: nat)

  function Bump(lfsr: Lfsr): (lfsr': Lfsr) {
    lfsr[3 := ((lfsr[3] as int) + 1) % 256]
  }

  function NextOffset(high: bool, lfsr: Lfsr, offset: Byte, x: Byte): (offset': Byte) {
    ((offset as int) + XorByte(lfsr[if high then 1 else 0], x)) % 256
  }

  /** Moves the offset until the table gives another nibble than the register's, at most thirty-two times. */
  function SeekFrom(high: bool, lfsr: Lfsr, offset: Byte, x: Byte, fail: nat): (f: Found)
    requires fail < RETRY_LIMIT
    decreases RETRY_LIMIT - fail
  {
    var next := NextOffset(high, lfsr, offset, x);
    var nibble := Nibble(high, Table(next));
    if nibble != Nibble(high, x) then Found(lfsr, next, nibble, fail)
    else if fail + 1 == RETRY_LIMIT then Found(Bump(Cycle(lfsr)), next, nibble, fail + 1)
    else SeekFrom(high, Cycle(lfsr), next, x, fail + 1)
  }

  function Cycles(lfsr: Lfsr, n: nat): (lfsr': Lfsr)
    decreases n
  {
    if n == 0 then lfsr else Cycles(Cycle(lfsr), n - 1)
  }

  /** A search ends within thirty-two tries, each costing one cycle of the shift register; it finds another
      nibble unless all of them failed, and only then is the register bumped. */
  lemma {:induction false} SeekEnds(high: bool, lfsr: Lfsr, offset: Byte, x: Byte, fail: nat)
    requires fail < RETRY_LIMIT
    ensures var f := SeekFrom(high, lfsr, offset, x, fail);
            && fail <= f.tries <= RETRY_LIMIT
            && f.nibble == Nibble(high, Table(f.offset))
            && (f.nibble == Nibble(high, x) <==> f.tries == RETRY_LIMIT)
            && f.lfsr == (if f.tries == RETRY_LIMIT then Bump(Cycles(lfsr, f.tries - fail))
                          else Cycles(lfsr, f.tries - fail))
    decreases RETRY_LIMIT - fail
  {
    hide Table, Cycle, XorByte, Nibble, Bump, NextOffset;
    var next := NextOffset(high, lfsr, offset, x);
    if Nibble(high, Table(next)) == Nibble(high, x) {
      assert Cycles(lfsr, 1) == Cycle(lfsr);
      if fail + 1 < RETRY_LIMIT {
        SeekEnds(high, Cycle(lfsr), next, x, fail + 1);
      }
    }
  }

  method Seek(high: bool, lfsr: array<Byte>, start: Byte, x: Byte) returns (offset: Byte, nibble: Byte)
    requires lfsr.Length == 4
    modifies lfsr
    ensures var f := SeekFrom(high, old(lfsr[..]), start, x, 0);
            lfsr[..] == f.lfsr && offset == f.offset && nibble == f.nibble
  {
    hide Table, Cycle, XorByte, Nibble;
    offset, nibble := start, 0;
    var fail := 0;
    while true
      invariant fail < RETRY_LIMIT
      invariant SeekFrom(high, lfsr[..], offset, x, fail) == SeekFrom(high, old(lfsr[..]), start, x, 0)
      decreases RETRY_LIMIT - fail
    {
      offset := NextOffset(high, lfsr[..], offset, x);
      nibble := Nibble(high, Table(offset));
      if nibble != Nibble(high, x) {
        break;
      }
      LfsrCycle(lfsr);
      fail := fail + 1;
      if fail == RETRY_LIMIT {
        lfsr[3] := ((lfsr[3] as int) + 1) % 256;
        break;
      }
    }
  }

  // Mixing

  /** The searches for one register, and the octet they give. */
  function LowFound(st: State, r: nat): (f: Found)
    requires r < 16
  {
    SeekFrom(false, st.lfsr, st.low, st.reg[r], 0)
  }

  function HighFound(st: State, r: nat): (f: Found)
    requires r < 16
  {
    SeekFrom(true, LowFound(st, r).lfsr, st.high, st.reg[r], 0)
  }

  function Mixed(st: State, r: nat): (x: Byte)
    requires r < 16
  {
    SeekEnds(false, st.lfsr, st.low, st.reg[r], 0);
    SeekEnds(true, LowFound(st, r).lfsr, st.high, st.reg[r], 0);
    NibblesJoin(Table(LowFound(st, r).offset), Table(HighFound(st, r).offset));
    Or(LowFound(st, r).nibble, HighFound(st, r).nibble)
  }

  lemma NibblesJoin(a: Byte, b: Byte)
    ensures var x := Or(Nibble(false, a), Nibble(true, b));
            x < 256 && Nibble(false, x) == Nibble(false, a) && Nibble(true, x) == Nibble(true, b)
  {
    OrNibbles(Low(a), (b as int) / 16);
    NibblesOf(Low(a), (b as int) / 16);
  }

  lemma NibblesOf(low: nat, high: nat)
    requires low < 16 && high < 16
    ensures (low + 16 * high) % 16 == low && (low + 16 * high) / 16 == high
  {
  }

  lemma OrNibbles(a: nat, b: nat)
    requires a < 16 && b < 16
    ensures Or(a, 16 * b) == a + 16 * b
  {
    assert Pow2(4) == 16;
    OrAdds(a, b, 4);
  }

  lemma {:induction false} OrZero(b: nat)
    ensures Or(0, b) == b
  {
    if b > 0 {
      OrZero(b / 2);
    }
  }

  /** Numbers without a common bit are joined by adding them. */
  lemma {:induction false} OrAdds(a: nat, m: nat, n: nat)
    requires a < Pow2(n)
    ensures Or(a, Pow2(n) * m) == a + Pow2(n) * m
  {
    if n == 0 {
      OrZero(m);
    } else {
      var b := Pow2(n - 1) * m;
      assert Pow2(n) * m == 2 * b;
      OrAdds(a / 2, m, n - 1);
    }
  }

  /** One step: a register takes its neighbour's content, exclusive or the octet found for its own. */
  function MixOne(st: State, r: nat, first: Byte): (st': State)
    requires r < 16
  {
    State(Cycle(HighFound(st, r).lfsr),
          st.reg[r := XorByte(if r == 15 then first else st.reg[r + 1], Mixed(st, r))],
          LowFound(st, r).offset, HighFound(st, r).offset)
  }

  function MixUpTo(st: State, n: nat): (st': State)
    requires n <= 16
  {
    if n == 0 then st else MixOne(MixUpTo(st, n - 1), n - 1, st.reg[0])
  }

  /** The octets found during a round. */
  function MixedAt(st: State, r: nat): (x: Byte)
    requires r < 16
  {
    Mixed(MixUpTo(st, r), r)
  }

  /** Registers not yet reached are as they were; the others hold what their neighbour held, exclusive or the
      octet found. */
  lemma {:induction false} MixMoves(st: State, n: nat, r: nat)
    requires r < 16 && n <= 16
    ensures MixUpTo(st, n).reg[r] == if r < n then XorByte(st.reg[(r + 1) % 16], MixedAt(st, r)) else st.reg[r]
  {
    hide XorByte, Mixed, LowFound, HighFound, Cycle;
    if n > 0 {
      MixMoves(st, n - 1, r);
      if n < 16 {
        MixMoves(st, n - 1, n);
      }
    }
  }

  lemma RegisterUnmixed(st: State, r: nat)
    requires r < 16
    ensures MixUpTo(st, r).reg[r] == st.reg[r]
  {
    MixMoves(st, r, r);
  }

  /** Either nibble mixed in differs from that of the register being replaced, unless thirty-two tries failed. */
  lemma MixDiffers(st: State, r: nat)
    requires r < 16
    ensures var at := MixUpTo(st, r);
            && (LowFound(at, r).tries < RETRY_LIMIT ==> Nibble(false, MixedAt(st, r)) != Nibble(false, st.reg[r]))
            && (HighFound(at, r).tries < RETRY_LIMIT ==> Nibble(true, MixedAt(st, r)) != Nibble(true, st.reg[r]))
  {
    hide Table, XorByte, SeekFrom, MixUpTo, Nibble, Low, Or, Cycles, Bump;
    var at := MixUpTo(st, r);
    RegisterUnmixed(st, r);
    SeekEnds(false, at.lfsr, at.low, at.reg[r], 0);
    SeekEnds(true, LowFound(at, r).lfsr, at.high, at.reg[r], 0);
    NibblesJoin(Table(LowFound(at, r).offset), Table(HighFound(at, r).offset));
  }

  // Rounds

  /** One round; the scratch array of the shuffle keeps what an earlier round left in it. */
  function Round(st: State, scratch: Registers, k: nat): (st': State) {
    var mixed := MixUpTo(st, 16);
    mixed.(reg := Scatter(k, Rotate(mixed.reg), scratch, 16))
  }

  /** Rounds from the highest number down. */
  function Rounds(st: State, scratch: Registers, n: int): (st': State)
    decreases n
  {
    if n <= 0 then st
    else
      var st' := Round(st, scratch, n - 1);
      Rounds(st', st'.reg, n - 1)
  }

  /** Up to the sixteen rows of the table the scratch array has no influence: each round shuffles. */
  lemma RoundShuffles(st: State, scratch: Registers, k: nat)
    requires k < 16
    ensures Round(st, scratch, k).reg == Shuffled(k, Rotate(MixUpTo(st, 16).reg))
  {
    hide MixUpTo, Rotate, Shuffled, Scatter;
    ScatterAll(k, Rotate(MixUpTo(st, 16).reg), scratch);
  }

  lemma RoundsForget(st: State, scratch: Registers, scratch': Registers, n: int)
    requires n <= 16
    ensures Rounds(st, scratch, n) == Rounds(st, scratch', n)
  {
    hide MixUpTo, Rotate, Shuffled, Scatter;
    if n > 0 {
      RoundShuffles(st, scratch, n - 1);
      RoundShuffles(st, scratch', n - 1);
    }
  }

  ghost function StateOf(lfsr: array<Byte>, reg: array<Byte>, offsets: array<Byte>): (st: State)
    requires lfsr.Length == 4 && reg.Length == 16 && offsets.Length == 2
    reads lfsr, reg, offsets
  {
    State(lfsr[..], reg[..], offsets[0], offsets[1])
  }

  method MixRegisters(lfsr: array<Byte>, reg: array<Byte>, offsets: array<Byte>)
    requires lfsr.Length == 4 && reg.Length == 16 && offsets.Length == 2
    modifies lfsr, reg, offsets
    ensures StateOf(lfsr, reg, offsets) == MixUpTo(old(StateOf(lfsr, reg, offsets)), 16)
  {
    hide Table, Cycle, XorByte, SeekFrom;
    ghost var st := StateOf(lfsr, reg, offsets);
    var reg0 := reg[0];
    for r := 0 to 16
      invariant StateOf(lfsr, reg, offsets) == MixUpTo(st, r)
    {
      ghost var at := MixUpTo(st, r);
      var offset, low := Seek(false, lfsr, offsets[0], reg[r]);
      offsets[0] := offset;
      var high;
      offset, high := Seek(true, lfsr, offsets[1], reg[r]);
      offsets[1] := offset;
      ghost var byte := Mixed(at, r);
      var mixed := Or(low, high);
      reg[r] := XorByte(if r == 15 then reg0 else reg[r + 1], mixed);
      LfsrCycle(lfsr);
    }
  }

  const ZEROS: Registers := [0, 0, 0, 0, 0, 0, 0, 0, 0, 0, 0, 0, 0, 0, 0, 0]

  method RunCave(lfsr: array<Byte>, reg: array<Byte>, offsets: array<Byte>, rounds: int)
    requires lfsr.Length == 4 && reg.Length == 16 && offsets.Length == 2
    modifies lfsr, reg, offsets
    ensures StateOf(lfsr, reg, offsets) == Rounds(old(StateOf(lfsr, reg, offsets)), ZEROS, rounds)
  {
    hide Scatter, Rotate, MixUpTo;
    var shuffle := new Byte[16](_ => 0);
    assert shuffle[..] == ZEROS;
    var round := rounds;
    while round > 0
      invariant Rounds(StateOf(lfsr, reg, offsets), shuffle[..], round)
             == Rounds(old(StateOf(lfsr, reg, offsets)), ZEROS, rounds)
    {
      round := round - 1;
      MixRegisters(lfsr, reg, offsets);
      RotateRegisters(reg);
      ShuffleRegisters(reg, shuffle, round);
    }
  }
}
