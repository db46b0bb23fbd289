/**
 CAVE worked out on numbers: octets as pairs of hexadecimal digits and the shift register as a 32-bit word, so that
 a step is checked by comparing, adding and looking up.
 */
module CaveSteps {
  import opened Bytes
  import opened CaveTable
  import opened Cave
  import opened CaveRounds

  // The word

  predicate Bit2(d: Digit) {
    (4 <= d < 8) || 12 <= d
  }

  /** The word's first two octets, its last digit and what lies between. */
  predicate Reads(w: nat, ah: Digit, al: Digit, bh: Digit, bl: Digit, q: nat, d: Digit) {
    q < 0x1000 && w == 0x1000_0000 * ah + 0x100_0000 * al + 0x10_0000 * bh + 0x1_0000 * bl + 16 * q + d
  }

  lemma ReadsOctets(w: nat, ah: Digit, al: Digit, bh: Digit, bl: Digit, q: nat, d: Digit)
    requires Reads(w, ah, al, bh, bl, q, d)
    ensures w < 0x1_0000_0000 && ToBE(w, 4)[0] == Octet(ah, al) && ToBE(w, 4)[1] == Octet(bh, bl)
  {
    FirstOctets(w);
    var low := 16 * q + d;
    assert w / 0x1_0000 == 256 * Octet(ah, al) as int + Octet(bh, bl);
    assert w / 0x100_0000 == Octet(ah, al);
  }

  lemma FirstOctets(w: nat)
    requires w < 0x1_0000_0000
    ensures ToBE(w, 4)[0] == w / 0x100_0000 && ToBE(w, 4)[1] == w / 0x1_0000 % 256
  {
    var a, b, c := w / 256, w / 256 / 256, w / 256 / 256 / 256;
    assert b == w / 0x1_0000 && c == w / 0x100_0000;
    assert ToBE(w, 4) == ToBE(a, 3) + [w % 256];
    assert ToBE(a, 3) == ToBE(b, 2) + [a % 256];
    assert ToBE(b, 2) == ToBE(c, 1) + [b % 256];
    assert ToBE(c, 1) == ToBE(c / 256, 0) + [c % 256];
  }

  /** The exclusive or of bit 22 and of the last three bits. */
  function Tap(bh: Digit, d: Digit): (c: int) {
    Xor1(if Bit2(bh) then 1 else 0, Tap3(d))
  }

  /** The parity of the last three bits of a digit. */
  function Tap3(d: Digit): (c: int) {
    var n := if d >= 8 then d - 8 else d;
    if n == 1 || n == 2 || n == 4 || n == 7 then 1 else 0
  }

  lemma TapIs(w: nat, ah: Digit, al: Digit, bh: Digit, bl: Digit, q: nat, d: Digit)
    requires Reads(w, ah, al, bh, bl, q, d)
    ensures Tap(bh, d) == Odd(Bit(w, 0x40_0000), Bit(w, 4), Bit(w, 2), Bit(w, 1))
  {
    hide Bit, Bit2, Tap3, Odd;
    HighTap(w, ah, al, bh, bl, 16 * q + d);
    LowTaps(w, 0x100_0000 * ah + 0x10_0000 * al + 0x1_0000 * bh + 0x1000 * bl + q, d);
    OddSplits(Bit(w, 0x40_0000), Bit(w, 4), Bit(w, 2), Bit(w, 1));
  }

  lemma OddSplits(a: nat, b: nat, c: nat, d: nat)
    requires a <= 1
    ensures Odd(a, b, c, d) == Xor1(a, (b + c + d) % 2)
  {
  }

  lemma HighTap(w: nat, ah: Digit, al: Digit, bh: Digit, bl: Digit, low: nat)
    requires low < 0x1_0000 && w == 0x1000_0000 * ah + 0x100_0000 * al + 0x10_0000 * bh + 0x1_0000 * bl + low
    ensures Bit(w, 0x40_0000) == if Bit2(bh) then 1 else 0
  {
    var rest := 0x1_0000 * bl + low;
    var top := 64 * ah + 4 * al;
    if bh >= 12 {
      assert w / 0x40_0000 == top + 3;
    } else if bh >= 8 {
      assert w / 0x40_0000 == top + 2;
    } else if bh >= 4 {
      assert w / 0x40_0000 == top + 1;
    } else {
      assert w / 0x40_0000 == top;
    }
  }

  lemma LowTaps(w: nat, n: nat, d: Digit)
    requires w == 16 * n + d
    ensures (Bit(w, 4) + Bit(w, 2) + Bit(w, 1)) % 2 == Tap3(d)
  {
    assert w / 4 == 4 * n + d / 4 && w / 2 == 8 * n + d / 2;
    EvenAbove(2 * n, d / 4);
    EvenAbove(4 * n, d / 2);
    EvenAbove(8 * n, d);
    hide Tap3;
    DigitTap(d);
  }

  lemma DigitTap(d: Digit)
    ensures (d / 4 % 2 + d / 2 % 2 + d % 2) % 2 == Tap3(d)
  {
  }

  /** The last bit of a digit. */
  function Last(d: Digit): (b: int) {
    var n := if d >= 8 then d - 8 else d;
    if n == 1 || n == 3 || n == 5 || n == 7 then 1 else 0
  }

  /** The word after one cycle. */
  predicate Shifts(w: nat, bh: Digit, d: Digit, w': nat) {
    2 * w' + Last(d) == w + 0x1_0000_0000 * Tap(bh, d)
  }

  lemma ShiftsNext(w: nat, ah: Digit, al: Digit, bh: Digit, bl: Digit, q: nat, d: Digit, w': nat)
    requires Reads(w, ah, al, bh, bl, q, d) && Shifts(w, bh, d, w')
    ensures w' == NextWord(w) < 0x1_0000_0000 && Cycle(ToBE(w, 4)) == ToBE(w', 4)
  {
    TapIs(w, ah, al, bh, bl, q, d);
    var c := Tap(bh, d);
    hide Tap, Bit;
    HalfWord(w, d, 0x100_0000 * ah + 0x10_0000 * al + 0x1_0000 * bh + 0x1000 * bl + q);
    assert w' == NextWord(w);
    hide NextWord;
    Widths();
    FromToBE(w, 4);
    CycleWord(ToBE(w, 4));
    ToFromBE(Cycle(ToBE(w, 4)));
    NextThenPrevious(w);
  }

  lemma HalfWord(w: nat, d: Digit, n: nat)
    requires w == 16 * n + d
    ensures w == 2 * (w / 2) + Last(d)
  {
    LastIs(d);
    hide Last;
    EvenAbove(8 * n, d);
  }

  lemma LastIs(d: Digit)
    ensures Last(d) == d % 2
  {
  }

  // Tries

  /** The nibble of an octet that a search is about, in place. */
  function DigitOf(high: bool, h: Digit, l: Digit): (n: Byte) {
    if high then 16 * h else l
  }

  /** One try of a search moves the offset by the exclusive or of an octet of the word and the register. */
  predicate Moves(offset: Byte, oh: Digit, ol: Digit, xh: Digit, xl: Digit, nh: Digit, nl: Digit) {
    var sum := offset as int + 16 * XorDigit(oh, xh) + XorDigit(ol, xl);
    16 * nh + nl == sum || 16 * nh + nl == sum - 256
  }

  lemma NibbleIs(high: bool, h: Digit, l: Digit)
    ensures Nibble(high, Octet(h, l)) == DigitOf(high, h, l)
  {
  }

  lemma MovesIs(high: bool, lfsr: Lfsr, oh: Digit, ol: Digit, offset: Byte, xh: Digit, xl: Digit, nh: Digit, nl: Digit)
    requires lfsr[if high then 1 else 0] == Octet(oh, ol) && Moves(offset, oh, ol, xh, xl, nh, nl)
    ensures NextOffset(high, lfsr, offset, Octet(xh, xl)) == Octet(nh, nl)
  {
    hide XorByte, XorDigit;
    XorOctets(oh, ol, xh, xl);
    Wraps(offset as int + 16 * XorDigit(oh, xh) + XorDigit(ol, xl), nh, nl);
  }

  lemma Wraps(sum: nat, nh: Digit, nl: Digit)
    requires 16 * nh + nl == sum || 16 * nh + nl == sum - 256
    ensures sum % 256 == Octet(nh, nl)
  {
  }

  lemma TableDigits(nh: Digit, nl: Digit)
    ensures Table(Octet(nh, nl)) == Row(nh, nl)
  {
    hide Row;
    assert Octet(nh, nl) as int / 16 == nh && Octet(nh, nl) as int % 16 == nl;
  }

  /** One try: the word is read, the offset moves to `nh`, `nl`, and the table holds `th`, `tl` there. */
  predicate Tries(high: bool, w: nat, ah: Digit, al: Digit, bh: Digit, bl: Digit, q: nat, d: Digit, xh: Digit,
                  xl: Digit, offset: Byte, nh: Digit, nl: Digit, th: Digit, tl: Digit)
  {
    && Reads(w, ah, al, bh, bl, q, d) && Row(nh, nl) == Octet(th, tl)
    && if high then Moves(offset, bh, bl, xh, xl, nh, nl) else Moves(offset, ah, al, xh, xl, nh, nl)
  }

  /** A try whose digit differs from the register's ends the search. */
  lemma Hit(high: bool, w: nat, ah: Digit, al: Digit, bh: Digit, bl: Digit, q: nat, d: Digit, xh: Digit, xl: Digit,
            offset: Byte, nh: Digit, nl: Digit, th: Digit, tl: Digit, fail: nat)
    requires fail < RETRY_LIMIT && Tries(high, w, ah, al, bh, bl, q, d, xh, xl, offset, nh, nl, th, tl)
    requires if high then th != xh else tl != xl
    ensures SeekFrom(high, ToBE(w, 4), offset, Octet(xh, xl), fail)
         == Found(ToBE(w, 4), Octet(nh, nl), DigitOf(high, th, tl), fail)
  {
    hide Moves, NextOffset, Table, Row, Nibble, Reads, ToBE;
    TryIs(high, w, ah, al, bh, bl, q, d, xh, xl, offset, nh, nl, th, tl);
    NibbleIs(high, xh, xl);
  }

  lemma TryIs(high: bool, w: nat, ah: Digit, al: Digit, bh: Digit, bl: Digit, q: nat, d: Digit, xh: Digit, xl: Digit,
              offset: Byte, nh: Digit, nl: Digit, th: Digit, tl: Digit)
    requires Tries(high, w, ah, al, bh, bl, q, d, xh, xl, offset, nh, nl, th, tl)
    ensures NextOffset(high, ToBE(w, 4), offset, Octet(xh, xl)) == Octet(nh, nl)
    ensures Nibble(high, Table(Octet(nh, nl))) == DigitOf(high, th, tl)
  {
    hide Moves, NextOffset, Table, Row, Nibble, Reads, ToBE;
    ReadsOctets(w, ah, al, bh, bl, q, d);
    if high {
      MovesIs(high, ToBE(w, 4), bh, bl, offset, xh, xl, nh, nl);
    } else {
      MovesIs(high, ToBE(w, 4), ah, al, offset, xh, xl, nh, nl);
    }
    TableDigits(nh, nl);
    NibbleIs(high, th, tl);
  }

  /** Any other try goes on from the offset it reached, after a cycle of the shift register. */
  lemma Miss(high: bool, w: nat, ah: Digit, al: Digit, bh: Digit, bl: Digit, q: nat, d: Digit, xh: Digit, xl: Digit,
             offset: Byte, nh: Digit, nl: Digit, th: Digit, tl: Digit, fail: nat, w': nat)
    requires fail + 1 < RETRY_LIMIT && Tries(high, w, ah, al, bh, bl, q, d, xh, xl, offset, nh, nl, th, tl)
    requires (if high then th == xh else tl == xl) && Shifts(w, bh, d, w')
    ensures SeekFrom(high, ToBE(w, 4), offset, Octet(xh, xl), fail)
         == SeekFrom(high, ToBE(w', 4), Octet(nh, nl), Octet(xh, xl), fail + 1)
  {
    assert Reads(w, ah, al, bh, bl, q, d);
    hide Tries, Moves, NextOffset, Table, Row, Nibble, Reads, Shifts, ToBE, Cycle;
    TryIs(high, w, ah, al, bh, bl, q, d, xh, xl, offset, nh, nl, th, tl);
    NibbleIs(high, xh, xl);
    ShiftsNext(w, ah, al, bh, bl, q, d, w');
  }

  // Mixing

  /** After `r` mixing steps of a round: the word and the offsets. */
  ghost predicate At(st: State, r: nat, w: nat, low: Byte, high: Byte) {
    && r <= 16 && MixUpTo(st, r).lfsr == ToBE(w, 4) && MixUpTo(st, r).low == low && MixUpTo(st, r).high == high
  }

  /** A search that ends at the word `w'` and the offset `offset'`, with the nibble found. */
  ghost predicate Seeks(high: bool, w: nat, offset: Byte, x: Byte, fail: nat, w': nat, offset': Byte, nibble: Byte) {
    fail < RETRY_LIMIT &&
    var f := SeekFrom(high, ToBE(w, 4), offset, x, fail);
    f.lfsr == ToBE(w', 4) && f.offset == offset' && f.nibble == nibble
  }

  /** A search that hits ends there. */
  lemma HitSeeks(high: bool, w: nat, ah: Digit, al: Digit, bh: Digit, bl: Digit, q: nat, d: Digit, x: Byte, xh: Digit,
                 xl: Digit, offset: Byte, n: Byte, nh: Digit, nl: Digit, th: Digit, tl: Digit, fail: nat, nibble: Byte)
    requires fail < RETRY_LIMIT && Tries(high, w, ah, al, bh, bl, q, d, xh, xl, offset, nh, nl, th, tl)
    requires if high then th != xh else tl != xl
    requires x == Octet(xh, xl) && n == Octet(nh, nl) && nibble == DigitOf(high, th, tl)
    ensures Seeks(high, w, offset, x, fail, w, n, nibble)
  {
    hide SeekFrom, ToBE, Tries;
    Hit(high, w, ah, al, bh, bl, q, d, xh, xl, offset, nh, nl, th, tl, fail);
  }

  /** A search that misses goes on to end where the one after the miss does. */
  lemma MissSeeks(high: bool, w: nat, ah: Digit, al: Digit, bh: Digit, bl: Digit, q: nat, d: Digit, x: Byte, xh: Digit,
                  xl: Digit, offset: Byte, n: Byte, nh: Digit, nl: Digit, th: Digit, tl: Digit, fail: nat, next: nat,
                  w': nat, offset': Byte, nibble: Byte)
    requires fail + 1 < RETRY_LIMIT && Tries(high, w, ah, al, bh, bl, q, d, xh, xl, offset, nh, nl, th, tl)
    requires (if high then th == xh else tl == xl) && Shifts(w, bh, d, next)
    requires x == Octet(xh, xl) && n == Octet(nh, nl) && Seeks(high, next, n, x, fail + 1, w', offset', nibble)
    ensures Seeks(high, w, offset, x, fail, w', offset', nibble)
  {
    hide SeekFrom, ToBE, Tries, Shifts;
    Miss(high, w, ah, al, bh, bl, q, d, xh, xl, offset, nh, nl, th, tl, fail, next);
  }

  /** A mixing step on numbers: from the word and offsets, for a register `x` with neighbour `y`, to the word and
      offsets after it and the register's new content. */
  ghost predicate Turn(w: nat, low: Byte, high: Byte, x: Byte, y: Byte, w': nat, low': Byte, high': Byte, v: Byte) {
    var f := SeekFrom(false, ToBE(w, 4), low, x, 0);
    var g := SeekFrom(true, f.lfsr, high, x, 0);
    && f.offset == low' && g.offset == high' && Cycle(g.lfsr) == ToBE(w', 4)
    && exists th: Digit, tl: Digit :: f.nibble == tl && g.nibble == 16 * th && v == XorByte(y, Octet(th, tl))
  }

  /** A step, once both its searches are known. */
  lemma TurnIs(w: nat, low: Byte, high: Byte, x: Byte, y: Byte, yh: Digit, yl: Digit, w1: nat, low': Byte, tl: Digit,
               w2: nat, high': Byte, th: Digit, ah: Digit, al: Digit, bh: Digit, bl: Digit, q: nat, d: Digit, w': nat,
               v: Byte)
    requires Seeks(false, w, low, x, 0, w1, low', tl) && Seeks(true, w1, high, x, 0, w2, high', 16 * th)
    requires Reads(w2, ah, al, bh, bl, q, d) && Shifts(w2, bh, d, w')
    requires y == Octet(yh, yl) && v == Octet(XorDigit(yh, th), XorDigit(yl, tl))
    ensures Turn(w, low, high, x, y, w', low', high', v)
  {
    hide SeekFrom, ToBE, Reads, Shifts, XorDigit, XorByte, Cycle;
    ShiftsNext(w2, ah, al, bh, bl, q, d, w');
    XorOctets(yh, yl, th, tl);
  }

  /** A step whose two searches hit at once. */
  lemma TurnAtOnce(w: nat, ah: Digit, al: Digit, bh: Digit, bl: Digit, q: nat, d: Digit, x: Byte, xh: Digit, xl: Digit,
                   y: Byte, yh: Digit, yl: Digit, low: Byte, low': Byte, lh: Digit, ll: Digit, p: Digit, tl: Digit,
                   high: Byte, high': Byte, hh: Digit, hl: Digit, th: Digit, s: Digit, w': nat, v: Byte)
    requires x == Octet(xh, xl) && y == Octet(yh, yl) && v == Octet(XorDigit(yh, th), XorDigit(yl, tl))
    requires low' == Octet(lh, ll) && Tries(false, w, ah, al, bh, bl, q, d, xh, xl, low, lh, ll, p, tl) && tl != xl
    requires high' == Octet(hh, hl) && Tries(true, w, ah, al, bh, bl, q, d, xh, xl, high, hh, hl, th, s) && th != xh
    requires Shifts(w, bh, d, w')
    ensures Turn(w, low, high, x, y, w', low', high', v)
  {
    assert Reads(w, ah, al, bh, bl, q, d);
    hide Tries, Reads, Shifts, XorDigit, Seeks, Turn;
    HitSeeks(false, w, ah, al, bh, bl, q, d, x, xh, xl, low, low', lh, ll, p, tl, 0, tl);
    HitSeeks(true, w, ah, al, bh, bl, q, d, x, xh, xl, high, high', hh, hl, th, s, 0, 16 * th);
    TurnIs(w, low, high, x, y, yh, yl, w, low', tl, w, high', th, ah, al, bh, bl, q, d, w', v);
  }

  /** What a register holds at the start of a round, and when it has been mixed. */
  ghost predicate Reg(st: State, r: nat, x: Byte) {
    r < 16 && st.reg[r] == x
  }

  ghost predicate Out(st: State, r: nat, v: Byte) {
    r < 16 && MixUpTo(st, 16).reg[r] == v
  }

  /** Mixing step `r` makes the turn. */
  lemma Take(st: State, r: nat, r1: nat, w: nat, low: Byte, high: Byte, x: Byte, y: Byte, w': nat, low': Byte,
             high': Byte, v: Byte)
    requires At(st, r, w, low, high)
    requires r < 16 && r1 == (if r == 15 then 0 else r + 1)
    requires Reg(st, r, x) && Reg(st, r1, y)
    requires Turn(w, low, high, x, y, w', low', high', v)
    ensures At(st, r + 1, w', low', high') && Out(st, r, v)
  {
    hide SeekFrom, ToBE, Or, XorByte, XorDigit, Cycle;
    Neighbour(r);
    var f := SeekFrom(false, ToBE(w, 4), low, x, 0);
    var g := SeekFrom(true, f.lfsr, high, x, 0);
    var th: Digit, tl: Digit :| f.nibble == tl && g.nibble == 16 * th && v == XorByte(y, Octet(th, tl));
    RegisterUnmixed(st, r);
    MixedIs(st, r, f, g);
    hide MixUpTo;
    MixMoves(st, 16, r);
    hide MixedAt;
    OrNibbles(tl, th);
  }

  lemma Neighbour(r: nat)
    requires r < 16
    ensures (r + 1) % 16 == if r == 15 then 0 else r + 1
    ensures (r + 15) % 16 == if r == 0 then 15 else r - 1
  {
  }

  lemma MixedIs(st: State, r: nat, f: Found, g: Found)
    requires r < 16 && LowFound(MixUpTo(st, r), r) == f && HighFound(MixUpTo(st, r), r) == g
    ensures MixedAt(st, r) == Or(f.nibble, g.nibble)
    ensures MixUpTo(st, r + 1).lfsr == Cycle(g.lfsr)
    ensures MixUpTo(st, r + 1).low == f.offset && MixUpTo(st, r + 1).high == g.offset
  {
    hide LowFound, HighFound, Cycle, Or, XorByte;
  }

  // The end of a round

  /** Half of a digit, and whether it is odd. */
  function Half(d: Digit): (h: int)
    ensures 0 <= h < 8 && (d == 2 * h || d == 2 * h + 1)
  {
    if d >= 8 then if d >= 12 then if d >= 14 then 7 else 6 else if d >= 10 then 5 else 4
    else if d >= 4 then if d >= 6 then 3 else 2 else if d >= 2 then 1 else 0
  }

  /** An octet turned right by a bit, the last bit of the octet before it coming in. */
  function Turned(before: Digit, h: Digit, l: Digit): (x: Byte) {
    128 * (before - 2 * Half(before)) + 16 * Half(h) + 8 * (h - 2 * Half(h)) + Half(l)
  }

  lemma TurnedIs(b: Byte, before: Digit, h: Digit, l: Digit)
    requires b % 2 == before % 2
    ensures Turned(before, h, l) == Octet(h, l) as int / 2 + 128 * (b % 2)
  {
    assert before % 2 == before - 2 * Half(before);
    assert Octet(h, l) == 2 * (8 * h + Half(l)) + (l - 2 * Half(l));
  }

  /** A round leads from one state to the next. */
  ghost predicate Leads(st: State, scratch: Registers, k: nat, next: State) {
    k < 16 && Round(st, scratch, k) == next
  }

  /** Where the rotation and the shuffle of round `k` bring register `r`, `r0` being the one before it. */
  lemma Landing(st: State, scratch: Registers, k: nat, next: State, r: nat, r0: nat, h0: Digit, l0: Digit, h: Digit,
                l: Digit, u: Digit, p: Digit)
    requires Leads(st, scratch, k, next) && r < 16 && r0 == if r == 0 then 15 else r - 1
    requires Out(st, r0, Octet(h0, l0)) && Out(st, r, Octet(h, l)) && Row(k, r) == Octet(u, p)
    ensures Reg(next, p, Turned(l0, h, l))
  {
    hide MixUpTo, Row, Scatter, Rotate, Turned, Half;
    var reg := MixUpTo(st, 16).reg;
    RoundShuffles(st, scratch, k);
    ScatterAt(k, Rotate(reg), Rotate(reg), 16, r);
    PlaceDigit(k, r, u, p);
    hide Place, Round;
    Neighbour(r);
    RotatedAt(reg, r);
    LowParity(h0, l0);
    TurnedIs(Octet(h0, l0), l0, h, l);
  }

  lemma LowParity(h: Digit, l: Digit)
    ensures Octet(h, l) % 2 == l % 2
  {
  }

  lemma PlaceDigit(k: nat, r: nat, u: Digit, p: Digit)
    requires k < 16 && r < 16 && Row(k, r) == Octet(u, p)
    ensures Place(k, r) == p
  {
    hide Row;
  }

  lemma RotatedAt(v: Registers, r: nat)
    requires r < 16
    ensures Rotate(v)[r] == v[r] as int / 2 + 128 * (v[(r + 15) % 16] as int % 2)
  {
  }

  lemma Begins(st: State, w: nat)
    requires FromBE(st.lfsr) == w
    ensures At(st, 0, w, st.low, st.high)
  {
    ToFromBE(st.lfsr);
  }

  lemma Ends(st: State, scratch: Registers, k: nat, next: State, w: nat, low: Byte, high: Byte)
    requires At(st, 16, w, low, high) && Leads(st, scratch, k, next)
    ensures next.lfsr == ToBE(w, 4) && At(next, 0, w, low, high)
  {
    hide MixUpTo, ToBE, Scatter, Rotate;
    Nothing(next);
  }

  lemma Nothing(st: State)
    ensures MixUpTo(st, 0) == st
  {
  }

  /** Eight rounds, one by one. */
  lemma EightRounds(st: State)
    returns (s7: State, s6: State, s5: State, s4: State, s3: State, s2: State, s1: State, s0: State)
    ensures Leads(st, ZEROS, 7, s7) && Leads(s7, s7.reg, 6, s6) && Leads(s6, s6.reg, 5, s5) && Leads(s5, s5.reg, 4, s4)
    ensures Leads(s4, s4.reg, 3, s3) && Leads(s3, s3.reg, 2, s2) && Leads(s2, s2.reg, 1, s1) && Leads(s1, s1.reg, 0, s0)
    ensures s0 == Rounds(st, ZEROS, 8)
  {
    hide Round;
    s7 := Round(st, ZEROS, 7);
    s6 := Round(s7, s7.reg, 6);
    s5 := Round(s6, s6.reg, 5);
    s4 := Round(s5, s5.reg, 4);
    s3 := Round(s4, s4.reg, 3);
    s2 := Round(s3, s3.reg, 2);
    s1 := Round(s2, s2.reg, 1);
    s0 := Round(s1, s1.reg, 0);
    assert Rounds(st, ZEROS, 8) == Rounds(s7, s7.reg, 7);
    assert Rounds(s7, s7.reg, 7) == Rounds(s6, s6.reg, 6);
    assert Rounds(s6, s6.reg, 6) == Rounds(s5, s5.reg, 5);
    assert Rounds(s5, s5.reg, 5) == Rounds(s4, s4.reg, 4);
    assert Rounds(s4, s4.reg, 4) == Rounds(s3, s3.reg, 3);
    assert Rounds(s3, s3.reg, 3) == Rounds(s2, s2.reg, 2);
    assert Rounds(s2, s2.reg, 2) == Rounds(s1, s1.reg, 1);
    assert Rounds(s1, s1.reg, 1) == Rounds(s0, s0.reg, 0);
  }
}
