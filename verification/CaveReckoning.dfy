/** The steps of CAVE for given numbers, every condition written out. */
module CaveReckoning {
  import opened Bytes
  import opened CaveTable
  import opened Cave
  import opened CaveRounds
  import opened CaveSteps

  /** A search that hits ends there. */
  lemma Finds(high: bool, w: nat, ah: Digit, al: Digit, bh: Digit, bl: Digit, q: nat, d: Digit, x: Byte, xh: Digit,
              xl: Digit, offset: Byte, n: Byte, nh: Digit, nl: Digit, th: Digit, tl: Digit, fail: nat, nibble: Byte)
    requires fail < RETRY_LIMIT
    requires Reads(w, ah, al, bh, bl, q, d)
    requires x == 16 * xh + xl && n == 16 * nh + nl
    requires if high then Moves(offset, bh, bl, xh, xl, nh, nl) else Moves(offset, ah, al, xh, xl, nh, nl)
    requires Row(nh, nl) == 16 * th + tl
    requires if high then th != xh && nibble == 16 * th else tl != xl && nibble == tl
    ensures Seeks(high, w, offset, x, fail, w, n, nibble)
  {
    HitSeeks(high, w, ah, al, bh, bl, q, d, x, xh, xl, offset, n, nh, nl, th, tl, fail, nibble);
  }

  /** A search that misses goes on to end where the one after the miss does. */
  lemma Misses(high: bool, w: nat, ah: Digit, al: Digit, bh: Digit, bl: Digit, q: nat, d: Digit, x: Byte, xh: Digit,
               xl: Digit, offset: Byte, n: Byte, nh: Digit, nl: Digit, th: Digit, tl: Digit, fail: nat, next: nat,
               w': nat, offset': Byte, nibble: Byte)
    requires fail + 1 < RETRY_LIMIT
    requires Reads(w, ah, al, bh, bl, q, d)
    requires Shifts(w, bh, d, next)
    requires x == 16 * xh + xl && n == 16 * nh + nl
    requires if high then Moves(offset, bh, bl, xh, xl, nh, nl) else Moves(offset, ah, al, xh, xl, nh, nl)
    requires Row(nh, nl) == 16 * th + tl
    requires if high then th == xh else tl == xl
    requires Seeks(high, next, n, x, fail + 1, w', offset', nibble)
    ensures Seeks(high, w, offset, x, fail, w', offset', nibble)
  {
    MissSeeks(high, w, ah, al, bh, bl, q, d, x, xh, xl, offset, n, nh, nl, th, tl, fail, next, w', offset', nibble);
  }

  /** A step, once both its searches are known. */
  lemma Turns(w: nat, low: Byte, high: Byte, x: Byte, y: Byte, yh: Digit, yl: Digit, w1: nat, low': Byte, tl: Digit,
              w2: nat, high': Byte, th: Digit, ah: Digit, al: Digit, bh: Digit, bl: Digit, q: nat, d: Digit, w': nat,
              v: Byte)
    requires Seeks(false, w, low, x, 0, w1, low', tl)
    requires Seeks(true, w1, high, x, 0, w2, high', 16 * th)
    requires Reads(w2, ah, al, bh, bl, q, d)
    requires Shifts(w2, bh, d, w')
    requires y == 16 * yh + yl
    requires v == 16 * XorDigit(yh, th) + XorDigit(yl, tl)
    ensures Turn(w, low, high, x, y, w', low', high', v)
  {
    TurnIs(w, low, high, x, y, yh, yl, w1, low', tl, w2, high', th, ah, al, bh, bl, q, d, w', v);
  }

  /** A step whose two searches hit at once. */
  lemma TurnsAtOnce(w: nat, ah: Digit, al: Digit, bh: Digit, bl: Digit, q: nat, d: Digit, x: Byte, xh: Digit, xl: Digit,
                    y: Byte, yh: Digit, yl: Digit, low: Byte, low': Byte, lh: Digit, ll: Digit, p: Digit, tl: Digit,
                    high: Byte, high': Byte, hh: Digit, hl: Digit, th: Digit, s: Digit, w': nat, v: Byte)
    requires Reads(w, ah, al, bh, bl, q, d)
    requires Shifts(w, bh, d, w')
    requires x == 16 * xh + xl && y == 16 * yh + yl
    requires Moves(low, ah, al, xh, xl, lh, ll)
    requires Moves(high, bh, bl, xh, xl, hh, hl)
    requires Row(lh, ll) == 16 * p + tl && tl != xl
    requires Row(hh, hl) == 16 * th + s && th != xh
    requires low' == 16 * lh + ll
    requires high' == 16 * hh + hl
    requires v == 16 * XorDigit(yh, th) + XorDigit(yl, tl)
    ensures Turn(w, low, high, x, y, w', low', high', v)
  {
    TurnAtOnce(w, ah, al, bh, bl, q, d, x, xh, xl, y, yh, yl, low, low', lh, ll, p, tl, high, high', hh, hl, th, s, w',
               v);
  }

  /** Where the rotation and the shuffle of round `k` bring register `r`, `r0` being the one before it. */
  lemma Lands(st: State, scratch: Registers, k: nat, next: State, r: nat, r0: nat, v0: Byte, h0: Digit, l0: Digit,
              v: Byte, h: Digit, l: Digit, u: Digit, p: Digit, x: Byte)
    requires Leads(st, scratch, k, next)
    requires r < 16 && r0 == (if r == 0 then 15 else r - 1)
    requires Out(st, r0, v0) && Out(st, r, v)
    requires v0 == 16 * h0 + l0 && v == 16 * h + l
    requires k < 16 && Row(k, r) == 16 * u + p
    requires x == Turned(l0, h, l)
    ensures Reg(next, p, x)
  {
    Landing(st, scratch, k, next, r, r0, h0, l0, h, l, u, p);
  }
}
