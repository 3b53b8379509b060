/** Hash slots (hashslot.go), against the Redis Cluster Specification: the table-driven CRC16 is the
    remainder of polynomial division over GF(2), and hash tags decide which bytes are hashed. */
module Gf2 {
  // Polynomials over GF(2) are natural numbers: bit i is the coefficient of x^i.

  /** Addition of polynomials: exclusive or. */
  function Xor(a: nat, b: nat): nat {
    if a == 0 then b
    else if b == 0 then a
    else 2 * Xor(a / 2, b / 2) + (if a % 2 == b % 2 then 0 else 1)
  }

  /** Multiplication of polynomials. */
  function Times(a: nat, b: nat): nat {
    if a == 0 then 0
    else Xor(2 * Times(a / 2, b), if a % 2 == 1 then b else 0)
  }

  lemma XorBits(a: nat, b: nat)
    ensures Xor(a, b) / 2 == Xor(a / 2, b / 2)
    ensures Xor(a, b) % 2 == if a % 2 == b % 2 then 0 else 1
  {
  }

  lemma {:induction false} XorComm(a: nat, b: nat)
    ensures Xor(a, b) == Xor(b, a)
  {
    if a == 0 || b == 0 {
    } else {
      XorComm(a / 2, b / 2);
    }
  }

  lemma {:induction false} XorAssoc(a: nat, b: nat, c: nat)
    ensures Xor(Xor(a, b), c) == Xor(a, Xor(b, c))
    decreases a + b + c
  {
    if a == 0 || b == 0 || c == 0 {
    } else {
      XorAssoc(a / 2, b / 2, c / 2);
      XorBits(a, b);
      XorBits(b, c);
      XorBits(Xor(a, b), c);
      XorBits(a, Xor(b, c));
    }
  }

  lemma {:induction false} XorSelf(a: nat)
    ensures Xor(a, a) == 0
  {
    if a == 0 {
    } else {
      XorSelf(a / 2);
    }
  }

  lemma XorCancel(a: nat, b: nat)
    ensures Xor(Xor(a, b), b) == a
    ensures Xor(a, b) == 0 ==> a == b
  {
    XorAssoc(a, b, b);
    XorSelf(b);
    if Xor(a, b) == 0 { XorComm(0, b); }
  }

  lemma XorDouble(a: nat, b: nat)
    ensures Xor(2 * a, 2 * b) == 2 * Xor(a, b)
  {
    XorBits(2 * a, 2 * b);
  }

  function Pow2(n: nat): (p: nat)
    ensures p > 0
  {
    if n == 0 then 1 else 2 * Pow2(n - 1)
  }

  lemma {:induction false} XorBound(a: nat, b: nat, n: nat)
    requires a < Pow2(n) && b < Pow2(n)
    ensures Xor(a, b) < Pow2(n)
    decreases n
  {
    if a == 0 || b == 0 {
    } else {
      XorBound(a / 2, b / 2, n - 1);
    }
  }

  /** A sum has the higher of two different degrees. */
  lemma {:induction false} XorTop(a: nat, b: nat, n: nat)
    requires a < Pow2(n) <= b
    ensures Xor(a, b) >= Pow2(n)
    decreases n
  {
    if a == 0 {
    } else {
      XorTop(a / 2, b / 2, n - 1);
      XorBits(a, b);
    }
  }

  /** Multiplying by a non-zero polynomial does not lower the degree. */
  lemma {:induction false} TimesDegree(q: nat, g: nat, n: nat)
    requires q > 0 && Pow2(n) <= g < 2 * Pow2(n)
    ensures Times(q, g) >= Pow2(n)
    decreases q
  {
    if q == 1 {
      assert Times(0, g) == 0;
    } else {
      TimesDegree(q / 2, g, n);
      var low := if q % 2 == 1 then g else 0;
      XorComm(2 * Times(q / 2, g), low);
      assert Pow2(n + 1) == 2 * Pow2(n);
      XorTop(low, 2 * Times(q / 2, g), n + 1);
    }
  }

  /** r is the remainder of dividing m by g, which has degree n. */
  ghost predicate IsRemainder(m: nat, g: nat, n: nat, r: nat) {
    r < Pow2(n) && exists q :: m == Xor(Times(q, g), r)
  }

  lemma {:induction false} TimesDistributes(p: nat, q: nat, g: nat)
    ensures Times(Xor(p, q), g) == Xor(Times(p, g), Times(q, g))
    decreases p + q
  {
    if p == 0 {
    } else if q == 0 {
      XorComm(Times(p, g), 0);
    } else {
      var p', q' := Times(p / 2, g), Times(q / 2, g);
      var i, j := (if p % 2 == 1 then g else 0), (if q % 2 == 1 then g else 0);
      TimesDistributes(p / 2, q / 2, g);
      XorBits(p, q);
      XorDouble(p', q');
      calc {
        Xor(Xor(2 * p', i), Xor(2 * q', j));
        { XorAssoc(2 * p', i, Xor(2 * q', j)); XorAssoc(i, 2 * q', j); XorComm(i, 2 * q'); XorAssoc(2 * q', i, j); }
        Xor(2 * p', Xor(2 * q', Xor(i, j)));
        { XorAssoc(2 * p', 2 * q', Xor(i, j)); }
        Xor(2 * Xor(p', q'), Xor(i, j));
      }
      XorSelf(g);
      XorComm(i, j);
      if Xor(p, q) == 0 { XorComm(2 * Xor(p', q'), 0); assert Times(Xor(p, q), g) == 0; }
    }
  }

  /** Division has one remainder. */
  lemma RemainderUnique(m: nat, g: nat, n: nat, r: nat, r': nat)
    requires Pow2(n) <= g < 2 * Pow2(n) && IsRemainder(m, g, n, r) && IsRemainder(m, g, n, r')
    ensures r == r'
  {
    var q :| m == Xor(Times(q, g), r);
    var q' :| m == Xor(Times(q', g), r');
    var a, b := Times(q, g), Times(q', g);
    // a + r == b + r'  gives  a + b == r + r'
    XorAssoc(a, r, r'); XorAssoc(b, r', r'); XorSelf(r'); XorComm(b, 0);
    assert Xor(a, Xor(r, r')) == b;
    XorAssoc(a, a, Xor(r, r')); XorSelf(a);
    assert Xor(a, b) == Xor(r, r');
    TimesDistributes(q, q', g);
    XorBound(r, r', n);
    if Xor(q, q') > 0 { TimesDegree(Xor(q, q'), g, n); }
    XorCancel(r, r');
  }

  // ----- Shifted sums -----

  /** a * x^n */
  function Shift(a: nat, n: nat): nat {
    if n == 0 then a else 2 * Shift(a, n - 1)
  }

  lemma {:induction false} XorShift(a: nat, b: nat, n: nat)
    ensures Xor(Shift(a, n), Shift(b, n)) == Shift(Xor(a, b), n)
    decreases n
  {
    if n == 0 {
    } else {
      XorShift(a, b, n - 1);
      XorDouble(Shift(a, n - 1), Shift(b, n - 1));
    }
  }

  /** Sums of polynomials without a common power are sums of numbers. */
  lemma {:induction false} XorSplit(low: nat, high: nat, n: nat)
    requires low < Pow2(n)
    ensures Xor(low, Shift(high, n)) == low + Shift(high, n)
    decreases n
  {
    if n == 0 {
    } else {
      XorSplit(low / 2, high, n - 1);
      XorBits(low, Shift(high, n));
    }
  }

  lemma {:induction false} TimesShift(q: nat, g: nat, n: nat)
    ensures Times(Shift(q, n), g) == Shift(Times(q, g), n)
    decreases n
  {
    if n == 0 {
    } else {
      TimesShift(q, g, n - 1);
      XorComm(2 * Times(Shift(q, n - 1), g), 0);
    }
  }

  lemma {:induction false} PowIsShift(n: nat)
    ensures Shift(1, n) == Pow2(n) && Shift(0, n) == 0
    decreases n
  {
    if n == 0 {
    } else {
      PowIsShift(n - 1);
    }
  }

  function Bit(a: nat, n: nat): nat {
    if n == 0 then a % 2 else Bit(a / 2, n - 1)
  }

  /** Changing one coefficient. */
  function Flip(a: nat, n: nat): int {
    if Bit(a, n) == 1 then a - Pow2(n) else a + Pow2(n)
  }

  lemma {:induction false} XorPower(a: nat, n: nat)
    ensures Xor(a, Pow2(n)) == Flip(a, n)
    decreases n
  {
    XorBits(a, Pow2(n));
    if n == 0 {
      XorComm(a / 2, 0);
    } else {
      XorPower(a / 2, n - 1);
    }
  }

  /** Adding x^n + x^m + 1. */
  lemma XorThree(s: nat, m: nat, n: nat)
    requires 0 < m < n
    ensures Flip(s, 0) >= 0 && Flip(Flip(s, 0), m) >= 0
    ensures Xor(s, 1 + Pow2(m) + Pow2(n)) == Flip(Flip(Flip(s, 0), m), n)
  {
    var x, y := Pow2(m), Pow2(n);
    PowIsShift(m);
    PowIsShift(n);
    PowGrows(m, n);
    XorSplit(1, 1, m);
    XorSplit(1 + x, 1, n);
    XorPower(s, 0);
    XorPower(Xor(s, 1), m);
    XorPower(Xor(Xor(s, 1), x), n);
    XorAssoc(s, 1, x);
    XorAssoc(s, 1 + x, y);
  }

  lemma {:induction false} PowGrows(m: nat, n: nat)
    requires 0 < m < n
    ensures 1 < Pow2(m) && 1 + Pow2(m) < Pow2(n)
    decreases n
  {
    if m > 1 {
      PowGrows(m - 1, n - 1);
    } else {
      assert Pow2(m) == 2 * Pow2(0) && Pow2(n) == 4 * Pow2(n - 2);
    }
  }

  // ----- Remainders -----

  /** Remainders add up. */
  lemma RemaindersAdd(m: nat, m': nat, g: nat, n: nat, r: nat, r': nat)
    requires IsRemainder(m, g, n, r) && IsRemainder(m', g, n, r')
    ensures IsRemainder(Xor(m, m'), g, n, Xor(r, r'))
  {
    var q :| m == Xor(Times(q, g), r);
    var q' :| m' == Xor(Times(q', g), r');
    var a, b := Times(q, g), Times(q', g);
    calc {
      Xor(Xor(a, r), Xor(b, r'));
      { XorAssoc(a, r, Xor(b, r')); XorAssoc(r, b, r'); XorComm(r, b); XorAssoc(b, r, r'); XorAssoc(a, b, Xor(r, r')); }
      Xor(Xor(a, b), Xor(r, r'));
      { TimesDistributes(q, q', g); }
      Xor(Times(Xor(q, q'), g), Xor(r, r'));
    }
    XorBound(r, r', n);
  }

  /** A multiple of the divisor has remainder zero, and a short polynomial is its own remainder. */
  lemma TrivialRemainders(q: nat, g: nat, n: nat, r: nat)
    requires r < Pow2(n)
    ensures IsRemainder(Times(q, g), g, n, 0) && IsRemainder(r, g, n, r)
  {
    XorComm(Times(q, g), 0);
    assert Times(q, g) == Xor(Times(q, g), 0);
    assert r == Xor(Times(0, g), r);
  }

  /** The leading power leaves the tail of the divisor. */
  lemma PowerRemainder(tail: nat, n: nat)
    requires tail < Pow2(n)
    ensures IsRemainder(Pow2(n), Pow2(n) + tail, n, tail)
  {
    var g := Pow2(n) + tail;
    PowIsShift(n);
    XorSplit(tail, 1, n);
    XorComm(tail, Pow2(n));
    XorCancel(Pow2(n), tail);
    assert Times(0, g) == 0;
    assert Times(1, g) == g;
    assert Pow2(n) == Xor(Times(1, g), tail);
  }

  /** The register after the shift, before the reduction. */
  lemma ShiftRemainder(r: nat, bit: bool, tail: nat, n: nat)
    requires 0 < n && r < Pow2(n) && tail < Pow2(n)
    ensures var top := r >= Pow2(n - 1);
            var s := if top then 2 * r - Pow2(n) else 2 * r;
            IsRemainder(Xor(2 * r, if bit then Pow2(n) else 0), Pow2(n) + tail, n,
                        if top != bit then Xor(s, tail) else s)
  {
    var p, g := Pow2(n), Pow2(n) + tail;
    var top := r >= Pow2(n - 1);
    var s := if top then 2 * r - p else 2 * r;
    PowIsShift(n);
    XorSplit(s, if top then 1 else 0, n);
    var x, y := (if top then p else 0), (if bit then p else 0);
    assert Xor(s, x) == 2 * r;
    XorAssoc(s, x, y);
    XorSelf(p);
    XorComm(p, 0);
    XorComm(s, 0);
    TrivialRemainders(0, g, n, s);
    if top != bit {
      PowerRemainder(tail, n);
      RemaindersAdd(s, p, g, n, s, tail);
    }
  }

  /** k more coefficients of the dividend. */
  lemma NextCoefficients(m: nat, g: nat, n: nat, r: nat, k: nat, low: nat, r': nat)
    requires IsRemainder(m, g, n, r) && IsRemainder(Xor(Shift(r, k), low), g, n, r')
    ensures IsRemainder(Xor(Shift(m, k), low), g, n, r')
  {
    var q :| m == Xor(Times(q, g), r);
    var t := Times(q, g);
    XorShift(t, r, k);
    XorAssoc(Shift(t, k), Shift(r, k), low);
    TimesShift(q, g, k);
    TrivialRemainders(Shift(q, k), g, n, r);
    RemaindersAdd(Shift(t, k), Xor(Shift(r, k), low), g, n, 0, r');
  }

  lemma {:induction false} ShiftShift(a: nat, m: nat, n: nat)
    ensures Shift(Shift(a, m), n) == Shift(a, m + n)
    decreases n
  {
    if n == 0 {
    } else {
      ShiftShift(a, m, n - 1);
    }
  }

  lemma {:induction false} ShiftAdd(a: nat, b: nat, n: nat)
    ensures Shift(a + b, n) == Shift(a, n) + Shift(b, n)
    decreases n
  {
    if n == 0 {
    } else {
      ShiftAdd(a, b, n - 1);
    }
  }

  lemma Shift4(a: nat, n: nat)
    ensures Shift(a, n + 4) == 16 * Shift(a, n)
  {
    assert Shift(a, n + 4) == 2 * Shift(a, n + 3);
    assert Shift(a, n + 3) == 2 * Shift(a, n + 2);
    assert Shift(a, n + 2) == 2 * Shift(a, n + 1);
  }

  lemma ShiftFacts(a: nat)
    ensures Shift(a, 8) == 256 * a && Shift(a, 16) == 0x10000 * a
  {
    Shift4(a, 0);
    Shift4(a, 4);
    Shift4(a, 8);
    Shift4(a, 12);
  }

  lemma Bit4(a: nat, n: nat)
    ensures Bit(a, n + 4) == Bit(a / 16, n)
  {
    var b := a / 2;
    var c := b / 2;
    var d := c / 2;
    assert Bit(a, n + 4) == Bit(b, n + 3);
    assert Bit(b, n + 3) == Bit(c, n + 2);
    assert Bit(c, n + 2) == Bit(d, n + 1);
    assert d / 2 == a / 16;
  }

  lemma BitFacts(a: nat)
    ensures Bit(a, 5) == (a / 32) % 2
    ensures Bit(a, 12) == (a / 4096) % 2
  {
    Bit4(a, 1);
    assert Bit(a / 16, 1) == a / 16 / 2 % 2 by { assert Bit(a / 16, 1) == Bit(a / 16 / 2, 0); }
    Bit4(a, 8);
    Bit4(a / 16, 4);
    Bit4(a / 256, 0);
    assert a / 16 / 16 == a / 256 && a / 256 / 16 == a / 4096;
  }
}

module HashSlot {
  import opened Gf2

  type Byte = b: int | 0 <= b < 256

  const OPEN: Byte := 123   // '{'
  const CLOSE: Byte := 125  // '}'
  const SLOTS: nat := 16384

  /** x^16 + x^12 + x^5 + 1 */
  const POLY: nat := 0x11021

  /** The polynomial whose coefficients are the bits of the key, most significant bit first. */
  function Poly(key: seq<Byte>): nat {
    if key == [] then 0 else 256 * Poly(key[..|key| - 1]) + key[|key| - 1]
  }

  /** The 256 entries of crc16tab, eight to a row. */
  function Crc16Row(r: nat): (row: seq<nat>)
    requires r < 32
    ensures |row| == 8
  {
    match r
    case 0 => [0x0000, 0x1021, 0x2042, 0x3063, 0x4084, 0x50a5, 0x60c6, 0x70e7]
    case 1 => [0x8108, 0x9129, 0xa14a, 0xb16b, 0xc18c, 0xd1ad, 0xe1ce, 0xf1ef]
    case 2 => [0x1231, 0x0210, 0x3273, 0x2252, 0x52b5, 0x4294, 0x72f7, 0x62d6]
    case 3 => [0x9339, 0x8318, 0xb37b, 0xa35a, 0xd3bd, 0xc39c, 0xf3ff, 0xe3de]
    case 4 => [0x2462, 0x3443, 0x0420, 0x1401, 0x64e6, 0x74c7, 0x44a4, 0x5485]
    case 5 => [0xa56a, 0xb54b, 0x8528, 0x9509, 0xe5ee, 0xf5cf, 0xc5ac, 0xd58d]
    case 6 => [0x3653, 0x2672, 0x1611, 0x0630, 0x76d7, 0x66f6, 0x5695, 0x46b4]
    case 7 => [0xb75b, 0xa77a, 0x9719, 0x8738, 0xf7df, 0xe7fe, 0xd79d, 0xc7bc]
    case 8 => [0x48c4, 0x58e5, 0x6886, 0x78a7, 0x0840, 0x1861, 0x2802, 0x3823]
    case 9 => [0xc9cc, 0xd9ed, 0xe98e, 0xf9af, 0x8948, 0x9969, 0xa90a, 0xb92b]
    case 10 => [0x5af5, 0x4ad4, 0x7ab7, 0x6a96, 0x1a71, 0x0a50, 0x3a33, 0x2a12]
    case 11 => [0xdbfd, 0xcbdc, 0xfbbf, 0xeb9e, 0x9b79, 0x8b58, 0xbb3b, 0xab1a]
    case 12 => [0x6ca6, 0x7c87, 0x4ce4, 0x5cc5, 0x2c22, 0x3c03, 0x0c60, 0x1c41]
    case 13 => [0xedae, 0xfd8f, 0xcdec, 0xddcd, 0xad2a, 0xbd0b, 0x8d68, 0x9d49]
    case 14 => [0x7e97, 0x6eb6, 0x5ed5, 0x4ef4, 0x3e13, 0x2e32, 0x1e51, 0x0e70]
    case 15 => [0xff9f, 0xefbe, 0xdfdd, 0xcffc, 0xbf1b, 0xaf3a, 0x9f59, 0x8f78]
    case 16 => [0x9188, 0x81a9, 0xb1ca, 0xa1eb, 0xd10c, 0xc12d, 0xf14e, 0xe16f]
    case 17 => [0x1080, 0x00a1, 0x30c2, 0x20e3, 0x5004, 0x4025, 0x7046, 0x6067]
    case 18 => [0x83b9, 0x9398, 0xa3fb, 0xb3da, 0xc33d, 0xd31c, 0xe37f, 0xf35e]
    case 19 => [0x02b1, 0x1290, 0x22f3, 0x32d2, 0x4235, 0x5214, 0x6277, 0x7256]
    case 20 => [0xb5ea, 0xa5cb, 0x95a8, 0x8589, 0xf56e, 0xe54f, 0xd52c, 0xc50d]
    case 21 => [0x34e2, 0x24c3, 0x14a0, 0x0481, 0x7466, 0x6447, 0x5424, 0x4405]
    case 22 => [0xa7db, 0xb7fa, 0x8799, 0x97b8, 0xe75f, 0xf77e, 0xc71d, 0xd73c]
    case 23 => [0x26d3, 0x36f2, 0x0691, 0x16b0, 0x6657, 0x7676, 0x4615, 0x5634]
    case 24 => [0xd94c, 0xc96d, 0xf90e, 0xe92f, 0x99c8, 0x89e9, 0xb98a, 0xa9ab]
    case 25 => [0x5844, 0x4865, 0x7806, 0x6827, 0x18c0, 0x08e1, 0x3882, 0x28a3]
    case 26 => [0xcb7d, 0xdb5c, 0xeb3f, 0xfb1e, 0x8bf9, 0x9bd8, 0xabbb, 0xbb9a]
    case 27 => [0x4a75, 0x5a54, 0x6a37, 0x7a16, 0x0af1, 0x1ad0, 0x2ab3, 0x3a92]
    case 28 => [0xfd2e, 0xed0f, 0xdd6c, 0xcd4d, 0xbdaa, 0xad8b, 0x9de8, 0x8dc9]
    case 29 => [0x7c26, 0x6c07, 0x5c64, 0x4c45, 0x3ca2, 0x2c83, 0x1ce0, 0x0cc1]
    case 30 => [0xef1f, 0xff3e, 0xcf5d, 0xdf7c, 0xaf9b, 0xbfba, 0x8fd9, 0x9ff8]
    case 31 => [0x6e17, 0x7e36, 0x4e55, 0x5e74, 0x2e93, 0x3eb2, 0x0ed1, 0x1ef0]
  }

  function Crc16Tab(i: nat): nat
    requires i < 256
  {
    Crc16Row(i / 8)[i % 8]
  }

  /** Adding x^12 + x^5 + 1 to a multiple of x flips bits 0, 5 and 12. */
  function AddPolyTail(s: nat): nat {
    var a := if (s / 32) % 2 == 1 then s + 1 - 32 else s + 1 + 32;
    if (s / 4096) % 2 == 1 then a - 4096 else a + 4096
  }

  /** One bit of long division: shift the next message bit in at the top of the 16-bit register. */
  function DivideBit(r: nat, bit: bool): nat 
  {
    var s := if r < 0x8000 then 2 * r else 2 * r - 0x10000;
    if (r >= 0x8000) != bit then AddPolyTail(s) else s
  }

  /** Entry 8 * r + c of the table is the entry at half that index, divided one more bit. */
  predicate Follows(r: nat, c: nat)
    requires r < 32 && c < 8
  {
    Crc16Row(r)[c] == DivideBit(Crc16Row(r / 2)[4 * (r % 2) + c / 2], c % 2 == 1)
  }

  lemma Row0(c: nat) requires c < 8 ensures Follows(0, c) {}
  lemma Row1(c: nat) requires c < 8 ensures Follows(1, c) {}
  lemma Row2(c: nat) requires c < 8 ensures Follows(2, c) {}
  lemma Row3(c: nat) requires c < 8 ensures Follows(3, c) {}
  lemma Row4(c: nat) requires c < 8 ensures Follows(4, c) {}
  lemma Row5(c: nat) requires c < 8 ensures Follows(5, c) {}
  lemma Row6(c: nat) requires c < 8 ensures Follows(6, c) {}
  lemma Row7(c: nat) requires c < 8 ensures Follows(7, c) {}
  lemma Row8(c: nat) requires c < 8 ensures Follows(8, c) {}
  lemma Row9(c: nat) requires c < 8 ensures Follows(9, c) {}
  lemma Row10(c: nat) requires c < 8 ensures Follows(10, c) {}
  lemma Row11(c: nat) requires c < 8 ensures Follows(11, c) {}
  lemma Row12(c: nat) requires c < 8 ensures Follows(12, c) {}
  lemma Row13(c: nat) requires c < 8 ensures Follows(13, c) {}
  lemma Row14(c: nat) requires c < 8 ensures Follows(14, c) {}
  lemma Row15(c: nat) requires c < 8 ensures Follows(15, c) {}
  lemma Row16(c: nat) requires c < 8 ensures Follows(16, c) {}
  lemma Row17(c: nat) requires c < 8 ensures Follows(17, c) {}
  lemma Row18(c: nat) requires c < 8 ensures Follows(18, c) {}
  lemma Row19(c: nat) requires c < 8 ensures Follows(19, c) {}
  lemma Row20(c: nat) requires c < 8 ensures Follows(20, c) {}
  lemma Row21(c: nat) requires c < 8 ensures Follows(21, c) {}
  lemma Row22(c: nat) requires c < 8 ensures Follows(22, c) {}
  lemma Row23(c: nat) requires c < 8 ensures Follows(23, c) {}
  lemma Row24(c: nat) requires c < 8 ensures Follows(24, c) {}
  lemma Row25(c: nat) requires c < 8 ensures Follows(25, c) {}
  lemma Row26(c: nat) requires c < 8 ensures Follows(26, c) {}
  lemma Row27(c: nat) requires c < 8 ensures Follows(27, c) {}
  lemma Row28(c: nat) requires c < 8 ensures Follows(28, c) {}
  lemma Row29(c: nat) requires c < 8 ensures Follows(29, c) {}
  lemma Row30(c: nat) requires c < 8 ensures Follows(30, c) {}
  lemma Row31(c: nat) requires c < 8 ensures Follows(31, c) {}

  lemma TableFollows(r: nat, c: nat)
    requires r < 32 && c < 8
    ensures Follows(r, c)
  {
    match r
    case 0 => Row0(c);
    case 1 => Row1(c);
    case 2 => Row2(c);
    case 3 => Row3(c);
    case 4 => Row4(c);
    case 5 => Row5(c);
    case 6 => Row6(c);
    case 7 => Row7(c);
    case 8 => Row8(c);
    case 9 => Row9(c);
    case 10 => Row10(c);
    case 11 => Row11(c);
    case 12 => Row12(c);
    case 13 => Row13(c);
    case 14 => Row14(c);
    case 15 => Row15(c);
    case 16 => Row16(c);
    case 17 => Row17(c);
    case 18 => Row18(c);
    case 19 => Row19(c);
    case 20 => Row20(c);
    case 21 => Row21(c);
    case 22 => Row22(c);
    case 23 => Row23(c);
    case 24 => Row24(c);
    case 25 => Row25(c);
    case 26 => Row26(c);
    case 27 => Row27(c);
    case 28 => Row28(c);
    case 29 => Row29(c);
    case 30 => Row30(c);
    case 31 => Row31(c);
  }

  // ----- The table holds remainders -----

  /** The remainder the specification asks for. */
  ghost predicate IsCrc16(key: seq<Byte>, crc: nat) {
    IsRemainder(Shift(Poly(key), 16), POLY, 16, crc)
  }

  lemma EmptyCrc()
    ensures IsCrc16([], 0)
  {
    PowIsShift(16);
    TrivialRemainders(0, POLY, 16, 0);
  }

  lemma PowerFacts()
    ensures Pow2(5) == 32 && Pow2(12) == 4096 && Pow2(15) == 0x8000 && Pow2(16) == 0x10000 && Pow2(24) == 0x1000000
  {
  }

  lemma Quotients(u: nat, w: nat)
    ensures w < 32 ==> (32 * u + w) / 32 == u
    ensures w < 4096 ==> (4096 * u + w) / 4096 == u
  {
  }

  /** The three flips do not disturb one another. */
  lemma TailBits(s: nat)
    requires s % 2 == 0
    ensures (s + 1) / 32 == s / 32
    ensures var a := if (s / 32) % 2 == 1 then s + 1 - 32 else s + 1 + 32; a / 4096 == s / 4096
  {
    var q, t := s / 32, s % 32;
    assert t < 31;
    Quotients(q, t + 1);
    var u, j := q / 128, q % 128;
    assert s == 4096 * u + 32 * j + t;
    if q % 2 == 1 {
      assert j >= 1;
      Quotients(u, 32 * (j - 1) + t + 1);
    } else {
      assert j <= 126;
      Quotients(u, 32 * (j + 1) + t + 1);
    }
    Quotients(u, 32 * j + t);
  }

  lemma AddPolyTailIsXor(s: nat)
    requires s % 2 == 0
    ensures AddPolyTail(s) == Xor(s, 0x1021)
  {
    PowerFacts();
    XorThree(s, 5, 12);
    assert Flip(s, 0) == s + 1;
    BitFacts(s + 1);
    BitFacts(Flip(s + 1, 5));
    TailBits(s);
  }

  /** The step of long division on the remainder. */
  lemma DivideBitOfRemainder(r: nat, bit: bool)
    requires r < 0x10000
    ensures IsRemainder(Xor(2 * r, if bit then 0x10000 else 0), POLY, 16, DivideBit(r, bit))
  {
    PowerFacts();
    ShiftRemainder(r, bit, 0x1021, 16);
    AddPolyTailIsXor(if r >= 0x8000 then 2 * r - 0x10000 else 2 * r);
  }

  /** Bringing down the next bit of the dividend. */
  lemma BringDown(m: nat, b: nat)
    requires b < 2
    ensures Xor(Shift(Shift(m, 16), 1), Shift(b, 16)) == Shift(2 * m + b, 16)
  {
    PowerFacts();
    ShiftFacts(b);
    ShiftShift(m, 16, 1);
    ShiftShift(m, 1, 16);
    ShiftAdd(2 * m, b, 16);
    assert Shift(m, 1) == 2 * m && Pow2(17) == 0x20000;
    XorSplit(Shift(b, 16), m, 17);
    XorComm(Shift(b, 16), Shift(m, 17));
  }

  /** Long division, bit by bit. */
  lemma DivideBitIsRemainder(m: nat, r: nat, bit: bool)
    requires IsRemainder(Shift(m, 16), POLY, 16, r)
    ensures IsRemainder(Shift(2 * m + if bit then 1 else 0, 16), POLY, 16, DivideBit(r, bit))
  {
    var b := if bit then 1 else 0;
    PowerFacts();
    ShiftFacts(b);
    DivideBitOfRemainder(r, bit);
    assert Shift(r, 1) == 2 * r;
    NextCoefficients(Shift(m, 16), POLY, 16, r, 1, Shift(b, 16), DivideBit(r, bit));
    BringDown(m, b);
  }

  lemma TableHalf(k: nat)
    requires k < 256
    ensures Crc16Tab(k) == DivideBit(Crc16Tab(k / 2), k % 2 == 1)
  {
    var r, c := k / 8, k % 8;
    TableFollows(r, c);
    assert k / 2 / 8 == r / 2 && k / 2 % 8 == 4 * (r % 2) + c / 2 && k % 2 == c % 2;
  }

  lemma TableZero()
    ensures IsRemainder(Shift(0, 16), POLY, 16, Crc16Tab(0))
  {
    PowIsShift(16);
    TrivialRemainders(0, POLY, 16, 0);
    assert Crc16Tab(0) == 0;
  }

  lemma HalfIsRemainder(k: nat, r: nat)
    requires IsRemainder(Shift(k / 2, 16), POLY, 16, r)
    ensures IsRemainder(Shift(k, 16), POLY, 16, DivideBit(r, k % 2 == 1))
  {
    DivideBitIsRemainder(k / 2, r, k % 2 == 1);
    assert k == 2 * (k / 2) + if k % 2 == 1 then 1 else 0;
  }

  /** Entry k of the table is the remainder of the byte k followed by sixteen zero bits. */
  lemma {:induction false} TableIsRemainder(k: nat)
    requires k < 256
    ensures IsRemainder(Shift(k, 16), POLY, 16, Crc16Tab(k))
    decreases k
  {
    if k == 0 {
      TableZero();
    } else {
      TableIsRemainder(k / 2);
      TableHalf(k);
      HalfIsRemainder(k, Crc16Tab(k / 2));
    }
  }

  // ----- The checksum -----

  /** One turn of the loop of crc16sum: the high byte of the register, combined with the next byte of the
      message, picks the table entry that is combined with the low byte shifted up. */
  function UpdateCrc(crc: nat, b: Byte): nat
    requires crc < 0x10000
  {
    XorByte(crc / 256, b);
    Xor((crc * 256) % 0x10000, Crc16Tab(Xor(crc / 256, b)))
  }

  lemma XorByte(a: nat, b: nat)
    requires a < 256 && b < 256
    ensures Xor(a, b) < 256
  {
    assert Pow2(8) == 256;
    XorBound(a, b, 8);
  }

  /** Eight bits of register and byte: the part kept, and the table index shifted up. */
  lemma RegisterSplit(crc: nat, b: Byte)
    requires crc < 0x10000
    ensures Xor(crc / 256, b) < 256
    ensures Xor(Shift(crc, 8), Shift(b, 16)) == Xor((crc * 256) % 0x10000, Shift(Xor(crc / 256, b), 16))
  {
    var hi := crc / 256;
    XorByte(hi, b);
    RegisterHalves(crc);
    XorAssoc((crc * 256) % 0x10000, Shift(hi, 16), Shift(b, 16));
    XorShift(hi, b, 16);
  }

  lemma RegisterHalves(crc: nat)
    requires crc < 0x10000
    ensures Shift(crc, 8) == Xor((crc * 256) % 0x10000, Shift(crc / 256, 16))
  {
    var hi, lo := crc / 256, (crc * 256) % 0x10000;
    assert lo == 256 * (crc % 256);
    PowerFacts();
    ShiftFacts(hi);
    ShiftFacts(crc);
    XorSplit(lo, hi, 16);
  }

  lemma DividendSplit(m: nat, b: Byte)
    ensures Shift(256 * m + b, 16) == Xor(Shift(Shift(m, 16), 8), Shift(b, 16))
  {
    ShiftFacts(m);
    ShiftFacts(b);
    ShiftShift(m, 16, 8);
    ShiftShift(m, 8, 16);
    ShiftAdd(256 * m, b, 16);
    PowerFacts();
    XorSplit(Shift(b, 16), m, 24);
    XorComm(Shift(b, 16), Shift(m, 24));
  }

  /** One table step divides eight more bits. */
  lemma UpdateIsRemainder(m: nat, crc: nat, b: Byte)
    requires IsRemainder(Shift(m, 16), POLY, 16, crc) && crc < 0x10000
    ensures IsRemainder(Shift(256 * m + b, 16), POLY, 16, UpdateCrc(crc, b))
    ensures UpdateCrc(crc, b) < 0x10000
  {
    var lo := (crc * 256) % 0x10000;
    RegisterSplit(crc, b);
    var k := Xor(crc / 256, b);
    PowerFacts();
    TableIsRemainder(k);
    TrivialRemainders(0, POLY, 16, lo);
    RemaindersAdd(lo, Shift(k, 16), POLY, 16, lo, Crc16Tab(k));
    NextCoefficients(Shift(m, 16), POLY, 16, crc, 8, Shift(b, 16), UpdateCrc(crc, b));
    DividendSplit(m, b);
  }

  lemma ExtendCrc(key: seq<Byte>, crc: nat)
    requires key != [] && IsCrc16(key[..|key| - 1], crc) && crc < 0x10000
    ensures UpdateCrc(crc, key[|key| - 1]) < 0x10000 && IsCrc16(key, UpdateCrc(crc, key[|key| - 1]))
  {
    UpdateIsRemainder(Poly(key[..|key| - 1]), crc, key[|key| - 1]);
  }

  /** The table-driven loop computes the remainder of the key's polynomial times x^16. */
  method Crc16Sum(key: seq<Byte>) returns (crc: nat)
    ensures crc < 0x10000 && IsCrc16(key, crc)
  {
    crc := 0;
    EmptyCrc();
    for i := 0 to |key|
      invariant crc < 0x10000 && IsCrc16(key[..i], crc)
    {
      assert key[..i + 1][..i] == key[..i];
      ExtendCrc(key[..i + 1], crc);
      crc := UpdateCrc(crc, key[i]);
    }
    assert key[..|key|] == key;
  }

  /** The remainder exists and is unique, so the specification fixes the checksum. */
  lemma Crc16Unique(key: seq<Byte>, crc: nat, crc': nat)
    requires IsCrc16(key, crc) && IsCrc16(key, crc')
    ensures crc == crc'
  {
    PowerFacts();
    RemainderUnique(Shift(Poly(key), 16), POLY, 16, crc, crc');
  }

  /** The checksum as a value. */
  function Crc16(key: seq<Byte>): (crc: nat)
    ensures crc < 0x10000 && IsCrc16(key, crc)
  {
    if key == [] then (EmptyCrc(); 0)
    else
      var n := |key| - 1;
      var c := Crc16(key[..n]);
      ExtendCrc(key, c);
      UpdateCrc(c, key[n])
  }

  // ----- Hash tags -----

  /** strings.IndexByte: the first position of b, or -1. */
  function IndexOf(s: seq<Byte>, b: Byte): (i: int)
    ensures -1 <= i < |s|
    ensures i == -1 <==> b !in s
    ensures i >= 0 ==> s[i] == b && b !in s[..i]
  {
    IndexFrom(s, b, 0)
  }

  function IndexFrom(s: seq<Byte>, b: Byte, from: nat): (i: int)
    requires from <= |s| && b !in s[..from]
    ensures -1 <= i < |s|
    ensures i == -1 <==> b !in s
    ensures i >= 0 ==> s[i] == b && b !in s[..i]
    decreases |s| - from
  {
    if from == |s| then assert s[..from] == s; -1
    else if s[from] == b then from
    else assert s[..from + 1] == s[..from] + [s[from]]; IndexFrom(s, b, from + 1)
  }

  lemma FirstAt(s: seq<Byte>, b: Byte, i: nat)
    requires i < |s| && s[i] == b && b !in s[..i]
    ensures IndexOf(s, b) == i
  {
    var j := IndexOf(s, b);
    assert s[i] in s;
    forall k | 0 <= k < i ensures s[k] != b { assert s[k] in s[..i]; }
    forall k | 0 <= k < j ensures s[k] != b { assert s[k] in s[..j]; }
  }

  function ExtractHashtag(key: seq<Byte>): seq<Byte> {
    var s := IndexOf(key, OPEN);
    if s > -1 then ExtractAfter(key, s) else key
  }

  /** The search for '}' behind the '{' at s. */
  function ExtractAfter(key: seq<Byte>, s: nat): seq<Byte>
    requires s < |key|
  {
    var e := IndexOf(key[s + 1..], CLOSE);
    if e > 0 then key[s + 1..s + e + 1] else key
  }

  /** The hash tag rule of the Redis Cluster Specification: the key is prefix { tag } suffix, with no
      '{' before and no '}' inside a tag that is not empty. */
  ghost predicate Tagged(key: seq<Byte>, prefix: seq<Byte>, tag: seq<Byte>, suffix: seq<Byte>) {
    key == prefix + [OPEN] + tag + [CLOSE] + suffix && OPEN !in prefix && CLOSE !in tag && tag != []
  }

  ghost predicate HasTag(key: seq<Byte>, tag: seq<Byte>) {
    exists prefix, suffix :: Tagged(key, prefix, tag, suffix)
  }

  lemma TagIsExtracted(key: seq<Byte>, prefix: seq<Byte>, tag: seq<Byte>, suffix: seq<Byte>)
    requires Tagged(key, prefix, tag, suffix)
    ensures ExtractHashtag(key) == tag
  {
    var s := |prefix|;
    assert key[..s] == prefix && key[s] == OPEN;
    FirstAt(key, OPEN, s);
    var rest := key[s + 1..];
    assert rest == tag + [CLOSE] + suffix;
    assert rest[..|tag|] == tag && rest[|tag|] == CLOSE;
    FirstAt(rest, CLOSE, |tag|);
  }

  lemma CutTag(key: seq<Byte>, s: nat, e: nat)
    requires 0 < e && s + 1 + e < |key| && key[s] == OPEN && key[s + e + 1] == CLOSE
    requires OPEN !in key[..s] && CLOSE !in key[s + 1..s + e + 1]
    ensures HasTag(key, key[s + 1..s + e + 1])
  {
    assert key == key[..s] + [key[s]] + key[s + 1..s + e + 1] + [key[s + e + 1]] + key[s + e + 2..];
    assert Tagged(key, key[..s], key[s + 1..s + e + 1], key[s + e + 2..]);
  }

  /** Where the search for '}' ends. */
  lemma ExtractedAfter(key: seq<Byte>, s: nat)
    requires s < |key| && key[s] == OPEN && OPEN !in key[..s]
    ensures ExtractAfter(key, s) == key || HasTag(key, ExtractAfter(key, s))
  {
    var e := IndexOf(key[s + 1..], CLOSE);
    if e > 0 {
      assert key[s + 1..][..e] == key[s + 1..s + e + 1];
      CutTag(key, s, e);
    }
  }

  /** Conversely, whatever is cut out of a key is such a tag: a key without one is hashed whole. */
  lemma ExtractedIsTag(key: seq<Byte>)
    ensures ExtractHashtag(key) == key || HasTag(key, ExtractHashtag(key))
  {
    if IndexOf(key, OPEN) > -1 {
      ExtractedAfter(key, IndexOf(key, OPEN));
    }
  }

  lemma ExtractIdempotent(key: seq<Byte>)
    ensures ExtractHashtag(ExtractHashtag(key)) == ExtractHashtag(key)
  {
    if ExtractHashtag(key) != key {
      ExtractedIsTag(key);
      NoCloseIsWhole(ExtractHashtag(key));
    }
  }

  lemma NoCloseIsWhole(tag: seq<Byte>)
    requires CLOSE !in tag
    ensures ExtractHashtag(tag) == tag
  {
    var s := IndexOf(tag, OPEN);
    if s > -1 {
      assert CLOSE !in tag[s + 1..];
    }
  }

  // ----- Slots -----

  /** The slot of a channel; random stands for the slot drawn for an empty channel name. */
  function Slot(channel: seq<Byte>, random: nat): (slot: nat)
    requires random < SLOTS
    ensures slot < SLOTS
  {
    if channel == [] then random else Crc16(ExtractHashtag(channel)) % SLOTS
  }

  /** What a channel is hashed by: its tag, or the whole of it when it has none. */
  ghost predicate IsKeyOf(channel: seq<Byte>, key: seq<Byte>) {
    HasTag(channel, key) || (key == channel && forall tag :: !HasTag(channel, tag))
  }

  lemma KeyUnique(channel: seq<Byte>, key: seq<Byte>)
    requires IsKeyOf(channel, key)
    ensures key == ExtractHashtag(channel)
  {
    if HasTag(channel, key) {
      var prefix, suffix :| Tagged(channel, prefix, key, suffix);
      TagIsExtracted(channel, prefix, key, suffix);
    } else {
      ExtractedIsTag(channel);
    }
  }

  lemma ExtractedIsKey(channel: seq<Byte>)
    ensures IsKeyOf(channel, ExtractHashtag(channel))
  {
    ExtractedIsTag(channel);
    forall tag | HasTag(channel, tag)
      ensures ExtractHashtag(channel) == tag
    {
      var prefix, suffix :| Tagged(channel, prefix, tag, suffix);
      TagIsExtracted(channel, prefix, tag, suffix);
    }
  }

  /** crc is the checksum of what the channel is hashed by. */
  ghost predicate Hashed(channel: seq<Byte>, key: seq<Byte>, crc: nat) {
    IsKeyOf(channel, key) && crc < 0x10000 && IsCrc16(key, crc)
  }

  /** The slot of a channel is the low 14 bits of that checksum. */
  ghost predicate IsSlotOf(channel: seq<Byte>, slot: nat) {
    exists key: seq<Byte>, crc: nat :: Hashed(channel, key, crc) && slot == crc % 16384
  }

  lemma HashedUnique(channel: seq<Byte>, key: seq<Byte>, crc: nat)
    requires Hashed(channel, key, crc)
    ensures crc == Crc16(ExtractHashtag(channel))
  {
    KeyUnique(channel, key);
    Crc16Unique(key, crc, Crc16(key));
  }

  /** A channel has one slot. */
  lemma SlotUnique(channel: seq<Byte>, slot: nat, slot': nat)
    requires IsSlotOf(channel, slot) && IsSlotOf(channel, slot')
    ensures slot == slot'
  {
    var key: seq<Byte>, crc: nat :| Hashed(channel, key, crc) && slot == crc % 16384;
    var key': seq<Byte>, crc': nat :| Hashed(channel, key', crc') && slot' == crc' % 16384;
    HashedUnique(channel, key, crc);
    HashedUnique(channel, key', crc');
  }

  method Hashslot(channel: seq<Byte>, random: nat) returns (slot: nat)
    requires random < 16384
    ensures channel == [] ==> slot == random
    ensures channel != [] ==> IsSlotOf(channel, slot)
    ensures slot == Slot(channel, random) < 16384
  {
    if channel == [] {
      return random;
    }
    var crc := Crc16Sum(ExtractHashtag(channel));
    ExtractedIsKey(channel);
    assert Hashed(channel, ExtractHashtag(channel), crc);
    HashedUnique(channel, ExtractHashtag(channel), crc);
    slot := crc % 16384;
  }

  /** Channels with the same tag share the slot of the tag itself. */
  lemma TagsShareSlot(key: seq<Byte>, prefix: seq<Byte>, tag: seq<Byte>, suffix: seq<Byte>, random: nat)
    requires Tagged(key, prefix, tag, suffix) && random < SLOTS
    ensures Slot(key, random) == Slot(tag, random)
  {
    TagIsExtracted(key, prefix, tag, suffix);
    NoCloseIsWhole(tag);
  }
}
