/**
 calculateRefresh (src/backend/drm/DRM.cpp): the refresh rate of a mode in millihertz, by nested integer divisions.
 The clock is in kilohertz, so the exact rate is clock * 10^6 / (htotal * vtotal).
 */
module Refresh {
  import opened Arithmetic

  datatype Mode = Mode(clock: nat, htotal: nat, vtotal: nat, interlace: bool, dblscan: bool, vscan: nat)

  const INT32 := 0x1_0000_0000
  const INT32_MAX := 0x7FFF_FFFF

  /** Conversion to a 32-bit signed integer. */
  function Narrow(x: int): int { (x + 0x8000_0000) % INT32 - 0x8000_0000 }

  /** Division of the source language: toward zero. */
  function Div(a: int, b: int): int
    requires b > 0
  {
    if a >= 0 then a / b else -(-a / b)
  }

  function Pixels(m: Mode): nat { m.clock * 1_000_000 }

  predicate Usable(m: Mode) { m.htotal > 0 && m.vtotal > 0 }

  /** The rate before the scan flags. */
  function Progressive(m: Mode): nat
    requires Usable(m)
  {
    (Pixels(m) / m.htotal + m.vtotal / 2) / m.vtotal
  }

  function CalculateRefresh(m: Mode): int
    requires Usable(m)
  {
    var refresh := Narrow(Progressive(m));
    var refresh := if m.interlace then Narrow(refresh * 2) else refresh;
    var refresh := if m.dblscan then Div(refresh, 2) else refresh;
    if m.vscan > 1 then Div(refresh, m.vscan) else refresh
  }

  /** No step leaves the range of 32 bits. */
  predicate Fits(m: Mode)
    requires Usable(m)
  {
    Progressive(m) * (if m.interlace then 2 else 1) <= INT32_MAX
  }

  predicate Plain(m: Mode) { !m.interlace && !m.dblscan && m.vscan <= 1 }

  // ----- the rounding

  lemma NarrowFits(x: int)
    requires 0 <= x <= INT32_MAX
    ensures Narrow(x) == x
  {
  }

  /** A conversion wraps: it stays in range and keeps the residue. */
  lemma NarrowWraps(x: int)
    ensures -0x8000_0000 <= Narrow(x) <= INT32_MAX && (Narrow(x) - x) % 0x1_0000_0000 == 0
  {
  }

  /** A division cuts off toward zero, on both sides of it. */
  lemma DivTruncates(a: int, b: int)
    requires 0 <= a && 0 < b
    ensures b * Div(a, b) <= a < b * Div(a, b) + b
    ensures Div(-a, b) == -Div(a, b)
  {
    DivMod(a, b);
    if a == 0 {
      Unique(0, 0, 0, b);
    }
  }

  /** With c = h*q + d and q + v/2 = v*r + e, what 2c exceeds the middle between r and r + 1 by. */
  lemma Excess(c: nat, h: nat, v: nat, q: nat, d: nat, r: nat, e: nat)
    requires c == h * q + d && q + v / 2 == v * r + e
    ensures 2 * c == (2 * r + 1) * (h * v) + h * (2 * e - 2 * (v / 2) - v) + 2 * d
  {
    var k := v / 2;
    assert q == v * r + e - k;
    assert h * q == h * (v * r) + h * e - h * k;
    assert (2 * r + 1) * (h * v) == 2 * (r * (h * v)) + h * v;
    assert r * (h * v) == h * (v * r);
    assert h * (2 * e - 2 * k - v) == 2 * (h * e) - 2 * (h * k) - h * v;
  }

  /** r - 1/2 <= exact < r + 1/2 + 1/(2 vtotal), cleared of fractions; without the last term for an even vtotal. */
  lemma RoundingBound(m: Mode)
    requires Usable(m) && Plain(m) && Fits(m)
    ensures var r, n, exact := CalculateRefresh(m), m.htotal * m.vtotal, Pixels(m);
            && (2 * r - 1) * n <= 2 * exact < (2 * r + 1) * n + m.htotal
            && (m.vtotal % 2 == 0 ==> 2 * exact < (2 * r + 1) * n)
  {
    NarrowFits(Progressive(m));
    var q := Pixels(m) / m.htotal;
    DivMod(Pixels(m), m.htotal);
    DivMod(q + m.vtotal / 2, m.vtotal);
    Bound(Pixels(m), m.htotal, m.vtotal, q, Pixels(m) % m.htotal, Progressive(m), (q + m.vtotal / 2) % m.vtotal);
  }

  lemma Bound(c: nat, h: nat, v: nat, q: nat, d: nat, r: nat, e: nat)
    requires c == h * q + d && d < h && q + v / 2 == v * r + e && e < v
    ensures (2 * r - 1) * (h * v) <= 2 * c < (2 * r + 1) * (h * v) + h
    ensures v % 2 == 0 ==> 2 * c < (2 * r + 1) * (h * v)
  {
    Excess(c, h, v, q, d, r, e);
    var x := 2 * e - 2 * (v / 2) - v;
    assert (2 * r - 1) * (h * v) == (2 * r + 1) * (h * v) - 2 * (h * v);
    Times(h, -2 * v, x);
    assert h * (-2 * v) == -2 * (h * v);
    if v % 2 == 0 {
      Times(h, x, -2);
    } else {
      Times(h, x, -1);
    }
  }

  /** The nearest integer to a / b, the upper one of two. */
  function Nearest(a: nat, b: nat): nat
    requires b > 0
  {
    (2 * a + b) / (2 * b)
  }

  lemma NearestIs(a: nat, b: nat, r: nat)
    requires b > 0
    ensures Nearest(a, b) == r <==> (2 * r - 1) * b <= 2 * a < (2 * r + 1) * b
  {
    var n := Nearest(a, b);
    var d := 2 * b;
    assert d * n <= 2 * a + b < d * n + d;
    assert (2 * r - 1) * b == d * r - b && (2 * r + 1) * b == d * r + b;
    if r < n {
      Times(d, r + 1, n);
    } else if r > n {
      Times(d, n + 1, r);
    }
  }

  /** When the two divisions round differently from one. */
  predicate Straddles(m: Mode)
    requires Usable(m)
  {
    var q := Pixels(m) / m.htotal;
    m.vtotal % 2 == 1 && q % m.vtotal == (m.vtotal - 1) / 2 && 2 * (Pixels(m) % m.htotal) >= m.htotal
  }

  /** Exactly then the result is not the nearest integer, and then it is one too small. */
  lemma RoundsHalfUp(m: Mode)
    requires Usable(m) && Plain(m) && Fits(m)
    ensures var n := Nearest(Pixels(m), m.htotal * m.vtotal);
            CalculateRefresh(m) == if Straddles(m) then n - 1 else n
  {
    NarrowFits(Progressive(m));
    var q := Pixels(m) / m.htotal;
    DivMod(Pixels(m), m.htotal);
    DivMod(q + m.vtotal / 2, m.vtotal);
    MiddleRemainder(q, m.vtotal);
    HalfUp(Pixels(m), m.htotal, m.vtotal, q, Pixels(m) % m.htotal, Progressive(m), (q + m.vtotal / 2) % m.vtotal);
    hide Nearest;
  }

  lemma HalfUp(c: nat, h: nat, v: nat, q: nat, d: nat, r: nat, e: nat)
    requires c == h * q + d && d < h && q + v / 2 == v * r + e && e < v
    ensures h * v > 0 && Nearest(c, h * v) == if v % 2 == 1 && e == v - 1 && 2 * d >= h then r + 1 else r
  {
    var x := 2 * e - 2 * (v / 2) - v;
    Bound(c, h, v, q, d, r, e);
    Excess(c, h, v, q, d, r, e);
    Times(h, 1, v);
    assert x == -1 <==> v % 2 == 1 && e == v - 1;
    Decide(c, h, h * v, r, x, d);
    hide Nearest;
  }

  lemma Decide(c: nat, h: nat, n: nat, r: nat, x: int, rem: nat)
    requires 0 < h <= n && rem < h && x <= -1
    requires 2 * c == (2 * r + 1) * n + h * x + 2 * rem && (2 * r - 1) * n <= 2 * c
    ensures Nearest(c, n) == if x == -1 && 2 * rem >= h then r + 1 else r
  {
    NearestIs(c, n, r);
    NearestIs(c, n, r + 1);
    assert (2 * (r + 1) - 1) * n == (2 * r + 1) * n;
    assert (2 * (r + 1) + 1) * n == (2 * r + 1) * n + 2 * n;
    if x < -1 {
      Times(h, x, -2);
    }
    hide Nearest;
  }

  /** For an odd v the second remainder is the last one exactly when q is in the middle of its interval. */
  lemma MiddleRemainder(q: nat, v: nat)
    requires v > 0
    ensures v % 2 == 1 ==> ((q + v / 2) % v == v - 1 <==> q % v == (v - 1) / 2)
  {
    var k, a, b := v / 2, q / v, q % v;
    assert q == v * a + b;
    if b + k < v {
      Unique(q + k, a, b + k, v);
    } else {
      assert q + k == v * (a + 1) + (b + k - v);
      Unique(q + k, a + 1, b + k - v, v);
    }
  }

  /** A mode whose rate comes out one millihertz below the nearest. */
  lemma OneTooSmall()
    ensures var m := Mode(26560, 2080, 1157, false, false, 0);
            && Usable(m) && Plain(m) && Fits(m) && Straddles(m)
            && CalculateRefresh(m) == Nearest(Pixels(m), m.htotal * m.vtotal) - 1 == 11036
  {
    var m := Mode(26560, 2080, 1157, false, false, 0);
    assert Pixels(m) / m.htotal == 12769230 && Pixels(m) % m.htotal == 1600;
    RoundsHalfUp(m);
  }

  // ----- the scan flags

  function Up(m: Mode): nat { if m.interlace then 2 else 1 }

  function Down(m: Mode): nat { (if m.dblscan then 2 else 1) * (if m.vscan > 1 then m.vscan else 1) }

  lemma Carried(a: nat, b: nat, q: nat, r: nat, r': nat)
    requires r' < a && r < b
    ensures a * (b * q + r) + r' == (a * b) * q + (a * r + r') && 0 <= a * r + r' < a * b
  {
    Times(a, r, b - 1);
    assert a * (b - 1) == a * b - a;
    assert a * (b * q + r) == a * (b * q) + a * r;
    assert a * (b * q) == (a * b) * q;
  }

  lemma Nested(x: nat, a: nat, b: nat, q: nat, d: nat, r: nat, e: nat)
    requires x == a * q + d && d < a && q == b * r + e && e < b
    ensures a * b > 0 && x / (a * b) == r
  {
    Carried(a, b, r, e, d);
    Unique(x, r, a * e + d, a * b);
  }

  lemma NestedDivision(x: nat, a: nat, b: nat)
    requires a > 0 && b > 0
    ensures a * b > 0 && x / a / b == x / (a * b)
  {
    DivMod(x, a);
    DivMod(x / a, b);
    Nested(x, a, b, x / a, x % a, x / a / b, x / a % b);
  }

  /** The three steps, each cutting off a fraction, cut off no more than one division at the end would. */
  lemma ScanSteps(m: Mode)
    requires Usable(m) && Fits(m)
    ensures Down(m) > 0 && CalculateRefresh(m) == Progressive(m) * Up(m) / Down(m)
  {
    var p := Progressive(m);
    NarrowFits(p);
    NarrowFits(p * Up(m));
    var x := p * Up(m);
    NestedDivision(x, if m.dblscan then 2 else 1, if m.vscan > 1 then m.vscan else 1);
    hide Narrow, Progressive;
  }

  /** An interlaced mode with doubled scan lines has the rate of the plain one. */
  lemma InterlaceCancelsDoubleScan(m: Mode)
    requires Usable(m) && m.interlace && m.dblscan && Fits(m)
    ensures CalculateRefresh(m) == CalculateRefresh(m.(interlace := false, dblscan := false))
  {
    var plain := m.(interlace := false, dblscan := false);
    ScanSteps(m);
    ScanSteps(plain);
    var p, v := Progressive(m), if m.vscan > 1 then m.vscan else 1;
    NestedDivision(p * 2, 2, v);
    hide CalculateRefresh, Progressive;
  }
}
