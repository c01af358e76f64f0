/** The colour picker's conversions between hexadecimal colours and hue, saturation and value. */
module BrandColour {
  import opened Prelude

  // ----- JavaScript arithmetic on exact numbers

  /** What is left after taking away `n` as often as it goes; the remainder has the sign of the dividend. */
  function Remainder(a: real, n: real): real
    requires n >= 1.0
    decreases RealAbs(a), if a < 0.0 then 1 else 0
  {
    if a < 0.0 then -Remainder(-a, n) else if a < n then a else Remainder(a - n, n)
  }

  /** The remainder differs from the dividend by whole divisors, and is smaller and of its sign. */
  lemma {:induction false} RemainderMeans(a: real, n: real) returns (whole: int)
    requires n >= 1.0
    ensures a == n * (whole as real) + Remainder(a, n)
    ensures RealAbs(Remainder(a, n)) < n
    ensures if a < 0.0 then Remainder(a, n) <= 0.0 else Remainder(a, n) >= 0.0
    decreases RealAbs(a), if a < 0.0 then 1 else 0
  {
    if a < 0.0 {
      whole := RemainderMeans(-a, n);
      assert n * (-whole as real) == -(n * (whole as real));
      whole := -whole;
    } else if a < n {
      whole := 0;
    } else {
      whole := RemainderMeans(a - n, n);
      assert n * ((whole + 1) as real) == n * (whole as real) + n;
      whole := whole + 1;
    }
  }

  /** Math.round: halves go up. */
  function Round(a: real): int {
    (a + 0.5).Floor
  }

  // ----- hexadecimal

  const DIGITS := "0123456789abcdef"

  function Digit(d: int): char
    requires 0 <= d < 16
  {
    DIGITS[d]
  }

  predicate IsHexDigit(c: char) {
    '0' <= c <= '9' || 'a' <= c <= 'f' || 'A' <= c <= 'F'
  }

  function DigitValue(c: char): (d: int)
    requires IsHexDigit(c)
    ensures 0 <= d < 16 && UpperChar(Digit(d)) == UpperChar(c)
  {
    if c <= '9' then c as int - '0' as int
    else if c <= 'F' then c as int - 'A' as int + 10
    else c as int - 'a' as int + 10
  }

  /** Number.prototype.toString(16) of an integer. */
  function ToHex(n: int): string
    decreases if n < 0 then 1 - n else n
  {
    if n < 0 then "-" + ToHex(-n)
    else if n < 16 then [Digit(n)]
    else ToHex(n / 16) + [Digit(n % 16)]
  }

  function PadTwo(s: string): string {
    if s == "" then "00" else if |s| == 1 then "0" + s else s
  }

  predicate IsColour(hex: string) {
    |hex| == 7 && hex[0] == '#' && forall i :: 1 <= i < 7 ==> IsHexDigit(hex[i])
  }

  /** parseInt of the two digits from position `i`. */
  function ByteAt(hex: string, i: nat): (n: int)
    requires IsColour(hex) && 1 <= i < 6
    ensures 0 <= n < 256
  {
    DigitValue(hex[i]) * 16 + DigitValue(hex[i + 1])
  }

  // ----- the pair

  datatype Rgb = Rgb(r: real, g: real, b: real) {
    /** Every channel from nothing to full. */
    predicate InRange() {
      0.0 <= r <= 1.0 && 0.0 <= g <= 1.0 && 0.0 <= b <= 1.0
    }

    function Raised(m: real): Rgb {
      Rgb(r + m, g + m, b + m)
    }
  }

  datatype Hsv = Hsv(h: real, s: real, v: real) {
    predicate InRange() {
      0.0 <= h < 360.0 && 0.0 <= s <= 1.0 && 0.0 <= v <= 1.0
    }
  }

  const FALLBACK := "#888888"

  function Largest(p: Rgb): real {
    RealMax(p.r, RealMax(p.g, p.b))
  }

  function Smallest(p: Rgb): real {
    RealMin(p.r, RealMin(p.g, p.b))
  }

  function HueOf(p: Rgb): real {
    var mx := Largest(p);
    var d := mx - Smallest(p);
    if d == 0.0 then 0.0
    else
      var h :=
        if mx == p.r then Remainder((p.g - p.b) / d, 6.0)
        else if mx == p.g then (p.b - p.r) / d + 2.0
        else (p.r - p.g) / d + 4.0;
      if h * 60.0 < 0.0 then h * 60.0 + 360.0 else h * 60.0
  }

  function Saturation(mx: real, mn: real): real {
    if mx != 0.0 then (mx - mn) / mx else 0.0
  }

  function ToHsv(p: Rgb): Hsv {
    Hsv(HueOf(p), Saturation(Largest(p), Smallest(p)), Largest(p))
  }

  /** The second largest part of a colour of chroma `c`. */
  function SecondPart(h: real, c: real): real {
    c * (1.0 - RealAbs(Remainder(h / 60.0, 2.0) - 1.0))
  }

  /** Which channels get the chroma and the second part. */
  function BySector(h: real, c: real, x: real): Rgb {
    if h < 60.0 then Rgb(c, x, 0.0)
    else if h < 120.0 then Rgb(x, c, 0.0)
    else if h < 180.0 then Rgb(0.0, c, x)
    else if h < 240.0 then Rgb(0.0, x, c)
    else if h < 300.0 then Rgb(x, 0.0, c)
    else Rgb(c, 0.0, x)
  }

  function FromChroma(h: real, c: real, v: real): Rgb {
    BySector(h, c, SecondPart(h, c)).Raised(v - c)
  }

  function ToRgb(q: Hsv): Rgb {
    FromChroma(q.h, q.v * q.s, q.v)
  }

  function Channel(part: real): string {
    PadTwo(ToHex(Round(part * 255.0)))
  }

  function Clean(hex: string): string {
    if IsColour(hex) then hex else FALLBACK
  }

  function HexToRgb(hex: string): Rgb {
    var clean := Clean(hex);
    Rgb(ByteAt(clean, 1) as real / 255.0, ByteAt(clean, 3) as real / 255.0, ByteAt(clean, 5) as real / 255.0)
  }

  function HexToHsv(hex: string): Hsv {
    ToHsv(HexToRgb(hex))
  }

  function Print(p: Rgb): string {
    Upper("#" + Channel(p.r) + Channel(p.g) + Channel(p.b))
  }

  function HsvToHex(q: Hsv): string {
    Print(ToRgb(q))
  }

  // ----- exact division

  lemma DivideBack(a: real, d: real)
    requires d != 0.0
    ensures a / d * d == a
  {
  }

  lemma NegatedQuotient(a: real, d: real)
    requires d != 0.0
    ensures -a / d == -(a / d)
  {
    var t, u := a / d, -a / d;
    DivideBack(a, d);
    DivideBack(-a, d);
    assert (t + u) * d == 0.0;
  }

  /** A quotient of two parts of a whole is a part of one. */
  lemma Quotient(a: real, d: real) returns (t: real)
    requires d > 0.0 && 0.0 <= a <= d
    ensures t == a / d && a == t * d && 0.0 <= t <= 1.0
    ensures a < d ==> t < 1.0
    ensures a > 0.0 ==> t > 0.0
  {
    t := a / d;
    DivideBack(a, d);
    assert t == 1.0 ==> a == d;
  }

  lemma SixtyTimes(t: real)
    ensures t * 60.0 / 60.0 == t
  {
  }

  lemma {:induction false} RemainderBy(a: real, n: real, k: nat, rest: real)
    requires n >= 1.0 && a == n * (k as real) + rest && 0.0 <= rest < n
    ensures Remainder(a, n) == rest
  {
    if k > 0 {
      var below := (k - 1) as real;
      assert k as real == below + 1.0;
      assert n * (below + 1.0) == n * below + n;
      assert n * below >= 0.0;
      RemainderBy(a - n, n, k - 1, rest);
    }
  }

  lemma SmallRemainder(t: real)
    requires -1.0 <= t <= 1.0
    ensures Remainder(t, 6.0) == t
  {
  }

  // ----- the six sectors of the hue circle

  /** The channels of sector `k`: chroma `c`, second part `x`, and `m` added to each. */
  function SectorRgb(k: nat, c: real, x: real, m: real): Rgb
    requires k < 6
  {
    if k == 0 then Rgb(c + m, x + m, m)
    else if k == 1 then Rgb(x + m, c + m, m)
    else if k == 2 then Rgb(m, c + m, x + m)
    else if k == 3 then Rgb(m, x + m, c + m)
    else if k == 4 then Rgb(x + m, m, c + m)
    else Rgb(c + m, m, x + m)
  }

  /** The second part climbs over even sectors and falls over odd ones. */
  function Ramp(k: nat, t: real): real {
    if k % 2 == 0 then t else 1.0 - t
  }

  /** A hue that lies the part `t` into sector `k`, either end included. */
  predicate Lies(h: real, k: nat, t: real) {
    k < 6 && 0.0 <= t <= 1.0 && h == (k as real + t) * 60.0 && h < 360.0
  }

  lemma SecondPartAt(h: real, c: real, k: nat, t: real)
    requires Lies(h, k, t)
    ensures SecondPart(h, c) == c * Ramp(k, t)
  {
    SixtyTimes(k as real + t);
    var j: nat := k / 2;
    var rest := if k % 2 == 0 then t else if t < 1.0 then 1.0 + t else 0.0;
    var turns: nat := if k % 2 == 1 && t == 1.0 then j + 1 else j;
    assert k as real + t == 2.0 * (turns as real) + rest;
    RemainderBy(h / 60.0, 2.0, turns, rest);
    var factor := 1.0 - RealAbs(Remainder(h / 60.0, 2.0) - 1.0);
    assert factor == Ramp(k, t);
    assert SecondPart(h, c) == c * factor;
  }

  lemma RampEnd(k: nat, c: real)
    ensures c * Ramp(k, 1.0) == if k % 2 == 0 then c else 0.0
  {
  }

  /** On a boundary both neighbouring sectors give the same colour. */
  lemma ChannelsAt(h: real, k: nat, t: real, c: real, x: real, m: real)
    requires Lies(h, k, t)
    requires t == 1.0 ==> x == if k % 2 == 0 then c else 0.0
    ensures BySector(h, c, x).Raised(m) == SectorRgb(k, c, x, m)
  {
  }

  lemma AtSector(h: real, k: nat, t: real, c: real, x: real, v: real)
    requires Lies(h, k, t) && x == c * Ramp(k, t)
    ensures FromChroma(h, c, v) == SectorRgb(k, c, x, v - c)
  {
    SecondPartAt(h, c, k, t);
    RampEnd(k, c);
    ChannelsAt(h, k, t, c, x, v - c);
  }

  // ----- from red, green and blue and back

  /** The hue of a colour lies `t` into sector `k`, and the sector holds its three channels. */
  predicate Placed(p: Rgb, k: nat, t: real, x: real) {
    var d := Largest(p) - Smallest(p);
    Lies(HueOf(p), k, t) && x == d * Ramp(k, t) && p == SectorRgb(k, d, x, Smallest(p))
  }

  /** A difference of two channels as part of the chroma, from either side. */
  lemma Difference(a: real, d: real) returns (u: real)
    requires d > 0.0 && 0.0 <= a <= d
    ensures 0.0 <= u <= 1.0 && a / d == u && -a / d == -u && a == d * u && a == d * (1.0 - (1.0 - u))
    ensures a > 0.0 ==> u > 0.0
  {
    u := Quotient(a, d);
    NegatedQuotient(a, d);
  }

  lemma RedSector(p: Rgb) returns (k: nat, t: real, x: real)
    requires Largest(p) > Smallest(p) && Largest(p) == p.r
    ensures Placed(p, k, t, x)
  {
    var d := Largest(p) - Smallest(p);
    if p.g >= p.b {
      x := p.g - p.b;
      var u := Difference(x, d);
      SmallRemainder(u);
      k, t := 0, u;
    } else {
      x := p.b - p.g;
      var u := Difference(x, d);
      SmallRemainder(-u);
      assert p.g - p.b == -x;
      k, t := 5, 1.0 - u;
    }
  }

  lemma GreenSector(p: Rgb) returns (k: nat, t: real, x: real)
    requires Largest(p) > Smallest(p) && Largest(p) == p.g != p.r
    ensures Placed(p, k, t, x)
  {
    var d := Largest(p) - Smallest(p);
    if p.b >= p.r {
      x := p.b - p.r;
      var u := Difference(x, d);
      k, t := 2, u;
    } else {
      x := p.r - p.b;
      var u := Difference(x, d);
      assert p.b - p.r == -x;
      k, t := 1, 1.0 - u;
    }
  }

  lemma BlueSector(p: Rgb) returns (k: nat, t: real, x: real)
    requires Largest(p) > Smallest(p) && Largest(p) == p.b && p.b != p.r && p.b != p.g
    ensures Placed(p, k, t, x)
  {
    var d := Largest(p) - Smallest(p);
    if p.r >= p.g {
      x := p.r - p.g;
      var u := Difference(x, d);
      k, t := 4, u;
    } else {
      x := p.g - p.r;
      var u := Difference(x, d);
      assert p.r - p.g == -x;
      k, t := 3, 1.0 - u;
    }
  }

  lemma HueSector(p: Rgb) returns (k: nat, t: real, x: real)
    requires Largest(p) > Smallest(p)
    ensures Placed(p, k, t, x)
  {
    if Largest(p) == p.r {
      k, t, x := RedSector(p);
    } else if Largest(p) == p.g {
      k, t, x := GreenSector(p);
    } else {
      k, t, x := BlueSector(p);
    }
  }

  lemma ChromaOf(mx: real, mn: real, c: real) returns (s: real)
    requires 0.0 <= mn <= mx && c == mx - mn
    ensures s == Saturation(mx, mn) && mx * s == c && 0.0 <= s <= 1.0
  {
    s := 0.0;
    if mx > 0.0 {
      s := Quotient(c, mx);
    }
  }

  lemma ColourOfChroma(p: Rgb)
    requires Largest(p) > Smallest(p)
    ensures FromChroma(HueOf(p), Largest(p) - Smallest(p), Largest(p)) == p
    ensures 0.0 <= HueOf(p) < 360.0
  {
    var k, t, x := HueSector(p);
    var mx, mn := Largest(p), Smallest(p);
    assert p == SectorRgb(k, mx - mn, x, mx - (mx - mn));
    AtSector(HueOf(p), k, t, mx - mn, x, mx);
  }

  lemma GreyOfChroma(p: Rgb)
    requires Largest(p) == Smallest(p)
    ensures HueOf(p) == 0.0 && FromChroma(0.0, 0.0, Largest(p)) == p
  {
    assert Lies(0.0, 0, 0.0);
    AtSector(0.0, 0, 0.0, 0.0, 0.0, Largest(p));
  }

  lemma ColourOfParts(p: Rgb)
    requires p.InRange()
    ensures FromChroma(HueOf(p), Largest(p) - Smallest(p), Largest(p)) == p && 0.0 <= HueOf(p) < 360.0
  {
    if Largest(p) > Smallest(p) {
      ColourOfChroma(p);
    } else {
      GreyOfChroma(p);
    }
  }

  lemma Reassembled(h: real, s: real, v: real, c: real)
    requires v * s == c
    ensures ToRgb(Hsv(h, s, v)) == FromChroma(h, c, v)
  {
  }

  /** The saturation gives the chroma back. */
  lemma Saturated(p: Rgb, h: real, mx: real, mn: real, c: real)
    requires 0.0 <= mn <= mx && c == mx - mn && FromChroma(h, c, mx) == p
    ensures 0.0 <= Saturation(mx, mn) <= 1.0 && ToRgb(Hsv(h, Saturation(mx, mn), mx)) == p
  {
    var s := ChromaOf(mx, mn, c);
    Reassembled(h, s, mx, c);
  }

  /** Hue, saturation and value hold the whole colour, for all channels from nothing to full. */
  lemma RgbSurvives(p: Rgb)
    requires p.InRange()
    ensures ToHsv(p).InRange() && ToRgb(ToHsv(p)) == p
  {
    ColourOfParts(p);
    Saturated(p, HueOf(p), Largest(p), Smallest(p), Largest(p) - Smallest(p));
  }

  // ----- from hue, saturation and value and back

  lemma SectorOf(h: real) returns (k: nat, t: real)
    requires 0.0 <= h < 360.0
    ensures Lies(h, k, t) && t < 1.0
  {
    k := if h < 60.0 then 0 else if h < 120.0 then 1 else if h < 180.0 then 2
         else if h < 240.0 then 3 else if h < 300.0 then 4 else 5;
    t := h / 60.0 - k as real;
    DivideBack(h, 60.0);
  }

  lemma PartOfChroma(t: real, c: real)
    requires c > 0.0 && 0.0 <= t <= 1.0
    ensures 0.0 <= c * t <= c && c * t / c == t && -(c * t) / c == -t
    ensures c * t == c <==> t == 1.0
  {
    DivideBack(c * t, c);
  }

  lemma Extremes(k: nat, c: real, x: real, m: real)
    requires k < 6 && 0.0 <= x <= c
    ensures var p := SectorRgb(k, c, x, m); Largest(p) == c + m && Smallest(p) == m
  {
  }

  lemma RedHue(p: Rgb, d: real, u: real)
    requires Largest(p) == p.r && d == p.r - Smallest(p) > 0.0
    requires (p.g - p.b) / d == u && -1.0 <= u <= 1.0
    ensures HueOf(p) == if u < 0.0 then u * 60.0 + 360.0 else u * 60.0
  {
    SmallRemainder(u);
  }

  lemma GreenHue(p: Rgb, d: real, u: real)
    requires Largest(p) == p.g != p.r && d == p.g - Smallest(p) > 0.0
    requires (p.b - p.r) / d == u && -1.0 <= u <= 1.0
    ensures HueOf(p) == (u + 2.0) * 60.0
  {
  }

  lemma BlueHue(p: Rgb, d: real, u: real)
    requires Largest(p) == p.b && p.b != p.r && p.b != p.g && d == p.b - Smallest(p) > 0.0
    requires (p.r - p.g) / d == u && -1.0 <= u <= 1.0
    ensures HueOf(p) == (u + 4.0) * 60.0
  {
  }

  lemma HueOfSector(k: nat, t: real, c: real, m: real)
    requires k < 6 && 0.0 <= t < 1.0 && c > 0.0
    ensures HueOf(SectorRgb(k, c, c * Ramp(k, t), m)) == (k as real + t) * 60.0
  {
    PartOfChroma(Ramp(k, t), c);
    HueOfParts(k, t, c, c * Ramp(k, t), m);
  }

  lemma HueOfParts(k: nat, t: real, c: real, x: real, m: real)
    requires k < 6 && 0.0 <= t < 1.0 && c > 0.0 && 0.0 <= x <= c
    requires x / c == Ramp(k, t) && -x / c == -Ramp(k, t) && (x == c <==> Ramp(k, t) == 1.0)
    ensures HueOf(SectorRgb(k, c, x, m)) == (k as real + t) * 60.0
  {
    var p := SectorRgb(k, c, x, m);
    var u := Ramp(k, t);
    Extremes(k, c, x, m);
    if k == 0 {
      assert p.g - p.b == x;
      RedHue(p, c, u);
    } else if k == 1 && t == 0.0 {
      assert p.g - p.b == x;
      RedHue(p, c, u);
    } else if k == 1 {
      assert p.b - p.r == -x;
      GreenHue(p, c, -u);
    } else if k == 2 {
      assert p.b - p.r == x;
      GreenHue(p, c, u);
    } else if k == 3 && t == 0.0 {
      assert p.b - p.r == x;
      GreenHue(p, c, u);
    } else if k == 3 {
      assert p.r - p.g == -x;
      BlueHue(p, c, -u);
    } else if k == 4 {
      assert p.r - p.g == x;
      BlueHue(p, c, u);
    } else {
      assert p.g - p.b == -x;
      RedHue(p, c, -u);
    }
  }

  /** The chroma, and what the second part is at most. */
  lemma Chroma(q: Hsv) returns (c: real)
    requires q.InRange()
    ensures c == q.v * q.s && 0.0 <= c <= q.v
    ensures c > 0.0 <==> q.s > 0.0 && q.v > 0.0
    ensures q.v > 0.0 ==> c / q.v == q.s
  {
    c := q.v * q.s;
    ProductInRange(q.v, q.s);
    if q.v > 0.0 {
      DivideBack(c, q.v);
    }
  }

  lemma ProductInRange(c: real, u: real)
    requires c >= 0.0 && 0.0 <= u <= 1.0
    ensures 0.0 <= c * u <= c
  {
  }

  lemma SectorInRange(k: nat, c: real, x: real, v: real)
    requires k < 6 && 0.0 <= x <= c <= v <= 1.0
    ensures var p := SectorRgb(k, c, x, v - c); p.InRange() && Largest(p) == v && Smallest(p) == v - c
  {
  }

  lemma ColourInRange(h: real, c: real, v: real)
    requires 0.0 <= h < 360.0 && 0.0 <= c <= v <= 1.0
    ensures FromChroma(h, c, v).InRange() && Largest(FromChroma(h, c, v)) == v
    ensures Smallest(FromChroma(h, c, v)) == v - c
  {
    var k, t := SectorOf(h);
    var u := Ramp(k, t);
    var x := c * u;
    ProductInRange(c, u);
    AtSector(h, k, t, c, x, v);
    SectorInRange(k, c, x, v);
  }

  lemma HueSurvives(h: real, c: real, v: real)
    requires 0.0 <= h < 360.0 && c > 0.0
    ensures HueOf(FromChroma(h, c, v)) == h
  {
    var k, t := SectorOf(h);
    AtSector(h, k, t, c, c * Ramp(k, t), v);
    HueOfSector(k, t, c, v - c);
  }

  /** The position of a colour by its extremes. */
  lemma ReadsAs(p: Rgb, h: real, s: real, v: real, c: real)
    requires Largest(p) == v && Smallest(p) == v - c && HueOf(p) == h
    requires s == if v != 0.0 then c / v else 0.0
    ensures ToHsv(p) == Hsv(h, s, v)
  {
  }

  lemma GreyHasNoHue(p: Rgb)
    requires Largest(p) == Smallest(p)
    ensures HueOf(p) == 0.0
  {
  }

  lemma NoPart(v: real)
    ensures (if v != 0.0 then 0.0 / v else 0.0) == 0.0
  {
  }

  /** The colour of a position, and the position that it reads back as. */
  lemma HsvReadsBack(q: Hsv) returns (c: real)
    requires q.InRange()
    ensures ToRgb(q).InRange() && (c > 0.0 <==> q.s > 0.0 && q.v > 0.0)
    ensures ToHsv(ToRgb(q)) == if c > 0.0 then q else Hsv(0.0, 0.0, q.v)
  {
    c := Chroma(q);
    var p := FromChroma(q.h, c, q.v);
    ColourInRange(q.h, c, q.v);
    Reassembled(q.h, q.s, q.v, c);
    if c > 0.0 {
      HueSurvives(q.h, c, q.v);
      ReadsAs(p, q.h, q.s, q.v, c);
    } else {
      GreyHasNoHue(p);
      NoPart(q.v);
      ReadsAs(p, 0.0, 0.0, q.v, 0.0);
    }
  }

  /**
    The picker's position survives a trip through its colour exactly when the colour is neither
    grey nor black, or it is the position such a colour reads back as.
   */
  lemma HsvSurvivesExactly(q: Hsv)
    requires q.InRange()
    ensures ToRgb(q).InRange()
    ensures ToHsv(ToRgb(q)) == q <==> (q.s > 0.0 && q.v > 0.0) || (q.h == 0.0 && q.s == 0.0)
  {
    var c := HsvReadsBack(q);
    assert Hsv(0.0, 0.0, q.v) == q <==> q.h == 0.0 && q.s == 0.0;
  }

  // ----- through hexadecimal

  lemma RoundNatural(n: int)
    requires 0 <= n < 256
    ensures Round(n as real / 255.0 * 255.0) == n
  {
    DivideBack(n as real, 255.0);
  }

  lemma TwoDigits(n: int)
    requires 0 <= n < 256
    ensures PadTwo(ToHex(n)) == [Digit(n / 16), Digit(n % 16)]
  {
    if n >= 16 {
      assert ToHex(n / 16) == [Digit(n / 16)];
    }
  }

  /** A channel prints as the two digits it was read from, up to case. */
  lemma ChannelPrintsBack(hex: string, i: nat, part: real)
    requires IsColour(hex) && 1 <= i < 6 && part == ByteAt(hex, i) as real / 255.0
    ensures 0.0 <= part <= 1.0
    ensures var two := Channel(part);
      |two| == 2 && UpperChar(two[0]) == UpperChar(hex[i]) && UpperChar(two[1]) == UpperChar(hex[i + 1])
  {
    var n := ByteAt(hex, i);
    RoundNatural(n);
    TwoDigits(n);
    assert n / 16 == DigitValue(hex[i]) && n % 16 == DigitValue(hex[i + 1]);
  }

  lemma Glue(a: string, b: string, c: string)
    requires |a| == 2 && |b| == 2 && |c| == 2
    ensures "#" + a + b + c == ['#', a[0], a[1], b[0], b[1], c[0], c[1]]
  {
  }

  lemma GlueUpper(hex: string, a: string, b: string, c: string)
    requires |hex| == 7 && hex[0] == '#' && |a| == 2 && |b| == 2 && |c| == 2
    requires UpperChar(a[0]) == UpperChar(hex[1]) && UpperChar(a[1]) == UpperChar(hex[2])
    requires UpperChar(b[0]) == UpperChar(hex[3]) && UpperChar(b[1]) == UpperChar(hex[4])
    requires UpperChar(c[0]) == UpperChar(hex[5]) && UpperChar(c[1]) == UpperChar(hex[6])
    ensures Upper("#" + a + b + c) == Upper(hex)
  {
    Glue(a, b, c);
  }

  lemma ColourPrintsBack(hex: string)
    requires IsColour(hex)
    ensures var p := HexToRgb(hex); p.InRange() && Print(p) == Upper(hex)
  {
    var p := HexToRgb(hex);
    ChannelPrintsBack(hex, 1, p.r);
    ChannelPrintsBack(hex, 3, p.g);
    ChannelPrintsBack(hex, 5, p.b);
    GlueUpper(hex, Channel(p.r), Channel(p.g), Channel(p.b));
  }

  /** Printing a colour through hue, saturation and value prints the colour. */
  lemma PrintsAlike(p: Rgb)
    requires p.InRange()
    ensures HsvToHex(ToHsv(p)) == Print(p)
  {
    RgbSurvives(p);
    var q := ToHsv(p);
    assert HsvToHex(q) == Print(ToRgb(q));
  }

  lemma ReadsClean(hex: string)
    ensures HexToRgb(hex) == HexToRgb(Clean(hex))
  {
  }

  /** A hash and six hexadecimal digits. */
  predicate SixDigits(hex: string) {
    && |hex| == 7 && hex[0] == '#'
    && forall i :: 1 <= i < 7 ==> '0' <= hex[i] <= '9' || 'a' <= hex[i] <= 'f' || 'A' <= hex[i] <= 'F'
  }

  /** Every colour comes back from the picker in upper case, and anything else as the fallback grey. */
  lemma HexSurvives(hex: string)
    ensures HsvToHex(HexToHsv(hex)) == if SixDigits(hex) then Upper(hex) else "#888888"
  {
    assert IsColour(hex) <==> SixDigits(hex);
    ColourPrintsBack(Clean(hex));
    ReadsClean(hex);
    PrintsAlike(HexToRgb(hex));
    UpperGrey();
  }

  lemma UpperGrey()
    ensures Upper(FALLBACK) == FALLBACK
  {
  }

  lemma ChannelIsTwoDigits(part: real)
    requires 0.0 <= part <= 1.0
    ensures |Channel(part)| == 2 && forall i :: 0 <= i < 2 ==> IsHexDigit(Channel(part)[i])
  {
    TwoDigits(Round(part * 255.0));
  }

  lemma PrintedDigits(p: Rgb)
    requires p.InRange()
    ensures var hex := Print(p);
      && IsColour(hex) && Upper(hex) == hex
      && |Channel(p.r)| == 2 && |Channel(p.g)| == 2 && |Channel(p.b)| == 2
      && hex[1] == UpperChar(Channel(p.r)[0]) && hex[2] == UpperChar(Channel(p.r)[1])
      && hex[3] == UpperChar(Channel(p.g)[0]) && hex[4] == UpperChar(Channel(p.g)[1])
      && hex[5] == UpperChar(Channel(p.b)[0]) && hex[6] == UpperChar(Channel(p.b)[1])
  {
    ChannelIsTwoDigits(p.r);
    ChannelIsTwoDigits(p.g);
    ChannelIsTwoDigits(p.b);
    Glue(Channel(p.r), Channel(p.g), Channel(p.b));
  }

  /** Every position of the picker gives a colour, and reading that colour back settles on it. */
  lemma PickerGivesColours(q: Hsv)
    requires q.InRange()
    ensures IsColour(HsvToHex(q)) && Upper(HsvToHex(q)) == HsvToHex(q)
    ensures HsvToHex(HexToHsv(HsvToHex(q))) == HsvToHex(q)
  {
    HsvSurvivesExactly(q);
    PrintedDigits(ToRgb(q));
    HexSurvives(HsvToHex(q));
  }

  /** Printing moves each channel by at most half a step. */
  lemma PrintingIsClose(q: Hsv)
    requires q.InRange()
    ensures var p, back := ToRgb(q), HexToRgb(HsvToHex(q));
      && RealAbs(back.r - p.r) <= 1.0 / 510.0
      && RealAbs(back.g - p.g) <= 1.0 / 510.0
      && RealAbs(back.b - p.b) <= 1.0 / 510.0
  {
    HsvSurvivesExactly(q);
    var p, hex := ToRgb(q), HsvToHex(q);
    PrintedDigits(p);
    ByteOfChannel(hex, 1, p.r);
    ByteOfChannel(hex, 3, p.g);
    ByteOfChannel(hex, 5, p.b);
  }

  lemma ByteOfChannel(hex: string, i: nat, part: real)
    requires IsColour(hex) && 1 <= i < 6 && 0.0 <= part <= 1.0
    requires |Channel(part)| == 2
    requires hex[i] == UpperChar(Channel(part)[0]) && hex[i + 1] == UpperChar(Channel(part)[1])
    ensures ByteAt(hex, i) == Round(part * 255.0)
    ensures RealAbs(ByteAt(hex, i) as real / 255.0 - part) <= 1.0 / 510.0
  {
    var n := Round(part * 255.0);
    TwoDigits(n);
    DigitBack(n / 16);
    DigitBack(n % 16);
    CloseTo(part, n);
  }

  lemma DigitBack(d: int)
    requires 0 <= d < 16
    ensures IsHexDigit(UpperChar(Digit(d))) && DigitValue(UpperChar(Digit(d))) == d
  {
  }

  lemma CloseTo(part: real, n: int)
    requires n == Round(part * 255.0)
    ensures RealAbs(n as real / 255.0 - part) <= 1.0 / 510.0
  {
  }
}
