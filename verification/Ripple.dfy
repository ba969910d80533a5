/** The colour of a button's ripple: its background, darker or lighter by its brightest channel. */
module Ripple {
  import opened Options

  predicate IsHexDigit(c: char) { '0' <= c <= '9' || 'a' <= c <= 'f' || 'A' <= c <= 'F' }

  function HexDigit(c: char): (v: nat)
    requires IsHexDigit(c)
    ensures v < 16
  {
    if '0' <= c <= '9' then c as int - '0' as int
    else if 'a' <= c <= 'f' then c as int - 'a' as int + 10
    else c as int - 'A' as int + 10
  }

  // #rrggbb
  predicate IsColour(value: string) {
    |value| == 7 && value[0] == '#' && forall i :: 1 <= i < 7 ==> IsHexDigit(value[i])
  }

  function Channel(value: string, k: nat): (v: nat)
    requires IsColour(value) && k < 3
    ensures v <= 255
  {
    16 * HexDigit(value[1 + 2 * k]) + HexDigit(value[2 + 2 * k])
  }

  function Max(a: int, b: int): int { if a < b then b else a }

  function Min(a: int, b: int): int { if b < a then b else a }

  function Abs(a: real): real { if a < 0.0 then -a else a }

  // Math.round
  function Round(x: real): int { (x + 0.5).Floor }

  // The remainder of a division rounded towards zero.
  function Rem(x: real, m: real): real
    requires m > 0.0
  {
    var q := x / m;
    x - m * (if q >= 0.0 then q.Floor else -(-q).Floor) as real
  }

  function DigitOf(v: nat): (c: char)
    requires v < 16
    ensures IsHexDigit(c) && HexDigit(c) == v
  {
    if v < 10 then '0' + v as char else 'a' + (v - 10) as char
  }

  function HexText(v: nat): (s: string)
    ensures s != "" && forall i :: 0 <= i < |s| ==> IsHexDigit(s[i])
  {
    if v < 16 then [DigitOf(v)] else HexText(v / 16) + [DigitOf(v % 16)]
  }

  function HexByte(value: real): string {
    var text := HexText(Max(0, Min(255, Round(value))));
    if |text| < 2 then "0" + text else text
  }

  // Two digits, of the rounded value clamped to a byte.
  lemma HexByteExactly(value: real)
    ensures var s := HexByte(value); var v := Round(value);
      |s| == 2 && IsHexDigit(s[0]) && IsHexDigit(s[1])
      && 16 * HexDigit(s[0]) + HexDigit(s[1]) == if v < 0 then 0 else if v > 255 then 255 else v
  {
    var clamped := Max(0, Min(255, Round(value)));
    if clamped >= 16 {
      assert HexText(clamped / 16) == [DigitOf(clamped / 16)];
    }
  }

  function Brightest(red: nat, green: nat, blue: nat): nat { Max(red, Max(green, blue)) }

  // The brightest channel of the ripple.
  function NextValue(maximum: nat): int { if maximum > 128 then maximum - 32 else maximum + 32 }

  lemma NextValueInRange(maximum: nat)
    requires maximum <= 255
    ensures 32 <= NextValue(maximum) <= 223
  {
  }

  function Share(n: real, a: real, m: real): real
    requires m != 0.0
  {
    n * a / m
  }

  // A channel of the ripple: in proportion, or grey if the background is black.
  function Scaled(channel: nat, maximum: nat): real {
    if maximum == 0 then 32.0 else Share(NextValue(maximum) as real, channel as real, maximum as real)
  }

  function Shown(red: nat, green: nat, blue: nat): string {
    var maximum := Brightest(red, green, blue);
    "#" + HexByte(Scaled(red, maximum)) + HexByte(Scaled(green, maximum)) + HexByte(Scaled(blue, maximum))
  }

  lemma Cancel(a: real, b: real, m: real)
    requires m != 0.0 && a * m == b * m
    ensures a == b
  {
  }

  // The share of the chroma that a channel gets for its distance `a` from the least one.
  lemma ChromaShare(n: real, d: real, m: real, a: real)
    requires m != 0.0 && d != 0.0
    ensures n * (d / m) * (a / d) == Share(n, a, m)
  {
    var s, q, y := d / m, a / d, Share(n, a, m);
    assert s * m == d && q * d == a && y * m == n * a;
    assert n * s * q * m == n * q * (s * m);
    assert n * q * d == n * (q * d);
    Cancel(n * s * q, y, m);
  }

  lemma WholeShare(n: real, m: real)
    requires m != 0.0
    ensures Share(n, m, m) == n
  {
    var q := Share(n, m, m);
    assert q * m == n * m;
    Cancel(q, n, m);
  }

  // What is left of the brightness is the least channel's.
  lemma LeastShare(n: real, d: real, m: real, low: real)
    requires m != 0.0 && d == m - low
    ensures n - n * (d / m) == Share(n, low, m) && n * (d / m) + Share(n, low, m) == Share(n, m, m)
  {
    var s, y := d / m, Share(n, low, m);
    assert s * m == d && y * m == n * low;
    assert (n - n * s) * m == n * m - n * (s * m);
    Cancel(n - n * s, y, m);
    WholeShare(n, m);
  }

  lemma SharesAdd(n: real, m: real, a: real, low: real, high: real)
    requires m != 0.0 && high == a + low
    ensures Share(n, a, m) + Share(n, low, m) == Share(n, high, m)
  {
    var x, y, z := Share(n, a, m), Share(n, low, m), Share(n, high, m);
    assert x * m == n * a && y * m == n * low && z * m == n * high;
    Cancel(x + y, z, m);
  }

  lemma ShareInRange(n: real, a: real, m: real)
    requires 0.0 <= a <= m && m > 0.0 && n >= 0.0
    ensures 0.0 <= Share(n, a, m) <= n
  {
    var y := Share(n, a, m);
    assert y * m == n * a;
    InOrder(0.0, a, n);
    InOrder(a, m, n);
    Divided(0.0, y * m, m);
    Divided(y * m, n * m, m);
    Cancel(y * m / m, y, m);
    Cancel(n * m / m, n, m);
  }

  lemma InOrder(a: real, b: real, k: real)
    requires a <= b && k >= 0.0
    ensures k * a <= k * b
  {
  }

  lemma Divided(a: real, b: real, m: real)
    requires a <= b && m > 0.0
    ensures a / m <= b / m
  {
    assert a / m == a * (1.0 / m) && b / m == b * (1.0 / m);
  }

  // The triangle wave of the hue.
  function Wave(t: real): real { 1.0 - Abs(Rem(t, 2.0) - 1.0) }

  lemma WaveIs(t: real)
    requires 0.0 <= t <= 6.0
    ensures t <= 1.0 ==> Wave(t) == t
    ensures 1.0 <= t <= 2.0 ==> Wave(t) == 2.0 - t
    ensures 2.0 <= t <= 3.0 ==> Wave(t) == t - 2.0
    ensures 3.0 <= t <= 4.0 ==> Wave(t) == 4.0 - t
    ensures 4.0 <= t <= 5.0 ==> Wave(t) == t - 4.0
    ensures 5.0 <= t <= 6.0 ==> Wave(t) == 6.0 - t
  {
    assert (t / 2.0).Floor == if t < 2.0 then 0 else if t < 4.0 then 1 else if t < 6.0 then 2 else 3;
  }

  // One channel is the brightest, one the least, and one is `a` above the least; `t` is the hue in sixths of a circle.
  lemma Sextant(maximum: nat, minimum: nat, middle: nat)
    requires minimum <= middle <= maximum && minimum < maximum
    ensures var n, m, d := NextValue(maximum) as real, maximum as real, (maximum - minimum) as real;
            var chroma := n * (d / m);
      && n - chroma == Scaled(minimum, maximum)
      && chroma + (n - chroma) == Scaled(maximum, maximum)
      && chroma * ((middle - minimum) as real / d) + (n - chroma) == Scaled(middle, maximum)
      && 0.0 <= (middle - minimum) as real / d <= 1.0
      && ((middle - minimum) as real / d == 1.0 <==> middle == maximum)
      && ((middle - minimum) as real / d == 0.0 <==> middle == minimum)
  {
    var n, m, d := NextValue(maximum) as real, maximum as real, (maximum - minimum) as real;
    var low, a := minimum as real, (middle - minimum) as real;
    LeastShare(n, d, m, low);
    ChromaShare(n, d, m, a);
    SharesAdd(n, m, a, low, middle as real);
    Ratio(a, d);
  }

  lemma Ratio(a: real, d: real)
    requires 0.0 <= a <= d && d > 0.0
    ensures 0.0 <= a / d <= 1.0 && (a / d == 1.0 <==> a == d) && (a / d == 0.0 <==> a == 0.0)
    ensures (-a) / d == -(a / d)
  {
    assert a / d * d == a && (-a) / d * d == -a;
    Cancel((-a) / d, -(a / d), d);
  }

  // The hue, in sixths of a circle.
  function Sixths(red: nat, green: nat, blue: nat): real {
    var maximum, minimum := Brightest(red, green, blue), Min(red, Min(green, blue));
    var d := (maximum - minimum) as real;
    if maximum == minimum then 0.0
    else if maximum == red then
      if green >= blue then (green - blue) as real / d else 6.0 - (blue - green) as real / d
    else if maximum == green then
      if blue >= red then 2.0 + (blue - red) as real / d else 2.0 - (red - blue) as real / d
    else
      if red >= green then 4.0 + (red - green) as real / d else 4.0 - (green - red) as real / d
  }

  function Sextants(t: real, chroma: real, x: real): (real, real, real) {
    if t < 1.0 then (chroma, x, 0.0)
    else if t < 2.0 then (x, chroma, 0.0)
    else if t < 3.0 then (0.0, chroma, x)
    else if t < 4.0 then (0.0, x, chroma)
    else if t < 5.0 then (x, 0.0, chroma)
    else (chroma, 0.0, x)
  }

  function Saturation(maximum: nat, minimum: nat): real {
    if maximum == 0 then 0.0 else (maximum - minimum) as real / maximum as real
  }

  function Chroma(maximum: nat, minimum: nat): real { NextValue(maximum) as real * Saturation(maximum, minimum) }

  // The share of the channel between the brightest and the least one.
  function Second(t: real, chroma: real): real { chroma * Wave(t) }

  ghost predicate Detours(red: nat, green: nat, blue: nat) {
    var maximum, minimum := Brightest(red, green, blue), Min(red, Min(green, blue));
    var chroma, t := Chroma(maximum, minimum), Sixths(red, green, blue);
    var c, m := Sextants(t, chroma, Second(t, chroma)), NextValue(maximum) as real - chroma;
    && 0.0 <= t < 6.0
    && c.0 + m == Scaled(red, maximum) && c.1 + m == Scaled(green, maximum) && c.2 + m == Scaled(blue, maximum)
  }

  // The detour through hue and saturation scales each channel alike, in every sextant.
  lemma Detour(red: nat, green: nat, blue: nat)
    requires red <= 255 && green <= 255 && blue <= 255
    ensures Detours(red, green, blue)
  {
    hide Detours;
    var maximum, minimum := Brightest(red, green, blue), Min(red, Min(green, blue));
    if maximum == minimum {
      GreyDetour(maximum);
    } else if maximum == red {
      RedDetour(red, green, blue);
    } else if maximum == green {
      GreenDetour(red, green, blue);
    } else {
      BlueDetour(red, green, blue);
    }
  }

  lemma Shares(red: nat, green: nat, blue: nat)
    requires red <= 255 && green <= 255 && blue <= 255 && Brightest(red, green, blue) > Min(red, Min(green, blue))
    ensures var maximum, minimum := Brightest(red, green, blue), Min(red, Min(green, blue));
            var middle := red + green + blue - maximum - minimum;
            var n, chroma, share := NextValue(maximum) as real, Chroma(maximum, minimum),
              (middle - minimum) as real / (maximum - minimum) as real;
      && 0.0 <= share <= 1.0 && (share == 1.0 <==> middle == maximum) && (share == 0.0 <==> middle == minimum)
      && 0.0 + (n - chroma) == Scaled(minimum, maximum)
      && chroma + (n - chroma) == Scaled(maximum, maximum)
      && chroma * share + (n - chroma) == Scaled(middle, maximum)
  {
    hide NextValue, Scaled;
    var maximum, minimum := Brightest(red, green, blue), Min(red, Min(green, blue));
    Sextant(maximum, minimum, red + green + blue - maximum - minimum);
  }

  lemma GreyDetour(v: nat)
    requires v <= 255
    ensures Detours(v, v, v)
  {
    hide NextValue, Wave, Scaled, Share;
    GreyStays(v);
    assert 0.0 * Wave(0.0) == 0.0;
  }

  lemma RedDetour(red: nat, green: nat, blue: nat)
    requires green <= red <= 255 && blue <= red && Min(green, blue) < red
    ensures Detours(red, green, blue)
  {
    hide NextValue, Wave, Scaled, Chroma, Share;
    Shares(red, green, blue);
    WaveIs(Clamped(Sixths(red, green, blue)));
  }

  lemma GreenDetour(red: nat, green: nat, blue: nat)
    requires red < green <= 255 && blue <= green
    ensures Detours(red, green, blue)
  {
    hide Detours;
    if blue >= red {
      CyanDetour(red, green, blue);
    } else {
      YellowDetour(red, green, blue);
    }
  }

  lemma CyanDetour(red: nat, green: nat, blue: nat)
    requires red <= blue <= green <= 255 && red < green
    ensures Detours(red, green, blue)
  {
    hide NextValue, Wave, Scaled, Chroma, Share;
    Shares(red, green, blue);
    WaveIs(Clamped(Sixths(red, green, blue)));
  }

  lemma YellowDetour(red: nat, green: nat, blue: nat)
    requires blue < red < green <= 255
    ensures Detours(red, green, blue)
  {
    hide NextValue, Wave, Scaled, Chroma, Share;
    Shares(red, green, blue);
    WaveIs(Clamped(Sixths(red, green, blue)));
  }

  lemma BlueDetour(red: nat, green: nat, blue: nat)
    requires red < blue <= 255 && green < blue
    ensures Detours(red, green, blue)
  {
    hide NextValue, Wave, Scaled, Chroma, Share;
    Shares(red, green, blue);
    WaveIs(Clamped(Sixths(red, green, blue)));
  }

  function Clamped(t: real): (r: real)
    ensures 0.0 <= r <= 6.0 && (0.0 <= t <= 6.0 ==> r == t)
  {
    if t < 0.0 then 0.0 else if t > 6.0 then 6.0 else t
  }

  lemma GreyStays(maximum: nat)
    requires maximum <= 255
    ensures Chroma(maximum, maximum) == 0.0 && NextValue(maximum) as real == Scaled(maximum, maximum)
  {
    if maximum != 0 {
      WholeShare(NextValue(maximum) as real, maximum as real);
    }
  }

  method Hue(red: nat, green: nat, blue: nat) returns (hue: real)
    requires red <= 255 && green <= 255 && blue <= 255
    ensures hue / 60.0 == Sixths(red, green, blue) && 0.0 <= hue < 360.0
  {
    hide Rem;
    var maximum := Max(red, Max(green, blue));
    var minimum := Min(red, Min(green, blue));
    var delta := maximum - minimum;
    var d := delta as real;
    hue := 0.0;
    if delta != 0 {
      Quotients(green - blue, d);
      Quotients(blue - red, d);
      Quotients(red - green, d);
    }
    if delta != 0 && maximum == red {
      SmallRem((green - blue) as real / d);
      hue := 60.0 * Rem((green - blue) as real / d, 6.0);
    } else if delta != 0 && maximum == green {
      hue := 60.0 * ((blue - red) as real / d + 2.0);
    } else if delta != 0 {
      hue := 60.0 * ((red - green) as real / d + 4.0);
    }
    if hue < 0.0 {
      hue := hue + 360.0;
    }
  }

  lemma Quotients(a: int, d: real)
    requires d > 0.0 && -d <= a as real <= d
    ensures -1.0 <= a as real / d <= 1.0 && (-a) as real / d == -(a as real / d)
    ensures (a < 0 <==> a as real / d < 0.0) && (a as real == -d <==> a as real / d == -1.0)
  {
    var x := a as real;
    Ratio(if a < 0 then -x else x, d);
    Ratio(x * 0.0, d);
    assert (-a) as real == -x;
    Cancel((-x) / d, -(x / d), d);
  }

  lemma SmallRem(x: real)
    requires -1.0 <= x <= 1.0
    ensures Rem(x, 6.0) == x
  {
    assert x >= 0.0 ==> (x / 6.0).Floor == 0;
    assert x < 0.0 ==> (-(x / 6.0)).Floor == 0;
  }

  method Place(hue: real, chroma: real, x: real) returns (r: real, g: real, b: real)
    ensures (r, g, b) == Sextants(hue / 60.0, chroma, x)
  {
    r, g, b := 0.0, 0.0, 0.0;
    if hue < 60.0 {
      r, g := chroma, x;
    } else if hue < 120.0 {
      r, g := x, chroma;
    } else if hue < 180.0 {
      g, b := chroma, x;
    } else if hue < 240.0 {
      g, b := x, chroma;
    } else if hue < 300.0 {
      r, b := x, chroma;
    } else {
      r, b := chroma, x;
    }
  }

  lemma MixedRight(red: nat, green: nat, blue: nat, t: real, chroma: real, x: real, m: real)
    requires red <= 255 && green <= 255 && blue <= 255
    requires var maximum, minimum := Brightest(red, green, blue), Min(red, Min(green, blue));
             t == Sixths(red, green, blue) && chroma == Chroma(maximum, minimum) && x == Second(t, chroma)
             && m == NextValue(maximum) as real - chroma
    ensures var maximum, c := Brightest(red, green, blue), Sextants(t, chroma, x);
            c.0 + m == Scaled(red, maximum) && c.1 + m == Scaled(green, maximum) && c.2 + m == Scaled(blue, maximum)
  {
    hide Sixths, Chroma, Second, NextValue, Scaled, Sextants;
    Detour(red, green, blue);
  }

  method NextChroma(maximum: nat, minimum: nat) returns (nextValue: int, chroma: real)
    requires minimum <= maximum <= 255
    ensures nextValue == NextValue(maximum) && chroma == Chroma(maximum, minimum)
  {
    var saturation := if maximum == 0 then 0.0 else (maximum - minimum) as real / maximum as real;
    nextValue := Max(0, Min(255, maximum + (if maximum > 128 then -32 else 32)));
    chroma := nextValue as real * saturation;
  }

  // The channels of the ripple before they are rounded.
  method Mixed(red: nat, green: nat, blue: nat) returns (r: real, g: real, b: real)
    requires red <= 255 && green <= 255 && blue <= 255
    ensures var maximum := Brightest(red, green, blue);
            r == Scaled(red, maximum) && g == Scaled(green, maximum) && b == Scaled(blue, maximum)
  {
    hide Rem, Scaled, Sixths, Sextants, Share, NextValue, Chroma;
    var maximum := Max(red, Max(green, blue));
    var minimum := Min(red, Min(green, blue));
    var hue := Hue(red, green, blue);
    var nextValue, chroma := NextChroma(maximum, minimum);
    var x := chroma * (1.0 - Abs(Rem(hue / 60.0, 2.0) - 1.0));
    var m := nextValue as real - chroma;
    r, g, b := Place(hue, chroma, x);
    MixedRight(red, green, blue, hue / 60.0, chroma, x, m);
    r, g, b := r + m, g + m, b + m;
  }

  // A colour is scaled channel by channel; anything else is no colour.
  method ButtonRippleForBackground(value: string) returns (r: Option<string>)
    ensures r == if IsColour(value) then Some(Shown(Channel(value, 0), Channel(value, 1), Channel(value, 2))) else None
  {
    if !IsColour(value) {
      return None;
    }
    var red, green, blue := Mixed(Channel(value, 0), Channel(value, 1), Channel(value, 2));
    return Some("#" + HexByte(red) + HexByte(green) + HexByte(blue));
  }

  // No clamp changes a value: the ripple's channels are the scaled ones rounded, and it is a colour again.
  lemma ShownExactly(red: nat, green: nat, blue: nat)
    requires red <= 255 && green <= 255 && blue <= 255
    ensures var maximum, c := Brightest(red, green, blue), Shown(red, green, blue);
      && IsColour(c)
      && Channel(c, 0) == Round(Scaled(red, maximum))
      && Channel(c, 1) == Round(Scaled(green, maximum))
      && Channel(c, 2) == Round(Scaled(blue, maximum))
  {
    hide HexByte, Scaled, Round;
    var maximum := Brightest(red, green, blue);
    ScaledInRange(red, maximum);
    ScaledInRange(green, maximum);
    ScaledInRange(blue, maximum);
    HexByteExactly(Scaled(red, maximum));
    HexByteExactly(Scaled(green, maximum));
    HexByteExactly(Scaled(blue, maximum));
  }

  lemma ScaledInRange(channel: nat, maximum: nat)
    requires channel <= maximum <= 255
    ensures 0.0 <= Scaled(channel, maximum) <= 223.0 && 0 <= Round(Scaled(channel, maximum)) <= 223
  {
    hide Share, NextValue;
    if maximum != 0 {
      NextValueInRange(maximum);
      ShareInRange(NextValue(maximum) as real, channel as real, maximum as real);
    }
  }

  // In whole numbers: each channel of the ripple is the nearest to its share of the new brightness, which is 32 below
  // the old one exactly if that was above 128, else 32 above; the brightest channel gets just that.
  lemma RippleExactly(red: nat, green: nat, blue: nat, maximum: nat)
    requires red <= maximum && green <= maximum && blue <= maximum <= 255
    requires maximum == red || maximum == green || maximum == blue
    ensures var c, n := Shown(red, green, blue), if maximum > 128 then maximum - 32 else maximum + 32;
      && IsColour(c)
      && Channel(c, 0) == Nearest(red, n, maximum)
      && Channel(c, 1) == Nearest(green, n, maximum)
      && Channel(c, 2) == Nearest(blue, n, maximum)
      && (red == maximum ==> Channel(c, 0) == n) && (green == maximum ==> Channel(c, 1) == n)
      && (blue == maximum ==> Channel(c, 2) == n)
  {
    hide Scaled, Shown, Round, Nearest, NextValue;
    var n := if maximum > 128 then maximum - 32 else maximum + 32;
    assert Brightest(red, green, blue) == maximum;
    ShownExactly(red, green, blue);
    RoundedShare(red, n, maximum);
    RoundedShare(green, n, maximum);
    RoundedShare(blue, n, maximum);
    NearestWhole(n, maximum);
  }

  // The nearest whole number to v * n / m, the greater of two; for black it is all of n.
  function Nearest(v: nat, n: nat, m: nat): nat { if m == 0 then n else (2 * v * n + m) / (2 * m) }

  lemma NearestWhole(n: nat, m: nat)
    ensures Nearest(m, n, m) == n
  {
    if m != 0 {
      Quotient(2 * m * n + m, 2 * m, n);
    }
  }

  lemma Quotient(a: nat, b: nat, q: nat)
    requires b > 0 && b * q <= a < b * q + b
    ensures a / b == q
  {
    var e, r := a / b, a % b;
    assert a == b * e + r && 0 <= r < b;
    if e > q {
      ProductGrows(b, q, e);
    } else if e < q {
      ProductGrows(b, e, q);
    }
  }

  lemma ProductGrows(b: nat, x: nat, y: nat)
    requires x < y
    ensures b * x + b <= b * y
  {
    var d: nat := y - x - 1;
    assert b * y == b * (x + 1 + d) == b * x + b + b * d;
  }

  lemma RoundedShare(v: nat, n: nat, m: nat)
    requires v <= m <= 255 && n == if m > 128 then m - 32 else m + 32
    ensures Round(Scaled(v, m)) == Nearest(v, n, m)
  {
    if m == 0 {
      assert Round(32.0) == 32;
    } else {
      var a, b := 2 * v * n + m, 2 * m;
      FloorOfQuotient(a, b);
      var y := Share(n as real, v as real, m as real);
      assert y * m as real == n as real * v as real;
      assert (y + 0.5) * b as real == a as real;
      Cancel(y + 0.5, a as real / b as real, b as real);
    }
  }

  lemma FloorOfQuotient(a: nat, b: nat)
    requires b > 0
    ensures (a as real / b as real).Floor == a / b
  {
    var q, r := a / b, a % b;
    assert a == b * q + r;
    Ratio(r as real, b as real);
    var x := a as real / b as real;
    assert x * b as real == a as real;
    assert (q as real + r as real / b as real) * b as real == a as real;
    Cancel(x, q as real + r as real / b as real, b as real);
  }

  lemma HexDigitExactly(c: char)
    ensures IsHexDigit(c) <==> c in "0123456789abcdefABCDEF"
  {
  }

  // The digits, of both cases, stand for 0 to 15; those written are the small ones.
  lemma HexDigits(k: nat)
    requires k < 16
    ensures IsHexDigit("0123456789abcdef"[k]) && HexDigit("0123456789abcdef"[k]) == k
    ensures IsHexDigit("0123456789ABCDEF"[k]) && HexDigit("0123456789ABCDEF"[k]) == k
    ensures DigitOf(k) == "0123456789abcdef"[k]
  {
  }
}
