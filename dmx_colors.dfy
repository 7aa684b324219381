/** Colour-space conversion: HSL, HSV and HSI to RGB by the hue-sextant
    construction, and the five-channel colour record a fixture is driven from.
    All quantities are reals; hue, saturation and the third coordinate are
    normalised to [0,1]. */
module DmxColors {
  import opened Util
  import Params

  /** The colour channels a fixture can expose. */
  datatype Color = Red | Green | Blue | White | Black

  /** Every colour, in `colorList` order. */
  function ColorList(): (r: seq<Color>)
    ensures |r| == 5
    ensures forall c: Color :: c in r
    ensures forall i, j :: 0 <= i < j < |r| ==> r[i] != r[j]
  {
    var l := [Red, Green, Blue, White, Black];
    EveryColorListed(l);
    l
  }

  lemma EveryColorListed(l: seq<Color>)
    requires l == [Red, Green, Blue, White, Black]
    ensures forall c: Color :: c in l
  {
    forall c: Color ensures c in l {
      match c
      case Red => assert l[0] == c;
      case Green => assert l[1] == c;
      case Blue => assert l[2] == c;
      case White => assert l[3] == c;
      case Black => assert l[4] == c;
    }
  }

  datatype RGB = RGB(r: real, g: real, b: real)

  /** One intensity per colour channel. */
  datatype Colors = Colors(red: real, green: real, blue: real, white: real, black: real)
  {
    function Get(c: Color): real
    {
      match c
      case Red => red
      case Green => green
      case Blue => blue
      case White => white
      case Black => black
    }
  }

  /** Truncation toward zero, as JavaScript's `%` uses it. */
  function Trunc(x: real): (n: int)
    ensures 0.0 <= x ==> n as real <= x < n as real + 1.0
    ensures x < 0.0 ==> x < n as real + 1.0 && n as real - 1.0 < x && n <= 0
  {
    if x >= 0.0 then x.Floor else -((-x).Floor)
  }

  /** `hp % 2` with JavaScript's remainder: it takes the sign of `hp`. */
  function JsRem2(hp: real): (m: real)
    ensures -2.0 < m < 2.0
    ensures 0.0 <= hp ==> 0.0 <= m
  {
    hp - 2.0 * Trunc(hp / 2.0) as real
  }

  lemma JsRem2IsFloorMod(hp: real)
    requires 0.0 <= hp
    ensures JsRem2(hp) == hp - 2.0 * (hp / 2.0).Floor as real
  {
  }

  /** The share `1 - |hp % 2 - 1|` of the chroma that the secondary component gets. */
  function Secondary(hp: real): (z: real)
    ensures 0.0 <= hp ==> 0.0 <= z <= 1.0
  {
    1.0 - Abs(JsRem2(hp) - 1.0)
  }

  /** The six-sextant table: which of chroma `c`, secondary `x` and 0 goes to red,
      green and blue for hue-prime `hp`; `hp >= 5` (including 6) takes the last row. */
  function Intermediate(c: real, x: real, hp: real): (t: RGB)
  {
    if hp < 1.0 then RGB(c, x, 0.0)
    else if hp < 2.0 then RGB(x, c, 0.0)
    else if hp < 3.0 then RGB(0.0, c, x)
    else if hp < 4.0 then RGB(0.0, x, c)
    else if hp < 5.0 then RGB(x, 0.0, c)
    else RGB(c, 0.0, x)
  }

  /** Adds the match value `m` to every component. */
  function AddToAll(t: RGB, m: real): RGB
  {
    RGB(t.r + m, t.g + m, t.b + m)
  }

  /** The sextant row for hue-prime `hp`, chroma `c` and secondary share `z`,
      with every component raised by the match value `m`. */
  function ShiftedRow(hp: real, c: real, z: real, m: real): RGB
  {
    AddToAll(Intermediate(c, c * z, hp), m)
  }

  /** HSL: chroma `(1 - |2l - 1|) * s`, raised by `l - c/2`; with no saturation,
      the grey of the lightness. */
  function Hsl2Rgb(h: real, s: real, l: real): (t: RGB)
    ensures s == 0.0 ==> t == RGB(l, l, l)
  {
    var hp := h * 6.0;
    var c := (1.0 - Abs(2.0 * l - 1.0)) * s;
    ShiftedRow(hp, c, Secondary(hp), l - c / 2.0)
  }

  /** HSV: chroma `v * s`, raised by `v - c`; with no saturation, the grey of the
      value. */
  function Hsv2Rgb(h: real, s: real, v: real): (t: RGB)
    ensures s == 0.0 ==> t == RGB(v, v, v)
  {
    var hp := h * 6.0;
    var c := v * s;
    ShiftedRow(hp, c, Secondary(hp), v - c)
  }

  /** HSI: chroma `3is / (1 + z)` for the secondary share `z`, raised by `i(1 - s)`.
      `1 + z` is non-zero for every hue in [0,1]; for some negative hues the
      code divides by zero. With no saturation, the grey of the intensity. */
  function Hsi2Rgb(h: real, s: real, i: real): (t: RGB)
    requires 0.0 <= h
    ensures s == 0.0 ==> t == RGB(i, i, i)
  {
    var hp := h * 6.0;
    var z := Secondary(hp);
    var c := (3.0 * i * s) / (1.0 + z);
    assert s == 0.0 ==> c == 0.0 && i * (1.0 - s) == i;
    ShiftedRow(hp, c, z, i * (1.0 - s))
  }

  /** Every sextant row is an arrangement of the chroma, the secondary and 0. */
  lemma IntermediatePermutes(c: real, x: real, hp: real)
    ensures var t := Intermediate(c, x, hp); multiset{t.r, t.g, t.b} == multiset{c, x, 0.0}
  {
  }

  /** Scaling by a factor in [0,1] stays between 0 and the original. */
  lemma ScaleBetween(a: real, f: real, p: real)
    requires 0.0 <= a && 0.0 <= f <= 1.0 && p == a * f
    ensures 0.0 <= p <= a
  {
    assert a - a * f == a * (1.0 - f);
  }

  /** Whatever the sextant, the shifted table row has largest component `c + m`
      and smallest `m`, provided `0 <= x <= c`. */
  lemma SextantExtremes(c: real, x: real, hp: real, m: real)
    requires 0.0 <= x <= c
    ensures var t := AddToAll(Intermediate(c, x, hp), m);
      m <= t.r <= c + m && m <= t.g <= c + m && m <= t.b <= c + m &&
      Max3(t.r, t.g, t.b) == c + m && Min3(t.r, t.g, t.b) == m
  {
    if hp < 1.0 {
    } else if hp < 2.0 {
    } else if hp < 3.0 {
    } else if hp < 4.0 {
    } else if hp < 5.0 {
    } else {
    }
  }

  /** Whatever the sextant, the shifted row's components sum to `c + x + 3m`. */
  lemma RowSum(c: real, x: real, hp: real, m: real)
    ensures var t := AddToAll(Intermediate(c, x, hp), m); t.r + t.g + t.b == c + x + 3.0 * m
  {
    if hp < 1.0 {
    } else if hp < 2.0 {
    } else if hp < 3.0 {
    } else if hp < 4.0 {
    } else if hp < 5.0 {
    } else {
    }
  }

  /** For a non-negative chroma and a share in [0,1], the shifted row lies in
      [m, c + m] and reaches both ends. */
  lemma RowBounds(hp: real, c: real, z: real, m: real)
    requires 0.0 <= c && 0.0 <= z <= 1.0
    ensures var t := ShiftedRow(hp, c, z, m);
      m <= t.r <= c + m && m <= t.g <= c + m && m <= t.b <= c + m &&
      Max3(t.r, t.g, t.b) == c + m && Min3(t.r, t.g, t.b) == m
  {
    var x := c * z;
    ScaleBetween(c, z, x);
    SextantExtremes(c, x, hp, m);
  }

  /** Hsv2Rgb is the shifted row of its chroma and secondary share. */
  lemma HsvRow(h: real, s: real, v: real, c: real, z: real)
    requires c == v * s && z == Secondary(h * 6.0)
    ensures Hsv2Rgb(h, s, v) == ShiftedRow(h * 6.0, c, z, v - c)
  {
  }

  /** Hsl2Rgb is the shifted row of its chroma and secondary share. */
  lemma HslRow(h: real, s: real, l: real, c: real, z: real)
    requires c == (1.0 - Abs(2.0 * l - 1.0)) * s && z == Secondary(h * 6.0)
    ensures Hsl2Rgb(h, s, l) == ShiftedRow(h * 6.0, c, z, l - c / 2.0)
  {
  }

  /** For normalised inputs HSV gives components in [0,1]; the largest is the
      value `v` and the smallest `v - v*s`. */
  lemma HsvBounds(h: real, s: real, v: real)
    requires 0.0 <= h <= 1.0 && 0.0 <= s <= 1.0 && 0.0 <= v <= 1.0
    ensures var t := Hsv2Rgb(h, s, v);
      0.0 <= t.r <= 1.0 && 0.0 <= t.g <= 1.0 && 0.0 <= t.b <= 1.0 &&
      Max3(t.r, t.g, t.b) == v && Min3(t.r, t.g, t.b) == v - v * s
  {
    var c, z := v * s, Secondary(h * 6.0);
    ScaleBetween(v, s, c);
    HsvRow(h, s, v, c, z);
    RowBounds(h * 6.0, c, z, v - c);
  }

  /** For normalised inputs HSL gives components in [0,1], and the lightness `l`
      is the midpoint of the largest and smallest component. */
  lemma HslBounds(h: real, s: real, l: real)
    requires 0.0 <= h <= 1.0 && 0.0 <= s <= 1.0 && 0.0 <= l <= 1.0
    ensures var t := Hsl2Rgb(h, s, l);
      0.0 <= t.r <= 1.0 && 0.0 <= t.g <= 1.0 && 0.0 <= t.b <= 1.0 &&
      Max3(t.r, t.g, t.b) + Min3(t.r, t.g, t.b) == 2.0 * l
  {
    var c, z := (1.0 - Abs(2.0 * l - 1.0)) * s, Secondary(h * 6.0);
    HslChromaBounds(s, l);
    HslRow(h, s, l, c, z);
    RowBounds(h * 6.0, c, z, l - c / 2.0);
  }

  /** The HSL chroma is at most twice the distance from `l` to either end of [0,1]. */
  lemma HslChromaBounds(s: real, l: real)
    requires 0.0 <= s <= 1.0 && 0.0 <= l <= 1.0
    ensures var c := (1.0 - Abs(2.0 * l - 1.0)) * s;
      0.0 <= c && 0.0 <= l - c / 2.0 && l + c / 2.0 <= 1.0
  {
    var span := 1.0 - Abs(2.0 * l - 1.0);
    assert 0.0 <= span <= 2.0 * l && span <= 2.0 - 2.0 * l;
    ScaleBetween(span, s, span * s);
  }

  /** HSI keeps the intensity: the three components average to `i`. */
  lemma HsiMean(h: real, s: real, i: real)
    requires 0.0 <= h
    ensures var t := Hsi2Rgb(h, s, i); t.r + t.g + t.b == 3.0 * i
  {
    HsiRowMean(h, s, i);
  }

  /** The row Hsi2Rgb builds sums to `3i`. */
  lemma HsiRowMean(h: real, s: real, i: real)
    requires 0.0 <= h
    ensures var z := Secondary(h * 6.0);
      var t := ShiftedRow(h * 6.0, (3.0 * i * s) / (1.0 + z), z, i * (1.0 - s));
      t.r + t.g + t.b == 3.0 * i
  {
    var z := Secondary(h * 6.0);
    QuotientTimesDivisor(3.0 * i * s, 1.0 + z, (3.0 * i * s) / (1.0 + z));
    HsiRowSum(h * 6.0, (3.0 * i * s) / (1.0 + z), z, i, s);
  }

  /** When the chroma times `1 + z` is `3is`, the chroma and its secondary
      component add up to `3is`, so with the shift `i(1 - s)` the row sums to `3i`. */
  lemma HsiRowSum(hp: real, c: real, z: real, i: real, s: real)
    requires c * (1.0 + z) == 3.0 * i * s
    ensures var t := ShiftedRow(hp, c, z, i * (1.0 - s)); t.r + t.g + t.b == 3.0 * i
  {
    var n := 3.0 * i * s;
    assert c + c * z == n by {
      Distribute(c, z);
    }
    var m := i * (1.0 - s);
    assert 3.0 * m == 3.0 * i - n by {
      Distribute(i, -s);
    }
    RowSum(c, c * z, hp, m);
  }

  lemma QuotientTimesDivisor(n: real, d: real, q: real)
    requires d != 0.0 && q == n / d
    ensures q * d == n
  {
  }

  lemma Distribute(a: real, b: real)
    ensures a * (1.0 + b) == a + a * b
  {
  }

  /** At a whole-number hue-prime the remainder is the integer remainder. */
  lemma JsRem2AtWhole(k: nat)
    ensures JsRem2(k as real) == (k % 2) as real
  {
    JsRem2IsFloorMod(k as real);
    var q := k / 2;
    assert k as real / 2.0 == q as real + (k % 2) as real / 2.0;
    assert (k as real / 2.0).Floor == q;
  }

  /** Red, yellow, green, cyan, blue and magenta: the colours at the sextant starts. */
  function SextantColor(k: nat): RGB
    requires k < 6
  {
    [RGB(1.0, 0.0, 0.0), RGB(1.0, 1.0, 0.0), RGB(0.0, 1.0, 0.0),
     RGB(0.0, 1.0, 1.0), RGB(0.0, 0.0, 1.0), RGB(1.0, 0.0, 1.0)][k]
  }

  /** Hues k/6 at full saturation and value are the primaries and secondaries. */
  lemma HsvPrimaries(k: nat)
    requires k < 6
    ensures Hsv2Rgb(k as real / 6.0, 1.0, 1.0) == SextantColor(k)
  {
    HsvAtSextantStart(k);
    SextantStartRow(k);
  }

  /** The table row at a sextant start, with full chroma and share `k % 2`. */
  lemma SextantStartRow(k: nat)
    requires k < 6
    ensures Intermediate(1.0, (k % 2) as real, k as real) == SextantColor(k)
  {
    if k == 0 {
    } else if k == 1 {
    } else if k == 2 {
    } else if k == 3 {
    } else if k == 4 {
    } else {
    }
  }

  /** At hue k/6 with full saturation and value the secondary share is `k % 2`. */
  lemma HsvAtSextantStart(k: nat)
    ensures Hsv2Rgb(k as real / 6.0, 1.0, 1.0) == Intermediate(1.0, (k % 2) as real, k as real)
  {
    var h := k as real / 6.0;
    assert h * 6.0 == k as real;
    JsRem2AtWhole(k);
    var z := (k % 2) as real;
    assert Secondary(h * 6.0) == z;
    HsvRow(h, 1.0, 1.0, 1.0, z);
    assert 1.0 * z == z;
  }

  /** Hue 1 is hue 0 again: at `hp = 6` the secondary share is 0 and the last row applies. */
  lemma HueWrapsAround(s: real, x: real)
    ensures Hsv2Rgb(1.0, s, x) == Hsv2Rgb(0.0, s, x)
    ensures Hsl2Rgb(1.0, s, x) == Hsl2Rgb(0.0, s, x)
  {
    JsRem2AtWhole(0);
    JsRem2AtWhole(6);
    assert Secondary(6.0) == 0.0 == Secondary(0.0);
  }

  /** The value of `params[key] ?? 0`. */
  function ParamOr0(params: Params.ParamMap, key: string): real
  {
    if key in params then params[key] else 0.0
  }

  /** The colour channels for a scene's parameters: red, green and blue from the
      hue and saturation at full value, white as their common part, black as given. */
  function GetColors(params: Params.ParamMap): (cs: Colors)
    ensures RGB(cs.red, cs.green, cs.blue)
         == Hsv2Rgb(ParamOr0(params, "hue"), ParamOr0(params, "saturation"), 1.0)
    ensures cs.white == Min3(cs.red, cs.green, cs.blue)
    ensures cs.black == ParamOr0(params, "black")
  {
    var t := Hsv2Rgb(ParamOr0(params, "hue"), ParamOr0(params, "saturation"), 1.0);
    Colors(t.r, t.g, t.b, Min3(t.r, t.g, t.b), ParamOr0(params, "black"))
  }

  /** For normalised hue and saturation the brightest colour channel is fully on
      and white lies in [0,1]. */
  lemma GetColorsBounds(params: Params.ParamMap)
    requires 0.0 <= ParamOr0(params, "hue") <= 1.0
    requires 0.0 <= ParamOr0(params, "saturation") <= 1.0
    ensures var cs := GetColors(params);
      Max3(cs.red, cs.green, cs.blue) == 1.0 && 0.0 <= cs.white <= 1.0 &&
      cs.white == 1.0 - ParamOr0(params, "saturation")
  {
    FullValueBounds(ParamOr0(params, "hue"), ParamOr0(params, "saturation"));
  }

  /** At full value the brightest component is 1 and the dimmest is `1 - s`. */
  lemma FullValueBounds(h: real, s: real)
    requires 0.0 <= h <= 1.0 && 0.0 <= s <= 1.0
    ensures var t := Hsv2Rgb(h, s, 1.0);
      Max3(t.r, t.g, t.b) == 1.0 && Min3(t.r, t.g, t.b) == 1.0 - s && 0.0 <= 1.0 - s <= 1.0
  {
    HsvBounds(h, s, 1.0);
    assert 1.0 * s == s;
  }
}
