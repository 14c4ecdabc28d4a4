/**
 * The progress bar on the 12-pixel RGBW strip (`neopixel_update`): pixels
 * below the full count at maximum brightness, the next one partially lit,
 * the rest dark, in one colour channel chosen by mode. Arithmetic is exact
 * (the source computes with floating point).
 */
module Leds {

  const TotalPixels := 12
  const MaxBrightness := 50

  /** One pixel as the tuple written to the strip, in (r, g, b, w) order. */
  datatype Pixel = Pixel(r: int, g: int, b: int, w: int)

  const Off := Pixel(0, 0, 0, 0)

  datatype Channel = Red | Blue | White

  /** Hold lights the third component, otherwise shuffle the first, otherwise the fourth. */
  function ChannelFor(hold: bool, shuffle: bool): Channel {
    if hold then Blue else if shuffle then Red else White
  }

  function Lit(c: Channel, level: int): Pixel {
    match c
    case Red => Pixel(level, 0, 0, 0)
    case Blue => Pixel(0, 0, level, 0)
    case White => Pixel(0, 0, 0, level)
  }

  /** The brightness of a pixel, summed over its channels. */
  function Level(p: Pixel): int {
    p.r + p.g + p.b + p.w
  }

  /** Number of fully lit pixels: `percent // (100 / 12)`, computed exactly (12 is TotalPixels). */
  function FullCount(percent: int): (n: int)
    ensures 0 <= percent <= 100 ==> 0 <= n <= TotalPixels
  {
    percent * 12 / 100
  }

  /**
   * Brightness of the partial pixel: `(percent % (100 / 12)) * (50 / (100 / 12))`,
   * computed exactly (12 is TotalPixels, 50 is MaxBrightness).
   */
  function PartialLevel(percent: int): (level: int)
    ensures 0 <= level < MaxBrightness
  {
    percent * 12 % 100 * 50 / 100
  }

  function PixelAt(i: int, percent: int, hold: bool, shuffle: bool): (p: Pixel)
    ensures i < FullCount(percent) ==> Level(p) == MaxBrightness
    ensures i == FullCount(percent) ==> Level(p) == PartialLevel(percent)
    ensures i > FullCount(percent) ==> p == Off
  {
    var c := ChannelFor(hold, shuffle);
    if i == FullCount(percent) then Lit(c, PartialLevel(percent))
    else if i > FullCount(percent) then Off
    else Lit(c, MaxBrightness)
  }

  /** The whole strip for one percent value and mode. */
  function Frame(percent: int, hold: bool, shuffle: bool): (f: seq<Pixel>)
    ensures |f| == TotalPixels
  {
    seq(TotalPixels, i => PixelAt(i, percent, hold, shuffle))
  }

  /**
   * The counts agree with the source's formulas evaluated in exact
   * arithmetic: the full count is the floor of `percent / (100 / 12)` and
   * the partial level is the remainder times `50 / (100 / 12)`, which is a
   * whole number below the maximum brightness.
   */
  lemma ExactArithmetic(percent: int)
    ensures var step := 100.0 / TotalPixels as real;
      && FullCount(percent) as real <= percent as real / step < FullCount(percent) as real + 1.0
      && PartialLevel(percent) as real
         == (percent as real - FullCount(percent) as real * step) * (MaxBrightness as real / step)
    ensures 0 <= PartialLevel(percent) < MaxBrightness
  {
    var q, r := percent * 12 / 100, percent * 12 % 100;
    assert percent * 12 == q * 100 + r && 0 <= r < 100;
    assert r % 2 == 0 by {
      assert r == 2 * (percent * 6 - q * 50);
    }
    assert PartialLevel(percent) * 2 == r;
  }

  /** Only the mode's channel is ever lit, and the three modes use three different channels. */
  lemma ChannelsExclusive(percent: int, hold: bool, shuffle: bool, i: int)
    requires 0 <= i < TotalPixels
    ensures Frame(percent, hold, shuffle)[i] == Lit(ChannelFor(hold, shuffle), Level(Frame(percent, hold, shuffle)[i]))
    ensures ChannelFor(true, shuffle) != ChannelFor(false, true)
    ensures ChannelFor(false, true) != ChannelFor(false, false)
    ensures ChannelFor(false, false) != ChannelFor(true, shuffle)
  {
  }

  /**
   * Each pixel is full below the full count, partial at it and dark above
   * it; so at 0 percent every pixel is dark and at 100 percent every pixel
   * is at maximum brightness.
   */
  lemma FrameShape(percent: int, hold: bool, shuffle: bool, i: int)
    requires 0 <= i < TotalPixels
    ensures var p := Frame(percent, hold, shuffle)[i];
      && (i < FullCount(percent) ==> Level(p) == MaxBrightness)
      && (i == FullCount(percent) ==> Level(p) == PartialLevel(percent))
      && (i > FullCount(percent) ==> p == Off)
    ensures 0 <= Level(Frame(percent, hold, shuffle)[i]) <= MaxBrightness
    ensures percent == 0 ==> Frame(percent, hold, shuffle)[i] == Off
    ensures percent >= 100 ==> Frame(percent, hold, shuffle)[i] == Lit(ChannelFor(hold, shuffle), MaxBrightness)
  {
    if percent >= 100 {
      assert percent * 12 >= 1200;
      assert FullCount(percent) >= 12;
    }
  }

  /** The whole strip is dark at 0 percent, which is what clearing the strip relies on. */
  lemma DarkAtZero(hold: bool, shuffle: bool)
    ensures Frame(0, hold, shuffle) == seq(TotalPixels, _ => Off)
  {
    forall i | 0 <= i < TotalPixels ensures Frame(0, hold, shuffle)[i] == Off {
      FrameShape(0, hold, shuffle, i);
    }
  }

  /** As the percentage grows no pixel grows dimmer: the bar only advances. */
  lemma Monotone(p: int, q: int, hold: bool, shuffle: bool, i: int)
    requires p <= q && 0 <= i < TotalPixels
    ensures Level(Frame(p, hold, shuffle)[i]) <= Level(Frame(q, hold, shuffle)[i])
  {
    CountsMonotone(p, q);
    FrameShape(p, hold, shuffle, i);
    FrameShape(q, hold, shuffle, i);
  }

  /** The full count never falls as the percentage grows, and while it stands still the partial level does not fall. */
  lemma CountsMonotone(p: int, q: int)
    requires p <= q
    ensures FullCount(p) <= FullCount(q)
    ensures FullCount(p) == FullCount(q) ==> PartialLevel(p) <= PartialLevel(q)
  {
    var fp, fq := p * 12 / 100, q * 12 / 100;
    assert p * 12 == fp * 100 + p * 12 % 100;
    assert q * 12 == fq * 100 + q * 12 % 100;
    assert p * 12 <= q * 12;
  }

  /** The sum of the pixels' brightness. */
  function TotalLevel(f: seq<Pixel>): int
    decreases |f|
  {
    if f == [] then 0 else TotalLevel(f[..|f| - 1]) + Level(f[|f| - 1])
  }

  /** The strip's total brightness is proportional to the percentage: 6 units per percent. */
  lemma TotalProportional(percent: int, hold: bool, shuffle: bool)
    requires 0 <= percent <= 100
    ensures TotalLevel(Frame(percent, hold, shuffle)) == percent * TotalPixels * MaxBrightness / 100
  {
    var f := Frame(percent, hold, shuffle);
    PrefixTotal(f, percent, hold, shuffle, TotalPixels);
    assert f[..TotalPixels] == f;
    CountsTotal(percent);
  }

  /** Full pixels plus the partial one add up to six units per percent. */
  lemma CountsTotal(percent: int)
    requires 0 <= percent <= 100
    ensures var full := FullCount(percent);
      MaxBrightness * (if TotalPixels <= full then TotalPixels else full)
      + (if 0 <= full < TotalPixels then PartialLevel(percent) else 0)
      == percent * TotalPixels * MaxBrightness / 100
  {
    var full, r := percent * 12 / 100, percent * 12 % 100;
    assert percent * 12 == full * 100 + r && 0 <= r < 100;
    assert 0 <= full <= TotalPixels;
    if full == TotalPixels {
      assert percent == 100;
    } else {
      assert r == 2 * (percent * 6 - full * 50);
      assert PartialLevel(percent) * 2 == r;
    }
  }

  /** The brightness of the first `k` pixels: full ones, then the partial one if it is among them. */
  lemma {:induction false} PrefixTotal(f: seq<Pixel>, percent: int, hold: bool, shuffle: bool, k: int)
    requires f == Frame(percent, hold, shuffle) && 0 <= k <= TotalPixels && 0 <= percent <= 100
    ensures var full := FullCount(percent);
      TotalLevel(f[..k]) == MaxBrightness * (if k <= full then k else full)
                            + (if 0 <= full < k then PartialLevel(percent) else 0)
    decreases k
  {
    assert 0 <= FullCount(percent) by {
      assert percent * 12 >= 0;
    }
    if k > 0 {
      PrefixTotal(f, percent, hold, shuffle, k - 1);
      assert f[..k][..k - 1] == f[..k - 1];
      assert TotalLevel(f[..k]) == TotalLevel(f[..k - 1]) + Level(f[k - 1]);
      FrameShape(percent, hold, shuffle, k - 1);
    }
  }
}
