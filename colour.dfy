/**
 * `uiColorFromHex(rgbValue:)`: a packed 0xRRGGBB integer split into three
 * 8-bit channels by masks and shifts, each scaled to the unit interval,
 * with alpha fixed at one.
 */
module Colour {
  import opened Values

  /**
   * The 64 bits of a Swift `Int` in two's complement, which is what `&` and
   * `>>` act on: a negative `v` is the complement of the bits of `-1 - v`.
   */
  function Bits(v: Int64): (b: bv64)
    ensures v == 0 ==> b == 0
    ensures v == -1 ==> b == 0xFFFF_FFFF_FFFF_FFFF
  {
    if v >= 0 then v as int as bv64 else !((-1 - v as int) as bv64)
  }

  /** The three 8-bit channels, before scaling. */
  datatype Rgb = Rgb(red: int, green: int, blue: int)

  /** `(b & 0xFF0000) >> 16`, `(b & 0x00FF00) >> 8` and `b & 0x0000FF`. */
  function ChannelsOfBits(b: bv64): (c: Rgb)
    ensures 0 <= c.red < 256 && 0 <= c.green < 256 && 0 <= c.blue < 256
  {
    Rgb(((b & 0xFF0000) >> 16) as bv8 as int,
        ((b & 0x00FF00) >> 8) as bv8 as int,
        (b & 0x0000FF) as bv8 as int)
  }

  function Channels(v: Int64): (c: Rgb)
    ensures 0 <= c.red < 256 && 0 <= c.green < 256 && 0 <= c.blue < 256
  {
    ChannelsOfBits(Bits(v))
  }

  /**
   * The colour components. Swift divides in `CGFloat` (a double); here the
   * division by 255 is exact.
   */
  datatype UiColor = UiColor(red: real, green: real, blue: real, alpha: real)

  function UiColorFromHex(rgbValue: Int64): (c: UiColor)
    ensures 0.0 <= c.red <= 1.0 && 0.0 <= c.green <= 1.0 && 0.0 <= c.blue <= 1.0
    ensures c.alpha == 1.0
  {
    var ch := Channels(rgbValue);
    UiColor(ch.red as real / 255.0, ch.green as real / 255.0, ch.blue as real / 255.0, 1.0)
  }

  /** Bits 24 and above play no part: only the low 24 bits are read. */
  lemma HighBitsIgnored(v: Int64, w: Int64)
    requires Bits(v) & 0xFF_FFFF == Bits(w) & 0xFF_FFFF
    ensures Channels(v) == Channels(w)
    ensures UiColorFromHex(v) == UiColorFromHex(w)
  {
    LowBitsDecide(Bits(v), Bits(w));
  }

  lemma LowBitsDecide(b: bv64, d: bv64)
    requires b & 0xFF_FFFF == d & 0xFF_FFFF
    ensures ChannelsOfBits(b) == ChannelsOfBits(d)
  {
  }

  /** Packing three 8-bit channels as 0xRRGGBB and extracting them gives them back. */
  lemma PackedChannels(r: bv8, g: bv8, b: bv8)
    ensures ChannelsOfBits(((r as bv64) << 16) | ((g as bv64) << 8) | (b as bv64))
         == Rgb(r as int, g as int, b as int)
  {
  }

  /** Black, white, a value with bits above bit 23 set, negative values, and the bits of the extreme `Int`s. */
  lemma Examples()
    ensures UiColorFromHex(0x000000) == UiColor(0.0, 0.0, 0.0, 1.0)
    ensures UiColorFromHex(0xFFFFFF) == UiColor(1.0, 1.0, 1.0, 1.0)
    ensures UiColorFromHex(0x1FF_FFFF) == UiColorFromHex(0xFF_FFFF)
    ensures Channels(0x12_3456) == Rgb(0x12, 0x34, 0x56)
    ensures Channels(-1) == Rgb(255, 255, 255)
    ensures Bits(0x7FFF_FFFF_FFFF_FFFF) == 0x7FFF_FFFF_FFFF_FFFF
    ensures Bits(-0x8000_0000_0000_0000) == 0x8000_0000_0000_0000
    ensures Bits(-0x1234_5678) == 0xFFFF_FFFF_EDCB_A988
  {
  }
}
