/**
 * Packed 32-bit ARGB colours as the overlay handles them.
 *
 * A Java `int` is a 32-bit two's-complement word, and `+`, `-`, `<<`, `&`, `|` on it are
 * exactly the corresponding `bv32` operations, so colours are `bv32` here. The value is a
 * non-negative Java int exactly when bit 31 is clear.
 */
module Colors {
  type Color = bv32

  /** `Color.WHITE`: opaque white. */
  const White: Color := 0xFFFF_FFFF
  /** The fully opaque alpha value (`OPAQUE`). */
  const Opaque: bv32 := 0xFF

  function Alpha(c: Color): bv32 { (c >> 24) & 0xFF }
  function Red(c: Color): bv32 { (c >> 16) & 0xFF }
  function Green(c: Color): bv32 { (c >> 8) & 0xFF }
  function Blue(c: Color): bv32 { c & 0xFF }

  /** True when the packed value, read as a Java int, is not negative. */
  predicate NonNegative(c: Color) { c < 0x8000_0000 }

  /**
   * Android's `Paint.setAlpha`: the colour with its alpha channel replaced and its RGB
   * channels left as they were.
   */
  function SetAlpha(c: Color, a: bv32): (r: Color)
    requires a <= 0xFF
    ensures Alpha(r) == a
    ensures Red(r) == Red(c) && Green(r) == Green(c) && Blue(r) == Blue(c)
  {
    (c & 0x00FF_FFFF) | (a << 24)
  }

  /**
   * `reSetColor`: split the colour into its four channels, compute the end alpha as half
   * the start alpha, and repack `startA + (endA - startA)` as the alpha. The result is the
   * input with its alpha halved and RGB untouched (by the contract of `SetAlpha`), and is
   * therefore never a negative int.
   */
  function ReSetColor(startInt: Color): (r: Color)
    ensures r == SetAlpha(startInt, Alpha(startInt) / 2)
    ensures NonNegative(r)
  {
    var startA := (startInt >> 24) & 0xFF;
    var startR := (startInt >> 16) & 0xFF;
    var startG := (startInt >> 8) & 0xFF;
    var startB := startInt & 0xFF;
    var endA := startA / 2;
    HalfAlphaFits(startInt);
    Repack(startInt, startA, endA);
    ((startA + (endA - startA)) << 24) | (startR << 16) | (startG << 8) | startB
  }

  /** Half an alpha byte fits in seven bits, so setting it leaves bit 31 clear. */
  lemma HalfAlphaFits(c: Color)
    ensures ((c >> 24) & 0xFF) / 2 <= 0x7F
    ensures (c & 0x00FF_FFFF) | ((((c >> 24) & 0xFF) / 2) << 24) < 0x8000_0000
  {
  }

  /** Repacking the four channels with a new alpha is `setAlpha` on the packed value. */
  lemma Repack(c: Color, startA: bv32, endA: bv32)
    ensures ((startA + (endA - startA)) << 24) | (((c >> 16) & 0xFF) << 16) | (((c >> 8) & 0xFF) << 8) | (c & 0xFF)
         == (c & 0x00FF_FFFF) | (endA << 24)
  {
  }

  /** Alpha 200 (0xC8) becomes alpha 100 (0x64); the RGB bytes stay. */
  lemma ReSetColorExample()
    ensures ReSetColor(0xC812_3456) == 0x6412_3456
  {
  }
}
