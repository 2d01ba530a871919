/**
 * The RGB565 colour names of amoled.h and the byte order the panel expects (toBE565 in
 * amoled.cpp): the panel takes the high byte of a pixel first, the ESP32 stores it second.
 */
module Colors {
  import opened Types

  /** enum Color565 : uint16_t */
  newtype Color565 = x: int | 0 <= x < 0x1_0000

  const AMOLED_COLOR_BLACK: Color565 := 0x0000
  const AMOLED_COLOR_WHITE: Color565 := 0xFFFF
  const AMOLED_COLOR_RED: Color565 := 0xF800
  const AMOLED_COLOR_LIME: Color565 := 0x07E0
  const AMOLED_COLOR_GREEN: Color565 := 0x07E0
  const AMOLED_COLOR_BLUE: Color565 := 0x001F
  const AMOLED_COLOR_CYAN: Color565 := 0x07FF
  const AMOLED_COLOR_AQUA: Color565 := 0x07FF
  const AMOLED_COLOR_MAGENTA: Color565 := 0xF81F
  const AMOLED_COLOR_FUCHSIA: Color565 := 0xF81F
  const AMOLED_COLOR_YELLOW: Color565 := 0xFFE0
  const AMOLED_COLOR_ORANGE: Color565 := 0xFD20
  const AMOLED_COLOR_PURPLE: Color565 := 0x8010
  const AMOLED_COLOR_VIOLET: Color565 := 0x801F
  const AMOLED_COLOR_PINK: Color565 := 0xF97F
  const AMOLED_COLOR_GRAY: Color565 := 0x8410
  const AMOLED_COLOR_GREY: Color565 := 0x8410
  const AMOLED_COLOR_SILVER: Color565 := 0xC618
  const AMOLED_COLOR_MAROON: Color565 := 0x8000
  const AMOLED_COLOR_OLIVE: Color565 := 0x8400
  const AMOLED_COLOR_NAVY: Color565 := 0x0010
  const AMOLED_COLOR_TEAL: Color565 := 0x0410
  const AMOLED_COLOR_BROWN: Color565 := 0xA145
  const AMOLED_COLOR_GOLD: Color565 := 0xFEA0
  const AMOLED_COLOR_SKYBLUE: Color565 := 0x867D

  /** The names that are two spellings of one colour share its value. */
  lemma AliasesAgree()
    ensures AMOLED_COLOR_LIME == AMOLED_COLOR_GREEN == 0x07E0
    ensures AMOLED_COLOR_CYAN == AMOLED_COLOR_AQUA == 0x07FF
    ensures AMOLED_COLOR_MAGENTA == AMOLED_COLOR_FUCHSIA == 0xF81F
    ensures AMOLED_COLOR_GRAY == AMOLED_COLOR_GREY == 0x8410
  {
  }

  /**
   * toBE565: `(c << 8) | (c >> 8)` cut to 16 bits.  The two halves have no bit in common,
   * so the `|` is a sum.  The result carries the low byte of c on top and its high byte below.
   */
  function ToBE565(c: Uint16): (r: Uint16)
    ensures r / 0x100 == c % 0x100 && r % 0x100 == c / 0x100
  {
    var low := c % 0x100;
    assert (c * 0x100) % 0x1_0000 == low * 0x100 by {
      assert c * 0x100 == (c / 0x100) * 0x1_0000 + low * 0x100;
    }
    (c * 0x100) % 0x1_0000 + c / 0x100
  }

  /** Swapping twice gives the colour back. */
  lemma ToBE565Involution(c: Uint16)
    ensures ToBE565(ToBE565(c)) == c
  {
    var r := ToBE565(c);
    var s := ToBE565(r);
    assert s / 0x100 == c / 0x100 && s % 0x100 == c % 0x100;
    assert s == (s / 0x100) * 0x100 + s % 0x100;
    assert c == (c / 0x100) * 0x100 + c % 0x100;
  }

  /** Exactly the colours whose two bytes are equal are left unchanged by the swap. */
  lemma ToBE565FixedPoints(c: Uint16)
    ensures ToBE565(c) == c <==> c / 0x100 == c % 0x100
  {
    var r := ToBE565(c);
    if c / 0x100 == c % 0x100 {
      assert r == (r / 0x100) * 0x100 + r % 0x100;
      assert c == (c / 0x100) * 0x100 + c % 0x100;
    }
  }

  /** Black and white have symmetric bytes, so the swap leaves them alone. */
  lemma BlackAndWhiteAreFixed()
    ensures ToBE565(AMOLED_COLOR_BLACK as int) == AMOLED_COLOR_BLACK as int
    ensures ToBE565(AMOLED_COLOR_WHITE as int) == AMOLED_COLOR_WHITE as int
  {
    ToBE565FixedPoints(AMOLED_COLOR_BLACK as int);
    ToBE565FixedPoints(AMOLED_COLOR_WHITE as int);
  }
}
