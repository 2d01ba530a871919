/** Board constants (board_config.h). */
module Board {

  /** Controller identifiers returned by the panel's ID register. */
  const SH8601_ID := 0x86
  const CO5300_ID := 0xff

  const SH8601_NAME := "SH8601"
  const CO5300_NAME := "CO5300"

  /** Screen size in pixels. */
  const DISPLAY_WIDTH := 466
  const DISPLAY_HEIGHT := 466
  const LCD_BIT_PER_PIXEL := 16

  /** The panel's reset line. */
  const PIN_NUM_LCD_RST := 21
}
