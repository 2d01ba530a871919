# AMOLED panel driver and compositor, modelled in Dafny

This project models the core of a driver for a 466 x 466 QSPI AMOLED display. The display uses one of two controllers, SH8601 (id 0x86) or CO5300. The core has three layers:

- **Panel driver** (`low_level_amoled.c`) turns reset, init, draw, invert, mirror, gap and power requests into MIPI DCS commands on the panel IO bus. It does this in quad-SPI mode or plain, as configured.
- **Compositor** (class `Amoled` in `amoled.cpp` / `amoled.h`) brings the panel up with the init table of the detected controller. It clips bitmaps and rectangles to the screen, and adds 6 to the columns it pushes for every controller id other than 0x86 (the SH8601). It fills rectangles by pushing two-row strips out of a reusable line buffer of 932 pixels.
- **Touch read** (`getTouch` in `FT3168.cpp`) decodes two 12-bit coordinates and clamps them to the screen.

Modules:

| file | module | what it holds |
|---|---|---|
| types.dfy | `Types` | fixed-width integer types, `Option`, `Max`/`Min`, the `uint32_t` to `int` conversion |
| board.dfy | `Board` | the board constants (`board_config.h`) |
| transport.dfy | `Transport` | the bus as class `Bus`, the events, `esp_err_t` statuses and the quad-SPI command word |
| panel.dfy | `PanelDriver` | the init table types, the configuration mapping, the specification functions of init, reset and draw, and class `Panel` |
| panel_lemmas.dfy | `PanelLemmas` | properties of the init sequence and of the draw encoding |
| colors.dfy | `Colors` | the `Color565` constants and the `toBE565` byte swap |
| compositor.dfy | `Compositor` | the two init tables, clipping, the strip series, and class `Amoled` |
| compositor_lemmas.dfy | `CompositorLemmas` | the rows fillRect covers, the strip series when all pushes succeed and at the first failure, the drawBitmap / drawArea windows, and begin |
| touch.dfy | `Touch` | the 12-bit decode, the clamp and `GetTouch` |

**The bus.** The bus is an object whose `trace` is append-only. The trace records, in order:

- parameter transfers, as `Param(word, bytes)`;
- colour transfers, as `Color(word, len)`, where the pixels themselves are not modelled;
- reset-line levels, as `Gpio(level)`;
- delays, as `Delay(ms)`.

A fixed set `rejects` decides which transfers fail. The transfer recorded at trace position p fails exactly when p is in `rejects`. Line levels and delays never fail.

Each bus operation has a specification function that gives the events emitted and the status returned. These functions are `ResetRun`, `InitRun`, `DrawRun`, `BeginRun`, `BitmapRun` and `FillRectRun`. The methods of `Panel` and `Amoled` are proved to append exactly those events and to return that status. The lemmas then prove what the functions promise: the full byte sequence on a bus that accepts everything, where the sequence stops at the first rejected transfer, the covered rows, and the windows.

**Opcodes.** The DCS opcodes are the standard values: SWRESET 01h, INVOFF 20h, INVON 21h, DISPOFF 28h, DISPON 29h, CASET 2Ah, RASET 2Bh, RAMWR 2Ch, MADCTL 36h, COLMOD 3Ah. The BGR bit of MADCTL is 08h and MX is bit 6. `esp_lcd_panel_commands.h` is not part of this model.

**Notes on the code.**

- **Command word.** In quad-SPI mode the command word has the marker in bits 31..24, the opcode's low byte in bits 15..8, and zero in bits 23..16 and 7..0 (`Transport.CommandWord`).
- **drawBitmap.** drawBitmap clips only to decide whether anything shows. It then pushes the bitmap's own width and height at the clipped origin. A 20 x 10 bitmap at (460, 0) therefore asks for columns 460..479, past the last screen column 465 (`CompositorLemmas.BitmapWindowNotClipped`).
- **drawArea.** drawArea applies no column offset for either controller. The offset values it computes are unused (`CompositorLemmas.AreaWindowHasNoOffset`).
- **Pushes past the screen.** A padded strip or a single-row strip can reach one column or one row past the clipped rectangle, so a push does not always stay on the screen (`CompositorLemmas.CornerPixelPushPastEdge`).
- **RAMWR.** The result of the RAMWR transfer is discarded, so draw_bitmap succeeds as soon as CASET and RASET did (`PanelDriver.DrawRun`).

## Model

| member | source | states |
|---|---|---|
| Types.ToInt32 | amoled.cpp:138-145 | the `uint32_t` to `int` conversion: in the 32-bit range, congruent modulo 2^32, unchanged below 2^31 |
| Transport.SendRun | low_level_amoled.c:141-149 | one transfer is emitted; the status is Ok exactly when its position is accepted, and BusError otherwise |
| Transport.Bus.TxParam | low_level_amoled.c:148 | appends the parameter transfer; reports success exactly when its trace position is not rejected |
| Transport.Bus.TxColor | low_level_amoled.c:158 | appends the colour transfer; reports success exactly when its trace position is not rejected |
| Transport.Bus.SetLevel | low_level_amoled.c:180-182 | appends the reset-line level |
| Transport.Bus.Sleep | low_level_amoled.c:181-186 | appends the delay |
| Transport.CommandWord | low_level_amoled.c:141-159 | in quad-SPI mode the word is 32 bits: marker in bits 31..24, zero in 23..16, opcode's low byte in 15..8, zero in 7..0; otherwise the opcode unchanged |
| Transport.ParamWord | low_level_amoled.c:141-149 | tx_param's word: in quad-SPI mode marker 0x02 on top and the opcode's low byte in bits 15..8; otherwise the opcode |
| Transport.ColorWord | low_level_amoled.c:151-159 | tx_color's word: in quad-SPI mode marker 0x32 on top and the opcode's low byte in bits 15..8; otherwise the opcode |
| Transport.CommandWordInjective | low_level_amoled.c:141-159 | two quad-SPI words are equal exactly when their markers and their opcodes' low bytes are |
| Transport.ParamAndColorWordsDiffer | low_level_amoled.c:22-24 | a parameter word (marker 0x02) never equals a colour word (marker 0x32) |
| PanelDriver.PixelFormat | low_level_amoled.c:84-102 | 16/18/24 bits give COLMOD 0x55/0x66/0x77, and every other width is unsupported |
| PanelDriver.NewPanelStatus | low_level_amoled.c:55-102 | Ok exactly when io is present, allocation succeeds, the reset GPIO configures (if there is one), the order is RGB/BGR and the width supported; InvalidArg exactly without io; NoMem exactly on allocation failure; GpioError exactly when the reset GPIO fails to configure after io and allocation succeeded; NotSupported exactly for a bad order or width after the earlier checks pass |
| PanelDriver.NewPanel | low_level_amoled.c:55-139 | returns NewPanelStatus; a panel exists exactly on Ok, freshly made, with MADCTL 0 or the BGR bit, COLMOD from the width, fb bits = the width, gaps 0, the vendor table and QSPI flag, and the reset level |
| PanelDriver.Panel.constructor | low_level_amoled.c:59-113 | the field writes of new_panel after its checks, with the calloc zero gaps |
| PanelDriver.ResetRun | low_level_amoled.c:173-190 | with a reset pin: Gpio(level), 10 ms, Gpio(!level), 150 ms and success, no command; without: SWRESET, then 80 ms only if it was accepted, and Ok exactly when it was |
| PanelDriver.Panel.Reset | low_level_amoled.c:173-190 | appends exactly ResetRun's events and returns its status |
| PanelDriver.Override | low_level_amoled.c:226-238 | a MADCTL / COLMOD entry replaces the cached register with its data[0]; any other entry keeps it |
| PanelDriver.TableScript | low_level_amoled.c:224-247 | the full replay of a table takes two events per entry |
| PanelDriver.TableRun | low_level_amoled.c:224-247 | the status is Ok or BusError; at most two events per entry; Ok exactly when all of them went out; a failed run ends on an entry, never on a delay |
| PanelDriver.InitRun | low_level_amoled.c:199-251 | the status is Ok or BusError; MADCTL with the cached value always goes out first; on Ok both preamble transfers were accepted and two events per entry followed |
| PanelDriver.InitRunPastPreamble | low_level_amoled.c:207-222 | once MADCTL and COLMOD are accepted, init is those two transfers followed by the table's run |
| PanelDriver.Panel.Init | low_level_amoled.c:199-251 | appends exactly InitRun's events for the active table (the default one when none was configured), returns its status, and leaves the cached MADCTL / COLMOD it computes; the gaps are untouched |
| PanelDriver.Panel.ReplayTable | low_level_amoled.c:224-247 | the table loop appends the run of the table from entry 0 and leaves its cached registers |
| PanelDriver.Panel.ReplayEntry | low_level_amoled.c:226-246 | one entry: the cache update, the transfer, and its delay only when accepted; the run from the next entry continues from there |
| PanelDriver.TableRunFromSuffix | low_level_amoled.c:224-247 | the indexed run from entry i equals the run over the table's suffix from i |
| PanelDriver.AddressPayload | low_level_amoled.c:265-276 | four bytes whose big-endian pairs are start and end - 1, modulo 2^16 |
| PanelDriver.Be16LowBits | low_level_amoled.c:266-269 | `(v >> 8) & 0xFF` and `v & 0xFF` give back v modulo 2^16 |
| PanelDriver.RamwrLength | low_level_amoled.c:278 | for 16 bits per pixel, two bytes per pixel of the window; never negative for a window with ordered bounds |
| PanelDriver.DrawEvents | low_level_amoled.c:259-279 | a draw consists of three transfers (their contents: PanelLemmas.DrawEventsEncodeWindow) |
| PanelDriver.DrawRun | low_level_amoled.c:253-282 | the events are a prefix of CASET, RASET, RAMWR; Ok exactly when CASET and RASET are accepted, and then all three went out whatever RAMWR reports; a rejected CASET sends nothing more, a rejected RASET no RAMWR |
| PanelDriver.Panel.DrawBitmap | low_level_amoled.c:253-282 | for a non-empty window, appends exactly DrawRun's events for the current gaps and returns its status |
| PanelDriver.Panel.InvertColor | low_level_amoled.c:284-296 | sends INVON or INVOFF without payload; Ok exactly when accepted |
| PanelDriver.MirrorMadctl | low_level_amoled.c:304-308 | bit 6 is set exactly when mirroring X, and all other bits are kept |
| PanelDriver.MirrorStatus | low_level_amoled.c:309-316 | Ok exactly when the send succeeded and no Y mirror was asked; NotSupported exactly for a Y mirror after a successful send; a send error is returned as it is |
| PanelDriver.Panel.Mirror | low_level_amoled.c:298-317 | updates MADCTL as MirrorMadctl, always sends it, returns MirrorStatus; nothing else changes |
| PanelDriver.Panel.SwapXy | low_level_amoled.c:319-323 | always NotSupported, and changes nothing |
| PanelDriver.Panel.SetGap | low_level_amoled.c:325-331 | stores both gaps and returns Ok, registers unchanged |
| PanelDriver.Panel.DispOnOff | low_level_amoled.c:333-346 | sends DISPON or DISPOFF without payload; Ok exactly when accepted |
| PanelLemmas.EntryEventSendsData | low_level_amoled.c:244 | an entry's transfer carries its opcode (the low byte, in quad-SPI mode) and exactly its first data_bytes bytes |
| PanelLemmas.CachedWithoutOverride | low_level_amoled.c:224-238 | a register that no table entry names keeps its value |
| PanelLemmas.CachedLastOverride | low_level_amoled.c:224-238 | otherwise it holds data[0] of the last entry naming it |
| PanelLemmas.TableRunAccepted | low_level_amoled.c:224-247 | every entry accepted: each entry with its first data_bytes bytes, then its delay, in order, success, every override applied |
| PanelLemmas.TableRunFirstFailure | low_level_amoled.c:224-247 | entry j the first rejected: the entries before it with their delays, then entry j with no delay, nothing later, BusError; the cache has the overrides of entries 0..j |
| PanelLemmas.TableRunSendsPrefix | low_level_amoled.c:224-247 | whatever the bus rejects, what a table run sent is a prefix of the full replay |
| PanelLemmas.InitAccepted | low_level_amoled.c:199-251 | init on an accepting bus: MADCTL(cached), COLMOD(cached), then the full table script, success, all overrides applied |
| PanelLemmas.InitSucceeds | low_level_amoled.c:199-251 | a successful init sent MADCTL, COLMOD and then the full replay of the table |
| PanelLemmas.InitStopsAtEntry | low_level_amoled.c:199-251 | init stops at the first rejected table entry with BusError, and the earlier overrides remain |
| PanelLemmas.InitStopsInPreamble | low_level_amoled.c:207-212 | a rejected MADCTL ends init with BusError after that transfer alone; an accepted MADCTL and a rejected COLMOD end it after those two; the cache is untouched |
| PanelLemmas.TableRunKeeps | low_level_amoled.c:226-238 | a table with no MADCTL / COLMOD entry leaves the cached registers alone, whatever the bus rejects |
| PanelLemmas.DefaultTableKeepsRegisters | low_level_amoled.c:192-197 | the default table names neither MADCTL nor COLMOD, so they keep their values |
| PanelLemmas.DrawEventsEncodeWindow | low_level_amoled.c:259-279 | CASET carries big-endian x_start + x_gap and x_end - 1 + x_gap; RASET the same with y; RAMWR uses the colour word and width * height * bpp / 8 bytes, whatever the gaps |
| PanelLemmas.AddressPayloadRoundTrip | low_level_amoled.c:265-276 | a 16-bit start and last coordinate come back from the payload unchanged |
| Colors.AliasesAgree | amoled.h:23-36 | LIME = GREEN = 0x07E0, CYAN = AQUA = 0x07FF, MAGENTA = FUCHSIA = 0xF81F, GRAY = GREY = 0x8410 |
| Colors.ToBE565 | amoled.cpp:32-35 | the high byte of the result is the colour's low byte and the reverse |
| Colors.ToBE565Involution | amoled.cpp:32-35 | swapping twice gives the colour back |
| Colors.ToBE565FixedPoints | amoled.cpp:32-35 | a colour is left unchanged exactly when its two bytes are equal |
| Colors.BlackAndWhiteAreFixed | amoled.h:20-21 | BLACK and WHITE are fixed points of the swap |
| Compositor.InitCmdsFor | amoled.cpp:77-78 | the SH8601 table (7 entries) exactly for id 0x86, the CO5300 table (8 entries) otherwise; well formed, with no MADCTL or COLMOD entry |
| Compositor.BeginConfig | amoled.cpp:60-77 | reset pin 21, RGB order, 16 bits, quad SPI, the table for the id, reset active low |
| Compositor.BeginRun | amoled.cpp:81-86 | the status is Ok or BusError; the reset pulse Gpio(0), 10 ms, Gpio(1), 150 ms always comes first; on Ok the two preamble transfers, two events per table entry and DISPON followed |
| Compositor.BeginRunSteps | amoled.cpp:81-86 | begin's bus part is reset (which succeeds), then init, then DISPON only when init succeeded |
| Compositor.InitKeepsBeginRegisters | amoled.cpp:3-29 | init with either begin table leaves MADCTL 0 and COLMOD 0x55 |
| Compositor.PanelWindow | amoled.cpp:147-154 | width w, rows y..y + h; the columns start at x exactly for the SH8601, and at x + 6 for every other id |
| Compositor.AreaWindow | amoled.cpp:138-145 | for coordinates in range, the window is (x1, y1, x2 + 1, y2 + 1) |
| Compositor.ClipSpan | amoled.cpp:116-133 | the visible part is non-empty exactly when the span meets the screen; it lies on the screen and inside the span, and covers exactly their common pixels |
| Compositor.BitmapRun | amoled.cpp:111-136 | the status is Ok, InvalidArg or BusError; InvalidArg exactly for w <= 0 or h <= 0; something is sent exactly when the bitmap has a size and meets the screen, and then a prefix of the draw at the clipped origin |
| Compositor.FillPlanOf | amoled.cpp:184-201 | Refused exactly for w <= 0 or h <= 0; strips exactly when the rectangle meets the screen, with a clipped size that is positive and on the screen |
| Compositor.FillClipHidden | amoled.cpp:189-201 | the source's clip of an invisible rectangle means nothing is drawn and the result is true |
| Compositor.FillClipVisible | amoled.cpp:189-201 | the source's clip of a visible rectangle gives the strip plan for that clipped rectangle |
| Compositor.PushWidth | amoled.cpp:203-205 | push_w is even and is cw or cw + 1 |
| Compositor.FillStrips | amoled.cpp:222-230 | ceil(ch / 2) strips, one per iteration of the row loop |
| Compositor.StripsRun | amoled.cpp:222-234 | the status is Ok or BusError; Ok exactly when three transfers per remaining strip went out; a series with strips left always sends something |
| Compositor.FillRectRun | amoled.cpp:184-235 | the status is Ok, InvalidArg or BusError; InvalidArg exactly for w <= 0 or h <= 0; something is sent exactly when the rectangle meets the screen; on Ok three transfers per strip |
| Compositor.FillStripAt | amoled.cpp:223-230 | strip k of the series is at the row of the k-th iteration |
| Compositor.Amoled.constructor | amoled.h:50-53 | id 0, no panel, no line buffer, size 0 |
| Compositor.Amoled.Name | amoled.cpp:166-177 | "SH8601" exactly for id 0x86, "CO5300" exactly for 0xff, "Unknown" exactly otherwise |
| Compositor.Amoled.ReserveLineBuffer | amoled.cpp:94-110 | with a buffer already there: true and nothing changes; otherwise true exactly when allocation succeeds, and then a fresh buffer of 932 entries and a size of 932, else no buffer and size 0 |
| Compositor.Amoled.Begin | amoled.cpp:47-91 | records the id; fails without touching the bus when bus set-up, IO creation, panel allocation or GPIO set-up fails; otherwise a fresh panel with the table for the id, BeginRun's events on the bus, and success exactly when BeginRun succeeds and the line buffer is reserved |
| Compositor.Amoled.BringUp | amoled.cpp:81-86 | appends BeginRun's events, succeeds exactly when it does, and keeps MADCTL 0 / COLMOD 0x55 |
| Compositor.Amoled.PushToPanel | amoled.cpp:147-154 | one draw of PanelWindow; true exactly when the driver reports Ok |
| Compositor.Amoled.DrawBitmap | amoled.cpp:111-136 | false without a panel or bitmap; otherwise BitmapRun's events and its status |
| Compositor.Amoled.DrawArea | amoled.cpp:138-145 | false without a panel; otherwise one draw of AreaWindow |
| Compositor.Amoled.InvertColor | amoled.cpp:156-159 | false without a panel; otherwise INVON / INVOFF and its status |
| Compositor.Amoled.FillLineBuffer | amoled.cpp:210-220 | the first 2 * push_w entries hold the swapped colour, the padding column included; the rest of the buffer is unchanged |
| Compositor.Amoled.PushStrip | amoled.cpp:225-232 | one strip push: the series continues from the next strip on success, and ends with this push on failure |
| Compositor.Amoled.PushStrips | amoled.cpp:222-234 | appends exactly the strip series' events and returns true exactly when every push succeeded |
| Compositor.Amoled.FillRect | amoled.cpp:184-235 | false without a panel; otherwise FillRectRun's events and status; for a visible rectangle the buffer holds the swapped colour in its first 2 * push_w entries and is otherwise unchanged; otherwise the buffer is untouched |
| Compositor.Amoled.FillClipped | amoled.cpp:203-234 | fills the buffer and pushes the strip series of the clipped rectangle |
| Compositor.Amoled.FillScreen | amoled.cpp:179-182 | fillRect over (0, 0, 466, 466), with the buffer then holding 932 swapped colours |
| Compositor.Amoled.FillRectColor | amoled.h:67-70 | exactly the contract of fillRect with the colour's 16-bit value |
| CompositorLemmas.StripYCoversRow | amoled.cpp:223-230 | the strip of an even row starts at that row or one above it, never above the rectangle, and for ch >= 2 ends inside it |
| CompositorLemmas.FillStripsAscend | amoled.cpp:222-233 | the strips are pushed top to bottom: their rows strictly increase |
| CompositorLemmas.StripsCoverRows | amoled.cpp:223-233 | for ch >= 2: ceil(ch / 2) strips, each inside [ys, ys + ch), and together they cover every row of [ys, ys + ch) |
| CompositorLemmas.SingleRowStrip | amoled.cpp:223-233 | for ch = 1: one strip at ys, covering rows ys and ys + 1 |
| CompositorLemmas.EvenHeightStrips | amoled.cpp:223-225 | an even height gives strips at ys + 2k |
| CompositorLemmas.OddHeightLastStrip | amoled.cpp:226-230 | an odd height >= 3: the strips at ys + 2k, the last moved up to ys + ch - 2 |
| CompositorLemmas.LineBufferFits | amoled.cpp:99-100 | the buffer has 932 entries and 2 * push_w never exceeds them |
| CompositorLemmas.FillScreenPlan | amoled.cpp:179-182 | fillScreen is 233 strips of 466 columns at rows 0, 2, ..., 464 |
| CompositorLemmas.CornerPixelPushPastEdge | amoled.cpp:203-231 | filling pixel (465, 465) pushes columns and rows 465..466, one past the screen |
| CompositorLemmas.StripsScript | amoled.cpp:223-233 | three transfers per accepted strip |
| CompositorLemmas.StripsRunAccepted | amoled.cpp:223-234 | every push accepted: each strip's CASET, RASET, RAMWR in row order, and success |
| CompositorLemmas.StripsRunFirstFailure | amoled.cpp:231-232 | push j the first rejected: the earlier strips in full, then push j's attempted transfers, BusError, and no later strip |
| CompositorLemmas.StripsRunFailsInsidePush | amoled.cpp:231-232 | a failed series ends after some strip's CASET or RASET, with only full pushes before it: no RAMWR without its window, no later push |
| CompositorLemmas.FillRectAccepted | amoled.cpp:184-235 | a visible rectangle on an accepting bus: ceil(ch / 2) pushes of 3 transfers each, and success |
| CompositorLemmas.BitmapPushOrigin | amoled.cpp:116-135 | a visible bitmap is one draw at (max(x, 0), max(y, 0)) with its own w and h |
| CompositorLemmas.BitmapNoPush | amoled.cpp:113-133 | w <= 0 or h <= 0 gives false without a transfer; a bitmap off the screen gives true without a transfer |
| CompositorLemmas.BitmapWindowNotClipped | amoled.cpp:135 | a 20 x 10 bitmap at (460, 0) on the SH8601 draws the window (460, 0)-(480, 10) |
| CompositorLemmas.AreaWindowHasNoOffset | amoled.cpp:138-154 | drawArea forwards (x1, y1, x2 + 1, y2 + 1) for every controller; pushToPanel would add 6 on the CO5300 |
| CompositorLemmas.AreaWindowWraps | amoled.cpp:144 | a last column of 0xFFFFFFFF wraps to end column 0 |
| CompositorLemmas.BeginAccepted | amoled.cpp:79-86 | on an accepting bus: reset pulse, MADCTL 0, COLMOD 0x55, the chosen table with delays, DISPON, success |
| CompositorLemmas.BeginSucceeds | amoled.cpp:79-86 | a successful begin sent exactly what it sends on an accepting bus |
| CompositorLemmas.BeforeBegin | amoled.h:50-53 | a new object: drawBitmap and fillRect both return false |
| Touch.Decode12 | FT3168.cpp:32-33 | a value below 0x1000 whose high byte is the low nibble of the first register and whose low byte is the second |
| Touch.Encode12 | FT3168.cpp:32-33 | the register pair of a 12-bit value, with a clear upper nibble |
| Touch.DecodeEncode | FT3168.cpp:32-33 | decoding the pair of a 12-bit value gives it back |
| Touch.UpperNibbleIgnored | FT3168.cpp:32-33 | the upper nibble of the first register has no effect |
| Touch.Clamp | FT3168.cpp:34-37 | at most the limit; unchanged up to the limit, exactly the limit above it |
| Touch.ClampIdempotent | FT3168.cpp:34-37 | clamping twice is clamping once |
| Touch.ReadTouch | FT3168.cpp:24-41 | no touch exactly for status 0; otherwise both coordinates at most 466, the decoded value when it is at most 466, and 466 when it is above |
| Touch.OnScreenPointReadBack | FT3168.cpp:34-38 | a point on the screen, encoded into the registers, reads back unchanged |
| Touch.GetTouch | FT3168.cpp:24-41 | 0 with the point untouched when no finger is down; 1 with the point set to ReadTouch's coordinates otherwise |

## Left out

- Touch_Init and the I2C helpers: driver set-up only. getTouch takes the status byte at register 0x02 and the four bytes from register 0x03 as inputs.
- SPI bus set-up, panel IO creation, `gpio_config` and `read_lcd_id`: these become boolean and byte inputs of `Begin` and `NewPanel`. The QSPI configuration macros are not part of this model.
- Timing: `vTaskDelay` is a `Delay` event in the trace, not a wait.
- Logging (`ESP_LOGx`), including the override warning of init: no observable effect on the bus or the state.
- Memory management: `calloc`, `heap_caps_malloc`, `free`, `amoled_deallocate`, `gpio_reset_pin` on the error path and `~Amoled`. Allocation is a success flag; nothing is freed.
- The `esp_lcd_panel_t` function table and `__containerof`: the driver operations are methods of `Panel`, called directly.
- Concurrency: calls are sequential.
- Pixel data of drawBitmap and drawArea: only its window and byte count are modelled.
- Compositor.Amoled.DrawArea, Compositor.Amoled.InvertColor: without a panel they return false. This stands for the panel-handle check of `esp_lcd_panel_*`, which is not part of this model.
- Compositor.Amoled.constructor: the line buffer pointer has no initialiser in the source. It is taken to be null, as for an object with static storage; reserveLineBuffer's null test relies on that.
- Compositor.Amoled.FillRect: requires the line buffer when something is to be drawn. The source writes the buffer without checking it.
- Compositor.Amoled.DrawArea: requires a non-empty window. The driver asserts it.
- PanelDriver.Panel.DrawBitmap: requires a non-empty window. The driver asserts it.
- Compositor.Amoled.FillRect: the clip is written with `Max` / `Min`. It is equal to the source's four `if` statements, since each of those sets a bound to the limit it exceeds.
- PanelDriver.RamwrLength: the length is computed on unbounded integers. The C `int` product can overflow for windows far larger than the screen, for example from drawArea, and the model does not reproduce that overflow.
- PanelDriver.Panel.ReplayEntry: the table entries are taken as well formed. Each has at least `data_bytes` bytes, and a MADCTL / COLMOD entry has at least one byte, which the source reads as `data[0]`.
