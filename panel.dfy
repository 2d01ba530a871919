/**
 * The controller-agnostic panel driver of low_level_amoled.c: configuration mapping,
 * reset, the init sequence, region drawing, inversion, mirroring, gaps and power.
 *
 * Every bus operation is specified by a function from the panel's registers and the bus
 * oracle to the events emitted and the status returned (DrawRun, InitRun, ...); the methods
 * of class Panel are proved against those functions, and the lemmas below prove what the
 * functions promise.
 */
module PanelDriver {
  import opened Types
  import opened Transport

  // MIPI Display Command Set opcodes and MADCTL bits (esp_lcd_panel_commands.h).
  const LCD_CMD_SWRESET := 0x01
  const LCD_CMD_INVOFF := 0x20
  const LCD_CMD_INVON := 0x21
  const LCD_CMD_DISPOFF := 0x28
  const LCD_CMD_DISPON := 0x29
  const LCD_CMD_CASET := 0x2A
  const LCD_CMD_RASET := 0x2B
  const LCD_CMD_RAMWR := 0x2C
  const LCD_CMD_MADCTL := 0x36
  const LCD_CMD_COLMOD := 0x3A
  const LCD_CMD_BGR_BIT := 0x08
  const LCD_CMD_MX_BIT := 0x40

  /** lcd_rgb_element_order_t; `OtherOrder` stands for any value outside the enumeration. */
  datatype ColorOrder = Rgb | Bgr | OtherOrder

  /** One entry of an init table: {cmd, data, data_bytes, delay_ms}. */
  datatype InitCmd = InitCmd(cmd: int, data: seq<Uint8>, dataBytes: nat, delayMs: nat)

  /**
   * What the driver reads of an entry must exist: its first `dataBytes` bytes, and the
   * first byte of a MADCTL or COLMOD entry, which it caches.
   */
  predicate WellFormedCmd(c: InitCmd) {
    c.dataBytes <= |c.data| && (c.cmd == LCD_CMD_MADCTL || c.cmd == LCD_CMD_COLMOD ==> |c.data| >= 1)
  }

  predicate WellFormedTable(t: seq<InitCmd>) {
    forall i :: 0 <= i < |t| ==> WellFormedCmd(t[i])
  }

  /** vendor_specific_init_default: replayed when no table was configured. */
  const VENDOR_SPECIFIC_INIT_DEFAULT: seq<InitCmd> := [
    InitCmd(0x44, [0x01, 0xD1], 2, 0),
    InitCmd(0x35, [0x00], 0, 0),
    InitCmd(0x53, [0x20], 1, 25)
  ]

  /** sh8601_vendor_config_t: the init table (NULL when absent) and the bus mode. */
  datatype VendorConfig = VendorConfig(initCmds: Option<seq<InitCmd>>, useQspi: bool)

  /** esp_lcd_panel_dev_config_t, as far as the driver reads it. */
  datatype DevConfig = DevConfig(
    resetGpioNum: int,
    rgbOrder: ColorOrder,
    bitsPerPixel: int,
    vendor: Option<VendorConfig>,
    resetActiveHigh: bool)

  predicate WellFormedConfig(cfg: DevConfig) {
    cfg.vendor.Some? && cfg.vendor.value.initCmds.Some? ==> WellFormedTable(cfg.vendor.value.initCmds.value)
  }

  /** The COLMOD value for a pixel width, if the width is supported. */
  function PixelFormat(bpp: int): (r: Option<Uint8>)
    ensures r.Some? <==> bpp == 16 || bpp == 18 || bpp == 24
    ensures bpp == 16 ==> r == Some(0x55)
    ensures bpp == 18 ==> r == Some(0x66)
    ensures bpp == 24 ==> r == Some(0x77)
  {
    match bpp
    case 16 => Some(0x55)   // RGB565
    case 18 => Some(0x66)   // RGB666
    case 24 => Some(0x77)   // RGB888
    case _ => None
  }

  /**
   * The status of esp_amoled_new_panel, in the order its checks run: the arguments, the
   * allocation, the reset line's GPIO configuration, the colour order, the pixel width.
   */
  function NewPanelStatus(hasIo: bool, cfg: DevConfig, allocOk: bool, gpioOk: bool): (st: Status)
    ensures st == Ok <==>
      hasIo && allocOk && (cfg.resetGpioNum < 0 || gpioOk) && cfg.rgbOrder != OtherOrder
      && PixelFormat(cfg.bitsPerPixel).Some?
    ensures st == NotSupported <==>
      hasIo && allocOk && (cfg.resetGpioNum < 0 || gpioOk)
      && (cfg.rgbOrder == OtherOrder || PixelFormat(cfg.bitsPerPixel).None?)
    ensures st == InvalidArg <==> !hasIo
    ensures st == NoMem <==> hasIo && !allocOk
    ensures st == GpioError <==> hasIo && allocOk && cfg.resetGpioNum >= 0 && !gpioOk
  {
    if !hasIo then InvalidArg
    else if !allocOk then NoMem
    else if cfg.resetGpioNum >= 0 && !gpioOk then GpioError
    else if cfg.rgbOrder == OtherOrder then NotSupported
    else if PixelFormat(cfg.bitsPerPixel).None? then NotSupported
    else Ok
  }

  // ---------------------------------------------------------------------------------
  // Reset

  /** The events and status of amoled_reset. */
  function ResetRun(resetGpioNum: int, resetLevel: bool, qspi: bool, rejects: set<nat>, n: nat): (r: Outcome)
    ensures resetGpioNum >= 0 ==> r.status == Ok && r.events == [Gpio(resetLevel), Delay(10), Gpio(!resetLevel), Delay(150)]
    ensures resetGpioNum < 0 ==> (r.status == Ok <==> n !in rejects)
    ensures resetGpioNum < 0 ==>
      var swreset := Param(ParamWord(qspi, LCD_CMD_SWRESET), []);
      r.events == if n in rejects then [swreset] else [swreset, Delay(80)]
  {
    if resetGpioNum >= 0 then
      Outcome([Gpio(resetLevel), Delay(10), Gpio(!resetLevel), Delay(150)], Ok)
    else
      var swreset := SendRun(Param(ParamWord(qspi, LCD_CMD_SWRESET), []), rejects, n);
      if swreset.status == Ok then Outcome(swreset.events + [Delay(80)], Ok) else swreset
  }

  // ---------------------------------------------------------------------------------
  // Init

  /** Events, status and the cached MADCTL / COLMOD values after (part of) an init. */
  datatype InitResult = InitResult(events: seq<Event>, status: Status, madctl: Uint8, colmod: Uint8)

  /** The parameter transfer that replays one table entry. */
  function EntryEvent(qspi: bool, c: InitCmd): (e: Event)
    requires WellFormedCmd(c)
  {
    Param(ParamWord(qspi, c.cmd), c.data[..c.dataBytes])
  }

  /** The cached value of register `op` after the entry `c` is processed. */
  function Override(c: InitCmd, op: int, v: Uint8): (r: Uint8)
    requires WellFormedCmd(c) && (op == LCD_CMD_MADCTL || op == LCD_CMD_COLMOD)
    ensures c.cmd == op ==> r == c.data[0]
    ensures c.cmd != op ==> r == v
  {
    if c.cmd == op then c.data[0] else v
  }

  /** The cached value of register `op` after all entries of `t` are processed, starting from `v`. */
  function Cached(t: seq<InitCmd>, op: int, v: Uint8): (r: Uint8)
    requires WellFormedTable(t) && (op == LCD_CMD_MADCTL || op == LCD_CMD_COLMOD)
  {
    if t == [] then v else Cached(t[1..], op, Override(t[0], op, v))
  }

  /** What replaying `t` sends when the bus accepts everything: each entry, then its delay. */
  function TableScript(qspi: bool, t: seq<InitCmd>): (s: seq<Event>)
    requires WellFormedTable(t)
    ensures |s| == 2 * |t|
  {
    if t == [] then [] else [EntryEvent(qspi, t[0]), Delay(t[0].delayMs)] + TableScript(qspi, t[1..])
  }

  /**
   * Replaying the table `t` from trace position n, with the registers cached as madctl and
   * colmod: each entry first updates the cache, then is sent; a rejected entry ends the run.
   */
  function TableRun(qspi: bool, t: seq<InitCmd>, rejects: set<nat>, n: nat, madctl: Uint8, colmod: Uint8): (r: InitResult)
    requires WellFormedTable(t)
    ensures r.status == Ok || r.status == BusError
    ensures |r.events| <= 2 * |t|
    ensures r.status == Ok <==> |r.events| == 2 * |t|
    ensures r.status == BusError ==> |r.events| % 2 == 1
  {
    if t == [] then InitResult([], Ok, madctl, colmod)
    else
      var m := Override(t[0], LCD_CMD_MADCTL, madctl);
      var c := Override(t[0], LCD_CMD_COLMOD, colmod);
      var e := EntryEvent(qspi, t[0]);
      if n in rejects then InitResult([e], BusError, m, c)
      else
        var rest := TableRun(qspi, t[1..], rejects, n + 2, m, c);
        InitResult([e, Delay(t[0].delayMs)] + rest.events, rest.status, rest.madctl, rest.colmod)
  }

  /** amoled_init: MADCTL and COLMOD with the cached values, then the table. */
  function InitRun(qspi: bool, madctl: Uint8, colmod: Uint8, t: seq<InitCmd>, rejects: set<nat>, n: nat): (r: InitResult)
    requires WellFormedTable(t)
    ensures r.status == Ok || r.status == BusError
    ensures 1 <= |r.events| && r.events[0] == Param(ParamWord(qspi, LCD_CMD_MADCTL), [madctl])
    ensures r.status == Ok ==> n !in rejects && n + 1 !in rejects && |r.events| == 2 + 2 * |t|
  {
    var eMadctl := Param(ParamWord(qspi, LCD_CMD_MADCTL), [madctl]);
    var eColmod := Param(ParamWord(qspi, LCD_CMD_COLMOD), [colmod]);
    if n in rejects then InitResult([eMadctl], BusError, madctl, colmod)
    else if n + 1 in rejects then InitResult([eMadctl, eColmod], BusError, madctl, colmod)
    else
      var rest := TableRun(qspi, t, rejects, n + 2, madctl, colmod);
      InitResult([eMadctl, eColmod] + rest.events, rest.status, rest.madctl, rest.colmod)
  }

  /** Once both cached registers went through, amoled_init continues as the table's run. */
  lemma InitRunPastPreamble(qspi: bool, madctl: Uint8, colmod: Uint8, t: seq<InitCmd>, rejects: set<nat>, n: nat)
    requires WellFormedTable(t) && n !in rejects && n + 1 !in rejects
    ensures InitRun(qspi, madctl, colmod, t, rejects, n)
      == Resumed([Param(ParamWord(qspi, LCD_CMD_MADCTL), [madctl]), Param(ParamWord(qspi, LCD_CMD_COLMOD), [colmod])],
                 TableRun(qspi, t, rejects, n + 2, madctl, colmod))
  {
  }

  /** The entry with index k of a table replayed from position n is sent at position n + 2k. */
  predicate EntryAccepted(rejects: set<nat>, n: nat, k: nat) {
    n + 2 * k !in rejects
  }

  /** TableRun on the entries of t from index i on, without slicing (the form the loop uses). */
  function TableRunFrom(qspi: bool, t: seq<InitCmd>, i: nat, rejects: set<nat>, n: nat, madctl: Uint8, colmod: Uint8): (r: InitResult)
    requires WellFormedTable(t) && i <= |t|
    decreases |t| - i
  {
    if i == |t| then InitResult([], Ok, madctl, colmod)
    else
      var m := Override(t[i], LCD_CMD_MADCTL, madctl);
      var c := Override(t[i], LCD_CMD_COLMOD, colmod);
      var e := EntryEvent(qspi, t[i]);
      if n in rejects then InitResult([e], BusError, m, c)
      else
        var rest := TableRunFrom(qspi, t, i + 1, rejects, n + 2, m, c);
        InitResult([e, Delay(t[i].delayMs)] + rest.events, rest.status, rest.madctl, rest.colmod)
  }

  /** A run that has already emitted `done` and continues as `r`. */
  function Resumed(done: seq<Event>, r: InitResult): (s: InitResult)
    ensures s.events == done + r.events && s.status == r.status
    ensures s.madctl == r.madctl && s.colmod == r.colmod
  {
    InitResult(done + r.events, r.status, r.madctl, r.colmod)
  }

  lemma {:induction false} TableRunFromSuffix(qspi: bool, t: seq<InitCmd>, i: nat, rejects: set<nat>, n: nat, madctl: Uint8, colmod: Uint8)
    requires WellFormedTable(t) && i <= |t|
    ensures WellFormedTable(t[i..])
    ensures TableRunFrom(qspi, t, i, rejects, n, madctl, colmod) == TableRun(qspi, t[i..], rejects, n, madctl, colmod)
    decreases |t| - i
  {
    if i < |t| {
      assert t[i..][0] == t[i] && t[i..][1..] == t[i + 1..];
      TableRunFromSuffix(qspi, t, i + 1, rejects, n + 2,
        Override(t[i], LCD_CMD_MADCTL, madctl), Override(t[i], LCD_CMD_COLMOD, colmod));
      TableRunFromSuffix(qspi, t, i + 1, rejects, n + 2,
        madctl, colmod);
    }
  }

  // ---------------------------------------------------------------------------------
  // Drawing

  /** An end-exclusive region of frame memory, as passed to draw_bitmap. */
  datatype Window = Window(xStart: int, yStart: int, xEnd: int, yEnd: int)

  /** The panel state that a draw depends on. */
  datatype Geometry = Geometry(qspi: bool, xGap: int, yGap: int, bitsPerPixel: int)

  /** Bits 15..8 of a C `int`, as `(v >> 8) & 0xFF` computes them. */
  function HiByte(v: int): Uint8 {
    (v / 0x100) % 0x100
  }

  /** Bits 7..0 of a C `int`, as `v & 0xFF` computes them. */
  function LoByte(v: int): Uint8 {
    v % 0x100
  }

  /** A big-endian 16-bit value. */
  function Be16(hi: Uint8, lo: Uint8): (v: Uint16) {
    hi * 0x100 + lo
  }

  /** The CASET / RASET payload: big-endian start, then big-endian last (end - 1). */
  function AddressPayload(start: int, end: int): (p: seq<Uint8>)
    ensures |p| == 4
    ensures Be16(p[0], p[1]) == start % 0x1_0000
    ensures Be16(p[2], p[3]) == (end - 1) % 0x1_0000
  {
    Be16LowBits(start);
    Be16LowBits(end - 1);
    [HiByte(start), LoByte(start), HiByte(end - 1), LoByte(end - 1)]
  }

  lemma Be16LowBits(v: int)
    ensures Be16(HiByte(v), LoByte(v)) == v % 0x1_0000
  {
    var q := v / 0x1_0000;
    var r := v % 0x1_0000;
    assert v == q * 0x1_0000 + r;
    assert r / 0x100 == (v / 0x100) % 0x100 by {
      assert v / 0x100 == q * 0x100 + r / 0x100;
    }
    assert r % 0x100 == v % 0x100;
  }

  /** The byte count of the RAMWR transfer for a region already shifted by the gaps. */
  function RamwrLength(xStart: int, yStart: int, xEnd: int, yEnd: int, bpp: int): (len: int)
    ensures bpp == 16 ==> len == 2 * ((xEnd - xStart) * (yEnd - yStart))
    ensures xStart <= xEnd && yStart <= yEnd && 0 <= bpp ==> 0 <= len
  {
    var area := (xEnd - xStart) * (yEnd - yStart);
    assert area * 16 == (2 * area) * 8;
    assert xStart <= xEnd && yStart <= yEnd && 0 <= bpp ==> 0 <= area * bpp by {
      if xStart <= xEnd && yStart <= yEnd && 0 <= bpp {
        assert 0 <= area;
      }
    }
    area * bpp / 8
  }

  /** All three transfers of amoled_draw_bitmap for window w. */
  function DrawEvents(g: Geometry, w: Window): (s: seq<Event>)
    ensures |s| == 3
  {
    var xs, xe := w.xStart + g.xGap, w.xEnd + g.xGap;
    var ys, ye := w.yStart + g.yGap, w.yEnd + g.yGap;
    [ Param(ParamWord(g.qspi, LCD_CMD_CASET), AddressPayload(xs, xe)),
      Param(ParamWord(g.qspi, LCD_CMD_RASET), AddressPayload(ys, ye)),
      Color(ColorWord(g.qspi, LCD_CMD_RAMWR), RamwrLength(xs, ys, xe, ye, g.bitsPerPixel)) ]
  }

  /**
   * amoled_draw_bitmap from trace position n: CASET, then RASET, then RAMWR; a rejected
   * CASET or RASET ends the draw with an error, and the RAMWR result is ignored.
   */
  function DrawRun(g: Geometry, w: Window, rejects: set<nat>, n: nat): (r: Outcome)
    ensures 1 <= |r.events| <= 3 && r.events == DrawEvents(g, w)[..|r.events|]
    ensures r.status == Ok <==> n !in rejects && n + 1 !in rejects
    ensures r.status == Ok ==> r.events == DrawEvents(g, w)
    ensures r.status != Ok ==> r.status == BusError && n + |r.events| - 1 in rejects
    ensures n in rejects ==> |r.events| == 1
    ensures n !in rejects && n + 1 in rejects ==> |r.events| == 2
  {
    var s := DrawEvents(g, w);
    if n in rejects then Outcome(s[..1], BusError)
    else if n + 1 in rejects then Outcome(s[..2], BusError)
    else Outcome(s, Ok)
  }

  // ---------------------------------------------------------------------------------
  // Mirror

  /** MADCTL with bit 6 (MX) set when mirrorX holds and cleared otherwise. */
  function MirrorMadctl(m: Uint8, mirrorX: bool): (r: Uint8)
    ensures (r / LCD_CMD_MX_BIT) % 2 == (if mirrorX then 1 else 0)
    ensures r / 0x80 == m / 0x80 && r % LCD_CMD_MX_BIT == m % LCD_CMD_MX_BIT
  {
    var set6 := (m / LCD_CMD_MX_BIT) % 2 == 1;
    if mirrorX then (if set6 then m else m + LCD_CMD_MX_BIT)   // madctl_val |= BIT(6)
    else (if set6 then m - LCD_CMD_MX_BIT else m)               // madctl_val &= ~BIT(6)
  }

  /** amoled_mirror's status: a bus error wins over the unsupported vertical mirror. */
  function MirrorStatus(sent: Status, mirrorY: bool): (st: Status)
    requires sent == Ok || sent == BusError
    ensures st == Ok <==> sent == Ok && !mirrorY
    ensures st == NotSupported <==> sent == Ok && mirrorY
    ensures sent == BusError ==> st == BusError
  {
    if sent != Ok then sent else if mirrorY then NotSupported else Ok
  }

  // ---------------------------------------------------------------------------------
  // The panel object

  /** amoled_panel_t. Fields that no operation changes after construction are constants. */
  class Panel {
    const io: Bus
    const resetGpioNum: int
    var xGap: int
    var yGap: int
    const fbBitsPerPixel: int
    var madctlVal: Uint8
    var colmodVal: Uint8
    const initCmds: Option<seq<InitCmd>>
    const useQspi: bool
    const resetLevel: bool

    predicate Valid() {
      && PixelFormat(fbBitsPerPixel).Some?
      && WellFormedTable(ActiveTable())
    }

    /** The table that amoled_init replays. */
    function ActiveTable(): seq<InitCmd> {
      if initCmds.Some? then initCmds.value else VENDOR_SPECIFIC_INIT_DEFAULT
    }

    function Geom(): Geometry
      reads this
    {
      Geometry(useQspi, xGap, yGap, fbBitsPerPixel)
    }

    /** The field writes of esp_amoled_new_panel once all its checks have passed. */
    constructor (io: Bus, cfg: DevConfig)
      requires cfg.rgbOrder != OtherOrder && PixelFormat(cfg.bitsPerPixel).Some?
      requires WellFormedConfig(cfg)
      ensures Valid()
      ensures this.io == io && resetGpioNum == cfg.resetGpioNum
      ensures madctlVal == (if cfg.rgbOrder == Bgr then LCD_CMD_BGR_BIT else 0)
      ensures colmodVal == PixelFormat(cfg.bitsPerPixel).value
      ensures fbBitsPerPixel == cfg.bitsPerPixel
      ensures xGap == 0 && yGap == 0
      ensures initCmds == (if cfg.vendor.Some? then cfg.vendor.value.initCmds else None)
      ensures useQspi == (cfg.vendor.Some? && cfg.vendor.value.useQspi)
      ensures resetLevel == cfg.resetActiveHigh
    {
      // calloc: everything starts at zero
      xGap, yGap := 0, 0;
      madctlVal := if cfg.rgbOrder == Bgr then LCD_CMD_BGR_BIT else 0;
      colmodVal := PixelFormat(cfg.bitsPerPixel).value;
      this.io := io;
      resetGpioNum := cfg.resetGpioNum;
      fbBitsPerPixel := cfg.bitsPerPixel;
      initCmds := if cfg.vendor.Some? then cfg.vendor.value.initCmds else None;
      useQspi := cfg.vendor.Some? && cfg.vendor.value.useQspi;
      resetLevel := cfg.resetActiveHigh;
    }

    /** amoled_reset: a pulse on the reset line when there is one, else SWRESET. */
    method Reset() returns (st: Status)
      modifies io
      ensures var r := ResetRun(resetGpioNum, resetLevel, useQspi, io.rejects, |old(io.trace)|);
        io.trace == old(io.trace) + r.events && st == r.status
    {
      if resetGpioNum >= 0 {
        io.SetLevel(resetLevel);
        io.Sleep(10);
        io.SetLevel(!resetLevel);
        io.Sleep(150);
      } else {
        var ok := io.TxParam(ParamWord(useQspi, LCD_CMD_SWRESET), []);
        if !ok {
          return BusError;
        }
        io.Sleep(80);
      }
      return Ok;
    }

    /** amoled_init: the two cached registers, then the table, updating the cache on the way. */
    method Init() returns (st: Status)
      requires Valid()
      modifies this, io
      ensures var r := InitRun(useQspi, old(madctlVal), old(colmodVal), ActiveTable(), io.rejects, |old(io.trace)|);
        io.trace == old(io.trace) + r.events && st == r.status && madctlVal == r.madctl && colmodVal == r.colmod
      ensures xGap == old(xGap) && yGap == old(yGap)
    {
      var eMadctl := Param(ParamWord(useQspi, LCD_CMD_MADCTL), [madctlVal]);
      var eColmod := Param(ParamWord(useQspi, LCD_CMD_COLMOD), [colmodVal]);
      var ok := io.TxParam(ParamWord(useQspi, LCD_CMD_MADCTL), [madctlVal]);
      if !ok {
        return BusError;
      }
      ok := io.TxParam(ParamWord(useQspi, LCD_CMD_COLMOD), [colmodVal]);
      if !ok {
        assert io.trace == old(io.trace) + [eMadctl, eColmod];
        return BusError;
      }
      ghost var preamble := io.trace;
      assert preamble == old(io.trace) + [eMadctl, eColmod];
      var table := ActiveTable();
      ghost var rest := TableRun(useQspi, table, io.rejects, |preamble|, madctlVal, colmodVal);
      TableRunFromSuffix(useQspi, table, 0, io.rejects, |preamble|, madctlVal, colmodVal);
      assert table[0..] == table;
      st := ReplayTable(table);
      InitRunPastPreamble(useQspi, old(madctlVal), old(colmodVal), table, io.rejects, |old(io.trace)|);
      AppendAssoc(old(io.trace), [eMadctl, eColmod], rest.events);
    }

    /** The loop of amoled_init over the table entries. */
    method ReplayTable(cmds: seq<InitCmd>) returns (st: Status)
      requires WellFormedTable(cmds)
      modifies this, io
      ensures var r := TableRunFrom(useQspi, cmds, 0, io.rejects, |old(io.trace)|, old(madctlVal), old(colmodVal));
        io.trace == old(io.trace) + r.events && st == r.status && madctlVal == r.madctl && colmodVal == r.colmod
      ensures xGap == old(xGap) && yGap == old(yGap)
    {
      ghost var full := TableRunFrom(useQspi, cmds, 0, io.rejects, |io.trace|, madctlVal, colmodVal);
      var i := 0;
      while i < |cmds|
        invariant 0 <= i <= |cmds|
        invariant xGap == old(xGap) && yGap == old(yGap)
        invariant var r := TableRunFrom(useQspi, cmds, i, io.rejects, |io.trace|, madctlVal, colmodVal);
          old(io.trace) + full.events == io.trace + r.events
          && full.status == r.status && full.madctl == r.madctl && full.colmod == r.colmod
      {
        ghost var head := io.trace;
        var ok, step := ReplayEntry(cmds, i);
        if !ok {
          return BusError;
        }
        ghost var rest := TableRunFrom(useQspi, cmds, i + 1, io.rejects, |io.trace|, madctlVal, colmodVal);
        assert head + (step + rest.events) == io.trace + rest.events;
        i := i + 1;
      }
      assert io.trace + [] == io.trace;
      return Ok;
    }

    /**
     * One iteration of amoled_init's loop: the cache update, the entry, and its delay when it
     * was sent; what remains of the run afterwards is the run from the next entry.
     */
    method ReplayEntry(cmds: seq<InitCmd>, i: nat) returns (ok: bool, ghost step: seq<Event>)
      requires WellFormedTable(cmds) && i < |cmds|
      modifies this, io
      ensures xGap == old(xGap) && yGap == old(yGap)
      ensures io.trace == old(io.trace) + step
      ensures var r := TableRunFrom(useQspi, cmds, i, io.rejects, |old(io.trace)|, old(madctlVal), old(colmodVal));
        if ok then r == Resumed(step, TableRunFrom(useQspi, cmds, i + 1, io.rejects, |io.trace|, madctlVal, colmodVal))
        else r == InitResult(step, BusError, madctlVal, colmodVal)
    {
      var c := cmds[i];
      assert WellFormedCmd(c);
      // a MADCTL or COLMOD entry overwrites the cached register
      if c.cmd == LCD_CMD_MADCTL {
        madctlVal := c.data[0];
      } else if c.cmd == LCD_CMD_COLMOD {
        colmodVal := c.data[0];
      }
      ok := io.TxParam(ParamWord(useQspi, c.cmd), c.data[..c.dataBytes]);
      step := [EntryEvent(useQspi, c)];
      if ok {
        io.Sleep(c.delayMs);
        step := step + [Delay(c.delayMs)];
      }
    }

    /** amoled_draw_bitmap; the caller must pass a non-empty region (the source asserts it). */
    method DrawBitmap(xStart: int, yStart: int, xEnd: int, yEnd: int) returns (st: Status)
      requires xStart < xEnd && yStart < yEnd
      modifies io
      ensures var r := DrawRun(Geom(), Window(xStart, yStart, xEnd, yEnd), io.rejects, |old(io.trace)|);
        io.trace == old(io.trace) + r.events && st == r.status
    {
      var xs, xe, ys, ye := xStart + xGap, xEnd + xGap, yStart + yGap, yEnd + yGap;
      var ok := io.TxParam(ParamWord(useQspi, LCD_CMD_CASET), AddressPayload(xs, xe));
      if !ok {
        return BusError;
      }
      ok := io.TxParam(ParamWord(useQspi, LCD_CMD_RASET), AddressPayload(ys, ye));
      if !ok {
        return BusError;
      }
      var len := (xe - xs) * (ye - ys) * fbBitsPerPixel / 8;
      ok := io.TxColor(ColorWord(useQspi, LCD_CMD_RAMWR), len);   // result discarded
      return Ok;
    }

    /** amoled_invert_color: INVON or INVOFF without payload. */
    method InvertColor(invert: bool) returns (st: Status)
      modifies io
      ensures var r := SendRun(Param(ParamWord(useQspi, if invert then LCD_CMD_INVON else LCD_CMD_INVOFF), []),
                               io.rejects, |old(io.trace)|);
        io.trace == old(io.trace) + r.events && st == r.status
    {
      var command := if invert then LCD_CMD_INVON else LCD_CMD_INVOFF;
      var ok := io.TxParam(ParamWord(useQspi, command), []);
      st := if ok then Ok else BusError;
    }

    /** amoled_mirror: MX follows mirrorX; MADCTL is always resent; vertical mirroring is unsupported. */
    method Mirror(mirrorX: bool, mirrorY: bool) returns (st: Status)
      modifies this, io
      ensures madctlVal == MirrorMadctl(old(madctlVal), mirrorX)
      ensures colmodVal == old(colmodVal) && xGap == old(xGap) && yGap == old(yGap)
      ensures var r := SendRun(Param(ParamWord(useQspi, LCD_CMD_MADCTL), [madctlVal]), io.rejects, |old(io.trace)|);
        io.trace == old(io.trace) + r.events && st == MirrorStatus(r.status, mirrorY)
    {
      madctlVal := MirrorMadctl(madctlVal, mirrorX);
      var ret := if mirrorY then NotSupported else Ok;
      var ok := io.TxParam(ParamWord(useQspi, LCD_CMD_MADCTL), [madctlVal]);
      if !ok {
        return BusError;
      }
      return ret;
    }

    /** amoled_swap_xy: never supported, changes nothing. */
    method SwapXy(swapAxes: bool) returns (st: Status)
      ensures st == NotSupported
    {
      return NotSupported;
    }

    /** amoled_set_gap: takes effect on the next draw. */
    method SetGap(x: int, y: int) returns (st: Status)
      modifies this
      ensures xGap == x && yGap == y && st == Ok
      ensures madctlVal == old(madctlVal) && colmodVal == old(colmodVal)
    {
      xGap, yGap := x, y;
      return Ok;
    }

    /** amoled_disp_on_off: DISPON when `on`, DISPOFF otherwise. */
    method DispOnOff(on: bool) returns (st: Status)
      modifies io
      ensures var r := SendRun(Param(ParamWord(useQspi, if on then LCD_CMD_DISPON else LCD_CMD_DISPOFF), []),
                               io.rejects, |old(io.trace)|);
        io.trace == old(io.trace) + r.events && st == r.status
    {
      var command := if on then LCD_CMD_DISPON else LCD_CMD_DISPOFF;
      var ok := io.TxParam(ParamWord(useQspi, command), []);
      st := if ok then Ok else BusError;
    }
  }

  /** esp_amoled_new_panel: checks, then a zero-initialised panel with the configured fields. */
  method NewPanel(io: Bus?, cfg: DevConfig, allocOk: bool, gpioOk: bool) returns (st: Status, panel: Panel?)
    requires WellFormedConfig(cfg)
    ensures st == NewPanelStatus(io != null, cfg, allocOk, gpioOk)
    ensures panel != null <==> st == Ok
    ensures panel != null ==>
      && fresh(panel) && panel.Valid() && panel.io == io
      && panel.resetGpioNum == cfg.resetGpioNum
      && panel.madctlVal == (if cfg.rgbOrder == Bgr then LCD_CMD_BGR_BIT else 0)
      && panel.colmodVal == PixelFormat(cfg.bitsPerPixel).value
      && panel.fbBitsPerPixel == cfg.bitsPerPixel
      && panel.xGap == 0 && panel.yGap == 0
      && panel.initCmds == (if cfg.vendor.Some? then cfg.vendor.value.initCmds else None)
      && panel.useQspi == (cfg.vendor.Some? && cfg.vendor.value.useQspi)
      && panel.resetLevel == cfg.resetActiveHigh
  {
    panel := null;
    if io == null {
      return InvalidArg, null;
    }
    if !allocOk {
      return NoMem, null;
    }
    if cfg.resetGpioNum >= 0 && !gpioOk {
      return GpioError, null;
    }
    if cfg.rgbOrder == OtherOrder {
      return NotSupported, null;
    }
    if PixelFormat(cfg.bitsPerPixel).None? {
      return NotSupported, null;
    }
    panel := new Panel(io, cfg);
    st := Ok;
  }
}
