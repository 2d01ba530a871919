/**
 * The frame compositor of amoled.cpp / amoled.h: the Amoled object that brings the panel
 * up, clips drawing requests to the 466 x 466 screen, adds 6 to the columns of every
 * controller other than the SH8601, and fills rectangles through a two-row line buffer.
 *
 * The object is a class whose fields are the C++ members; its methods are proved against
 * the specification functions of this module (what they put on the panel's bus, and what
 * they return), and compositor_lemmas.dfy proves what those functions promise.
 */
module Compositor {
  import opened Types
  import opened Transport
  import opened PanelDriver
  import opened PanelLemmas
  import opened Board
  import opened Colors

  // ---------------------------------------------------------------------------------
  // Init tables and controller-dependent choices

  /** sh8601_lcd_init_cmds (amoled.cpp:3-15). */
  const SH8601_LCD_INIT_CMDS: seq<InitCmd> := [
    InitCmd(0x11, [0x00], 0, 120),        // sleep out
    InitCmd(0x44, [0x01, 0xD1], 2, 0),
    InitCmd(0x53, [0x20], 1, 10),
    InitCmd(0x51, [0x00], 1, 10),         // brightness 0
    InitCmd(0x29, [0x00], 0, 10),         // display on
    InitCmd(0x51, [0xFF], 1, 0),          // brightness 255
    InitCmd(0x34, [], 0, 0)               // tearing effect off
  ]

  /** co5300_lcd_init_cmds (amoled.cpp:16-29). */
  const CO5300_LCD_INIT_CMDS: seq<InitCmd> := [
    InitCmd(0x11, [0x00], 0, 80),         // sleep out
    InitCmd(0xC4, [0x80], 1, 0),
    InitCmd(0x34, [], 0, 0),              // tearing effect off
    InitCmd(0x53, [0x20], 1, 1),
    InitCmd(0x63, [0xFF], 1, 1),
    InitCmd(0x51, [0x00], 1, 1),          // brightness 0
    InitCmd(0x29, [0x00], 0, 10),         // display on
    InitCmd(0x51, [0xFF], 1, 0)           // brightness 255
  ]

  /**
   * The table begin hands to the driver: the SH8601 one exactly for id 0x86, the CO5300 one
   * for every other id.  Neither names MADCTL or COLMOD.
   */
  function InitCmdsFor(id: int): (t: seq<InitCmd>)
    ensures t == SH8601_LCD_INIT_CMDS <==> id == SH8601_ID
    ensures t == CO5300_LCD_INIT_CMDS <==> id != SH8601_ID
    ensures |t| == (if id == SH8601_ID then 7 else 8)
    ensures WellFormedTable(t)
    ensures forall k :: 0 <= k < |t| ==> t[k].cmd != LCD_CMD_MADCTL && t[k].cmd != LCD_CMD_COLMOD
  {
    if id == SH8601_ID then SH8601_LCD_INIT_CMDS else CO5300_LCD_INIT_CMDS
  }

  /** The panel configuration begin builds: reset line 21, RGB order, 16 bits, quad SPI, the table for id. */
  function BeginConfig(id: int): (cfg: DevConfig)
    ensures WellFormedConfig(cfg)
    ensures cfg.rgbOrder == Rgb && cfg.bitsPerPixel == LCD_BIT_PER_PIXEL && cfg.resetGpioNum == PIN_NUM_LCD_RST
    ensures cfg.vendor == Some(VendorConfig(Some(InitCmdsFor(id)), true)) && !cfg.resetActiveHigh
  {
    DevConfig(PIN_NUM_LCD_RST, Rgb, LCD_BIT_PER_PIXEL, Some(VendorConfig(Some(InitCmdsFor(id)), true)), false)
  }

  /** The MADCTL and COLMOD values a panel built from BeginConfig starts with. */
  const BEGIN_MADCTL: Uint8 := 0
  const BEGIN_COLMOD: Uint8 := 0x55

  /** The four events of the reset pulse on pin 21 (reset line active low). */
  const RESET_PULSE: seq<Event> := [Gpio(false), Delay(10), Gpio(true), Delay(150)]

  /**
   * What begin drives on the bus once the panel exists, from trace position n: the reset
   * pulse, amoled_init, then DISPON; the first failing step ends it.
   */
  function BeginRun(id: int, rejects: set<nat>, n: nat): (r: Outcome)
    ensures r.status == Ok || r.status == BusError
    ensures |r.events| >= 5 && r.events[..4] == RESET_PULSE
    ensures r.status == Ok ==> |r.events| == 4 + (2 + 2 * |InitCmdsFor(id)|) + 1
  {
    var reset := ResetRun(PIN_NUM_LCD_RST, false, true, rejects, n);
    if reset.status != Ok then reset
    else
      var afterReset := n + |reset.events|;
      var init := InitRun(true, BEGIN_MADCTL, BEGIN_COLMOD, InitCmdsFor(id), rejects, afterReset);
      assert (reset.events + init.events)[..4] == RESET_PULSE;
      if init.status != Ok then Outcome(reset.events + init.events, init.status)
      else
        var on := SendRun(Param(ParamWord(true, LCD_CMD_DISPON), []), rejects, afterReset + |init.events|);
        assert (reset.events + init.events + on.events)[..4] == RESET_PULSE;
        Outcome(reset.events + init.events + on.events, on.status)
  }

  /** BeginRun in terms of the init run and the DISPON run that follow the four reset events. */
  lemma BeginRunSteps(id: int, rejects: set<nat>, n: nat, reset: Outcome, init: InitResult, on: Outcome)
    requires reset == ResetRun(PIN_NUM_LCD_RST, false, true, rejects, n)
    requires init == InitRun(true, BEGIN_MADCTL, BEGIN_COLMOD, InitCmdsFor(id), rejects, n + |reset.events|)
    requires on == SendRun(Param(ParamWord(true, LCD_CMD_DISPON), []), rejects, n + |reset.events| + |init.events|)
    ensures reset.status == Ok
    ensures init.status != Ok ==> BeginRun(id, rejects, n) == Outcome(reset.events + init.events, init.status)
    ensures init.status == Ok ==> BeginRun(id, rejects, n) == Outcome(reset.events + init.events + on.events, on.status)
  {
  }

  /** push_w_max * 2 of reserveLineBuffer: the width rounded up to even, two rows of it. */
  const LINE_BUFFER_CAPACITY := (if DISPLAY_WIDTH % 2 == 1 then DISPLAY_WIDTH + 1 else DISPLAY_WIDTH) * 2

  /**
   * The end-exclusive window pushToPanel hands to the driver for a w x h block at (x, y):
   * both column bounds move right by 6 unless the controller is the SH8601; rows never move.
   */
  function PanelWindow(id: int, x: int, y: int, w: int, h: int): (win: Window)
    ensures win.xEnd - win.xStart == w && win.yStart == y && win.yEnd == y + h
    ensures win.xStart == x <==> id == SH8601_ID
    ensures id != SH8601_ID ==> win.xStart == x + 6
  {
    var offset := if id == SH8601_ID then 0 else 0x06;
    Window(x + offset, y, x + w + offset, y + h)
  }

  /**
   * The window drawArea hands to the driver: each inclusive last coordinate plus one, the
   * addition done on `uint32_t` and the four values then converted to `int`.  No column
   * offset is applied, whatever the controller.
   */
  function AreaWindow(x1: Uint32, y1: Uint32, x2: Uint32, y2: Uint32): (win: Window)
    ensures x1 < 0x8000_0000 && x2 < 0x7FFF_FFFF ==> win.xStart == x1 && win.xEnd == x2 + 1
    ensures y1 < 0x8000_0000 && y2 < 0x7FFF_FFFF ==> win.yStart == y1 && win.yEnd == y2 + 1
  {
    Window(ToInt32(x1), ToInt32(y1), ToInt32((x2 + 1) % 0x1_0000_0000), ToInt32((y2 + 1) % 0x1_0000_0000))
  }

  // ---------------------------------------------------------------------------------
  // Clipping

  /** A run of `size` pixels from `start` along one axis. */
  datatype Span = Span(start: int, size: int)

  predicate Covers(s: Span, k: int) {
    s.start <= k < s.start + s.size
  }

  /**
   * The part of [p, p + len) on a screen axis [0, limit): it starts at max(p, 0) and ends at
   * min(p + len, limit); a size <= 0 means nothing is visible.
   */
  function ClipSpan(p: int, len: int, limit: int): (s: Span)
    requires 0 < len && 0 < limit
    ensures s.size > 0 <==> p < limit && p + len > 0
    ensures s.size > 0 ==> 0 <= s.start && s.start + s.size <= limit && p <= s.start && s.start + s.size <= p + len
    ensures s.size > 0 ==> forall k :: Covers(s, k) <==> p <= k < p + len && 0 <= k < limit
  {
    Span(Max(p, 0), Min(p + len, limit) - Max(p, 0))
  }

  /** What drawBitmap does for a bitmap present and a panel present, from trace position n. */
  function BitmapRun(g: Geometry, id: int, x: int, y: int, w: int, h: int, rejects: set<nat>, n: nat): (r: Outcome)
    ensures r.status == Ok || r.status == InvalidArg || r.status == BusError
    ensures r.status == InvalidArg <==> w <= 0 || h <= 0
    ensures r.events != [] <==> w > 0 && h > 0 && x < DISPLAY_WIDTH && x + w > 0 && y < DISPLAY_HEIGHT && y + h > 0
    ensures r.events != [] ==>
      |r.events| <= 3 && r.events == DrawEvents(g, PanelWindow(id, Max(x, 0), Max(y, 0), w, h))[..|r.events|]
  {
    if w <= 0 || h <= 0 then Outcome([], InvalidArg)      // returns false
    else
      var cx, cy := ClipSpan(x, w, DISPLAY_WIDTH), ClipSpan(y, h, DISPLAY_HEIGHT);
      if cx.size <= 0 || cy.size <= 0 then Outcome([], Ok)  // nothing visible, true
      else DrawRun(g, PanelWindow(id, cx.start, cy.start, w, h), rejects, n)
  }

  /** The four cases of fillRect for a panel present. */
  datatype FillPlan =
    | Refused                                       // w <= 0 or h <= 0: false
    | Hidden                                        // nothing visible: true
    | Strips(xs: int, cw: int, ys: int, ch: int)    // the clipped rectangle

  function FillPlanOf(x: int, y: int, w: int, h: int): (p: FillPlan)
    ensures p.Refused? <==> w <= 0 || h <= 0
    ensures p.Strips? <==> w > 0 && h > 0 && x < DISPLAY_WIDTH && x + w > 0 && y < DISPLAY_HEIGHT && y + h > 0
    ensures p.Strips? ==> p.cw > 0 && p.ch > 0 && p.xs + p.cw <= DISPLAY_WIDTH && p.ys + p.ch <= DISPLAY_HEIGHT
  {
    if w <= 0 || h <= 0 then Refused
    else
      var cx, cy := ClipSpan(x, w, DISPLAY_WIDTH), ClipSpan(y, h, DISPLAY_HEIGHT);
      if cx.size <= 0 || cy.size <= 0 then Hidden
      else Strips(cx.start, cx.size, cy.start, cy.size)
  }

  /**
   * A rectangle of positive size whose clipped extent cw x ch at (xs, ys) is empty: fillRect
   * has nothing to draw and succeeds.
   */
  lemma FillClipHidden(g: Geometry, id: int, x: int, y: int, w: int, h: int, rejects: set<nat>, n: nat,
                       xs: int, cw: int, ys: int, ch: int)
    requires w > 0 && h > 0 && (cw <= 0 || ch <= 0)
    requires xs == Max(x, 0) && cw == Min(x + w, DISPLAY_WIDTH) - xs
    requires ys == Max(y, 0) && ch == Min(y + h, DISPLAY_HEIGHT) - ys
    ensures FillPlanOf(x, y, w, h) == Hidden
    ensures FillRectRun(g, id, x, y, w, h, rejects, n) == Outcome([], Ok)
  {
  }

  /** A rectangle of positive size that shows on the screen as cw x ch at (xs, ys): fillRect pushes its strips. */
  lemma FillClipVisible(g: Geometry, id: int, x: int, y: int, w: int, h: int, rejects: set<nat>, n: nat,
                        xs: int, cw: int, ys: int, ch: int)
    requires w > 0 && h > 0 && cw > 0 && ch > 0
    requires xs == Max(x, 0) && cw == Min(x + w, DISPLAY_WIDTH) - xs
    requires ys == Max(y, 0) && ch == Min(y + h, DISPLAY_HEIGHT) - ys
    ensures FillPlanOf(x, y, w, h) == Strips(xs, cw, ys, ch)
    ensures FillRectRun(g, id, x, y, w, h, rejects, n) == StripsRun(g, id, xs, PushWidth(cw), ys, ch, 0, rejects, n)
  {
  }

  /** push_w: the clipped width, plus one column when it is odd. */
  function PushWidth(cw: int): (pw: int)
    requires cw > 0
    ensures pw % 2 == 0 && cw <= pw <= cw + 1
  {
    cw + (if cw % 2 == 1 then 1 else 0)
  }

  /**
   * The row at which fillRect pushes the strip that starts `row` rows into the clipped
   * rectangle: the last strip of an odd height moves up one row, unless it is the only one.
   */
  function StripY(ys: int, ch: int, row: int): (r: int)
  {
    var y := ys + row;
    if ch % 2 == 1 && row == ch - 1 && y > ys then y - 1 else y
  }

  /** The rows of the ceil(ch / 2) two-row strips of fillRect, in push order. */
  function FillStrips(ys: int, ch: int): (s: seq<int>)
    requires ch > 0
    ensures |s| == (ch + 1) / 2
  {
    seq((ch + 1) / 2, k => StripY(ys, ch, 2 * k))
  }

  lemma FillStripAt(ys: int, ch: int, k: nat)
    requires ch > 0 && k < (ch + 1) / 2
    ensures |FillStrips(ys, ch)| == (ch + 1) / 2 && FillStrips(ys, ch)[k] == StripY(ys, ch, 2 * k)
  {
  }

  /** A push of the strip at index k of a series started at n is accepted (CASET and RASET). */
  predicate PushAccepted(rejects: set<nat>, n: nat, k: nat) {
    n + 3 * k !in rejects && n + 3 * k + 1 !in rejects
  }

  /**
   * Pushing strips i.. of the ceil(ch / 2) strips of a clipped rectangle starting at row ys,
   * each `pw` columns wide at column xs and 2 rows high, from trace position n: every
   * accepted push takes three transfers, and the first failing push ends the series.
   */
  function StripsRun(g: Geometry, id: int, xs: int, pw: int, ys: int, ch: int, i: nat, rejects: set<nat>, n: nat): (r: Outcome)
    requires i <= (ch + 1) / 2
    ensures r.status == Ok || r.status == BusError
    ensures r.status == Ok <==> |r.events| == 3 * ((ch + 1) / 2 - i)
    ensures i < (ch + 1) / 2 ==> 1 <= |r.events|
    decreases (ch + 1) / 2 - i
  {
    if i == (ch + 1) / 2 then Outcome([], Ok)
    else
      var push := DrawRun(g, PanelWindow(id, xs, StripY(ys, ch, 2 * i), pw, 2), rejects, n);
      if push.status != Ok then push
      else
        var rest := StripsRun(g, id, xs, pw, ys, ch, i + 1, rejects, n + 3);
        Outcome(push.events + rest.events, rest.status)
  }

  /** What fillRect does for a panel present, from trace position n. */
  function FillRectRun(g: Geometry, id: int, x: int, y: int, w: int, h: int, rejects: set<nat>, n: nat): (r: Outcome)
    ensures r.status == Ok || r.status == InvalidArg || r.status == BusError
    ensures r.status == InvalidArg <==> w <= 0 || h <= 0
    ensures r.events != [] <==> FillPlanOf(x, y, w, h).Strips?
    ensures FillPlanOf(x, y, w, h).Strips? && r.status == Ok ==> |r.events| == 3 * ((FillPlanOf(x, y, w, h).ch + 1) / 2)
  {
    match FillPlanOf(x, y, w, h)
    case Refused => Outcome([], InvalidArg)                 // returns false
    case Hidden => Outcome([], Ok)                           // returns true
    case Strips(xs, cw, ys, ch) => StripsRun(g, id, xs, PushWidth(cw), ys, ch, 0, rejects, n)
  }

  /** The first n elements of a hold v. */
  ghost predicate Holds(a: array<Uint16>, n: int, v: Uint16)
    reads a
  {
    0 <= n <= a.Length && forall k :: 0 <= k < n ==> a[k] == v
  }

  // ---------------------------------------------------------------------------------
  // The object

  /** class Amoled (amoled.h:47-72); the panel handle is the driver's panel object. */
  class Amoled {
    var controllerId: Uint8
    var panel: Panel?
    var lineBuffer: array?<Uint16>
    var lineBufferSize: int

    /** The line buffer exists exactly when its size is recorded, and then holds two padded rows. */
    ghost predicate Valid()
      reads this
    {
      && (lineBuffer == null ==> lineBufferSize == 0)
      && (lineBuffer != null ==> lineBuffer.Length == LINE_BUFFER_CAPACITY && lineBufferSize == LINE_BUFFER_CAPACITY)
      && (panel != null ==> panel.Valid())
    }

    /** The bus behind the panel, when there is a panel. */
    function Io(): set<object>
      reads this
    {
      if panel == null then {} else {panel.io}
    }

    /**
     * Amoled(): the members as declared.  The line buffer pointer has no initialiser; it is
     * taken to be null, as it is for an object with static storage.
     */
    constructor ()
      ensures Valid()
      ensures controllerId == 0 && panel == null && lineBuffer == null && lineBufferSize == 0
    {
      controllerId := 0;
      panel := null;
      lineBuffer := null;
      lineBufferSize := 0;
    }

    /** ID() */
    function Id(): Uint8
      reads this
    {
      controllerId
    }

    /** name(): the controller's label. */
    function Name(): (s: string)
      reads this
      ensures s == SH8601_NAME <==> controllerId == SH8601_ID
      ensures s == CO5300_NAME <==> controllerId == CO5300_ID
      ensures s == "Unknown" <==> controllerId != SH8601_ID && controllerId != CO5300_ID
    {
      if Id() == SH8601_ID then SH8601_NAME
      else if Id() == CO5300_ID then CO5300_NAME
      else "Unknown"
    }

    /** reserveLineBuffer: allocates the two-row buffer once. */
    method ReserveLineBuffer(allocOk: bool) returns (ok: bool)
      requires Valid()
      modifies this
      ensures Valid()
      ensures controllerId == old(controllerId) && panel == old(panel)
      ensures old(lineBuffer) != null ==> ok && lineBuffer == old(lineBuffer)
      ensures old(lineBuffer) == null ==> ok == allocOk
      ensures old(lineBuffer) == null && allocOk ==> fresh(lineBuffer) && lineBufferSize == LINE_BUFFER_CAPACITY
      ensures old(lineBuffer) == null && !allocOk ==> lineBuffer == null && lineBufferSize == 0
    {
      if lineBuffer != null {
        return true;
      }
      var pushWMax := if DISPLAY_WIDTH % 2 == 1 then DISPLAY_WIDTH + 1 else DISPLAY_WIDTH;
      var capElems := pushWMax * 2;
      if !allocOk {
        return false;
      }
      lineBuffer := new Uint16[capElems];
      lineBufferSize := capElems;
      return true;
    }

    /**
     * begin: read the id, bring up the bus and the panel IO, create the panel with the
     * table for the id, reset, init, display on, reserve the line buffer, and give up at
     * the first failure.  The id read, the two bus set-up calls and the allocations are inputs.
     */
    method Begin(readId: Uint8, io: Bus, busInitOk: bool, ioCreateOk: bool, panelAllocOk: bool, gpioOk: bool,
                 bufferAllocOk: bool) returns (ok: bool)
      requires Valid()
      modifies this, io
      ensures Valid() && controllerId == readId
      ensures !(busInitOk && ioCreateOk && panelAllocOk && gpioOk) ==>
        && !ok && panel == old(panel) && io.trace == old(io.trace)
        && lineBuffer == old(lineBuffer) && lineBufferSize == old(lineBufferSize)
      ensures busInitOk && ioCreateOk && panelAllocOk && gpioOk ==>
        && panel != null && fresh(panel) && panel.io == io
        && panel.initCmds == Some(InitCmdsFor(readId)) && panel.useQspi
        && panel.resetGpioNum == PIN_NUM_LCD_RST && panel.fbBitsPerPixel == LCD_BIT_PER_PIXEL
        && panel.xGap == 0 && panel.yGap == 0
        && panel.madctlVal == BEGIN_MADCTL && panel.colmodVal == BEGIN_COLMOD
        && var r := BeginRun(readId, io.rejects, |old(io.trace)|);
           && io.trace == old(io.trace) + r.events
           && (r.status != Ok ==> !ok && lineBuffer == old(lineBuffer) && lineBufferSize == old(lineBufferSize))
           && (r.status == Ok && old(lineBuffer) != null ==> ok && lineBuffer == old(lineBuffer))
           && (r.status == Ok && old(lineBuffer) == null ==>
                 ok == bufferAllocOk && (bufferAllocOk ==> fresh(lineBuffer)) && (!bufferAllocOk ==> lineBuffer == null))
    {
      controllerId := readId;
      if !busInitOk || !ioCreateOk {
        return false;
      }
      var cfg := BeginConfig(controllerId);
      var st, p := NewPanel(io, cfg, panelAllocOk, gpioOk);
      if st != Ok {
        return false;
      }
      panel := p;
      ok := BringUp(p);
      if !ok {
        return false;
      }
      ok := ReserveLineBuffer(bufferAllocOk);
    }

    /** The reset, init and display-on steps of begin, on the panel just created. */
    method BringUp(p: Panel) returns (ok: bool)
      requires p.Valid() && p.initCmds == Some(InitCmdsFor(controllerId)) && p.useQspi
      requires p.resetGpioNum == PIN_NUM_LCD_RST && !p.resetLevel
      requires p.madctlVal == BEGIN_MADCTL && p.colmodVal == BEGIN_COLMOD
      modifies p, p.io
      ensures p.madctlVal == BEGIN_MADCTL && p.colmodVal == BEGIN_COLMOD
      ensures p.xGap == old(p.xGap) && p.yGap == old(p.yGap)
      ensures var r := BeginRun(controllerId, p.io.rejects, |old(p.io.trace)|);
        p.io.trace == old(p.io.trace) + r.events && ok == (r.status == Ok)
    {
      ghost var io, id, rejects, start := p.io, controllerId, p.io.rejects, p.io.trace;
      ghost var reset := ResetRun(PIN_NUM_LCD_RST, false, true, rejects, |start|);
      ghost var init := InitRun(true, BEGIN_MADCTL, BEGIN_COLMOD, InitCmdsFor(id), rejects, |start| + |reset.events|);
      ghost var on := SendRun(Param(ParamWord(true, LCD_CMD_DISPON), []), rejects, |start| + |reset.events| + |init.events|);
      BeginRunSteps(id, rejects, |start|, reset, init, on);
      InitKeepsBeginRegisters(id, rejects, |start| + |reset.events|);
      var st := p.Reset();
      assert io.trace == start + reset.events;
      st := p.Init();
      AppendAssoc(start, reset.events, init.events);
      assert io.trace == start + (reset.events + init.events);
      if st != Ok {
        return false;
      }
      st := p.DispOnOff(true);
      AppendAssoc(start, reset.events + init.events, on.events);
      ok := st == Ok;
    }

    /**
     * pushToPanel: one draw of a w x h block at (x, y), moved by the controller's column
     * offset; true when the driver reports success.
     */
    method PushToPanel(x: int, y: int, w: int, h: int) returns (ok: bool)
      requires panel != null && w > 0 && h > 0
      modifies panel.io
      ensures var r := DrawRun(panel.Geom(), PanelWindow(controllerId, x, y, w, h), panel.io.rejects, |old(panel.io.trace)|);
        panel.io.trace == old(panel.io.trace) + r.events && ok == (r.status == Ok)
    {
      var x1 := if controllerId == SH8601_ID then x else x + 0x06;
      var x2 := if controllerId == SH8601_ID then x + w else x + w + 0x06;
      var y1 := y;
      var y2 := y + h;   // end-exclusive
      var st := panel.DrawBitmap(x1, y1, x2, y2);
      ok := st == Ok;
    }

    /**
     * drawBitmap: checks, then the clip; a visible bitmap is pushed once at the clipped
     * origin with its original width and height.  A null bitmap is `hasBitmap == false`.
     */
    method DrawBitmap(x: Int16, y: Int16, hasBitmap: bool, w: Int16, h: Int16) returns (ok: bool)
      modifies Io()
      ensures panel == null ==> !ok
      ensures panel != null && !hasBitmap ==> !ok && panel.io.trace == old(panel.io.trace)
      ensures panel != null && hasBitmap ==>
        var r := BitmapRun(panel.Geom(), controllerId, x as int, y as int, w as int, h as int,
                           panel.io.rejects, |old(panel.io.trace)|);
        panel.io.trace == old(panel.io.trace) + r.events && ok == (r.status == Ok)
    {
      if panel == null || !hasBitmap || w <= 0 || h <= 0 {
        return false;
      }
      // clip destination rect to screen
      var dx, dy, cw, ch := x as int, y as int, w as int, h as int;
      if dx < 0 {
        cw := cw + dx;
        dx := 0;
      }
      if dy < 0 {
        ch := ch + dy;
        dy := 0;
      }
      if dx + cw > DISPLAY_WIDTH {
        cw := DISPLAY_WIDTH - dx;
      }
      if dy + ch > DISPLAY_HEIGHT {
        ch := DISPLAY_HEIGHT - dy;
      }
      if cw <= 0 || ch <= 0 {
        return true;   // nothing visible
      }
      ok := PushToPanel(dx, dy, w as int, h as int);
    }

    /**
     * drawArea: inclusive corners to an end-exclusive window, passed on as it is.  The driver
     * asserts a non-empty window, so the caller must give one.  Without a panel the
     * driver's handle check fails.
     */
    method DrawArea(x1: Uint32, y1: Uint32, x2: Uint32, y2: Uint32) returns (ok: bool)
      requires var win := AreaWindow(x1, y1, x2, y2); panel != null ==> win.xStart < win.xEnd && win.yStart < win.yEnd
      modifies Io()
      ensures panel == null ==> !ok
      ensures panel != null ==>
        var r := DrawRun(panel.Geom(), AreaWindow(x1, y1, x2, y2), panel.io.rejects, |old(panel.io.trace)|);
        panel.io.trace == old(panel.io.trace) + r.events && ok == (r.status == Ok)
    {
      if panel == null {
        return false;
      }
      var win := AreaWindow(x1, y1, x2, y2);
      var st := panel.DrawBitmap(win.xStart, win.yStart, win.xEnd, win.yEnd);
      ok := st == Ok;
    }

    /** invertColor; without a panel the driver's handle check fails. */
    method InvertColor(invert: bool) returns (ok: bool)
      modifies Io()
      ensures panel == null ==> !ok
      ensures panel != null ==>
        var r := SendRun(Param(ParamWord(panel.useQspi, if invert then LCD_CMD_INVON else LCD_CMD_INVOFF), []),
                         panel.io.rejects, |old(panel.io.trace)|);
        panel.io.trace == old(panel.io.trace) + r.events && ok == (r.status == Ok)
    {
      if panel == null {
        return false;
      }
      var st := panel.InvertColor(invert);
      ok := st == Ok;
    }

    /**
     * The first loop of fillRect: both rows of the buffer get the swapped colour in the
     * first cw columns, and the padding column too when cw is odd.
     */
    method FillLineBuffer(cw: int, pushW: int, be: Uint16)
      requires lineBuffer != null && cw > 0 && pushW == PushWidth(cw) && 2 * pushW <= lineBuffer.Length
      modifies lineBuffer
      ensures Holds(lineBuffer, 2 * pushW, be)
      ensures forall k :: 2 * pushW <= k < lineBuffer.Length ==> lineBuffer[k] == old(lineBuffer[k])
    {
      var buf := lineBuffer;
      var col := 0;
      while col < cw
        invariant 0 <= col <= cw
        invariant forall k :: 0 <= k < col ==> buf[k] == be
        invariant forall k :: pushW <= k < pushW + col ==> buf[k] == be
        invariant forall k :: col <= k < pushW || pushW + col <= k < buf.Length ==> buf[k] == old(buf[k])
      {
        buf[col] := be;
        buf[pushW + col] := be;
        col := col + 1;
      }
      if cw % 2 == 1 {
        // duplicate the last column into the padding column
        buf[pushW - 1] := be;
        buf[pushW + pushW - 1] := be;
      }
    }

    /**
     * One push of the second loop of fillRect, the strip at index i: on success the series
     * from i equals this push followed by the series from i + 1; on failure it is this push.
     */
    method PushStrip(xs: int, yPush: int, pushW: int, ghost ys: int, ghost ch: int, ghost i: nat) returns (ok: bool)
      requires panel != null && pushW > 0 && i < (ch + 1) / 2 && StripY(ys, ch, 2 * i) == yPush
      modifies panel.io
      ensures panel.Geom() == old(panel.Geom())
      ensures var r := StripsRun(panel.Geom(), controllerId, xs, pushW, ys, ch, i, panel.io.rejects, |old(panel.io.trace)|);
        && (ok ==> var rest := StripsRun(panel.Geom(), controllerId, xs, pushW, ys, ch, i + 1, panel.io.rejects, |panel.io.trace|);
                     old(panel.io.trace) + r.events == panel.io.trace + rest.events && r.status == rest.status)
        && (!ok ==> panel.io.trace == old(panel.io.trace) + r.events && r.status != Ok)
    {
      ghost var g, id, head := panel.Geom(), controllerId, panel.io.trace;
      ghost var push := DrawRun(g, PanelWindow(id, xs, yPush, pushW, 2), panel.io.rejects, |head|);
      ghost var rest := StripsRun(g, id, xs, pushW, ys, ch, i + 1, panel.io.rejects, |head| + 3);
      ok := PushToPanel(xs, yPush, pushW, 2);
      if ok {
        AppendAssoc(head, push.events, rest.events);
      }
    }

    /** The second loop of fillRect: the two-row strips, top to bottom, stopping at the first failed push. */
    method PushStrips(xs: int, pushW: int, ys: int, ch: int) returns (ok: bool)
      requires panel != null && pushW > 0 && ch > 0
      modifies panel.io
      ensures var r := StripsRun(panel.Geom(), controllerId, xs, pushW, ys, ch, 0,
                                 panel.io.rejects, |old(panel.io.trace)|);
        panel.io.trace == old(panel.io.trace) + r.events && ok == (r.status == Ok)
    {
      var io := panel.io;
      ghost var g, id := panel.Geom(), controllerId;
      ghost var full := StripsRun(g, id, xs, pushW, ys, ch, 0, io.rejects, |io.trace|);
      ghost var i := 0;
      var row := 0;
      while row < ch
        invariant row == 2 * i && 0 <= i <= (ch + 1) / 2
        invariant panel.Geom() == g
        invariant var r := StripsRun(g, id, xs, pushW, ys, ch, i, io.rejects, |io.trace|);
          old(io.trace) + full.events == io.trace + r.events && full.status == r.status
      {
        var yPush := ys + row;
        if ch % 2 == 1 && row == ch - 1 {
          // last single line: shift up to keep the height 2 on screen
          if yPush > ys {
            yPush := yPush - 1;
          }
        }
        ok := PushStrip(xs, yPush, pushW, ys, ch, i);
        if !ok {
          return false;
        }
        row, i := row + 2, i + 1;
      }
      assert io.trace + [] == io.trace;
      return true;
    }

    /**
     * fillRect: checks and clip, a two-row buffer of the byte-swapped colour, then the
     * strips.  The buffer must exist once something is to be drawn (the source writes it
     * unchecked).
     */
    method FillRect(x: Int16, y: Int16, w: Int16, h: Int16, color: Uint16) returns (ok: bool)
      requires Valid()
      requires panel != null && FillPlanOf(x as int, y as int, w as int, h as int).Strips? ==> lineBuffer != null
      modifies lineBuffer, Io()
      ensures panel == null ==> !ok
      ensures panel != null ==>
        var r := FillRectRun(panel.Geom(), controllerId, x as int, y as int, w as int, h as int,
                             panel.io.rejects, |old(panel.io.trace)|);
        panel.io.trace == old(panel.io.trace) + r.events && ok == (r.status == Ok)
      ensures var plan := FillPlanOf(x as int, y as int, w as int, h as int);
        panel != null && plan.Strips? ==>
          && Holds(lineBuffer, 2 * PushWidth(plan.cw), ToBE565(color))
          && forall k :: 2 * PushWidth(plan.cw) <= k < lineBuffer.Length ==> lineBuffer[k] == old(lineBuffer[k])
      ensures var plan := FillPlanOf(x as int, y as int, w as int, h as int);
        lineBuffer != null && !(panel != null && plan.Strips?) ==> unchanged(lineBuffer)
    {
      if panel == null || w <= 0 || h <= 0 {
        return false;
      }
      ghost var g, id, io, n := panel.Geom(), controllerId, panel.io, |panel.io.trace|;
      // clip
      var xs, ys, xe, ye := Max(x as int, 0), Max(y as int, 0), Min(x as int + w as int, DISPLAY_WIDTH), Min(y as int + h as int, DISPLAY_HEIGHT);
      var cw, ch := xe - xs, ye - ys;
      if cw <= 0 || ch <= 0 {
        FillClipHidden(g, id, x as int, y as int, w as int, h as int, io.rejects, n, xs, cw, ys, ch);
        return true;
      }
      FillClipVisible(g, id, x as int, y as int, w as int, h as int, io.rejects, n, xs, cw, ys, ch);
      ok := FillClipped(xs, cw, ys, ch, color);
    }

    /** The part of fillRect after the clip, for a visible rectangle of cw x ch at (xs, ys). */
    method FillClipped(xs: int, cw: int, ys: int, ch: int, color: Uint16) returns (ok: bool)
      requires Valid() && panel != null && lineBuffer != null && 0 < cw <= DISPLAY_WIDTH && ch > 0
      modifies lineBuffer, panel.io
      ensures panel == old(panel) && panel.io == old(panel.io) && panel.Geom() == old(panel.Geom())
      ensures var r := StripsRun(panel.Geom(), controllerId, xs, PushWidth(cw), ys, ch, 0,
                                 panel.io.rejects, |old(panel.io.trace)|);
        panel.io.trace == old(panel.io.trace) + r.events && ok == (r.status == Ok)
      ensures Holds(lineBuffer, 2 * PushWidth(cw), ToBE565(color))
      ensures forall k :: 2 * PushWidth(cw) <= k < lineBuffer.Length ==> lineBuffer[k] == old(lineBuffer[k])
    {
      // an even width for the panel, and always two rows
      var padCol := cw % 2 == 1;
      var pushW := cw + (if padCol then 1 else 0);
      var be := ToBE565(color);
      FillLineBuffer(cw, pushW, be);
      ok := PushStrips(xs, pushW, ys, ch);
    }

    /** fillScreen: fillRect over the whole screen. */
    method FillScreen(color: Uint16) returns (ok: bool)
      requires Valid()
      requires panel != null ==> lineBuffer != null
      modifies lineBuffer, Io()
      ensures panel == null ==> !ok
      ensures panel != null ==>
        var r := FillRectRun(panel.Geom(), controllerId, 0, 0, DISPLAY_WIDTH, DISPLAY_HEIGHT,
                             panel.io.rejects, |old(panel.io.trace)|);
        panel.io.trace == old(panel.io.trace) + r.events && ok == (r.status == Ok)
      ensures panel != null ==> Holds(lineBuffer, 2 * DISPLAY_WIDTH, ToBE565(color))
    {
      ok := FillRect(0, 0, DISPLAY_WIDTH, DISPLAY_HEIGHT, color);
    }

    /** fillRect(x, y, w, h, Color565): the same as with the colour's 16-bit value. */
    method FillRectColor(x: Int16, y: Int16, w: Int16, h: Int16, color: Color565) returns (ok: bool)
      requires Valid()
      requires panel != null && FillPlanOf(x as int, y as int, w as int, h as int).Strips? ==> lineBuffer != null
      modifies lineBuffer, Io()
      ensures panel == null ==> !ok
      ensures panel != null ==>
        var r := FillRectRun(panel.Geom(), controllerId, x as int, y as int, w as int, h as int,
                             panel.io.rejects, |old(panel.io.trace)|);
        panel.io.trace == old(panel.io.trace) + r.events && ok == (r.status == Ok)
      ensures var plan := FillPlanOf(x as int, y as int, w as int, h as int);
        panel != null && plan.Strips? ==>
          && Holds(lineBuffer, 2 * PushWidth(plan.cw), ToBE565(color as int))
          && forall k :: 2 * PushWidth(plan.cw) <= k < lineBuffer.Length ==> lineBuffer[k] == old(lineBuffer[k])
      ensures var plan := FillPlanOf(x as int, y as int, w as int, h as int);
        lineBuffer != null && !(panel != null && plan.Strips?) ==> unchanged(lineBuffer)
    {
      ok := FillRect(x, y, w, h, color as int);
    }
  }

  /** Neither begin table names MADCTL or COLMOD: init leaves the registers as the panel was created. */
  lemma InitKeepsBeginRegisters(id: int, rejects: set<nat>, n: nat)
    ensures var r := InitRun(true, BEGIN_MADCTL, BEGIN_COLMOD, InitCmdsFor(id), rejects, n);
      r.madctl == BEGIN_MADCTL && r.colmod == BEGIN_COLMOD
  {
    var t := InitCmdsFor(id);
    if n !in rejects && n + 1 !in rejects {
      TableRunKeeps(true, t, rejects, n + 2, BEGIN_MADCTL, BEGIN_COLMOD);
      InitRunPastPreamble(true, BEGIN_MADCTL, BEGIN_COLMOD, t, rejects, n);
    }
  }
}
