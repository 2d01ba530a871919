/**
 * What the compositor's runs promise: the rows fillRect pushes, the strip series on a bus
 * that accepts everything and at its first failure, the windows of drawBitmap and
 * drawArea, begin on a healthy bus, and the object before begin.
 */
module CompositorLemmas {
  import opened Types
  import opened Transport
  import opened PanelDriver
  import opened PanelLemmas
  import opened Board
  import opened Compositor

  // ---------------------------------------------------------------------------------
  // The strips of fillRect

  /** Row r of the screen is painted by one of the two-row strips pushed at `strips`. */
  predicate RowPushed(strips: seq<int>, r: int) {
    exists k :: 0 <= k < |strips| && strips[k] <= r < strips[k] + 2
  }

  /**
   * The strip pushed for a row starts at that row or one above it, so it paints the row,
   * and never above the clipped rectangle; for a height of two rows or more it also ends
   * inside the rectangle.
   */
  lemma StripYCoversRow(ys: int, ch: int, row: int)
    requires 0 <= row < ch && row % 2 == 0
    ensures ys <= StripY(ys, ch, row) <= ys + row <= StripY(ys, ch, row) + 1
    ensures 2 <= ch ==> StripY(ys, ch, row) + 2 <= ys + ch
  {
  }

  /** The strips are pushed top to bottom: their rows strictly increase. */
  lemma FillStripsAscend(ys: int, ch: int)
    requires ch > 0
    ensures forall j, k :: 0 <= j < k < |FillStrips(ys, ch)| ==> FillStrips(ys, ch)[j] < FillStrips(ys, ch)[k]
  {
    var strips := FillStrips(ys, ch);
    forall j, k | 0 <= j < k < |strips|
      ensures strips[j] < strips[k]
    {
      FillStripAt(ys, ch, j);
      FillStripAt(ys, ch, k);
      StripYCoversRow(ys, ch, 2 * j);
      StripYCoversRow(ys, ch, 2 * k);
    }
  }

  /**
   * For a clipped height of at least two rows, fillRect makes ceil(ch / 2) pushes, every
   * strip lies inside the rows [ys, ys + ch), and together they paint each of those rows:
   * the strips cover exactly the clipped rows.
   */
  lemma StripsCoverRows(ys: int, ch: int)
    requires ch >= 2
    ensures |FillStrips(ys, ch)| == (ch + 1) / 2
    ensures forall k :: 0 <= k < |FillStrips(ys, ch)| ==>
      ys <= FillStrips(ys, ch)[k] && FillStrips(ys, ch)[k] + 2 <= ys + ch
    ensures forall r :: ys <= r < ys + ch ==> RowPushed(FillStrips(ys, ch), r)
  {
    var strips := FillStrips(ys, ch);
    FillStripAt(ys, ch, 0);
    forall k | 0 <= k < |strips|
      ensures ys <= strips[k] && strips[k] + 2 <= ys + ch
    {
      FillStripAt(ys, ch, k);
    }
    forall r | ys <= r < ys + ch
      ensures RowPushed(strips, r)
    {
      var k := (r - ys) / 2;
      FillStripAt(ys, ch, k);
      assert strips[k] <= r < strips[k] + 2;
    }
  }

  /**
   * A clipped height of one row: a single strip at ys, which also paints row ys + 1 (the
   * strip is never moved up past ys).
   */
  lemma SingleRowStrip(ys: int)
    ensures FillStrips(ys, 1) == [ys]
    ensures RowPushed(FillStrips(ys, 1), ys) && RowPushed(FillStrips(ys, 1), ys + 1)
  {
    FillStripAt(ys, 1, 0);
    assert FillStrips(ys, 1)[0] == ys;
  }

  /** An even height: strip k sits at row ys + 2k. */
  lemma EvenHeightStrips(ys: int, ch: int)
    requires ch > 0 && ch % 2 == 0
    ensures |FillStrips(ys, ch)| == ch / 2
    ensures forall k :: 0 <= k < |FillStrips(ys, ch)| ==> FillStrips(ys, ch)[k] == ys + 2 * k
  {
    FillStripAt(ys, ch, 0);
    forall k | 0 <= k < |FillStrips(ys, ch)|
      ensures FillStrips(ys, ch)[k] == ys + 2 * k
    {
      FillStripAt(ys, ch, k);
    }
  }

  /** An odd height of three rows or more: the strips sit at ys + 2k, except the last, which moves up to ys + ch - 2. */
  lemma OddHeightLastStrip(ys: int, ch: int)
    requires ch >= 3 && ch % 2 == 1
    ensures |FillStrips(ys, ch)| == (ch + 1) / 2
    ensures FillStrips(ys, ch)[(ch + 1) / 2 - 1] == ys + ch - 2
    ensures forall k :: 0 <= k < |FillStrips(ys, ch)| - 1 ==> FillStrips(ys, ch)[k] == ys + 2 * k
  {
    FillStripAt(ys, ch, (ch + 1) / 2 - 1);
    forall k | 0 <= k < |FillStrips(ys, ch)| - 1
      ensures FillStrips(ys, ch)[k] == ys + 2 * k
    {
      FillStripAt(ys, ch, k);
    }
  }

  /** The widest strip fits the line buffer: 2 * push_w never exceeds the 932 entries reserveLineBuffer allocates. */
  lemma LineBufferFits(cw: int)
    requires 0 < cw <= DISPLAY_WIDTH
    ensures LINE_BUFFER_CAPACITY == 932 && 2 * PushWidth(cw) <= LINE_BUFFER_CAPACITY
  {
  }

  /** fillScreen: one rectangle of 466 x 466, pushed as 233 strips of 466 columns at rows 0, 2, ..., 464. */
  lemma FillScreenPlan()
    ensures FillPlanOf(0, 0, DISPLAY_WIDTH, DISPLAY_HEIGHT) == Strips(0, DISPLAY_WIDTH, 0, DISPLAY_HEIGHT)
    ensures PushWidth(DISPLAY_WIDTH) == DISPLAY_WIDTH
    ensures |FillStrips(0, DISPLAY_HEIGHT)| == 233
    ensures forall k :: 0 <= k < 233 ==> FillStrips(0, DISPLAY_HEIGHT)[k] == 2 * k
  {
    EvenHeightStrips(0, DISPLAY_HEIGHT);
  }

  /**
   * The padding column and the single-row strip reach past the clipped rectangle, and so
   * past the screen: filling the bottom-right pixel on the SH8601 pushes the 2 x 2 window
   * of columns and rows 465 and 466 on a 466 x 466 panel.
   */
  lemma CornerPixelPushPastEdge()
    ensures FillPlanOf(465, 465, 1, 1) == Strips(465, 1, 465, 1)
    ensures PushWidth(1) == 2 && FillStrips(465, 1) == [465]
    ensures PanelWindow(SH8601_ID, 465, FillStrips(465, 1)[0], PushWidth(1), 2) == Window(465, 465, 467, 467)
  {
    SingleRowStrip(465);
  }

  // ---------------------------------------------------------------------------------
  // The strip series on the bus

  /** The transfers of the accepted pushes i until j of a strip series. */
  function StripsScript(g: Geometry, id: int, xs: int, pw: int, ys: int, ch: int, i: nat, j: nat): (s: seq<Event>)
    requires i <= j
    ensures |s| == 3 * (j - i)
    decreases j - i
  {
    if i == j then []
    else DrawEvents(g, PanelWindow(id, xs, StripY(ys, ch, 2 * i), pw, 2)) + StripsScript(g, id, xs, pw, ys, ch, i + 1, j)
  }

  /** Every push accepted: each strip's CASET, RASET and RAMWR in order, and success. */
  lemma {:induction false} StripsRunAccepted(g: Geometry, id: int, xs: int, pw: int, ys: int, ch: int, i: nat,
                                             rejects: set<nat>, n: nat)
    requires i <= (ch + 1) / 2
    requires forall k :: 0 <= k < (ch + 1) / 2 - i ==> PushAccepted(rejects, n, k)
    ensures StripsRun(g, id, xs, pw, ys, ch, i, rejects, n)
      == Outcome(StripsScript(g, id, xs, pw, ys, ch, i, (ch + 1) / 2), Ok)
    decreases (ch + 1) / 2 - i
  {
    if i < (ch + 1) / 2 {
      assert PushAccepted(rejects, n, 0);
      var next := n + 3;
      forall k | 0 <= k < (ch + 1) / 2 - (i + 1)
        ensures PushAccepted(rejects, next, k)
      {
        assert PushAccepted(rejects, n, k + 1);
      }
      StripsRunAccepted(g, id, xs, pw, ys, ch, i + 1, rejects, next);
      StripsRunAcceptedLift(g, id, xs, pw, ys, ch, i, rejects, n);
    }
  }

  /** An accepted push in front of an accepted series from i + 1 is an accepted series from i. */
  lemma StripsRunAcceptedLift(g: Geometry, id: int, xs: int, pw: int, ys: int, ch: int, i: nat, rejects: set<nat>, n: nat)
    requires i < (ch + 1) / 2 && PushAccepted(rejects, n, 0)
    requires StripsRun(g, id, xs, pw, ys, ch, i + 1, rejects, n + 3)
      == Outcome(StripsScript(g, id, xs, pw, ys, ch, i + 1, (ch + 1) / 2), Ok)
    ensures StripsRun(g, id, xs, pw, ys, ch, i, rejects, n)
      == Outcome(StripsScript(g, id, xs, pw, ys, ch, i, (ch + 1) / 2), Ok)
  {
  }

  /**
   * Pushes i until j accepted and push j rejected: the series ends with BusError after the
   * transfers of push j that were attempted, and no later strip is pushed.
   */
  lemma {:induction false} StripsRunFirstFailure(g: Geometry, id: int, xs: int, pw: int, ys: int, ch: int,
                                                 i: nat, j: nat, rejects: set<nat>, n: nat, m: nat)
    requires i <= j < (ch + 1) / 2 && m == n + 3 * (j - i)
    requires forall k :: 0 <= k < j - i ==> PushAccepted(rejects, n, k)
    requires !PushAccepted(rejects, n, j - i)
    ensures var last := DrawRun(g, PanelWindow(id, xs, StripY(ys, ch, 2 * j), pw, 2), rejects, m);
      StripsRun(g, id, xs, pw, ys, ch, i, rejects, n)
        == Outcome(StripsScript(g, id, xs, pw, ys, ch, i, j) + last.events, BusError)
    decreases j - i
  {
    var last := DrawRun(g, PanelWindow(id, xs, StripY(ys, ch, 2 * j), pw, 2), rejects, m);
    if i == j {
      assert StripsScript(g, id, xs, pw, ys, ch, i, j) == [];
      assert [] + last.events == last.events;
    } else {
      var next := n + 3;
      forall k | 0 <= k < j - (i + 1)
        ensures PushAccepted(rejects, next, k)
      {
        assert PushAccepted(rejects, n, k + 1);
      }
      assert PushAccepted(rejects, next, j - (i + 1)) == PushAccepted(rejects, n, j - i);
      StripsRunFirstFailure(g, id, xs, pw, ys, ch, i + 1, j, rejects, next, m);
      StripsRunPrepend(g, id, xs, pw, ys, ch, i, j, rejects, n, last);
    }
  }

  /** `len` transfers are k full pushes and then the CASET, or the CASET and RASET, of one more. */
  predicate EndsInsidePush(len: nat, k: nat) {
    len == 3 * k + 1 || len == 3 * k + 2
  }

  /**
   * A failed series ends inside one of its pushes, after that push's CASET or RASET: no
   * RAMWR is sent for a window whose address was not set, and no later push follows.
   */
  lemma {:induction false} StripsRunFailsInsidePush(g: Geometry, id: int, xs: int, pw: int, ys: int, ch: int, i: nat,
                                                    rejects: set<nat>, n: nat)
    requires i <= (ch + 1) / 2
    ensures var r := StripsRun(g, id, xs, pw, ys, ch, i, rejects, n);
      r.status == BusError ==> exists k :: 0 <= k < (ch + 1) / 2 - i && EndsInsidePush(|r.events|, k)
    decreases (ch + 1) / 2 - i
  {
    if i < (ch + 1) / 2 {
      var push := DrawRun(g, PanelWindow(id, xs, StripY(ys, ch, 2 * i), pw, 2), rejects, n);
      if push.status != Ok {
        assert EndsInsidePush(|push.events|, 0);
      } else {
        var rest := StripsRun(g, id, xs, pw, ys, ch, i + 1, rejects, n + 3);
        StripsRunFailsInsidePush(g, id, xs, pw, ys, ch, i + 1, rejects, n + 3);
        if rest.status == BusError {
          var k :| 0 <= k < (ch + 1) / 2 - (i + 1) && EndsInsidePush(|rest.events|, k);
          assert EndsInsidePush(|push.events + rest.events|, k + 1);
        }
      }
    }
  }

  /** One accepted push in front of a series from i + 1 that ends with `last`. */
  lemma StripsRunPrepend(g: Geometry, id: int, xs: int, pw: int, ys: int, ch: int,
                         i: nat, j: nat, rejects: set<nat>, n: nat, last: Outcome)
    requires i < j < (ch + 1) / 2 && PushAccepted(rejects, n, 0)
    requires StripsRun(g, id, xs, pw, ys, ch, i + 1, rejects, n + 3)
      == Outcome(StripsScript(g, id, xs, pw, ys, ch, i + 1, j) + last.events, BusError)
    ensures StripsRun(g, id, xs, pw, ys, ch, i, rejects, n)
      == Outcome(StripsScript(g, id, xs, pw, ys, ch, i, j) + last.events, BusError)
  {
    var push := DrawRun(g, PanelWindow(id, xs, StripY(ys, ch, 2 * i), pw, 2), rejects, n);
    var tail := StripsScript(g, id, xs, pw, ys, ch, i + 1, j);
    assert StripsScript(g, id, xs, pw, ys, ch, i, j) == push.events + tail;
    AppendAssoc(push.events, tail, last.events);
  }

  /** fillRect on a rectangle that shows, on a bus that accepts every push: ceil(ch / 2) pushes, 3 transfers each, and success. */
  lemma FillRectAccepted(g: Geometry, id: int, x: int, y: int, w: int, h: int, rejects: set<nat>, n: nat)
    requires FillPlanOf(x, y, w, h).Strips?
    requires forall k :: 0 <= k < (FillPlanOf(x, y, w, h).ch + 1) / 2 ==> PushAccepted(rejects, n, k)
    ensures var p := FillPlanOf(x, y, w, h);
      FillRectRun(g, id, x, y, w, h, rejects, n)
        == Outcome(StripsScript(g, id, p.xs, PushWidth(p.cw), p.ys, p.ch, 0, (p.ch + 1) / 2), Ok)
    ensures |FillRectRun(g, id, x, y, w, h, rejects, n).events| == 3 * ((FillPlanOf(x, y, w, h).ch + 1) / 2)
  {
    var p := FillPlanOf(x, y, w, h);
    StripsRunAccepted(g, id, p.xs, PushWidth(p.cw), p.ys, p.ch, 0, rejects, n);
  }

  // ---------------------------------------------------------------------------------
  // drawBitmap and drawArea

  /** drawBitmap with a visible bitmap: one push at the clipped origin, with the bitmap's own width and height. */
  lemma BitmapPushOrigin(g: Geometry, id: int, x: int, y: int, w: int, h: int, rejects: set<nat>, n: nat)
    requires w > 0 && h > 0 && x < DISPLAY_WIDTH && x + w > 0 && y < DISPLAY_HEIGHT && y + h > 0
    ensures BitmapRun(g, id, x, y, w, h, rejects, n) == DrawRun(g, PanelWindow(id, Max(x, 0), Max(y, 0), w, h), rejects, n)
  {
  }

  /** drawBitmap refuses a bitmap of no size, and succeeds without a transfer for one off the screen. */
  lemma BitmapNoPush(g: Geometry, id: int, x: int, y: int, w: int, h: int, rejects: set<nat>, n: nat)
    ensures w <= 0 || h <= 0 ==> BitmapRun(g, id, x, y, w, h, rejects, n) == Outcome([], InvalidArg)
    ensures w > 0 && h > 0 && (x >= DISPLAY_WIDTH || x + w <= 0 || y >= DISPLAY_HEIGHT || y + h <= 0) ==>
      BitmapRun(g, id, x, y, w, h, rejects, n) == Outcome([], Ok)
  {
    if w > 0 && h > 0 {
      var cx, cy := ClipSpan(x, w, DISPLAY_WIDTH), ClipSpan(y, h, DISPLAY_HEIGHT);
      assert cx.size > 0 <==> x < DISPLAY_WIDTH && x + w > 0;
      assert cy.size > 0 <==> y < DISPLAY_HEIGHT && y + h > 0;
    }
  }

  /**
   * The window is not clipped to the screen: a 20 x 10 bitmap at (460, 0) on the SH8601
   * asks for columns 460 to 479 of a 466-column panel.
   */
  lemma BitmapWindowNotClipped(g: Geometry, rejects: set<nat>, n: nat)
    ensures BitmapRun(g, SH8601_ID, 460, 0, 20, 10, rejects, n) == DrawRun(g, Window(460, 0, 480, 10), rejects, n)
  {
    BitmapPushOrigin(g, SH8601_ID, 460, 0, 20, 10, rejects, n);
  }

  /**
   * drawArea applies no column offset, so on the CO5300 it addresses other columns than
   * pushToPanel does for the same block.
   */
  lemma AreaWindowHasNoOffset(x1: Uint32, y1: Uint32, x2: Uint32, y2: Uint32)
    requires x1 <= x2 < 0x7FFF_FFFF && y1 <= y2 < 0x7FFF_FFFF
    ensures AreaWindow(x1, y1, x2, y2) == Window(x1, y1, x2 + 1, y2 + 1)
    ensures PanelWindow(CO5300_ID, x1, y1, x2 + 1 - x1, y2 + 1 - y1) == Window(x1 + 6, y1, x2 + 7, y2 + 1)
    ensures PanelWindow(SH8601_ID, x1, y1, x2 + 1 - x1, y2 + 1 - y1) == AreaWindow(x1, y1, x2, y2)
  {
  }

  /** The `uint32_t` addition of drawArea wraps: a last column of 0xFFFFFFFF gives an end column of 0. */
  lemma AreaWindowWraps(x1: Uint32, y1: Uint32, y2: Uint32)
    ensures AreaWindow(x1, y1, 0xFFFF_FFFF, y2).xEnd == 0
  {
  }

  // ---------------------------------------------------------------------------------
  // begin

  /**
   * begin on a bus that accepts everything: the reset pulse, MADCTL 0 and COLMOD 0x55, every
   * entry of the controller's table with its delay, then DISPON, and success.
   */
  lemma BeginAccepted(id: int, rejects: set<nat>, n: nat)
    requires NoRejects(rejects, n + 4, n + 4 + 2 + 2 * |InitCmdsFor(id)| + 1)
    ensures BeginRun(id, rejects, n)
      == Outcome(RESET_PULSE
                   + ([Param(ParamWord(true, LCD_CMD_MADCTL), [BEGIN_MADCTL]), Param(ParamWord(true, LCD_CMD_COLMOD), [BEGIN_COLMOD])]
                      + TableScript(true, InitCmdsFor(id)))
                   + [Param(ParamWord(true, LCD_CMD_DISPON), [])],
                 Ok)
  {
    var t := InitCmdsFor(id);
    var reset := ResetRun(PIN_NUM_LCD_RST, false, true, rejects, n);
    var m := n + |reset.events|;
    assert m == n + 4;
    InitAccepted(true, BEGIN_MADCTL, BEGIN_COLMOD, t, rejects, m);
    var init := InitRun(true, BEGIN_MADCTL, BEGIN_COLMOD, InitCmdsFor(id), rejects, m);
    assert |init.events| == 2 + 2 * |t|;
    var on := SendRun(Param(ParamWord(true, LCD_CMD_DISPON), []), rejects, m + |init.events|);
    assert m + |init.events| !in rejects;
    BeginRunSteps(id, rejects, n, reset, init, on);
  }

  /** A begin that succeeded has sent exactly what it sends on a bus that accepts everything. */
  lemma BeginSucceeds(id: int, rejects: set<nat>, n: nat)
    requires BeginRun(id, rejects, n).status == Ok
    ensures BeginRun(id, rejects, n).events
      == RESET_PULSE
         + ([Param(ParamWord(true, LCD_CMD_MADCTL), [BEGIN_MADCTL]), Param(ParamWord(true, LCD_CMD_COLMOD), [BEGIN_COLMOD])]
            + TableScript(true, InitCmdsFor(id)))
         + [Param(ParamWord(true, LCD_CMD_DISPON), [])]
  {
    var reset := ResetRun(PIN_NUM_LCD_RST, false, true, rejects, n);
    var m := n + |reset.events|;
    var init := InitRun(true, BEGIN_MADCTL, BEGIN_COLMOD, InitCmdsFor(id), rejects, m);
    var on := SendRun(Param(ParamWord(true, LCD_CMD_DISPON), []), rejects, m + |init.events|);
    BeginRunSteps(id, rejects, n, reset, init, on);
    InitSucceeds(true, BEGIN_MADCTL, BEGIN_COLMOD, InitCmdsFor(id), rejects, m);
  }

  // ---------------------------------------------------------------------------------
  // The object before begin

  /** A new object has no panel: drawBitmap and fillRect return false before begin. */
  method BeforeBegin(x: Int16, y: Int16, w: Int16, h: Int16, color: Uint16) returns (drew: bool, filled: bool)
    ensures !drew && !filled
  {
    var display := new Amoled();
    drew := display.DrawBitmap(x, y, true, w, h);
    filled := display.FillRect(x, y, w, h, color);
  }
}
