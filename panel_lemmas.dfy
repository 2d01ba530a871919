/**
 * What the specification functions of the panel driver promise: how the init sequence
 * caches MADCTL / COLMOD, what it sends when the bus accepts everything, where it stops
 * when the bus rejects an entry, and what a draw puts on the wire.
 */
module PanelLemmas {
  import opened Types
  import opened Transport
  import opened PanelDriver

  /**
   * The transfer replaying an entry carries the entry's opcode (its low byte, in quad-SPI
   * mode) and exactly the first dataBytes bytes of its data.
   */
  lemma EntryEventSendsData(qspi: bool, c: InitCmd)
    requires WellFormedCmd(c)
    ensures var e := EntryEvent(qspi, c);
      && e.Param? && (qspi ==> WordOpcode(e.word) == c.cmd % 0x100) && (!qspi ==> e.word == c.cmd)
      && |e.bytes| == c.dataBytes && forall i :: 0 <= i < c.dataBytes ==> e.bytes[i] == c.data[i]
  {
  }

  /** A register that no entry of the table names keeps its value. */
  lemma {:induction false} CachedWithoutOverride(t: seq<InitCmd>, op: int, v: Uint8)
    requires WellFormedTable(t) && (op == LCD_CMD_MADCTL || op == LCD_CMD_COLMOD)
    requires forall k :: 0 <= k < |t| ==> t[k].cmd != op
    ensures Cached(t, op, v) == v
    decreases |t|
  {
    if t != [] {
      assert t[0].cmd != op;
      CachedWithoutOverride(t[1..], op, v);
    }
  }

  /** Otherwise the register holds the first data byte of the last entry that names it. */
  lemma {:induction false} CachedLastOverride(t: seq<InitCmd>, op: int, v: Uint8, k: nat)
    requires WellFormedTable(t) && (op == LCD_CMD_MADCTL || op == LCD_CMD_COLMOD)
    requires k < |t| && t[k].cmd == op
    requires forall j :: k < j < |t| ==> t[j].cmd != op
    ensures Cached(t, op, v) == t[k].data[0]
    decreases k
  {
    if k == 0 {
      CachedWithoutOverride(t[1..], op, t[0].data[0]);
    } else {
      CachedLastOverride(t[1..], op, Override(t[0], op, v), k - 1);
    }
  }

  /** With every entry accepted, the table is replayed in full and every override has been applied. */
  lemma {:induction false} TableRunAccepted(qspi: bool, t: seq<InitCmd>, rejects: set<nat>, n: nat, madctl: Uint8, colmod: Uint8)
    requires WellFormedTable(t)
    requires forall k :: 0 <= k < |t| ==> EntryAccepted(rejects, n, k)
    ensures TableRun(qspi, t, rejects, n, madctl, colmod)
      == InitResult(TableScript(qspi, t), Ok, Cached(t, LCD_CMD_MADCTL, madctl), Cached(t, LCD_CMD_COLMOD, colmod))
    decreases |t|
  {
    if t != [] {
      assert EntryAccepted(rejects, n, 0);
      var next := n + 2;
      forall k | 0 <= k < |t| - 1
        ensures EntryAccepted(rejects, next, k)
      {
        assert EntryAccepted(rejects, n, k + 1);
      }
      TableRunAccepted(qspi, t[1..], rejects, n + 2,
        Override(t[0], LCD_CMD_MADCTL, madctl), Override(t[0], LCD_CMD_COLMOD, colmod));
    }
  }

  /**
   * When entry j is the first one rejected, the run has sent the entries before it with
   * their delays and then entry j, no delay after it, nothing later; the cache holds the
   * overrides of entries 0..j, j included, since an entry updates the cache before it is sent.
   */
  lemma {:induction false} TableRunFirstFailure(qspi: bool, t: seq<InitCmd>, rejects: set<nat>, n: nat,
                                                madctl: Uint8, colmod: Uint8, j: nat)
    requires WellFormedTable(t) && j < |t|
    requires forall k :: 0 <= k < j ==> EntryAccepted(rejects, n, k)
    requires !EntryAccepted(rejects, n, j)
    ensures TableRun(qspi, t, rejects, n, madctl, colmod)
      == InitResult(TableScript(qspi, t[..j]) + [EntryEvent(qspi, t[j])], BusError,
                    Cached(t[..j + 1], LCD_CMD_MADCTL, madctl), Cached(t[..j + 1], LCD_CMD_COLMOD, colmod))
    decreases j
  {
    var m, c := Override(t[0], LCD_CMD_MADCTL, madctl), Override(t[0], LCD_CMD_COLMOD, colmod);
    if j == 0 {
      TableRunFailsAtFirst(qspi, t, rejects, n, madctl, colmod);
    } else {
      assert EntryAccepted(rejects, n, 0);
      var next := n + 2;
      forall k | 0 <= k < j - 1
        ensures EntryAccepted(rejects, next, k)
      {
        assert EntryAccepted(rejects, n, k + 1);
      }
      assert EntryAccepted(rejects, n + 2, j - 1) == EntryAccepted(rejects, n, j);
      TableRunFirstFailure(qspi, t[1..], rejects, n + 2, m, c, j - 1);
      TableRunFailureLift(qspi, t, rejects, n, madctl, colmod, j);
    }
  }

  /** A failure at entry j - 1 of t[1..], after an accepted entry 0, is a failure at entry j of t. */
  lemma TableRunFailureLift(qspi: bool, t: seq<InitCmd>, rejects: set<nat>, n: nat, madctl: Uint8, colmod: Uint8, j: nat)
    requires WellFormedTable(t) && 0 < j < |t| && n !in rejects
    requires var m, c := Override(t[0], LCD_CMD_MADCTL, madctl), Override(t[0], LCD_CMD_COLMOD, colmod);
      TableRun(qspi, t[1..], rejects, n + 2, m, c)
        == InitResult(TableScript(qspi, t[1..][..j - 1]) + [EntryEvent(qspi, t[1..][j - 1])], BusError,
                      Cached(t[1..][..j], LCD_CMD_MADCTL, m), Cached(t[1..][..j], LCD_CMD_COLMOD, c))
    ensures TableRun(qspi, t, rejects, n, madctl, colmod)
      == InitResult(TableScript(qspi, t[..j]) + [EntryEvent(qspi, t[j])], BusError,
                    Cached(t[..j + 1], LCD_CMD_MADCTL, madctl), Cached(t[..j + 1], LCD_CMD_COLMOD, colmod))
  {
    TableRunStep(qspi, t, rejects, n, madctl, colmod);
    PrefixStep(qspi, t, j, madctl, colmod);
  }

  /** A rejected first entry is sent alone, after updating the cache. */
  lemma TableRunFailsAtFirst(qspi: bool, t: seq<InitCmd>, rejects: set<nat>, n: nat, madctl: Uint8, colmod: Uint8)
    requires WellFormedTable(t) && t != [] && n in rejects
    ensures TableRun(qspi, t, rejects, n, madctl, colmod)
      == InitResult(TableScript(qspi, t[..0]) + [EntryEvent(qspi, t[0])], BusError,
                    Cached(t[..1], LCD_CMD_MADCTL, madctl), Cached(t[..1], LCD_CMD_COLMOD, colmod))
  {
    assert t[..1] == [t[0]] && t[..1][1..] == [];
    assert t[..0] == [];
  }

  /** An accepted first entry is sent with its delay, and the run goes on with the rest of the table. */
  lemma TableRunStep(qspi: bool, t: seq<InitCmd>, rejects: set<nat>, n: nat, madctl: Uint8, colmod: Uint8)
    requires WellFormedTable(t) && t != [] && n !in rejects
    ensures TableRun(qspi, t, rejects, n, madctl, colmod)
      == Resumed([EntryEvent(qspi, t[0]), Delay(t[0].delayMs)],
                 TableRun(qspi, t[1..], rejects, n + 2, Override(t[0], LCD_CMD_MADCTL, madctl), Override(t[0], LCD_CMD_COLMOD, colmod)))
  {
  }

  /** The prefix of t up to entry j, for 0 < j, is entry 0 followed by the prefix of t[1..] up to its entry j - 1. */
  lemma PrefixStep(qspi: bool, t: seq<InitCmd>, j: nat, madctl: Uint8, colmod: Uint8)
    requires WellFormedTable(t) && 0 < j < |t|
    ensures t[1..][j - 1] == t[j]
    ensures TableScript(qspi, t[..j]) + [EntryEvent(qspi, t[j])]
      == [EntryEvent(qspi, t[0]), Delay(t[0].delayMs)] + (TableScript(qspi, t[1..][..j - 1]) + [EntryEvent(qspi, t[j])])
    ensures Cached(t[..j + 1], LCD_CMD_MADCTL, madctl)
      == Cached(t[1..][..j], LCD_CMD_MADCTL, Override(t[0], LCD_CMD_MADCTL, madctl))
    ensures Cached(t[..j + 1], LCD_CMD_COLMOD, colmod)
      == Cached(t[1..][..j], LCD_CMD_COLMOD, Override(t[0], LCD_CMD_COLMOD, colmod))
  {
    assert t[..j][0] == t[0] && t[..j][1..] == t[1..][..j - 1];
    assert t[..j + 1][0] == t[0] && t[..j + 1][1..] == t[1..][..j];
    var head, tail := [EntryEvent(qspi, t[0]), Delay(t[0].delayMs)], TableScript(qspi, t[1..][..j - 1]);
    assert TableScript(qspi, t[..j]) == head + tail;
    AppendAssoc(head, tail, [EntryEvent(qspi, t[j])]);
  }

  /**
   * amoled_init on a bus that accepts everything: MADCTL and COLMOD with the cached values,
   * then every entry with its first dataBytes bytes followed by its delay; the cache ends
   * with every override of the table applied.
   */
  lemma InitAccepted(qspi: bool, madctl: Uint8, colmod: Uint8, t: seq<InitCmd>, rejects: set<nat>, n: nat)
    requires WellFormedTable(t)
    requires NoRejects(rejects, n, n + 2 + 2 * |t|)
    ensures InitRun(qspi, madctl, colmod, t, rejects, n)
      == InitResult([Param(ParamWord(qspi, LCD_CMD_MADCTL), [madctl]), Param(ParamWord(qspi, LCD_CMD_COLMOD), [colmod])]
                      + TableScript(qspi, t),
                    Ok, Cached(t, LCD_CMD_MADCTL, madctl), Cached(t, LCD_CMD_COLMOD, colmod))
  {
    assert n !in rejects && n + 1 !in rejects;
    var tableStart := n + 2;
    forall k | 0 <= k < |t|
      ensures EntryAccepted(rejects, tableStart, k)
    {
      assert n <= n + 2 + 2 * k < n + 2 + 2 * |t|;
    }
    TableRunAccepted(qspi, t, rejects, n + 2, madctl, colmod);
  }

  /** In amoled_init started at position n, table entry k is sent at position n + 2 + 2k. */
  predicate InitEntryAccepted(rejects: set<nat>, n: nat, k: nat) {
    EntryAccepted(rejects, n + 2, k)
  }

  /**
   * Whatever the bus rejects, a table run has sent a prefix of the full replay: it never
   * skips an entry or sends one out of order.
   */
  lemma {:induction false} TableRunSendsPrefix(qspi: bool, t: seq<InitCmd>, rejects: set<nat>, n: nat, madctl: Uint8, colmod: Uint8)
    requires WellFormedTable(t)
    ensures var r := TableRun(qspi, t, rejects, n, madctl, colmod);
      r.events == TableScript(qspi, t)[..|r.events|]
    decreases |t|
  {
    if t != [] {
      var head := [EntryEvent(qspi, t[0]), Delay(t[0].delayMs)];
      var tail := TableScript(qspi, t[1..]);
      assert TableScript(qspi, t) == head + tail;
      if n !in rejects {
        var m, c := Override(t[0], LCD_CMD_MADCTL, madctl), Override(t[0], LCD_CMD_COLMOD, colmod);
        var rest := TableRun(qspi, t[1..], rejects, n + 2, m, c);
        TableRunSendsPrefix(qspi, t[1..], rejects, n + 2, m, c);
        assert (head + tail)[..2 + |rest.events|] == head + tail[..|rest.events|];
      }
    }
  }

  /** A successful amoled_init has sent the two cached registers and then the whole table. */
  lemma InitSucceeds(qspi: bool, madctl: Uint8, colmod: Uint8, t: seq<InitCmd>, rejects: set<nat>, n: nat)
    requires WellFormedTable(t)
    requires InitRun(qspi, madctl, colmod, t, rejects, n).status == Ok
    ensures InitRun(qspi, madctl, colmod, t, rejects, n).events
      == [Param(ParamWord(qspi, LCD_CMD_MADCTL), [madctl]), Param(ParamWord(qspi, LCD_CMD_COLMOD), [colmod])]
         + TableScript(qspi, t)
  {
    InitRunPastPreamble(qspi, madctl, colmod, t, rejects, n);
    TableRunSendsPrefix(qspi, t, rejects, n + 2, madctl, colmod);
  }

  /** amoled_init stops at the first rejected table entry; overrides up to that entry remain. */
  lemma InitStopsAtEntry(qspi: bool, madctl: Uint8, colmod: Uint8, t: seq<InitCmd>, rejects: set<nat>, n: nat, j: nat)
    requires WellFormedTable(t) && j < |t|
    requires n !in rejects && n + 1 !in rejects
    requires forall k :: 0 <= k < j ==> InitEntryAccepted(rejects, n, k)
    requires !InitEntryAccepted(rejects, n, j)
    ensures InitRun(qspi, madctl, colmod, t, rejects, n)
      == InitResult([Param(ParamWord(qspi, LCD_CMD_MADCTL), [madctl]), Param(ParamWord(qspi, LCD_CMD_COLMOD), [colmod])]
                      + TableScript(qspi, t[..j]) + [EntryEvent(qspi, t[j])],
                    BusError, Cached(t[..j + 1], LCD_CMD_MADCTL, madctl), Cached(t[..j + 1], LCD_CMD_COLMOD, colmod))
  {
    var tableStart := n + 2;
    forall k | 0 <= k < j
      ensures EntryAccepted(rejects, tableStart, k)
    {
      assert InitEntryAccepted(rejects, n, k);
    }
    assert !EntryAccepted(rejects, tableStart, j);
    TableRunFirstFailure(qspi, t, rejects, tableStart, madctl, colmod, j);
  }

  /** A rejected MADCTL or COLMOD preamble ends amoled_init before the table, with the cache untouched. */
  lemma InitStopsInPreamble(qspi: bool, madctl: Uint8, colmod: Uint8, t: seq<InitCmd>, rejects: set<nat>, n: nat)
    requires WellFormedTable(t)
    requires n in rejects || n + 1 in rejects
    ensures var r := InitRun(qspi, madctl, colmod, t, rejects, n);
      && r.status == BusError && r.madctl == madctl && r.colmod == colmod
      && r.events == if n in rejects then [Param(ParamWord(qspi, LCD_CMD_MADCTL), [madctl])]
                     else [Param(ParamWord(qspi, LCD_CMD_MADCTL), [madctl]), Param(ParamWord(qspi, LCD_CMD_COLMOD), [colmod])]
  {
  }

  /** A table run over entries that never name MADCTL or COLMOD ends with the registers it started with. */
  lemma {:induction false} TableRunKeeps(qspi: bool, t: seq<InitCmd>, rejects: set<nat>, n: nat, madctl: Uint8, colmod: Uint8)
    requires WellFormedTable(t)
    requires forall k :: 0 <= k < |t| ==> t[k].cmd != LCD_CMD_MADCTL && t[k].cmd != LCD_CMD_COLMOD
    ensures var r := TableRun(qspi, t, rejects, n, madctl, colmod);
      r.madctl == madctl && r.colmod == colmod
    decreases |t|
  {
    if t != [] {
      assert t[0].cmd != LCD_CMD_MADCTL && t[0].cmd != LCD_CMD_COLMOD;
      TableRunKeeps(qspi, t[1..], rejects, n + 2, madctl, colmod);
    }
  }

  /** The default table names neither MADCTL nor COLMOD, so it keeps the values set at construction. */
  lemma DefaultTableKeepsRegisters(madctl: Uint8, colmod: Uint8)
    ensures Cached(VENDOR_SPECIFIC_INIT_DEFAULT, LCD_CMD_MADCTL, madctl) == madctl
    ensures Cached(VENDOR_SPECIFIC_INIT_DEFAULT, LCD_CMD_COLMOD, colmod) == colmod
  {
    CachedWithoutOverride(VENDOR_SPECIFIC_INIT_DEFAULT, LCD_CMD_MADCTL, madctl);
    CachedWithoutOverride(VENDOR_SPECIFIC_INIT_DEFAULT, LCD_CMD_COLMOD, colmod);
  }

  /**
   * What a draw puts on the wire: CASET carries the gapped start and last column, RASET the
   * gapped start and last row, both as 16-bit big-endian values; RAMWR carries
   * width * height * bits-per-pixel / 8 bytes, whatever the gaps are.
   */
  lemma DrawEventsEncodeWindow(g: Geometry, w: Window)
    ensures var s := DrawEvents(g, w);
      && s[0].Param? && s[0].word == ParamWord(g.qspi, LCD_CMD_CASET)
      && Be16(s[0].bytes[0], s[0].bytes[1]) == (w.xStart + g.xGap) % 0x1_0000
      && Be16(s[0].bytes[2], s[0].bytes[3]) == (w.xEnd - 1 + g.xGap) % 0x1_0000
      && s[1].Param? && s[1].word == ParamWord(g.qspi, LCD_CMD_RASET)
      && Be16(s[1].bytes[0], s[1].bytes[1]) == (w.yStart + g.yGap) % 0x1_0000
      && Be16(s[1].bytes[2], s[1].bytes[3]) == (w.yEnd - 1 + g.yGap) % 0x1_0000
      && s[2].Color? && s[2].word == ColorWord(g.qspi, LCD_CMD_RAMWR)
      && s[2].len == (w.xEnd - w.xStart) * (w.yEnd - w.yStart) * g.bitsPerPixel / 8
  {
  }

  /** A 16-bit coordinate comes back from its two payload bytes unchanged. */
  lemma AddressPayloadRoundTrip(start: int, end: int)
    requires 0 <= start < 0x1_0000 && 1 <= end <= 0x1_0000
    ensures var p := AddressPayload(start, end);
      Be16(p[0], p[1]) == start && Be16(p[2], p[3]) == end - 1
  {
  }
}
