/**
 * The command transport of low_level_amoled.c (tx_param, tx_color) and the bus it talks to.
 *
 * The bus is an append-only trace of what the driver does to the outside world, in order:
 * parameter transfers, colour transfers, reset-line levels and delays.  Whether the bus
 * accepts a transfer is decided by an oracle fixed when the bus is created: the transfer
 * recorded at trace position p is rejected exactly when p is in `rejects`.  Line levels
 * and delays cannot fail.
 */
module Transport {
  import opened Types

  datatype Event =
    | Param(word: int, bytes: seq<Uint8>)   // esp_lcd_panel_io_tx_param
    | Color(word: int, len: int)            // esp_lcd_panel_io_tx_color (the pixels themselves are not modelled)
    | Gpio(level: bool)                     // gpio_set_level on the reset line
    | Delay(ms: nat)                        // vTaskDelay

  /** The `esp_err_t` results that the core distinguishes. */
  datatype Status =
    | Ok              // ESP_OK
    | InvalidArg      // ESP_ERR_INVALID_ARG
    | NoMem           // ESP_ERR_NO_MEM
    | NotSupported    // ESP_ERR_NOT_SUPPORTED
    | BusError        // whatever error the panel IO reported for a rejected transfer
    | GpioError       // whatever error gpio_config reported

  /** The events an operation emits and the status it returns. */
  datatype Outcome = Outcome(events: seq<Event>, status: Status)

  /** True when no transfer at a trace position in [lo, hi) is rejected. */
  ghost predicate NoRejects(rejects: set<nat>, lo: nat, hi: nat) {
    forall p :: lo <= p < hi ==> p !in rejects
  }

  /** Regrouping appended traces; stated on values so that callers need not re-derive it in a large context. */
  lemma AppendAssoc<T>(a: seq<T>, b: seq<T>, c: seq<T>)
    ensures (a + b) + c == a + (b + c)
  {
  }

  /** Sending one transfer at trace position n. */
  function SendRun(e: Event, rejects: set<nat>, n: nat): (r: Outcome)
    ensures r.events == [e]
    ensures r.status == Ok <==> n !in rejects
    ensures r.status == Ok || r.status == BusError
  {
    if n in rejects then Outcome([e], BusError) else Outcome([e], Ok)
  }

  class Bus {
    var trace: seq<Event>
    const rejects: set<nat>

    constructor (rejects: set<nat>)
      ensures trace == [] && this.rejects == rejects
    {
      trace := [];
      this.rejects := rejects;
    }

    method TxParam(word: int, bytes: seq<Uint8>) returns (ok: bool)
      modifies this
      ensures trace == old(trace) + [Param(word, bytes)]
      ensures ok == (|old(trace)| !in rejects)
    {
      ok := |trace| !in rejects;
      trace := trace + [Param(word, bytes)];
    }

    method TxColor(word: int, len: int) returns (ok: bool)
      modifies this
      ensures trace == old(trace) + [Color(word, len)]
      ensures ok == (|old(trace)| !in rejects)
    {
      ok := |trace| !in rejects;
      trace := trace + [Color(word, len)];
    }

    method SetLevel(level: bool)
      modifies this
      ensures trace == old(trace) + [Gpio(level)]
    {
      trace := trace + [Gpio(level)];
    }

    method Sleep(ms: nat)
      modifies this
      ensures trace == old(trace) + [Delay(ms)]
    {
      trace := trace + [Delay(ms)];
    }
  }

  /** Markers placed in the top byte of a quad-SPI command word (low_level_amoled.c:22-24). */
  const LCD_OPCODE_WRITE_CMD := 0x02
  const LCD_OPCODE_READ_CMD := 0x03
  const LCD_OPCODE_WRITE_COLOR := 0x32

  /**
   * The command word handed to the panel IO.  In quad-SPI mode the opcode is truncated to
   * 8 bits and shifted into bits 15..8, and the marker is placed in bits 31..24, so the word
   * has 32 bits with zero in bits 23..16 and 7..0; otherwise the opcode is passed on unchanged.
   */
  function CommandWord(qspi: bool, marker: Uint8, op: int): (w: int)
    ensures qspi ==> 0 <= w < 0x1_0000_0000
    ensures qspi ==> w / 0x100_0000 == marker
    ensures qspi ==> (w / 0x1_0000) % 0x100 == 0
    ensures qspi ==> WordOpcode(w) == op % 0x100
    ensures qspi ==> w % 0x100 == 0
    ensures !qspi ==> w == op
  {
    if qspi then
      var b := op % 0x100;
      var w := marker * 0x100_0000 + b * 0x100;
      assert w / 0x100 == marker * 0x1_0000 + b && w % 0x100 == 0;
      assert w / 0x1_0000 == marker * 0x100 && (w / 0x100) % 0x100 == b;
      w
    else op
  }

  /** Bits 15..8 of a command word: where the opcode sits in quad-SPI mode. */
  function WordOpcode(w: int): Uint8 {
    (w / 0x100) % 0x100
  }

  /** tx_param's command word: marker 0x02 in quad-SPI mode. */
  function ParamWord(qspi: bool, op: int): (w: int)
    ensures qspi ==> w / 0x100_0000 == LCD_OPCODE_WRITE_CMD && WordOpcode(w) == op % 0x100
    ensures !qspi ==> w == op
  {
    CommandWord(qspi, LCD_OPCODE_WRITE_CMD, op)
  }

  /** tx_color's command word: marker 0x32 in quad-SPI mode. */
  function ColorWord(qspi: bool, op: int): (w: int)
    ensures qspi ==> w / 0x100_0000 == LCD_OPCODE_WRITE_COLOR && WordOpcode(w) == op % 0x100
    ensures !qspi ==> w == op
  {
    CommandWord(qspi, LCD_OPCODE_WRITE_COLOR, op)
  }

  /** In quad-SPI mode a command word determines its marker and its opcode's low byte, and nothing else. */
  lemma CommandWordInjective(m1: Uint8, op1: int, m2: Uint8, op2: int)
    ensures CommandWord(true, m1, op1) == CommandWord(true, m2, op2) <==> m1 == m2 && op1 % 0x100 == op2 % 0x100
  {
    var w1, w2 := CommandWord(true, m1, op1), CommandWord(true, m2, op2);
    if w1 == w2 {
      assert m1 == w1 / 0x100_0000 == w2 / 0x100_0000 == m2;
      assert op1 % 0x100 == WordOpcode(w1) == WordOpcode(w2) == op2 % 0x100;
    }
  }

  /** In quad-SPI mode a colour transfer is never mistaken for a parameter transfer. */
  lemma ParamAndColorWordsDiffer(op1: int, op2: int)
    ensures ParamWord(true, op1) != ColorWord(true, op2)
  {
    CommandWordInjective(LCD_OPCODE_WRITE_CMD, op1, LCD_OPCODE_WRITE_COLOR, op2);
  }
}
