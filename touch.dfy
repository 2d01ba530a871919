/**
 * The FT3168 touch read (getTouch in FT3168.cpp): the touch-status register, then the four
 * coordinate registers holding two 12-bit values, each clamped to the screen.  The two I2C
 * reads are inputs: the status byte read from register 0x02 and the four bytes read from
 * register 0x03 on.
 */
module Touch {
  import opened Types
  import opened Board

  /** A 12-bit coordinate: the low nibble of `hi` above the byte `lo`. */
  function Decode12(hi: Uint8, lo: Uint8): (v: Uint16)
    ensures v < 0x1000
    ensures v / 0x100 == hi % 0x10 && v % 0x100 == lo
  {
    (hi % 0x10) * 0x100 + lo
  }

  /** The register pair of a 12-bit value, with the upper nibble of the first byte clear. */
  function Encode12(v: int): (regs: (Uint8, Uint8))
    requires 0 <= v < 0x1000
    ensures regs.0 < 0x10
  {
    (v / 0x100, v % 0x100)
  }

  /** Decoding the pair of a 12-bit value gives the value back. */
  lemma DecodeEncode(v: int)
    requires 0 <= v < 0x1000
    ensures Decode12(Encode12(v).0, Encode12(v).1) == v
  {
    var hi := v / 0x100;
    assert hi % 0x10 == hi;
    assert v == hi * 0x100 + v % 0x100;
  }

  /** The upper nibble of the first byte plays no part: two bytes with the same low nibble decode alike. */
  lemma UpperNibbleIgnored(hi: Uint8, lo: Uint8)
    ensures Decode12(hi, lo) == Decode12(hi % 0x10, lo)
    ensures forall k :: 0 <= k < 0x10 ==> Decode12((k * 0x10 + hi % 0x10) as Uint8, lo) == Decode12(hi, lo)
  {
    forall k | 0 <= k < 0x10
      ensures Decode12((k * 0x10 + hi % 0x10) as Uint8, lo) == Decode12(hi, lo)
    {
      var b := k * 0x10 + hi % 0x10;
      assert b % 0x10 == hi % 0x10;
    }
  }

  /** A coordinate past the screen edge becomes the edge itself. */
  function Clamp(v: Uint16, limit: Uint16): (r: Uint16)
    ensures r <= limit
    ensures v <= limit ==> r == v
    ensures v > limit ==> r == limit
  {
    if v > limit then limit else v
  }

  /** Clamping twice is clamping once. */
  lemma ClampIdempotent(v: Uint16, limit: Uint16)
    ensures Clamp(Clamp(v, limit), limit) == Clamp(v, limit)
  {
  }

  /** What getTouch reports. */
  datatype Reading = NoTouch | Touched(x: Uint16, y: Uint16)

  /** The reading for a status byte and the four coordinate bytes. */
  function ReadTouch(status: Uint8, regs: seq<Uint8>): (r: Reading)
    requires |regs| == 4
    ensures r.NoTouch? <==> status == 0
    ensures r.Touched? ==> r.x <= DISPLAY_WIDTH && r.y <= DISPLAY_HEIGHT
    ensures r.Touched? && Decode12(regs[0], regs[1]) <= DISPLAY_WIDTH ==> r.x == Decode12(regs[0], regs[1])
    ensures r.Touched? && Decode12(regs[2], regs[3]) <= DISPLAY_HEIGHT ==> r.y == Decode12(regs[2], regs[3])
    ensures r.Touched? && Decode12(regs[0], regs[1]) > DISPLAY_WIDTH ==> r.x == DISPLAY_WIDTH
    ensures r.Touched? && Decode12(regs[2], regs[3]) > DISPLAY_HEIGHT ==> r.y == DISPLAY_HEIGHT
  {
    if status == 0 then NoTouch
    else Touched(Clamp(Decode12(regs[0], regs[1]), DISPLAY_WIDTH), Clamp(Decode12(regs[2], regs[3]), DISPLAY_HEIGHT))
  }

  /** A point on the screen reported through its registers is reported unchanged. */
  lemma OnScreenPointReadBack(status: Uint8, x: int, y: int)
    requires status != 0 && 0 <= x <= DISPLAY_WIDTH && 0 <= y <= DISPLAY_HEIGHT
    ensures ReadTouch(status, [Encode12(x).0, Encode12(x).1, Encode12(y).0, Encode12(y).1]) == Touched(x, y)
  {
    DecodeEncode(x);
    DecodeEncode(y);
  }

  /** The caller's two coordinates, written through the out-pointers. */
  class TouchPoint {
    var x: Uint16
    var y: Uint16

    constructor (x: Uint16, y: Uint16)
      ensures this.x == x && this.y == y
    {
      this.x := x;
      this.y := y;
    }
  }

  /**
   * getTouch: 0 and the point left alone when no finger is down; otherwise 1, with the
   * decoded coordinates written and then clamped in place.
   */
  method GetTouch(status: Uint8, regs: seq<Uint8>, p: TouchPoint) returns (touched: Uint8)
    requires |regs| == 4
    modifies p
    ensures ReadTouch(status, regs).NoTouch? ==> touched == 0 && p.x == old(p.x) && p.y == old(p.y)
    ensures ReadTouch(status, regs).Touched? ==>
      touched == 1 && p.x == ReadTouch(status, regs).x && p.y == ReadTouch(status, regs).y
  {
    if status != 0 {
      p.x := Decode12(regs[0], regs[1]);
      p.y := Decode12(regs[2], regs[3]);
      if p.x > DISPLAY_WIDTH {
        p.x := DISPLAY_WIDTH;
      }
      if p.y > DISPLAY_HEIGHT {
        p.y := DISPLAY_HEIGHT;
      }
      return 1;
    }
    return 0;
  }
}
