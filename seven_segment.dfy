/**
 * The 74HC595 seven-segment driver of Led_Segment/74hc595.c: digit
 * encoding, leading-zero blanking, the byte order of a frame, and the
 * serial line that carries it (data bits clocked in MSB first, then one
 * latch pulse).
 */
module SevenSegment {
  import opened Common

  /** `LED_TYPE`: which polarity of display the board carries. */
  datatype LedType = CommonCathode | CommonAnode

  /** The configured board: common-anode digits, shifted out ones first (`ORDER_321`). */
  const LED_TYPE: LedType := CommonAnode
  const ORDER_321: bool := true

  /** `seg_cc`: the common-cathode segment patterns of the digits 0 to 9. */
  const SEG_CC: seq<bv8> := [0x3F, 0x06, 0x5B, 0x4F, 0x66, 0x6D, 0x7D, 0x07, 0x7F, 0x6F]

  /** The pattern with every segment dark; it is not the pattern of any digit. */
  function Blank(lt: LedType): (b: bv8)
    ensures forall d :: 0 <= d < 10 ==> b != (if lt == CommonAnode then !SEG_CC[d] else SEG_CC[d])
  {
    if lt == CommonCathode then 0x00 else 0xFF
  }

  /** `encodeDigit`: the pattern of `d % 10`, inverted on a common-anode display. */
  function EncodeDigit(lt: LedType, d: nat): (code: bv8)
    ensures code != Blank(lt)
  {
    var cc := SEG_CC[d % 10];
    if lt == CommonAnode then !cc else cc
  }

  /** Every digit pattern decodes back to its digit. */
  lemma EncodeDecode(lt: LedType, d: nat)
    ensures DecodeDigit(lt, EncodeDigit(lt, d)) == Some(d % 10)
  {
    DigitCodesDistinct(lt);
  }

  /** The digit whose pattern is `code`, if any: a table scan from `from` upward. */
  function DigitFrom(lt: LedType, code: bv8, from: nat): Option<nat>
    requires from <= 10
    decreases 10 - from
  {
    if from == 10 then None
    else if (if lt == CommonAnode then !SEG_CC[from] else SEG_CC[from]) == code then Some(from)
    else DigitFrom(lt, code, from + 1)
  }

  /** The digit a pattern shows, or none for the blank or an unknown pattern. */
  function DecodeDigit(lt: LedType, code: bv8): Option<nat> {
    DigitFrom(lt, code, 0)
  }

  /**
   * The ten digit patterns are pairwise different and none is blank, for
   * either polarity; so the table scan finds each digit at its own place.
   */
  lemma DigitCodesDistinct(lt: LedType)
    ensures forall d :: 0 <= d < 10 ==> DecodeDigit(lt, if lt == CommonAnode then !SEG_CC[d] else SEG_CC[d]) == Some(d)
    ensures forall d :: 0 <= d < 10 ==> (if lt == CommonAnode then !SEG_CC[d] else SEG_CC[d]) != Blank(lt)
  {
    forall d | 0 <= d < 10
      ensures DecodeDigit(lt, if lt == CommonAnode then !SEG_CC[d] else SEG_CC[d]) == Some(d)
    {
      var code := if lt == CommonAnode then !SEG_CC[d] else SEG_CC[d];
      ScanSkips(lt, code, 0, d);
    }
  }

  /** A scan starting at `from` passes over every earlier table entry that differs from `code`. */
  lemma {:induction false} ScanSkips(lt: LedType, code: bv8, from: nat, d: nat)
    requires from <= d < 10
    requires code == (if lt == CommonAnode then !SEG_CC[d] else SEG_CC[d])
    requires forall k :: 0 <= k < d ==> SEG_CC[k] != SEG_CC[d]
    ensures DigitFrom(lt, code, from) == Some(d)
    decreases d - from
  {
    if from < d {
      assert SEG_CC[from] != SEG_CC[d];
      ScanSkips(lt, code, from + 1, d);
    }
  }

  /** The value actually shown: numbers above 999 are shown as 999. */
  function Clamp(num: nat): (n: nat)
    ensures n <= 999
    ensures num <= 999 ==> n == num
    ensures num > 999 ==> n == 999
  {
    if num > 999 then 999 else num
  }

  /** The hundreds, tens and ones digits of a number below 1000. */
  datatype Digits = Digits(h: nat, t: nat, o: nat)

  function SplitDigits(n: nat): (ds: Digits)
    requires n <= 999
    ensures ds.h < 10 && ds.t < 10 && ds.o < 10
    ensures 100 * ds.h + 10 * ds.t + ds.o == n
  {
    Digits((n / 100) % 10, (n / 10) % 10, n % 10)
  }

  /**
   * The three bytes of `HC595_DisplayNumber`, hundreds, tens, ones, with the
   * leading zeros blanked.
   */
  function DigitBytes(lt: LedType, num: nat): (bs: seq<bv8>)
    ensures |bs| == 3
    ensures bs[0] == Blank(lt) <==> Clamp(num) < 100
    ensures bs[1] == Blank(lt) <==> Clamp(num) < 10
    ensures bs[2] != Blank(lt)
  {
    var n := Clamp(num);
    var ds := SplitDigits(n);
    [LeadingByte(lt, n >= 100, ds.h), LeadingByte(lt, n >= 10, ds.t), EncodeDigit(lt, ds.o)]
  }

  /** The order in which the three bytes are shifted out: ones first under `ORDER_321`. */
  function ShiftOrder(order321: bool, bs: seq<bv8>): (out: seq<bv8>)
    requires |bs| == 3
    ensures |out| == 3
  {
    if order321 then [bs[2], bs[1], bs[0]] else bs
  }

  /** Reordering is its own inverse: the receiving end undoes it with the same function. */
  lemma ShiftOrderInvolutive(order321: bool, bs: seq<bv8>)
    requires |bs| == 3
    ensures ShiftOrder(order321, ShiftOrder(order321, bs)) == bs
  {
  }

  /** The bytes sent for `num`, in shifting order. */
  function Frame(lt: LedType, order321: bool, num: nat): (f: seq<bv8>)
    ensures |f| == 3
  {
    ShiftOrder(order321, DigitBytes(lt, num))
  }

  /**
   * Under `ORDER_321` the ones byte is shifted first and the hundreds byte
   * last; otherwise hundreds first and ones last. Leading zeros are blank.
   */
  lemma FrameOrder(lt: LedType, num: nat)
    ensures Frame(lt, true, num)[0] == EncodeDigit(lt, Clamp(num) % 10)
    ensures Frame(lt, true, num)[1] == LeadingByte(lt, Clamp(num) >= 10, (Clamp(num) / 10) % 10)
    ensures Frame(lt, true, num)[2] == LeadingByte(lt, Clamp(num) >= 100, Clamp(num) / 100)
    ensures Frame(lt, false, num)[0] == Frame(lt, true, num)[2]
    ensures Frame(lt, false, num)[1] == Frame(lt, true, num)[1]
    ensures Frame(lt, false, num)[2] == Frame(lt, true, num)[0]
  {
    DigitBytesShape(lt, num);
    var n := Clamp(num);
    assert SplitDigits(n).h == n / 100;
  }

  /** The number a frame of three bytes displays, if it is a well-formed frame. */
  function DecodeFrame(lt: LedType, order321: bool, bytes: seq<bv8>): Option<nat> {
    if |bytes| != 3 then None
    else
      var bs := ShiftOrder(order321, bytes);
      var h := if bs[0] == Blank(lt) then Some(0) else DecodeDigit(lt, bs[0]);
      var t := if bs[1] == Blank(lt) then Some(0) else DecodeDigit(lt, bs[1]);
      var o := DecodeDigit(lt, bs[2]);
      if h.None? || t.None? || o.None? then None
      else Some(100 * h.value + 10 * t.value + o.value)
  }

  /** The three bytes sent determine the displayed number: decoding them gives back `Clamp(num)`. */
  lemma FrameRoundTrip(lt: LedType, order321: bool, num: nat)
    ensures DecodeFrame(lt, order321, Frame(lt, order321, num)) == Some(Clamp(num))
  {
    var n := Clamp(num);
    var ds := SplitDigits(n);
    var bs := DigitBytes(lt, num);
    DigitBytesShape(lt, num);
    LeadingZeros(n);
    LeadingByteDecodes(lt, n >= 100, ds.h);
    LeadingByteDecodes(lt, n >= 10, ds.t);
    EncodeDecode(lt, ds.o);
    DecodeDigitBytes(lt, order321, bs, ds);
  }

  /** The bytes of a number, byte by byte. */
  lemma DigitBytesShape(lt: LedType, num: nat)
    ensures DigitBytes(lt, num)[0] == LeadingByte(lt, Clamp(num) >= 100, SplitDigits(Clamp(num)).h)
    ensures DigitBytes(lt, num)[1] == LeadingByte(lt, Clamp(num) >= 10, SplitDigits(Clamp(num)).t)
    ensures DigitBytes(lt, num)[2] == EncodeDigit(lt, SplitDigits(Clamp(num)).o)
  {
  }

  /** The digits left of a number's leading digit are zeros. */
  lemma LeadingZeros(n: nat)
    requires n <= 999
    ensures n < 100 ==> SplitDigits(n).h == 0
    ensures n < 10 ==> SplitDigits(n).t == 0
  {
  }

  /** The hundreds or tens byte: the digit's pattern when the digit is shown, the blank otherwise. */
  function LeadingByte(lt: LedType, shown: bool, d: nat): (b: bv8)
    ensures b == Blank(lt) <==> !shown
  {
    if shown then EncodeDigit(lt, d) else Blank(lt)
  }

  /** A leading byte is the blank standing for a zero, or a pattern that decodes to its digit. */
  lemma LeadingByteDecodes(lt: LedType, shown: bool, d: nat)
    requires d < 10 && (!shown ==> d == 0)
    ensures (LeadingByte(lt, shown, d) == Blank(lt) && d == 0) ||
            (LeadingByte(lt, shown, d) != Blank(lt) && DecodeDigit(lt, LeadingByte(lt, shown, d)) == Some(d))
  {
    if shown {
      EncodeDecode(lt, d);
    }
  }

  /**
   * Decoding three bytes, each either a digit pattern or (for hundreds and
   * tens, standing for a zero) the blank, gives the number they spell.
   */
  lemma DecodeDigitBytes(lt: LedType, order321: bool, bs: seq<bv8>, ds: Digits)
    requires |bs| == 3
    requires (bs[0] == Blank(lt) && ds.h == 0) || (bs[0] != Blank(lt) && DecodeDigit(lt, bs[0]) == Some(ds.h))
    requires (bs[1] == Blank(lt) && ds.t == 0) || (bs[1] != Blank(lt) && DecodeDigit(lt, bs[1]) == Some(ds.t))
    requires DecodeDigit(lt, bs[2]) == Some(ds.o)
    ensures DecodeFrame(lt, order321, ShiftOrder(order321, bs)) == Some(100 * ds.h + 10 * ds.t + ds.o)
  {
    ShiftOrderInvolutive(order321, bs);
  }

  /** Two numbers up to 999 are displayed by the same bytes only if they are equal. */
  lemma FrameInjective(lt: LedType, order321: bool, a: nat, b: nat)
    requires a <= 999 && b <= 999
    requires Frame(lt, order321, a) == Frame(lt, order321, b)
    ensures a == b
  {
    FrameRoundTrip(lt, order321, a);
    FrameRoundTrip(lt, order321, b);
  }

  /** The eight data bits of a byte in the order `HC595_SendByte` sends them, most significant first. */
  function BitsMsbFirst(b: bv8): (bits: seq<bool>)
    ensures |bits| == 8
  {
    seq(8, i requires 0 <= i < 8 => BitAt(b, i))
  }

  /** The single-bit masks from the most significant bit down. */
  const MASKS: seq<bv8> := [0x80, 0x40, 0x20, 0x10, 0x08, 0x04, 0x02, 0x01]

  /** Bit `7 - i` of `b`, the `i`-th one sent. */
  function BitAt(b: bv8, i: nat): bool
    requires i < 8
  {
    b & MASKS[i] != 0
  }

  /** The byte a shift register holds after the bits were clocked in, the first one ending up most significant. */
  function Assemble(bits: seq<bool>): bv8
    decreases |bits|
  {
    if |bits| == 0 then 0
    else (Assemble(bits[..|bits| - 1]) << 1) | (if bits[|bits| - 1] then 1 else 0)
  }

  /** The first `k` bits sent reassemble to the top `k` bits of the byte. */
  lemma {:induction false} AssemblePrefix(b: bv8, k: nat)
    requires k <= 8
    ensures Assemble(BitsMsbFirst(b)[..k]) == TopBits(b, k)
  {
    if k > 0 {
      var bits := BitsMsbFirst(b)[..k];
      assert bits[..k - 1] == BitsMsbFirst(b)[..k - 1];
      AssemblePrefix(b, k - 1);
      assert Assemble(bits) == (TopBits(b, k - 1) << 1) | (if BitAt(b, k - 1) then 1 else 0);
      ShiftStep(b, k - 1);
    }
  }

  /**
   * The top `k` bits of `b`, as a number: `b >> (8 - k)`. Written with
   * constant shift amounts, since a shift by a variable amount on `bv8` is
   * costly for the verifier.
   */
  function TopBits(b: bv8, k: nat): bv8
    requires k <= 8
  {
    if k == 0 then 0
    else if k == 1 then b >> 7
    else if k == 2 then b >> 6
    else if k == 3 then b >> 5
    else if k == 4 then b >> 4
    else if k == 5 then b >> 3
    else if k == 6 then b >> 2
    else if k == 7 then b >> 1
    else b
  }

  /**
   * `b << i`, the working copy of `HC595_SendByte` after `i` shifts, with
   * constant shift amounts for the same reason as `TopBits`.
   */
  function ShiftedLeft(b: bv8, i: nat): bv8
    requires i <= 8
  {
    if i == 0 then b
    else if i == 1 then b << 1
    else if i == 2 then b << 2
    else if i == 3 then b << 3
    else if i == 4 then b << 4
    else if i == 5 then b << 5
    else if i == 6 then b << 6
    else if i == 7 then b << 7
    else 0
  }

  /** One more bit: the top `j` bits shifted left, with bit `j` sent appended, are the top `j + 1` bits. */
  lemma ShiftStep(b: bv8, j: nat)
    requires j < 8
    ensures (TopBits(b, j) << 1) | (if BitAt(b, j) then 1 else 0) == TopBits(b, j + 1)
  {
    if j == 0 {} else if j == 1 {} else if j == 2 {} else if j == 3 {}
    else if j == 4 {} else if j == 5 {} else if j == 6 {} else {}
  }

  /** `HC595_SendByte` is lossless: the eight bits it emits reassemble to the byte. */
  lemma SendByteRoundTrip(b: bv8)
    ensures Assemble(BitsMsbFirst(b)) == b
  {
    AssemblePrefix(b, 8);
    assert BitsMsbFirst(b)[..8] == BitsMsbFirst(b);
    assert TopBits(b, 8) == b;
  }

  /** A pulse on the driver's serial line: one data bit clocked in, or the latch. */
  datatype Pulse = Shift(bit: bool) | Latch

  /** The shift-clock pulses carrying `bits`, in order. */
  function ShiftPulses(bits: seq<bool>): (ps: seq<Pulse>)
    ensures |ps| == |bits|
    ensures forall i :: 0 <= i < |bits| ==> ps[i] == Shift(bits[i])
  {
    seq(|bits|, i requires 0 <= i < |bits| => Shift(bits[i]))
  }

  /** The pulses carrying a sequence of bytes, each MSB first. */
  function BytePulses(bytes: seq<bv8>): (ps: seq<Pulse>)
    ensures |ps| == 8 * |bytes|
    ensures forall i :: 0 <= i < |ps| ==> ps[i].Shift?
    decreases |bytes|
  {
    if bytes == [] then [] else ShiftPulses(BitsMsbFirst(bytes[0])) + BytePulses(bytes[1..])
  }

  /** Everything `HC595_DisplayNumber(num)` puts on the line: the frame's 24 bits, then one latch. */
  function DisplayPulses(lt: LedType, order321: bool, num: nat): (ps: seq<Pulse>)
    ensures |ps| == 25 && ps[24] == Latch
    ensures forall i :: 0 <= i < 24 ==> ps[i].Shift?
  {
    BytePulses(Frame(lt, order321, num)) + [Latch]
  }

  /** The bits carried by shift pulses, or none if a latch is among them. */
  function BitsOf(ps: seq<Pulse>): (r: Option<seq<bool>>)
    ensures r.Some? ==> |r.value| == |ps|
    decreases |ps|
  {
    if ps == [] then Some([])
    else if ps[0].Latch? then None
    else
      var rest := BitsOf(ps[1..]);
      if rest.None? then None else Some([ps[0].bit] + rest.value)
  }

  /**
   * What the displays show after a latch: the latched line must be 24 shift
   * pulses followed by exactly one latch; each 8-bit group is reassembled
   * into a byte and the three bytes are decoded.
   */
  function ReadDisplay(lt: LedType, order321: bool, ps: seq<Pulse>): Option<nat> {
    if |ps| != 25 || ps[24] != Latch then None
    else
      var bits := BitsOf(ps[..24]);
      if bits.None? then None
      else
        var b := bits.value;
        DecodeFrame(lt, order321, [Assemble(b[0..8]), Assemble(b[8..16]), Assemble(b[16..24])])
  }

  lemma {:induction false} BitsOfShiftPulses(bits: seq<bool>)
    ensures BitsOf(ShiftPulses(bits)) == Some(bits)
    decreases |bits|
  {
    if bits != [] {
      assert ShiftPulses(bits)[1..] == ShiftPulses(bits[1..]);
      BitsOfShiftPulses(bits[1..]);
      assert [bits[0]] + bits[1..] == bits;
    }
  }

  /** Pulses for three bytes are the shift pulses of their 24 bits. */
  lemma BytePulsesOfThree(x: bv8, y: bv8, z: bv8)
    ensures BytePulses([x, y, z]) == ShiftPulses(BitsMsbFirst(x) + BitsMsbFirst(y) + BitsMsbFirst(z))
  {
    assert [x, y, z][1..] == [y, z];
    assert [y, z][1..] == [z];
    assert [z][1..] == [];
    assert BytePulses([z]) == ShiftPulses(BitsMsbFirst(z)) + BytePulses([]);
    assert BytePulses([y, z]) == ShiftPulses(BitsMsbFirst(y)) + BytePulses([z]);
    assert BytePulses([x, y, z]) == ShiftPulses(BitsMsbFirst(x)) + BytePulses([y, z]);
    ShiftPulsesAppend(BitsMsbFirst(x), BitsMsbFirst(y));
    ShiftPulsesAppend(BitsMsbFirst(x) + BitsMsbFirst(y), BitsMsbFirst(z));
  }

  /** Sending three bytes one after another puts the pulses of the three-byte frame on the line. */
  lemma ThreeBytePulses(x: bv8, y: bv8, z: bv8)
    ensures ShiftPulses(BitsMsbFirst(x)) + ShiftPulses(BitsMsbFirst(y)) + ShiftPulses(BitsMsbFirst(z))
         == BytePulses([x, y, z])
  {
    BytePulsesOfThree(x, y, z);
    ShiftPulsesAppend(BitsMsbFirst(x), BitsMsbFirst(y));
    ShiftPulsesAppend(BitsMsbFirst(x) + BitsMsbFirst(y), BitsMsbFirst(z));
  }

  lemma ShiftPulsesAppend(a: seq<bool>, b: seq<bool>)
    ensures ShiftPulses(a + b) == ShiftPulses(a) + ShiftPulses(b)
  {
  }

  /**
   * The whole line round trip: reading back what `HC595_DisplayNumber(num)`
   * sends (24 data bits, MSB first, then one latch) shows `Clamp(num)`.
   */
  lemma DisplayRoundTrip(lt: LedType, order321: bool, num: nat)
    ensures ReadDisplay(lt, order321, DisplayPulses(lt, order321, num)) == Some(Clamp(num))
  {
    var f := Frame(lt, order321, num);
    var bits := BitsMsbFirst(f[0]) + BitsMsbFirst(f[1]) + BitsMsbFirst(f[2]);
    assert f == [f[0], f[1], f[2]];
    BytePulsesOfThree(f[0], f[1], f[2]);
    var ps := DisplayPulses(lt, order321, num);
    assert ps[..24] == ShiftPulses(bits);
    BitsOfShiftPulses(bits);
    assert bits[0..8] == BitsMsbFirst(f[0]);
    assert bits[8..16] == BitsMsbFirst(f[1]);
    assert bits[16..24] == BitsMsbFirst(f[2]);
    SendByteRoundTrip(f[0]);
    SendByteRoundTrip(f[1]);
    SendByteRoundTrip(f[2]);
    assert [f[0], f[1], f[2]] == f;
    FrameRoundTrip(lt, order321, num);
  }

  /**
   * The 74HC595 chain as seen from the microcontroller: the board's
   * build-time configuration and the sequence of pulses driven on the
   * chain's serial line since power-up.
   */
  class ShiftRegister {
    const ledType: LedType
    const order321: bool
    var line: seq<Pulse>

    /** `HC595_Init` for a board configured with `LED_TYPE` and `ORDER_321`: nothing sent yet. */
    constructor (ledType: LedType, order321: bool)
      ensures this.ledType == ledType && this.order321 == order321
      ensures line == []
    {
      this.ledType := ledType;
      this.order321 := order321;
      line := [];
    }

    /** `sendBit`: put one bit on SDI and pulse the shift clock. */
    method SendBit(b: bool)
      modifies this
      ensures line == old(line) + [Shift(b)]
    {
      line := line + [Shift(b)];
    }

    /** `HC595_SendByte`: send bit 7 of the working copy, shift it left, eight times. */
    method SendByte(data: bv8)
      modifies this
      ensures line == old(line) + ShiftPulses(BitsMsbFirst(data))
    {
      var d := data;
      for i := 0 to 8
        invariant d == ShiftedLeft(data, i)
        invariant line == old(line) + ShiftPulses(BitsMsbFirst(data)[..i])
      {
        assert (d & 0x80 != 0) == BitsMsbFirst(data)[i] by { TopBit(data, i); }
        SendBit(d & 0x80 != 0);
        assert BitsMsbFirst(data)[..i + 1] == BitsMsbFirst(data)[..i] + [BitsMsbFirst(data)[i]];
        d := d << 1;
        assert d == ShiftedLeft(data, i + 1) by { ShiftAgain(data, i); }
      }
      assert BitsMsbFirst(data)[..8] == BitsMsbFirst(data);
    }

    /** `HC595_Latch`: pulse the storage clock so the shifted bytes reach the outputs. */
    method Latch()
      modifies this
      ensures line == old(line) + [Pulse.Latch]
    {
      line := line + [Pulse.Latch];
    }

    /** `HC595_DisplayNumber`: encode, blank, order and send the three bytes, then latch once. */
    method DisplayNumber(num: nat)
      requires num < 0x1_0000
      modifies this
      ensures line == old(line) + DisplayPulses(ledType, order321, num)
    {
      var n := if num > 999 then 999 else num;
      var h := (n / 100) % 10;
      var t := (n / 10) % 10;
      var o := n % 10;
      var blank: bv8 := if ledType == CommonCathode then 0x00 else 0xFF;
      var bH := if n >= 100 then EncodeDigit(ledType, h) else blank;
      var bT := if n >= 10 then EncodeDigit(ledType, t) else blank;
      var bO := EncodeDigit(ledType, o);
      assert DigitBytes(ledType, num) == [bH, bT, bO];
      ghost var start := line;
      if order321 {
        SendThree(bO, bT, bH);
        assert Frame(ledType, order321, num) == [bO, bT, bH];
      } else {
        SendThree(bH, bT, bO);
        assert Frame(ledType, order321, num) == [bH, bT, bO];
      }
      Latch();
      assert line == start + (BytePulses(Frame(ledType, order321, num)) + [Pulse.Latch]);
    }

    /** Three `HC595_SendByte` calls in a row, as `HC595_DisplayNumber` makes them. */
    method SendThree(x: bv8, y: bv8, z: bv8)
      modifies this
      ensures line == old(line) + BytePulses([x, y, z])
    {
      SendByte(x);
      SendByte(y);
      SendByte(z);
      AppendThree(old(line), x, y, z);
    }
  }

  /** Sending three bytes after `start` leaves `start` followed by the pulses of the three-byte frame. */
  lemma AppendThree(start: seq<Pulse>, x: bv8, y: bv8, z: bv8)
    ensures start + ShiftPulses(BitsMsbFirst(x)) + ShiftPulses(BitsMsbFirst(y)) + ShiftPulses(BitsMsbFirst(z))
         == start + BytePulses([x, y, z])
  {
    ThreeBytePulses(x, y, z);
  }

  /** One more left shift of the working copy. */
  lemma ShiftAgain(data: bv8, i: nat)
    requires i < 8
    ensures ShiftedLeft(data, i) << 1 == ShiftedLeft(data, i + 1)
  {
    if i == 0 {} else if i == 1 {} else if i == 2 {} else if i == 3 {}
    else if i == 4 {} else if i == 5 {} else if i == 6 {} else {}
  }

  /** Bit 7 of the working copy after `i` shifts is the `i`-th bit sent. */
  lemma TopBit(data: bv8, i: nat)
    requires i < 8
    ensures (ShiftedLeft(data, i) & 0x80 != 0) == BitsMsbFirst(data)[i]
  {
    assert BitsMsbFirst(data)[i] == (data & MASKS[i] != 0);
    var d := ShiftedLeft(data, i);
    if i == 0 { assert d == data; }
    else if i == 1 { assert d == data << 1; }
    else if i == 2 { assert d == data << 2; }
    else if i == 3 { assert d == data << 3; }
    else if i == 4 { assert d == data << 4; }
    else if i == 5 { assert d == data << 5; }
    else if i == 6 { assert d == data << 6; }
    else { assert d == data << 7; }
  }
}
