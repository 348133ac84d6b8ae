/**
 * The BK1902B wire protocol as both driver variants speak it: the five
 * command strings, the "OK\r" acknowledge, and the 10-byte display reply.
 *
 * Interpret reads a command's bytes the way the instrument is meant to,
 * and EncodeDisplay writes a display reply the way the instrument does;
 * both exist to state round trips against the driver's side.
 */
module Protocol {
  import opened Results
  import opened Text
  import opened Setpoint

  // ---------------------------------------------------------------------
  // Commands
  // ---------------------------------------------------------------------

  /** The two programmable quantities. */
  datatype Quantity = Voltage | Current

  /** The 4-character opcode of each set command. */
  function Opcode(q: Quantity): (op: string)
    ensures |op| == 4 && IsAscii(op)
  {
    match q
    case Voltage => "VOLT"
    case Current => "CURR"
  }

  /** Allowed range: 1 to 60 V, 0 to 15 A. */
  function Minimum(q: Quantity): real {
    match q
    case Voltage => 1.0
    case Current => 0.0
  }

  function Maximum(q: Quantity): real {
    match q
    case Voltage => 60.0
    case Current => 15.0
  }

  /** The value set_voltage / set_current send: the request clamped into range. */
  function Clamped(q: Quantity, requested: real): (v: real)
    ensures Minimum(q) <= v <= Maximum(q)
    ensures Minimum(q) <= requested <= Maximum(q) ==> v == requested
  {
    Clamp(requested, Minimum(q), Maximum(q)).value
  }

  /** The magnitude the instrument is asked for, in tenths of a volt or ampere. */
  function Tenths(q: Quantity, requested: real): (t: nat)
    ensures t <= 600
  {
    (Clamped(q, requested) * 10.0).Floor
  }

  const EnableOutputCommand: string := "SOUT0\r"
  const DisableOutputCommand: string := "SOUT1\r"
  const DisplayCommand: string := "GETD\r"

  /** A request as the instrument understands it. */
  datatype Request =
    | SetLevel(quantity: Quantity, tenths: nat)
    | SetOutput(enabled: bool)
    | ReadDisplay

  /**
   * The instrument's reading of a command: opcode VOLT or CURR with three
   * digits of tenths, SOUT with 0 (on) or 1 (off), or GETD; each ends in CR.
   */
  function Interpret(wire: seq<byte>): Option<Request>
  {
    var t := AsciiText(wire);
    if |t| == 8 && t[7] == '\r' && AllDigits(t[4..7]) && (t[..4] == "VOLT" || t[..4] == "CURR") then
      Some(SetLevel(if t[..4] == "VOLT" then Voltage else Current, DecimalValue(t[4..7])))
    else if |t| == 6 && t[..4] == "SOUT" && t[5] == '\r' && (t[4] == '0' || t[4] == '1') then
      Some(SetOutput(t[4] == '0'))
    else if t == "GETD\r" then
      Some(ReadDisplay)
    else
      None
  }

  /**
   * The command set_voltage / set_current build: opcode, the 3-digit
   * magnitude of the clamped request, CR. The instrument reads it as the
   * clamped request truncated to tenths.
   */
  function SetCommand(q: Quantity, requested: real): (cmd: string)
    ensures |cmd| == 8 && IsAscii(cmd) && cmd[..4] == Opcode(q)
    ensures Interpret(Utf8(cmd)) == Some(SetLevel(q, Tenths(q, requested)))
  {
    var v := Clamped(q, requested);
    assert 0.0 <= v < 100.0 by { assert 0.0 <= Minimum(q) && Maximum(q) < 100.0; }
    var digits := ToBkStr(v);
    InterpretSetFrame(q, digits);
    Opcode(q) + digits + "\r"
  }

  /** A request already inside the instrument's range is sent as it is, without clamping. */
  lemma InRangeCommand(q: Quantity, requested: real)
    requires Minimum(q) <= requested <= Maximum(q)
    ensures SetCommand(q, requested) == Opcode(q) + ToBkStr(requested) + "\r"
  {
  }

  /** A set frame with a 3-digit magnitude is ASCII and reads back as its opcode and digits. */
  lemma InterpretSetFrame(q: Quantity, digits: string)
    requires |digits| == 3 && AllDigits(digits)
    ensures IsAscii(Opcode(q) + digits + "\r") && (Opcode(q) + digits + "\r")[..4] == Opcode(q)
    ensures Interpret(Utf8(Opcode(q) + digits + "\r")) == Some(SetLevel(q, DecimalValue(digits)))
  {
    var cmd := Opcode(q) + digits + "\r";
    assert cmd[..4] == Opcode(q) && cmd[4..7] == digits && cmd[7] == '\r';
    DigitsAreAscii(digits);
    assert IsAscii(cmd) by {
      forall i | 0 <= i < |cmd| ensures cmd[i] as int < 0x80 {
        if 4 <= i < 7 { assert cmd[i] == digits[i - 4]; }
      }
    }
    AsciiBytes(cmd);
    var t := AsciiText(Utf8(cmd));
    assert t == cmd;
    match q
    case Voltage =>
      assert t[..4] == "VOLT";
    case Current =>
      assert t[..4] == "CURR";
      assert t[..4] != "VOLT";
  }

  /** A setpoint given in tenths inside the range reaches the instrument unchanged. */
  lemma SetCommandRoundTrip(q: Quantity, tenths: nat)
    requires Minimum(q) <= tenths as real / 10.0 <= Maximum(q)
    ensures Interpret(Utf8(SetCommand(q, tenths as real / 10.0))) == Some(SetLevel(q, tenths))
  {
    assert (tenths as real / 10.0) * 10.0 == tenths as real;
  }

  /**
   * The fixed commands reach the instrument as meant: SOUT0 switches the
   * output on, SOUT1 switches it off, GETD asks for the display.
   */
  lemma FixedCommands()
    ensures Interpret(Utf8(EnableOutputCommand)) == Some(SetOutput(true))
    ensures Interpret(Utf8(DisableOutputCommand)) == Some(SetOutput(false))
    ensures Interpret(Utf8(DisplayCommand)) == Some(ReadDisplay)
  {
    AsciiBytes(EnableOutputCommand);
    AsciiBytes(DisableOutputCommand);
    AsciiBytes(DisplayCommand);
    assert EnableOutputCommand[..4] == "SOUT";
    assert DisableOutputCommand[..4] == "SOUT";
    assert DisplayCommand[..4] != "VOLT" && DisplayCommand[..4] != "CURR" && DisplayCommand[..4] != "SOUT";
  }

  // ---------------------------------------------------------------------
  // Replies
  // ---------------------------------------------------------------------

  /** The acknowledge every set and output command expects: b"OK\r". */
  const OkReply: seq<byte> := [0x4F, 0x4B, 0x0D]

  lemma OkReplyIsOkText()
    ensures OkReply == Utf8("OK\r")
  {
    AsciiBytes("OK\r");
  }

  /** One front-display reading, in hundredths of a volt and of an ampere. */
  datatype Display = Display(voltage: nat, current: nat, constantVoltage: bool)

  /** What get_display returns with no open port: (0, 0, False). */
  const NoDisplay: Display := Display(0, 0, false)

  /** Why a display reply could not be read. */
  datatype DisplayError =
    | BadVoltageField(field: seq<byte>)   // float() rejected bytes 0-3
    | BadCurrentField(field: seq<byte>)   // float() rejected bytes 4-7
    | NoModeFlag(reply: seq<byte>)        // the reply ends before byte 8

  /** Python's slice bs[lo:hi], which stops at the end of a short sequence. */
  function Slice(bs: seq<byte>, lo: nat, hi: nat): (r: seq<byte>)
    requires lo <= hi
    ensures hi <= |bs| ==> r == bs[lo..hi]
    ensures lo < |bs| < hi ==> r == bs[lo..]
    ensures |bs| <= lo ==> r == []
  {
    if |bs| <= lo then [] else if |bs| <= hi then bs[lo..] else bs[lo..hi]
  }

  /**
   * float(field.rstrip()) for a numeric display field: after trailing
   * whitespace is stripped, the field must be a non-empty run of digits.
   */
  function ParseField(field: seq<byte>): (r: Option<nat>)
    ensures r.Some? <==> |RStrip(field)| > 0 && AllDigits(AsciiText(RStrip(field)))
    ensures r.Some? ==> r.value == DecimalValue(AsciiText(RStrip(field)))
  {
    var t := AsciiText(RStrip(field));
    if |t| > 0 && AllDigits(t) then Some(DecimalValue(t)) else None
  }

  /** The mode flag byte: '0' is constant voltage, anything else constant current. */
  const ConstantVoltageFlag: byte := 0x30

  /**
   * get_display's decoding of the reply: bytes 0-3 voltage and bytes 4-7
   * current, each x100, then the CV/CC flag in byte 8. Fields are read in
   * that order, so the first failure reported is the first in the reply.
   */
  function DecodeDisplay(reply: seq<byte>): (r: Result<Display, DisplayError>)
    ensures r.Success? <==>
              9 <= |reply| && ParseField(reply[..4]).Some? && ParseField(reply[4..8]).Some?
    ensures r.Success? ==>
              && Some(r.value.voltage) == ParseField(reply[..4])
              && Some(r.value.current) == ParseField(reply[4..8])
              && (r.value.constantVoltage <==> reply[8] == ConstantVoltageFlag)
    ensures r.Failure? && ParseField(Slice(reply, 0, 4)).None? ==> r.error.BadVoltageField?
  {
    match ParseField(Slice(reply, 0, 4))
    case None => Failure(BadVoltageField(Slice(reply, 0, 4)))
    case Some(voltage) =>
      match ParseField(Slice(reply, 4, 8))
      case None => Failure(BadCurrentField(Slice(reply, 4, 8)))
      case Some(current) =>
        if |reply| <= 8 then Failure(NoModeFlag(reply))
        else Success(Display(voltage, current, reply[8] == ConstantVoltageFlag))
  }

  /** A reply cut short before the mode flag never decodes. */
  lemma ShortDisplayFails(reply: seq<byte>)
    requires |reply| < 9
    ensures DecodeDisplay(reply).Failure?
  {
  }

  /** Byte 9 and anything after it are ignored. */
  lemma DisplayIgnoresTail(reply: seq<byte>)
    requires 9 <= |reply|
    ensures DecodeDisplay(reply) == DecodeDisplay(reply[..9])
  {
    assert Slice(reply, 0, 4) == Slice(reply[..9], 0, 4);
    assert Slice(reply, 4, 8) == Slice(reply[..9], 4, 8);
  }

  /** A field of bare digits reads as their value. */
  lemma ParseDigits(digits: string)
    requires |digits| > 0 && AllDigits(digits)
    ensures ParseField(Utf8(digits)) == Some(DecimalValue(digits))
  {
    DigitsAreAscii(digits);
    AsciiBytes(digits);
    var field := Utf8(digits);
    assert !IsSpace(field[|field| - 1]);
    assert RStrip(field) == field;
  }

  /** One trailing whitespace byte is stripped before the field is read. */
  lemma StripTrailingSpace(bs: seq<byte>, b: byte)
    requires IsSpace(b)
    ensures RStrip(bs + [b]) == RStrip(bs)
  {
    assert (bs + [b])[..|bs|] == bs;
  }

  /**
   * A field of digits followed by any whitespace padding (spaces, tabs,
   * CR, LF, VT, FF) reads as the digits' value.
   */
  lemma {:induction false} ParsePaddedField(digits: string, pad: seq<byte>)
    requires |digits| > 0 && AllDigits(digits)
    requires forall i :: 0 <= i < |pad| ==> IsSpace(pad[i])
    ensures ParseField(Utf8(digits) + pad) == Some(DecimalValue(digits))
  {
    if pad == [] {
      assert Utf8(digits) + pad == Utf8(digits);
      ParseDigits(digits);
    } else {
      var init := pad[..|pad| - 1];
      assert Utf8(digits) + pad == (Utf8(digits) + init) + [pad[|pad| - 1]];
      StripTrailingSpace(Utf8(digits) + init, pad[|pad| - 1]);
      ParsePaddedField(digits, init);
    }
  }

  /** "512" followed by a tab reads as 512, as float(b"512\t".rstrip()) does. */
  lemma ParseTabPaddedField()
    ensures ParseField([0x35, 0x31, 0x32, 0x09]) == Some(512)
  {
    assert Decimal(512) == "512";
    DecimalRoundTrip(512);
    AsciiBytes("512");
    ParsePaddedField("512", [0x09]);
    assert Utf8("512") + [0x09] == [0x35, 0x31, 0x32, 0x09];
  }

  /** The 4-byte field the instrument sends for a reading below 100.00: zero-padded digits. */
  function Field(hundredths: nat): (bs: seq<byte>)
    requires hundredths < 10000
    ensures |bs| == 4
    ensures ParseField(bs) == Some(hundredths)
  {
    var digits := FieldDigits(hundredths);
    ParsePaddedField(digits, []);
    assert Utf8(digits) + [] == Utf8(digits);
    DigitsAreAscii(digits);
    AsciiBytes(digits);
    Utf8(digits)
  }

  /** The field's text: the reading as four digits, zero-filled on the left. */
  function FieldDigits(hundredths: nat): (t: string)
    requires hundredths < 10000
    ensures |t| == 4 && AllDigits(t) && DecimalValue(t) == hundredths
  {
    PaddedDecimal(hundredths, 4);
    ZFill(Decimal(hundredths), 4)
  }

  /** The reply the instrument sends for a reading; spare is byte 9. */
  function EncodeDisplay(d: Display, spare: byte): (reply: seq<byte>)
    requires d.voltage < 10000 && d.current < 10000
    ensures |reply| == 10
  {
    Field(d.voltage) + Field(d.current) + [if d.constantVoltage then ConstantVoltageFlag else 0x31, spare]
  }

  /** Every reading the instrument can report decodes back to itself. */
  lemma DisplayRoundTrip(d: Display, spare: byte)
    requires d.voltage < 10000 && d.current < 10000
    ensures DecodeDisplay(EncodeDisplay(d, spare)) == Success(d)
  {
    var reply := EncodeDisplay(d, spare);
    assert reply[..4] == Field(d.voltage);
    assert reply[4..8] == Field(d.current);
  }

  /** The text "0512" as a display field. */
  lemma Field512()
    ensures Field(512) == [0x30, 0x35, 0x31, 0x32]
  {
    assert Decimal(5) == "5";
    assert Decimal(51) == "51";
    assert Decimal(512) == "512";
    assert FieldDigits(512) == "0512" by {
      assert ZFill("512", 4) == "0512";
    }
    assert Utf8("0512") == [0x30, 0x35, 0x31, 0x32] by {
      AsciiBytes("0512");
    }
  }

  /** The text "0103" as a display field. */
  lemma Field103()
    ensures Field(103) == [0x30, 0x31, 0x30, 0x33]
  {
    assert Decimal(1) == "1";
    assert Decimal(10) == "10";
    assert Decimal(103) == "103";
    assert FieldDigits(103) == "0103" by {
      assert ZFill("103", 4) == "0103";
    }
    assert Utf8("0103") == [0x30, 0x31, 0x30, 0x33] by {
      AsciiBytes("0103");
    }
  }

  /** A reply with voltage field "0512", current field "0103" and flag '0' reads as 5.12 V, 1.03 A, CV; flag '1' reads as CC. */
  lemma DisplayExample()
    ensures DecodeDisplay([0x30, 0x35, 0x31, 0x32, 0x30, 0x31, 0x30, 0x33, 0x30, 0x0D])
              == Success(Display(512, 103, true))
    ensures DecodeDisplay([0x30, 0x35, 0x31, 0x32, 0x30, 0x31, 0x30, 0x33, 0x31, 0x0D])
              == Success(Display(512, 103, false))
  {
    var volts: seq<byte> := [0x30, 0x35, 0x31, 0x32];
    var amps: seq<byte> := [0x30, 0x31, 0x30, 0x33];
    assert ParseField(volts) == Some(512) by { Field512(); }
    assert ParseField(amps) == Some(103) by { Field103(); }
    var cv: seq<byte> := volts + amps + [0x30, 0x0D];
    var cc: seq<byte> := volts + amps + [0x31, 0x0D];
    assert Slice(cv, 0, 4) == volts && Slice(cv, 4, 8) == amps;
    assert Slice(cc, 0, 4) == volts && Slice(cc, 4, 8) == amps;
    assert cv == [0x30, 0x35, 0x31, 0x32, 0x30, 0x31, 0x30, 0x33, 0x30, 0x0D];
    assert cc == [0x30, 0x35, 0x31, 0x32, 0x30, 0x31, 0x30, 0x33, 0x31, 0x0D];
  }
}
