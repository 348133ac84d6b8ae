/**
 * The packaged BK1902B driver (bk_precision_1900/bk1902b.py): every set
 * and output command waits for the "OK\r" acknowledge, and with no port
 * open every operation quietly does nothing.
 */
module Driver {
  import opened Results
  import opened Text
  import opened Setpoint
  import opened Protocol
  import opened Transport

  /** The RuntimeError raised when a command is not acknowledged, and a display reply float()/int() reject. */
  datatype Error =
    | CommandRejected(command: string, reply: seq<byte>)
    | MalformedReply(cause: DisplayError)

  /** Bytes read after a command, and after the display query. */
  const AckLength: nat := 3
  const DisplayLength: nat := 10

  /** The instrument answered exactly "OK\r" within the three bytes read. */
  predicate Acknowledged(incoming: seq<byte>) {
    |incoming| >= 3 && incoming[..3] == OkReply
  }

  /**
   * _sendCmd: write the command, read three bytes, and raise unless they
   * are "OK\r", naming the command and the bytes received. With no port
   * nothing is written and nothing is raised.
   */
  function SendCmd(link: Link, cmd: string, incoming: seq<byte>): (r: (Link, Outcome<Error>))
    ensures !link.isOpen ==> r == (link, Pass)
    ensures link.isOpen ==> Extends(link, r.0) && Sent(link, r.0) == Utf8(cmd)
    ensures link.isOpen ==> (r.1.Pass? <==> Acknowledged(incoming))
    ensures r.1.Fail? ==> r.1.error == CommandRejected(cmd, Read(incoming, AckLength))
  {
    if !link.isOpen then (link, Pass)
    else
      var next := Write(link, cmd);
      WriteSends(link, cmd);
      var reply := Read(incoming, AckLength);
      if reply != OkReply then (next, Fail(CommandRejected(cmd, reply))) else (next, Pass)
  }

  /**
   * An equivalent step-by-step formulation of SendCmd, not a model of a
   * separate routine: the driver makes one write of the whole encoded
   * command, and here the same bytes are appended one character at a time
   * before the acknowledge is checked.
   */
  method Exchange(link: Link, cmd: string, incoming: seq<byte>) returns (next: Link, outcome: Outcome<Error>)
    ensures !link.isOpen ==> next == link && outcome == Pass
    ensures link.isOpen ==> next == Link(true, link.written + Utf8(cmd))
    ensures outcome.Pass? <==> !link.isOpen || Acknowledged(incoming)
    ensures (next, outcome) == SendCmd(link, cmd, incoming)
  {
    if !link.isOpen {
      return link, Pass;
    }
    var written := link.written;
    var i := 0;
    while i < |cmd|
      invariant 0 <= i <= |cmd|
      invariant written == link.written + Utf8(cmd[..i])
    {
      Utf8Prefix(cmd, i);
      written := written + Utf8Char(cmd[i]);
      i := i + 1;
    }
    assert cmd[..i] == cmd;
    next := Link(true, written);
    var reply := Read(incoming, AckLength);
    assert reply == OkReply <==> Acknowledged(incoming);
    if reply == OkReply {
      outcome := Pass;
    } else {
      outcome := Fail(CommandRejected(cmd, reply));
    }
    SendCmdOnOpenPort(link, cmd, incoming);
  }

  /** On an open port SendCmd appends the encoded command and judges the first three reply bytes. */
  lemma SendCmdOnOpenPort(link: Link, cmd: string, incoming: seq<byte>)
    requires link.isOpen
    ensures SendCmd(link, cmd, incoming).0 == Link(true, link.written + Utf8(cmd))
    ensures SendCmd(link, cmd, incoming).1
              == if Read(incoming, AckLength) == OkReply then Pass
                 else Fail(CommandRejected(cmd, Read(incoming, AckLength)))
  {
  }

  /** "OK\r" is accepted, even with more bytes behind it; "ER\r" and a short "OK" are rejected. */
  lemma AcknowledgeExamples(link: Link)
    requires link.isOpen
    ensures SendCmd(link, "SOUT0\r", [0x4F, 0x4B, 0x0D]).1 == Pass
    ensures SendCmd(link, "SOUT0\r", [0x4F, 0x4B, 0x0D, 0x4F]).1 == Pass
    ensures SendCmd(link, "SOUT0\r", [0x45, 0x52, 0x0D]).1 == Fail(CommandRejected("SOUT0\r", [0x45, 0x52, 0x0D]))
    ensures SendCmd(link, "SOUT0\r", [0x4F, 0x4B]).1 == Fail(CommandRejected("SOUT0\r", [0x4F, 0x4B]))
  {
    assert [0x4F, 0x4B, 0x0D, 0x4F][..3] == OkReply;
    assert Read([0x45, 0x52, 0x0D], AckLength) == [0x45, 0x52, 0x0D];
    assert [0x45, 0x52, 0x0D][0] != OkReply[0];
    assert Read([0x4F, 0x4B], AckLength) == [0x4F, 0x4B];
  }

  /**
   * set_voltage: clamp to 1..60 V, send VOLT with the 3-digit magnitude.
   * The instrument receives the clamped request truncated to tenths.
   */
  function SetVoltage(link: Link, voltage: real, incoming: seq<byte>): (r: (Link, Outcome<Error>))
    ensures !link.isOpen ==> r == (link, Pass)
    ensures link.isOpen ==> Extends(link, r.0) && |Sent(link, r.0)| == 8
    ensures link.isOpen ==>
              Interpret(Sent(link, r.0)) == Some(SetLevel(Voltage, (Clamp(voltage, 1.0, 60.0).value * 10.0).Floor))
    ensures link.isOpen ==> (r.1.Pass? <==> Acknowledged(incoming))
    ensures r.1.Fail? ==>
              r.1.error.CommandRejected? && Utf8(r.1.error.command) == Sent(link, r.0)
              && r.1.error.reply == Read(incoming, AckLength)
  {
    var cmd := SetCommand(Voltage, voltage);
    assert Tenths(Voltage, voltage) == (Clamp(voltage, 1.0, 60.0).value * 10.0).Floor;
    AsciiBytes(cmd);
    SendCmd(link, cmd, incoming)
  }

  /** set_current: clamp to 0..15 A, send CURR with the 3-digit magnitude. */
  function SetCurrent(link: Link, current: real, incoming: seq<byte>): (r: (Link, Outcome<Error>))
    ensures !link.isOpen ==> r == (link, Pass)
    ensures link.isOpen ==> Extends(link, r.0) && |Sent(link, r.0)| == 8
    ensures link.isOpen ==>
              Interpret(Sent(link, r.0)) == Some(SetLevel(Current, (Clamp(current, 0.0, 15.0).value * 10.0).Floor))
    ensures link.isOpen ==> (r.1.Pass? <==> Acknowledged(incoming))
    ensures r.1.Fail? ==>
              r.1.error.CommandRejected? && Utf8(r.1.error.command) == Sent(link, r.0)
              && r.1.error.reply == Read(incoming, AckLength)
  {
    var cmd := SetCommand(Current, current);
    assert Tenths(Current, current) == (Clamp(current, 0.0, 15.0).value * 10.0).Floor;
    AsciiBytes(cmd);
    SendCmd(link, cmd, incoming)
  }

  /** enable_output: send SOUT0, which the instrument reads as output on. */
  function EnableOutput(link: Link, incoming: seq<byte>): (r: (Link, Outcome<Error>))
    ensures !link.isOpen ==> r == (link, Pass)
    ensures link.isOpen ==> Extends(link, r.0) && Interpret(Sent(link, r.0)) == Some(SetOutput(true))
    ensures link.isOpen ==> (r.1.Pass? <==> Acknowledged(incoming))
  {
    FixedCommands();
    SendCmd(link, EnableOutputCommand, incoming)
  }

  /** disable_output: send SOUT1, which the instrument reads as output off. */
  function DisableOutput(link: Link, incoming: seq<byte>): (r: (Link, Outcome<Error>))
    ensures !link.isOpen ==> r == (link, Pass)
    ensures link.isOpen ==> Extends(link, r.0) && Interpret(Sent(link, r.0)) == Some(SetOutput(false))
    ensures link.isOpen ==> (r.1.Pass? <==> Acknowledged(incoming))
  {
    FixedCommands();
    SendCmd(link, DisableOutputCommand, incoming)
  }

  /** enable_output and disable_output never send the same bytes. */
  lemma OutputCommandsNotSwapped(link: Link, incoming: seq<byte>)
    requires link.isOpen
    ensures Sent(link, EnableOutput(link, incoming).0) != Sent(link, DisableOutput(link, incoming).0)
  {
  }

  /**
   * get_display: with a port, send GETD, read ten bytes and decode them;
   * without one, return (0, 0, False) and send nothing.
   */
  function GetDisplay(link: Link, incoming: seq<byte>): (r: (Link, Result<Display, Error>))
    ensures !link.isOpen ==> r == (link, Success(NoDisplay))
    ensures link.isOpen ==> Extends(link, r.0) && Interpret(Sent(link, r.0)) == Some(ReadDisplay)
    ensures link.isOpen ==>
              (r.1.Success? <==>
                 9 <= |incoming| && ParseField(incoming[..4]).Some? && ParseField(incoming[4..8]).Some?)
    ensures link.isOpen && r.1.Success? ==>
              && Some(r.1.value.voltage) == ParseField(incoming[..4])
              && Some(r.1.value.current) == ParseField(incoming[4..8])
              && (r.1.value.constantVoltage <==> incoming[8] == '0' as int)
  {
    if !link.isOpen then (link, Success(NoDisplay))
    else
      FixedCommands();
      WriteSends(link, DisplayCommand);
      var next := Write(link, DisplayCommand);
      var reply := Read(incoming, DisplayLength);
      assert 9 <= |incoming| ==> reply[..4] == incoming[..4] && reply[4..8] == incoming[4..8] && reply[8] == incoming[8];
      match DecodeDisplay(reply)
      case Success(d) => (next, Success(d))
      case Failure(e) => (next, Failure(MalformedReply(e)))
  }

  /** Whatever the instrument reports comes back from get_display, whatever follows the ten bytes. */
  lemma GetDisplayRoundTrip(link: Link, d: Display, spare: byte, rest: seq<byte>)
    requires link.isOpen
    requires d.voltage < 10000 && d.current < 10000
    ensures GetDisplay(link, EncodeDisplay(d, spare) + rest).1 == Success(d)
  {
    var incoming := EncodeDisplay(d, spare) + rest;
    assert Read(incoming, DisplayLength) == EncodeDisplay(d, spare);
    DisplayRoundTrip(d, spare);
  }

  /** An acknowledged command on an open port: its bytes are appended and nothing is raised. */
  lemma AcknowledgedSend(link: Link, cmd: string)
    requires link.isOpen
    ensures SendCmd(link, cmd, OkReply) == (Link(true, link.written + Utf8(cmd)), Pass)
  {
    assert OkReply[..3] == OkReply;
  }

  /** 0.1 A, inside the current range, is sent as CURR001. */
  lemma CurrentDemoCommand()
    ensures SetCommand(Current, 0.1) == "CURR001\r"
  {
    Magnitude001();
    InRangeCommand(Current, 0.1);
    assert Opcode(Current) + "001" + "\r" == "CURR001\r";
  }

  /** 1 V, inside the voltage range, is sent as VOLT010. */
  lemma VoltageDemoCommand()
    ensures SetCommand(Voltage, 1.0) == "VOLT010\r"
  {
    Magnitude010();
    InRangeCommand(Voltage, 1.0);
    assert Opcode(Voltage) + "010" + "\r" == "VOLT010\r";
  }

  /**
   * The start of the demo script: output off, 0.1 A, 1 V, output on, each
   * acknowledged, puts SOUT1, CURR001, VOLT010 and SOUT0 on the wire.
   */
  lemma DemoStartSequence()
    ensures var l0 := Link(true, []);
            var (l1, o1) := DisableOutput(l0, OkReply);
            var (l2, o2) := SetCurrent(l1, 0.1, OkReply);
            var (l3, o3) := SetVoltage(l2, 1.0, OkReply);
            var (l4, o4) := EnableOutput(l3, OkReply);
            && o1 == o2 == o3 == o4 == Pass
            && l4.written == Utf8("SOUT1\r") + Utf8("CURR001\r") + Utf8("VOLT010\r") + Utf8("SOUT0\r")
  {
    CurrentDemoCommand();
    VoltageDemoCommand();
    var l0 := Link(true, []);
    AcknowledgedSend(l0, "SOUT1\r");
    var l1 := Link(true, Utf8("SOUT1\r"));
    assert DisableOutput(l0, OkReply) == (l1, Pass);
    AcknowledgedSend(l1, "CURR001\r");
    var l2 := Link(true, l1.written + Utf8("CURR001\r"));
    assert SetCurrent(l1, 0.1, OkReply) == (l2, Pass);
    AcknowledgedSend(l2, "VOLT010\r");
    var l3 := Link(true, l2.written + Utf8("VOLT010\r"));
    assert SetVoltage(l2, 1.0, OkReply) == (l3, Pass);
    AcknowledgedSend(l3, "SOUT0\r");
    assert EnableOutput(l3, OkReply) == (Link(true, l3.written + Utf8("SOUT0\r")), Pass);
  }
}
