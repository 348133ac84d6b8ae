/**
 * The older driver (bk/bk1902b.py): commands are written and never
 * acknowledged, and there is no check for a missing port, so with no
 * port every operation fails (Python's AttributeError on None).
 * It shares the clamp, the magnitude encoding, the command strings and
 * the display layout with the packaged driver.
 */
module LegacyDriver {
  import opened Results
  import opened Text
  import opened Setpoint
  import opened Protocol
  import opened Transport
  import Driver

  /** The AttributeError of using a port that was never opened, and a display reply float()/int() reject. */
  datatype Error =
    | PortNotOpen
    | MalformedReply(cause: DisplayError)

  /** _sendCmd: write the command; no reply is read, so an open port never fails. */
  function SendCmd(link: Link, cmd: string): (r: (Link, Outcome<Error>))
    ensures r.1.Pass? <==> link.isOpen
    ensures !link.isOpen ==> r == (link, Fail(PortNotOpen))
    ensures link.isOpen ==> Extends(link, r.0) && Sent(link, r.0) == Utf8(cmd)
  {
    if !link.isOpen then (link, Fail(PortNotOpen))
    else
      WriteSends(link, cmd);
      (Write(link, cmd), Pass)
  }

  /** set_voltage: clamp to 1..60 V and send VOLT with the 3-digit magnitude. */
  function SetVoltage(link: Link, voltage: real): (r: (Link, Outcome<Error>))
    ensures r.1.Pass? <==> link.isOpen
    ensures !link.isOpen ==> r.0 == link
    ensures link.isOpen ==> Extends(link, r.0) && |Sent(link, r.0)| == 8
    ensures link.isOpen ==>
              Interpret(Sent(link, r.0)) == Some(SetLevel(Voltage, (Clamp(voltage, 1.0, 60.0).value * 10.0).Floor))
  {
    var cmd := SetCommand(Voltage, voltage);
    assert Tenths(Voltage, voltage) == (Clamp(voltage, 1.0, 60.0).value * 10.0).Floor;
    AsciiBytes(cmd);
    SendCmd(link, cmd)
  }

  /** set_current: clamp to 0..15 A and send CURR with the 3-digit magnitude. */
  function SetCurrent(link: Link, current: real): (r: (Link, Outcome<Error>))
    ensures r.1.Pass? <==> link.isOpen
    ensures !link.isOpen ==> r.0 == link
    ensures link.isOpen ==> Extends(link, r.0) && |Sent(link, r.0)| == 8
    ensures link.isOpen ==>
              Interpret(Sent(link, r.0)) == Some(SetLevel(Current, (Clamp(current, 0.0, 15.0).value * 10.0).Floor))
  {
    var cmd := SetCommand(Current, current);
    assert Tenths(Current, current) == (Clamp(current, 0.0, 15.0).value * 10.0).Floor;
    AsciiBytes(cmd);
    SendCmd(link, cmd)
  }

  /** set_output_on: send SOUT0, which the instrument reads as output on. */
  function SetOutputOn(link: Link): (r: (Link, Outcome<Error>))
    ensures r.1.Pass? <==> link.isOpen
    ensures link.isOpen ==> Extends(link, r.0) && Interpret(Sent(link, r.0)) == Some(SetOutput(true))
  {
    FixedCommands();
    SendCmd(link, EnableOutputCommand)
  }

  /** set_output_off: send SOUT1, which the instrument reads as output off. */
  function SetOutputOff(link: Link): (r: (Link, Outcome<Error>))
    ensures r.1.Pass? <==> link.isOpen
    ensures link.isOpen ==> Extends(link, r.0) && Interpret(Sent(link, r.0)) == Some(SetOutput(false))
  {
    FixedCommands();
    SendCmd(link, DisableOutputCommand)
  }

  /** get_display: send GETD, read ten bytes and decode them as [volt, current, cv]. */
  function GetDisplay(link: Link, incoming: seq<byte>): (r: (Link, Result<Display, Error>))
    ensures !link.isOpen ==> r == (link, Failure(PortNotOpen))
    ensures link.isOpen ==> Extends(link, r.0) && Interpret(Sent(link, r.0)) == Some(ReadDisplay)
    ensures link.isOpen ==>
              (r.1.Success? <==>
                 9 <= |incoming| && ParseField(incoming[..4]).Some? && ParseField(incoming[4..8]).Some?)
    ensures link.isOpen && r.1.Success? ==>
              && Some(r.1.value.voltage) == ParseField(incoming[..4])
              && Some(r.1.value.current) == ParseField(incoming[4..8])
              && (r.1.value.constantVoltage <==> incoming[8] == '0' as int)
  {
    if !link.isOpen then (link, Failure(PortNotOpen))
    else
      FixedCommands();
      WriteSends(link, DisplayCommand);
      var next := Write(link, DisplayCommand);
      var reply := Read(incoming, Driver.DisplayLength);
      assert 9 <= |incoming| ==> reply[..4] == incoming[..4] && reply[4..8] == incoming[4..8] && reply[8] == incoming[8];
      match DecodeDisplay(reply)
      case Success(d) => (next, Success(d))
      case Failure(e) => (next, Failure(MalformedReply(e)))
  }

  /**
   * On an open port the two variants put the same bytes on the wire for
   * every operation and read the same display; the older one simply
   * never waits for the acknowledge.
   */
  lemma SameWireAsPackaged(link: Link, voltage: real, current: real, incoming: seq<byte>)
    requires link.isOpen
    ensures SetVoltage(link, voltage).0 == Driver.SetVoltage(link, voltage, incoming).0
    ensures SetCurrent(link, current).0 == Driver.SetCurrent(link, current, incoming).0
    ensures SetOutputOn(link).0 == Driver.EnableOutput(link, incoming).0
    ensures SetOutputOff(link).0 == Driver.DisableOutput(link, incoming).0
    ensures GetDisplay(link, incoming).0 == Driver.GetDisplay(link, incoming).0
    ensures GetDisplay(link, incoming).1.Success? <==> Driver.GetDisplay(link, incoming).1.Success?
    ensures GetDisplay(link, incoming).1.Success? ==>
              GetDisplay(link, incoming).1.value == Driver.GetDisplay(link, incoming).1.value
  {
  }
}
