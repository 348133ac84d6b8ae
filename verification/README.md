# BK1902B power-supply protocol, modelled in Dafny

This project models the command/reply protocol layer of a Python driver for the
BK Precision 1902B bench power supply. The supply is driven over a serial line with a
fixed ASCII protocol:

- `VOLTddd\r` and `CURRddd\r` set the voltage and current limits. `ddd` is the
  clamped setpoint times ten, truncated and zero-padded to three digits.
- `SOUT0\r` switches the output on and `SOUT1\r` switches it off.
- `GETD\r` asks for the front display. The reply is 10 bytes:
  - bytes 0-3: voltage ×100;
  - bytes 4-7: current ×100;
  - byte 8: the CV/CC flag (`'0'` means constant voltage);
  - byte 9: unused.

There are two variants of the driver, and both are modelled:

- The packaged driver (`bk_precision_1900/bk1902b.py`, module `Driver`) waits after every set and output command for the 3-byte acknowledge `OK\r`. It does nothing when no port is set.
- The older driver (`bk/bk1902b.py`, module `LegacyDriver`) only writes and never reads an acknowledge. With no port, every operation fails.

The two files share identical helpers (`_clamp`, `_toBkStr`), so those are modelled once.

Modules:

| file | module | contents |
|---|---|---|
| `results.dfy` | `Results` | `Option`, `Result`, `Outcome` for the driver's exceptions |
| `text.dfy` | `Text` | bytes; Python's `str(int)`, `str.zfill`, `str.encode("UTF-8")`, `bytes.rstrip()` |
| `setpoint.dfy` | `Setpoint` | `_clamp`, the clamp notice, `int()` truncation, `_toBkStr` |
| `protocol.dfy` | `Protocol` | command strings, `Interpret` (the instrument's reading of a command), the `OK\r` acknowledge, display decoding and `EncodeDisplay` (the instrument's side of the display reply) |
| `transport.dfy` | `Transport` | a link as "is a port set" plus the trace of bytes written; `read(n)` with a timeout |
| `driver.dfy` | `Driver` | the packaged driver |
| `legacy_driver.dfy` | `LegacyDriver` | the older driver, and a lemma that it sends the same bytes as the packaged one |

Representation choices:

- Setpoints are exact reals.
- Telemetry is kept as integer hundredths of a volt and of an ampere.
- Bytes are integers 0-255.
- The transport is represented by two things. The link records every byte written. Each exchange is given the bytes the instrument makes available before the read times out, so `read(n)` returns the first `min(n, available)` of them.
- Clocks, flushing and the serial port itself are not modelled.

What is proved:

- The instrument's reading of a command is modelled by `Protocol.Interpret`. Every set command is proved to reach the instrument as the clamped request truncated to tenths. `SOUT0` is proved to read as "on" and `SOUT1` as "off".
- The instrument's display reply is modelled by `Protocol.EncodeDisplay`. Every reading below 100.00 is proved to decode back to itself.
- `_clamp` is proved to return the point of the range nearest to the request.

Behaviour of the code that is easy to misread:

- `_toBkStr` (bk_precision_1900/bk1902b.py:64) does not reject magnitudes of four or more digits. From 100 upward the string simply grows (`Setpoint.ToBkStr`). Clamping keeps the drivers' own calls below that.
- `get_display` (bk_precision_1900/bk1902b.py:112-117) never looks at byte 9, so a reply of exactly 9 bytes decodes. Only replies shorter than 9 bytes, or with a field that does not parse, fail (`Protocol.ShortDisplayFails`, `Protocol.DisplayIgnoresTail`).
- With no port, the packaged driver is a silent no-op for every number it is given (bk_precision_1900/bk1902b.py:68 and :106-109), and `get_display` returns `(0, 0, False)`.
- The clamp notice (bk_precision_1900/bk1902b.py:82 and :89) compares the clamped value with itself, so it never fires for any number (`Setpoint.ClampNotice`).
- `SOUT0` is sent by `enable_output` and `SOUT1` by `disable_output` (bk_precision_1900/bk1902b.py:93-99, bk/bk1902b.py:79-85). The model keeps this mapping.
- A set command (bk_precision_1900/bk1902b.py:84 and :91) is 8 bytes: a 4-character opcode, 3 digits and CR.

## Model

| member | source | states |
|---|---|---|
| `Setpoint.Clamp` | bk_precision_1900/bk1902b.py:51-60 | fails with InvalidRange exactly when minimum > maximum; otherwise the result lies in [minimum, maximum], equals minimum below the range, maximum above it, and the request itself inside it |
| `Setpoint.ClampIsNearest` | bk/bk1902b.py:47-54 | on a proper range the clamped value is the point of the range nearest to the request, strictly nearer than any other point |
| `Setpoint.ClampIdempotent` | bk_precision_1900/bk1902b.py:56-60 | clamping an already clamped value into the same range changes nothing |
| `Setpoint.ClampNotice` | bk_precision_1900/bk1902b.py:81-83 | the "input was clamped" notice condition is false for every number |
| `Setpoint.ClampNoticeMissesClamping` | bk/bk1902b.py:67-69 | a 70 V request is clamped to 60 V, yet the notice stays silent |
| `Setpoint.Trunc` | bk_precision_1900/bk1902b.py:64 | `int()` truncates toward zero: within one below a non-negative value, within one above a negative value |
| `Setpoint.ToBkStr` | bk_precision_1900/bk1902b.py:62-64 | for 0 <= v < 100 the magnitude is exactly three ASCII digits whose value is floor(v*10); from 100 on it has more than three digits and keeps the full value; for v <= -0.1 it starts with '-'; for -0.1 < v < 0 it is "000" |
| `Setpoint.ToBkStrRoundTrip` | bk/bk1902b.py:56-58 | any setpoint of n tenths (n < 1000) encodes to digits that read back as n |
| `Setpoint.ToBkStrExamples` | bk_precision_1900/bk1902b.py:63-64 | 1 -> "010", 60 -> "600", 0 -> "000", 15 -> "150", 0.1 -> "001" |
| `Setpoint.NonNegativeMagnitude` | bk_precision_1900/bk1902b.py:64 | for a non-negative value the magnitude is the decimal text of its whole tenths, zero-filled to three characters |
| `Text.PyStr` | bk_precision_1900/bk1902b.py:64 | `str` of a non-negative integer is its decimal digits; of a negative integer it is '-' followed by the digits of its magnitude |
| `Text.DecimalRoundTrip` | bk_precision_1900/bk1902b.py:64 | the decimal text `str` gives a natural number reads back as that number |
| `Text.ZFill` | bk/bk1902b.py:58 | zfill pads on the left with '0' to the width, keeps a leading sign in front, and leaves longer strings untouched |
| `Text.Utf8` | bk_precision_1900/bk1902b.py:69 | encoding a string gives between one and four bytes per character |
| `Text.Utf8Snoc` | bk_precision_1900/bk1902b.py:69 | encoding a string with one more character appends exactly that character's encoding |
| `Text.AsciiBytes` | bk_precision_1900/bk1902b.py:111 | ASCII text encodes to one byte per character, that character's code, and reading the bytes back as text gives the text |
| `Transport.Write` | bk_precision_1900/bk1902b.py:69 | a write keeps the port state and appends exactly the UTF-8 bytes of the command to what was written before |
| `Text.RStrip` | bk_precision_1900/bk1902b.py:113 | the result is a prefix of the input, everything removed is whitespace, and the result does not end in whitespace |
| `Transport.Read` | bk_precision_1900/bk1902b.py:72 | a read of n bytes returns the first min(n, available) bytes the instrument sent |
| `Protocol.SetCommand` | bk_precision_1900/bk1902b.py:79-91 | the set command is 8 ASCII characters starting with its opcode, and the instrument reads it as the clamped request truncated to tenths |
| `Protocol.SetCommandRoundTrip` | bk/bk1902b.py:65-77 | an in-range setpoint given in tenths reaches the instrument unchanged |
| `Protocol.FixedCommands` | bk_precision_1900/bk1902b.py:93-99 | SOUT0 is read as output on, SOUT1 as output off, GETD as the display query |
| `Protocol.OkReplyIsOkText` | bk_precision_1900/bk1902b.py:73 | the expected acknowledge is the UTF-8 text "OK\r" |
| `Protocol.Slice` | bk_precision_1900/bk1902b.py:113-115 | a slice lo:hi is bs[lo..hi] when the reply is long enough, the rest from lo when it ends inside the slice, and empty when it ends before lo |
| `Protocol.ParseField` | bk_precision_1900/bk1902b.py:113-116 | a numeric field parses exactly when, after trailing whitespace is stripped, it is a non-empty run of ASCII digits, and its value is then the decimal value of those digits |
| `Protocol.ParsePaddedField` | bk/bk1902b.py:96-99 | digits followed by any run of whitespace bytes (space, tab, CR, LF, VT, FF) parse to the digits' value |
| `Protocol.ParseTabPaddedField` | bk_precision_1900/bk1902b.py:113-114 | the field "512" followed by a tab parses to 512 |
| `Protocol.DecodeDisplay` | bk_precision_1900/bk1902b.py:112-117 | decoding succeeds exactly when the reply has at least 9 bytes and both 4-byte fields parse; voltage and current are the fields' values in hundredths; constant voltage holds exactly when byte 8 is '0'; a bad voltage field is reported first |
| `Protocol.ShortDisplayFails` | bk_precision_1900/bk1902b.py:117 | a reply shorter than 9 bytes never decodes |
| `Protocol.DisplayIgnoresTail` | bk/bk1902b.py:95-100 | byte 9 and anything after it do not affect the decoded reading |
| `Protocol.DisplayRoundTrip` | bk_precision_1900/bk1902b.py:113-117 | every reading below 100.00 V and 100.00 A, sent in the instrument's layout with either mode flag, decodes back to itself |
| `Protocol.DisplayExample` | bk/bk1902b.py:95-100 | "0512", "0103", '0' reads as 5.12 V, 1.03 A, constant voltage; with '1' it reads as constant current |
| `Driver.SendCmd` | bk_precision_1900/bk1902b.py:66-77 | with a port, the command's UTF-8 bytes are appended to the trace, and the call succeeds exactly when the first three reply bytes are "OK\r"; otherwise it fails, naming the command and the bytes read; with no port it writes nothing and succeeds |
| `Driver.Exchange` | bk_precision_1900/bk1902b.py:68-77 | an equivalent step-by-step formulation of SendCmd (the source makes one write): appending the command's bytes one character at a time and then checking the acknowledge gives the same trace and outcome as SendCmd |
| `Driver.AcknowledgeExamples` | bk_precision_1900/bk1902b.py:72-77 | "OK\r" is accepted, even with extra bytes behind it; "ER\r" and a 2-byte "OK" are rejected, with the bytes read |
| `Driver.SetVoltage` | bk_precision_1900/bk1902b.py:79-84 | with a port, exactly 8 bytes are sent, and the instrument reads them as a voltage of floor(clamp(v, 1, 60) * 10) tenths; success exactly on "OK\r"; a rejection names the command that was sent; with no port nothing is sent |
| `Driver.SetCurrent` | bk_precision_1900/bk1902b.py:86-91 | the same for current, clamped to 0-15 A |
| `Driver.EnableOutput` | bk_precision_1900/bk1902b.py:93-95 | with a port, the bytes sent are read as output on; success exactly on "OK\r" |
| `Driver.DisableOutput` | bk_precision_1900/bk1902b.py:97-99 | with a port, the bytes sent are read as output off; success exactly on "OK\r" |
| `Driver.OutputCommandsNotSwapped` | bk_precision_1900/bk1902b.py:93-99 | enable and disable never send the same bytes |
| `Driver.GetDisplay` | bk_precision_1900/bk1902b.py:101-118 | with no port it returns (0, 0, False) and sends nothing; with a port it sends the display query and succeeds exactly when the reply has at least 9 bytes and both fields parse, returning their values and CV exactly when byte 8 is '0' |
| `Driver.GetDisplayRoundTrip` | bk_precision_1900/bk1902b.py:109-118 | any reading the instrument sends is returned unchanged, whatever follows the ten bytes |
| `Driver.AcknowledgedSend` | bk_precision_1900/bk1902b.py:68-73 | an acknowledged command on an open port appends its bytes and raises nothing |
| `Driver.DemoStartSequence` | bk_precision_1900/bk_demo.py:15-23 | output off, 0.1 A, 1 V, output on, all acknowledged, put exactly SOUT1, CURR001, VOLT010, SOUT0 on the wire |
| `LegacyDriver.SendCmd` | bk/bk1902b.py:60-63 | with a port, the command's bytes are appended and the call cannot fail; with no port it fails and writes nothing |
| `LegacyDriver.SetVoltage` | bk/bk1902b.py:65-70 | with a port, 8 bytes are sent and read by the instrument as floor(clamp(v, 1, 60) * 10) tenths of a volt; it fails exactly when no port is set |
| `LegacyDriver.SetCurrent` | bk/bk1902b.py:72-77 | the same for current, clamped to 0-15 A |
| `LegacyDriver.SetOutputOn` | bk/bk1902b.py:79-81 | the bytes sent are read as output on; it fails exactly when no port is set |
| `LegacyDriver.SetOutputOff` | bk/bk1902b.py:83-85 | the bytes sent are read as output off; it fails exactly when no port is set |
| `LegacyDriver.GetDisplay` | bk/bk1902b.py:87-104 | with no port it fails; with a port it sends the display query and decodes the reply with the same success condition and fields as the packaged driver |
| `LegacyDriver.SameWireAsPackaged` | bk/bk1902b.py:60-104 | on an open port both variants write identical bytes for every operation and return the same display reading |

## Left out

- Opening and closing the port, the context manager, `flush`/`flushInput` and the `time.sleep` delays are serial-port plumbing. A link is only "port set or not" plus the bytes written.
- A port that was opened and then closed is not modelled. `close()` leaves `self.ser` set, and pyserial would then raise on write. The model has no such state.
- Exceptions raised by pyserial itself are not modelled (write errors, `SerialException`).
- `print` output is console output only. This covers the clamp notice and the older driver's display printout. `Setpoint.ClampNotice` records that the notice is never shown for any number.
- Protocol.ParseField: accepts only ASCII digits followed by trailing whitespace. Python's `float()` also accepts leading whitespace, a sign, a decimal point, an exponent, underscores, and `inf`/`nan`. Such replies count as malformed here, although the source would decode them.
- Text.Utf8: its own contract gives only the length bounds. The per-character structure is stated by `Text.Utf8Snoc` and the byte values of ASCII text by `Text.AsciiBytes`, because putting them into the function's contract makes every proof that mentions an encoding much more expensive.
- Setpoint.ToBkStr: uses exact real arithmetic, so IEEE-754 rounding of `val * 10` is not modelled. Neither are NaN and infinities.
- Setpoint.Clamp: works on exact reals. Python's comparisons involving NaN are not modelled.
- Setpoint.ClampNotice: the notice does fire for a NaN request. `_clamp` passes NaN through unchanged, because both of its comparisons are false; `nan != nan` is true, so the notice prints; `_toBkStr` then raises ValueError on `int(nan * 10)`, even with no port set. Reals have no NaN, so none of this is modelled.
- Each exchange is handed its own fresh reply bytes. Bytes of a reply that the packaged `_sendCmd` (bk_precision_1900/bk1902b.py:72) leaves unread are not carried into the next read, although `_sendCmd` never calls `flushInput` as `get_display` does (bk_precision_1900/bk1902b.py:110); on real hardware the trailing 'O' of "OK\rO" in `Driver.AcknowledgeExamples` would reach the next acknowledge.
- Driver.GetDisplay: returns the reading in integer hundredths rather than the float `value / 100`.
- The older file has a syntax error in the constructor signature, a misspelt `RunttimeError`, and unqualified `_clamp`/`_toBkStr` calls. The model uses the intended helper calls. The constructor and `open` are outside the model anyway.
- `bk_precision_1900/bk_demo.py` is command-line parsing, a timed sweep loop and printing. Only its opening command sequence is stated (`Driver.DemoStartSequence`).
