/**
 * The serial connection as the protocol layer sees it. Opening, closing,
 * flushing and the settling delays are not modelled: a link is only
 * whether a port is set and the bytes written to it so far, and each
 * exchange is handed the bytes the instrument makes available before the
 * read times out.
 */
module Transport {
  import opened Text

  /** isOpen: the driver holds a port (self.ser is set); written: every byte sent, oldest first. */
  datatype Link = Link(isOpen: bool, written: seq<byte>)

  /** ser.write(cmd.encode("UTF-8")). */
  function Write(link: Link, cmd: string): (next: Link)
    ensures next.isOpen == link.isOpen
    ensures next.written == link.written + Utf8(cmd)
  {
    link.(written := link.written + Utf8(cmd))
  }

  /**
   * ser.read(n) with a timeout: the first n bytes the instrument makes
   * available, or fewer if it stops sending before the timeout.
   */
  function Read(incoming: seq<byte>, n: nat): (got: seq<byte>)
    ensures |got| == if |incoming| < n then |incoming| else n
    ensures got == incoming[..|got|]
  {
    if |incoming| < n then incoming else incoming[..n]
  }

  /** after continues before: same port, and only bytes appended to what was written. */
  predicate Extends(before: Link, after: Link) {
    && after.isOpen == before.isOpen
    && |before.written| <= |after.written|
    && after.written[..|before.written|] == before.written
  }

  /** The bytes written between two states of a link. */
  function Sent(before: Link, after: Link): (bs: seq<byte>)
    requires Extends(before, after)
    ensures after.written == before.written + bs
  {
    after.written[|before.written|..]
  }

  /** Writing extends the link by exactly the encoded command. */
  lemma WriteSends(link: Link, cmd: string)
    ensures Extends(link, Write(link, cmd))
    ensures Sent(link, Write(link, cmd)) == Utf8(cmd)
  {
    var next := Write(link, cmd);
    assert next.written[..|link.written|] == link.written;
  }
}
