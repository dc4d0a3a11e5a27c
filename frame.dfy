/**
 * The wire framing shared by every packet of the LSC servo controller board:
 * header 0x55 0x55, a length byte counting itself, the command byte and the
 * parameters, then the parameters themselves.
 */
module Frame {
  import opened Outcomes

  /** A byte as it comes back from the serial port. */
  type byte = b: int | 0 <= b < 256

  const Header: seq<int> := [0x55, 0x55]

  /** `bytearray(xs)` succeeds exactly when every element is a byte. */
  predicate AllBytes(xs: seq<int>)
  {
    forall i :: 0 <= i < |xs| ==> 0 <= xs[i] < 256
  }

  /** `x & 0xFF` on a Python integer (two's complement, so also for negative x). */
  function Lo(x: int): (b: byte)
  {
    x % 256
  }

  /** `(x >> 8) & 0xFF` on a Python integer: an arithmetic shift, then the mask. */
  function Hi(x: int): (b: byte)
  {
    (x / 256) % 256
  }

  /** The two bytes put on the wire keep exactly the value modulo 2^16. */
  lemma LoHiTruncates(x: int)
    ensures Lo(x) + 256 * Hi(x) == x % 65536
  {
    var q := x / 256;
    assert x == 256 * q + Lo(x);
    var q2 := q / 256;
    assert q == 256 * q2 + Hi(x);
    assert x == 65536 * q2 + (Lo(x) + 256 * Hi(x));
    assert 0 <= Lo(x) + 256 * Hi(x) < 65536;
  }

  /** A 16-bit value survives the split into a low and a high byte. */
  lemma LoHiRoundTrip(x: int)
    requires 0 <= x < 65536
    ensures Lo(x) + 256 * Hi(x) == x
  {
    LoHiTruncates(x);
  }

  /** `HEADER + [len(params) + 2, command] + params`: the packet `send_command` writes. */
  function Packet(command: int, params: seq<int>): (p: seq<int>)
    ensures |p| == |params| + 4
  {
    Header + [|params| + 2, command] + params
  }

  /**
   * The reading of a frame: header, a length byte equal to the frame's size
   * without the header, then the command and its parameters.
   */
  function ParseFrame(p: seq<int>): Option<(int, seq<int>)>
  {
    if |p| >= 4 && p[..2] == Header && p[2] == |p| - 2 then Some((p[3], p[4..])) else None
  }

  /** Every packet parses back to its command and parameters. */
  lemma ParsePacket(command: int, params: seq<int>)
    ensures ParseFrame(Packet(command, params)) == Some((command, params))
  {
    var p := Packet(command, params);
    assert p[..2] == Header;
    assert p[4..] == params;
  }

  /** Every frame that parses is the packet of what it parses to. */
  lemma PacketOfParse(p: seq<int>)
    requires ParseFrame(p).Some?
    ensures Packet(ParseFrame(p).value.0, ParseFrame(p).value.1) == p
  {
    var q := Packet(p[3], p[4..]);
    assert |q| == |p|;
    assert forall i :: 0 <= i < |p| ==> q[i] == p[i];
  }

  /** The packet is a byte string exactly when its length byte, command and parameters are bytes. */
  lemma PacketBytes(command: int, params: seq<int>)
    ensures AllBytes(Packet(command, params)) <==>
      |params| + 2 < 256 && 0 <= command < 256 && AllBytes(params)
  {
    var p := Packet(command, params);
    if AllBytes(p) {
      assert p[2] == |params| + 2 && p[3] == command;
      forall i | 0 <= i < |params| ensures 0 <= params[i] < 256 {
        assert p[4 + i] == params[i];
      }
    }
  }
}
