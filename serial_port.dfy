/**
 * The serial link the controller owns, reduced to what the controller relies
 * on: a byte sink that reports how many bytes it took, a canned reply, flush
 * and close; and the choice of the port among the ones the system lists.
 */
module SerialPort {
  import opened Outcomes
  import opened Frame

  /** One call the controller made on the port, in the order it made them. */
  datatype Event = Wrote(data: seq<int>) | Flushed | ReadRequest(size: nat) | Closed

  class Port {
    var isOpen: bool
    /** Every call that reached the open port. */
    var log: seq<Event>
    /** What `write` reports; `None` means it reports the full length, as a healthy port does. */
    const reported: Option<int>
    /** What the board has sent back; `read(size)` hands out at most `size` bytes of it. */
    const reply: seq<byte>
    /** Whether the operating system refuses to close the port. */
    const closeFails: bool

    constructor (reported: Option<int>, reply: seq<byte>, closeFails: bool)
      ensures isOpen && log == []
      ensures this.reported == reported && this.reply == reply && this.closeFails == closeFails
    {
      isOpen := true;
      log := [];
      this.reported := reported;
      this.reply := reply;
      this.closeFails := closeFails;
    }

    /** The count `write` reports for `data`. */
    function WriteCount(data: seq<int>): int
    {
      if reported.Some? then reported.value else |data|
    }

    method Write(data: seq<int>) returns (r: Result<int, Error>)
      requires AllBytes(data)
      modifies this
      ensures old(isOpen) ==> r == Success(WriteCount(data)) && log == old(log) + [Wrote(data)]
      ensures !old(isOpen) ==> r == Failure(PortNotOpen) && log == old(log)
      ensures isOpen == old(isOpen)
    {
      if !isOpen {
        return Failure(PortNotOpen);
      }
      log := log + [Wrote(data)];
      r := Success(WriteCount(data));
    }

    method Flush() returns (r: Outcome<Error>)
      modifies this
      ensures old(isOpen) ==> r == Pass && log == old(log) + [Flushed]
      ensures !old(isOpen) ==> r == Fail(PortNotOpen) && log == old(log)
      ensures isOpen == old(isOpen)
    {
      if !isOpen {
        return Fail(PortNotOpen);
      }
      log := log + [Flushed];
      r := Pass;
    }

    /** `read(size)`: at most `size` bytes; fewer when the board sent fewer before the timeout. */
    method Read(size: nat) returns (r: Result<seq<byte>, Error>)
      modifies this
      ensures old(isOpen) ==>
        log == old(log) + [ReadRequest(size)] && r == Success(if size <= |reply| then reply[..size] else reply)
      ensures !old(isOpen) ==> r == Failure(PortNotOpen) && log == old(log)
      ensures isOpen == old(isOpen)
    {
      if !isOpen {
        return Failure(PortNotOpen);
      }
      log := log + [ReadRequest(size)];
      r := Success(if size <= |reply| then reply[..size] else reply);
    }

    method Close() returns (r: Outcome<Error>)
      modifies this
      ensures !isOpen && log == old(log) + [Closed]
      ensures r == if closeFails then Fail(CloseFailed) else Pass
    {
      isOpen := false;
      log := log + [Closed];
      r := if closeFails then Fail(CloseFailed) else Pass;
    }
  }

  /** One entry of the system's port listing: `(port, desc, hwid)`. */
  datatype PortInfo = PortInfo(device: string, description: string, hwid: string)

  /** `COM_PORT_NAME`: the description the board's USB bridge reports. */
  const ComPortName: string := "Arduino Leonardo"

  /** Python's `sub in s` on strings: `sub` occurs somewhere in `s`. */
  predicate Contains(s: string, sub: string)
    decreases |s|
  {
    |sub| <= |s| && (s[..|sub|] == sub || Contains(s[1..], sub))
  }

  /** `sub` occurs in `s` starting at offset i. */
  predicate OccursAt(s: string, sub: string, i: int)
  {
    0 <= i <= |s| - |sub| && s[i..i + |sub|] == sub
  }

  /** The recursive definition agrees with "occurs at some offset". */
  lemma {:induction false} ContainsAtOffset(s: string, sub: string)
    ensures Contains(s, sub) <==> exists i :: OccursAt(s, sub, i)
    decreases |s|
  {
    if |sub| <= |s| && s[..|sub|] != sub {
      ContainsAtOffset(s[1..], sub);
      if exists i :: OccursAt(s, sub, i) {
        var i :| OccursAt(s, sub, i);
        assert i > 0;
        assert OccursAt(s[1..], sub, i - 1);
      }
      if Contains(s[1..], sub) {
        var i :| OccursAt(s[1..], sub, i);
        assert OccursAt(s, sub, i + 1);
      }
    } else if |sub| <= |s| {
      assert OccursAt(s, sub, 0);
    }
  }

  /** Port k is the one `detect_serial_port` returns: it matches and no earlier one does. */
  predicate IsFirstMatch(ports: seq<PortInfo>, k: int)
  {
    0 <= k < |ports| && Contains(ports[k].description, ComPortName) &&
    forall j :: 0 <= j < k ==> !Contains(ports[j].description, ComPortName)
  }

  /** `detect_serial_port`: the first listed port whose description names the board. */
  method DetectSerialPort(ports: seq<PortInfo>) returns (r: Result<string, Error>)
    ensures r.Success? <==> exists k :: 0 <= k < |ports| && Contains(ports[k].description, ComPortName)
    ensures r.Success? ==> exists k :: IsFirstMatch(ports, k) && r.value == ports[k].device
    ensures r.Failure? ==> r.error == PortNotFound
  {
    var k := 0;
    while k < |ports|
      invariant 0 <= k <= |ports|
      invariant forall j :: 0 <= j < k ==> !Contains(ports[j].description, ComPortName)
    {
      if Contains(ports[k].description, ComPortName) {
        assert IsFirstMatch(ports, k);
        return Success(ports[k].device);
      }
      k := k + 1;
    }
    r := Failure(PortNotFound);
  }

  /** `__init__`'s choice of port: detection when none is given or it is "auto", else the given name. */
  method ResolvePort(port: Option<string>, ports: seq<PortInfo>) returns (r: Result<string, Error>)
    ensures port.Some? && port.value != "auto" ==> r == Success(port.value)
    ensures port.None? || port.value == "auto" ==>
      (r.Success? <==> exists k :: 0 <= k < |ports| && Contains(ports[k].description, ComPortName)) &&
      (r.Success? ==> exists k :: IsFirstMatch(ports, k) && r.value == ports[k].device) &&
      (r.Failure? ==> r.error == PortNotFound)
  {
    if port.None? || port.value == "auto" {
      r := DetectSerialPort(ports);
    } else {
      r := Success(port.value);
    }
  }
}
