/**
 * The byte sequences the repository's unit tests pin, replayed against the
 * controller model with a port whose write reports a configured count and
 * whose read returns a canned reply.
 */
module Vectors {
  import opened Outcomes
  import opened Frame
  import opened ServoCommands
  import opened SerialPort
  import opened LscController

  /** `send_command(3, [1, 0xE8, 0x03, 1, 0xD0, 0x07])` writes the move packet unchanged behind its header. */
  method SendCommandVector() returns (log: seq<Event>, r: Outcome<Error>)
    ensures r == Pass
    ensures log == [Wrote([0x55, 0x55, 8, 3, 1, 0xE8, 0x03, 1, 0xD0, 0x07]), Flushed]
  {
    var port := new Port(None, [0x55, 0x55], false);
    var arm := new LSCServoController(port);
    var p := Packet(3, [1, 0xE8, 0x03, 1, 0xD0, 0x07]);
    assert p == [0x55, 0x55, 8, 3, 1, 0xE8, 0x03, 1, 0xD0, 0x07];
    assert AllBytes(p);
    r := arm.SendCommand(3, [1, 0xE8, 0x03, 1, 0xD0, 0x07]);
    log := port.log;
  }

  /** `move_servo(1, 2000, 1000)`: accepted although 2000 is above the gripper's 1800. */
  method MoveServoVector() returns (log: seq<Event>, r: Outcome<Error>)
    ensures r == Pass
    ensures log == [Wrote([0x55, 0x55, 0x08, 0x03, 0x01, 0xE8, 0x03, 0x01, 0xD0, 0x07]), Flushed]
  {
    var port := new Port(Some(10), [0x55, 0x55], false);
    var arm := new LSCServoController(port);
    var p := Packet(CmdServoMove, MoveServoParams(1, 2000, 1000));
    assert p == [0x55, 0x55, 0x08, 0x03, 0x01, 0xE8, 0x03, 0x01, 0xD0, 0x07];
    assert AllBytes(p);
    r := arm.MoveServo(1, 2000, 1000);
    log := port.log;
  }

  /** A position under the minimum, and an unknown servo, are refused before any byte is written. */
  method RejectedMoveVector() returns (log: seq<Event>, low: Outcome<Error>, unknown: Outcome<Error>)
    ensures low == Fail(PositionRejected(1, 1199))
    ensures unknown == Fail(UnknownServo(7))
    ensures log == []
  {
    var port := new Port(None, [], false);
    var arm := new LSCServoController(port);
    low := arm.MoveServos([2, 1], [1500, 1199], 1000);
    unknown := arm.MoveServo(7, 1500, 1000);
    log := port.log;
  }

  /** A port that takes fewer bytes than the packet holds fails the send, and nothing is flushed. */
  method ShortWriteVector() returns (log: seq<Event>, r: Outcome<Error>)
    ensures r == Fail(ShortWrite(4, 10))
    ensures log == [Wrote([0x55, 0x55, 0x08, 0x03, 0x01, 0xE8, 0x03, 0x01, 0xD0, 0x07])]
  {
    var port := new Port(Some(4), [], false);
    var arm := new LSCServoController(port);
    var p := Packet(CmdServoMove, MoveServoParams(1, 2000, 1000));
    assert p == [0x55, 0x55, 0x08, 0x03, 0x01, 0xE8, 0x03, 0x01, 0xD0, 0x07];
    assert AllBytes(p);
    r := arm.MoveServo(1, 2000, 1000);
    log := port.log;
  }

  /** `unload_servos([1, 2, 3])` writes `55 55 06 14 03 01 02 03`. */
  method UnloadVector() returns (log: seq<Event>, r: Outcome<Error>)
    ensures r == Pass
    ensures log == [Wrote([0x55, 0x55, 0x06, 0x14, 0x03, 0x01, 0x02, 0x03]), Flushed]
  {
    var port := new Port(None, [0x55, 0x55, 0x09, 0x14, 0x06, 0x01, 0x02, 0x03, 0x04, 0x05, 0x06], false);
    var arm := new LSCServoController(port);
    var p := Packet(CmdMultServoUnload, ServoListParams([1, 2, 3]));
    assert p == [0x55, 0x55, 0x06, 0x14, 0x03, 0x01, 0x02, 0x03];
    assert AllBytes(p);
    r := arm.UnloadServos([1, 2, 3]);
    log := port.log;
  }

  /** An unload list with an id that is not a byte never reaches the port. */
  method UnloadOutOfRangeVector() returns (log: seq<Event>, r: Outcome<Error>)
    ensures r == Fail(ByteOutOfRange)
    ensures log == []
  {
    var port := new Port(None, [], false);
    var arm := new LSCServoController(port);
    var p := Packet(CmdMultServoUnload, ServoListParams([1, 256]));
    assert p[6] == 256;
    r := arm.UnloadServos([1, 256]);
    log := port.log;
  }

  /** The position read of all six servos, with the reply recorded beside the repository's test. */
  method ReadPositionsVector() returns (log: seq<Event>, r: Result<map<int, int>, Error>)
    ensures r == Success(map[1 := 500, 2 := 500, 3 := 500, 4 := 500, 5 := 500, 6 := 500])
    ensures log == [Wrote([0x55, 0x55, 0x09, 0x15, 0x06, 0x01, 0x02, 0x03, 0x04, 0x05, 0x06]), Flushed, ReadRequest(23)]
  {
    var reply := [0x55, 0x55, 0x15, 0x15, 0x06, 0x01, 0x01, 0xF4, 0x02, 0x01, 0xF4, 0x03,
                  0x01, 0xF4, 0x04, 0x01, 0xF4, 0x05, 0x01, 0xF4, 0x06, 0x01, 0xF4];
    var port := new Port(None, reply, false);
    var arm := new LSCServoController(port);
    var p := Packet(CmdMultServoPosRead, ServoListParams(AllServos));
    assert p == [0x55, 0x55, 0x09, 0x15, 0x06, 0x01, 0x02, 0x03, 0x04, 0x05, 0x06];
    assert AllBytes(p);
    assert reply[..23] == reply;
    r := arm.ReadServoPositions(AllServos);
    log := port.log;
  }

  /** A reply of fewer than five bytes is refused; five bytes or more but short of the last triple fails while indexing. */
  method ShortReplyVector() returns (tiny: Result<map<int, int>, Error>, truncated: Result<map<int, int>, Error>)
    ensures tiny == Failure(InvalidResponse([0x55, 0x55]))
    ensures truncated == Failure(ResponseTruncated)
  {
    var port := new Port(None, [0x55, 0x55], false);
    var arm := new LSCServoController(port);
    tiny := arm.ReadServoPositions(AllServos);
    var port2 := new Port(None, [0x55, 0x55, 0x15, 0x15, 0x06, 0x01, 0x01, 0xF4], false);
    var arm2 := new LSCServoController(port2);
    truncated := arm2.ReadServoPositions(AllServos);
  }

  /**
   * Teardown on a port that writes short and fails to close: the unload is
   * still attempted, the port still ends closed, and later commands are refused.
   */
  method TeardownVector() returns (log: seq<Event>, after: Outcome<Error>)
    ensures log == [Wrote([0x55, 0x55, 0x09, 0x14, 0x06, 0x01, 0x02, 0x03, 0x04, 0x05, 0x06]), Closed]
    ensures after == Fail(PortNotOpen)
  {
    var port := new Port(Some(0), [], true);
    var arm := new LSCServoController(port);
    var p := Packet(CmdMultServoUnload, ServoListParams(AllServos));
    assert p == [0x55, 0x55, 0x09, 0x14, 0x06, 0x01, 0x02, 0x03, 0x04, 0x05, 0x06];
    assert AllBytes(p);
    arm.Teardown();
    after := arm.StopActionGroup();
    log := port.log;
  }
}
