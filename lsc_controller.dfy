/**
 * `LSCServoController`: owns one serial port and turns each call into one
 * packet written to it (and, for the position read, one reply read back).
 */
module LscController {
  import opened Outcomes
  import opened Frame
  import opened ServoCommands
  import opened SerialPort

  /**
   * The calls `send_command` makes on the port for `packet`: none when the
   * packet is not a byte string or the port is closed, the write alone when the
   * port reports a short count, the write and then the flush otherwise.
   */
  function SendEvents(port: Port, packet: seq<int>, wasOpen: bool): seq<Event>
  {
    if !AllBytes(packet) || !wasOpen then []
    else if port.WriteCount(packet) != |packet| then [Wrote(packet)]
    else [Wrote(packet), Flushed]
  }

  /** How `send_command` ends for `packet`: the first of its failures that applies, or normally. */
  function SendResult(port: Port, packet: seq<int>, wasOpen: bool): Outcome<Error>
  {
    if !AllBytes(packet) then Fail(ByteOutOfRange)
    else if !wasOpen then Fail(PortNotOpen)
    else if port.WriteCount(packet) != |packet| then Fail(ShortWrite(port.WriteCount(packet), |packet|))
    else Pass
  }

  /**
   * A send completes exactly when the whole packet went out and was flushed;
   * the flush never follows a short write, and nothing reaches the port before
   * the packet is known to be a byte string.
   */
  lemma SendCompletesOnlyAfterFullWrite(port: Port, packet: seq<int>, wasOpen: bool)
    ensures SendResult(port, packet, wasOpen) == Pass <==> SendEvents(port, packet, wasOpen) == [Wrote(packet), Flushed]
    ensures Flushed in SendEvents(port, packet, wasOpen) ==> port.WriteCount(packet) == |packet|
    ensures !AllBytes(packet) ==> SendEvents(port, packet, wasOpen) == []
  {
  }

  class LSCServoController {
    const port: Port

    /** `__init__` once the port is open; opening it is the serial library's business. */
    constructor (port: Port)
      ensures this.port == port
    {
      this.port := port;
    }

    /** `send_command`: frame the params, write the packet, insist on a full write, flush. */
    method SendCommand(command: int, params: seq<int>) returns (r: Outcome<Error>)
      modifies port
      ensures port.log == old(port.log) + SendEvents(port, Packet(command, params), old(port.isOpen))
      ensures r == SendResult(port, Packet(command, params), old(port.isOpen))
      ensures port.isOpen == old(port.isOpen)
    {
      var length := |params| + 2;
      var packet := Header + [length, command] + params;
      if !AllBytes(packet) {
        return Fail(ByteOutOfRange);
      }
      var written := port.Write(packet);
      if written.Failure? {
        return Fail(written.error);
      }
      if written.value != |packet| {
        return Fail(ShortWrite(written.value, |packet|));
      }
      var _ := port.Flush();
      r := Pass;
    }

    /** `move_servo`: check the servo and the position, then send a one-servo move. */
    method MoveServo(servoId: int, position: int, timeMs: int) returns (r: Outcome<Error>)
      modifies port
      ensures CheckServo(servoId, position).Some? ==>
        r == Fail(CheckServo(servoId, position).value) && unchanged(port)
      ensures CheckServo(servoId, position) == None ==>
        var packet := Packet(CmdServoMove, MoveServoParams(servoId, position, timeMs));
        port.log == old(port.log) + SendEvents(port, packet, old(port.isOpen)) &&
        r == SendResult(port, packet, old(port.isOpen)) && port.isOpen == old(port.isOpen)
    {
      var rejected := CheckServo(servoId, position);
      if rejected.Some? {
        return Fail(rejected.value);
      }
      r := SendCommand(CmdServoMove, MoveServoParams(servoId, position, timeMs));
    }

    /** `move_servos`: every pair is checked before the one batched move is sent. */
    method MoveServos(servoIds: seq<int>, positions: seq<int>, timeMs: int) returns (r: Outcome<Error>)
      modifies port
      ensures MoveParams(servoIds, positions, timeMs).Failure? ==>
        r == Fail(MoveParams(servoIds, positions, timeMs).error) && unchanged(port)
      ensures MoveParams(servoIds, positions, timeMs).Success? ==>
        var packet := Packet(CmdServoMove, MoveParams(servoIds, positions, timeMs).value);
        port.log == old(port.log) + SendEvents(port, packet, old(port.isOpen)) &&
        r == SendResult(port, packet, old(port.isOpen)) && port.isOpen == old(port.isOpen)
    {
      var params := BuildMoveParams(servoIds, positions, timeMs);
      if params.Failure? {
        return Fail(params.error);
      }
      r := SendCommand(CmdServoMove, params.value);
    }

    /** `run_action_group`: run a stored group `times` times (0 runs it without end, by the board's convention). */
    method RunActionGroup(groupId: int, times: int) returns (r: Outcome<Error>)
      modifies port
      ensures port.log == old(port.log) + SendEvents(port, Packet(CmdActionGroupRun, ActionParams(groupId, times)), old(port.isOpen))
      ensures r == SendResult(port, Packet(CmdActionGroupRun, ActionParams(groupId, times)), old(port.isOpen))
      ensures port.isOpen == old(port.isOpen)
    {
      r := SendCommand(CmdActionGroupRun, ActionParams(groupId, times));
    }

    /** `stop_action_group`: the stop command carries no params. */
    method StopActionGroup() returns (r: Outcome<Error>)
      modifies port
      ensures port.log == old(port.log) + SendEvents(port, Packet(CmdActionStop, []), old(port.isOpen))
      ensures r == SendResult(port, Packet(CmdActionStop, []), old(port.isOpen))
      ensures port.isOpen == old(port.isOpen)
    {
      r := SendCommand(CmdActionStop, []);
    }

    /** `set_action_speed`: the speed of a stored group, in percent. */
    method SetActionSpeed(groupId: int, speedPercent: int) returns (r: Outcome<Error>)
      modifies port
      ensures port.log == old(port.log) + SendEvents(port, Packet(CmdActionSpeed, ActionParams(groupId, speedPercent)), old(port.isOpen))
      ensures r == SendResult(port, Packet(CmdActionSpeed, ActionParams(groupId, speedPercent)), old(port.isOpen))
      ensures port.isOpen == old(port.isOpen)
    {
      r := SendCommand(CmdActionSpeed, ActionParams(groupId, speedPercent));
    }

    /** `unload_servos`: release the torque of the listed servos; the ids go out unmasked. */
    method UnloadServos(servoIds: seq<int>) returns (r: Outcome<Error>)
      modifies port
      ensures port.log == old(port.log) + SendEvents(port, Packet(CmdMultServoUnload, ServoListParams(servoIds)), old(port.isOpen))
      ensures r == SendResult(port, Packet(CmdMultServoUnload, ServoListParams(servoIds)), old(port.isOpen))
      ensures port.isOpen == old(port.isOpen)
    {
      r := SendCommand(CmdMultServoUnload, ServoListParams(servoIds));
    }

    /**
     * `read_servo_positions`: write the request itself (not through
     * `send_command`, with the same checks), read `2 + 3 + 3n` bytes, decode.
     */
    method ReadServoPositions(servoIds: seq<int>) returns (r: Result<map<int, int>, Error>)
      modifies port
      ensures var packet := Packet(CmdMultServoPosRead, ServoListParams(servoIds));
        var size := |Header| + 3 + 3 * |servoIds|;
        var sent := SendResult(port, packet, old(port.isOpen));
        port.isOpen == old(port.isOpen) &&
        if sent.Fail? then
          r == Failure(sent.error) && port.log == old(port.log) + SendEvents(port, packet, old(port.isOpen))
        else
          port.log == old(port.log) + [Wrote(packet), Flushed, ReadRequest(size)] &&
          r == DecodePositions(if size <= |port.reply| then port.reply[..size] else port.reply, |servoIds|)
    {
      var params := [|servoIds|] + servoIds;
      var packet := Header + [|params| + 2, CmdMultServoPosRead] + params;
      if !AllBytes(packet) {
        return Failure(ByteOutOfRange);
      }
      var written := port.Write(packet);
      if written.Failure? {
        return Failure(written.error);
      }
      if written.value != |packet| {
        return Failure(ShortWrite(written.value, |packet|));
      }
      var _ := port.Flush();
      var response := port.Read(|Header| + 3 + 3 * |servoIds|);
      r := DecodeResponse(response.value, |servoIds|);
    }

    /**
     * `__del__`: try to unload all six servos, then close the port; whatever
     * either step raises is dropped, so teardown always completes.
     */
    method Teardown()
      modifies port
      ensures !port.isOpen
      ensures port.log == old(port.log)
        + SendEvents(port, Packet(CmdMultServoUnload, ServoListParams(AllServos)), old(port.isOpen))
        + [Closed]
    {
      var _ := UnloadServos(AllServos);
      var _ := port.Close();
    }
  }
}
