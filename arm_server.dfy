/**
 * `send_commands_to_arm` of the chat server: the tool calls of one chatbot
 * reply are checked one by one, then sent to the arm as one batched move that
 * lasts as long as the longest call asks.
 */
module ArmServer {
  import opened Outcomes
  import opened Frame
  import opened ServoCommands
  import opened SerialPort
  import opened LscController

  /** One entry of the reply's `tool_calls` list. */
  datatype ToolCall = ToolCall(servoId: int, position: int, timeMs: int)

  /** Which of the four asserts of the validation loop a tool call fails. */
  datatype Violation = ServoIdOutOfRange | PositionOutOfRange | GripperOutOfRange | TimeOutOfRange

  /** Why the tool calls did not reach the arm, or what the arm raised. */
  datatype Rejection =
    | InvalidToolCall(index: nat, violation: Violation)  // an AssertionError in the loop
    | NoToolCalls                                        // max() of an empty list
    | ArmFailed(error: Error)                            // raised by move_servos

  /** The lists the loop builds, one entry per tool call. */
  datatype Batch = Batch(servoIds: seq<int>, positions: seq<int>, timeMss: seq<int>)

  /** The asserts of lines 235-238, in order; `None` when the call passes all four. */
  function Violates(c: ToolCall): Option<Violation>
  {
    if !(1 <= c.servoId <= 6) then Some(ServoIdOutOfRange)
    else if !(500 <= c.position <= 2500) then Some(PositionOutOfRange)
    else if !(c.servoId != 1 || 1200 <= c.position <= 1800) then Some(GripperOutOfRange)
    else if !(1000 <= c.timeMs <= 5000) then Some(TimeOutOfRange)
    else None
  }

  /** A call passes exactly when it names a servo of the table, stays inside that servo's range, and lasts 1 to 5 seconds. */
  lemma ValidMeansWithinLimits(c: ToolCall)
    ensures Violates(c) == None <==>
      c.servoId in ServoLimits &&
      ServoLimits[c.servoId].min <= c.position <= ServoLimits[c.servoId].max &&
      1000 <= c.timeMs <= 5000
  {
  }

  predicate AllValid(commands: seq<ToolCall>)
  {
    forall i :: 0 <= i < |commands| ==> Violates(commands[i]) == None
  }

  function ServoIdsOf(commands: seq<ToolCall>): seq<int>
  {
    seq(|commands|, i requires 0 <= i < |commands| => commands[i].servoId)
  }

  function PositionsOf(commands: seq<ToolCall>): seq<int>
  {
    seq(|commands|, i requires 0 <= i < |commands| => commands[i].position)
  }

  function TimesOf(commands: seq<ToolCall>): seq<int>
  {
    seq(|commands|, i requires 0 <= i < |commands| => commands[i].timeMs)
  }

  /** `max(time_mss)`: the longest time asked for, which is one of the times. */
  function MaxOf(xs: seq<int>): (m: int)
    requires |xs| > 0
    ensures forall i :: 0 <= i < |xs| ==> xs[i] <= m
    ensures exists i :: 0 <= i < |xs| && xs[i] == m
  {
    if |xs| == 1 then xs[0]
    else
      var rest := MaxOf(xs[1..]);
      if xs[0] >= rest then xs[0] else rest
  }

  /**
   * The validation loop of lines 234-241: the first call that fails an assert
   * stops it; otherwise it yields the three parallel lists in command order.
   */
  method CollectToolCalls(commands: seq<ToolCall>) returns (r: Result<Batch, Rejection>)
    ensures r.Success? <==> AllValid(commands)
    ensures r.Success? ==> r.value == Batch(ServoIdsOf(commands), PositionsOf(commands), TimesOf(commands))
    ensures r.Failure? ==>
      r.error.InvalidToolCall? &&
      var k := r.error.index;
      k < |commands| && (forall j :: 0 <= j < k ==> Violates(commands[j]) == None) &&
      Violates(commands[k]) == Some(r.error.violation)
  {
    var servoIds := [];
    var positions := [];
    var timeMss := [];
    var i := 0;
    while i < |commands|
      invariant 0 <= i <= |commands|
      invariant forall j :: 0 <= j < i ==> Violates(commands[j]) == None
      invariant servoIds == ServoIdsOf(commands[..i])
      invariant positions == PositionsOf(commands[..i])
      invariant timeMss == TimesOf(commands[..i])
    {
      var cmd := commands[i];
      var violation := Violates(cmd);
      if violation.Some? {
        return Failure(InvalidToolCall(i, violation.value));
      }
      servoIds := servoIds + [cmd.servoId];
      positions := positions + [cmd.position];
      timeMss := timeMss + [cmd.timeMs];
      i := i + 1;
    }
    assert commands[..i] == commands;
    r := Success(Batch(servoIds, positions, timeMss));
  }

  /** The shared duration covers every call's time and stays inside 1000..5000. */
  lemma DurationCoversEveryCall(commands: seq<ToolCall>)
    requires AllValid(commands) && |commands| > 0
    ensures forall i :: 0 <= i < |commands| ==> commands[i].timeMs <= MaxOf(TimesOf(commands))
    ensures 1000 <= MaxOf(TimesOf(commands)) <= 5000
  {
    var times := TimesOf(commands);
    forall i | 0 <= i < |commands| ensures commands[i].timeMs <= MaxOf(times) {
      assert times[i] == commands[i].timeMs;
    }
    var k :| 0 <= k < |times| && times[k] == MaxOf(times);
    assert Violates(commands[k]) == None;
  }

  /** Validated calls always pass the controller's own limit check, and they keep the upper bounds too. */
  lemma ValidCallsPassControllerCheck(commands: seq<ToolCall>, timeMs: int)
    requires AllValid(commands)
    ensures MoveParams(ServoIdsOf(commands), PositionsOf(commands), timeMs).Success?
    ensures forall i :: 0 <= i < |commands| ==>
      ServoLimits[commands[i].servoId].min <= commands[i].position <= ServoLimits[commands[i].servoId].max
  {
    var ids, ps := ServoIdsOf(commands), PositionsOf(commands);
    forall j | 0 <= j < |ids| ensures CheckServo(ids[j], ps[j]) == None {
      ValidMeansWithinLimits(commands[j]);
    }
    forall i | 0 <= i < |commands|
      ensures ServoLimits[commands[i].servoId].min <= commands[i].position <= ServoLimits[commands[i].servoId].max
    {
      ValidMeansWithinLimits(commands[i]);
    }
    MoveParamsLayout(ids, ps, timeMs);
  }

  /** The batched move for validated calls, as `move_servos` frames it. */
  function ArmPacket(commands: seq<ToolCall>): seq<int>
    requires AllValid(commands) && |commands| > 0
  {
    ValidCallsPassControllerCheck(commands, MaxOf(TimesOf(commands)));
    Packet(CmdServoMove, MoveParams(ServoIdsOf(commands), PositionsOf(commands), MaxOf(TimesOf(commands))).value)
  }

  /**
   * A validated batch fits in a byte string exactly when it has at most 83
   * calls: beyond that the length byte 3n + 5 passes 255 and `bytearray`
   * refuses the packet.
   */
  lemma ArmPacketFitsOnWire(commands: seq<ToolCall>)
    requires AllValid(commands) && |commands| > 0
    ensures AllBytes(ArmPacket(commands)) <==> |commands| <= 83
  {
    var ids, ps, t := ServoIdsOf(commands), PositionsOf(commands), MaxOf(TimesOf(commands));
    ValidCallsPassControllerCheck(commands, t);
    MoveParamsLayout(ids, ps, t);
    var params := MoveParams(ids, ps, t).value;
    PacketBytes(CmdServoMove, params);
    if |commands| <= 83 {
      forall k | 0 <= k < |params| ensures 0 <= params[k] < 256 {
        if k >= 3 {
          var i := (k - 3) / 3;
          assert ids[i] == commands[i].servoId && Violates(commands[i]) == None;
          assert params[3 + 3 * i] == ids[i] && params[4 + 3 * i] == Lo(ps[i]) && params[5 + 3 * i] == Hi(ps[i]);
          assert k == 3 + 3 * i || k == 4 + 3 * i || k == 5 + 3 * i;
        }
      }
    }
  }

  /** What the arm's outcome becomes for the server. */
  function ArmOutcome(o: Outcome<Error>): Outcome<Rejection>
  {
    if o.Pass? then Pass else Fail(ArmFailed(o.error))
  }

  /**
   * `send_commands_to_arm`: nothing reaches the port unless every call is
   * valid and there is at least one; then exactly one batched move is sent.
   */
  method SendCommandsToArm(arm: LSCServoController, commands: seq<ToolCall>) returns (r: Outcome<Rejection>)
    modifies arm.port
    ensures !AllValid(commands) ==>
      unchanged(arm.port) && r.Fail? && r.error.InvalidToolCall? &&
      var k := r.error.index;
      k < |commands| && (forall j :: 0 <= j < k ==> Violates(commands[j]) == None) &&
      Violates(commands[k]) == Some(r.error.violation)
    ensures AllValid(commands) && commands == [] ==> unchanged(arm.port) && r == Fail(NoToolCalls)
    ensures AllValid(commands) && commands != [] ==>
      arm.port.log == old(arm.port.log) + SendEvents(arm.port, ArmPacket(commands), old(arm.port.isOpen)) &&
      r == ArmOutcome(SendResult(arm.port, ArmPacket(commands), old(arm.port.isOpen))) &&
      arm.port.isOpen == old(arm.port.isOpen)
  {
    var batch := CollectToolCalls(commands);
    if batch.Failure? {
      return Fail(batch.error);
    }
    if batch.value.timeMss == [] {
      return Fail(NoToolCalls);
    }
    var timeMs := MaxOf(batch.value.timeMss);
    var moved := arm.MoveServos(batch.value.servoIds, batch.value.positions, timeMs);
    r := ArmOutcome(moved);
  }
}
