# LSC servo controller: packet encoder and reply decoder

A Dafny model of the part of the ChatbotRobotArm project that talks to the
robot arm: the `LSCServoController` class, which frames commands for the LSC
servo-controller board (header `0x55 0x55`, a length byte equal to
`len(params) + 2`, the command id, the parameters), checks servo ids and
positions against the `SERVO_LIMITS` table, decodes the position-read reply,
and unloads the servos when it is torn down; and the chat server's
`send_commands_to_arm`, which validates the tool calls of one chatbot reply
and sends them to the arm as a single batched move.

Layout:

- `outcomes.dfy` (`Outcomes`): `Result`/`Outcome`/`Option` and `Error`, one constructor per place the client raises.
- `frame.dfy` (`Frame`): bytes, the `x & 0xFF` / `(x >> 8) & 0xFF` split, the packet and its parse.
- `servo_commands.dfy` (`ServoCommands`): command ids, the limit table and check, parameter layouts, the `move_servos` parameter loop and the position-reply decode loop, with their specification functions.
- `serial_port.dfy` (`SerialPort`): the port as a class with an event log, a configurable write count, a canned reply and a configurable close failure; port detection.
- `lsc_controller.dfy` (`LscController`): the controller class, one method per public method of `LSCServoController`.
- `arm_server.dfy` (`ArmServer`): `send_commands_to_arm`.
- `vectors.dfy` (`Vectors`): the byte sequences of the unit tests, replayed against the model.

Python integers are unbounded like Dafny's, so parameters are `int`s and the
`bytearray` conversion is modelled as the check `AllBytes` that fails with
`ByteOutOfRange` before anything is written. `x & 0xFF` is `x % 256` and
`(x >> 8) & 0xFF` is `(x / 256) % 256`; Dafny's `/` and `%` with a positive
divisor agree with Python's arithmetic shift and two's-complement mask, also
for negative `x`. In the decode, `r[7+3i] | (r[6+3i] << 8)` on bytes is written
as `r[7+3i] + 256 * r[6+3i]`, which is the same number.

Where the code departs from the behaviour the protocol and the class evidently intend, the model follows the code:

- The limit check at `src/lsc_servo_client.py:66` and `:79` compares the position with the servo's minimum twice, so only `position >= min` is enforced and the maximum is never checked. The assertion message ("is outside of [min, max]") shows that both bounds were meant. The unit test at `tests/test_lsc_servo_client.py:35` depends on the one-sided check: servo 1 accepts 2000, although its range ends at 1800. `ServoCommands.CheckServo` keeps the code's behaviour, and `ServoCommands.CheckIgnoresMaximum` exhibits it. The server's validation does check both bounds, and `ArmServer.ValidCallsPassControllerCheck` proves that calls arriving that way stay inside the real ranges.
- Positions go out low byte first. In the reply, the code reads the byte at `6 + 3i` as the HIGH byte and the one at `7 + 3i` as the low byte. The reply recorded in the test file agrees with this: `01 F4` decodes to 500.
- The code rejects only replies under 5 bytes (`ValueError`, modelled as `InvalidResponse`). A reply of at least 5 but fewer than `5 + 3n` bytes fails later, while indexing (`IndexError`, modelled as `ResponseTruncated`). It is not rejected up front.
- `move_servos` does not check that servo ids are distinct. In the decoded reply, a repeated id keeps the last position read.
- The controller has no closed state of its own. After teardown, commands fail because the port refuses I/O (`PortNotOpen`).
- Teardown is the finalizer `__del__`. It is modelled as the method `Teardown`, which a caller invokes.

## Model

| member | source | states |
|---|---|---|
| `Frame.LoHiTruncates` | src/lsc_servo_client.py:67-68 | the low and high bytes put on the wire keep exactly the value modulo 65536, for every integer including negative ones |
| `Frame.LoHiRoundTrip` | src/lsc_servo_client.py:73 | a 16-bit time or position is recovered from its low and high bytes |
| `Frame.Packet` | src/lsc_servo_client.py:55-57 | a packet is four bytes longer than its parameters (header, length byte, command) |
| `Frame.ParsePacket` | src/lsc_servo_client.py:55-57 | every packet parses back to its command and parameters: header `55 55`, then a length byte equal to `len(params) + 2` |
| `Frame.PacketOfParse` | src/lsc_servo_client.py:55-57 | conversely, every frame that parses is exactly the packet of its command and parameters |
| `Frame.PacketBytes` | src/lsc_servo_client.py:56-60 | `bytearray(packet)` succeeds iff `len(params) + 2 <= 255`, the command is a byte and every parameter is a byte |
| `ServoCommands.AllServosAreTheTable` | src/lsc_servo_client.py:28-35 | the default servo list 1..6 holds exactly the keys of `SERVO_LIMITS`, in increasing order |
| `ServoCommands.CheckServoAccepts` | src/lsc_servo_client.py:65-66 | the check accepts iff the servo is in the table and the position is at least its minimum; an unknown id is reported before a low position |
| `ServoCommands.CheckIgnoresMaximum` | src/lsc_servo_client.py:66 | servo 1 accepts 2000, above its 1800 maximum, as the code is written |
| `ServoCommands.WithinLimitsAccepted` | src/lsc_servo_client.py:28-35 | every position inside a servo's table range passes the check |
| `ServoCommands.Triples` | src/lsc_servo_client.py:80-82 | three parameter bytes per servo |
| `ServoCommands.TriplesAt` | src/lsc_servo_client.py:75-82 | servo i's triple is at offset 3i: id, `position & 0xFF`, `(position >> 8) & 0xFF` |
| `ServoCommands.FirstRejected` | src/lsc_servo_client.py:75-79 | the index of the first pair the check rejects: every earlier pair passes and this one fails |
| `ServoCommands.FirstRejectedIs` | src/lsc_servo_client.py:75-79 | the first failing index is determined by "all before pass, this one fails" |
| `ServoCommands.MoveParamsLayout` | src/lsc_servo_client.py:71-83 | a batched move is built iff the lists have equal length and every pair passes; then it is `[n, t_lo, t_hi]` followed by the triples in input order, with length byte `3n + 5` |
| `ServoCommands.MoveParamsRejection` | src/lsc_servo_client.py:74-79 | a rejected batch reports the first pair, in input order, that fails the check |
| `ServoCommands.SingleMoveIsBatchOfOne` | src/lsc_servo_client.py:64-69 | `move_servo(id, p, t)` checks and sends exactly what `move_servos([id], [p], t)` does |
| `ServoCommands.BuildMoveParams` | src/lsc_servo_client.py:71-82 | the loop returns the length-mismatch error, the first rejection, or the full parameter list, as `MoveParams` specifies |
| `ServoCommands.ServoListPacketBytes` | src/lsc_servo_client.py:107-109 | an unload or read request reaches the port iff every id is a byte and there are at most 252 ids |
| `ServoCommands.PositionMapKeys` | src/lsc_servo_client.py:122-126 | the decoded dict's keys are exactly the ids found at bytes `5 + 3i` of the reply |
| `ServoCommands.PositionMapValues` | src/lsc_servo_client.py:124-126 | an id that is not repeated later in the reply maps to `r[7+3i] + 256 * r[6+3i]`: later triples overwrite earlier ones |
| `ServoCommands.PositionMapBounds` | src/lsc_servo_client.py:124-125 | decoded ids are bytes and decoded positions are 16-bit values |
| `ServoCommands.DecodeResponse` | src/lsc_servo_client.py:120-127 | fails under 5 bytes, fails when the reply stops before the last triple, and otherwise returns the decoded dict, as `DecodePositions` specifies |
| `ServoCommands.ReplyAt` | src/lsc_servo_client.py:124-125 | in a board reply, servo i's id is at byte `5 + 3i` and its position decodes back exactly |
| `ServoCommands.PositionsReplyParses` | src/lsc_servo_client.py:119 | a board reply has the same framing as the packets the client sends |
| `ServoCommands.PositionsRoundTrip` | src/lsc_servo_client.py:119-127 | decoding a complete reply for distinct servos returns every servo's position and no other key |
| `SerialPort.Port.constructor` | src/lsc_servo_client.py:41 | a freshly opened port is open and has seen no calls |
| `SerialPort.Port.Write` | src/lsc_servo_client.py:60 | an open port logs the bytes and reports the configured count; a closed one refuses |
| `SerialPort.Port.Flush` | src/lsc_servo_client.py:62 | an open port logs the flush; a closed one refuses |
| `SerialPort.Port.Read` | src/lsc_servo_client.py:119 | an open port returns at most the requested number of bytes of the reply |
| `SerialPort.Port.Close` | src/lsc_servo_client.py:135 | the port ends closed; a failure is only reported |
| `SerialPort.ContainsAtOffset` | src/lsc_servo_client.py:49 | the substring test `COM_PORT_NAME in desc` holds iff the marker occurs at some offset |
| `SerialPort.DetectSerialPort` | src/lsc_servo_client.py:44-52 | returns the device of the first listed port whose description contains the marker, and fails iff none does |
| `SerialPort.ResolvePort` | src/lsc_servo_client.py:37-40 | a named port is used as given; none or "auto" means detection |
| `LscController.SendCompletesOnlyAfterFullWrite` | src/lsc_servo_client.py:60-62 | a send completes iff the whole packet was written and then flushed; no flush follows a short write; a non-byte packet writes nothing |
| `LscController.LSCServoController.constructor` | src/lsc_servo_client.py:37-42 | the controller owns the given port |
| `LscController.LSCServoController.SendCommand` | src/lsc_servo_client.py:55-62 | logs and returns exactly what `SendEvents`/`SendResult` give for `[0x55, 0x55, len+2, cmd] + params` |
| `LscController.LSCServoController.MoveServo` | src/lsc_servo_client.py:64-69 | a rejected servo or position leaves the port untouched; otherwise one single-servo move packet is sent |
| `LscController.LSCServoController.MoveServos` | src/lsc_servo_client.py:71-83 | any rejection leaves the port untouched; otherwise exactly one batched packet is sent |
| `LscController.LSCServoController.RunActionGroup` | src/lsc_servo_client.py:85-87 | sends command 6 with `[group, lo, hi]` |
| `LscController.LSCServoController.StopActionGroup` | src/lsc_servo_client.py:89-90 | sends command 7 with no params (length byte 2) |
| `LscController.LSCServoController.SetActionSpeed` | src/lsc_servo_client.py:92-94 | sends command 11 with `[group, lo, hi]` |
| `LscController.LSCServoController.UnloadServos` | src/lsc_servo_client.py:107-109 | sends command 20 with `[n] + ids` |
| `LscController.LSCServoController.ReadServoPositions` | src/lsc_servo_client.py:111-127 | writes the command-21 request, flushes, reads `5 + 3n` bytes and returns their decoding; a failed send stops it before the read |
| `LscController.LSCServoController.Teardown` | src/lsc_servo_client.py:129-137 | always attempts one unload of servos 1..6, then closes the port, raising nothing |
| `ArmServer.ValidMeansWithinLimits` | src/server.py:235-238 | a tool call passes iff its servo is 1..6, its position is inside that servo's range (1200..1800 for servo 1, 500..2500 otherwise) and its time is 1000..5000 |
| `ArmServer.MaxOf` | src/server.py:242 | `max` is at least every element and is one of them |
| `ArmServer.CollectToolCalls` | src/server.py:234-241 | succeeds iff every call is valid, then yields the ids, positions and times in command order; otherwise reports the first invalid call and the assert it fails |
| `ArmServer.DurationCoversEveryCall` | src/server.py:241-242 | the shared duration is at least every call's time and lies in 1000..5000 |
| `ArmServer.ValidCallsPassControllerCheck` | src/server.py:235-242 | validated calls always pass `move_servos`'s own check, and their positions respect both bounds of the table |
| `ArmServer.ArmPacketFitsOnWire` | src/server.py:239-242 | the batched packet of validated calls is a byte string iff there are at most 83 calls |
| `ArmServer.SendCommandsToArm` | src/server.py:230-242 | an invalid call or an empty list sends nothing; otherwise exactly one batched move with the maximum time is sent and the port stays as open as it was |
| `Vectors.SendCommandVector` | tests/test_lsc_servo_client.py:14-25 | `send_command(3, ...)` writes `55 55 08 03 01 E8 03 01 D0 07` and flushes |
| `Vectors.MoveServoVector` | tests/test_lsc_servo_client.py:27-38 | `move_servo(1, 2000, 1000)` writes `55 55 08 03 01 E8 03 01 D0 07` |
| `Vectors.RejectedMoveVector` | src/lsc_servo_client.py:78-79 | a low position in a batch, or an unknown servo, is refused with nothing written |
| `Vectors.ShortWriteVector` | src/lsc_servo_client.py:60-62 | a short write count fails the send, and no flush follows |
| `Vectors.UnloadVector` | tests/test_lsc_servo_client.py:67-80 | `unload_servos([1, 2, 3])` writes `55 55 06 14 03 01 02 03` |
| `Vectors.UnloadOutOfRangeVector` | src/lsc_servo_client.py:108-109 | an unmasked id of 256 makes `bytearray` fail before any write |
| `Vectors.ReadPositionsVector` | tests/test_lsc_servo_client.py:52-65 | the default read sends `55 55 09 15 06 01..06`, asks for 23 bytes, and decodes the recorded reply to 500 for every servo |
| `Vectors.ShortReplyVector` | src/lsc_servo_client.py:119-125 | a 2-byte reply is refused; an 8-byte reply to a six-servo read fails while indexing |
| `Vectors.TeardownVector` | src/lsc_servo_client.py:129-137 | teardown on a port that writes short and fails to close still ends closed, and later commands are refused |

## Left out

- Opening the port: `serial.Serial` with its baud rate and timeouts is not modelled. The controller is built around a `Port` object, and the port listing of `serial.tools.list_ports` is an input sequence.
- The settle delays (`time.sleep(2)` after opening, `time.sleep(1)` before the read) are real-time waits with no logical content.
- The read timeout is not modelled. The canned reply stands for whatever the board sent before the timeout, and repeated reads return the same bytes.
- The commented-out battery-voltage command and the unused `CMD_GET_BATTERY_VOLTAGE` constant have no behaviour.
- Logging (`log.info`) and the messages attached to the exceptions are left out. The error constructors carry the values instead.
- Python's `-O` flag disables `assert`. The model assumes asserts are enabled, as they are by default.
- `Teardown`: the finalizer's timing, decided by the garbage collector, is not modelled. Nor is the case where `__init__` failed and `self.ser` does not exist; that raises `AttributeError`, which the finalizer also swallows.
- `SerialPort.Port.Close`: the port counts as closed even when closing reports an error; the actual state of the operating system's handle after a failed close is not modelled.
- `ArmServer.SendCommandsToArm`: tool calls are records of three integers. A missing key (`KeyError`) or a non-integer value (`TypeError`) in the chatbot's JSON is not modelled.
- The rest of `src/server.py` (`run`, `loop`, `chat`, `listen`, `fetch_image_from_url`, `build_prompt`, the prompt and schema literals), `src/ollama.py`, `src/prompts.py` and `src/logs.py` are HTTP, speech, image and logging glue, and are not part of this model.
