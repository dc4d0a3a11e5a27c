/**
 * The command set of the LSC board as `LSCServoController` uses it: command ids,
 * the servo limit table, the parameter layouts, the limit check, and the
 * decoding of the position-read reply.
 */
module ServoCommands {
  import opened Outcomes
  import opened Frame

  const CmdServoMove := 3
  const CmdActionGroupRun := 6
  const CmdActionStop := 7
  const CmdActionSpeed := 11
  const CmdGetBatteryVoltage := 15
  const CmdMultServoUnload := 20
  const CmdMultServoPosRead := 21

  datatype Limit = Limit(min: int, max: int)

  /** `SERVO_LIMITS`: servo 1 is the gripper, servos 2 to 6 the joints. */
  const ServoLimits: map<int, Limit> := map[
    1 := Limit(1200, 1800),
    2 := Limit(500, 2500),
    3 := Limit(500, 2500),
    4 := Limit(500, 2500),
    5 := Limit(500, 2500),
    6 := Limit(500, 2500)
  ]

  /** `list(SERVO_LIMITS.keys())`, in insertion order. */
  const AllServos: seq<int> := [1, 2, 3, 4, 5, 6]

  lemma AllServosAreTheTable()
    ensures forall id :: id in AllServos <==> id in ServoLimits
    ensures forall i, j :: 0 <= i < j < |AllServos| ==> AllServos[i] < AllServos[j]
  {
  }

  /**
   * The two asserts of `move_servo` and of each round of `move_servos`, in
   * order. The second one, as written, compares the position with the lower
   * bound on both sides (`min <= position >= min`), so the upper bound is never
   * consulted.
   */
  function CheckServo(servoId: int, position: int): Option<Error>
  {
    if servoId !in ServoLimits then Some(UnknownServo(servoId))
    else if !(ServoLimits[servoId].min <= position && position >= ServoLimits[servoId].min)
    then Some(PositionRejected(servoId, position))
    else None
  }

  /** What the check enforces: a known servo and a position at or above its minimum, nothing more. */
  lemma CheckServoAccepts(servoId: int, position: int)
    ensures CheckServo(servoId, position) == None <==>
      servoId in ServoLimits && position >= ServoLimits[servoId].min
    ensures servoId !in ServoLimits ==> CheckServo(servoId, position) == Some(UnknownServo(servoId))
    ensures servoId in ServoLimits && position < ServoLimits[servoId].min ==>
      CheckServo(servoId, position) == Some(PositionRejected(servoId, position))
  {
  }

  /** The gripper accepts 2000 although its table entry stops at 1800. */
  lemma CheckIgnoresMaximum()
    ensures 2000 > ServoLimits[1].max && CheckServo(1, 2000) == None
  {
  }

  /** A position inside the servo's table range always passes the check. */
  lemma WithinLimitsAccepted(servoId: int, position: int)
    requires servoId in ServoLimits
    requires ServoLimits[servoId].min <= position <= ServoLimits[servoId].max
    ensures CheckServo(servoId, position) == None
  {
  }

  /** The params of `move_servo`: a batch of one with the time and the position split in bytes. */
  function MoveServoParams(servoId: int, position: int, timeMs: int): seq<int>
  {
    [1, Lo(timeMs), Hi(timeMs), servoId, Lo(position), Hi(position)]
  }

  /** One `(id, position & 0xFF, (position >> 8) & 0xFF)` triple per servo, in input order. */
  function Triples(servoIds: seq<int>, positions: seq<int>): (t: seq<int>)
    requires |servoIds| == |positions|
    ensures |t| == 3 * |servoIds|
  {
    if servoIds == [] then []
    else Triples(servoIds[..|servoIds| - 1], positions[..|positions| - 1])
         + [servoIds[|servoIds| - 1], Lo(positions[|positions| - 1]), Hi(positions[|positions| - 1])]
  }

  /** The triple of servo i sits at offset 3i. */
  lemma {:induction false} TriplesAt(servoIds: seq<int>, positions: seq<int>, i: int)
    requires |servoIds| == |positions|
    requires 0 <= i < |servoIds|
    ensures Triples(servoIds, positions)[3 * i] == servoIds[i]
    ensures Triples(servoIds, positions)[3 * i + 1] == Lo(positions[i])
    ensures Triples(servoIds, positions)[3 * i + 2] == Hi(positions[i])
  {
    var n := |servoIds|;
    if i < n - 1 {
      TriplesAt(servoIds[..n - 1], positions[..n - 1], i);
    }
  }

  /** Index of the first pair the check rejects, or |servoIds| when every pair passes. */
  function FirstRejected(servoIds: seq<int>, positions: seq<int>): (k: nat)
    requires |servoIds| == |positions|
    ensures k <= |servoIds|
    ensures forall j :: 0 <= j < k ==> CheckServo(servoIds[j], positions[j]) == None
    ensures k < |servoIds| ==> CheckServo(servoIds[k], positions[k]).Some?
    decreases |servoIds|
  {
    if servoIds == [] || CheckServo(servoIds[0], positions[0]).Some? then 0
    else 1 + FirstRejected(servoIds[1..], positions[1..])
  }

  /** What `move_servos` hands to `send_command`, or the assertion it fails with first. */
  function MoveParams(servoIds: seq<int>, positions: seq<int>, timeMs: int): Result<seq<int>, Error>
  {
    if |servoIds| != |positions| then Failure(LengthMismatch)
    else
      var k := FirstRejected(servoIds, positions);
      if k < |servoIds| then Failure(CheckServo(servoIds[k], positions[k]).value)
      else Success([|servoIds|, Lo(timeMs), Hi(timeMs)] + Triples(servoIds, positions))
  }

  /**
   * The layout of a batched move: it is built exactly when the lists have equal
   * length and every pair passes the check, and then holds the count, the time
   * bytes, and the triples in input order.
   */
  lemma MoveParamsLayout(servoIds: seq<int>, positions: seq<int>, timeMs: int)
    ensures MoveParams(servoIds, positions, timeMs).Success? <==>
      |servoIds| == |positions| &&
      forall j :: 0 <= j < |servoIds| ==> CheckServo(servoIds[j], positions[j]) == None
    ensures MoveParams(servoIds, positions, timeMs).Success? ==>
      var p := MoveParams(servoIds, positions, timeMs).value;
      |p| == 3 * |servoIds| + 3 && Packet(CmdServoMove, p)[2] == 3 * |servoIds| + 5 &&
      p[0] == |servoIds| && p[1] == Lo(timeMs) && p[2] == Hi(timeMs) &&
      forall i :: 0 <= i < |servoIds| ==>
        p[3 + 3 * i] == servoIds[i] && p[4 + 3 * i] == Lo(positions[i]) && p[5 + 3 * i] == Hi(positions[i])
  {
    if MoveParams(servoIds, positions, timeMs).Success? {
      var p := MoveParams(servoIds, positions, timeMs).value;
      forall i | 0 <= i < |servoIds|
        ensures p[3 + 3 * i] == servoIds[i] && p[4 + 3 * i] == Lo(positions[i]) && p[5 + 3 * i] == Hi(positions[i])
      {
        TriplesAt(servoIds, positions, i);
      }
    }
  }

  /** A rejected batch names the first pair, in input order, that fails the check. */
  lemma MoveParamsRejection(servoIds: seq<int>, positions: seq<int>, timeMs: int)
    requires |servoIds| == |positions|
    requires MoveParams(servoIds, positions, timeMs).Failure?
    ensures exists k :: (0 <= k < |servoIds| &&
      (forall j :: 0 <= j < k ==> CheckServo(servoIds[j], positions[j]) == None) &&
      CheckServo(servoIds[k], positions[k]) == Some(MoveParams(servoIds, positions, timeMs).error))
  {
    var k := FirstRejected(servoIds, positions);
    assert 0 <= k < |servoIds|;
  }

  /** `move_servo(id, p, t)` sends the same params as `move_servos([id], [p], t)`. */
  lemma SingleMoveIsBatchOfOne(servoId: int, position: int, timeMs: int)
    ensures CheckServo(servoId, position) == None ==>
      MoveParams([servoId], [position], timeMs) == Success(MoveServoParams(servoId, position, timeMs))
    ensures CheckServo(servoId, position).Some? ==>
      MoveParams([servoId], [position], timeMs) == Failure(CheckServo(servoId, position).value)
  {
    if CheckServo(servoId, position) == None {
      FirstRejectedIs([servoId], [position], 1);
      assert [servoId][..0] == [] && [position][..0] == [];
      assert Triples([servoId], [position]) == Triples([], []) + [servoId, Lo(position), Hi(position)];
      assert MoveServoParams(servoId, position, timeMs) == [1, Lo(timeMs), Hi(timeMs)] + Triples([servoId], [position]);
    }
  }

  /**
   * The loop of `move_servos` (lines 73-82): the parameter list grows by one
   * triple per servo after that servo passes the check.
   */
  method BuildMoveParams(servoIds: seq<int>, positions: seq<int>, timeMs: int) returns (r: Result<seq<int>, Error>)
    ensures r == MoveParams(servoIds, positions, timeMs)
  {
    var allParams := [|servoIds|, Lo(timeMs), Hi(timeMs)];
    if |servoIds| != |positions| {
      return Failure(LengthMismatch);
    }
    var idx := 0;
    while idx < |servoIds|
      invariant 0 <= idx <= |servoIds|
      invariant forall j :: 0 <= j < idx ==> CheckServo(servoIds[j], positions[j]) == None
      invariant allParams == [|servoIds|, Lo(timeMs), Hi(timeMs)] + Triples(servoIds[..idx], positions[..idx])
    {
      var servoId := servoIds[idx];
      var position := positions[idx];
      var rejected := CheckServo(servoId, position);
      if rejected.Some? {
        FirstRejectedIs(servoIds, positions, idx);
        return Failure(rejected.value);
      }
      allParams := allParams + [servoId, Lo(position), Hi(position)];
      assert servoIds[..idx + 1][..idx] == servoIds[..idx];
      assert positions[..idx + 1][..idx] == positions[..idx];
      idx := idx + 1;
    }
    assert servoIds[..idx] == servoIds && positions[..idx] == positions;
    FirstRejectedIs(servoIds, positions, idx);
    r := Success(allParams);
  }

  /** The first failing index is the one where every earlier pair passes and this one does not. */
  lemma {:induction false} FirstRejectedIs(servoIds: seq<int>, positions: seq<int>, k: nat)
    requires |servoIds| == |positions| && k <= |servoIds|
    requires forall j :: 0 <= j < k ==> CheckServo(servoIds[j], positions[j]) == None
    requires k < |servoIds| ==> CheckServo(servoIds[k], positions[k]).Some?
    ensures FirstRejected(servoIds, positions) == k
  {
    if k > 0 {
      FirstRejectedIs(servoIds[1..], positions[1..], k - 1);
    }
  }

  /** `[group_id, x & 0xFF, (x >> 8) & 0xFF]`: the params of the action-group run and speed commands. */
  function ActionParams(groupId: int, value: int): seq<int>
  {
    [groupId, Lo(value), Hi(value)]
  }

  /** `[len(servo_ids)] + servo_ids`: the params of the unload and position-read commands. */
  function ServoListParams(servoIds: seq<int>): seq<int>
  {
    [|servoIds|] + servoIds
  }

  /** A servo list goes on the wire only when its ids are bytes and it holds at most 252 of them. */
  lemma ServoListPacketBytes(command: int, servoIds: seq<int>)
    requires 0 <= command < 256
    ensures AllBytes(Packet(command, ServoListParams(servoIds))) <==>
      |servoIds| <= 252 && AllBytes(servoIds)
  {
    PacketBytes(command, ServoListParams(servoIds));
    var p := ServoListParams(servoIds);
    if AllBytes(p) {
      forall i | 0 <= i < |servoIds| ensures 0 <= servoIds[i] < 256 {
        assert p[1 + i] == servoIds[i];
      }
    }
  }

  /** `response[5 + 3i]`: the servo id of triple i. */
  function IdAt(response: seq<byte>, i: nat): byte
    requires 6 + 3 * i <= |response|
  {
    response[5 + 3 * i]
  }

  /** `response[7 + 3i] | (response[6 + 3i] << 8)`: byte 6 + 3i is the high byte. */
  function PositionAt(response: seq<byte>, i: nat): int
    requires 8 + 3 * i <= |response|
  {
    response[7 + 3 * i] as int + 256 * response[6 + 3 * i] as int
  }

  /** The positions dict after the first k rounds of the decode loop: later ids overwrite earlier ones. */
  function PositionMap(response: seq<byte>, k: nat): map<int, int>
    requires 5 + 3 * k <= |response|
  {
    if k == 0 then map[]
    else PositionMap(response, k - 1)[IdAt(response, k - 1) := PositionAt(response, k - 1)]
  }

  /**
   * What `read_servo_positions` returns for a reply `response` to a request for
   * `count` servos: a ValueError below 5 bytes, an IndexError when the reply
   * stops before the last triple, and the decoded dict otherwise.
   */
  function DecodePositions(response: seq<byte>, count: nat): Result<map<int, int>, Error>
  {
    if |response| < 5 then Failure(InvalidResponse(response))
    else if |response| < 5 + 3 * count then Failure(ResponseTruncated)
    else Success(PositionMap(response, count))
  }

  /** The keys of the decoded dict are exactly the ids in the reply. */
  lemma {:induction false} PositionMapKeys(response: seq<byte>, k: nat)
    requires 5 + 3 * k <= |response|
    ensures forall id :: id in PositionMap(response, k) <==> exists i :: 0 <= i < k && IdAt(response, i) == id
  {
    if k > 0 {
      PositionMapKeys(response, k - 1);
      var m := PositionMap(response, k);
      var last := IdAt(response, k - 1);
      forall id | id in m ensures exists i :: 0 <= i < k && IdAt(response, i) == id {
        if id != last {
          assert id in PositionMap(response, k - 1);
          var i :| 0 <= i < k - 1 && IdAt(response, i) == id;
          assert 0 <= i < k;
        } else {
          assert IdAt(response, k - 1) == id;
        }
      }
      forall id | exists i :: 0 <= i < k && IdAt(response, i) == id ensures id in m {
        var i :| 0 <= i < k && IdAt(response, i) == id;
        if i < k - 1 {
          assert id in PositionMap(response, k - 1);
        }
      }
    }
  }

  /** An id that the reply does not repeat later maps to the position of its triple. */
  lemma {:induction false} PositionMapValues(response: seq<byte>, k: nat)
    requires 5 + 3 * k <= |response|
    ensures forall i :: 0 <= i < k && (forall j :: i < j < k ==> IdAt(response, j) != IdAt(response, i)) ==>
      IdAt(response, i) in PositionMap(response, k) && PositionMap(response, k)[IdAt(response, i)] == PositionAt(response, i)
  {
    if k > 0 {
      PositionMapValues(response, k - 1);
      forall i | 0 <= i < k - 1 && (forall j :: i < j < k ==> IdAt(response, j) != IdAt(response, i))
        ensures IdAt(response, i) in PositionMap(response, k) && PositionMap(response, k)[IdAt(response, i)] == PositionAt(response, i)
      {
        assert IdAt(response, k - 1) != IdAt(response, i);
      }
    }
  }

  /** Every decoded position is a 16-bit value. */
  lemma {:induction false} PositionMapBounds(response: seq<byte>, k: nat)
    requires 5 + 3 * k <= |response|
    ensures forall id :: id in PositionMap(response, k) ==> 0 <= id < 256 && 0 <= PositionMap(response, k)[id] < 65536
  {
    if k > 0 {
      PositionMapBounds(response, k - 1);
    }
  }

  /**
   * The loop of `read_servo_positions` (lines 120-127): reject a reply under
   * five bytes, then decode triple after triple, failing on the first one the
   * reply does not hold.
   */
  method DecodeResponse(response: seq<byte>, count: nat) returns (r: Result<map<int, int>, Error>)
    ensures r == DecodePositions(response, count)
  {
    if |response| < 5 {
      return Failure(InvalidResponse(response));
    }
    var positions := map[];
    var i := 0;
    while i < count
      invariant 0 <= i <= count
      invariant 5 + 3 * i <= |response|
      invariant positions == PositionMap(response, i)
    {
      if 7 + 3 * i >= |response| {
        return Failure(ResponseTruncated);
      }
      var servoId := response[5 + 3 * i];
      var position := response[7 + 3 * i] as int + 256 * response[6 + 3 * i] as int;
      positions := positions[servoId := position];
      i := i + 1;
    }
    r := Success(positions);
  }

  /** The `(id, high, low)` triples a board sends back for the given servos and positions. */
  function ReplyTriples(servoIds: seq<byte>, positions: seq<int>): (t: seq<byte>)
    requires |servoIds| == |positions|
    ensures |t| == 3 * |servoIds|
  {
    if servoIds == [] then []
    else ReplyTriples(servoIds[..|servoIds| - 1], positions[..|positions| - 1])
         + [servoIds[|servoIds| - 1], Hi(positions[|positions| - 1]), Lo(positions[|positions| - 1])]
  }

  /** A board's reply to a position read: the usual frame around a count and the triples. */
  function PositionsReply(servoIds: seq<byte>, positions: seq<int>): (r: seq<byte>)
    requires |servoIds| == |positions| && |servoIds| <= 84
  {
    [0x55, 0x55, 3 * |servoIds| + 3, CmdMultServoPosRead, |servoIds|] + ReplyTriples(servoIds, positions)
  }

  lemma {:induction false} ReplyTriplesAt(servoIds: seq<byte>, positions: seq<int>, i: int)
    requires |servoIds| == |positions|
    requires 0 <= i < |servoIds|
    ensures ReplyTriples(servoIds, positions)[3 * i] == servoIds[i]
    ensures ReplyTriples(servoIds, positions)[3 * i + 1] == Hi(positions[i])
    ensures ReplyTriples(servoIds, positions)[3 * i + 2] == Lo(positions[i])
  {
    var n := |servoIds|;
    if i < n - 1 {
      ReplyTriplesAt(servoIds[..n - 1], positions[..n - 1], i);
    }
  }

  /** The triple of servo i sits at offset 5 + 3i of the reply. */
  lemma ReplyAt(servoIds: seq<byte>, positions: seq<int>, i: int)
    requires |servoIds| == |positions| && |servoIds| <= 84
    requires 0 <= i < |servoIds|
    requires 0 <= positions[i] < 65536
    ensures 8 + 3 * i <= |PositionsReply(servoIds, positions)|
    ensures PositionsReply(servoIds, positions)[5 + 3 * i] == servoIds[i]
    ensures PositionAt(PositionsReply(servoIds, positions), i) == positions[i]
  {
    var reply := PositionsReply(servoIds, positions);
    var t := ReplyTriples(servoIds, positions);
    assert reply[5 + 3 * i] == t[3 * i] && reply[6 + 3 * i] == t[3 * i + 1] && reply[7 + 3 * i] == t[3 * i + 2];
    ReplyTriplesAt(servoIds, positions, i);
    LoHiRoundTrip(positions[i]);
  }

  /** The reply is a well-formed frame of the position-read command. */
  lemma PositionsReplyParses(servoIds: seq<byte>, positions: seq<int>)
    requires |servoIds| == |positions| && |servoIds| <= 84
    ensures ParseFrame(PositionsReply(servoIds, positions)) ==
      Some((CmdMultServoPosRead, [|servoIds|] + ReplyTriples(servoIds, positions)))
  {
    var reply := PositionsReply(servoIds, positions);
    assert reply[..2] == Header;
    assert reply[4..] == [|servoIds|] + ReplyTriples(servoIds, positions);
  }

  /**
   * Decoding a full reply for distinct servos gives back every servo's 16-bit
   * position, and nothing else.
   */
  lemma PositionsRoundTrip(servoIds: seq<byte>, positions: seq<int>)
    requires |servoIds| == |positions| && |servoIds| <= 84
    requires forall i, j :: 0 <= i < j < |servoIds| ==> servoIds[i] != servoIds[j]
    requires forall i :: 0 <= i < |positions| ==> 0 <= positions[i] < 65536
    ensures DecodePositions(PositionsReply(servoIds, positions), |servoIds|).Success?
    ensures var m := DecodePositions(PositionsReply(servoIds, positions), |servoIds|).value;
      (forall id :: id in m <==> id in servoIds) &&
      forall i :: 0 <= i < |servoIds| ==> m[servoIds[i]] == positions[i]
  {
    var n := |servoIds|;
    var reply := PositionsReply(servoIds, positions);
    forall i | 0 <= i < n
      ensures IdAt(reply, i) == servoIds[i] && PositionAt(reply, i) == positions[i]
    {
      ReplyAt(servoIds, positions, i);
    }
    PositionMapKeys(reply, n);
    PositionMapValues(reply, n);
    var m := PositionMap(reply, n);
    forall id | id in servoIds ensures id in m {
      var i :| 0 <= i < n && servoIds[i] == id;
      assert IdAt(reply, i) == id;
    }
    forall id | id in m ensures id in servoIds {
      var i :| 0 <= i < n && IdAt(reply, i) == id;
      assert servoIds[i] == id;
    }
    forall i | 0 <= i < n ensures m[servoIds[i]] == positions[i] {
      forall j | i < j < n ensures IdAt(reply, j) != IdAt(reply, i) {
        assert servoIds[j] != servoIds[i];
      }
    }
  }
}
