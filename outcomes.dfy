/** Success/failure values standing in for the exceptions the servo client raises. */
module Outcomes {

  datatype Option<+T> = None | Some(value: T)

  datatype Result<+R, +E> = Success(value: R) | Failure(error: E)

  /** A result that carries no value: the operation either completed or raised. */
  datatype Outcome<+E> = Pass | Fail(error: E)

  /** The exceptions of `LSCServoController`, one constructor per raise site. */
  datatype Error =
    | UnknownServo(servoId: int)                     // assert servo_id in SERVO_LIMITS
    | PositionRejected(servoId: int, position: int)  // assert on the servo's limit pair
    | LengthMismatch                                 // assert len(servo_ids) == len(positions)
    | ByteOutOfRange                                 // bytearray(packet) with an element outside 0..255
    | PortNotOpen                                    // the serial port refuses I/O once closed
    | ShortWrite(written: int, expected: int)        // assert bytes_written == len(packet)
    | InvalidResponse(response: seq<int>)            // ValueError: fewer than 5 bytes read
    | ResponseTruncated                              // IndexError while decoding the position triples
    | PortNotFound                                   // Exception("Serial port not found")
    | CloseFailed                                    // the operating system refused to close the port
}
