/**
 * The host protocol of the Haplink firmware (haplink_communication.c).
 *
 * The computer program sends one-character commands ('1' acknowledge, '2'
 * debug, '3' data request, 'm' motor test, 't' teleoperation request) and
 * teleoperation frames 'p' hi lo 'l' (one degree of freedom) or
 * 'p' xhi xlo yhi ylo 'l' (two degrees of freedom). A frame carries each
 * position as an unsigned 16-bit fixed-point number: hundredths above an
 * offset of -90 mm (1-DOF) or -200 mm (2-DOF), most significant byte first.
 */
module Communication {

  /** A `uint8_t`. */
  type Byte = x: int | 0 <= x < 256

  const CharAck: Byte := '1' as int
  const CharDebug: Byte := '2' as int
  const CharRequest: Byte := '3' as int
  const CharMotor: Byte := 'm' as int
  const CharPosition: Byte := 'p' as int
  const CharTele: Byte := 't' as int
  const CharEnd: Byte := 'l' as int
  const CharZero: Byte := '0' as int

  /** The offsets of the two frame formats. */
  const OffsetXH: real := 90.0
  const OffsetRxRy: real := 200.0

  /** The fixed-point value a packer stores for position `x` with offset
    * `offset`: hundredths above the offset, negative values clamped to 0,
    * converted to `uint16_t` by truncation. A value of 65536 or more does
    * not fit and its conversion is undefined in C. */
  function FixedPoint(x: real, offset: real): (u: int)
    requires (x + offset) * 100.0 < 65536.0
    ensures 0 <= u < 65536
  {
    var position := (x + offset) * 100.0;
    if position < 0.0 then 0 else position.Floor
  }

  /** A position at or above the offset is stored as the whole number of
    * hundredths it lies above the offset; one below is stored as 0. */
  lemma FixedPointSpec(x: real, offset: real)
    requires (x + offset) * 100.0 < 65536.0
    ensures x + offset >= 0.0 ==>
      FixedPoint(x, offset) as real <= (x + offset) * 100.0 < FixedPoint(x, offset) as real + 1.0
    ensures x + offset < 0.0 ==> FixedPoint(x, offset) == 0
  {
  }

  /** `u >> 8` and `u & 0xFF` of a `uint16_t`. */
  function High(u: int): Byte
    requires 0 <= u < 65536
  {
    u / 256
  }

  function Low(u: int): Byte
    requires 0 <= u < 65536
  {
    u % 256
  }

  /** `(hi << 8) | lo` in a `uint16_t`: the word a decoder rebuilds. */
  function Word(hi: Byte, lo: Byte): (w: int)
    ensures 0 <= w < 65536
  {
    hi * 256 + lo
  }

  /** The bytes of a word rebuild it, and a word's bytes are the ones it was
    * built from. */
  lemma {:induction false} WordRoundTrip(u: int, hi: Byte, lo: Byte)
    requires 0 <= u < 65536
    ensures Word(High(u), Low(u)) == u
    ensures High(Word(hi, lo)) == hi && Low(Word(hi, lo)) == lo
  {
    assert Word(hi, lo) / 256 == hi && Word(hi, lo) % 256 == lo by {
      var w := hi * 256 + lo;
      assert w == 256 * hi + lo;
    }
  }

  /** The position a decoder computes from a fixed-point word. */
  function Unfix(w: int, offset: real): real
  {
    w as real / 100.0 - offset
  }

  /** get_xH_packed's frame for handle position `xH`. */
  function XHFrame(xH: real): (f: seq<Byte>)
    requires (xH + OffsetXH) * 100.0 < 65536.0
    ensures |f| == 4 && f[0] == CharPosition && f[3] == CharEnd
  {
    var u := FixedPoint(xH, OffsetXH);
    [CharPosition, High(u), Low(u), CharEnd]
  }

  /** get_rx_ry_packed's frame for cursor position (`rx`, `ry`). */
  function RxRyFrame(rx: real, ry: real): (f: seq<Byte>)
    requires (rx + OffsetRxRy) * 100.0 < 65536.0 && (ry + OffsetRxRy) * 100.0 < 65536.0
    ensures |f| == 6 && f[0] == CharPosition && f[5] == CharEnd
  {
    var ux := FixedPoint(rx, OffsetRxRy);
    var uy := FixedPoint(ry, OffsetRxRy);
    [CharPosition, High(ux), Low(ux), High(uy), Low(uy), CharEnd]
  }

  /** The 1-DOF teleoperation position decodeMessage reads from `buf`. */
  function TeleXH(buf: seq<Byte>): real
    requires |buf| >= 3
  {
    Unfix(Word(buf[1], buf[2]), OffsetXH)
  }

  /** The 2-DOF teleoperation positions decodeMessage reads from `buf`. */
  function TeleRx(buf: seq<Byte>): real
    requires |buf| >= 5
  {
    Unfix(Word(buf[1], buf[2]), OffsetRxRy)
  }

  function TeleRy(buf: seq<Byte>): real
    requires |buf| >= 5
  {
    Unfix(Word(buf[3], buf[4]), OffsetRxRy)
  }

  /** Decoding a fixed-point word loses less than a hundredth: the decoded
    * position is at most the packed one and within 0.01 below it, or the
    * offset itself when the position lay below the offset. */
  lemma {:induction false} UnfixFixedPoint(x: real, offset: real)
    requires (x + offset) * 100.0 < 65536.0
    ensures x + offset >= 0.0 ==>
      x - 0.01 < Unfix(FixedPoint(x, offset), offset) <= x
    ensures x + offset < 0.0 ==> Unfix(FixedPoint(x, offset), offset) == -offset
  {
    FixedPointSpec(x, offset);
  }

  /** A 1-DOF frame decodes to the packed handle position, to within a
    * hundredth below it. */
  lemma {:induction false} XHRoundTrip(xH: real)
    requires (xH + OffsetXH) * 100.0 < 65536.0
    ensures xH >= -OffsetXH ==> xH - 0.01 < TeleXH(XHFrame(xH)) <= xH
    ensures xH < -OffsetXH ==> TeleXH(XHFrame(xH)) == -OffsetXH
  {
    var u := FixedPoint(xH, OffsetXH);
    WordRoundTrip(u, 0, 0);
    UnfixFixedPoint(xH, OffsetXH);
  }

  /** A 2-DOF frame decodes to the packed cursor position, each coordinate
    * to within a hundredth below it. */
  lemma {:induction false} RxRyRoundTrip(rx: real, ry: real)
    requires (rx + OffsetRxRy) * 100.0 < 65536.0 && (ry + OffsetRxRy) * 100.0 < 65536.0
    ensures rx >= -OffsetRxRy ==> rx - 0.01 < TeleRx(RxRyFrame(rx, ry)) <= rx
    ensures ry >= -OffsetRxRy ==> ry - 0.01 < TeleRy(RxRyFrame(rx, ry)) <= ry
  {
    WordRoundTrip(FixedPoint(rx, OffsetRxRy), 0, 0);
    WordRoundTrip(FixedPoint(ry, OffsetRxRy), 0, 0);
    UnfixFixedPoint(rx, OffsetRxRy);
    UnfixFixedPoint(ry, OffsetRxRy);
  }

  /** get_xH_packed: write the 1-DOF frame of `xH` into `buffer`. */
  method PackXH(xH: real, buffer: array<Byte>)
    requires buffer.Length >= 4 && (xH + OffsetXH) * 100.0 < 65536.0
    modifies buffer
    ensures buffer[..4] == XHFrame(xH)
    ensures buffer[4..] == old(buffer[4..])
  {
    var position := xH;
    position := position + 90.0;
    position := position * 100.0;
    if position < 0.0 {
      position := 0.0;
    }
    var positionU := position.Floor;
    buffer[0] := CharPosition;
    buffer[1] := positionU / 256;
    buffer[2] := positionU % 256;
    buffer[3] := CharEnd;
  }

  /** get_rx_ry_packed: write the 2-DOF frame of (`rx`, `ry`) into `buffer`. */
  method PackRxRy(rx: real, ry: real, buffer: array<Byte>)
    requires buffer.Length >= 6
    requires (rx + OffsetRxRy) * 100.0 < 65536.0 && (ry + OffsetRxRy) * 100.0 < 65536.0
    modifies buffer
    ensures buffer[..6] == RxRyFrame(rx, ry)
    ensures buffer[6..] == old(buffer[6..])
  {
    var positionX := rx;
    positionX := positionX + 200.0;
    positionX := positionX * 100.0;
    if positionX < 0.0 {
      positionX := 0.0;
    }
    var positionXU := positionX.Floor;
    var positionY := ry;
    positionY := positionY + 200.0;
    positionY := positionY * 100.0;
    if positionY < 0.0 {
      positionY := 0.0;
    }
    var positionYU := positionY.Floor;
    buffer[0] := CharPosition;
    buffer[1] := positionXU / 256;
    buffer[2] := positionXU % 256;
    buffer[3] := positionYU / 256;
    buffer[4] := positionYU % 256;
    buffer[5] := CharEnd;
  }

  /** The value decodeMessage returns for a message starting with `c`. */
  function ReturnCode(c: Byte): int
  {
    if c == CharAck then 1
    else if c == CharDebug then 2
    else if c == CharRequest then 3
    else if c == CharMotor then 22
    else -1
  }

  /** The known commands '1', '2', '3' and 'm' get distinct positive codes;
    * every other message, 'p' and 't' included, gets -1. */
  lemma ReturnCodeSpec(c: Byte, d: Byte)
    ensures ReturnCode(c) == -1 <==> c !in {CharAck, CharDebug, CharRequest, CharMotor}
    ensures ReturnCode(c) > 0 && ReturnCode(c) == ReturnCode(d) ==> c == d
  {
  }

  /** The call decodeMessage makes into the motor driver: a duty cycle for
    * one of the first two motors. */
  datatype DutyCommand = NoCommand | SetDuty(motor: nat, duty: real)

  /** The motor test command of a message: "m10"/"m11" set motor 1 to duty
    * 0 or 0.25, "m20"/"m21" the same for motor 2; any other payload does
    * nothing. */
  function MotorCommand(buf: seq<Byte>): (cmd: DutyCommand)
    requires |buf| >= 3
  {
    if buf[0] != CharMotor then NoCommand
    else if buf[1] == '1' as int && buf[2] == CharZero then SetDuty(1, 0.0)
    else if buf[1] == '1' as int && buf[2] == '1' as int then SetDuty(1, 0.25)
    else if buf[1] == '2' as int && buf[2] == CharZero then SetDuty(2, 0.0)
    else if buf[1] == '2' as int && buf[2] == '1' as int then SetDuty(2, 0.25)
    else NoCommand
  }

  /** A motor command names motor `buf[1]` and duty 0 for '0', 0.25 for '1'. */
  lemma MotorCommandSpec(buf: seq<Byte>)
    requires |buf| >= 3
    ensures MotorCommand(buf).SetDuty? <==>
      buf[0] == CharMotor && buf[1] in {'1' as int, '2' as int} && buf[2] in {CharZero, '1' as int}
    ensures MotorCommand(buf).SetDuty? ==>
      MotorCommand(buf).motor == buf[1] - '0' as int &&
      MotorCommand(buf).duty == (if buf[2] == CharZero then 0.0 else 0.25)
  {
  }

  /** The protocol globals of haplink_communication.c. `dof2` stands for the
    * DOF_2 build option (DOF_1 otherwise). */
  class Link {
    const dof2: bool
    var messageAcknowledged: int
    var seenLifeFromComputer: int
    var dataHasBeenRequested: int
    var dataTeleOperationHasBeenRequested: int
    var xHTele: real
    var rxTele: real
    var ryTele: real

    /** The initial values of the globals. */
    constructor (dof2: bool)
      ensures this.dof2 == dof2
      ensures messageAcknowledged == 1 && seenLifeFromComputer == 0
      ensures dataHasBeenRequested == 0 && dataTeleOperationHasBeenRequested == 0
      ensures xHTele == 0.0 && rxTele == 0.0 && ryTele == 0.0
    {
      this.dof2 := dof2;
      messageAcknowledged := 1;
      seenLifeFromComputer := 0;
      dataHasBeenRequested := 0;
      dataTeleOperationHasBeenRequested := 0;
      xHTele, rxTele, ryTele := 0.0, 0.0, 0.0;
    }

    /** resetCommunicationVariables: the four flags return to their initial
      * values; the teleoperation positions are kept. */
    method Reset()
      modifies this`messageAcknowledged, this`seenLifeFromComputer
      modifies this`dataHasBeenRequested, this`dataTeleOperationHasBeenRequested
      ensures messageAcknowledged == 1 && seenLifeFromComputer == 0
      ensures dataHasBeenRequested == 0 && dataTeleOperationHasBeenRequested == 0
    {
      messageAcknowledged := 1;
      seenLifeFromComputer := 0;
      dataHasBeenRequested := 0;
      dataTeleOperationHasBeenRequested := 0;
    }

    /** decodeMessage: the computer is alive; '1' acknowledges, '3' requests
      * data, 'm' returns a motor command, 'p' stores the teleoperation
      * position of the frame, and 'p' and 't' both count a teleoperation
      * request. */
    method Decode(buf: seq<Byte>) returns (returnMessage: int, cmd: DutyCommand)
      requires |buf| >= (if dof2 then 5 else 3)
      modifies this`messageAcknowledged, this`seenLifeFromComputer, this`dataHasBeenRequested
      modifies this`dataTeleOperationHasBeenRequested, this`xHTele, this`rxTele, this`ryTele
      ensures returnMessage == ReturnCode(buf[0])
      ensures cmd == MotorCommand(buf)
      ensures seenLifeFromComputer == 1
      ensures messageAcknowledged == if buf[0] == CharAck then 1 else old(messageAcknowledged)
      ensures dataHasBeenRequested == if buf[0] == CharRequest then 1 else old(dataHasBeenRequested)
      ensures dataTeleOperationHasBeenRequested ==
        old(dataTeleOperationHasBeenRequested) + (if buf[0] in {CharPosition, CharTele} then 1 else 0)
      ensures xHTele == if buf[0] == CharPosition && !dof2 then TeleXH(buf) else old(xHTele)
      ensures rxTele == if buf[0] == CharPosition && dof2 then TeleRx(buf) else old(rxTele)
      ensures ryTele == if buf[0] == CharPosition && dof2 then TeleRy(buf) else old(ryTele)
    {
      returnMessage := -1;
      cmd := NoCommand;
      seenLifeFromComputer := 1;
      if buf[0] == CharAck {
        returnMessage := 1;
        messageAcknowledged := 1;
      } else if buf[0] == CharDebug {
        returnMessage := 2;
      } else if buf[0] == CharRequest {
        returnMessage := 3;
        dataHasBeenRequested := 1;
      } else if buf[0] == CharMotor {
        returnMessage := 22;
        if buf[1] == '1' as int {
          if buf[2] == CharZero {
            cmd := SetDuty(1, 0.0);
          } else if buf[2] == '1' as int {
            cmd := SetDuty(1, 0.25);
          }
        } else if buf[1] == '2' as int {
          if buf[2] == CharZero {
            cmd := SetDuty(2, 0.0);
          } else if buf[2] == '1' as int {
            cmd := SetDuty(2, 0.25);
          }
        }
      } else if buf[0] == CharPosition {
        if !dof2 {
          var xHTeleNew := Word(buf[1], buf[2]);
          xHTele := xHTeleNew as real / 100.0 - 90.0;
        } else {
          var rxTeleNew := Word(buf[1], buf[2]);
          rxTele := rxTeleNew as real / 100.0 - 200.0;
          var ryTeleNew := Word(buf[3], buf[4]);
          ryTele := ryTeleNew as real / 100.0 - 200.0;
        }
        dataTeleOperationHasBeenRequested := dataTeleOperationHasBeenRequested + 1;
      } else if buf[0] == CharTele {
        dataTeleOperationHasBeenRequested := dataTeleOperationHasBeenRequested + 1;
      }
    }

    /** The getters of the teleoperation positions and of the flags. */
    function TelePosition(): (x: real)
      reads this
      ensures x == xHTele
    {
      xHTele
    }

    function RxTele(): (x: real)
      reads this
      ensures x == rxTele
    {
      rxTele
    }

    function RyTele(): (y: real)
      reads this
      ensures y == ryTele
    {
      ryTele
    }

    /** clearMessageAcknowledged .. clearTeleOperationHasBeenRequested: each
      * zeroes its own flag and nothing else. */
    method ClearMessageAcknowledged()
      modifies this`messageAcknowledged
      ensures messageAcknowledged == 0
    {
      messageAcknowledged := 0;
    }

    method ClearSeenLifeFromComputer()
      modifies this`seenLifeFromComputer
      ensures seenLifeFromComputer == 0
    {
      seenLifeFromComputer := 0;
    }

    method ClearDataHasBeenRequested()
      modifies this`dataHasBeenRequested
      ensures dataHasBeenRequested == 0
    {
      dataHasBeenRequested := 0;
    }

    method ClearTeleOperationHasBeenRequested()
      modifies this`dataTeleOperationHasBeenRequested
      ensures dataTeleOperationHasBeenRequested == 0
    {
      dataTeleOperationHasBeenRequested := 0;
    }
  }
}
