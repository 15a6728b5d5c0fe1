/**
 * The serial side of the host protocol (debug_mort.cpp): the receive
 * callback that frames incoming bytes into the 20-byte communication buffer,
 * the received-message counter, and the senders that answer the computer
 * only once it has acknowledged and asked for data.
 *
 * The serial port is the sequence `input` of bytes the computer has sent and
 * the firmware has not read yet; `pc.getc()` takes its first byte. What the
 * senders print is I/O and is not modelled; they return whether they sent.
 */
module SerialLink {

  import opened Communication

  /** The sizes of communicationBuf and sendBuffer. */
  const BufferSize: nat := 20
  const SendBufferSize: nat := 10

  /** The position of the first `c` in `s`. */
  function IndexOf(s: seq<Byte>, c: Byte): (n: nat)
    requires c in s
    ensures n < |s| && s[n] == c
    ensures forall j :: 0 <= j < n ==> s[j] != c
  {
    if s[0] == c then 0 else 1 + IndexOf(s[1..], c)
  }

  /** `input` holds a whole frame: a 'p' frame of the build's length, or
    * any other frame whose terminator 'l' comes after at most
    * `BufferSize` bytes. The callback has no bound check, so a longer
    * frame would write past the buffer. */
  predicate Complete(input: seq<Byte>, dof2: bool)
  {
    |input| > 0 &&
    if input[0] == CharPosition then |input| >= (if dof2 then 6 else 4)
    else CharEnd in input && IndexOf(input, CharEnd) <= BufferSize
  }

  /** What the callback makes of a frame: the bytes it stores from the
    * start of the buffer, the message size and the bytes it consumes. */
  datatype Frame = Frame(stored: seq<Byte>, size: nat, consumed: nat)

  /** The frame at the head of `input`: a 'p' frame stores 'p' and its
    * position bytes (two, or four under DOF_2) and consumes its terminator
    * unread; any other frame stores every byte up to the first 'l', which
    * is consumed but not stored. */
  function Parse(input: seq<Byte>, dof2: bool): (f: Frame)
    requires Complete(input, dof2)
    ensures f.consumed <= |input| && |f.stored| <= BufferSize && |f.stored| <= |input|
    ensures f.stored == input[..|f.stored|]
  {
    if input[0] == CharPosition then
      if dof2 then Frame(input[..5], 3, 6) else Frame(input[..3], 3, 4)
    else
      var n := IndexOf(input, CharEnd);
      Frame(input[..n], n, n + 1)
  }

  /** A 'p' frame stores its first three bytes (five under DOF_2) and is
    * consumed with its terminator. */
  lemma ParsePosition(input: seq<Byte>, dof2: bool)
    requires |input| >= (if dof2 then 6 else 4) && input[0] == CharPosition
    ensures Complete(input, dof2)
    ensures Parse(input, dof2) ==
      if dof2 then Frame(input[..5], 3, 6) else Frame(input[..3], 3, 4)
  {
  }

  /** A frame from get_xH_packed is consumed exactly, terminator included,
    * and the handle position decodeMessage reads back from the stored
    * bytes is the packed one to within a hundredth below it. */
  lemma {:induction false} ParseXHFrame(xH: real, rest: seq<Byte>)
    requires (xH + OffsetXH) * 100.0 < 65536.0
    ensures Complete(XHFrame(xH) + rest, false)
    ensures Parse(XHFrame(xH) + rest, false).consumed == |XHFrame(xH)|
    ensures Parse(XHFrame(xH) + rest, false).stored == XHFrame(xH)[..3]
    ensures xH >= -OffsetXH ==> xH - 0.01 < TeleXH(Parse(XHFrame(xH) + rest, false).stored) <= xH
  {
    var f := XHFrame(xH);
    ParsePosition(f + rest, false);
    assert (f + rest)[..3] == f[..3];
    assert f[..3][1] == f[1] && f[..3][2] == f[2];
    XHRoundTrip(xH);
  }

  /** The same for a frame from get_rx_ry_packed under DOF_2. */
  lemma {:induction false} ParseRxRyFrame(rx: real, ry: real, rest: seq<Byte>)
    requires (rx + OffsetRxRy) * 100.0 < 65536.0 && (ry + OffsetRxRy) * 100.0 < 65536.0
    ensures Complete(RxRyFrame(rx, ry) + rest, true)
    ensures Parse(RxRyFrame(rx, ry) + rest, true).consumed == |RxRyFrame(rx, ry)|
    ensures Parse(RxRyFrame(rx, ry) + rest, true).stored == RxRyFrame(rx, ry)[..5]
    ensures rx >= -OffsetRxRy ==> rx - 0.01 < TeleRx(Parse(RxRyFrame(rx, ry) + rest, true).stored) <= rx
    ensures ry >= -OffsetRxRy ==> ry - 0.01 < TeleRy(Parse(RxRyFrame(rx, ry) + rest, true).stored) <= ry
  {
    var f := RxRyFrame(rx, ry);
    ParsePosition(f + rest, true);
    assert (f + rest)[..5] == f[..5];
    assert f[..5][1] == f[1] && f[..5][2] == f[2] && f[..5][3] == f[3] && f[..5][4] == f[4];
    RxRyRoundTrip(rx, ry);
  }

  /** A one-character command followed by 'l' is stored alone, with size
    * 1, and both bytes are consumed. */
  lemma {:induction false} ParseCommand(c: Byte, rest: seq<Byte>)
    requires c != CharPosition && c != CharEnd
    ensures Complete([c, CharEnd] + rest, false) && Complete([c, CharEnd] + rest, true)
    ensures Parse([c, CharEnd] + rest, false) == Frame([c], 1, 2)
    ensures Parse([c, CharEnd] + rest, true) == Frame([c], 1, 2)
  {
    var s := [c, CharEnd] + rest;
    assert s[1..][0] == CharEnd;
    assert IndexOf(s[1..], CharEnd) == 0;
    assert IndexOf(s, CharEnd) == 1;
  }

  /** The serial globals of debug_mort.cpp; `dof2` stands for the DOF_2
    * build option. The port holds the bytes `stream` the computer sends,
    * of which the first `cursor` have been read. */
  class Serial {
    const dof2: bool
    const communicationBuf: array<Byte>
    const sendBuffer: array<Byte>
    var stream: seq<Byte>
    var cursor: nat
    var receivechar: Byte
    var receivedMessage: int
    var messagesize: int

    predicate Valid()
      reads this
    {
      communicationBuf.Length == BufferSize && sendBuffer.Length == SendBufferSize &&
      communicationBuf != sendBuffer && cursor <= |stream|
    }

    /** The bytes not read yet. */
    function Pending(): seq<Byte>
      reads this
      requires cursor <= |stream|
    {
      stream[cursor..]
    }

    /** The initial values of the globals, with `stream` to come. */
    constructor (dof2: bool, stream: seq<Byte>)
      ensures Valid() && this.dof2 == dof2 && this.stream == stream && cursor == 0
      ensures receivedMessage == 0 && messagesize == 0
      ensures fresh(communicationBuf) && fresh(sendBuffer)
    {
      this.dof2 := dof2;
      this.stream := stream;
      cursor := 0;
      communicationBuf := new Byte[BufferSize](_ => 0);
      sendBuffer := new Byte[SendBufferSize](_ => 0);
      receivechar := 0;
      receivedMessage := 0;
      messagesize := 0;
    }

    /** pc.getc(): the next byte the computer sent. */
    method Getc() returns (c: Byte)
      requires cursor < |stream|
      modifies this`cursor
      ensures c == stream[old(cursor)] && cursor == old(cursor) + 1
    {
      c := stream[cursor];
      cursor := cursor + 1;
    }

    /** receiveMessageCallback: read one frame into communicationBuf, count
      * the message and record its size. */
    method ReceiveMessageCallback()
      requires Valid() && Complete(Pending(), dof2)
      modifies this`cursor, this`receivechar, this`receivedMessage, this`messagesize, communicationBuf
      ensures var f := Parse(old(Pending()), dof2);
        communicationBuf[..|f.stored|] == f.stored &&
        communicationBuf[|f.stored|..] == old(communicationBuf[|f.stored|..]) &&
        cursor == old(cursor) + f.consumed && messagesize == f.size
      ensures Valid()
      ensures receivedMessage == old(receivedMessage) + 1
      ensures receivechar == CharZero
    {
      var i: nat;
      receivechar := Getc();
      if receivechar == CharPosition {
        i := ReadPosition();
        ghost var f := Parse(old(Pending()), dof2);
        ParsePosition(old(Pending()), dof2);
        assert communicationBuf[..|f.stored|] == f.stored;
        assert communicationBuf[|f.stored|..] == old(communicationBuf[|f.stored|..]);
      } else {
        i := ReadUntilEnd();
      }
      receivechar := CharZero;
      receivedMessage := receivedMessage + 1;
      messagesize := i;
    }

    /** The 'p' branch of the callback, entered with 'p' just read into
      * `receivechar`: store it and the `n` - 1 position bytes that follow
      * (`n` is 3, or 5 under DOF_2), then consume the terminator. */
    method ReadPosition() returns (i: nat)
      requires Valid() && 0 < cursor && receivechar == CharPosition
      requires cursor + (if dof2 then 5 else 3) <= |stream|
      modifies this`cursor, this`receivechar, communicationBuf
      ensures var n := if dof2 then 5 else 3;
        (forall k :: 0 <= k < n ==> communicationBuf[k] == if k == 0 then old(receivechar) else stream[old(cursor) - 1 + k]) &&
        (forall k :: n <= k < BufferSize ==> communicationBuf[k] == old(communicationBuf[k])) &&
        cursor == old(cursor) + n && i == 3
    {
      communicationBuf[0] := receivechar;
      receivechar := Getc();
      communicationBuf[1] := receivechar;
      receivechar := Getc();
      communicationBuf[2] := receivechar;
      receivechar := Getc();
      i := 3;
      if dof2 {
        communicationBuf[3] := receivechar;
        receivechar := Getc();
        communicationBuf[4] := receivechar;
        receivechar := Getc();
      }
    }

    /** The other branch, entered with the first byte just read into
      * `receivechar`: store bytes until 'l', which is read but not
      * stored. */
    method ReadUntilEnd() returns (i: nat)
      requires Valid() && 0 < cursor && receivechar == stream[cursor - 1] != CharPosition
      requires Complete(stream[cursor - 1..], dof2)
      modifies this`cursor, this`receivechar, communicationBuf
      ensures var f := Parse(stream[old(cursor) - 1..], dof2);
        communicationBuf[..|f.stored|] == f.stored &&
        communicationBuf[|f.stored|..] == old(communicationBuf[|f.stored|..]) &&
        cursor == old(cursor) - 1 + f.consumed && i == f.size
    {
      ghost var start := cursor - 1;
      ghost var frame := stream[start..];
      ghost var n := IndexOf(frame, CharEnd);
      i := 0;
      while receivechar != CharEnd
        invariant i <= n && cursor == start + i + 1
        invariant receivechar == frame[i]
        invariant communicationBuf[..i] == frame[..i]
        invariant communicationBuf[i..] == old(communicationBuf[i..])
        decreases n - i
      {
        communicationBuf[i] := receivechar;
        receivechar := Getc();
        i := i + 1;
      }
    }

    /** checkReceiveMessage. */
    function CheckReceiveMessage(): (n: int)
      reads this
      ensures n == receivedMessage
    {
      receivedMessage
    }

    /** clearReceiveMessage. */
    method ClearReceiveMessage()
      modifies this`receivedMessage
      ensures receivedMessage == 0
    {
      receivedMessage := 0;
    }

    /** manageIncommingMessage: decode the buffered frame. */
    method ManageIncomingMessage(link: Link) returns (response: int, cmd: DutyCommand)
      requires Valid() && link.dof2 == dof2
      modifies link`messageAcknowledged, link`seenLifeFromComputer, link`dataHasBeenRequested
      modifies link`dataTeleOperationHasBeenRequested, link`xHTele, link`rxTele, link`ryTele
      ensures response == ReturnCode(communicationBuf[0])
      ensures cmd == MotorCommand(communicationBuf[..])
      ensures link.seenLifeFromComputer == 1
      ensures link.messageAcknowledged ==
        if communicationBuf[0] == CharAck then 1 else old(link.messageAcknowledged)
      ensures link.dataHasBeenRequested ==
        if communicationBuf[0] == CharRequest then 1 else old(link.dataHasBeenRequested)
      ensures link.dataTeleOperationHasBeenRequested ==
        old(link.dataTeleOperationHasBeenRequested) + (if communicationBuf[0] in {CharPosition, CharTele} then 1 else 0)
      ensures link.xHTele ==
        if communicationBuf[0] == CharPosition && !dof2 then TeleXH(communicationBuf[..]) else old(link.xHTele)
      ensures link.rxTele ==
        if communicationBuf[0] == CharPosition && dof2 then TeleRx(communicationBuf[..]) else old(link.rxTele)
      ensures link.ryTele ==
        if communicationBuf[0] == CharPosition && dof2 then TeleRy(communicationBuf[..]) else old(link.ryTele)
    {
      response, cmd := link.Decode(communicationBuf[..]);
    }

    /** printTeleoperationComm: once teleoperation has been requested, pack
      * the position into sendBuffer (the 1-DOF frame of `xH`, or under
      * DOF_2 the frame of (`rx`, `ry`)), send it and clear the request. */
    method PrintTeleoperationComm(link: Link, xH: real, rx: real, ry: real) returns (sent: seq<Byte>)
      requires Valid() && link.dof2 == dof2
      requires (xH + OffsetXH) * 100.0 < 65536.0
      requires (rx + OffsetRxRy) * 100.0 < 65536.0 && (ry + OffsetRxRy) * 100.0 < 65536.0
      modifies sendBuffer, link`dataTeleOperationHasBeenRequested
      ensures old(link.dataTeleOperationHasBeenRequested) > 0 ==>
        sent == (if dof2 then RxRyFrame(rx, ry) else XHFrame(xH)) &&
        link.dataTeleOperationHasBeenRequested == 0
      ensures old(link.dataTeleOperationHasBeenRequested) <= 0 ==>
        sent == [] && link.dataTeleOperationHasBeenRequested == old(link.dataTeleOperationHasBeenRequested)
    {
      sent := [];
      if link.dataTeleOperationHasBeenRequested > 0 {
        if !dof2 {
          PackXH(xH, sendBuffer);
          sent := sendBuffer[..4];
        } else {
          PackRxRy(rx, ry, sendBuffer);
          sent := sendBuffer[..6];
        }
        link.ClearTeleOperationHasBeenRequested();
      }
    }
  }

  /** printProcessingComm1DOF, and the same gate in printProcessingComm2DOF,
    * printProcessingCommFinger1/2 and printProcessingHapticHand: send only
    * when the last message was acknowledged and data was requested, then
    * clear both flags. */
  method PrintProcessingComm(link: Link) returns (sent: bool)
    modifies link`messageAcknowledged, link`dataHasBeenRequested
    ensures sent <==> old(link.messageAcknowledged) > 0 && old(link.dataHasBeenRequested) > 0
    ensures sent ==> link.messageAcknowledged == 0 && link.dataHasBeenRequested == 0
    ensures !sent ==> link.messageAcknowledged == old(link.messageAcknowledged) &&
                      link.dataHasBeenRequested == old(link.dataHasBeenRequested)
  {
    sent := false;
    if link.messageAcknowledged > 0 && link.dataHasBeenRequested > 0 {
      link.ClearMessageAcknowledged();
      link.ClearDataHasBeenRequested();
      sent := true;
    }
  }
}
