/**
 * The frame decoder of the MMB Networks serial protocol.
 *
 * A frame is a 5-byte header (start-of-frame marker, primary header,
 * secondary header, sequence number, payload length P), then the payload,
 * then a 2-byte trailer.  The decoder accepts a buffer only when
 * P == |buff| - 7, and then takes the P - 1 bytes buff[5 .. 4 + P] as the
 * payload and the two bytes buff[4 + P] and buff[6 + P] as the checksum:
 * byte buff[5 + P] is never read, and the checksum is never verified.
 * The arithmetic is reproduced exactly; `Encode` below is the layout it
 * implies, used only to state what the decoder keeps and what it drops.
 */
module Frame {
  import opened Wrappers
  import opened Headers

  const START_OF_FRAME: byte := 0xF1
  const HEADER_SIZE: nat := 5
  const CHECKSUM_SIZE: nat := 2

  datatype Header = Header(
    startOfFrame: byte,
    primary: PrimaryHeader,
    secondary: SecondaryHeader,
    seqNumber: byte,
    payloadLength: byte)

  datatype Message = Message(header: Header, payload: seq<byte>, checksum: (byte, byte))

  /**
   * Why a buffer is not a frame.  MissingStartOfFrame and SizeMismatch are
   * the program's own errors; an unmapped header code is undefined
   * behaviour there; ZeroPayloadLength (P == 0) and Truncated for fewer
   * than 5 bytes are panics there; Truncated for 5 or 6 bytes after a good
   * header is a panic only with overflow checks on (a build without them
   * wraps the subtraction and reports SizeMismatch).
   */
  datatype FrameError =
    | MissingStartOfFrame
    | SizeMismatch
    | UnknownPrimaryHeader(code: byte)
    | UnknownSecondaryHeader(primary: PrimaryHeader, code: byte)
    | Truncated
    | ZeroPayloadLength
  {
    /**
     * The message the program attaches to this error; `None` for the
     * errors the program has no message for (a panic or undefined behaviour).
     */
    function Text(): Option<string> {
      match this
      case MissingStartOfFrame => Some("Message Format error: Can't find the START_OF_FRAME byte")
      case SizeMismatch => Some("Message format error: The size of the message is different than expected")
      case _ => None
    }
  }

  /** A header the decoder can produce. */
  predicate ValidHeader(h: Header) {
    h.startOfFrame == START_OF_FRAME && Fits(h.primary, h.secondary)
  }

  /** A message the decoder can produce: its length field counts one more than its payload. */
  predicate ValidMessage(m: Message) {
    ValidHeader(m.header) && m.header.payloadLength as int == |m.payload| + 1
  }

  /**
   * Reads the fixed header: fails when the first byte is not the
   * start-of-frame marker, otherwise classifies bytes 1 and 2 and copies
   * the sequence number and the payload length.
   */
  function DecodeHeader(buff: seq<byte>): (r: Result<Header, FrameError>)
    requires |buff| >= HEADER_SIZE
    ensures r == Err(MissingStartOfFrame) <==> buff[0] != START_OF_FRAME
    ensures r.Ok? ==> ValidHeader(r.value)
    ensures r.Ok? ==> r.value.primary.Code() == buff[1]
    ensures r.Ok? && !r.value.secondary.Nothing? ==> r.value.secondary.Code() == buff[2]
    ensures r.Ok? ==> r.value.seqNumber == buff[3] && r.value.payloadLength == buff[4]
    ensures r.Ok? <==>
              && buff[0] == START_OF_FRAME
              && PrimaryFromCode(buff[1]).Some?
              && SecondaryFrom(PrimaryFromCode(buff[1]).value, buff[2]).Some?
    ensures buff[0] == START_OF_FRAME && PrimaryFromCode(buff[1]).None? ==>
              r == Err(UnknownPrimaryHeader(buff[1]))
    ensures buff[0] == START_OF_FRAME && PrimaryFromCode(buff[1]).Some?
              && SecondaryFrom(PrimaryFromCode(buff[1]).value, buff[2]).None? ==>
              r == Err(UnknownSecondaryHeader(PrimaryFromCode(buff[1]).value, buff[2]))
    ensures buff[0] != START_OF_FRAME ==>
              r.error.Text() == Some("Message Format error: Can't find the START_OF_FRAME byte")
  {
    if buff[0] != START_OF_FRAME then
      Err(MissingStartOfFrame)
    else
      match PrimaryFromCode(buff[1])
      case None => Err(UnknownPrimaryHeader(buff[1]))
      case Some(primary) =>
        match SecondaryFrom(primary, buff[2])
        case None => Err(UnknownSecondaryHeader(primary, buff[2]))
        case Some(secondary) =>
          Ok(Header(START_OF_FRAME, primary, secondary, buff[3], buff[4]))
  }

  /**
   * Decodes one frame.  Succeeds exactly when the header decodes and the
   * declared payload length is |buff| - 7 and non-zero; the payload is then
   * buff[5 .. |buff| - 3] and the checksum is (buff[|buff| - 3], buff[|buff| - 1]).
   */
  function DecodeFrame(buff: seq<byte>): (r: Result<Message, FrameError>)
    ensures |buff| >= HEADER_SIZE ==> (r == Err(MissingStartOfFrame) <==> buff[0] != START_OF_FRAME)
    ensures |buff| >= HEADER_SIZE + CHECKSUM_SIZE && DecodeHeader(buff[..HEADER_SIZE]).Ok? ==>
              (r == Err(SizeMismatch) <==> buff[4] as int != |buff| - (HEADER_SIZE + CHECKSUM_SIZE))
    ensures |buff| < HEADER_SIZE ==> r == Err(Truncated)
    ensures |buff| >= HEADER_SIZE && DecodeHeader(buff[..HEADER_SIZE]).Err? ==>
              r == Err(DecodeHeader(buff[..HEADER_SIZE]).error)
    ensures HEADER_SIZE <= |buff| < HEADER_SIZE + CHECKSUM_SIZE && DecodeHeader(buff[..HEADER_SIZE]).Ok? ==>
              r == Err(Truncated)
    ensures |buff| == HEADER_SIZE + CHECKSUM_SIZE && DecodeHeader(buff[..HEADER_SIZE]).Ok? && buff[4] == 0 ==>
              r == Err(ZeroPayloadLength)
    ensures r == Err(SizeMismatch) ==>
              r.error.Text() == Some("Message format error: The size of the message is different than expected")
    ensures r.Ok? <==>
              && |buff| > HEADER_SIZE + CHECKSUM_SIZE
              && DecodeHeader(buff[..HEADER_SIZE]).Ok?
              && buff[4] as int == |buff| - (HEADER_SIZE + CHECKSUM_SIZE)
    ensures r.Ok? ==> ValidMessage(r.value)
    ensures r.Ok? ==> r.value.header == DecodeHeader(buff[..HEADER_SIZE]).value
    ensures r.Ok? ==> r.value.payload == buff[HEADER_SIZE..|buff| - 3]
    ensures r.Ok? ==> r.value.checksum == (buff[|buff| - 3], buff[|buff| - 1])
  {
    if |buff| < HEADER_SIZE then
      Err(Truncated)
    else
      match DecodeHeader(buff[..HEADER_SIZE])
      case Err(e) => Err(e)
      case Ok(header) =>
        if |buff| < HEADER_SIZE + CHECKSUM_SIZE then
          Err(Truncated)
        else if header.payloadLength as int != |buff| - (HEADER_SIZE + CHECKSUM_SIZE) then
          Err(SizeMismatch)
        else if header.payloadLength == 0 then
          Err(ZeroPayloadLength)
        else
          var offset := HEADER_SIZE + header.payloadLength as int - 1;
          Ok(Message(header, buff[HEADER_SIZE..offset], (buff[offset], buff[offset + 2])))
  }

  // ---------------------------------------------------------------------
  // The layout the decoder implies, and what it keeps of a buffer
  // ---------------------------------------------------------------------

  /** The five header bytes of `h`. */
  function EncodeHeader(h: Header): (r: seq<byte>)
    ensures |r| == HEADER_SIZE
  {
    [h.startOfFrame, h.primary.Code(), h.secondary.Code(), h.seqNumber, h.payloadLength]
  }

  /**
   * The bytes of a frame that decodes to `m`, with `skipped` in the one
   * trailer position the decoder never reads.
   */
  function Encode(m: Message, skipped: byte): (r: seq<byte>)
    ensures |r| == HEADER_SIZE + |m.payload| + 3
  {
    EncodeHeader(m.header) + m.payload + [m.checksum.0, skipped, m.checksum.1]
  }

  /** Decoding the bytes of a valid header gives that header back. */
  lemma HeaderRoundTrip(h: Header)
    requires ValidHeader(h)
    ensures DecodeHeader(EncodeHeader(h)) == Ok(h)
  {
    PrimaryRoundTrip(h.primary);
    SecondaryRoundTrip(h.primary, h.secondary);
  }

  /** Decoding the layout of a valid message gives that message back, whatever the skipped byte. */
  lemma {:induction false} DecodeEncode(m: Message, skipped: byte)
    requires ValidMessage(m)
    ensures DecodeFrame(Encode(m, skipped)) == Ok(m)
  {
    var buff := Encode(m, skipped);
    assert buff[..HEADER_SIZE] == EncodeHeader(m.header);
    HeaderRoundTrip(m.header);
    assert buff[HEADER_SIZE..|buff| - 3] == m.payload;
  }

  /**
   * A buffer that decodes is the layout of its message, with the skipped
   * byte taken from position |buff| - 2, except that under a primary
   * header without a secondary table the raw secondary byte is dropped.
   */
  lemma {:induction false} EncodeDecode(buff: seq<byte>)
    requires DecodeFrame(buff).Ok?
    ensures var m := DecodeFrame(buff).value;
      Encode(m, buff[|buff| - 2]) == buff[2 := m.header.secondary.Code()]
    ensures var m := DecodeFrame(buff).value;
      !m.header.secondary.Nothing? ==> Encode(m, buff[|buff| - 2]) == buff
  {
    var m := DecodeFrame(buff).value;
    var e := Encode(m, buff[|buff| - 2]);
    assert |e| == |buff|;
    forall i | 0 <= i < |buff| && i != 2
      ensures e[i] == buff[i]
    {
      if i < HEADER_SIZE {
        assert e[i] == EncodeHeader(m.header)[i];
      } else if i < |buff| - 3 {
        assert e[i] == m.payload[i - HEADER_SIZE];
      }
    }
    if !m.header.secondary.Nothing? {
      assert buff[2 := m.header.secondary.Code()] == buff;
    }
  }

  /** The byte at position |buff| - 2 never influences decoding. */
  lemma {:induction false} DecodeIgnoresSkippedByte(buff: seq<byte>, x: byte)
    requires |buff| >= 2
    ensures DecodeFrame(buff[|buff| - 2 := x]) == DecodeFrame(buff)
  {
    var other := buff[|buff| - 2 := x];
    if |buff| < HEADER_SIZE + CHECKSUM_SIZE {
      if |buff| >= HEADER_SIZE {
        // Bytes 3 or 4 change; the header's verdict depends only on bytes 0 to 2.
        assert other[..3] == buff[..3];
      }
      return;
    }
    assert other[..HEADER_SIZE] == buff[..HEADER_SIZE];
    if |buff| > HEADER_SIZE + CHECKSUM_SIZE {
      assert other[HEADER_SIZE..|buff| - 3] == buff[HEADER_SIZE..|buff| - 3];
    }
  }

  /** Two buffers differing only in the skipped byte decode to the same message. */
  lemma DecodeLosesSkippedByte()
    ensures DecodeFrame([0xF1, 0x55, 0x22, 0x07, 0x02, 0xAA, 0xC0, 0x00, 0xC1])
         == DecodeFrame([0xF1, 0x55, 0x22, 0x07, 0x02, 0xAA, 0xC0, 0xFF, 0xC1])
         == Ok(Message(Header(START_OF_FRAME, Utility, OfUtility(StartupSyncComplete), 0x07, 0x02),
                       [0xAA], (0xC0, 0xC1)))
  {
    var m := Message(Header(START_OF_FRAME, Utility, OfUtility(StartupSyncComplete), 0x07, 0x02),
                     [0xAA], (0xC0, 0xC1));
    var zero: seq<byte> := [0xF1, 0x55, 0x22, 0x07, 0x02, 0xAA, 0xC0, 0x00, 0xC1];
    assert Encode(m, 0x00) == zero;
    DecodeEncode(m, 0x00);
    DecodeIgnoresSkippedByte(zero, 0xFF);
    assert zero[|zero| - 2 := 0xFF] == [0xF1, 0x55, 0x22, 0x07, 0x02, 0xAA, 0xC0, 0xFF, 0xC1];
  }
}
