/**
 * Dispatch and the protocol object of the MMB Networks serial protocol.
 *
 * A decoded message is routed by its (primary, secondary) header pair to
 * one of four outcomes: answer a startup-sync request by writing "12345"
 * to the serial port, accept silently, report "not implemented", or report
 * "Unknown header!!".  The protocol object holds a session state, which no
 * operation changes, and an optional serial port, modelled as an object
 * that records every byte sequence written to it.
 */
module Protocol {
  import opened Wrappers
  import opened Headers
  import opened Frame

  /** The reply to a startup-sync request: the ASCII bytes of "12345". */
  const STARTUP_REPLY: seq<byte> := [0x31, 0x32, 0x33, 0x34, 0x35]

  datatype IoError = DeviceFailure | PortNotFound
  {
    /** The error's text; a device failure's text comes from the operating system. */
    function Text(): Option<string> {
      match this
      case DeviceFailure => None
      case PortNotFound => Some("Serial port to write not found!")
    }
  }

  /**
   * The serial device.  `written` is everything written to it so far, one
   * entry per successful write; `healthy` is chosen by the environment and
   * says whether the device accepts writes.
   */
  class SerialPort {
    var written: seq<seq<byte>>
    var healthy: bool

    constructor (healthy: bool)
      ensures written == [] && this.healthy == healthy
    {
      written := [];
      this.healthy := healthy;
    }

    /** Writes all of `buff`, or fails and writes nothing. */
    method Write(buff: seq<byte>) returns (r: Result<nat, IoError>)
      modifies this
      ensures healthy == old(healthy)
      ensures r == if healthy then Ok(|buff|) else Err(DeviceFailure)
      ensures written == old(written) + if healthy then [buff] else []
    {
      if healthy {
        written := written + [buff];
        r := Ok(|buff|);
      } else {
        r := Err(DeviceFailure);
      }
    }
  }

  /** What the environment offers a handler: no port, or a port that does or does not accept writes. */
  datatype PortStatus = Absent | Present(healthy: bool)

  // ---------------------------------------------------------------------
  // Routing
  // ---------------------------------------------------------------------

  /** The four things `process` can do with a message. */
  datatype Handler = Reply | Accept | NotImplemented | Unknown

  /**
   * The dispatch table: a startup-sync request is answered, a startup-sync
   * complete, a form-network and a join-network are accepted, a
   * leave-network and a network-auto-join are not implemented, and every
   * other pair is unknown.
   */
  function Route(p: PrimaryHeader, s: SecondaryHeader): (h: Handler)
    ensures h != Unknown ==> Fits(p, s) && p in {Utility, NetworkCommissioning}
    ensures p != Utility && p != NetworkCommissioning ==> h == Unknown
  {
    match (p, s)
    case (Utility, OfUtility(StartupSyncRequest)) => Reply
    case (Utility, OfUtility(StartupSyncComplete)) => Accept
    case (NetworkCommissioning, OfNetworkCommissioning(FormNetwork)) => Accept
    case (NetworkCommissioning, OfNetworkCommissioning(JoinNetwork)) => Accept
    case (NetworkCommissioning, OfNetworkCommissioning(LeaveNetwork)) => NotImplemented
    case (NetworkCommissioning, OfNetworkCommissioning(NetworkAutoJoin)) => NotImplemented
    case _ => Unknown
  }

  /**
   * For a buffer that decodes, the handler is fixed by the two raw header
   * bytes: (0x55, 0x21) is answered; (0x55, 0x22), (0x01, 0x01) and
   * (0x01, 0x00) are accepted; (0x01, 0x04) and (0x01, 0x11) are not
   * implemented; every other pair is unknown.
   */
  lemma {:induction false} RouteFromWire(buff: seq<byte>)
    requires DecodeFrame(buff).Ok?
    ensures var h := DecodeFrame(buff).value.header;
      Route(h.primary, h.secondary) == Reply <==> buff[1] == 0x55 && buff[2] == 0x21
    ensures var h := DecodeFrame(buff).value.header;
      Route(h.primary, h.secondary) == Accept <==>
        (buff[1], buff[2]) in {(0x55, 0x22), (0x01, 0x01), (0x01, 0x00)}
    ensures var h := DecodeFrame(buff).value.header;
      Route(h.primary, h.secondary) == NotImplemented <==>
        (buff[1], buff[2]) in {(0x01, 0x04), (0x01, 0x11)}
  {
    var h := DecodeFrame(buff).value.header;
    assert h == DecodeHeader(buff[..HEADER_SIZE]).value;
    assert h.primary.Code() == buff[1];
    if h.primary == Utility {
      assert h.secondary.Code() == buff[2];
      if buff[2] == 0x21 {
        UtilityCodesDistinct(h.secondary.utility, StartupSyncRequest);
      } else if buff[2] == 0x22 {
        UtilityCodesDistinct(h.secondary.utility, StartupSyncComplete);
      }
    } else if h.primary == NetworkCommissioning {
      assert h.secondary.Code() == buff[2];
      var n := h.secondary.commissioning;
      if buff[2] == 0x00 {
        NetworkCommissioningCodesDistinct(n, JoinNetwork);
      } else if buff[2] == 0x01 {
        NetworkCommissioningCodesDistinct(n, FormNetwork);
      } else if buff[2] == 0x04 {
        NetworkCommissioningCodesDistinct(n, LeaveNetwork);
      } else if buff[2] == 0x11 {
        NetworkCommissioningCodesDistinct(n, NetworkAutoJoin);
      }
    } else {
      assert buff[1] != 0x55 && buff[1] != 0x01 by {
        if buff[1] == 0x55 {
          PrimaryCodesDistinct(h.primary, Utility);
        } else if buff[1] == 0x01 {
          PrimaryCodesDistinct(h.primary, NetworkCommissioning);
        }
      }
    }
  }

  // ---------------------------------------------------------------------
  // What processing one message does
  // ---------------------------------------------------------------------

  /** Why `process` reports failure. */
  datatype ProcessError = NotImplementedError | UnknownHeaderError | Io(cause: IoError)
  {
    /** The string the program returns for this error. */
    function Text(): Option<string> {
      match this
      case NotImplementedError => Some("Message handler not implemented!")
      case UnknownHeaderError => Some("Unknown header!!")
      case Io(e) => e.Text()
    }
  }

  /** Why the program aborts: an `unwrap` on a missing port or on a failed decode. */
  datatype PanicCause = NoSerialPort | MalformedFrame(error: FrameError)

  /** Success, a reported error, or an abort of the program. */
  datatype Outcome<+E> = Pass | Fail(error: E) | Panic(cause: PanicCause)

  /** What processing a message routed to `h` returns, given the port. */
  function ProcessOutcome(h: Handler, port: PortStatus): (r: Outcome<ProcessError>)
    ensures r.Panic? <==> h == Reply && port == Absent
    ensures r == Pass <==> h == Accept || (h == Reply && port == Present(true))
    ensures r == Fail(Io(DeviceFailure)) <==> h == Reply && port == Present(false)
    ensures r == Fail(NotImplementedError) <==> h == NotImplemented
    ensures r == Fail(UnknownHeaderError) <==> h == Unknown
    ensures h == NotImplemented ==> r.error.Text() == Some("Message handler not implemented!")
    ensures h == Unknown ==> r.error.Text() == Some("Unknown header!!")
  {
    match h
    case Reply =>
      (match port
       case Absent => Panic(NoSerialPort)
       case Present(healthy) => if healthy then Pass else Fail(Io(DeviceFailure)))
    case Accept => Pass
    case NotImplemented => Fail(NotImplementedError)
    case Unknown => Fail(UnknownHeaderError)
  }

  /** What processing a message routed to `h` writes to the port. */
  function ProcessWrites(h: Handler, port: PortStatus): (w: seq<seq<byte>>)
    ensures |w| <= 1
    ensures w != [] <==> h == Reply && port == Present(true)
    ensures w != [] ==> w[0] == STARTUP_REPLY && |w[0]| == 5
  {
    if h == Reply && port == Present(true) then [STARTUP_REPLY] else []
  }

  /** What parsing `buff` returns: a decode failure aborts, other errors collapse to `Fail(())`. */
  function ParseOutcome(buff: seq<byte>, port: PortStatus): (r: Outcome<()>)
    ensures DecodeFrame(buff).Err? ==> r == Panic(MalformedFrame(DecodeFrame(buff).error))
    ensures r.Panic? && r.cause.MalformedFrame? ==> DecodeFrame(buff).Err?
    ensures DecodeFrame(buff).Ok? ==>
      var m := DecodeFrame(buff).value;
      var p := ProcessOutcome(Route(m.header.primary, m.header.secondary), port);
      && (r == Pass <==> p == Pass)
      && (r == Fail(()) <==> p.Fail?)
      && (r == Panic(NoSerialPort) <==> p.Panic?)
    ensures r == Panic(NoSerialPort) ==> port == Absent
  {
    match DecodeFrame(buff)
    case Err(e) => Panic(MalformedFrame(e))
    case Ok(m) =>
      match ProcessOutcome(Route(m.header.primary, m.header.secondary), port)
      case Pass => Pass
      case Fail(_) => Fail(())
      case Panic(cause) => Panic(cause)
  }

  /** What parsing `buff` writes to the port. */
  function ParseWrites(buff: seq<byte>, port: PortStatus): (w: seq<seq<byte>>)
    ensures |w| <= 1
    ensures w != [] ==> DecodeFrame(buff).Ok? && port == Present(true)
  {
    match DecodeFrame(buff)
    case Err(_) => []
    case Ok(m) => ProcessWrites(Route(m.header.primary, m.header.secondary), port)
  }

  /**
   * Parsing writes only in answer to a frame whose header bytes are
   * (0x55, 0x21), and then exactly once, the five bytes "12345".
   */
  lemma {:induction false} ParseWritesOnlyStartupReply(buff: seq<byte>, port: PortStatus)
    ensures ParseWrites(buff, port) != [] ==>
      && port == Present(true)
      && buff[0] == START_OF_FRAME && buff[1] == 0x55 && buff[2] == 0x21
      && ParseWrites(buff, port) == [STARTUP_REPLY]
    ensures port == Present(true) && DecodeFrame(buff).Ok? && buff[1] == 0x55 && buff[2] == 0x21 ==>
      ParseWrites(buff, port) == [STARTUP_REPLY] && ParseOutcome(buff, port) == Pass
  {
    if DecodeFrame(buff).Ok? {
      RouteFromWire(buff);
    }
  }

  /**
   * For a buffer that decodes, the result of parsing is fixed by the two raw
   * header bytes and the port: (0x55, 0x21) passes on a healthy port, fails
   * on a failing one and aborts without a port; (0x55, 0x22), (0x01, 0x01)
   * and (0x01, 0x00) pass; every other pair fails.
   */
  lemma {:induction false} ParseFromWire(buff: seq<byte>, port: PortStatus)
    requires DecodeFrame(buff).Ok?
    ensures ParseOutcome(buff, port) == Panic(NoSerialPort) <==>
              buff[1] == 0x55 && buff[2] == 0x21 && port == Absent
    ensures ParseOutcome(buff, port) == Pass <==>
              || (buff[1] == 0x55 && buff[2] == 0x21 && port == Present(true))
              || (buff[1], buff[2]) in {(0x55, 0x22), (0x01, 0x01), (0x01, 0x00)}
    ensures ParseOutcome(buff, port) == Fail(()) <==>
              || (buff[1] == 0x55 && buff[2] == 0x21 && port == Present(false))
              || (buff[1], buff[2]) !in {(0x55, 0x21), (0x55, 0x22), (0x01, 0x01), (0x01, 0x00)}
  {
    RouteFromWire(buff);
  }

  /**
   * A startup-sync request with a one-byte length field is answered: it
   * decodes with an empty payload, and parsing it on a healthy port passes
   * after writing "12345" once; with no port it aborts.
   */
  lemma {:induction false} StartupSyncRequestAnswered(seqNumber: byte, c0: byte, skipped: byte, c1: byte)
    ensures var buff: seq<byte> := [0xF1, 0x55, 0x21, seqNumber, 0x01, c0, skipped, c1];
      && DecodeFrame(buff) == Ok(Message(Header(START_OF_FRAME, Utility, OfUtility(StartupSyncRequest), seqNumber, 0x01), [], (c0, c1)))
      && ParseOutcome(buff, Present(true)) == Pass
      && ParseWrites(buff, Present(true)) == [STARTUP_REPLY]
      && ParseOutcome(buff, Absent) == Panic(NoSerialPort)
  {
    var m := Message(Header(START_OF_FRAME, Utility, OfUtility(StartupSyncRequest), seqNumber, 0x01), [], (c0, c1));
    assert Encode(m, skipped) == [0xF1, 0x55, 0x21, seqNumber, 0x01, c0, skipped, c1];
    DecodeEncode(m, skipped);
  }

  /**
   * A seven-byte buffer whose length field says 1 is rejected by the size
   * check, and one whose first byte is not 0xF1 by the marker check: both
   * abort the parse before anything is dispatched or written.
   */
  lemma SevenByteFramesRejected(port: PortStatus)
    ensures ParseOutcome([0xF1, 0x55, 0x21, 0x01, 0x01, 0x00, 0x00], port) == Panic(MalformedFrame(SizeMismatch))
    ensures ParseOutcome([0xF0, 0x55, 0x21, 0x01, 0x01, 0x00, 0x00], port) == Panic(MalformedFrame(MissingStartOfFrame))
    ensures ParseWrites([0xF1, 0x55, 0x21, 0x01, 0x01, 0x00, 0x00], port) == []
  {
  }

  // ---------------------------------------------------------------------
  // The protocol object
  // ---------------------------------------------------------------------

  datatype ModemState = Uninitialized | Initializing | Initialized

  class ModemProtocol {
    var state: ModemState
    var port: SerialPort?

    /** The port as handlers see it. */
    function Status(): (s: PortStatus)
      reads this, port
      ensures s.Present? <==> port != null
      ensures s.Present? ==> s.healthy == port.healthy
    {
      if port == null then Absent else Present(port.healthy)
    }

    constructor ()
      ensures state == Uninitialized && port == null
    {
      state := Uninitialized;
      port := null;
    }

    method SetSerialPort(p: SerialPort)
      modifies this
      ensures port == p && state == old(state)
    {
      port := p;
    }

    /** Forwards `buff` to the port, or fails when there is none. */
    method Write(buff: seq<byte>) returns (r: Result<nat, IoError>)
      modifies port
      ensures port == null ==> r == Err(PortNotFound) && r.error.Text() == Some("Serial port to write not found!")
      ensures port != null ==>
        && port.healthy == old(port.healthy)
        && r == (if port.healthy then Ok(|buff|) else Err(DeviceFailure))
        && port.written == old(port.written) + if port.healthy then [buff] else []
    {
      if port == null {
        r := Err(PortNotFound);
      } else {
        r := port.Write(buff);
      }
    }

    /** The startup handler: writes the reply through the port. */
    static method Startup(p: SerialPort) returns (r: Outcome<ProcessError>)
      modifies p
      ensures p.healthy == old(p.healthy)
      ensures r == ProcessOutcome(Reply, Present(p.healthy))
      ensures p.written == old(p.written) + ProcessWrites(Reply, Present(p.healthy))
    {
      var written := p.Write(STARTUP_REPLY);
      match written
      case Ok(_) => r := Pass;
      case Err(e) => r := Fail(Io(e));
    }

    /** Dispatches one decoded message; the state is left as it is. */
    method Process(msg: Message) returns (r: Outcome<ProcessError>)
      modifies port
      ensures state == old(state) && port == old(port)
      ensures r == ProcessOutcome(Route(msg.header.primary, msg.header.secondary), old(Status()))
      ensures port != null ==>
        && port.healthy == old(port.healthy)
        && port.written == old(port.written) + ProcessWrites(Route(msg.header.primary, msg.header.secondary), old(Status()))
    {
      var handler := Route(msg.header.primary, msg.header.secondary);
      match handler
      case Reply =>
        if port == null {
          r := Panic(NoSerialPort);
        } else {
          r := Startup(port);
        }
      case Accept => r := Pass;
      case NotImplemented => r := Fail(NotImplementedError);
      case Unknown => r := Fail(UnknownHeaderError);
    }

    /** Decodes `buff` (aborting on failure) and dispatches it; the state is left as it is. */
    method Parse(buff: seq<byte>) returns (r: Outcome<()>)
      modifies port
      ensures state == old(state) && port == old(port)
      ensures r == ParseOutcome(buff, old(Status()))
      ensures port != null ==>
        && port.healthy == old(port.healthy)
        && port.written == old(port.written) + ParseWrites(buff, old(Status()))
    {
      match DecodeFrame(buff)
      case Err(e) =>
        r := Panic(MalformedFrame(e));
      case Ok(msg) =>
        var processed := Process(msg);
        match processed
        case Pass => r := Pass;
        case Fail(_) => r := Fail(());
        case Panic(cause) => r := Panic(cause);
    }
  }

  /**
   * A fresh protocol object with a healthy port answers a startup-sync
   * request with one write of "12345", and its state stays Uninitialized.
   */
  method StartupHandshake(seqNumber: byte) returns (r: Outcome<()>, written: seq<seq<byte>>, state: ModemState)
    ensures r == Pass && written == [STARTUP_REPLY] && state == Uninitialized
  {
    var protocol := new ModemProtocol();
    var port := new SerialPort(true);
    protocol.SetSerialPort(port);
    StartupSyncRequestAnswered(seqNumber, 0x00, 0x00, 0x00);
    r := protocol.Parse([0xF1, 0x55, 0x21, seqNumber, 0x01, 0x00, 0x00, 0x00]);
    written := port.written;
    state := protocol.state;
  }
}
