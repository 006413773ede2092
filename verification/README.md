# MMB Networks serial protocol: a Dafny model

This project models the host side of the MMB Networks Zigbee modem serial
protocol as implemented in `src/serial_protocols/mmb_networks_modem_protocol.rs`.
It has three layers:

- **Header classification** (`headers.dfy`, module `Headers`). The protocol has
  three closed code tables: the primary header, the Utility secondary headers
  and the Network-Commissioning secondary headers. The secondary header depends
  on the primary header. Utility and Network-Commissioning use their own tables.
  Every other primary header gives the single marker `Nothing`, the program's
  `HeaderNothing::UNKNOWN = 0xFF`. Each table is an explicit lookup that
  answers `None` for an unmapped byte. The tables are proved to round-trip,
  to have pairwise distinct codes, and to leave exactly the bytes no variant
  owns unmapped.
- **Frame decoding** (`frame.dfy`, module `Frame`). A frame is laid out as
  `[0xF1, primary, secondary, seq, P, payload…, trailer…]`. A buffer is
  accepted only when `P == |buff| - 7`. The payload is then the `P - 1` bytes
  `buff[5 .. 4 + P]`. The checksum is the pair `(buff[4 + P], buff[6 + P])`.
  The byte `buff[5 + P]` is never read, and the checksum is never checked.
  This arithmetic is reproduced exactly. `Encode` spells out the layout this
  implies. The lemmas prove that decoding inverts it, that it rebuilds every
  accepted buffer apart from the secondary byte under primary headers without
  a secondary table (that byte is not kept), and that the unread byte has no
  influence on the result.
- **Dispatch and the protocol object** (`protocol.dfy`, module `Protocol`).
  `Route` is the `(primary, secondary)` dispatch table of `process`. It has
  four outcomes: answer with the five bytes `"12345"`, accept silently,
  "Message handler not implemented!", or "Unknown header!!".
  - The serial port is the class `SerialPort`. It records every byte sequence
    written to it.
  - `ModemProtocol` holds the session state and an optional port.
  - `Process` and `Parse` are proved against the specification functions
    `ProcessOutcome`, `ProcessWrites`, `ParseOutcome` and `ParseWrites`.
    Those functions carry the properties themselves. For example, parsing
    writes only in answer to a frame whose header bytes are `(0x55, 0x21)`,
    and then exactly once.

Conditions under which the program aborts are explicit values in the model:

- The decoder's panics are `FrameError.Truncated` and
  `FrameError.ZeroPayloadLength`.
  - `Truncated` covers fewer than 5 bytes, where the slice at line 195 panics.
  - It also covers 5 or 6 bytes after a good header. There the subtraction at
    line 200 panics when overflow checks are on. A build without them wraps
    the subtraction, and the size error results instead.
  - `ZeroPayloadLength` is `P == 0`, where the offset arithmetic at line 203
    overflows or the slice panics.
- An unmapped header code is undefined behaviour in the program. The model
  reports it as `UnknownPrimaryHeader` or `UnknownSecondaryHeader`.
- `parse` unwraps the decoder's result, so every decode failure is
  `Panic(MalformedFrame(e))`.
- `process` unwraps the port for a startup-sync request, so that case with no
  port is `Panic(NoSerialPort)`.

Three facts about the code shape the model:

- The 7-byte frame `[0xF1, 0x55, 0x21, 0x01, 0x01, 0x00, 0x00]` has length
  field 1. The size check at line 200 rejects it, because `7 - 7 != 1`, and
  `parse` then aborts (`SevenByteFramesRejected`). The smallest startup-sync
  request the code accepts has 8 bytes (`StartupSyncRequestAnswered`).
- `MmbZigbeeModemState` declares INITIALIZING and INITIALIZED, but nothing
  assigns them. The state is set to UNINITIALIZED at construction, and every
  operation leaves it unchanged.
- `parse` unwraps the decoder's result (line 324), so every decode error
  aborts the program.

## Model

| member | source | states |
|---|---|---|
| `Headers.PrimaryFromCode` | src/serial_protocols/mmb_networks_modem_protocol.rs:52-69 | a byte is classified only as the primary header whose code it is |
| `Headers.PrimaryRoundTrip` | src/serial_protocols/mmb_networks_modem_protocol.rs:52-69 | classifying the code of any primary header gives that header |
| `Headers.PrimaryUnmapped` | src/serial_protocols/mmb_networks_modem_protocol.rs:65-69 | classification answers none exactly for the bytes that are no primary header's code |
| `Headers.PrimaryCodesDistinct` | src/serial_protocols/mmb_networks_modem_protocol.rs:52-64 | the eleven primary codes are pairwise distinct |
| `Headers.UtilityFromCodeSound` | src/serial_protocols/mmb_networks_modem_protocol.rs:72-111 | a byte is classified only as the Utility header whose code it is |
| `Headers.UtilityFromCode` | src/serial_protocols/mmb_networks_modem_protocol.rs:107-111 | the explicit Utility lookup: its soundness, round trip and unmapped bytes are the three lemmas below |
| `Headers.UtilityRoundTrip` | src/serial_protocols/mmb_networks_modem_protocol.rs:72-111 | classifying the code of any Utility header gives that header |
| `Headers.UtilityUnmapped` | src/serial_protocols/mmb_networks_modem_protocol.rs:107-111 | classification answers none exactly for the bytes that are no Utility header's code |
| `Headers.UtilityCodesDistinct` | src/serial_protocols/mmb_networks_modem_protocol.rs:72-106 | the 33 Utility codes are pairwise distinct |
| `Headers.NetworkCommissioningFromCode` | src/serial_protocols/mmb_networks_modem_protocol.rs:114-130 | a byte is classified only as the Network-Commissioning header whose code it is |
| `Headers.NetworkCommissioningRoundTrip` | src/serial_protocols/mmb_networks_modem_protocol.rs:114-130 | classifying the code of any Network-Commissioning header gives that header |
| `Headers.NetworkCommissioningUnmapped` | src/serial_protocols/mmb_networks_modem_protocol.rs:126-130 | classification answers none exactly for the bytes that are no Network-Commissioning header's code |
| `Headers.NetworkCommissioningCodesDistinct` | src/serial_protocols/mmb_networks_modem_protocol.rs:114-125 | the ten Network-Commissioning codes are pairwise distinct |
| `Headers.SecondaryFrom` | src/serial_protocols/mmb_networks_modem_protocol.rs:147-153 | the secondary header comes from the Network-Commissioning table under that primary, from the Utility table under Utility, and is the "nothing" marker under every other primary whatever the byte; it fails exactly for bytes outside the relevant table |
| `Headers.SecondaryRoundTrip` | src/serial_protocols/mmb_networks_modem_protocol.rs:134-153 | classifying the code of a secondary header that fits its primary gives it back |
| `Frame.DecodeHeader` | src/serial_protocols/mmb_networks_modem_protocol.rs:171-184 | succeeds exactly when byte 0 is 0xF1 and bytes 1 and 2 are mapped codes; fails with the start-of-frame error (and its message) exactly when byte 0 is not 0xF1, and otherwise with the unknown-primary or unknown-secondary error for an unmapped code; on success the primary carries byte 1's code, the secondary carries byte 2's code unless it is the Nothing marker (the only secondary under primaries without a secondary table), the sequence number is byte 3 and the payload length is byte 4 |
| `Frame.HeaderRoundTrip` | src/serial_protocols/mmb_networks_modem_protocol.rs:171-184 | decoding the five bytes of any valid header gives that header |
| `Frame.DecodeFrame` | src/serial_protocols/mmb_networks_modem_protocol.rs:193-213 | fewer than 5 bytes, or 5-6 bytes after a good header, give Truncated; a header error is passed on; 7 bytes with length field 0 give ZeroPayloadLength; succeeds exactly when the header decodes and the length field equals the buffer length minus 7 and is non-zero; with a good header and at least 7 bytes the size error occurs exactly when the length field differs from the buffer length minus 7; the payload is buff[5 .. len-3] (P-1 bytes) and the checksum (buff[len-3], buff[len-1]) |
| `Frame.DecodeEncode` | src/serial_protocols/mmb_networks_modem_protocol.rs:193-213 | decoding the layout of any valid message gives that message back, whatever the unread byte |
| `Frame.EncodeDecode` | src/serial_protocols/mmb_networks_modem_protocol.rs:193-213 | every accepted buffer is the layout of its message, except the raw secondary byte under primaries without a secondary table |
| `Frame.DecodeIgnoresSkippedByte` | src/serial_protocols/mmb_networks_modem_protocol.rs:203-206 | for every buffer of at least 2 bytes, the byte at position len-2 never influences the result of decoding |
| `Frame.DecodeLosesSkippedByte` | src/serial_protocols/mmb_networks_modem_protocol.rs:203-206 | two concrete buffers differing only in that byte decode to the same message |
| `Protocol.SerialPort.Write` | src/zigbee_serial_port.rs:61-64 | a write either records the whole buffer and returns its length, or fails and records nothing |
| `Protocol.Route` | src/serial_protocols/mmb_networks_modem_protocol.rs:275-303 | only header pairs that fit Utility or Network-Commissioning are handled; every other primary is unknown |
| `Protocol.RouteFromWire` | src/serial_protocols/mmb_networks_modem_protocol.rs:275-303 | for a decoded buffer, raw bytes (0x55,0x21) are answered; (0x55,0x22), (0x01,0x01), (0x01,0x00) are accepted; (0x01,0x04), (0x01,0x11) are not implemented; anything else is unknown |
| `Protocol.ProcessOutcome` | src/serial_protocols/mmb_networks_modem_protocol.rs:275-303 | each of the four routes maps to one result: a startup-sync request passes on a healthy port, fails with the I/O error on a failing one and aborts without a port; accepted pairs pass; the two unimplemented pairs give "Message handler not implemented!"; all else gives "Unknown header!!" |
| `Protocol.ProcessWrites` | src/serial_protocols/mmb_networks_modem_protocol.rs:223-236 | at most one write happens, exactly for a startup-sync request on a healthy port, and it is the five bytes "12345" |
| `Protocol.ParseOutcome` | src/serial_protocols/mmb_networks_modem_protocol.rs:322-333 | a buffer that fails to decode aborts parsing with that decode error, and only such a buffer does; for a buffer that decodes, parsing passes exactly when processing passes, gives Err(()) exactly when processing reports an error, and aborts for a missing port exactly when processing does |
| `Protocol.ParseFromWire` | src/serial_protocols/mmb_networks_modem_protocol.rs:322-333 | for a decoded buffer, in raw header bytes: (0x55,0x21) passes on a healthy port, gives Err(()) on a failing one and aborts without a port; (0x55,0x22), (0x01,0x01), (0x01,0x00) pass; every other pair gives Err(()) |
| `Protocol.ParseWrites` | src/serial_protocols/mmb_networks_modem_protocol.rs:322-333 | parsing writes at most once, and only for a buffer that decodes on a healthy port |
| `Protocol.ParseWritesOnlyStartupReply` | src/serial_protocols/mmb_networks_modem_protocol.rs:322-333 | parsing writes only for a frame starting 0xF1 0x55 0x21 on a healthy port, and then exactly "12345" once; every such decodable frame passes and writes it |
| `Protocol.StartupSyncRequestAnswered` | src/serial_protocols/mmb_networks_modem_protocol.rs:277-284 | an 8-byte startup-sync request decodes with an empty payload, passes with one write of "12345" on a healthy port, and aborts without a port |
| `Protocol.SevenByteFramesRejected` | src/serial_protocols/mmb_networks_modem_protocol.rs:200-202 | the 7-byte request with length field 1 aborts with the size error and writes nothing; with byte 0 = 0xF0 it aborts with the start-of-frame error |
| `Protocol.ModemProtocol.constructor` | src/serial_protocols/mmb_networks_modem_protocol.rs:268-273 | a new protocol object is Uninitialized with no port |
| `Protocol.ModemProtocol.SetSerialPort` | src/serial_protocols/mmb_networks_modem_protocol.rs:335-337 | the port becomes present; the state is unchanged |
| `Protocol.ModemProtocol.Write` | src/serial_protocols/mmb_networks_modem_protocol.rs:305-313 | without a port it fails with "Serial port to write not found!"; otherwise it forwards the bytes to the port |
| `Protocol.ModemProtocol.Startup` | src/serial_protocols/mmb_networks_modem_protocol.rs:223-236 | writes "12345" to the port and passes, or reports the port's I/O error |
| `Protocol.ModemProtocol.Process` | src/serial_protocols/mmb_networks_modem_protocol.rs:275-303 | returns ProcessOutcome and writes ProcessWrites of the message's route; the state and the port reference are unchanged |
| `Protocol.ModemProtocol.Parse` | src/serial_protocols/mmb_networks_modem_protocol.rs:322-333 | returns ParseOutcome and writes ParseWrites of the buffer; the state and the port reference are unchanged |
| `Protocol.StartupHandshake` | src/serial_protocols/mmb_networks_modem_protocol.rs:268-337 | a new object with a healthy port passes a startup-sync request with one write of "12345" and stays Uninitialized |

## Left out

- The event loop in `src/zigbee_modem.rs` is not part of this model. It covers descriptor registration, the blocking poll and token matching. `Parse` stands for what it does with the `buff[0..size]` of each 256-byte read.
- Opening and configuring the TTY in `src/zigbee_serial_port.rs` (115200 8N1, exit codes -2 and -3) is I/O. Only its `write` is modelled.
- `Frame.DecodeFrame`: for 5 or 6 bytes after a good header it reports `Truncated`, the panic of a build with overflow checks. It does not model the size error that a build without overflow checks returns there.
- `Protocol.SerialPort.Write`: partial writes are not modelled. A write either takes the whole buffer or fails. Whether it fails is the `healthy` field, which the environment sets.
- `src/main.rs` is not part of this model. It covers arguments, the usage text and logger setup.
- `src/serial_protocols/develco_zigbee_modem_protocol.rs` and `src/memcpy-demo.rs` are not part of this model. The first is incomplete and does not compile; the second is a standalone demo.
- The `SerialPortParser` trait in `src/serial_protocols/serial_port_parser.rs` has one implementation here. Its `parse` and `set_serial_port` are methods of `ModemProtocol`, because the trait itself declares no behaviour.
- The program shares the port through a reference-counted cell with a runtime borrow check. The model uses a single port object referenced by the protocol object, so the borrow check is not modelled.
- The program converts header bytes by unchecked reinterpretation. That is replaced by explicit lookups, and unmapped codes become decode errors.
- Logging (`trace!`, `error!`, the byte dump in `print`), the `Debug` impls and the unused `hashmap!` macro are left out. So are the unused message arguments of the handlers.
- Checksum verification is not modelled, because the program extracts the checksum and never checks it.
- Session transitions to Initializing or Initialized are not modelled, because the program never performs them.
