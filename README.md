# rtl_tcp client: wire protocol and receive-side state

This project models the byte-level core of welle.io's `CRTL_TCP_Client`, the
input driver that reads I/Q samples from an rtl_tcp server over TCP. It covers
three parts of the client. The first is the control protocol it speaks: each
command is a 5-byte datagram holding one command byte and a 32-bit parameter in
network byte order. The second is the receive framing. The first packet of every
connection carries a `dongle_info_t` header: the magic `"RTL0"`, then the tuner
type and its gain count. After a valid header the client configures the tuner.
Every later byte is raw I/Q payload, which goes to the network sample buffer. A
disconnect re-arms the header parse. The third is the integer side of the
software AGC, meaning the overload detector, the gain-table lookup and the rule
that moves the gain step by step.

Modules:

- `Bytes`: the C++ integer widths as subset types. It also has the big-endian
  32-bit byte order that `sendCommand` writes and `ntohl` reads, with round-trip
  lemmas in both directions.
- `Protocol`: command datagrams and the `dongle_info_t` header, each with its
  inverse and round-trip lemmas.
- `Gains`: `getGainCount` and `getGainValue` over gain tables given as a
  parameter. It also has one AGC tick as a pure decision (`AgcDecide`), and
  `AgcRun`, the gain index after any sequence of ticks.
- `Client`: the class `RtlTcpClient`. Its fields are the client's flags,
  buffers, amplitudes and gain state, plus `sent`, the log of every datagram
  written to the socket. `Valid()` is the invariant every method keeps:
  - the socket is open exactly while connected;
  - a connected client is running;
  - payload is accepted only after an `"RTL0"` header;
  - the amplitudes are a real min/max pair or still their starting values;
  - everything sent is a well-formed command.

Units and constants: gains are integers in tenths of a dB. That is the unit of
the gain command's parameter, `(int)10 * gainValue`. The sentinel 999.0 dB
becomes 9990. `dongle_info_t` is taken to be 12 bytes: 4 magic bytes and two
big-endian `uint32` fields, the rtl_tcp layout. `INPUT_RATE` is 2048000, the
DAB sample rate. `rtl_tcp.h` and the header that defines `INPUT_RATE` are not
part of this model. The constructor's starting values are therefore assumed:
not connected, not running, header parse armed, amplitudes 255/0, gain step 0,
AGC off.

## Model

| member | source | states |
|---|---|---|
| `Bytes.BigEndian32Decodes` | src/input/rtl_tcp.cpp:393-396 | the four shifted-and-masked bytes of any parameter, read back most significant first, give the parameter modulo 2^32; negative values included |
| `Bytes.BigEndian32Encodes` | src/input/rtl_tcp.cpp:297-298 | every 4-byte field read with `ntohl` is the encoding of the value read, so the byte order is a bijection |
| `Bytes.Int32RoundTrip` | src/input/rtl_tcp.cpp:383-397 | an `int32_t` parameter sent as four bytes is read back as the same signed value |
| `Bytes.AsUint16` | src/input/rtl_tcp.cpp:682 | passing an `int32_t` gain step to the `uint16_t` parameter keeps it modulo 2^16 |
| `Protocol.EncodeCommand` | src/input/rtl_tcp.cpp:389-397 | a datagram is exactly 5 bytes; byte 0 is the command; bytes 1..4 decode big-endian to the parameter modulo 2^32 |
| `Protocol.DecodeCommand` | src/input/rtl_tcp.cpp:45-51 | a byte string is a command exactly when it has the 5 bytes of a packed `struct command` |
| `Protocol.DecodeEncodeCommand` | src/input/rtl_tcp.cpp:389-397 | decoding the datagram for (cmd, param) gives back (cmd, param) |
| `Protocol.EncodeDecodeCommand` | src/input/rtl_tcp.cpp:45-51 | every 5-byte string is the encoding of the command it decodes to, so no two commands share a datagram and every datagram is reachable |
| `Protocol.DecodeDongleInfo` | src/input/rtl_tcp.cpp:294-298 | the header copied from the packet has a 4-byte magic, and its two fields are read in network byte order |
| `Protocol.DecodeEncodeDongleInfo` | src/input/rtl_tcp.cpp:294-298 | a header written by a server is read back exactly, whatever payload follows it |
| `Protocol.EncodeDecodeDongleInfo` | src/input/rtl_tcp.cpp:294-298 | the parsed header accounts for exactly the first 12 bytes of the packet |
| `Gains.GainCount` | src/input/rtl_tcp.cpp:431-445 | a known tuner's count is the length of the table that the lookup reads; any other tuner type counts 29 steps |
| `Gains.GainValue` | src/input/rtl_tcp.cpp:682-712 | unknown tuner or empty table gives 0; an index inside a known tuner's table gives that entry; an unlisted tuner type gives 0; an index past the end gives the 999.0 dB sentinel |
| `Gains.AgcDecide` | src/input/rtl_tcp.cpp:635-660 | the step moves by at most one; it goes down if and only if the AGC is on, the tuner is known, the ADC is overloaded and the step is above 0; it goes up if and only if there is no overload, a higher step exists and there is headroom; a step inside the table stays inside |
| `Gains.AgcRunStaysInRange` | src/input/rtl_tcp.cpp:632-660 | over any number of AGC ticks, a gain step that starts in [0, count-1] stays there |
| `Gains.AgcRunBacksOff` | src/input/rtl_tcp.cpp:637-643 | while every tick sees an overload, the step drops by one per tick until it reaches 0 and then stays at 0 |
| `Gains.AgcRunIdle` | src/input/rtl_tcp.cpp:635 | with the AGC off or the tuner unknown, the gain step never changes |
| `Client.Amplitudes` | src/input/rtl_tcp.cpp:361-371 | the scan returns the smallest and largest payload byte, both present in the payload, so min <= max; with no payload it returns the starting 255/0 |
| `Client.RtlTcpClient.constructor` | src/input/rtl_tcp.cpp:73-81 | a new client is disconnected, its header parse is armed, its tuner type is unknown, its buffers are empty and it has sent nothing |
| `Client.RtlTcpClient.SendCommand` | src/input/rtl_tcp.cpp:383-398 | with an open connection, exactly the encoded datagram is appended to the socket log; otherwise nothing is sent |
| `Client.RtlTcpClient.SendVfo` | src/input/rtl_tcp.cpp:400-403 | sends command 0x01 with the frequency |
| `Client.RtlTcpClient.SendRate` | src/input/rtl_tcp.cpp:405-408 | sends command 0x02 with the rate |
| `Client.RtlTcpClient.SetGainMode` | src/input/rtl_tcp.cpp:410-413 | sends command 0x03 with the mode |
| `Client.RtlTcpClient.SetFrequency` | src/input/rtl_tcp.cpp:89-93 | stores the frequency and sends it as command 0x01 |
| `Client.RtlTcpClient.SetGain` | src/input/rtl_tcp.cpp:420-429 | sets the gain step, sets and returns its table gain, and sends that gain as command 0x04 |
| `Client.RtlTcpClient.SetAgc` | src/input/rtl_tcp.cpp:447-450 | switches the software AGC on or off |
| `Client.RtlTcpClient.AgcStep` | src/input/rtl_tcp.cpp:635-669 | one timer tick: the new gain step is the one `AgcDecide` chooses; a changed step also updates the gain and sends it; otherwise nothing changes and nothing is sent |
| `Client.RtlTcpClient.HandleDisconnect` | src/input/rtl_tcp.cpp:374-381 | the connection is dropped, the socket is closed and the header parse is re-armed |
| `Client.RtlTcpClient.Reset` | src/input/rtl_tcp.cpp:214-220 | all three sample buffers are empty, and the network buffer must fill up again before samples flow |
| `Client.RtlTcpClient.Connect` | src/input/rtl_tcp.cpp:490-539 | nothing happens unless the client is running and not connected; a successful connect opens the socket, starts the AGC, arms the header parse and empties the buffers; a failed one stops the client and the AGC |
| `Client.RtlTcpClient.Stop` | src/input/rtl_tcp.cpp:146-177 | the socket is closed and the client is neither connected, running nor running its AGC |
| `Client.RtlTcpClient.Restart` | src/input/rtl_tcp.cpp:100-128 | the client is running afterwards |
| `Client.RtlTcpClient.ParseHeader` | src/input/rtl_tcp.cpp:285-337 | the header is stored whatever its magic. With `"RTL0"`, exactly four datagrams go out in this order: gain mode 1, the current gain, `INPUT_RATE`, the frequency. Without it, the client disconnects, re-arms the parse, stops itself and its AGC, and sends nothing |
| `Client.RtlTcpClient.QueuePayload` | src/input/rtl_tcp.cpp:339-371 | the payload bytes are appended to the network buffer in order, the buffer is marked filled once it is at least half full, and the amplitudes become the payload's min and max |
| `Client.RtlTcpClient.ReceivePacket` | src/input/rtl_tcp.cpp:279-371 | nothing changes for an empty packet or a closed connection. A too-short first packet is dropped, and the header parse stays armed. A valid header queues only the bytes after the header; later packets are queued whole. The amplitudes then cover the payload bytes only. A bad magic queues nothing |

## Left out

- The `recv` loop that gathers a packet (src/input/rtl_tcp.cpp:224-277) and its errno/WSA error handling are socket I/O. The packet is an input sequence. A disconnect during the loop is `HandleDisconnect`.
- Socket connect, send and close are I/O. `Connect` takes the connect outcome as a parameter. `sent` records what would be written. `sockValid` stands for `sock.valid()`.
- Threads and their scheduling are concurrency and are not modelled: the receive loop, `networkBufferCopy` (which drains the network buffer into the sample and spectrum buffers), the AGC sleep loop, mutexes, joins and the 500 ms wait in `restart`. `AgcStep` is one iteration of the AGC loop, and `AgcRun` is a run of iterations.
- `Client.RtlTcpClient.Restart`: it does not return the connection status that `restart` reports. That status depends on the receive thread's progress during the sleep. The cleanup branch (lines 109-126) depends on thread state. It only clears flags that `Valid()` already guarantees are clear.
- `Client.RtlTcpClient.AgcStep`: the dB headroom test with `pow` (lines 648-655) is floating point. It is the opaque boolean `headroomOk`.
- `Client.RtlTcpClient.SetGain`: gains are exact integers in tenths of a dB. The float product `10 * gainValue` and its truncation to `int32_t` are not modelled. `getGain` returns the stored gain and is not modelled separately.
- `Client.RtlTcpClient.QueuePayload`: the network buffer is an unbounded sequence. The ring buffer's behaviour when full belongs to `RingBuffer`, which is not part of this model. The fill test `fill / size * 100 >= 50` is written as `2 * fill >= size`, which is exact for a 2^23-byte buffer. The time-based logging around it is left out.
- `read_convert_from_buffer`, `getSamples`, `getSpectrumSamples` and `getSamplesToRead` convert bytes to complex floats and read from the ring buffers. Both are outside this model.
- The gain tables and `dongle_info_t` are defined in `rtl_tcp.h`, which is not part of this model. The tables are a parameter, `GainTables`.
- Logging, `radioController.onMessage` notifications and the tuner-name switch (lines 304-319) have no effect on state. The "ADC overload" message of the AGC-off branch is one of these.
- The Android-only exit command in `stop` (command 0x7e) is platform-specific and not modelled.
- `getDescription`, `getID`, `setServerAddress`, `setPort`, `getFrequency` and `is_ok` are plain accessors of configuration and are not modelled.
- `src/welle-gui/i18n/pt_BR.ts` is a translation table with no behaviour.
