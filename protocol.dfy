/** The rtl_tcp wire protocol as the client speaks it: 5-byte control
    datagrams sent to the server, and the `dongle_info_t` header the server
    sends first on every connection. */
module Protocol {
  import opened Bytes

  datatype Option<T> = None | Some(value: T)

  /** Command codes the client sends. */
  const CmdSetFrequency: byte := 0x01
  const CmdSetSampleRate: byte := 0x02
  const CmdSetGainMode: byte := 0x03
  const CmdSetGain: byte := 0x04

  /** A packed `struct command`: one command byte and a 32-bit parameter. */
  const DatagramSize: nat := 5

  /** A control message as the server reads it back. */
  datatype Command = Command(code: byte, param: int32)

  /** The datagram `sendCommand` builds: the command byte, then the
      parameter's four bytes most significant first. */
  function EncodeCommand(cmd: byte, param: int32): (d: seq<byte>)
    ensures |d| == DatagramSize
    ensures d[0] == cmd
    ensures FromBigEndian32(d[1..]) == param % Two32
  {
    BigEndian32Decodes(param);
    [cmd] + BigEndian32(param)
  }

  /** How the receiving end reads a datagram: anything but five bytes is not
      a command; otherwise byte 0 is the code and bytes 1..4 the parameter in
      network byte order. */
  function DecodeCommand(d: seq<byte>): (r: Option<Command>)
    ensures r.Some? <==> |d| == DatagramSize
  {
    if |d| != DatagramSize then None
    else Some(Command(d[0], AsInt32(FromBigEndian32(d[1..]))))
  }

  /** Every command the client sends is read back as exactly that command. */
  lemma DecodeEncodeCommand(cmd: byte, param: int32)
    ensures DecodeCommand(EncodeCommand(cmd, param)) == Some(Command(cmd, param))
  {
    var d := EncodeCommand(cmd, param);
    assert d[1..] == BigEndian32(param);
    Int32RoundTrip(param);
  }

  /** Every 5-byte datagram is the encoding of the command it decodes to, so
      the encoding is onto the 5-byte strings as well as one-to-one. */
  lemma EncodeDecodeCommand(d: seq<byte>)
    requires |d| == DatagramSize
    ensures DecodeCommand(d).Some?
    ensures EncodeCommand(DecodeCommand(d).value.code, DecodeCommand(d).value.param) == d
  {
    var c := DecodeCommand(d).value;
    var u := FromBigEndian32(d[1..]);
    BigEndian32Encodes(d[1..]);
    assert c.param % Two32 == u;
    BigEndian32Decodes(c.param);
    BigEndian32Decodes(u);
    assert BigEndian32(c.param) == BigEndian32(u) by {
      BigEndian32Encodes(BigEndian32(c.param));
      BigEndian32Encodes(BigEndian32(u));
    }
    assert d == [d[0]] + d[1..];
  }

  /** Size of `dongle_info_t`: four magic bytes and two 32-bit fields. */
  const HeaderSize: nat := 12

  /** The magic "RTL0" that opens the header. */
  const Magic: seq<byte> := ['R' as int, 'T' as int, 'L' as int, '0' as int]

  /** `dongle_info_t` after the byte-order conversion of its two fields. */
  datatype DongleInfo = DongleInfo(magic: seq<byte>, tunerType: uint32, tunerGainCount: uint32)

  /** The header copied out of the first `HeaderSize` bytes of a packet, with
      `ntohl` applied to the tuner type and the gain count. */
  function DecodeDongleInfo(pkt: seq<byte>): (info: DongleInfo)
    requires |pkt| >= HeaderSize
    ensures |info.magic| == 4
  {
    DongleInfo(pkt[..4], FromBigEndian32(pkt[4..8]), FromBigEndian32(pkt[8..12]))
  }

  predicate HasMagic(info: DongleInfo) {
    info.magic == Magic
  }

  /** The header as an rtl_tcp server writes it. */
  function EncodeDongleInfo(info: DongleInfo): (h: seq<byte>)
    requires |info.magic| == 4
    ensures |h| == HeaderSize
  {
    info.magic + BigEndian32(info.tunerType) + BigEndian32(info.tunerGainCount)
  }

  /** The client reads back exactly the header a server wrote ... */
  lemma DecodeEncodeDongleInfo(info: DongleInfo, rest: seq<byte>)
    requires |info.magic| == 4
    ensures DecodeDongleInfo(EncodeDongleInfo(info) + rest) == info
  {
    var p := EncodeDongleInfo(info) + rest;
    assert p[..4] == info.magic;
    assert p[4..8] == BigEndian32(info.tunerType);
    assert p[8..12] == BigEndian32(info.tunerGainCount);
    BigEndian32Decodes(info.tunerType);
    BigEndian32Decodes(info.tunerGainCount);
  }

  /** ... and the header it reads is exactly the first `HeaderSize` bytes,
      so the header parse loses nothing and invents nothing. */
  lemma EncodeDecodeDongleInfo(pkt: seq<byte>)
    requires |pkt| >= HeaderSize
    ensures EncodeDongleInfo(DecodeDongleInfo(pkt)) == pkt[..HeaderSize]
  {
    BigEndian32Encodes(pkt[4..8]);
    BigEndian32Encodes(pkt[8..12]);
    assert pkt[..HeaderSize] == pkt[..4] + pkt[4..8] + pkt[8..12];
  }
}
