/** The receive-side state of `CRTL_TCP_Client`: connection flags, the
    header parse that opens every connection, the network sample buffer,
    the overload detector and the gain control, with the bytes written to
    the socket kept as a log of datagrams. */
module Client {
  import opened Bytes
  import opened Protocol
  import opened Gains

  /** The DAB input sample rate, 2.048 MS/s, requested on every connection. */
  const InputRate: int32 := 2048000

  /** Capacity of the network sample ring buffer, `256 * 32768` bytes. */
  const NetworkBufferSize: nat := 256 * 32768

  /** Gain mode 1 is manual gain: the AGC runs in this client, not in the tuner. */
  const ManualGainMode: int32 := 1

  /** `lo` is the smallest byte of a non-empty `s`. */
  predicate IsLow(lo: byte, s: seq<byte>) {
    lo in s && forall b | b in s :: lo <= b
  }

  /** `hi` is the largest byte of a non-empty `s`. */
  predicate IsHigh(hi: byte, s: seq<byte>) {
    hi in s && forall b | b in s :: b <= hi
  }

  /** The overload scan over the payload bytes `pkt[from..]`: the smallest
      and largest sample byte, or the starting values 255 and 0 when there
      is no payload. */
  method Amplitudes(pkt: seq<byte>, from: nat) returns (lo: byte, hi: byte)
    requires from <= |pkt|
    ensures from == |pkt| ==> lo == 255 && hi == 0
    ensures from < |pkt| ==> IsLow(lo, pkt[from..]) && IsHigh(hi, pkt[from..])
    ensures from < |pkt| ==> lo <= hi
  {
    lo, hi := 255, 0;
    var i := from;
    while i < |pkt|
      invariant from <= i <= |pkt|
      invariant i == from ==> lo == 255 && hi == 0
      invariant from < i ==> IsLow(lo, pkt[from..i]) && IsHigh(hi, pkt[from..i])
    {
      assert pkt[from..i + 1] == pkt[from..i] + [pkt[i]];
      if lo > pkt[i] {
        lo := pkt[i];
      }
      if hi < pkt[i] {
        hi := pkt[i];
      }
      i := i + 1;
    }
    assert pkt[from..i] == pkt[from..];
  }

  /** The four datagrams sent after a valid header, in the order they go
      out: manual gain mode, the current gain, the sample rate, the tuned
      frequency. */
  function Handshake(g: GainTables, info: DongleInfo, gainIndex: int32, frequency: int32): seq<seq<byte>> {
    [ EncodeCommand(CmdSetGainMode, ManualGainMode),
      EncodeCommand(CmdSetGain, GainValue(g, info.tunerType, AsUint16(gainIndex))),
      EncodeCommand(CmdSetSampleRate, InputRate),
      EncodeCommand(CmdSetFrequency, frequency) ]
  }

  class RtlTcpClient {
    /** The driver's gain tables. */
    const tables: GainTables

    var frequency: int32
    /** Set by a successful connect, cleared by a disconnect or `stop`. */
    var connected: bool
    /** Whether the socket is open. */
    var sockValid: bool
    /** `rtlsdrRunning`. */
    var running: bool
    var agcRunning: bool
    /** The next packet starts with a `dongle_info_t` header. */
    var firstData: bool
    var firstFilledNetworkBuffer: bool
    var dongleInfo: DongleInfo
    /** Contents of the network ring buffer, the sample buffer and the spectrum buffer. */
    var netBuf: seq<byte>
    var sampleBuf: seq<byte>
    var spectrumBuf: seq<byte>
    /** Smallest and largest sample byte of the last payload. */
    var minAmp: byte
    var maxAmp: byte
    var isAgc: bool
    /** Current gain step, and its gain in tenths of a dB. */
    var currentGainCount: int32
    var currentGain: int32
    /** Every datagram written to the socket, oldest first. */
    var sent: seq<seq<byte>>

    ghost predicate Valid()
      reads this
    {
      && tables.Valid()
      // the socket is open exactly while connected, and only while running
      && sockValid == connected
      && (connected ==> running)
      && (agcRunning ==> running)
      // payload is only ever accepted behind an "RTL0" header
      && (!firstData ==> HasMagic(dongleInfo))
      // the amplitudes are a real min/max, or still the starting values
      && (minAmp <= maxAmp || (minAmp == 255 && maxAmp == 0))
      // everything on the wire is a well-formed command
      && (forall i | 0 <= i < |sent| :: DecodeCommand(sent[i]).Some?)
    }

    constructor (tables: GainTables, frequency: int32)
      requires tables.Valid()
      ensures Valid()
      ensures this.tables == tables && this.frequency == frequency
      ensures !connected && !running && !agcRunning && firstData && !firstFilledNetworkBuffer
      ensures dongleInfo.tunerType == TunerUnknown
      ensures netBuf == [] && sampleBuf == [] && spectrumBuf == [] && sent == []
      ensures minAmp == 255 && maxAmp == 0 && currentGainCount == 0 && currentGain == 0
    {
      this.tables := tables;
      this.frequency := frequency;
      connected, sockValid, running, agcRunning := false, false, false, false;
      firstData, firstFilledNetworkBuffer := true, false;
      dongleInfo := DongleInfo([0, 0, 0, 0], TunerUnknown, 0);
      netBuf, sampleBuf, spectrumBuf := [], [], [];
      minAmp, maxAmp := 255, 0;
      isAgc := false;
      currentGainCount, currentGain := 0, 0;
      sent := [];
    }

    /** `sendCommand`: write one datagram, or nothing at all when there is
        no open connection. */
    method SendCommand(cmd: byte, param: int32)
      requires Valid()
      modifies this`sent
      ensures Valid()
      ensures connected && sockValid ==> sent == old(sent) + [EncodeCommand(cmd, param)]
      ensures !connected || !sockValid ==> sent == old(sent)
    {
      if !connected || !sockValid {
        return;
      }
      var datagram := EncodeCommand(cmd, param);
      assert DecodeCommand(datagram).Some?;
      sent := sent + [datagram];
    }

    /** `sendVFO`: tune to `frequency` Hz. */
    method SendVfo(frequency: int32)
      requires Valid()
      modifies this`sent
      ensures Valid()
      ensures sent == old(sent) + if connected && sockValid then [EncodeCommand(CmdSetFrequency, frequency)] else []
    {
      SendCommand(CmdSetFrequency, frequency);
    }

    /** `sendRate`: set the sample rate. */
    method SendRate(rate: int32)
      requires Valid()
      modifies this`sent
      ensures Valid()
      ensures sent == old(sent) + if connected && sockValid then [EncodeCommand(CmdSetSampleRate, rate)] else []
    {
      SendCommand(CmdSetSampleRate, rate);
    }

    /** `setGainMode`: 0 for the tuner's own AGC, 1 for manual gain. */
    method SetGainMode(mode: int32)
      requires Valid()
      modifies this`sent
      ensures Valid()
      ensures sent == old(sent) + if connected && sockValid then [EncodeCommand(CmdSetGainMode, mode)] else []
    {
      SendCommand(CmdSetGainMode, mode);
    }

    /** `setFrequency`: remember the frequency and tune to it. */
    method SetFrequency(newFrequency: int32)
      requires Valid()
      modifies this`frequency, this`sent
      ensures Valid()
      ensures frequency == newFrequency
      ensures sent == old(sent) + if connected && sockValid then [EncodeCommand(CmdSetFrequency, newFrequency)] else []
    {
      frequency := newFrequency;
      SendVfo(newFrequency);
    }

    /** `setGain`: select gain step `gain`, send its gain and return it. */
    method SetGain(gain: int32) returns (value: int32)
      requires Valid()
      modifies this`currentGainCount, this`currentGain, this`sent
      ensures Valid()
      ensures currentGainCount == gain
      ensures value == GainValue(tables, dongleInfo.tunerType, AsUint16(gain)) && currentGain == value
      ensures sent == old(sent) + if connected && sockValid then [EncodeCommand(CmdSetGain, value)] else []
    {
      currentGainCount := gain;
      value := GainValue(tables, dongleInfo.tunerType, AsUint16(gain));
      SendCommand(CmdSetGain, value);
      currentGain := value;
    }

    /** `setAgc`: switch the software AGC on or off. */
    method SetAgc(on: bool)
      modifies this`isAgc
      ensures isAgc == on
    {
      isAgc := on;
    }

    /** One tick of `agcTimer`: the gain step follows `AgcDecide`, and a step
        that changes is sent to the tuner. `headroomOk` stands for the
        floating-point test that the next step keeps the signal inside the
        ADC's range. */
    method AgcStep(headroomOk: bool)
      requires Valid()
      modifies this`currentGainCount, this`currentGain, this`sent
      ensures Valid()
      ensures var a := AgcDecide(tables, dongleInfo.tunerType, isAgc, minAmp, maxAmp, old(currentGainCount), headroomOk);
        && currentGainCount == Apply(a, old(currentGainCount))
        && (a.Hold? ==> currentGain == old(currentGain) && sent == old(sent))
        && (a.SetIndex? ==>
              && currentGain == GainValue(tables, dongleInfo.tunerType, AsUint16(a.index))
              && sent == old(sent) + if connected && sockValid then [EncodeCommand(CmdSetGain, currentGain)] else [])
    {
      if isAgc && dongleInfo.tunerType != TunerUnknown {
        if minAmp == 0 || maxAmp == 255 {
          if currentGainCount > 0 {
            var _ := SetGain(currentGainCount - 1);
          }
        } else if currentGainCount < GainCount(tables, dongleInfo.tunerType) - 1 {
          if headroomOk {
            var _ := SetGain(currentGainCount + 1);
          }
        }
      }
    }

    /** `handleDisconnect`: drop the connection and re-arm the header parse. */
    method HandleDisconnect()
      modifies this`connected, this`firstData, this`sockValid
      ensures !connected && !sockValid && firstData
    {
      connected := false;
      firstData := true;
      sockValid := false;
    }

    /** `reset`: flush the three sample buffers and wait for the network
        buffer to fill up again before samples flow on. */
    method Reset()
      requires Valid()
      modifies this`netBuf, this`sampleBuf, this`spectrumBuf, this`firstFilledNetworkBuffer
      ensures Valid()
      ensures netBuf == [] && sampleBuf == [] && spectrumBuf == [] && !firstFilledNetworkBuffer
    {
      netBuf, sampleBuf, spectrumBuf := [], [], [];
      firstFilledNetworkBuffer := false;
    }

    /** The connection step of the receive thread's loop, with `ok` the
        outcome of the socket connect. Success arms the header parse and
        starts from empty buffers; failure stops the client. */
    method Connect(ok: bool)
      requires Valid()
      modifies this`connected, this`sockValid, this`running, this`agcRunning, this`firstData,
               this`netBuf, this`sampleBuf, this`spectrumBuf, this`firstFilledNetworkBuffer
      ensures Valid()
      ensures !old(running) || old(connected) ==> unchanged(this)
      ensures old(running) && !old(connected) && ok ==>
        && connected && sockValid && running && agcRunning && firstData
        && netBuf == [] && sampleBuf == [] && spectrumBuf == [] && !firstFilledNetworkBuffer
      ensures old(running) && !old(connected) && !ok ==>
        && !connected && !running && !agcRunning
        && firstData == old(firstData) && netBuf == old(netBuf) && sampleBuf == old(sampleBuf)
        && spectrumBuf == old(spectrumBuf) && firstFilledNetworkBuffer == old(firstFilledNetworkBuffer)
    {
      if !running || connected {
        return;
      }
      if ok {
        connected, sockValid := true, true;
        agcRunning := true;
        firstData := true;
        Reset();
      } else {
        agcRunning := false;
        running := false;
      }
    }

    /** `stop`: close the connection and stop the receive and AGC loops. */
    method Stop()
      requires Valid()
      modifies this`connected, this`sockValid, this`running, this`agcRunning
      ensures Valid()
      ensures !connected && !sockValid && !running && !agcRunning
    {
      sockValid := false;
      running := false;
      connected := false;
      agcRunning := false;
    }

    /** `restart`: mark the client running, so that the receive loop connects. */
    method Restart()
      requires Valid()
      modifies this`running
      ensures Valid()
      ensures running
    {
      if running {
        return;
      }
      running := true;
    }

    /** `receiveData` from the point where the bytes of one read, `pkt`, are
        in hand. */
    method ReceivePacket(pkt: seq<byte>)
      requires Valid()
      modifies this`connected, this`sockValid, this`running, this`agcRunning, this`firstData,
               this`firstFilledNetworkBuffer, this`dongleInfo, this`netBuf, this`minAmp, this`maxAmp,
               this`currentGainCount, this`currentGain, this`sent
      ensures Valid()
      ensures currentGainCount == old(currentGainCount)
      // no data, or no open connection: nothing happens
      ensures |pkt| == 0 || !old(connected) || !old(sockValid) ==> unchanged(this)
      // a header is due but the packet is too short for one: dropped, and the parse stays armed
      ensures old(connected && sockValid && firstData) && 0 < |pkt| < HeaderSize ==> unchanged(this)
      // a header is due: it is stored whatever its magic says
      ensures old(connected && sockValid && firstData) && |pkt| >= HeaderSize ==>
        dongleInfo == DecodeDongleInfo(pkt)
      // no "RTL0": disconnect, re-arm the parse, stop; nothing sent, nothing queued
      ensures old(connected && sockValid && firstData) && |pkt| >= HeaderSize && !HasMagic(DecodeDongleInfo(pkt)) ==>
        && !connected && !sockValid && firstData && !running && !agcRunning
        && sent == old(sent) && netBuf == old(netBuf) && currentGain == old(currentGain)
        && minAmp == old(minAmp) && maxAmp == old(maxAmp)
        && firstFilledNetworkBuffer == old(firstFilledNetworkBuffer)
      // "RTL0": configure the tuner, then the bytes after the header are payload
      ensures old(connected && sockValid && firstData) && |pkt| >= HeaderSize && HasMagic(DecodeDongleInfo(pkt)) ==>
        && connected && sockValid && !firstData && running == old(running) && agcRunning == old(agcRunning)
        && currentGain == GainValue(tables, dongleInfo.tunerType, AsUint16(currentGainCount))
        && sent == old(sent) + Handshake(tables, dongleInfo, currentGainCount, frequency)
        && netBuf == old(netBuf) + pkt[HeaderSize..]
        && (|pkt| == HeaderSize ==>
              minAmp == old(minAmp) && maxAmp == old(maxAmp)
              && firstFilledNetworkBuffer == old(firstFilledNetworkBuffer))
        && (|pkt| > HeaderSize ==>
              IsLow(minAmp, pkt[HeaderSize..]) && IsHigh(maxAmp, pkt[HeaderSize..])
              && firstFilledNetworkBuffer == (old(firstFilledNetworkBuffer) || 2 * |netBuf| >= NetworkBufferSize))
      // header already seen: the whole packet is payload
      ensures old(connected && sockValid && !firstData) && |pkt| > 0 ==>
        && connected && sockValid && !firstData && running == old(running) && agcRunning == old(agcRunning)
        && dongleInfo == old(dongleInfo) && sent == old(sent) && currentGain == old(currentGain)
        && netBuf == old(netBuf) + pkt
        && IsLow(minAmp, pkt) && IsHigh(maxAmp, pkt)
        && firstFilledNetworkBuffer == (old(firstFilledNetworkBuffer) || 2 * |netBuf| >= NetworkBufferSize)
    {
      if |pkt| == 0 || !connected || !sockValid {
        return;
      }
      var payloadOffset := 0;
      if firstData {
        if |pkt| < HeaderSize {
          return;
        }
        var accepted := ParseHeader(pkt);
        if !accepted {
          return;
        }
        payloadOffset := HeaderSize;
      }
      if |pkt| <= payloadOffset {
        return;
      }
      QueuePayload(pkt, payloadOffset);
    }

    /** The header branch of `receiveData`: copy the `dongle_info_t` out of
        the packet, then either configure the tuner (magic "RTL0") or drop the
        connection and stop. */
    method ParseHeader(pkt: seq<byte>) returns (accepted: bool)
      requires Valid() && connected && sockValid && firstData && |pkt| >= HeaderSize
      modifies this`connected, this`sockValid, this`running, this`agcRunning, this`firstData,
               this`dongleInfo, this`currentGainCount, this`currentGain, this`sent
      ensures Valid()
      ensures dongleInfo == DecodeDongleInfo(pkt) && accepted == HasMagic(dongleInfo)
      ensures currentGainCount == old(currentGainCount)
      ensures accepted ==>
        && connected && sockValid && !firstData && running && agcRunning == old(agcRunning)
        && currentGain == GainValue(tables, dongleInfo.tunerType, AsUint16(currentGainCount))
        && sent == old(sent) + Handshake(tables, dongleInfo, currentGainCount, frequency)
      ensures !accepted ==>
        && !connected && !sockValid && firstData && !running && !agcRunning
        && sent == old(sent) && currentGain == old(currentGain)
    {
      firstData := false;
      dongleInfo := DecodeDongleInfo(pkt);
      if HasMagic(dongleInfo) {
        SetGainMode(ManualGainMode);
        var _ := SetGain(currentGainCount);
        SendRate(InputRate);
        SendVfo(frequency);
        accepted := true;
      } else {
        HandleDisconnect();
        agcRunning := false;
        running := false;
        accepted := false;
      }
    }

    /** The tail of `receiveData`: append the payload `pkt[offset..]` to the
        network buffer, note when that buffer is half full, and record the
        payload's amplitude range. */
    method QueuePayload(pkt: seq<byte>, offset: nat)
      requires Valid()
      requires offset < |pkt|
      modifies this`netBuf, this`firstFilledNetworkBuffer, this`minAmp, this`maxAmp
      ensures Valid()
      ensures netBuf == old(netBuf) + pkt[offset..]
      ensures firstFilledNetworkBuffer == (old(firstFilledNetworkBuffer) || 2 * |netBuf| >= NetworkBufferSize)
      ensures IsLow(minAmp, pkt[offset..]) && IsHigh(maxAmp, pkt[offset..])
    {
      netBuf := netBuf + pkt[offset..];
      if !firstFilledNetworkBuffer && 2 * |netBuf| >= NetworkBufferSize {
        firstFilledNetworkBuffer := true;
      }
      minAmp, maxAmp := Amplitudes(pkt, offset);
    }
  }
}
