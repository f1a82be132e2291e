/** Tuner gain tables and the integer side of the client's software AGC.
    Gains are in tenths of a dB, which is the unit the client puts on the
    wire (`10 * gainValue` as the parameter of command 0x04). The tables
    themselves are data of the driver, so they are a parameter here. */
module Gains {
  import opened Bytes

  /** `rtlsdr_tuner` as it arrives in the header's tuner-type field. */
  const TunerUnknown: uint32 := 0
  const TunerE4000: uint32 := 1
  const TunerFC0012: uint32 := 2
  const TunerFC0013: uint32 := 3
  const TunerFC2580: uint32 := 4
  const TunerR820T: uint32 := 5
  const TunerR828D: uint32 := 6

  /** Gain count assumed for a tuner type without a table: the R820T's 29 steps. */
  const DefaultGainCount: nat := 29

  /** 999.0 dB, returned for an index past the end of a table. */
  const MaxGainSentinel: int32 := 9990

  /** The per-tuner gain tables, in tenths of a dB. */
  datatype GainTables = GainTables(
    e4k: seq<int32>, fc0012: seq<int32>, fc0013: seq<int32>, fc2580: seq<int32>, r82xx: seq<int32>)
  {
    /** Every table's length fits the `int32_t` that `getGainCount` returns. */
    predicate Valid() {
      |e4k| < 0x8000_0000 && |fc0012| < 0x8000_0000 && |fc0013| < 0x8000_0000
      && |fc2580| < 0x8000_0000 && |r82xx| < 0x8000_0000
    }
  }

  predicate KnownTuner(tuner: uint32) {
    TunerE4000 <= tuner <= TunerR828D
  }

  /** The table the lookup switch of `getGainValue` reads for a known tuner. */
  function Table(g: GainTables, tuner: uint32): seq<int32>
    requires KnownTuner(tuner)
  {
    match tuner
    case 1 => g.e4k
    case 2 => g.fc0012
    case 3 => g.fc0013
    case 4 => g.fc2580
    case _ => g.r82xx
  }

  /** `getGainCount`: the number of gain steps of the tuner. The switch here
      and the one in the lookup agree: a known tuner's count is the length of
      the very table the lookup reads, so every index below it is in bounds. */
  function GainCount(g: GainTables, tuner: uint32): (n: nat)
    ensures KnownTuner(tuner) ==> n == |Table(g, tuner)|
    ensures !KnownTuner(tuner) ==> n == DefaultGainCount
    ensures g.Valid() ==> n < 0x8000_0000
  {
    if tuner == TunerE4000 then |g.e4k|
    else if tuner == TunerFC0012 then |g.fc0012|
    else if tuner == TunerFC0013 then |g.fc0013|
    else if tuner == TunerFC2580 then |g.fc2580|
    else if tuner == TunerR820T then |g.r82xx|
    else if tuner == TunerR828D then |g.r82xx|
    else DefaultGainCount
  }

  /** `getGainValue`: the gain of step `index` of the tuner. */
  function GainValue(g: GainTables, tuner: uint32, index: uint16): (v: int32)
    // an unknown tuner, or a tuner without gain steps, has gain 0
    ensures tuner == TunerUnknown || GainCount(g, tuner) == 0 ==> v == 0
    // an index inside a known tuner's table reads that table's entry
    ensures KnownTuner(tuner) && index < GainCount(g, tuner) ==> v == Table(g, tuner)[index]
    // a tuner type outside the enumeration has 29 steps of gain 0
    ensures tuner != TunerUnknown && !KnownTuner(tuner) && index < GainCount(g, tuner) ==> v == 0
    // an index past the end reads as the maximum-gain sentinel
    ensures tuner != TunerUnknown && 0 < GainCount(g, tuner) <= index ==> v == MaxGainSentinel
  {
    if tuner == TunerUnknown then 0
    else
      var maxGainCount := GainCount(g, tuner);
      if maxGainCount == 0 then 0
      else if index < maxGainCount then
        (if KnownTuner(tuner) then Table(g, tuner)[index] else 0)
      else MaxGainSentinel
  }

  /** The ADC saturates: some sample byte hit either end of its range. */
  predicate Overloaded(minAmp: byte, maxAmp: byte) {
    minAmp == 0 || maxAmp == 255
  }

  /** What one tick of the AGC timer does to the gain index: nothing, or a
      `setGain` to a new index. */
  datatype AgcAction = Hold | SetIndex(index: int)

  /** One tick of `agcTimer`. `headroomOk` is the floating-point test that
      the next gain step would keep the amplitudes inside 0..255; it only
      matters when an increase is otherwise allowed. */
  function AgcDecide(g: GainTables, tuner: uint32, isAgc: bool, minAmp: byte, maxAmp: byte,
                     cur: int, headroomOk: bool): (a: AgcAction)
    // the index only ever moves by one step
    ensures a.SetIndex? ==> a.index == cur - 1 || a.index == cur + 1
    // it goes down exactly when the AGC is on, the tuner known, the ADC overloaded and the index above 0
    ensures (a.SetIndex? && a.index < cur)
        <==> isAgc && tuner != TunerUnknown && Overloaded(minAmp, maxAmp) && cur > 0
    // it goes up exactly when there is no overload, a higher step exists and there is headroom for it
    ensures (a.SetIndex? && a.index > cur)
        <==> isAgc && tuner != TunerUnknown && !Overloaded(minAmp, maxAmp)
             && cur < GainCount(g, tuner) - 1 && headroomOk
    // an index inside the table stays inside it
    ensures 0 <= cur < GainCount(g, tuner) && a.SetIndex? ==> 0 <= a.index < GainCount(g, tuner)
  {
    if isAgc && tuner != TunerUnknown then
      if Overloaded(minAmp, maxAmp) then
        if cur > 0 then SetIndex(cur - 1) else Hold
      else if cur < GainCount(g, tuner) - 1 && headroomOk then SetIndex(cur + 1)
      else Hold
    else Hold
  }

  /** What the AGC timer observes on one tick. */
  datatype Tick = Tick(minAmp: byte, maxAmp: byte, headroomOk: bool)

  function Apply(a: AgcAction, cur: int): int {
    match a
    case Hold => cur
    case SetIndex(i) => i
  }

  /** The gain index after a run of AGC ticks. */
  function AgcRun(g: GainTables, tuner: uint32, isAgc: bool, cur: int, ticks: seq<Tick>): int
    decreases |ticks|
  {
    if ticks == [] then cur
    else
      var t := ticks[0];
      AgcRun(g, tuner, isAgc, Apply(AgcDecide(g, tuner, isAgc, t.minAmp, t.maxAmp, cur, t.headroomOk), cur), ticks[1..])
  }

  /** However the amplitudes behave, an index that starts inside the tuner's
      table stays inside it for the whole life of the AGC. */
  lemma {:induction false} AgcRunStaysInRange(g: GainTables, tuner: uint32, isAgc: bool, cur: int, ticks: seq<Tick>)
    requires 0 <= cur < GainCount(g, tuner)
    ensures 0 <= AgcRun(g, tuner, isAgc, cur, ticks) < GainCount(g, tuner)
    decreases |ticks|
  {
    if ticks != [] {
      var t := ticks[0];
      var next := Apply(AgcDecide(g, tuner, isAgc, t.minAmp, t.maxAmp, cur, t.headroomOk), cur);
      AgcRunStaysInRange(g, tuner, isAgc, next, ticks[1..]);
    }
  }

  /** While the ADC stays overloaded, an active AGC backs the gain off one
      step per tick until it reaches the lowest step, and stays there. */
  lemma {:induction false} AgcRunBacksOff(g: GainTables, tuner: uint32, cur: nat, ticks: seq<Tick>)
    requires tuner != TunerUnknown
    requires forall i | 0 <= i < |ticks| :: Overloaded(ticks[i].minAmp, ticks[i].maxAmp)
    ensures AgcRun(g, tuner, true, cur, ticks) == if cur >= |ticks| then cur - |ticks| else 0
    decreases |ticks|
  {
    if ticks != [] {
      var t := ticks[0];
      var next := Apply(AgcDecide(g, tuner, true, t.minAmp, t.maxAmp, cur, t.headroomOk), cur);
      assert next == if cur > 0 then cur - 1 else 0;
      AgcRunBacksOff(g, tuner, next, ticks[1..]);
    }
  }

  /** With the AGC switched off, or no tuner type known, the gain never moves. */
  lemma {:induction false} AgcRunIdle(g: GainTables, tuner: uint32, isAgc: bool, cur: int, ticks: seq<Tick>)
    requires !isAgc || tuner == TunerUnknown
    ensures AgcRun(g, tuner, isAgc, cur, ticks) == cur
    decreases |ticks|
  {
    if ticks != [] {
      AgcRunIdle(g, tuner, isAgc, cur, ticks[1..]);
    }
  }
}
