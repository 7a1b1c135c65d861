/**
  The static wiring of the D20 v1.1 drum module, as declared in
  include/adc_input_map.h: which ADC1 channel each multiplexer output is
  wired to, which GPIOs drive the two CD74HC4067 select buses, which logical
  input (1..20) sits behind every multiplexer channel, and how inputs 17..20
  are wired directly, with GPIO 255 marking an unused conductor.

  ADC channel identifiers are plain numbers (adc1_channel_t), so nothing
  here assumes that a direct channel differs from a multiplexer output.
 */
module AdcInputMap {

  /** A C `uint8_t`. */
  type Byte = b: int | 0 <= b < 256

  /** An `adc1_channel_t`: ADC1_CHANNEL_0 .. ADC1_CHANNEL_9, then ADC1_CHANNEL_MAX. */
  type AdcChannel = c: int | 0 <= c <= 10

  const Adc1ChannelMax: AdcChannel := 10

  // Multiplexer outputs.
  const Mux1OutGpio: Byte := 2
  const Mux1OutAdc: AdcChannel := 2
  const Mux2OutGpio: Byte := 7
  const Mux2OutAdc: AdcChannel := 6

  /** Select lines S0, S1, S2, S3 of each multiplexer, in that order. */
  const Mux1SelectPins: seq<Byte> := [5, 6, 3, 4]
  const Mux2SelectPins: seq<Byte> := [10, 11, 8, 9]

  /** The GPIO number that marks a conductor as unused. */
  const UnusedGpio: Byte := 255

  /** mux1InputMap[ch]: the logical input wired to MUX1 channel ch. */
  const Mux1InputMap: seq<Byte> := [6, 3, 4, 3, 4, 2, 1, 1, 10, 7, 8, 7, 8, 5, 6, 5]

  /** mux2InputMap[ch]: the logical input wired to MUX2 channel ch. */
  const Mux2InputMap: seq<Byte> := [14, 11, 11, 12, 12, 9, 10, 9, 18, 15, 16, 15, 16, 13, 14, 13]

  /** One conductor of a directly wired input. */
  datatype DirectAdc = DirectAdc(gpio: Byte, adc: AdcChannel)

  /** directInputs[idx][cond]: conductor A (cond 0) and B (cond 1) of input 17 + idx. */
  const DirectInputs: seq<seq<DirectAdc>> := [
    [DirectAdc(14, 6), DirectAdc(12, 5)],                  // 17
    [DirectAdc(13, 7), DirectAdc(Mux2OutGpio, Mux2OutAdc)], // 18: B via MUX2 CH8
    [DirectAdc(16, 0), DirectAdc(15, 3)],                  // 19
    [DirectAdc(18, 2), DirectAdc(UnusedGpio, Adc1ChannelMax)] // 20
  ]

  /** The input wired to channel `ch` of multiplexer `mux` (any mux other than 1 is MUX2). */
  function InputMap(mux: Byte): (m: seq<Byte>)
    ensures |m| == 16
  {
    if mux == 1 then Mux1InputMap else Mux2InputMap
  }

  /** The ADC channel that multiplexer `mux`'s common output is wired to. */
  function MuxOutAdc(mux: Byte): AdcChannel
  {
    if mux == 1 then Mux1OutAdc else Mux2OutAdc
  }

  /** The select pins driven for multiplexer `mux`. */
  function SelectPins(mux: Byte): (pins: seq<Byte>)
    ensures |pins| == 4
  {
    if mux == 1 then Mux1SelectPins else Mux2SelectPins
  }

  predicate Used(c: DirectAdc)
  {
    c.gpio != UnusedGpio
  }

  /**
    The conductors of the direct table are numbered 0..7 in the order the
    scan visits them, row by row: conductor p is `cond` ConductorCol[p] of
    row `idx` ConductorRow[p], i.e. of input 17 + ConductorRow[p].
   */
  const ConductorRow: seq<nat> := [0, 0, 1, 1, 2, 2, 3, 3]
  const ConductorCol: seq<nat> := [0, 1, 0, 1, 0, 1, 0, 1]

  /** Input 18's second conductor, the one reached through MUX2 channel 8: row 1, conductor 1. */
  const Input18B: nat := 3

  function Conductor(p: nat): DirectAdc
    requires p < 8
  {
    [DirectInputs[0][0], DirectInputs[0][1], DirectInputs[1][0], DirectInputs[1][1],
     DirectInputs[2][0], DirectInputs[2][1], DirectInputs[3][0], DirectInputs[3][1]][p]
  }

  /** The numbering is the scan's nested order: row idx, conductor cond is number 2 * idx + cond. */
  lemma ConductorNumbering()
    ensures forall idx, cond :: 0 <= idx < 4 && 0 <= cond < 2 ==>
              ConductorRow[2 * idx + cond] == idx && ConductorCol[2 * idx + cond] == cond &&
              Conductor(2 * idx + cond) == DirectInputs[idx][cond]
    ensures forall p :: 0 <= p < 8 ==> 2 * ConductorRow[p] + ConductorCol[p] == p
  {
    forall idx, cond | 0 <= idx < 4 && 0 <= cond < 2
      ensures ConductorRow[2 * idx + cond] == idx && ConductorCol[2 * idx + cond] == cond &&
              Conductor(2 * idx + cond) == DirectInputs[idx][cond]
    {
      if idx == 0 {} else if idx == 1 {} else if idx == 2 {} else {}
    }
  }

  /** Row idx, conductor cond of the direct table is conductor 2 * idx + cond. */
  lemma ConductorAt(idx: nat, cond: nat)
    requires idx < 4 && cond < 2
    ensures |DirectInputs[idx]| == 2
    ensures ConductorRow[2 * idx + cond] == idx && ConductorCol[2 * idx + cond] == cond
    ensures Conductor(2 * idx + cond) == DirectInputs[idx][cond]
  {
    ConductorNumbering();
  }

  /** The used conductors among the first k of the direct table, in table order. */
  function UsedConductors(k: nat): (ps: seq<nat>)
    requires k <= 8
    ensures |ps| <= k
    ensures forall j :: 0 <= j < |ps| ==> ps[j] < k && Used(Conductor(ps[j]))
  {
    if k == 0 then []
    else UsedConductors(k - 1) + (if Used(Conductor(k - 1)) then [k - 1] else [])
  }

  /** Among the first k conductors, exactly the used ones are listed. */
  lemma {:induction false} UsedConductorsComplete(k: nat)
    requires k <= 8
    ensures forall p :: 0 <= p < k ==> (p in UsedConductors(k) <==> Used(Conductor(p)))
  {
    if k > 0 {
      UsedConductorsComplete(k - 1);
    }
  }

  /** The used conductors are listed in the order the direct loop visits them, each once. */
  lemma {:induction false} UsedConductorsOrdered(k: nat)
    requires k <= 8
    ensures var ps := UsedConductors(k);
      forall i, j :: 0 <= i < j < |ps| ==> ps[i] < ps[j]
  {
    if k > 0 {
      UsedConductorsOrdered(k - 1);
    }
  }

  /** Both lookup tables have one entry per multiplexer channel 0..15. */
  lemma LookupTablesHaveSixteenEntries()
    ensures |Mux1InputMap| == 16 && |Mux2InputMap| == 16
  {
  }

  /** Every entry of both lookup tables is a logical input number 1..20. */
  lemma LookupEntriesAreInputNumbers()
    ensures forall ch :: 0 <= ch < 16 ==> 1 <= Mux1InputMap[ch] <= 20
    ensures forall ch :: 0 <= ch < 16 ==> 1 <= Mux2InputMap[ch] <= 20
  {
  }

  /** directInputs has four rows (inputs 17..20) of two conductors each. */
  lemma DirectInputsShape()
    ensures |DirectInputs| == 4
    ensures forall idx :: 0 <= idx < 4 ==> |DirectInputs[idx]| == 2
  {
  }

  /**
    Every input's first conductor is used; the one unused conductor is
    input 20's second, which carries ADC1_CHANNEL_MAX.
   */
  lemma UnusedConductors()
    ensures forall idx :: 0 <= idx < 4 ==> Used(DirectInputs[idx][0])
    ensures forall idx, cond :: 0 <= idx < 4 && 0 <= cond < 2 ==>
              (!Used(DirectInputs[idx][cond]) <==> idx == 3 && cond == 1)
    ensures DirectInputs[3][1].adc == Adc1ChannelMax
  {
  }

  /**
    The direct loop reads the first seven conductors, in order, and skips
    the eighth: exactly the used ones.
   */
  lemma SevenUsedConductors()
    ensures UsedConductors(8) == seq(7, i => i)
    ensures forall p :: 0 <= p < 8 ==> (p in UsedConductors(8) <==> Used(Conductor(p)))
  {
    assert UsedConductors(4) == [0, 1, 2, 3];
  }

  /**
    Input 18's second conductor is the MUX2 output, and MUX2 channel 8 is
    wired to input 18: conductor B of input 18 is reached through MUX2 CH8.
   */
  lemma Input18BViaMux2Ch8()
    ensures DirectInputs[1][1] == DirectAdc(Mux2OutGpio, Mux2OutAdc)
    ensures Mux2InputMap[8] == 18
    ensures forall ch :: 0 <= ch < 16 && Mux2InputMap[ch] == 18 ==> ch == 8
  {
  }

  /**
    Two direct conductors share an ADC channel with a multiplexer output:
    input 17's A with MUX2's and input 20's A with MUX1's.
   */
  lemma DirectChannelsAliasMuxOutputs()
    ensures DirectInputs[0][0].adc == Mux2OutAdc
    ensures DirectInputs[3][0].adc == Mux1OutAdc
    ensures forall p :: 0 <= p < 8 && Used(Conductor(p)) && Conductor(p).adc in {Mux1OutAdc, Mux2OutAdc}
              ==> p in {0, 3, 6}
  {
  }

  /** The select buses of the two multiplexers are disjoint sets of four pins. */
  lemma SelectBusesDisjoint()
    ensures forall i, j :: 0 <= i < 4 && 0 <= j < 4 ==> Mux1SelectPins[i] != Mux2SelectPins[j]
    ensures forall i, j :: 0 <= i < j < 4 ==> Mux1SelectPins[i] != Mux1SelectPins[j]
    ensures forall i, j :: 0 <= i < j < 4 ==> Mux2SelectPins[i] != Mux2SelectPins[j]
  {
  }
}
