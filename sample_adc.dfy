/**
  The scan sketch of src/main.cpp: selecting a CD74HC4067 channel, the
  ground-conditioned stable read, and one iteration of loop().

  Each operation is specified by a function from the bench state before it
  to the events it adds (and, for reads, the value it returns; for scans,
  the log lines it prints). The class `Board` runs the same operations step
  by step on mutable state and is proved to follow those functions; the
  lemmas state what the functions promise.
 */
module SampleAdc {
  import opened AdcInputMap
  import opened Bench

  /** The channel column of a log line: `MUX<m>_CH<c>` or `GPIO<g>`. */
  datatype Label = MuxLabel(mux: Byte, ch: Byte) | GpioLabel(gpio: Byte)

  /** One diagnostic line: input number, channel label, raw value. */
  datatype LogEntry = LogEntry(input: Byte, source: Label, value: int)

  /** The events a read adds, and the value it returns. */
  datatype Reading = Reading(events: seq<Event>, value: int)

  /** The events a scan adds, and the lines it prints. */
  datatype Scan = Scan(events: seq<Event>, log: seq<LogEntry>)

  /** STEP_DELAY_MS: the pause after each printed line. */
  const StepDelayMs: nat := 250

  // ---------------------------------------------------------------------
  // selectMuxChannel
  // ---------------------------------------------------------------------

  lemma NibbleValue(ch: Byte)
    ensures ((ch as bv8) & 0x0F) as int == ch % 16
  {
  }

  lemma NibbleBits(b: bv8)
    ensures ((b & 0x01) as int) + 2 * (((b & 0x02) >> 1) as int) + 4 * (((b & 0x04) >> 2) as int)
              + 8 * (((b & 0x08) >> 3) as int) == (b & 0x0F) as int
  {
  }

  /**
    s0..s3 of selectMuxChannel: bit k of `ch`, masked and shifted down. Each
    is 0 or 1, and together they address ch % 16: only the low four bits
    of `ch` matter.
   */
  function SelectLevels(ch: Byte): (s: seq<Bit>)
    ensures |s| == 4
    ensures ChannelOf(s) == ch % 16
  {
    var b := ch as bv8;
    NibbleValue(ch);
    NibbleBits(b);
    [(b & 0x01) as int, ((b & 0x02) >> 1) as int, ((b & 0x04) >> 2) as int, ((b & 0x08) >> 3) as int]
  }

  /** Every select pattern is the one its own channel number produces. */
  lemma SelectLevelsRoundTrip(s: seq<Bit>)
    requires |s| == 4
    ensures SelectLevels(ChannelOf(s)) == s
  {
    var t := SelectLevels(ChannelOf(s));
    assert t[0] == s[0] && t[1] == s[1] && t[2] == s[2] && t[3] == s[3];
  }

  /** Two channel numbers drive the same select levels exactly when their low four bits agree. */
  lemma SelectLevelsLowBits(a: Byte, b: Byte)
    ensures SelectLevels(a) == SelectLevels(b) <==> a % 16 == b % 16
  {
    if a % 16 == b % 16 {
      SelectLevelsRoundTrip(SelectLevels(a));
      SelectLevelsRoundTrip(SelectLevels(b));
    }
  }

  /** The multiplexer that `mux` does not drive: selectMuxChannel drives MUX1 for 1 and MUX2 otherwise. */
  function Other(mux: Byte): Byte
  {
    if mux == 1 then 2 else 1
  }

  /** Writes of s[0], s[1], ... to pins[0], pins[1], ..., the first k of them. */
  function SelectWrites(pins: seq<Byte>, s: seq<Bit>, k: nat): seq<Event>
    requires |pins| == 4 && |s| == 4 && k <= 4
  {
    if k == 0 then [] else SelectWrites(pins, s, k - 1) + [Write(pins[k - 1], s[k - 1])]
  }

  /** The digitalWrite calls of selectMuxChannel(mux, ch), S0 first. */
  function SelectEvents(mux: Byte, ch: Byte): seq<Event>
  {
    SelectWrites(SelectPins(mux), SelectLevels(ch), 4)
  }

  lemma {:induction false} SelectWritesShape(pins: seq<Byte>, s: seq<Bit>, k: nat)
    requires |pins| == 4 && |s| == 4 && k <= 4
    ensures var w := SelectWrites(pins, s, k);
      |w| == k && forall i :: 0 <= i < k ==> w[i] == Write(pins[i], s[i])
  {
    if k > 0 {
      SelectWritesShape(pins, s, k - 1);
    }
  }

  /** After the first k writes, the first k pins carry their levels and every other pin is as it was. */
  lemma {:induction false} SelectWritesLevels(levels: map<Byte, Bit>, pins: seq<Byte>, s: seq<Bit>, k: nat)
    requires |pins| == 4 && |s| == 4 && k <= 4
    requires forall i, j :: 0 <= i < j < 4 ==> pins[i] != pins[j]
    ensures var after := Replay(levels, SelectWrites(pins, s, k));
      (forall i :: 0 <= i < k ==> Level(after, pins[i]) == Some(s[i])) &&
      (forall q :: q !in pins[..k] ==> Level(after, q) == Level(levels, q))
  {
    if k > 0 {
      var prev := SelectWrites(pins, s, k - 1);
      SelectWritesLevels(levels, pins, s, k - 1);
      Snoc(levels, prev, Write(pins[k - 1], s[k - 1]));
      assert pins[..k] == pins[..k - 1] + [pins[k - 1]];
    }
  }

  /**
    selectMuxChannel(mux, ch) writes the four select pins of MUX1 when mux
    is 1 and of MUX2 otherwise, S0 first, each with its bit of ch.
   */
  lemma SelectShape(mux: Byte, ch: Byte)
    ensures var w := SelectEvents(mux, ch);
      |w| == 4 && forall i :: 0 <= i < 4 ==> w[i] == Write(SelectPins(mux)[i], SelectLevels(ch)[i])
  {
    SelectWritesShape(SelectPins(mux), SelectLevels(ch), 4);
  }

  /**
    After selectMuxChannel(mux, ch) that multiplexer addresses ch % 16, the
    other one's select lines are as they were, and no conversion happened.
   */
  lemma SelectFacts(levels: map<Byte, Bit>, mux: Byte, ch: Byte)
    ensures var w := SelectEvents(mux, ch);
      var after := Replay(levels, w);
      Samples(levels, w) == [] &&
      MuxChannel(after, SelectPins(mux)) == Some(ch % 16) &&
      Lines(after, SelectPins(Other(mux))) == Lines(levels, SelectPins(Other(mux)))
  {
    var pins, s := SelectPins(mux), SelectLevels(ch);
    SelectBusesDisjoint();
    SelectWritesShape(pins, s, 4);
    NoConversions(levels, SelectEvents(mux, ch));
    SelectWritesLevels(levels, pins, s, 4);
    var after := Replay(levels, SelectEvents(mux, ch));
    var other := SelectPins(Other(mux));
    assert pins[..4] == pins;
    assert forall i :: 0 <= i < 4 ==> other[i] !in pins;
    assert Lines(after, pins) == [Some(s[0]), Some(s[1]), Some(s[2]), Some(s[3])];
    assert [s[0], s[1], s[2], s[3]] == s;
  }

  // ---------------------------------------------------------------------
  // stableRead
  // ---------------------------------------------------------------------

  /**
    stableRead(ch): select MUX1 channel 0, settle 3 us, take the ground
    conversion on MUX1's output and drop it, wait 30 us, take a dummy
    conversion on `ch` and drop it, and return a second conversion on `ch`.
   */
  function StableReading(h: Hw, ch: AdcChannel, oracle: Oracle): Reading
  {
    var selected := SelectEvents(1, 0);
    var settled := selected + [PauseMicros(3)];
    var ground := oracle(Run(h, settled), Mux1OutAdc);
    var grounded := settled + [Conversion(Mux1OutAdc, ground)];
    var bled := grounded + [PauseMicros(30)];
    var dummy := oracle(Run(h, bled), ch);
    var primed := bled + [Conversion(ch, dummy)];
    var v := oracle(Run(h, primed), ch);
    Reading(primed + [Conversion(ch, v)], v)
  }

  /**
    The stable read's actions, in order: MUX1's select pins driven to
    channel 0, the 3 us settle, the ground conversion on MUX1's output, the
    30 us bleed, then two conversions on `ch`; the value returned is the
    last conversion's.
   */
  lemma StableReadingTrace(h: Hw, ch: AdcChannel, oracle: Oracle)
    ensures var r := StableReading(h, ch, oracle);
      var e := r.events;
      |e| == 9 &&
      e[..4] == SelectEvents(1, 0) &&
      e[4] == PauseMicros(3) && e[5].Conversion? && e[5].channel == Mux1OutAdc &&
      e[6] == PauseMicros(30) && e[7].Conversion? && e[7].channel == ch &&
      e[8] == Conversion(ch, r.value)
  {
    SelectShape(1, 0);
    var e := StableReading(h, ch, oracle).events;
    assert e[..4] == SelectEvents(1, 0);
  }

  /**
    The three conversions of a stable read of `ch`: the ground sample on
    MUX1's output, then two on `ch`, all while MUX1 addresses channel 0 and
    MUX2 addresses `m2`.
   */
  predicate StableSampled(t: seq<Sample>, ch: AdcChannel, m2: Option<nat>)
  {
    |t| == 3 &&
    t[0].channel == Mux1OutAdc && t[1].channel == ch && t[2].channel == ch &&
    forall i :: 0 <= i < 3 ==> t[i].select1 == Some(0) && t[i].select2 == m2
  }

  /**
    The stable read takes exactly three conversions, as `StableSampled`
    says, with MUX2 addressing whatever it did before; the value returned
    is the third's, so the ground sample and the dummy are dropped.
   */
  lemma StableReadingSamples(h: Hw, ch: AdcChannel, oracle: Oracle)
    ensures var r := StableReading(h, ch, oracle);
      var s := Samples(h.levels, r.events);
      StableSampled(s, ch, MuxChannel(h.levels, Mux2SelectPins)) && s[2].value == r.value
  {
    var l := h.levels;
    var selected := SelectEvents(1, 0);
    var ground := oracle(Run(h, selected + [PauseMicros(3)]), Mux1OutAdc);
    var bled := selected + [PauseMicros(3)] + [Conversion(Mux1OutAdc, ground)] + [PauseMicros(30)];
    var dummy := oracle(Run(h, bled), ch);
    var v := oracle(Run(h, bled + [Conversion(ch, dummy)]), ch);
    SelectFacts(l, 1, 0);
    StableTail(l, selected, ch, ground, dummy, v);
  }

  /** After a stable read MUX1 addresses channel 0 and MUX2's select lines are as they were. */
  lemma StableReadingAfter(h: Hw, ch: AdcChannel, oracle: Oracle)
    ensures var after := Replay(h.levels, StableReading(h, ch, oracle).events);
      MuxChannel(after, Mux1SelectPins) == Some(0) &&
      Lines(after, Mux2SelectPins) == Lines(h.levels, Mux2SelectPins) &&
      MuxChannel(after, Mux2SelectPins) == MuxChannel(h.levels, Mux2SelectPins)
  {
    var l := h.levels;
    var selected := SelectEvents(1, 0);
    var ground := oracle(Run(h, selected + [PauseMicros(3)]), Mux1OutAdc);
    var bled := selected + [PauseMicros(3)] + [Conversion(Mux1OutAdc, ground)] + [PauseMicros(30)];
    var dummy := oracle(Run(h, bled), ch);
    var v := oracle(Run(h, bled + [Conversion(ch, dummy)]), ch);
    SelectFacts(l, 1, 0);
    StableTail(l, selected, ch, ground, dummy, v);
  }

  // ---------------------------------------------------------------------
  // loop
  // ---------------------------------------------------------------------

  /** The channel multiplexer `mux` addressed when the sample was taken. */
  function Addressed(s: Sample, mux: Byte): Option<nat>
  {
    if mux == 1 then s.select1 else s.select2
  }

  /** One multiplexer channel: select it, settle 3 us, one raw conversion on the mux output, print, wait. */
  function MuxStep(h: Hw, mux: Byte, ch: Byte, oracle: Oracle): Scan
    requires ch < 16
  {
    var selected := SelectEvents(mux, ch);
    var settled := selected + [PauseMicros(3)];
    var v := oracle(Run(h, settled), MuxOutAdc(mux));
    var converted := settled + [Conversion(MuxOutAdc(mux), v)];
    Scan(converted + [PauseMillis(StepDelayMs)], [LogEntry(InputMap(mux)[ch], MuxLabel(mux, ch), v)])
  }

  /** Channels 0 .. k - 1 of multiplexer `mux`, in order. */
  function MuxScan(h: Hw, mux: Byte, k: nat, oracle: Oracle): Scan
    requires k <= 16
  {
    if k == 0 then Scan([], [])
    else
      var prev := MuxScan(h, mux, k - 1, oracle);
      var step := MuxStep(Run(h, prev.events), mux, k - 1, oracle);
      Scan(prev.events + step.events, prev.log + step.log)
  }

  /** A conversion on `mux`'s output, taken while `mux` addressed `ch` and the other multiplexer addressed `other`. */
  predicate MuxSampleAt(s: Sample, mux: Byte, ch: nat, other: Option<nat>)
  {
    s.channel == MuxOutAdc(mux) && Addressed(s, mux) == Some(ch) && Addressed(s, Other(mux)) == other
  }

  /**
    One multiplexer step takes a single conversion, on the mux output while
    the mux addresses `ch` and the other multiplexer addresses what it did
    before, and prints it under the channel's input number and label.
   */
  lemma MuxStepSamples(h: Hw, mux: Byte, ch: Byte, oracle: Oracle)
    requires ch < 16
    ensures var r := MuxStep(h, mux, ch, oracle);
      var s := Samples(h.levels, r.events);
      |s| == 1 &&
      MuxSampleAt(s[0], mux, ch, MuxChannel(h.levels, SelectPins(Other(mux)))) &&
      r.log == [LogEntry(InputMap(mux)[ch], MuxLabel(mux, ch), s[0].value)]
  {
    var selected := SelectEvents(mux, ch);
    var v := oracle(Run(h, selected + [PauseMicros(3)]), MuxOutAdc(mux));
    SelectFacts(h.levels, mux, ch);
    MuxStepTail(h.levels, selected, MuxOutAdc(mux), v, StepDelayMs);
  }

  /** After one multiplexer step the mux addresses `ch`; the other multiplexer's select lines are untouched. */
  lemma MuxStepAfter(h: Hw, mux: Byte, ch: Byte, oracle: Oracle)
    requires ch < 16
    ensures var after := Replay(h.levels, MuxStep(h, mux, ch, oracle).events);
      MuxChannel(after, SelectPins(mux)) == Some(ch) &&
      Lines(after, SelectPins(Other(mux))) == Lines(h.levels, SelectPins(Other(mux)))
  {
    var selected := SelectEvents(mux, ch);
    var v := oracle(Run(h, selected + [PauseMicros(3)]), MuxOutAdc(mux));
    SelectFacts(h.levels, mux, ch);
    MuxStepTail(h.levels, selected, MuxOutAdc(mux), v, StepDelayMs);
  }

  /** After scanning channels 0 .. k - 1, `mux` addresses channel k - 1 and the other multiplexer's select lines are untouched. */
  lemma {:induction false} MuxScanAfter(h: Hw, mux: Byte, k: nat, oracle: Oracle)
    requires k <= 16
    ensures var after := Replay(h.levels, MuxScan(h, mux, k, oracle).events);
      (k > 0 ==> MuxChannel(after, SelectPins(mux)) == Some(k - 1)) &&
      Lines(after, SelectPins(Other(mux))) == Lines(h.levels, SelectPins(Other(mux)))
  {
    if k > 0 {
      var prev := MuxScan(h, mux, k - 1, oracle);
      var mid := Run(h, prev.events);
      var step := MuxStep(mid, mux, k - 1, oracle);
      assert MuxScan(h, mux, k, oracle).events == prev.events + step.events;
      MuxScanAfter(h, mux, k - 1, oracle);
      MuxStepAfter(mid, mux, k - 1, oracle);
      Append(h.levels, prev.events, step.events);
    }
  }

  /**
    The samples and log lines of a scan of channels 0 .. k - 1 of `mux`:
    one conversion and one line per channel, in channel order. Conversion c
    is on the mux output while the mux addressed c and the other
    multiplexer addressed `other`; line c names the input the lookup table
    gives for c, its MUX label and conversion c's value.
   */
  predicate MuxScanned(s: seq<Sample>, log: seq<LogEntry>, mux: Byte, k: nat, other: Option<nat>)
    requires k <= 16
  {
    |s| == k && |log| == k &&
    forall c :: 0 <= c < k ==>
      MuxSampleAt(s[c], mux, c, other) &&
      log[c] == LogEntry(InputMap(mux)[c], MuxLabel(mux, c), s[c].value)
  }

  lemma MuxScannedExtend(s: seq<Sample>, log: seq<LogEntry>, t: seq<Sample>, line: seq<LogEntry>,
                         mux: Byte, k: nat, other: Option<nat>)
    requires k < 16
    requires MuxScanned(s, log, mux, k, other)
    requires |t| == 1 && MuxSampleAt(t[0], mux, k, other)
    requires line == [LogEntry(InputMap(mux)[k], MuxLabel(mux, k), t[0].value)]
    ensures MuxScanned(s + t, log + line, mux, k + 1, other)
  {
    assert forall c :: 0 <= c < k ==> (s + t)[c] == s[c] && (log + line)[c] == log[c];
  }

  /**
    Scanning channels 0 .. k - 1 of `mux` takes one conversion and prints
    one line per channel, in channel order (see `MuxScanned`), while the
    other multiplexer keeps addressing what it did before the scan.
   */
  lemma {:induction false} MuxScanFacts(h: Hw, mux: Byte, k: nat, oracle: Oracle)
    requires k <= 16
    ensures var r := MuxScan(h, mux, k, oracle);
      MuxScanned(Samples(h.levels, r.events), r.log, mux, k, MuxChannel(h.levels, SelectPins(Other(mux))))
  {
    if k > 0 {
      var prev := MuxScan(h, mux, k - 1, oracle);
      var mid := Run(h, prev.events);
      var step := MuxStep(mid, mux, k - 1, oracle);
      var other := MuxChannel(h.levels, SelectPins(Other(mux)));
      MuxScanFacts(h, mux, k - 1, oracle);
      MuxScanAfter(h, mux, k - 1, oracle);
      MuxStepSamples(mid, mux, k - 1, oracle);
      Append(h.levels, prev.events, step.events);
      assert MuxChannel(mid.levels, SelectPins(Other(mux))) == other;
      MuxScannedExtend(Samples(h.levels, prev.events), prev.log, Samples(mid.levels, step.events), step.log,
                       mux, k - 1, other);
    }
  }

  /**
    Conductor p of the direct table (input 17 + ConductorRow[p], conductor ConductorCol[p]):
    skipped when its GPIO is 255; otherwise MUX2 channel 8 is selected
    first for input 18's second conductor, then a stable read on the
    conductor's ADC channel is printed under its GPIO, then a wait.
   */
  function DirectStep(h: Hw, p: nat, oracle: Oracle): Scan
    requires p < 8
  {
    var idx := ConductorRow[p];
    var cond := ConductorCol[p];
    var inputNum: Byte := 17 + idx;
    var c := Conductor(p);
    if c.gpio == UnusedGpio then Scan([], [])
    else
      var pre := if inputNum == 18 && cond == 1 then SelectEvents(2, 8) + [PauseMicros(3)] else [];
      var rd := StableReading(Run(h, pre), c.adc, oracle);
      Scan(pre + rd.events + [PauseMillis(StepDelayMs)], [LogEntry(inputNum, GpioLabel(c.gpio), rd.value)])
  }

  /** Conductors 0 .. k - 1 of the direct table, row by row. */
  function DirectScan(h: Hw, k: nat, oracle: Oracle): Scan
    requires k <= 8
  {
    if k == 0 then Scan([], [])
    else
      var prev := DirectScan(h, k - 1, oracle);
      var step := DirectStep(Run(h, prev.events), k - 1, oracle);
      Scan(prev.events + step.events, prev.log + step.log)
  }

  /** What MUX2 addresses during conductor p's read, given what it addressed before the direct scan. */
  function Mux2During(before: Option<nat>, p: nat): Option<nat>
  {
    if p >= Input18B then Some(8) else before
  }

  /** The events and line of one used conductor p: its stable read's three samples with MUX2 at `m2`, and its line. */
  predicate DirectRead(t: seq<Sample>, line: LogEntry, p: nat, m2: Option<nat>)
    requires p < 8
  {
    StableSampled(t, Conductor(p).adc, m2) &&
    line == LogEntry(17 + ConductorRow[p], GpioLabel(Conductor(p).gpio), t[2].value)
  }

  /** The direct loop's test for input 18's second conductor holds for conductor Input18B alone. */
  lemma SecondConductorOf18(p: nat)
    requires p < 8
    ensures (17 + ConductorRow[p] == 18 && ConductorCol[p] == 1) <==> p == Input18B
  {
  }

  /** Selecting MUX2 channel 8 and settling takes no conversion and leaves MUX2 at channel 8. */
  lemma Mux2Ch8Selected(l: map<Byte, Bit>)
    ensures var pre := SelectEvents(2, 8) + [PauseMicros(3)];
      Samples(l, pre) == [] && MuxChannel(Replay(l, pre), Mux2SelectPins) == Some(8)
  {
    SelectFacts(l, 2, 8);
    SnocPause(l, SelectEvents(2, 8), PauseMicros(3));
  }

  /**
    Conductor p's step: nothing at all for an unused conductor; otherwise a
    stable read of its ADC channel, with MUX2 at channel 8 for input 18's
    second conductor and where it was for the others, and one line naming
    input 17 + ConductorRow[p] and the conductor's GPIO with the read's value.
   */
  lemma DirectStepSamples(h: Hw, p: nat, oracle: Oracle)
    requires p < 8
    ensures var r := DirectStep(h, p, oracle);
      var s := Samples(h.levels, r.events);
      var m2 := if p == Input18B then Some(8) else MuxChannel(h.levels, Mux2SelectPins);
      (!Used(Conductor(p)) ==> r.events == [] && r.log == [] && s == []) &&
      (Used(Conductor(p)) ==> |r.log| == 1 && DirectRead(s, r.log[0], p, m2))
  {
    var c := Conductor(p);
    SecondConductorOf18(p);
    if Used(c) {
      var l := h.levels;
      var pre := if p == Input18B then SelectEvents(2, 8) + [PauseMicros(3)] else [];
      var mid := Run(h, pre);
      var rd := StableReading(mid, c.adc, oracle);
      if p == Input18B {
        Mux2Ch8Selected(l);
      } else {
        assert Replay(l, pre) == l && Samples(l, pre) == [];
      }
      StableReadingSamples(mid, c.adc, oracle);
      Framed(l, pre, rd.events, StepDelayMs);
    }
  }

  /** After conductor p's step MUX2 addresses channel 8 if p is input 18's second conductor, and what it did before otherwise. */
  lemma DirectStepAfter(h: Hw, p: nat, oracle: Oracle)
    requires p < 8
    ensures var after := Replay(h.levels, DirectStep(h, p, oracle).events);
      MuxChannel(after, Mux2SelectPins) == if p == Input18B then Some(8) else MuxChannel(h.levels, Mux2SelectPins)
  {
    var c := Conductor(p);
    SecondConductorOf18(p);
    if Used(c) {
      var l := h.levels;
      var pre := if p == Input18B then SelectEvents(2, 8) + [PauseMicros(3)] else [];
      var mid := Run(h, pre);
      var rd := StableReading(mid, c.adc, oracle);
      if p == Input18B {
        Mux2Ch8Selected(l);
      } else {
        assert Replay(l, pre) == l && Samples(l, pre) == [];
      }
      StableReadingAfter(mid, c.adc, oracle);
      Framed(l, pre, rd.events, StepDelayMs);
    }
  }

  /** After the direct scan of conductors 0 .. k - 1, MUX2 addresses channel 8 once input 18's second conductor has been read. */
  lemma {:induction false} DirectScanAfter(h: Hw, k: nat, oracle: Oracle)
    requires k <= 8
    ensures var after := Replay(h.levels, DirectScan(h, k, oracle).events);
      MuxChannel(after, Mux2SelectPins) == if k > Input18B then Some(8) else MuxChannel(h.levels, Mux2SelectPins)
  {
    if k > 0 {
      var prev := DirectScan(h, k - 1, oracle);
      var mid := Run(h, prev.events);
      var step := DirectStep(mid, k - 1, oracle);
      DirectScanAfter(h, k - 1, oracle);
      DirectStepAfter(mid, k - 1, oracle);
      Append(h.levels, prev.events, step.events);
    }
  }

  /**
    The samples and log lines of the direct scan of conductors 0 .. k - 1,
    MUX2 having addressed `m2` before it: one line and three samples per
    used conductor, in table order, the j-th used conductor p's line
    being line j and its samples the three from 3 * j, taken with MUX2 at
    `Mux2During(m2, p)`.
   */
  predicate DirectScanned(s: seq<Sample>, log: seq<LogEntry>, k: nat, m2: Option<nat>)
    requires k <= 8
  {
    var ps := UsedConductors(k);
    |log| == |ps| && |s| == 3 * |ps| &&
    forall j :: 0 <= j < |ps| ==> DirectRead(s[3 * j..3 * j + 3], log[j], ps[j], Mux2During(m2, ps[j]))
  }

  lemma SliceOfAppend<T>(s: seq<T>, t: seq<T>, i: nat, j: nat)
    requires i <= j <= |s|
    ensures (s + t)[i..j] == s[i..j]
  {
  }

  lemma DirectScannedExtend(s: seq<Sample>, log: seq<LogEntry>, t: seq<Sample>, line: seq<LogEntry>,
                            k: nat, m2: Option<nat>)
    requires k < 8
    requires DirectScanned(s, log, k, m2)
    requires !Used(Conductor(k)) ==> t == [] && line == []
    requires Used(Conductor(k)) ==> |line| == 1 && DirectRead(t, line[0], k, Mux2During(m2, k))
    ensures DirectScanned(s + t, log + line, k + 1, m2)
  {
    var ps, ps' := UsedConductors(k), UsedConductors(k + 1);
    var s', log' := s + t, log + line;
    assert |ps'| == |ps| + |line| && |t| == 3 * |line|;
    forall j | 0 <= j < |ps'|
      ensures DirectRead(s'[3 * j..3 * j + 3], log'[j], ps'[j], Mux2During(m2, ps'[j]))
    {
      if j < |ps| {
        assert ps'[j] == ps[j] && log'[j] == log[j];
        SliceOfAppend(s, t, 3 * j, 3 * j + 3);
      } else {
        assert ps'[j] == k && log'[j] == line[0];
        assert s'[3 * j..3 * j + 3] == t;
      }
    }
  }

  /**
    Scanning conductors 0 .. k - 1 of the direct table prints one line per
    used conductor and none for a conductor whose GPIO is 255, each from a
    stable read of the conductor's ADC channel (see `DirectScanned`); MUX2
    is at channel 8 from input 18's second conductor on.
   */
  lemma {:induction false} DirectScanFacts(h: Hw, k: nat, oracle: Oracle)
    requires k <= 8
    ensures var r := DirectScan(h, k, oracle);
      DirectScanned(Samples(h.levels, r.events), r.log, k, MuxChannel(h.levels, Mux2SelectPins))
  {
    if k > 0 {
      var prev := DirectScan(h, k - 1, oracle);
      var mid := Run(h, prev.events);
      var step := DirectStep(mid, k - 1, oracle);
      var m2 := MuxChannel(h.levels, Mux2SelectPins);
      DirectScanFacts(h, k - 1, oracle);
      DirectScanAfter(h, k - 1, oracle);
      assert MuxChannel(mid.levels, Mux2SelectPins) == if k - 1 > Input18B then Some(8) else m2;
      DirectStepSamples(mid, k - 1, oracle);
      Append(h.levels, prev.events, step.events);
      var sp, ss := Samples(h.levels, prev.events), Samples(mid.levels, step.events);
      assert Replay(h.levels, prev.events) == mid.levels;
      assert (if k - 1 == 3 then Some(8) else MuxChannel(mid.levels, Mux2SelectPins)) == Mux2During(m2, k - 1);
      assert !Used(Conductor(k - 1)) ==> ss == [] && step.log == [];
      assert Used(Conductor(k - 1)) ==> |step.log| == 1 && DirectRead(ss, step.log[0], k - 1, Mux2During(m2, k - 1));
      var r := DirectScan(h, k, oracle);
      assert r.events == prev.events + step.events && r.log == prev.log + step.log;
      assert Samples(h.levels, r.events) == sp + ss;
      DirectScannedExtend(sp, prev.log, ss, step.log, k - 1, m2);
    }
  }

  /** The full direct scan's j-th read is conductor j's, since conductors 0 .. 6 are the used ones. */
  lemma DirectScannedAt(s: seq<Sample>, log: seq<LogEntry>, m2: Option<nat>, j: nat)
    requires DirectScanned(s, log, 8, m2) && j < 7
    ensures DirectRead(s[3 * j..3 * j + 3], log[j], j, Mux2During(m2, j))
  {
    SevenUsedConductors();
    assert UsedConductors(8)[j] == j;
  }

  /** One iteration of loop(): MUX1 channels 0..15, MUX2 channels 0..15, then the direct table. */
  function LoopScan(h: Hw, oracle: Oracle): Scan
  {
    var m1 := MuxScan(h, 1, 16, oracle);
    var m2 := MuxScan(Run(h, m1.events), 2, 16, oracle);
    var d := DirectScan(Run(h, m1.events + m2.events), 8, oracle);
    Scan(m1.events + m2.events + d.events, m1.log + m2.log + d.log)
  }

  /**
    The samples and lines of one loop() iteration: 16 lines for MUX1's
    channels in channel order, taken while MUX2 addressed `m2`; then 16 for
    MUX2's, taken while MUX1 stayed at channel 15; then one per used direct
    conductor in table order, the direct scan starting with MUX2 at
    channel 15. That is 39 lines from 53 conversions.
   */
  predicate LoopScanned(s: seq<Sample>, log: seq<LogEntry>, m2: Option<nat>)
  {
    |log| == 39 && |s| == 53 &&
    MuxScanned(s[..16], log[..16], 1, 16, m2) &&
    MuxScanned(s[16..32], log[16..32], 2, 16, Some(15)) &&
    DirectScanned(s[32..], log[32..], 8, Some(15))
  }

  lemma LoopScannedCompose(s1: seq<Sample>, s2: seq<Sample>, s3: seq<Sample>,
                           l1: seq<LogEntry>, l2: seq<LogEntry>, l3: seq<LogEntry>, m2: Option<nat>)
    requires MuxScanned(s1, l1, 1, 16, m2)
    requires MuxScanned(s2, l2, 2, 16, Some(15))
    requires DirectScanned(s3, l3, 8, Some(15))
    ensures LoopScanned(s1 + s2 + s3, l1 + l2 + l3, m2)
  {
    SevenUsedConductors();
    var s, log := s1 + s2 + s3, l1 + l2 + l3;
    assert s[..16] == s1 && s[16..32] == s2 && s[32..] == s3;
    assert log[..16] == l1 && log[16..32] == l2 && log[32..] == l3;
  }

  /** One iteration of loop() prints and samples as `LoopScanned` says. */
  lemma LoopScanFacts(h: Hw, oracle: Oracle)
    ensures var r := LoopScan(h, oracle);
      LoopScanned(Samples(h.levels, r.events), r.log, MuxChannel(h.levels, Mux2SelectPins))
  {
    var m1 := MuxScan(h, 1, 16, oracle);
    var h1 := Run(h, m1.events);
    var m2 := MuxScan(h1, 2, 16, oracle);
    var h2 := Run(h, m1.events + m2.events);
    var d := DirectScan(h2, 8, oracle);
    var s1, s2, s3 := Samples(h.levels, m1.events), Samples(h1.levels, m2.events), Samples(h2.levels, d.events);
    MuxScanFacts(h, 1, 16, oracle);
    MuxScanAfter(h, 1, 16, oracle);
    MuxScanFacts(h1, 2, 16, oracle);
    MuxScanAfter(h1, 2, 16, oracle);
    Append(h.levels, m1.events, m2.events);
    Append(h.levels, m1.events + m2.events, d.events);
    assert h2.levels == Replay(h1.levels, m2.events);
    DirectScanFacts(h2, 8, oracle);
    var r := LoopScan(h, oracle);
    assert r.events == m1.events + m2.events + d.events && r.log == m1.log + m2.log + d.log;
    assert Samples(h.levels, r.events) == s1 + s2 + s3;
    LoopScannedCompose(s1, s2, s3, m1.log, m2.log, d.log, MuxChannel(h.levels, Mux2SelectPins));
  }

  /**
    The multiplexer part of an iteration, line by line: line c (c < 16) is
    MUX1 channel c's and line 16 + c is MUX2 channel c's, each with the
    input number its lookup table gives and the value of the one conversion
    taken on that multiplexer's output while it addressed channel c.
   */
  lemma LoopMuxLines(s: seq<Sample>, log: seq<LogEntry>, m2: Option<nat>)
    requires LoopScanned(s, log, m2)
    ensures forall i :: 0 <= i < 16 ==>
      log[i] == LogEntry(Mux1InputMap[i], MuxLabel(1, i), s[i].value) &&
      s[i].channel == Mux1OutAdc && s[i].select1 == Some(i) && s[i].select2 == m2
    ensures forall i :: 16 <= i < 32 ==>
      log[i] == LogEntry(Mux2InputMap[i - 16], MuxLabel(2, i - 16), s[i].value) &&
      s[i].channel == Mux2OutAdc && s[i].select2 == Some(i - 16) && s[i].select1 == Some(15)
  {
    var a, b := s[..16], s[16..32];
    var la, lb := log[..16], log[16..32];
    forall i | 0 <= i < 16
      ensures log[i] == LogEntry(Mux1InputMap[i], MuxLabel(1, i), s[i].value)
      ensures s[i].channel == Mux1OutAdc && s[i].select1 == Some(i) && s[i].select2 == m2
    {
      assert MuxSampleAt(a[i], 1, i, m2) && la[i] == LogEntry(InputMap(1)[i], MuxLabel(1, i), a[i].value);
      assert a[i] == s[i] && la[i] == log[i];
    }
    forall i | 16 <= i < 32
      ensures log[i] == LogEntry(Mux2InputMap[i - 16], MuxLabel(2, i - 16), s[i].value)
      ensures s[i].channel == Mux2OutAdc && s[i].select2 == Some(i - 16) && s[i].select1 == Some(15)
    {
      var c := i - 16;
      assert MuxSampleAt(b[c], 2, c, Some(15)) && lb[c] == LogEntry(InputMap(2)[c], MuxLabel(2, c), b[c].value);
      assert b[c] == s[i] && lb[c] == log[i];
    }
  }

  /**
    The direct part of an iteration, conductor by conductor: the j-th
    direct line (j < 7) is conductor j's, from a stable read whose three
    conversions were all taken with MUX1 at channel 0, and with MUX2 at
    channel 15 for input 17's two conductors and input 18's first, at
    channel 8 from input 18's second conductor on.
   */
  lemma LoopDirectLines(s: seq<Sample>, log: seq<LogEntry>, m2: Option<nat>)
    requires LoopScanned(s, log, m2)
    ensures forall j :: 0 <= j < 7 ==>
      DirectRead(s[32 + 3 * j..35 + 3 * j], log[32 + j], j, if j < 3 then Some(15) else Some(8))
  {
    var s3, log3 := s[32..], log[32..];
    assert DirectScanned(s3, log3, 8, Some(15));
    forall j | 0 <= j < 7
      ensures DirectRead(s[32 + 3 * j..35 + 3 * j], log[32 + j], j, if j < 3 then Some(15) else Some(8))
    {
      DirectScannedAt(s3, log3, Some(15), j);
      assert s3[3 * j..3 * j + 3] == s[32 + 3 * j..35 + 3 * j];
    }
  }

  /**
    Input 18's second conductor is read through MUX2 while MUX2 addresses
    channel 8, the channel whose lookup entry is input 18. Its line is
    32 + Input18B = 35 and its samples 32 + 3 * Input18B = 41 .. 43.
   */
  lemma Input18BReadThroughMux2Ch8(s: seq<Sample>, log: seq<LogEntry>, m2: Option<nat>)
    requires LoopScanned(s, log, m2)
    ensures log[35].input == 18 && log[35].source == GpioLabel(Mux2OutGpio) && log[35].value == s[43].value
    ensures s[42].channel == Mux2OutAdc && s[43].channel == Mux2OutAdc
    ensures s[42].select2 == Some(8) && s[43].select2 == Some(8) && Mux2InputMap[8] == 18
  {
    LoopDirectLines(s, log, m2);
    var t := s[41..44];
    assert s[32 + 3 * Input18B..35 + 3 * Input18B] == t && log[32 + Input18B] == log[35];
    assert DirectRead(t, log[35], Input18B, Some(8));
    assert t[1] == s[42] && t[2] == s[43];
  }

  /**
    The direct channel listed for input 17's first conductor is MUX2's
    output channel and the one for input 20's first is MUX1's: their reads
    are conversions on a multiplexer output while MUX2 addresses channel 15
    and MUX1 channel 0 respectively.
   */
  lemma DirectReadsOnMuxOutputs(s: seq<Sample>, log: seq<LogEntry>, m2: Option<nat>)
    requires LoopScanned(s, log, m2)
    ensures s[33].channel == Mux2OutAdc && s[34].channel == Mux2OutAdc && s[34].select2 == Some(15)
    ensures s[51].channel == Mux1OutAdc && s[52].channel == Mux1OutAdc && s[52].select1 == Some(0)
  {
    var s3, log3 := s[32..], log[32..];
    DirectScannedAt(s3, log3, Some(15), 0);
    DirectScannedAt(s3, log3, Some(15), 6);
    var t, u := s3[0..3], s3[18..21];
    assert DirectRead(t, log3[0], 0, Some(15));
    assert DirectRead(u, log3[6], 6, Some(8));
    assert t[1] == s[33] && t[2] == s[34] && u[1] == s[51] && u[2] == s[52];
  }
}
