/**
  The sketch of src/main.cpp run step by step. A `Board` holds what the
  sketch changes as it runs: the levels of the pins it has written, the
  trace of every hardware action, and the lines printed on the serial
  port. Its methods are the sketch's functions, built from primitives that
  stand for the Arduino and ESP32 calls; each is proved to do exactly what
  the matching function of `SampleAdc` says, so every lemma there about
  selections, stable reads and scans holds for the board.
 */
module Sketch {
  import opened AdcInputMap
  import opened Bench
  import opened SampleAdc

  class Board {
    var levels: map<Byte, Bit>
    var trace: seq<Event>
    var log: seq<LogEntry>
    /** What adc1_get_raw returns in each bench state. */
    const oracle: Oracle

    function State(): Hw
      reads this
    {
      Hw(levels, trace)
    }

    /** A board on which nothing has been written, done or printed yet. */
    constructor(oracle: Oracle)
      ensures State() == Hw(map[], []) && log == [] && this.oracle == oracle
    {
      levels, trace, log := map[], [], [];
      this.oracle := oracle;
    }

    /** digitalWrite(pin, level). */
    method DigitalWrite(pin: Byte, level: Bit)
      modifies this
      ensures State() == Run(old(State()), [Write(pin, level)]) && log == old(log)
    {
      Snoc(levels, [], Write(pin, level));
      assert [] + [Write(pin, level)] == [Write(pin, level)];
      levels := levels[pin := level];
      trace := trace + [Write(pin, level)];
    }

    /** delayMicroseconds(us) and ets_delay_us(us). */
    method DelayMicroseconds(us: nat)
      modifies this
      ensures State() == Run(old(State()), [PauseMicros(us)]) && log == old(log)
    {
      Snoc(levels, [], PauseMicros(us));
      assert [] + [PauseMicros(us)] == [PauseMicros(us)];
      trace := trace + [PauseMicros(us)];
    }

    /** delay(ms). */
    method Delay(ms: nat)
      modifies this
      ensures State() == Run(old(State()), [PauseMillis(ms)]) && log == old(log)
    {
      Snoc(levels, [], PauseMillis(ms));
      assert [] + [PauseMillis(ms)] == [PauseMillis(ms)];
      trace := trace + [PauseMillis(ms)];
    }

    /** adc1_get_raw(ch): one conversion, whose value the oracle gives for the state before it. */
    method AdcGetRaw(ch: AdcChannel) returns (v: int)
      modifies this
      ensures v == oracle(old(State()), ch)
      ensures State() == Run(old(State()), [Conversion(ch, v)]) && log == old(log)
    {
      v := oracle(State(), ch);
      Snoc(levels, [], Conversion(ch, v));
      assert [] + [Conversion(ch, v)] == [Conversion(ch, v)];
      trace := trace + [Conversion(ch, v)];
    }

    /** Serial.printf of one line. */
    method Print(line: LogEntry)
      modifies this
      ensures State() == old(State()) && log == old(log) + [line]
    {
      log := log + [line];
    }

    /**
      selectMuxChannel(mux, ch): bits 0..3 of `ch`, masked and shifted
      down, written to S0..S3 of MUX1 when `mux` is 1 and of MUX2 otherwise.
     */
    method SelectMuxChannel(mux: Byte, ch: Byte)
      modifies this
      ensures State() == Run(old(State()), SelectEvents(mux, ch)) && log == old(log)
    {
      var b := ch as bv8;
      var s0: Bit := (b & 0x01) as int;
      var s1: Bit := ((b & 0x02) >> 1) as int;
      var s2: Bit := ((b & 0x04) >> 2) as int;
      var s3: Bit := ((b & 0x08) >> 3) as int;
      ghost var h0 := State();
      ghost var s := SelectLevels(ch);
      assert s == [s0, s1, s2, s3];
      if mux == 1 {
        DigitalWrite(Mux1SelectPins[0], s0);
        DigitalWrite(Mux1SelectPins[1], s1);
        DigitalWrite(Mux1SelectPins[2], s2);
        DigitalWrite(Mux1SelectPins[3], s3);
      } else {
        DigitalWrite(Mux2SelectPins[0], s0);
        DigitalWrite(Mux2SelectPins[1], s1);
        DigitalWrite(Mux2SelectPins[2], s2);
        DigitalWrite(Mux2SelectPins[3], s3);
      }
      RunSelectWrites(h0, SelectPins(mux), s);
    }

    /**
      stableRead(ch): select MUX1 channel 0, settle, take the ground
      conversion on MUX1's output, bleed for 30 us, take a dummy conversion
      on `ch`, and return a second one.
     */
    method StableRead(ch: AdcChannel) returns (v: int)
      modifies this
      ensures var r := StableReading(old(State()), ch, oracle);
        v == r.value && State() == Run(old(State()), r.events) && log == old(log)
    {
      ghost var h0 := State();
      SelectMuxChannel(1, 0);
      ghost var done := SelectEvents(1, 0);
      DelayMicroseconds(3);
      RunAppend(h0, done, [PauseMicros(3)]);
      done := done + [PauseMicros(3)];
      var ground := AdcGetRaw(Mux1OutAdc);
      RunAppend(h0, done, [Conversion(Mux1OutAdc, ground)]);
      done := done + [Conversion(Mux1OutAdc, ground)];
      DelayMicroseconds(30);
      RunAppend(h0, done, [PauseMicros(30)]);
      done := done + [PauseMicros(30)];
      var dummy := AdcGetRaw(ch);
      RunAppend(h0, done, [Conversion(ch, dummy)]);
      done := done + [Conversion(ch, dummy)];
      v := AdcGetRaw(ch);
      RunAppend(h0, done, [Conversion(ch, v)]);
    }

    /**
      One pass of the inner direct loop, for conductor `cond` of input
      `inputNum` = 17 + `idx`: nothing when its GPIO is 255; otherwise MUX2
      channel 8 selected and settled first for input 18's second conductor,
      then a stable read of the conductor's ADC channel, printed under its
      GPIO, and a wait.
     */
    method ReadDirectInput(idx: Byte, cond: Byte, inputNum: Byte)
      requires idx < 4 && cond < 2 && inputNum == 17 + idx
      modifies this
      ensures var step := DirectStep(old(State()), 2 * idx + cond, oracle);
        State() == Run(old(State()), step.events) && log == old(log) + step.log
    {
      ghost var before := State();
      DirectInputsShape();
      var gpio := DirectInputs[idx][cond].gpio;
      if gpio == 255 {
        SkippedConductorDone(before, idx, cond, oracle);
        return;
      }
      var adcCh := DirectInputs[idx][cond].adc;
      ghost var pre: seq<Event> := [];
      if inputNum == 18 && cond == 1 {
        SelectMuxChannel(2, 8);
        DelayMicroseconds(3);
        RunAppend(before, SelectEvents(2, 8), [PauseMicros(3)]);
        pre := SelectEvents(2, 8) + [PauseMicros(3)];
      } else {
        NoEvents(before);
      }
      var val := StableRead(adcCh);
      Print(LogEntry(inputNum, GpioLabel(gpio), val));
      Delay(StepDelayMs);
      UsedConductorDone(before, idx, cond, pre, val, oracle);
    }

    /**
      One of loop()'s multiplexer sections: channels 0..15 of `mux`, each
      selected, settled, converted once on the mux output, printed with the
      input the lookup table names, and followed by a wait.
     */
    method ScanMux(mux: Byte)
      modifies this
      ensures var r := MuxScan(old(State()), mux, 16, oracle);
        State() == Run(old(State()), r.events) && log == old(log) + r.log
    {
      ghost var h0, log0 := State(), log;
      NoEvents(h0);
      assert log0 + [] == log0;
      for ch: Byte := 0 to 16
        invariant State() == Run(h0, MuxScan(h0, mux, ch, oracle).events)
        invariant log == log0 + MuxScan(h0, mux, ch, oracle).log
      {
        ghost var prev := MuxScan(h0, mux, ch, oracle);
        ghost var before := State();
        SelectMuxChannel(mux, ch);
        DelayMicroseconds(3);
        var val := AdcGetRaw(MuxOutAdc(mux));
        var inputNum := InputMap(mux)[ch];
        Print(LogEntry(inputNum, MuxLabel(mux, ch), val));
        Delay(StepDelayMs);
        MuxStepDone(h0, prev, before, mux, ch, val, log0, oracle);
      }
    }

    /** loop()'s direct section: the direct table, row by row, conductor A before B. */
    method ScanDirect()
      modifies this
      ensures var r := DirectScan(old(State()), 8, oracle);
        State() == Run(old(State()), r.events) && log == old(log) + r.log
    {
      ghost var h0, log0 := State(), log;
      NoEvents(h0);
      assert log0 + [] == log0;
      for idx: Byte := 0 to 4
        invariant State() == Run(h0, DirectScan(h0, 2 * idx, oracle).events)
        invariant log == log0 + DirectScan(h0, 2 * idx, oracle).log
      {
        var inputNum: Byte := 17 + idx;
        for cond: Byte := 0 to 2
          invariant State() == Run(h0, DirectScan(h0, 2 * idx + cond, oracle).events)
          invariant log == log0 + DirectScan(h0, 2 * idx + cond, oracle).log
        {
          ghost var p := 2 * idx + cond;
          ghost var before := State();
          ghost var step := DirectStep(before, p, oracle);
          ReadDirectInput(idx, cond, inputNum);
          DirectScanExtended(h0, p, before, step, log0, oracle);
        }
        assert 2 * idx + 2 == 2 * (idx + 1);
      }
    }

    /** One iteration of loop(): MUX1, then MUX2, then the direct inputs. */
    method Loop()
      modifies this
      ensures var r := LoopScan(old(State()), oracle);
        State() == Run(old(State()), r.events) && log == old(log) + r.log
      ensures |log| == |old(log)| + 39
    {
      ghost var h0, log0 := State(), log;
      ScanMux(1);
      ScanMux(2);
      ScanDirect();
      LoopDone(h0, log0, oracle);
      LoopScanFacts(h0, oracle);
    }
  }

  /** Four single writes, S0 first, are the selection's writes. */
  lemma RunSelectWrites(h: Hw, pins: seq<Byte>, s: seq<Bit>)
    requires |pins| == 4 && |s| == 4
    ensures Run(Run(Run(Run(h, [Write(pins[0], s[0])]), [Write(pins[1], s[1])]), [Write(pins[2], s[2])]),
                [Write(pins[3], s[3])])
            == Run(h, SelectWrites(pins, s, 4))
  {
    var w1, w2, w3 := SelectWrites(pins, s, 1), SelectWrites(pins, s, 2), SelectWrites(pins, s, 3);
    assert SelectWrites(pins, s, 0) == [];
    assert w1 == [] + [Write(pins[0], s[0])];
    RunAppend(h, w1, [Write(pins[1], s[1])]);
    RunAppend(h, w2, [Write(pins[2], s[2])]);
    RunAppend(h, w3, [Write(pins[3], s[3])]);
  }

  /**
    The actions of one multiplexer step, done one by one after channels
    0 .. ch - 1, make the scan of channels 0 .. ch.
   */
  lemma MuxStepDone(h: Hw, prev: Scan, before: Hw, mux: Byte, ch: Byte, v: int, log0: seq<LogEntry>, oracle: Oracle)
    requires ch < 16 && prev == MuxScan(h, mux, ch, oracle) && before == Run(h, prev.events)
    requires v == oracle(Run(Run(before, SelectEvents(mux, ch)), [PauseMicros(3)]), MuxOutAdc(mux))
    ensures var next := MuxScan(h, mux, ch + 1, oracle);
      Run(Run(Run(Run(before, SelectEvents(mux, ch)), [PauseMicros(3)]), [Conversion(MuxOutAdc(mux), v)]),
          [PauseMillis(StepDelayMs)]) == Run(h, next.events) &&
      (log0 + prev.log) + [LogEntry(InputMap(mux)[ch], MuxLabel(mux, ch), v)] == log0 + next.log
  {
    var selected := SelectEvents(mux, ch);
    var settled := selected + [PauseMicros(3)];
    var converted := settled + [Conversion(MuxOutAdc(mux), v)];
    var step := MuxStep(before, mux, ch, oracle);
    RunAppend(before, selected, [PauseMicros(3)]);
    RunAppend(before, settled, [Conversion(MuxOutAdc(mux), v)]);
    RunAppend(before, converted, [PauseMillis(StepDelayMs)]);
    RunAppend(h, prev.events, step.events);
    assert (log0 + prev.log) + step.log == log0 + (prev.log + step.log);
  }

  /** An unused conductor's pass does nothing. */
  lemma SkippedConductorDone(h: Hw, idx: nat, cond: nat, oracle: Oracle)
    requires idx < 4 && cond < 2 && DirectInputs[idx][cond].gpio == 255
    ensures var step := DirectStep(h, 2 * idx + cond, oracle);
      h == Run(h, step.events) && step.log == []
  {
    ConductorAt(idx, cond);
    NoEvents(h);
  }

  /** A used conductor's actions, done one by one, are its step of the direct scan. */
  lemma UsedConductorDone(h: Hw, idx: nat, cond: nat, pre: seq<Event>, v: int, oracle: Oracle)
    requires idx < 4 && cond < 2 && DirectInputs[idx][cond].gpio != 255
    requires pre == if 17 + idx == 18 && cond == 1 then SelectEvents(2, 8) + [PauseMicros(3)] else []
    requires v == StableReading(Run(h, pre), DirectInputs[idx][cond].adc, oracle).value
    ensures var rd := StableReading(Run(h, pre), DirectInputs[idx][cond].adc, oracle);
      var step := DirectStep(h, 2 * idx + cond, oracle);
      Run(Run(Run(h, pre), rd.events), [PauseMillis(StepDelayMs)]) == Run(h, step.events) &&
      step.log == [LogEntry(17 + idx, GpioLabel(DirectInputs[idx][cond].gpio), v)]
  {
    var rd := StableReading(Run(h, pre), DirectInputs[idx][cond].adc, oracle);
    ConductorAt(idx, cond);
    SecondConductorOf18(2 * idx + cond);
    RunAppend(h, pre, rd.events);
    RunAppend(h, pre + rd.events, [PauseMillis(StepDelayMs)]);
  }

  /** Conductor p's step, done after the direct scan of conductors 0 .. p - 1, makes the scan of 0 .. p. */
  lemma DirectScanExtended(h: Hw, p: nat, before: Hw, step: Scan, log0: seq<LogEntry>, oracle: Oracle)
    requires p < 8
    requires before == Run(h, DirectScan(h, p, oracle).events) && step == DirectStep(before, p, oracle)
    ensures var prev, next := DirectScan(h, p, oracle), DirectScan(h, p + 1, oracle);
      Run(before, step.events) == Run(h, next.events) &&
      (log0 + prev.log) + step.log == log0 + next.log
  {
    var prev := DirectScan(h, p, oracle);
    RunAppend(h, prev.events, step.events);
    assert (log0 + prev.log) + step.log == log0 + (prev.log + step.log);
  }

  /** The three scans, done one after the other, are one iteration of loop(). */
  lemma LoopDone(h: Hw, log0: seq<LogEntry>, oracle: Oracle)
    ensures var m1 := MuxScan(h, 1, 16, oracle);
      var h1 := Run(h, m1.events);
      var m2 := MuxScan(h1, 2, 16, oracle);
      var h2 := Run(h1, m2.events);
      var d := DirectScan(h2, 8, oracle);
      var r := LoopScan(h, oracle);
      Run(h2, d.events) == Run(h, r.events) && log0 + m1.log + m2.log + d.log == log0 + r.log
  {
    var m1 := MuxScan(h, 1, 16, oracle);
    var h1 := Run(h, m1.events);
    var m2 := MuxScan(h1, 2, 16, oracle);
    var h2 := Run(h1, m2.events);
    var d := DirectScan(h2, 8, oracle);
    RunAppend(h, m1.events, m2.events);
    RunAppend(h, m1.events + m2.events, d.events);
    assert log0 + m1.log + m2.log + d.log == log0 + (m1.log + m2.log + d.log);
  }
}
