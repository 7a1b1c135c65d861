/**
  An abstract bench for the sketch in src/main.cpp: the Arduino and ESP32
  calls it makes (digitalWrite, delayMicroseconds, ets_delay_us, delay,
  adc1_get_raw) become events on an append-only trace, and the levels of
  the pins written so far are kept beside it.

  A conversion's value is whatever an oracle returns for the bench state
  and channel, so nothing is assumed about the analog front end. What can
  be stated is which multiplexer channel each select bus addressed at the
  moment of each conversion: `Samples` replays the trace to annotate every
  conversion with it.
 */
module Bench {
  import opened AdcInputMap

  type Bit = b: int | 0 <= b <= 1

  datatype Option<T> = None | Some(value: T)

  /** One hardware action, as it appears on the bench trace. */
  datatype Event =
    | Write(pin: Byte, level: Bit)                 // digitalWrite
    | PauseMicros(us: nat)                         // delayMicroseconds, ets_delay_us
    | PauseMillis(ms: nat)                         // delay
    | Conversion(channel: AdcChannel, value: int)  // adc1_get_raw, with its result

  /** The bench: levels of the pins written so far, and everything done so far. */
  datatype Hw = Hw(levels: map<Byte, Bit>, trace: seq<Event>)

  /** What adc1_get_raw returns for a channel in a given bench state. */
  type Oracle = (Hw, AdcChannel) -> int

  /** The channel a 4-bit select bus S0..S3 addresses. */
  function ChannelOf(s: seq<Bit>): (c: nat)
    requires |s| == 4
    ensures c < 16
  {
    s[0] as int + 2 * (s[1] as int) + 4 * (s[2] as int) + 8 * (s[3] as int)
  }

  function Level(levels: map<Byte, Bit>, pin: Byte): Option<Bit>
  {
    if pin in levels then Some(levels[pin]) else None
  }

  /** The levels of a select bus S0..S3; None for a pin never written. */
  function Lines(levels: map<Byte, Bit>, pins: seq<Byte>): (l: seq<Option<Bit>>)
    requires |pins| == 4
    ensures |l| == 4
  {
    [Level(levels, pins[0]), Level(levels, pins[1]), Level(levels, pins[2]), Level(levels, pins[3])]
  }

  /** The channel a multiplexer addresses, once all four of its select pins have been written. */
  function MuxChannel(levels: map<Byte, Bit>, pins: seq<Byte>): (c: Option<nat>)
    requires |pins| == 4
    ensures c.Some? ==> c.value < 16
  {
    var l := Lines(levels, pins);
    if l[0].Some? && l[1].Some? && l[2].Some? && l[3].Some?
    then Some(ChannelOf([l[0].value, l[1].value, l[2].value, l[3].value]))
    else None
  }

  function Apply(levels: map<Byte, Bit>, e: Event): map<Byte, Bit>
  {
    if e.Write? then levels[e.pin := e.level] else levels
  }

  /** The pin levels after `events`, starting from `levels`. */
  function Replay(levels: map<Byte, Bit>, events: seq<Event>): map<Byte, Bit>
  {
    if events == [] then levels
    else Apply(Replay(levels, events[..|events| - 1]), events[|events| - 1])
  }

  /** A conversion, with the channel each multiplexer addressed when it was taken. */
  datatype Sample = Sample(channel: AdcChannel, value: int, select1: Option<nat>, select2: Option<nat>)

  function SampleOf(levels: map<Byte, Bit>, e: Event): seq<Sample>
  {
    if e.Conversion?
    then [Sample(e.channel, e.value, MuxChannel(levels, Mux1SelectPins), MuxChannel(levels, Mux2SelectPins))]
    else []
  }

  /** The conversions among `events`, in order, each with the select state in force. */
  function Samples(levels: map<Byte, Bit>, events: seq<Event>): seq<Sample>
  {
    if events == [] then []
    else
      var init := events[..|events| - 1];
      Samples(levels, init) + SampleOf(Replay(levels, init), events[|events| - 1])
  }

  /** The bench after `events` are done on `h`. */
  function Run(h: Hw, events: seq<Event>): Hw
  {
    Hw(Replay(h.levels, events), h.trace + events)
  }

  lemma Snoc(levels: map<Byte, Bit>, events: seq<Event>, e: Event)
    ensures Replay(levels, events + [e]) == Apply(Replay(levels, events), e)
    ensures Samples(levels, events + [e]) == Samples(levels, events) + SampleOf(Replay(levels, events), e)
  {
    assert (events + [e])[..|events|] == events;
  }

  /** A trace without conversions yields no samples. */
  lemma {:induction false} NoConversions(levels: map<Byte, Bit>, events: seq<Event>)
    requires forall i :: 0 <= i < |events| ==> !events[i].Conversion?
    ensures Samples(levels, events) == []
    decreases |events|
  {
    if events != [] {
      NoConversions(levels, events[..|events| - 1]);
    }
  }

  /** A pause changes no pin and takes no conversion. */
  lemma SnocPause(levels: map<Byte, Bit>, events: seq<Event>, e: Event)
    requires e.PauseMicros? || e.PauseMillis?
    ensures Replay(levels, events + [e]) == Replay(levels, events)
    ensures Samples(levels, events + [e]) == Samples(levels, events)
  {
    Snoc(levels, events, e);
  }

  /** A conversion changes no pin and is sampled with the select state in force. */
  lemma SnocConversion(levels: map<Byte, Bit>, events: seq<Event>, c: AdcChannel, v: int)
    ensures Replay(levels, events + [Conversion(c, v)]) == Replay(levels, events)
    ensures var r := Replay(levels, events);
      Samples(levels, events + [Conversion(c, v)])
        == Samples(levels, events) + [Sample(c, v, MuxChannel(r, Mux1SelectPins), MuxChannel(r, Mux2SelectPins))]
  {
    Snoc(levels, events, Conversion(c, v));
  }

  /** Replaying a trace in two parts is replaying it whole, and so is collecting its samples. */
  lemma {:induction false} Append(levels: map<Byte, Bit>, a: seq<Event>, b: seq<Event>)
    ensures Replay(levels, a + b) == Replay(Replay(levels, a), b)
    ensures Samples(levels, a + b) == Samples(levels, a) + Samples(Replay(levels, a), b)
    decreases |b|
  {
    if b == [] {
      assert a + b == a;
    } else {
      var init, last := b[..|b| - 1], b[|b| - 1];
      assert a + b == (a + init) + [last];
      Append(levels, a, init);
      Snoc(levels, a + init, last);
      Snoc(Replay(levels, a), init, last);
    }
  }

  /** Events `body` between a prefix that takes no conversion and a closing pause. */
  lemma Framed(l: map<Byte, Bit>, pre: seq<Event>, body: seq<Event>, ms: nat)
    requires Samples(l, pre) == []
    ensures Replay(l, pre + body + [PauseMillis(ms)]) == Replay(Replay(l, pre), body)
    ensures Samples(l, pre + body + [PauseMillis(ms)]) == Samples(Replay(l, pre), body)
  {
    Append(l, pre, body);
    SnocPause(l, pre + body, PauseMillis(ms));
  }

  /** Doing `a` and then `b` is doing `a + b`. */
  lemma RunAppend(h: Hw, a: seq<Event>, b: seq<Event>)
    ensures Run(Run(h, a), b) == Run(h, a + b)
  {
    Append(h.levels, a, b);
  }

  lemma NoEvents(h: Hw)
    ensures Run(h, []) == h
  {
    assert h.trace + [] == h.trace;
  }

  /**
    The tail of the stable read in src/main.cpp after its selection, whatever values the three
    conversions return: no pin changes, and three samples taken with the
    select state the selection left.
   */
  lemma StableTail(l: map<Byte, Bit>, w: seq<Event>, ch: AdcChannel, ground: int, dummy: int, v: int)
    requires Samples(l, w) == []
    ensures var r := Replay(l, w);
      var e := w + [PauseMicros(3)] + [Conversion(Mux1OutAdc, ground)] + [PauseMicros(30)]
               + [Conversion(ch, dummy)] + [Conversion(ch, v)];
      var m1, m2 := MuxChannel(r, Mux1SelectPins), MuxChannel(r, Mux2SelectPins);
      Replay(l, e) == r &&
      Samples(l, e) == [Sample(Mux1OutAdc, ground, m1, m2), Sample(ch, dummy, m1, m2), Sample(ch, v, m1, m2)]
  {
    var tail := [PauseMicros(3), Conversion(Mux1OutAdc, ground), PauseMicros(30), Conversion(ch, dummy), Conversion(ch, v)];
    assert w + [PauseMicros(3)] + [Conversion(Mux1OutAdc, ground)] + [PauseMicros(30)]
           + [Conversion(ch, dummy)] + [Conversion(ch, v)] == w + tail;
    Append(l, w, tail);
    StableTailEvents(Replay(l, w), ch, ground, dummy, v);
  }

  /** The five actions of that tail, from any pin levels. */
  lemma StableTailEvents(r: map<Byte, Bit>, ch: AdcChannel, ground: int, dummy: int, v: int)
    ensures var tail := [PauseMicros(3), Conversion(Mux1OutAdc, ground), PauseMicros(30), Conversion(ch, dummy), Conversion(ch, v)];
      var m1, m2 := MuxChannel(r, Mux1SelectPins), MuxChannel(r, Mux2SelectPins);
      Replay(r, tail) == r &&
      Samples(r, tail) == [Sample(Mux1OutAdc, ground, m1, m2), Sample(ch, dummy, m1, m2), Sample(ch, v, m1, m2)]
  {
    var m1, m2 := MuxChannel(r, Mux1SelectPins), MuxChannel(r, Mux2SelectPins);
    var s1, s2, s3 := Sample(Mux1OutAdc, ground, m1, m2), Sample(ch, dummy, m1, m2), Sample(ch, v, m1, m2);
    var b := [] + [PauseMicros(3)] + [Conversion(Mux1OutAdc, ground)];
    var d := b + [PauseMicros(30)] + [Conversion(ch, dummy)];
    PauseThenConvert(r, [], 3, Mux1OutAdc, ground);
    PauseThenConvert(r, b, 30, ch, dummy);
    SnocConversion(r, d, ch, v);
    assert d + [Conversion(ch, v)]
        == [PauseMicros(3), Conversion(Mux1OutAdc, ground), PauseMicros(30), Conversion(ch, dummy), Conversion(ch, v)];
    assert [] + [s1] + [s2] + [s3] == [s1, s2, s3];
  }

  /** A pause followed by a conversion: no pin changes and one sample. */
  lemma PauseThenConvert(l: map<Byte, Bit>, w: seq<Event>, us: nat, c: AdcChannel, v: int)
    ensures var r := Replay(l, w);
      var e := w + [PauseMicros(us)] + [Conversion(c, v)];
      Replay(l, e) == r &&
      Samples(l, e) == Samples(l, w) + [Sample(c, v, MuxChannel(r, Mux1SelectPins), MuxChannel(r, Mux2SelectPins))]
  {
    SnocPause(l, w, PauseMicros(us));
    SnocConversion(l, w + [PauseMicros(us)], c, v);
  }

  /** The tail of one multiplexer step in src/main.cpp after its selection: no pin changes and one sample. */
  lemma MuxStepTail(l: map<Byte, Bit>, w: seq<Event>, adc: AdcChannel, v: int, ms: nat)
    requires Samples(l, w) == []
    ensures var r := Replay(l, w);
      var e := w + [PauseMicros(3)] + [Conversion(adc, v)] + [PauseMillis(ms)];
      Replay(l, e) == r &&
      Samples(l, e) == [Sample(adc, v, MuxChannel(r, Mux1SelectPins), MuxChannel(r, Mux2SelectPins))]
  {
    var a := w + [PauseMicros(3)];
    var b := a + [Conversion(adc, v)];
    SnocPause(l, w, PauseMicros(3));
    SnocConversion(l, a, adc, v);
    SnocPause(l, b, PauseMillis(ms));
  }
}
