# sample_adc — a verified model of the scan sketch

The sketch runs on an ESP32 that reads the pads of the D20 v1.1 drum
module. Inputs 1..16 reach the ADC through two CD74HC4067 16-channel
multiplexers, each with a 4-bit select bus (S0..S3) and one common output
wired to an ADC1 channel. Inputs 17..20 are wired to ADC1 channels directly,
with up to two conductors (A and B) each. Input 18's B conductor is the
exception: it is MUX2's output, reached by selecting MUX2 channel 8. Each
pass of `loop()` prints one tab-separated line per reading: the input
number, where the reading came from (`MUX<m>_CH<c>` or `GPIO<g>`) and the
raw value.

The model has four modules:

- `AdcInputMap` (`adc_input_map.dfy`) holds the constant wiring of
  `include/adc_input_map.h` and the facts about it.
- `Bench` (`bench.dfy`) is the hardware the sketch drives. The pin levels
  written so far are kept beside an append-only trace of actions: pin
  writes, pauses, and conversions with their values. `Samples` replays a
  trace and tags every conversion with the channel each multiplexer
  addressed at that moment. A conversion's value comes from an oracle, a
  function of the bench state and the channel. So no property depends on
  the analog front end.
- `SampleAdc` (`sample_adc.dfy`) specifies `selectMuxChannel`,
  `stableRead` and one pass of `loop()` as functions. Each maps the bench
  state before the call to the actions it adds and the value it returns or
  the lines it prints. Lemmas then prove what those actions are.
- `Sketch` (`board.dfy`) holds the class `Board`. It runs the same code
  step by step on mutable fields: pin levels, trace and printed log. Every
  method is proved to add exactly the actions and lines of the matching
  `SampleAdc` function. So every lemma about those functions holds for what
  the board does.

Conductors of the direct table are numbered 0..7 in the order the nested
loop visits them: conductor `cond` of row `idx` is number `2 * idx + cond`.

## Model

| member | source | states |
|---|---|---|
| `AdcInputMap.ConductorNumbering` | src/main.cpp:116-123 | The nested direct loop visits row idx, conductor cond as conductor 2 * idx + cond, which names `directInputs[idx][cond]`; every number 0..7 comes from exactly one row and conductor. |
| `AdcInputMap.UsedConductors` | src/main.cpp:116-121 | The conductors among the first k that the direct loop does not skip: at most k of them, each below k and with a GPIO other than 255. |
| `AdcInputMap.UsedConductorsComplete` | src/main.cpp:116-121 | For every k, a conductor below k is listed if and only if its GPIO is not 255. |
| `AdcInputMap.UsedConductorsOrdered` | src/main.cpp:116-121 | For every k, the listed conductors are strictly increasing: the direct loop's visiting order, each conductor once. |
| `AdcInputMap.LookupTablesHaveSixteenEntries` | include/adc_input_map.h:41-47 | Both lookup tables have one entry per multiplexer channel 0..15. |
| `AdcInputMap.LookupEntriesAreInputNumbers` | include/adc_input_map.h:37-47 | Every entry of both tables is a logical input number in 1..20. |
| `AdcInputMap.DirectInputsShape` | include/adc_input_map.h:61-76 | `directInputs` has four rows, for inputs 17..20, of two conductors each. |
| `AdcInputMap.UnusedConductors` | include/adc_input_map.h:61-76 | Every input's first conductor is used. The only conductor with GPIO 255 is input 20's second, and its channel is ADC1_CHANNEL_MAX. |
| `AdcInputMap.SevenUsedConductors` | src/main.cpp:116-121 | The direct loop reads conductors 0..6 in this order and skips conductor 7. A conductor is among those read exactly when its GPIO is not 255. |
| `AdcInputMap.Input18BViaMux2Ch8` | include/adc_input_map.h:45-73 | Input 18's B conductor is MUX2's output (GPIO and ADC channel). MUX2 channel 8 is wired to input 18, and no other MUX2 channel is. |
| `AdcInputMap.DirectChannelsAliasMuxOutputs` | include/adc_input_map.h:14-76 | Input 17's A conductor uses MUX2's ADC channel (6) and input 20's A uses MUX1's (2). Apart from those two and input 18's B, no used direct conductor shares a multiplexer's output channel. |
| `AdcInputMap.SelectBusesDisjoint` | include/adc_input_map.h:23-31 | The two select buses are eight distinct GPIOs. |
| `SampleAdc.SelectLevels` | src/main.cpp:9-12 | s0..s3 are each 0 or 1, and s0 + 2 s1 + 4 s2 + 8 s3 equals ch % 16: only the low four bits of ch matter. |
| `SampleAdc.SelectLevelsRoundTrip` | src/main.cpp:9-12 | Every 4-bit select pattern is produced by the channel number it encodes, so the bit split inverts the weighted sum. |
| `SampleAdc.SelectLevelsLowBits` | src/main.cpp:9-12 | Two channel numbers drive the same levels if and only if they agree modulo 16. |
| `SampleAdc.SelectShape` | src/main.cpp:7-25 | selectMuxChannel makes exactly four pin writes, S0 first: bit k of ch goes to MUX1's Sk when mux is 1, and to MUX2's Sk for any other mux. |
| `SampleAdc.SelectFacts` | src/main.cpp:7-25 | After the selection the chosen multiplexer addresses ch % 16. The other multiplexer's select lines are unchanged. No conversion is taken. |
| `SampleAdc.StableReadingTrace` | src/main.cpp:75-89 | stableRead's actions in order: MUX1 channel 0 selected, a 3 us pause, a conversion on MUX1's output, a 30 us pause, then two conversions on ch. The value returned is the last conversion's. |
| `SampleAdc.StableReadingSamples` | src/main.cpp:75-89 | stableRead takes exactly three conversions: the ground sample on MUX1's output, then two on ch. All three are taken while MUX1 addresses channel 0 and MUX2 addresses what it did before. The result is the third. |
| `SampleAdc.StableReadingAfter` | src/main.cpp:75-89 | After stableRead MUX1 addresses channel 0. MUX2's select lines, and so the channel it addresses, are unchanged. |
| `SampleAdc.MuxStepSamples` | src/main.cpp:95-101 | One multiplexer iteration takes one conversion, on that mux's output channel, while the mux addresses ch and the other mux is unchanged. It prints one line: the lookup table's input for ch, the mux label, and that conversion's value. |
| `SampleAdc.MuxStepAfter` | src/main.cpp:95-101 | After one iteration the mux addresses ch, and the other mux's select lines are untouched. |
| `SampleAdc.MuxScanAfter` | src/main.cpp:94-112 | After channels 0..k-1 the mux addresses channel k-1, and the other mux's select lines are unchanged. |
| `SampleAdc.MuxScanFacts` | src/main.cpp:94-112 | Scanning channels 0..k-1 gives k conversions and k lines, in channel order. Conversion c is on the mux output while the mux addressed c. Line c names the input the table gives for c and carries conversion c's value. |
| `SampleAdc.SecondConductorOf18` | src/main.cpp:126 | The test `inputNum == 18 && cond == 1` holds for conductor `Input18B` (number 3: row 1, conductor B) alone. |
| `SampleAdc.Mux2Ch8Selected` | src/main.cpp:126-129 | The extra selection before input 18's B conductor leaves MUX2 at channel 8 and takes no conversion. |
| `SampleAdc.DirectStepSamples` | src/main.cpp:119-133 | A conductor with GPIO 255 adds no action, conversion or line. A used conductor adds one stable read of its ADC channel and one line: input 17 + idx, its GPIO and the read's value. MUX2 is at channel 8 for input 18's B and unchanged otherwise. |
| `SampleAdc.DirectStepAfter` | src/main.cpp:125-131 | After conductor p, MUX2 addresses channel 8 if p is input 18's B, and what it did before otherwise. |
| `SampleAdc.DirectScanAfter` | src/main.cpp:116-135 | Once input 18's B conductor has been read, MUX2 stays at channel 8 for the rest of the direct scan. |
| `SampleAdc.DirectScanFacts` | src/main.cpp:116-135 | The direct scan prints one line per used conductor and none for a skipped one, in table order. Each line's three conversions are the stable read of that conductor's channel, with MUX2 where that conductor's turn leaves it. |
| `SampleAdc.DirectScannedAt` | src/main.cpp:116-135 | In a full direct scan, line j and conversions 3j..3j+2 belong to conductor j, for j < 7. |
| `SampleAdc.LoopScannedCompose` | src/main.cpp:91-135 | The MUX1 scan, the MUX2 scan and the direct scan, put one after the other, make up the line and conversion layout of a whole pass. |
| `SampleAdc.LoopScanFacts` | src/main.cpp:91-135 | One pass prints 39 lines from 53 conversions. First come 16 MUX1 lines, taken with MUX2 where it was. Then 16 MUX2 lines, taken with MUX1 at channel 15. Then the 7 used direct conductors, with MUX2 at channel 15 until input 18's B. |
| `SampleAdc.LoopMuxLines` | src/main.cpp:94-112 | In a pass, line c (c < 16) is MUX1 channel c's and line 16 + c is MUX2 channel c's. Each has its table's input number and the value of the one conversion taken on that mux's output while it addressed c. |
| `SampleAdc.LoopDirectLines` | src/main.cpp:116-135 | In a pass, line 32 + j (j < 7) is direct conductor j's, from three conversions taken with MUX1 at channel 0. MUX2 is at channel 15 for j < 3 and at channel 8 from input 18's B on. |
| `SampleAdc.Input18BReadThroughMux2Ch8` | src/main.cpp:125-132 | Line 35 is input 18's, labelled with MUX2's output GPIO, and its value is a conversion on MUX2's output channel taken while MUX2 addressed channel 8, the channel wired to input 18. |
| `SampleAdc.DirectReadsOnMuxOutputs` | src/main.cpp:116-133 | Input 17's A is read on MUX2's output while MUX2 addresses channel 15, and input 20's A on MUX1's output while MUX1 addresses channel 0. |
| `Sketch.Board.SelectMuxChannel` | src/main.cpp:7-25 | The four pin writes the method makes are exactly `SelectEvents(mux, ch)`. The log is untouched. |
| `Sketch.Board.StableRead` | src/main.cpp:75-89 | The actions and the value returned are exactly those of `StableReading`. |
| `Sketch.Board.ReadDirectInput` | src/main.cpp:120-133 | One pass of the inner direct loop adds exactly the actions and line of `DirectStep` for conductor 2 * idx + cond. |
| `Sketch.Board.ScanMux` | src/main.cpp:93-112 | One multiplexer section of `loop()` (MUX1 or MUX2, channels 0..15) adds exactly the actions and lines of `MuxScan` for that mux. |
| `Sketch.Board.ScanDirect` | src/main.cpp:114-135 | The direct section of `loop()`, rows 0..3 and conductors A then B, adds exactly the actions and lines of `DirectScan` over all eight conductors. |
| `Sketch.Board.Loop` | src/main.cpp:91-135 | One call adds exactly the actions and lines of `LoopScan`, so every `SampleAdc` lemma about a pass holds for it. It prints 39 lines. |

## Left out

- `setup()` (src/main.cpp:27-63) is not modelled. Pin modes, the serial
  port speed, ADC width and attenuation only configure the hardware, which
  the oracle stands for.
- `settleWithGround()` (src/main.cpp:65-72) is never called, and the
  commented-out direct scan (src/main.cpp:139-151) is not code; neither is
  modelled.
- The Arduino runtime calls `loop()` forever. The model specifies and proves
  one pass, starting from any bench state.
- `Serial.printf` is modelled by the three fields of each line (input
  number, `MUX<m>_CH<c>` or `GPIO<g>` label, value), not by the formatted
  text.
- Pauses (`delayMicroseconds`, `ets_delay_us`, `delay`) are recorded as
  actions with their durations. Time itself, and any effect of settling on a
  reading, is not modelled.
- Conversion values come from an oracle. ADC driver internals, the
  sample-and-hold charge that `stableRead` tries to clear, and 12-bit range
  limits are outside the model.
- `ADC1_CHANNEL_MAX` is modelled as 10, one past `ADC1_CHANNEL_9`, the
  highest channel the header names.
- `ADC_1` and `ADC_2` (include/adc_input_map.h:34-35) are defined but never
  used.
- `loop()` is split into methods that follow its sections:
  `ScanMux(1)`, `ScanMux(2)` and `ScanDirect`, with the inner direct loop's
  body as `ReadDirectInput`. The loop's `continue` for GPIO 255 is that
  method's early return. The two copies of the multiplexer loop
  (src/main.cpp:94-102 and 105-112) differ only in the mux number, its
  output channel and its lookup table, so `ScanMux` takes the mux number.
  The actions and lines are the same as those of the inline code.
