# AVR power supply controller — a Dafny model

This project models the firmware of a small two-channel bench power supply
built on an AVR microcontroller (`AVRPowerSupply.cpp`). It also models the
text-formatting routines of its `DeviceStream` template
(`library/m8r/DeviceStream.h`).

The application object `MyApp` keeps the following state, and the model
keeps all of it:

- for each supply, a committed current limit and a pending one, both
  indices into an eight-entry table of limits;
- the last bus voltage and shunt current read from each INA219 sensor;
- a per-supply overcurrent counter, which latches the supply's shutdown
  line and the status LED;
- four averaged ADC test voltages;
- what each of the two LCD lines shows, and whether the display is dirty
  and enabled;
- the capture flags set by the timer and ADC interrupts.

A constant menu table (`g_menuOps`) ties the three buttons to the actions.

Modules:

- `Ints` (ints.dfy): the C integer widths as subset types, with explicit
  wrap-around.
- `DeviceStream` (device_stream.dfy):
  - decimal formatting of 32-bit values, signed and unsigned;
  - `'\n'` → `"\r\n"` expansion;
  - NUL-terminated strings;
  - class `Stream`, whose `output` field is everything handed to the
    device.
- `Hex` (hex.dfy): `toHex`, as a method that fills a `char` array
  backwards, its specification, and the buffer-bounds finding below.
- `Menu` (menu.dfy): `g_menuOps` as data. Each state has its
  `Show`/`XEQ`/`Pause` entries and its exit (`Buttons` targets or a `Goto`).
- `Supply` (supply.dfy): the pure parts of the application:
  - the limit table and its index arithmetic;
  - line-display modes;
  - ADC averaging, with a ghost record of the samples in each window;
  - the shunt conversion;
  - the overcurrent latch of one supply.
- `PowerSupply` (app.dfy): class `MyApp`:
  - its fields are the source's arrays (`array`) and flags;
  - four group functions (`Limits`, `Power`, `View`, `Sampling`) read them
    as values;
  - every menu action, `updateADC`, `updateCurrentSensor`, `updateDisplay`
    and `handleEvent` is a method whose postcondition gives the new state
    in terms of the old one.

  Pure functions beside the class (`SensorPoll`, `IdleStep`, `Dispatch`)
  specify the sensor poll and the event dispatch. The lemmas prove their
  properties.

The INA219 readings, the ADC conversion result and the event are method
parameters. The LCD is a `DeviceStream.Stream` where the current-limit
screen is written. A redraw of the live readings is reported as a
`Redraw` activity.

## Model

| member | source | states |
|---|---|---|
| DeviceStream.DecimalRoundTrip | library/m8r/DeviceStream.h:49-55 | the digits `write(v, false)` produces are all decimal digits and read back as v |
| DeviceStream.DecimalMinimal | library/m8r/DeviceStream.h:50-55 | the digits have no leading zero and exactly as many places as v needs; v = 0 gives no digits at all |
| DeviceStream.DecimalLengthBound | library/m8r/DeviceStream.h:52-55 | a value below 10^n needs at most n digits |
| DeviceStream.DecimalFitsBuffer | library/m8r/DeviceStream.h:49-51 | every 32-bit value needs at most 10 digits, so the digits and the NUL fit the 11-byte buffer |
| DeviceStream.SignedNumberText | library/m8r/DeviceStream.h:45-48 | signed formatting of the 32-bit pattern of x is '-' and the magnitude's digits for negative x, the digits otherwise, including INT32_MIN |
| DeviceStream.SignedRoundTrip | library/m8r/DeviceStream.h:45-55 | signed output parses back to the original int32 value |
| DeviceStream.ExpandAppend | library/m8r/DeviceStream.h:61-66 | the string output of a concatenation is the concatenation of the outputs |
| DeviceStream.ExpandLength | library/m8r/DeviceStream.h:61-66 | the output is as long as the input plus the number of '\n' in it |
| DeviceStream.ExpandNoNewline | library/m8r/DeviceStream.h:61-66 | text without '\n' is passed through unchanged |
| DeviceStream.ExpandHead | library/m8r/DeviceStream.h:62-64 | the output never starts with '\n': the '\r' comes first |
| DeviceStream.CollapseExpand | library/m8r/DeviceStream.h:61-66 | dropping each '\r' that precedes a '\n' recovers the input, so no character is lost or reordered |
| DeviceStream.CString | library/m8r/DeviceStream.h:61 | the text a C string denotes is the prefix before the first NUL |
| DeviceStream.CStringOfTerminated | library/m8r/DeviceStream.h:61 | a NUL-free text followed by a NUL denotes exactly that text |
| DeviceStream.DigitsPassThrough | library/m8r/DeviceStream.h:56 | handing the digit buffer to `write(const char*)` outputs the digits unchanged |
| DeviceStream.Stream.Emit | library/m8r/DeviceStream.h:46 | `_device.write(c)` appends c to the device output |
| DeviceStream.Stream.WriteNumber | library/m8r/DeviceStream.h:43-57 | appends '-' (signed and negative) and then the decimal digits of the magnitude, filled backwards into an 11-char buffer |
| DeviceStream.Stream.WriteCString | library/m8r/DeviceStream.h:59-67 | appends the characters before the NUL in order, each '\n' preceded by '\r' |
| DeviceStream.Stream.WriteFlashString | library/m8r/DeviceStream.h:69-83 | appends exactly what `WriteCString` appends for the same contents |
| DeviceStream.Stream.WriteU8 | library/m8r/DeviceStream.h:27 | `uint8_t` formats unsigned |
| DeviceStream.Stream.WriteI16 | library/m8r/DeviceStream.h:28 | `int16_t` formats signed |
| DeviceStream.Stream.WriteU16 | library/m8r/DeviceStream.h:29 | `uint16_t` formats unsigned |
| DeviceStream.Stream.WriteI32 | library/m8r/DeviceStream.h:30 | `int32_t` formats signed |
| DeviceStream.Stream.WriteU32 | library/m8r/DeviceStream.h:31 | `uint32_t` formats unsigned |
| Hex.HexChar | AVRPowerSupply.cpp:417 | a nibble becomes one lowercase hex digit |
| Hex.HexPairsRoundTrip | AVRPowerSupply.cpp:415-422 | the digit pairs the loop stores read back, as hex, as the code |
| Hex.HexTextRoundTrip | AVRPowerSupply.cpp:407-427 | `toHex`'s text is "0x" followed by hex digits that read back as the code |
| Hex.HexPairsMinimal | AVRPowerSupply.cpp:415-422 | a nonzero code gets the fewest digit pairs that hold it: 2k digits exactly when 256^(k-1) <= u < 256^k |
| Hex.HexPairsLength | AVRPowerSupply.cpp:415-422 | a code below 256^k gets at most 2k digits |
| Hex.HexTextAlphabet | AVRPowerSupply.cpp:417-420 | the text is "0x" followed by lowercase hex digits only |
| Hex.AsWrittenInBounds | AVRPowerSupply.cpp:407-410 | starting at buf + 10, every store stays inside the buffer exactly when the code is below 2^24 |
| Hex.AsWrittenOverrun | AVRPowerSupply.cpp:438-439 | for the code 0x01000000 the last store lands one place before the buffer |
| Hex.CorrectedFits | AVRPowerSupply.cpp:438 | every 32-bit code needs at most 11 characters, which fit reportError's 12-byte buffer |
| Hex.PairStep | AVRPowerSupply.cpp:415-421 | one iteration puts the pair for n in front of what is stored and leaves n / 256 |
| Hex.Prepend | AVRPowerSupply.cpp:410 | `*--buf = c` puts c just before the stored text and changes nothing else |
| Hex.StorePairs | AVRPowerSupply.cpp:415-422 | the loop stores exactly the digit pairs of a nonzero code, ending where it started |
| Hex.StoreDigits | AVRPowerSupply.cpp:410-423 | the NUL, then "00" for 0 or the digit pairs otherwise |
| Hex.ToHex | AVRPowerSupply.cpp:407-427 | the returned pointer starts "0x", the digits and a NUL, ending at the given offset, and nothing else in the buffer changes |
| Hex.ErrorCodeTextAsWritten | AVRPowerSupply.cpp:438-440 | as written (offset 10), the text shown is `toHex`'s text, but only codes below 2^24 can be handled |
| Hex.ErrorCodeText | AVRPowerSupply.cpp:438-440 | with the end of the 12-byte buffer as the offset, every 32-bit code is shown as `toHex`'s text |
| Menu.TargetsInRange | AVRPowerSupply.cpp:213-231 | the table has 12 states and every Buttons and Goto target names one of them |
| Menu.Press | AVRPowerSupply.cpp:216-226 | a button press in a Buttons state leads to one of that state's targets |
| Menu.GotoChainsSettle | AVRPowerSupply.cpp:213-231 | there are no Goto cycles: from every state, at most one Goto reaches a state that waits for buttons, and some states (such as 1) need that one |
| Menu.SettleStable | AVRPowerSupply.cpp:217-229 | once a Goto chain has stopped, following it longer changes neither where it stops nor the actions run |
| Menu.LiveReadingsNavigation | AVRPowerSupply.cpp:216-220 | in the live-readings state, buttons 0 and 1 cycle line 0 and line 1 and come back; button 2 enters the current-limit screen on supply A |
| Menu.CurrentLimitNavigation | AVRPowerSupply.cpp:222-229 | in the adjust state, buttons 0 and 1 step the pending limit and come back; the prompt's button 0 accepts, its other buttons reject, and both return to live readings |
| Menu.CommitOnlyFromPrompt | AVRPowerSupply.cpp:225-229 | only state 10 pauses, and the committed limit is changed only by the states reached from the accept prompt |
| Supply.CurLimitValuesOrdered | AVRPowerSupply.cpp:82-83 | the table has 8 entries in strictly increasing order |
| Supply.LimitMilliAmps | AVRPowerSupply.cpp:172-173 | a table entry times ten: 10 to 1000 mA, a multiple of 10, strictly increasing with the index, and ten times it fits an int16_t |
| Supply.NextPrevInverse | AVRPowerSupply.cpp:139-150 | increment and decrement of the pending index undo each other |
| Supply.StepLimitIndexIsModular | AVRPowerSupply.cpp:139-144 | k increments move the index to (i + k) mod 8 |
| Supply.ModeOfOrdinal | AVRPowerSupply.cpp:165 | the cast from an ordinal gives the mode with that ordinal |
| Supply.NextMode | AVRPowerSupply.cpp:163-168 | the next line mode is never Last and is the next ordinal modulo 5 |
| Supply.SumOfSamplesBound | AVRPowerSupply.cpp:314 | n ten-bit samples sum to at most n * 1023 |
| Supply.WindowFitsAccumulator | AVRPowerSupply.cpp:314 | 16 ten-bit samples sum to at most 16368, below 2^16 |
| Supply.RoundedMean | AVRPowerSupply.cpp:320 | (acc + 8) / 16 is the mean of the window rounded half up |
| Supply.AveragedMilliVolts | AVRPowerSupply.cpp:320-323 | `acc + 8` is a 16-bit unsigned sum: for acc <= 0xFFF7 the stored voltage is the rounded mean scaled to 5000 mV over 1024 steps and truncated, and from 0xFFF8 on the sum wraps and 0 mV is stored; the uint32_t product and the uint16_t store never wrap |
| Supply.AveragedMilliVoltsBound | AVRPowerSupply.cpp:320-323 | for 10-bit samples the voltage is at most 4995 mV |
| Supply.AdcStep | AVRPowerSupply.cpp:312-328 | `updateADC` keeps four accumulators and voltages, a channel below 4 and a sample count below 16 |
| Supply.AdcStepOrder | AVRPowerSupply.cpp:314-317 | the channel goes 0, 1, 2, 3, 0 and the sample count advances, modulo 16, only when the channel wraps |
| Supply.AdcStepKeepsWindow | AVRPowerSupply.cpp:314-326 | each accumulator stays the sum of the samples folded in since the last recompute, and the uint16_t addition never wraps |
| Supply.AdcStepVoltages | AVRPowerSupply.cpp:317-325 | at the end of a window every channel holds exactly 16 samples, and its new voltage is their rounded mean scaled to 5000 mV, at most 4995 |
| Supply.ChannelVoltage | AVRPowerSupply.cpp:319-323 | one channel at the end of a window: 16 samples whose sum is its accumulator, below the wrap of `acc + 8`, so its voltage is their rounded mean scaled to 5000 mV, at most 4995 |
| Supply.ShuntMilliAmps | AVRPowerSupply.cpp:338-342 | a negative reading counts as 0, and the result is v * 100 / 330 rounded half up, between 0 and 9930 |
| Supply.ShuntMilliAmpsMonotone | AVRPowerSupply.cpp:338-342 | a larger shunt reading never gives a smaller current |
| Supply.Poll | AVRPowerSupply.cpp:347-353 | a poll never clears a shutdown line; it sets one only when over the limit; an in-limit poll clears the count |
| Supply.PollsCount | AVRPowerSupply.cpp:347-352 | from a clear latch, the count is the number of trailing over-limit polls, modulo 256 |
| Supply.PollsShutdown | AVRPowerSupply.cpp:347-350 | from a clear latch, the supply is shut down exactly when some run of over-limit polls reached five |
| Supply.HadOverRunSplit | AVRPowerSupply.cpp:347-350 | a run of five is in the history exactly when it is in the history without the last poll or the current run reaches five |
| Supply.ConsecutiveOverLimit | AVRPowerSupply.cpp:347-350 | n consecutive over-limit polls from a clear latch shut the supply down exactly when n >= 5 |
| Supply.TrailingOverBound | AVRPowerSupply.cpp:347-352 | the current run of over-limit polls is never longer than the history |
| Supply.ShutdownStaysLatched | AVRPowerSupply.cpp:347-353 | once shut down, no sequence of polls releases the supply: only resetCurrentLimit does |
| PowerSupply.InitialValid | AVRPowerSupply.cpp:235-259 | the constructed state is in range, both limits are the top table entry, and the ADC windows are empty |
| PowerSupply.PollSupplyIsPoll | AVRPowerSupply.cpp:332-353 | one pass of the loop stores the supply's readings and polls its latch, lighting the LED when it fires, and leaves the other supply's latch alone |
| PowerSupply.PollLoopIsSensorPoll | AVRPowerSupply.cpp:330-355 | the two passes together store both readings and poll both latches; one marks the display dirty exactly when a reading differs from the stored one |
| PowerSupply.SensorPollLED | AVRPowerSupply.cpp:112-120 | the LED is lit exactly when a shutdown line is set, and a poll never releases a line |
| PowerSupply.SensorPollsLatch | AVRPowerSupply.cpp:330-355 | over many polls each supply's latch follows its own over-limit history, independently of the other supply |
| PowerSupply.SustainedOvercurrent | AVRPowerSupply.cpp:347-350 | sustained overcurrent from a clear latch shuts a supply down from the fifth poll on and not before |
| PowerSupply.DispatchOutsideIdle | AVRPowerSupply.cpp:375-382 | EV_ADC only raises the ADC capture flag; the own timer only raises the sensor flag; other events change nothing |
| PowerSupply.IdleOrder | AVRPowerSupply.cpp:362-374 | EV_IDLE reads the sensors, then folds the ADC value, then redraws, each once and only when due; afterwards no capture is pending, an enabled display is clean, the limits are unchanged, and the ADC converts the channel folded next |
| PowerSupply.IdleRedraw | AVRPowerSupply.cpp:292-296 | the idle pass redraws exactly when the display is enabled and was dirty or a new reading differed |
| PowerSupply.LimitLineShowsLimit | AVRPowerSupply.cpp:286-289 | the current-limit line names the supply, shows the arrow that was asked for, and its digits read back as the pending limit in mA |
| PowerSupply.WriteLimitLine | AVRPowerSupply.cpp:287-289 | the stream receives the arrow or a space, the supply letter, ':', the limit, "ma", and the trailing arrow or a space |
| PowerSupply.MyApp.constructor | AVRPowerSupply.cpp:235-259 | the new object holds the initial state and its invariant |
| PowerSupply.MyApp.IncCurLimit | AVRPowerSupply.cpp:139-144 | the adjusted supply's pending index moves to the next entry, wrapping 7 to 0; everything else stays the same |
| PowerSupply.MyApp.DecCurLimit | AVRPowerSupply.cpp:145-150 | the adjusted supply's pending index moves to the previous entry, wrapping 0 to 7; everything else stays the same |
| PowerSupply.MyApp.AcceptCurLimit | AVRPowerSupply.cpp:151-155 | both committed indices become the pending ones |
| PowerSupply.MyApp.RejectCurLimit | AVRPowerSupply.cpp:156-160 | both pending indices go back to the committed ones |
| PowerSupply.MyApp.AdvanceLineDisplay | AVRPowerSupply.cpp:163-170 | the line shows the next mode, never Last, the other line is unchanged, and the display is dirty |
| PowerSupply.MyApp.Display | AVRPowerSupply.cpp:129-132 | live readings are enabled |
| PowerSupply.MyApp.NextLine0 | AVRPowerSupply.cpp:133 | line 0 advances |
| PowerSupply.MyApp.NextLine1 | AVRPowerSupply.cpp:134 | line 1 advances |
| PowerSupply.MyApp.SetCurrentLimit | AVRPowerSupply.cpp:112-120 | the supply's shutdown line and the LED are set |
| PowerSupply.MyApp.ResetCurrentLimit | AVRPowerSupply.cpp:122-127 | both shutdown lines and the LED are cleared |
| PowerSupply.MyApp.Show | AVRPowerSupply.cpp:106-110 | live readings are disabled and the text goes to the LCD |
| PowerSupply.MyApp.ShowCurrentLimit | AVRPowerSupply.cpp:282-290 | the latches are released, live readings disabled, and the LCD receives the pending-limit line |
| PowerSupply.MyApp.CurLimit | AVRPowerSupply.cpp:135-136 | shows the supply's limit with the supply arrow and makes it the adjusted supply |
| PowerSupply.MyApp.AdjustCurLimit | AVRPowerSupply.cpp:137-138 | shows the adjusted supply's limit with the value arrow (adjustCurLimit) or none (showCurLimit) |
| PowerSupply.MyApp.UpdateADC | AVRPowerSupply.cpp:312-328 | the ADC state takes one `AdcStep` and the sample windows follow, keeping every accumulator the sum of its window |
| PowerSupply.MyApp.StepAdc | AVRPowerSupply.cpp:314-327 | the in-place array updates of `updateADC` compute `AdcStep` |
| PowerSupply.MyApp.RecomputeVoltages | AVRPowerSupply.cpp:319-325 | every voltage is recomputed from its accumulator and every accumulator cleared |
| PowerSupply.MyApp.StoreSupplyReading | AVRPowerSupply.cpp:333-346 | the readings are stored, and the display becomes dirty exactly when one differs |
| PowerSupply.MyApp.CheckSupplyLimit | AVRPowerSupply.cpp:347-353 | the count and the latch take one poll against the committed limit |
| PowerSupply.MyApp.UpdateCurrentSensor | AVRPowerSupply.cpp:330-355 | the power state becomes `SensorPoll` of the old one, and the display is dirty when it was or a reading changed |
| PowerSupply.MyApp.UpdateDisplay | AVRPowerSupply.cpp:292-298 | redraws, and cleans the display, exactly when it is enabled and dirty; otherwise nothing changes |
| PowerSupply.MyApp.IdleSensors | AVRPowerSupply.cpp:363-366 | a pending sensor capture is consumed and the sensors polled |
| PowerSupply.MyApp.IdleAdc | AVRPowerSupply.cpp:367-372 | a pending ADC value is consumed, folded in, and the ADC is pointed at the next channel |
| PowerSupply.MyApp.OnIdle | AVRPowerSupply.cpp:362-374 | the new state and the activities are those of `IdleStep` |
| PowerSupply.MyApp.HandleEvent | AVRPowerSupply.cpp:357-382 | the new state and the activities are those of `Dispatch`, and the invariant holds |

## Left out

- The LCD drawing of the live readings is not modelled. This covers `showPSVoltageAndCurrent`, `showPSCurrents`, `showTestVoltages` and the per-line loop of `updateDisplay`. They format through `FixedPoint8_8`, which is not part of this model, so a redraw is only reported as the `Redraw` activity.
- The TextLCD control insertions (`TextLCDClear`, `TextLCDClearLine`, `TextLCDSetLine`) are not modelled. Only the characters that follow them are.
- `Menu<MyApp>`'s interpreter, `Menu::handleEvent` and `ButtonSet` debouncing are not modelled; `Menu.h` and `Button.h` are not part of this model. The table is modelled as data, and the actions as methods.
- `MyErrorReporter::reportError`'s LCD prefix, its delay and its halt on fatal errors are left out. Only the text `toHex` leaves in the buffer is modelled.
- Pin and port macros, the INA219 I2C driver, the ADC peripheral, `Timer0`, `sei()` and the event timer are outside the model. Their values are parameters.
- `DeviceStream::flush`, `get` and `bytesAvailable` are pass-throughs to the device and are left out.
- `DeviceStream::put`: `operator<<(char)` goes through `put`, which calls `_device.write()` with no argument. The device's no-argument `write` is not part of this model, so a `char` insertion is modelled as writing that character (`Emit`).
- The shunt reading is modelled as an `int16_t`. The INA219 header is not part of this model, and the source stores it in an `int32_t`.
- Shifts and masks (`u >>= 4`, `u & 0xf`) are modelled as division and remainder by 16, which is what they compute on unsigned values.
- Supply.AdcStep: the model keeps the channel and sample count as integers. The `uint8_t` increments never wrap, because both counters are reset before they reach 4 and 16.

Behaviour of the code worth knowing:

- A supply is shut down on the fifth consecutive over-limit poll: the test is the post-increment `_overCurrentCount[i]++ > 3`.
- `write(0, …)` emits nothing at all, because the digit loop never runs for 0.
- The sample passed to `updateADC` is a 10-bit conversion result, so methods take `sample <= 1023` as a precondition.

## Findings

| source | as written | input that shows it | evidently intended | confidence | as-written member | corrected member |
|---|---|---|---|---|---|---|
| AVRPowerSupply.cpp:409, 438-439 | `toHex` starts storing at `buf + 10` of reportError's 12-byte buffer; a code needing 7 or 8 hex digits takes 11 characters and stores the last one at `buf[-1]` | code 0x01000000 (text "0x01000000" plus NUL) | start at the end of the 12-byte buffer, so every 32-bit code fits | not executed | Hex.AsWrittenOverrun | Hex.ErrorCodeText |
