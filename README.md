# Screen of cheali-charger, modelled in Dafny

cheali-charger is the firmware for a family of hobby LiPo/NiMH chargers built
on 8-bit AVR boards. `src/core/Screen.cpp` draws every status screen on the
two-line character LCD. It also keeps the session time bookkeeping that the time
screens show. This project models, and proves properties of:

- **the session timer:** the four namespace globals, `powerOn`, `powerOff`,
  `doSlowInterrupt` and `getTimeSec`. Module `Timing` defines them as functions
  on values. Class `Screen.ScreenState` holds the globals as fields and updates
  them in place, and its methods are proved against the `Timing` functions.
- **the integer metrics** (module `Metrics`):
  - the two-step charge percentage of `getChargeProcent`;
  - the Thevenin resistance `|V| * 1000 / I` built by `calculateRth2` and
    `calculateRth_calibrated`;
  - the wires' resistance over `Iout + 1`;
  - the per-cell value of `getBalanceValue`.
- **the status characters** (module `Status`):
  - the mode letter of `printChar_Time`;
  - the balancer's mode character;
  - the seven-character cell-state field that `displayBalanceInfo` builds in a
    loop. The loop is kept as a `while` loop in `Status.BalanceField`. When
    `balance_` is 0 the field is seven spaces (`src/core/Screen.cpp:104-117`);
  - the two-letter program abbreviation table.
- **every screen** (module `Renderers`). Each is a function from a snapshot of
  what the screen reads to the sequence of LCD calls it makes.
- **the dispatcher `display`** (module `Screen`). It ticks the blink counter
  once, then a total `match` over the fifteen screen types picks exactly one
  renderer.

The target is an AVR, where C++ `int` is 16 bits. The model writes out the
narrowings below, with the wrap functions of module `MachineInts`:

- the `uint16_t` and `uint32_t` subtractions wrap;
- `abs` of -32768 has no representable result in C++. The model takes the
  two's-complement wrap: `abs(-32768)` is -32768, and its conversion to
  `uint32_t` times 1000 wraps to 4262199296 (`Metrics.MinVoltageProduct`);
- `Iout + 1` wraps to 0 at 65535;
- `x * 10` in `deltaT` can overflow the signed 16-bit `int`. C++ leaves that
  undefined, and the model takes the two's-complement wrap;
- `getTimeSec` returns only the low 16 bits of the seconds.

Every LCD call becomes one `Lcd.Token`, and the formatting primitives stay
uninterpreted tokens. `Lcd.Line(out, n)` reads back what a screen writes on
display line `n`. `Lcd.TwoLines(out)` says that the screen moves to line 0,
writes it, moves to line 1 and writes that, and does nothing else. The small
shared pieces are modelled too:

- `printCharge` is `Renderers.ChargeTokens`;
- `printChar_Time` is `Renderers.CharTimeTokens`;
- `deltaV` is `Renderers.DeltaVTokens`;
- `deltaT` is `Renderers.DeltaTTokens`.

## Model

| member | source | states |
|---|---|---|
| MachineInts.AbsInt16 | src/core/Screen.cpp:57 | C `abs` on a 16-bit `int` is the absolute value; for -32768, where C++ gives no result, the model takes the two's-complement wrap back to -32768 |
| Lcd.TwoLineScreen | src/core/Screen.cpp:295-299 | a screen that sets the cursor to line 0, writes `top`, sets it to line 1 and writes `bottom` reads back exactly `top` on line 0 and `bottom` on line 1 |
| Status.TimeModeChar | src/core/Screen.cpp:150-159 | the mode letter is 'C' iff the SMPS is on, 'D' iff only the discharger is on, 'B' iff only the balancer works, 'N' iff nothing is active; the nested 'E' is never produced |
| Status.BalanceModeChar | src/core/Screen.cpp:91-100 | 'B' iff working with `savedVon_`, 'b' iff working without it, 'm' iff idle and unstable, ' ' iff idle and stable |
| Status.BalanceField | src/core/Screen.cpp:104-117 | the shifting-mask loop builds exactly the seven-character field of `Status.BalanceFieldSpec` |
| Status.BalanceFieldBlankIffIdle | src/core/Screen.cpp:104-117 | the field is seven spaces iff the mask is 0 |
| Status.BalanceFieldAt | src/core/Screen.cpp:106-116 | for a nonzero mask, position i is '_' iff i is the lowest cell, '1' iff it is not and bit i is set, '0' iff it is not and bit i is clear; position 6 is a space |
| Status.BalanceFieldIgnoresHighBits | src/core/Screen.cpp:104-115 | bits 6 and 7 of the mask only take part in the test for zero |
| Status.BalanceFieldMarksMinCell | src/core/Screen.cpp:107-108 | an underscore appears iff some cell balances and the lowest cell is one of 0..5 |
| Status.ProgramAbbrev | src/core/Screen.cpp:34-39 | for each of the fourteen program types the two characters at `prog*2` are two letters |
| Status.AbbreviationsTileTable | src/core/Screen.cpp:34-38 | the abbreviations of programs 0..n-1, concatenated, are the first 2n characters of the table |
| Status.AbbreviationsCoverTable | src/core/Screen.cpp:34-38 | the fourteen abbreviations, concatenated, are the whole 28-character table |
| Metrics.ChargePercent | src/core/Screen.cpp:41-54 | 100 when the reading reaches the charge limit (tested first), 0 when it is at or below the discharge limit, otherwise offset div (range div 100), which is below 200 and so fits in `uint8_t` |
| Metrics.ChargePercentInteriorMonotone | src/core/Screen.cpp:49-53 | between the limits the percentage never falls as the voltage rises |
| Metrics.ChargePercentExactRange | src/core/Screen.cpp:47-53 | when the range is a multiple of 100 the result is at most 100 and is monotone over every reading |
| Metrics.ChargePercentCanExceed100 | src/core/Screen.cpp:49-53 | with limits 0..199 a reading of 198 shows 198, while the limit itself shows 100 |
| Metrics.Rth2Wide | src/core/Screen.cpp:56-60 | for V ≠ -32768 the `uint32_t` quotient brackets `abs(V)*1000` between `R*I` and `R*I + I` and never exceeds 32767000; for V = -32768 it is 4262199296 div I |
| Metrics.CalculateRth2 | src/core/Screen.cpp:56-61 | for V ≠ -32768 the result is `abs(V)*1000 div I`, narrowed to 16 bits; for V = -32768 it is 4262199296 div I, narrowed to 16 bits |
| Metrics.Rth2SignInvariant | src/core/Screen.cpp:57 | `V` and `-V` give the same resistance |
| Metrics.Rth2WideMonotone | src/core/Screen.cpp:56-60 | a larger voltage magnitude over the same current never gives a smaller quotient |
| Metrics.CalibratedCurrent | src/core/Screen.cpp:64-65 | the calibration applied to `abs(I)`; for I = -32768 that is the calibration of 32768 |
| Metrics.CalculateRthCalibrated | src/core/Screen.cpp:63-67 | for V ≠ -32768 the result is `abs(V)*1000` div the calibrated `abs(I)`, narrowed to 16 bits; for V = -32768 it is 4262199296 div that current, narrowed |
| Metrics.RthCalibratedSignInvariant | src/core/Screen.cpp:63-67 | negating both voltage and current changes neither the calibrated current nor the resistance |
| Metrics.WiresResistance | src/core/Screen.cpp:246-248 | when the voltage difference fits in `int16_t` the result is `abs(Vout - Vbalancer)*1000 div (Iout+1)`, narrowed to 16 bits |
| Metrics.WiresResistanceSymmetric | src/core/Screen.cpp:246-248 | swapping the two voltages does not change the result, even when the 16-bit difference wraps |
| Metrics.BalanceValue | src/core/Screen.cpp:68-77 | the cell's presumed voltage for Voltage, else the cell's calibrated Thevenin resistance, including its wrapped value when the cell's V is -32768 |
| Timing.ElapsedMs | src/core/Screen.cpp:194-200 | while on, the start time plus the result is the clock reading modulo 2^32; while off, the stored elapsed time |
| Timing.TimeSec | src/core/Screen.cpp:194-200 | when the elapsed milliseconds fit, the result is the whole number of seconds in them |
| Timing.ElapsedAfterPowerOn | src/core/Screen.cpp:196-204 | `d` ms after powerOn the elapsed time is `d`, across a wrap of the 32-bit clock too |
| Timing.TimeSecAfterPowerOn | src/core/Screen.cpp:194-208 | 0 seconds at the instant of powerOn, 5 seconds 5000 ms later |
| Timing.TimeSecCountsSeconds | src/core/Screen.cpp:194-200 | `d` ms after powerOn the seconds are `d div 1000` modulo 2^16, and exactly `d div 1000` below 65536 s |
| Timing.PoweredOn | src/core/Screen.cpp:202-208 | powerOn sets the flag, clears both accumulators and starts the elapsed time at 0 |
| Timing.PoweredOff | src/core/Screen.cpp:210-214 | the flag is clear, the accumulators are kept, and when it was on the start field holds the elapsed time at the power-off |
| Timing.PowerOffFreezes | src/core/Screen.cpp:210-214 | after powerOff at `t` every later clock reading shows the time at `t`; the accumulators are unchanged and the flag is clear |
| Timing.TickAccumulates | src/core/Screen.cpp:216-224 | one tick adds the period (mod 2^32) to the charge/discharge total iff SMPS or discharger works and to the balance total iff the balancer works, and changes nothing else |
| Timing.Ticked | src/core/Screen.cpp:216-224 | the start field and the flag are kept; an accumulator whose activity flag is clear is kept |
| Timing.Ticks | src/core/Screen.cpp:216-224 | n ticks keep the start field and the flag, and keep each accumulator whose activity flag is clear |
| Timing.TicksChargeDischarge | src/core/Screen.cpp:218-219 | after n ticks the charge/discharge total has gained n periods (mod 2^32) if the power stage works, and nothing otherwise |
| Timing.TicksBalance | src/core/Screen.cpp:221-222 | after n ticks the balance total has gained n periods (mod 2^32) if the balancer works, and nothing otherwise |
| Timing.TicksKeepSession | src/core/Screen.cpp:216-224 | ticks never change the start field or the power flag |
| Timing.TicksAccumulate | src/core/Screen.cpp:216-224 | n ticks with the same flags add n periods (mod 2^32) to the matching totals and change nothing else |
| Timing.TicksAfterPowerOn | src/core/Screen.cpp:202-224 | n working ticks after powerOn give n times the period of charge/discharge time |
| Renderers.ChargeTokens | src/core/Screen.cpp:145-148 | the charge in width 8 and then one space, with no cursor move |
| Renderers.CharTimeTokens | src/core/Screen.cpp:150-165 | the mode letter, a space, the session seconds, a space |
| Renderers.DeltaVTokens | src/core/Screen.cpp:325-332 | the voltage delta, read into a 16-bit `int`, printed signed in width 5 |
| Renderers.DeltaTTokens | src/core/Screen.cpp:333-343 | "not used" iff the external sensor is disabled; otherwise the delta times ten, taken with the two's-complement 16-bit wrap; always ends by blanking the line |
| Renderers.DisplayScreenFirst | src/core/Screen.cpp:167-178 | two lines: charge and output current; mode letter, time and balancer voltage |
| Renderers.DisplayScreenCIVlimits | src/core/Screen.cpp:180-192 | two lines: capacity limit and charge current; "Limits: " and the charge voltage |
| Renderers.DisplayScreenTime | src/core/Screen.cpp:226-235 | two lines: the session seconds; the balance and charge/discharge seconds |
| Renderers.DisplayScreenTemperature | src/core/Screen.cpp:277-293 | the external temperature iff the sensor is enabled, "-" iff not; the internal one iff that build variant is on, else a blank line |
| Renderers.DisplayScreenR | src/core/Screen.cpp:237-251 | line 0 is the battery resistance; line 1 shows "wires R=" and the wires' resistance iff the balance port is connected, and is blank otherwise |
| Renderers.DisplayScreenVinput | src/core/Screen.cpp:253-263 | two lines: the input voltage; its low limit |
| Renderers.DisplayScreenVout | src/core/Screen.cpp:265-275 | two lines: the output voltage; the balance-port voltage |
| Renderers.DisplayStrings | src/core/Screen.cpp:295-299 | the two strings on the two lines |
| Renderers.ScreenEnd | src/core/Screen.cpp:301-312 | the first line as given; "reason: " and the stop reason on line 1 iff the reason is nonempty, else a blank line |
| Renderers.DisplayScreenProgramCompleted | src/core/Screen.cpp:314-317 | "program complete"; the reason iff there is one |
| Renderers.DisplayMonitorError | src/core/Screen.cpp:319-322 | "monitor error"; the reason iff there is one |
| Renderers.DisplayDeltaFirst | src/core/Screen.cpp:346-355 | two lines: charge and temperature delta; mode letter, time and voltage delta |
| Renderers.DisplayDeltaVout | src/core/Screen.cpp:358-368 | two lines: the largest output voltage; the voltage delta |
| Renderers.DisplayDeltaTextern | src/core/Screen.cpp:370-384 | the last temperature sample iff the sensor is enabled; "not used" on both lines iff it is not |
| Renderers.DisplayNotImplemented | src/core/Screen.cpp:387-390 | "Function not" / "implemented yet" |
| Renderers.DisplayScreenReversedPolarity | src/core/Screen.cpp:398-402 | line 0 is "REVERSE POLARITY" and line 1 is left untouched |
| Renderers.BlinkBit | src/core/Screen.cpp:425-435 | bits 0, 1 and 2 of the blink index are `index mod 2 = 1`, `index mod 4 >= 2` and `index mod 8 >= 4`, as `bindex & 1`, `& 2`, `& 4` test them |
| Renderers.PercentTokens | src/core/Screen.cpp:414-423 | "FUL " iff the percentage is 100 and the blink is on, four spaces iff it is 100 and the blink is off, the number and "% " iff it is not 100 |
| Renderers.PortTokens | src/core/Screen.cpp:430-441 | for Li-ion chemistries the balance voltage iff blink bit 1 and the port count iff blink bit 2; the capacity iff not Li-ion |
| Renderers.VoutTokens | src/core/Screen.cpp:426-427 | the output voltage iff blink bit 0 is set, else five spaces |
| Renderers.StartInfoBottomLine | src/core/Screen.cpp:413-441 | "FUL " iff the percentage is 100 and the blink is on; four spaces iff 100 and off; the number and "% " iff not 100; the output voltage iff blink bit 0; the balance voltage iff Li-ion and blink bit 1; the port count iff Li-ion and blink bit 2; the capacity iff not Li-ion |
| Renderers.DisplayStartInfo | src/core/Screen.cpp:404-442 | two lines: battery, voltage and program abbreviation; then the charge-state line above |
| Renderers.PrintBalancer | src/core/Screen.cpp:79-85 | the dashed placeholder iff the cell's port is disconnected, else the cell's voltage or resistance in width 6 |
| Renderers.FieldTokens | src/core/Screen.cpp:104-117 | seven spaces in one call for an empty mask, else one character per field position; never a digit or text |
| Renderers.FirstCellTokens | src/core/Screen.cpp:119-131 | four calls: the label `from+1`, ':', then "n.a." iff the discharge-correction condition holds and otherwise the value of cell `from`, then the padding; the placeholder iff the condition does not hold and the cell is disconnected |
| Renderers.BalanceTopLine | src/core/Screen.cpp:89-131 | the mode character and the cell-state field, followed by exactly the four calls of `Renderers.FirstCellTokens`, so label `from+1` stands with cell `from`; "n.a." iff the discharge-correction condition holds; the placeholder iff it does not and the cell is disconnected |
| Renderers.BalanceBottomLine | src/core/Screen.cpp:133-140 | seven calls: label `from+2`, ':', the value of cell `from+1`, label `from+3`, ':', the value of cell `from+2`, the padding; the placeholder iff one of those cells is disconnected |
| Renderers.DisplayBalanceInfo | src/core/Screen.cpp:87-141 | two lines: exactly the top and bottom lines above |
| Screen.BalancePageOf | src/core/Screen.cpp:454-457 | the 1-3 screens start at cell 0 and the 4-6 screens at cell 3; the value type is Resistance exactly for the Rth screens |
| Screen.Render | src/core/Screen.cpp:449-465 | every screen type gives a two-line screen; a balance screen shows the top and bottom lines of its page |
| Screen.BalancePagesLabelCells | src/core/Screen.cpp:454-457 | the 1-3 pages label cells 1, 2, 3 and the 4-6 pages label cells 4, 5, 6 |
| Screen.RthPagesDifferOnlyOnConnectedCells | src/core/Screen.cpp:79-85 | with no cell of a page connected, the voltage and resistance variants draw the same screen |
| Screen.ScreenState.constructor | src/core/Screen.cpp:28-32 | the globals start zeroed and powered off |
| Screen.ScreenState.PowerOn | src/core/Screen.cpp:202-208 | the timing state becomes `Timing.PoweredOn(now)`; the blink counter is not touched |
| Screen.ScreenState.PowerOff | src/core/Screen.cpp:210-214 | the timing state becomes `Timing.PoweredOff(old, now)`; only the start field and the flag may change |
| Screen.ScreenState.DoSlowInterrupt | src/core/Screen.cpp:216-224 | the timing state becomes `Timing.Ticked(old, period, ...)`; only the two accumulators may change |
| Screen.ScreenState.GetTimeSec | src/core/Screen.cpp:194-200 | the result is `Timing.TimeSec` of the current state: whole seconds since powerOn while on, the frozen time when off |
| Screen.ScreenState.Display | src/core/Screen.cpp:446-466 | the blink counter goes up by exactly one and the output is `Screen.Render` of the chosen screen |
| Screen.SessionScenario | src/core/Screen.cpp:194-224 | powerOn, three working ticks, 5 s shown 5000 ms in, still 5 s an hour after powerOff there; the totals are 3 periods and 0 |

## Left out

- LCD output and the formatting primitives (`lcdPrint*`, `lcdPrintTime`, `lcdPrintResistance`, `printRealValue`, `printBatteryString`, `printVoltageString`) are display-driver code. They stay uninterpreted tokens, so the characters they produce and the widths they pad to are not modelled. Nor is the argument type of `lcdPrintTime`: `Renderers.DisplayScreenTime` passes the unnarrowed `total/1000` values.
- Sensor readings, `AnalogInputs::isConnected` and `AnalogInputs::calibrateValue` are inputs. The readings, the connection flags and the Thevenin data are fields of `Renderers.Snapshot`. The calibration is the function field `calibrate`. `AnalogInputs::ValueType` is taken to be `uint16_t`.
- `Timer::getMiliseconds()` is the parameter `now`. `SLOW_INTERRUPT_PERIOD_MILISECONDS` is defined outside the modelled file, so it is the constructor parameter `period`.
- The `Blink` implementation is not part of this model. `Screen.ScreenState.blinkTime` only counts `incBlinkTime()` calls. The index and off flag a screen reads are the input `Renderers.BlinkView`, so no blink cadence is assumed.
- Each SMPS, discharger and balancer query is read once per refresh, as the snapshot flags. A state change between two queries inside one renderer call is not modelled.
- `runNotImplemented` draws `Renderers.DisplayNotImplemented` and then blocks on `waitButtonPressed`, which is user input.
- `PROGMEM` and `strlen_P` storage are ordinary strings.
- `printProgram2chars` does not check its index. `Status.ProgramAbbrev` requires a program type in 0..13, so reading past the table is not modelled.
- The `ENABLE_B0_DISCHARGE_VOLTAGE_CORRECTION` and `ENABLE_T_INTERNAL` build variants are the booleans of `Renderers.Config`.
- `src/hardware/400W/400W.h` holds only hardware limits and feature switches, with no logic.
- Metrics.WiresResistance: the contract gives the value only when `Vout - Vbalancer` fits in `int16_t`. Otherwise it is the wrapped difference, which the body follows and `Metrics.WiresResistanceSymmetric` relates.
- Division by zero: `calculateRth2`, `getChargeProcent` and the wires' resistance of `displayScreenR` do not guard their divisors, so what the AVR does on a division by zero is not modelled. Each member requires the divisor to be nonzero: `Metrics.ChargePercentDefined`, `i > 0`, `Metrics.CalibratedCurrent(...) > 0`, `iout != 0xFFFF` and, per screen, `Screen.Renderable`.
- MachineInts.AbsInt16, Metrics.MinVoltageProduct, Renderers.DeltaTTokens: C++ leaves `abs(-32768)` and the signed `int` overflow of `x * 10` in `deltaT` undefined. The two's-complement wrap these members use is the model's assumption. A compiler that takes `abs` to be never negative could zero-extend in `uint32_t R = abs(V)` instead, and that would give 32768000 div I. So the V = -32768 cases of `Metrics.Rth2Wide`, `Metrics.CalculateRth2`, `Metrics.CalibratedCurrent`, `Metrics.CalculateRthCalibrated` and `Metrics.BalanceValue` hold only under that assumption.
- Screen.ScreenState.DoSlowInterrupt: each slow interrupt is one atomic step between two screen refreshes, and `Screen.Render` always receives a consistent `Timing.TimingState`. A tick that arrives in the middle of a multi-byte read of a 32-bit accumulator on the 8-bit target is not modelled.
- Timing.PoweredOff: a second `powerOff` with no `powerOn` in between subtracts the stored elapsed time from the clock again. The body follows the code there, but no contract states a meaning for that case.
