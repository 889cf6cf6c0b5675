/** The screens of Screen.cpp as functions from a snapshot of the charger's
    state to the LCD calls they make. */
module Renderers {
  import opened MachineInts
  import opened Lcd
  import Metrics
  import Status
  import Timing

  /** The build variants `ENABLE_B0_DISCHARGE_VOLTAGE_CORRECTION` and `ENABLE_T_INTERNAL`. */
  datatype Config = Config(b0DischargeCorrection: bool, tInternal: bool)

  /** The six balance-port cells. */
  type Cells = s: seq<Metrics.Cell> | |s| == 6
    witness [Metrics.Cell(false, 0, 0, 0), Metrics.Cell(false, 0, 0, 0), Metrics.Cell(false, 0, 0, 0),
             Metrics.Cell(false, 0, 0, 0), Metrics.Cell(false, 0, 0, 0), Metrics.Cell(false, 0, 0, 0)]

  /** What the screens read from their collaborators during one refresh. */
  datatype Snapshot = Snapshot(
    smpsOn: bool,                 // SMPS::isPowerOn()
    dischargerOn: bool,           // Discharger::isPowerOn()
    dischargerValue: uint16,      // Discharger::getValue()
    balancerWorking: bool,        // balancer.isWorking()
    balancerStable: bool,         // balancer.isStable()
    savedVon: bool,               // balancer.savedVon_
    balance: bv8,                 // balancer.balance_
    minCell: uint8,               // balancer.minCell_
    cells: Cells,
    voutBalancer: uint16,         // getRealValue(VoutBalancer)
    vCharge: uint16,              // getVoltage(VCharge)
    vDischarge: uint16,           // getVoltage(VDischarge)
    vout: uint16,                 // getRealValue(Vout)
    vbalancer: uint16,            // getRealValue(Vbalancer)
    iout: uint16,                 // getRealValue(Iout)
    vbalancerConnected: bool,     // isConnected(Vbalancer)
    tVoutV: int16,                // TheveninMethod::tVout_.Rth_V_
    tVoutI: int16,                // TheveninMethod::tVout_.Rth_I_
    calibrate: uint16 -> uint16,  // calibrateValue(Program::iName_, _)
    deltaVout: uint16,            // getRealValue(deltaVout)
    deltaTextern: uint16,         // getRealValue(deltaTextern)
    externT: bool,                // settings.externT_
    isLiXX: bool,                 // ProgramData::isLiXX()
    programType: nat,             // Program::programType_
    connectedBalancePorts: nat,   // getConnectedBalancePorts()
    stopReason: string,           // Program::stopReason_
    config: Config)

  /** What the screens read from the Blink object after its tick. */
  datatype BlinkView = BlinkView(index: nat, off: bool)  // getBlinkIndex(), getBlinkOff()

  /** Bit `k` of the blink index, as `bindex & (1 << k)` tests it. */
  function BlinkBit(index: nat, k: nat): (b: bool)
    ensures k == 0 ==> (b <==> index % 2 == 1)
    ensures k == 1 ==> (b <==> index % 4 >= 2)
    ensures k == 2 ==> (b <==> index % 8 >= 4)
  {
    (index / Pow2(k)) % 2 == 1
  }

  function Pow2(k: nat): (r: nat)
    ensures r >= 1
  {
    if k == 0 then 1 else 2 * Pow2(k - 1)
  }

  // ---------------------------------------------------------------- shared pieces

  /** printCharge. */
  function ChargeTokens(): (r: seq<Token>)
    ensures NoCursor(r) && |r| == 2
    ensures r[0] == PrintCharge(Reading(Cout), 8) && r[1] == PrintChar(' ')
  {
    [PrintCharge(Reading(Cout), 8), PrintChar(' ')]
  }

  /** printChar_Time: the mode letter and the session seconds. */
  function CharTimeTokens(inp: Snapshot, t: Timing.TimingState, now: uint32): (r: seq<Token>)
    ensures NoCursor(r) && |r| == 4
    ensures r[0] == PrintChar(Status.TimeModeChar(inp.smpsOn, inp.dischargerOn, inp.balancerWorking))
    ensures r[2] == PrintTime(Timing.TimeSec(t, now))
  {
    [PrintChar(Status.TimeModeChar(inp.smpsOn, inp.dischargerOn, inp.balancerWorking)), PrintChar(' '),
     PrintTime(Timing.TimeSec(t, now)), PrintChar(' ')]
  }

  /** deltaV: the output-voltage delta, read into a 16-bit `int`. */
  function DeltaVTokens(inp: Snapshot): (r: seq<Token>)
    ensures NoCursor(r) && |r| == 4
    ensures r[0] == PrintSigned(ToInt16(inp.deltaVout), 5)
  {
    [PrintSigned(ToInt16(inp.deltaVout), 5), PrintChar('m'), PrintChar('V'), PadSpaces]
  }

  /** deltaT: the external temperature delta times ten when the external
      sensor is enabled, else "not used". The product is a 16-bit `int`; its overflow is
      undefined in C++, and the model takes the two's-complement wrap. */
  function DeltaTTokens(inp: Snapshot): (r: seq<Token>)
    ensures NoCursor(r) && |r| >= 2
    ensures PrintText("not used") in r <==> !inp.externT
    ensures inp.externT <==> r[0] == PrintSigned(ToInt16(ToInt16(inp.deltaTextern) * 10), 5)
    ensures r[|r| - 1] == PadSpaces
  {
    (if inp.externT then
       [PrintSigned(ToInt16(ToInt16(inp.deltaTextern) * 10), 5), PrintChar('m'), PrintChar('C')]
     else [PrintText("not used")])
    + [PadSpaces]
  }

  // ---------------------------------------------------------------- screens

  /** displayScreenFirst: charge and current; mode letter, time and balancer voltage. */
  function DisplayScreenFirst(inp: Snapshot, t: Timing.TimingState, now: uint32): (r: seq<Token>)
    ensures TwoLines(r)
    ensures Line(r, 0) == ChargeTokens() + [PrintRealValue(Iout, 7), PadSpaces]
    ensures Line(r, 1) == CharTimeTokens(inp, t, now) + [PrintRealValue(VoutBalancer, 7), PadSpaces]
  {
    TwoLineScreen(ChargeTokens() + [PrintRealValue(Iout, 7), PadSpaces],
                  CharTimeTokens(inp, t, now) + [PrintRealValue(VoutBalancer, 7), PadSpaces])
  }

  /** displayScreenCIVlimits: capacity and current limits; the charge voltage limit. */
  function DisplayScreenCIVlimits(): (r: seq<Token>)
    ensures TwoLines(r)
    ensures Line(r, 0) == [PrintCharge(CapacityLimit, 8), PrintChar(' '), PrintCurrent(BatteryIc, 7), PadSpaces]
    ensures Line(r, 1) == [PrintText("Limits: "), PrintVoltage(VChargeLimit, 7), PadSpaces]
  {
    TwoLineScreen([PrintCharge(CapacityLimit, 8), PrintChar(' '), PrintCurrent(BatteryIc, 7), PadSpaces],
                  [PrintText("Limits: "), PrintVoltage(VChargeLimit, 7), PadSpaces])
  }

  /** displayScreenTime: session seconds; balance and charge/discharge seconds. */
  function DisplayScreenTime(t: Timing.TimingState, now: uint32): (r: seq<Token>)
    ensures TwoLines(r)
    ensures Line(r, 0) == [PrintText("time:     "), PrintTime(Timing.TimeSec(t, now))]
    ensures Line(r, 1) == [PrintText("b "), PrintTime(t.balanceMs / 1000), PrintText("  "),
                           PrintTime(t.chargeDischargeMs / 1000)]
  {
    TwoLineScreen([PrintText("time:     "), PrintTime(Timing.TimeSec(t, now))],
                  [PrintText("b "), PrintTime(t.balanceMs / 1000), PrintText("  "), PrintTime(t.chargeDischargeMs / 1000)])
  }

  /** displayScreenTemperature: the external sensor or "-"; the internal one only in that build. */
  function DisplayScreenTemperature(inp: Snapshot): (r: seq<Token>)
    ensures TwoLines(r)
    ensures PrintRealValue(Textern, 5) in Line(r, 0) <==> inp.externT
    ensures PrintText("-") in Line(r, 0) <==> !inp.externT
    ensures PrintRealValue(Tintern, 5) in Line(r, 1) <==> inp.config.tInternal
    ensures !inp.config.tInternal ==> Line(r, 1) == [PadSpaces]
  {
    TwoLineScreen([PrintText("Text=")]
                  + (if inp.externT then [PrintRealValue(Textern, 5)] else [PrintText("-")])
                  + [PadSpaces],
                  (if inp.config.tInternal then [PrintText("Tint="), PrintRealValue(Tintern, 5)] else [])
                  + [PadSpaces])
  }

  /** displayScreenR divides in calculateRth_calibrated always, and in calculateRth2 for the wires only when the balance port is connected. */
  predicate ScreenRDefined(inp: Snapshot) {
    && Metrics.CalibratedCurrent(inp.tVoutI, inp.calibrate) > 0
    && (inp.vbalancerConnected ==> inp.iout != 0xFFFF)
  }

  /** displayScreenR: the battery's resistance; the wires' resistance when the balance port is connected. */
  function DisplayScreenR(inp: Snapshot): (r: seq<Token>)
    requires ScreenRDefined(inp)
    ensures TwoLines(r)
    ensures Line(r, 0) == [PrintText("batt. R="),
                           PrintResistance(Metrics.CalculateRthCalibrated(inp.tVoutV, inp.tVoutI, inp.calibrate), 8),
                           PadSpaces]
    ensures PrintText("wires R=") in Line(r, 1) <==> inp.vbalancerConnected
    ensures inp.vbalancerConnected ==>
      Line(r, 1) == [PrintText("wires R="), PrintResistance(Metrics.WiresResistance(inp.vout, inp.vbalancer, inp.iout), 8),
                     PadSpaces]
    ensures !inp.vbalancerConnected ==> Line(r, 1) == [PadSpaces]
  {
    var top := [PrintText("batt. R="),
                PrintResistance(Metrics.CalculateRthCalibrated(inp.tVoutV, inp.tVoutI, inp.calibrate), 8),
                PadSpaces];
    var wires := if inp.vbalancerConnected then
                   [PrintText("wires R="), PrintResistance(Metrics.WiresResistance(inp.vout, inp.vbalancer, inp.iout), 8)]
                 else [];
    var bottom := wires + [PadSpaces];
    assert PrintText("wires R=") in bottom <==> inp.vbalancerConnected by {
      assert PrintText("wires R=") !in [PadSpaces];
    }
    TwoLineScreen(top, bottom)
  }

  /** displayScreenVinput: input voltage; its low limit from the settings. */
  function DisplayScreenVinput(): (r: seq<Token>)
    ensures TwoLines(r)
    ensures Line(r, 0) == [PrintText("Vinput="), PrintRealValue(Vin, 7), PadSpaces]
    ensures Line(r, 1) == [PrintText(" limit="), PrintAnalogOf(InputVoltageLow, Voltage, 7), PadSpaces]
  {
    TwoLineScreen([PrintText("Vinput="), PrintRealValue(Vin, 7), PadSpaces],
                  [PrintText(" limit="), PrintAnalogOf(InputVoltageLow, Voltage, 7), PadSpaces])
  }

  /** displayScreenVout: output voltage; balance-port voltage. */
  function DisplayScreenVout(): (r: seq<Token>)
    ensures TwoLines(r)
    ensures Line(r, 0) == [PrintText("Vout ="), PrintRealValue(Vout, 7), PadSpaces]
    ensures Line(r, 1) == [PrintText("Vbal.="), PrintRealValue(Vbalancer, 7), PadSpaces]
  {
    TwoLineScreen([PrintText("Vout ="), PrintRealValue(Vout, 7), PadSpaces],
                  [PrintText("Vbal.="), PrintRealValue(Vbalancer, 7), PadSpaces])
  }

  /** displayStrings. */
  function DisplayStrings(s1: string, s2: string): (r: seq<Token>)
    ensures TwoLines(r)
    ensures Line(r, 0) == [PrintText(s1)] && Line(r, 1) == [PrintText(s2)]
  {
    TwoLineScreen([PrintText(s1)], [PrintText(s2)])
  }

  /** screenEnd: a first line, and on the second the stop reason when there is one. */
  function ScreenEnd(firstLine: string, stopReason: string): (r: seq<Token>)
    ensures TwoLines(r)
    ensures Line(r, 0) == [PrintText(firstLine)]
    ensures PrintText("reason: ") in Line(r, 1) <==> |stopReason| > 0
    ensures |stopReason| > 0 ==> Line(r, 1) == [PrintText("reason: "), PrintText(stopReason), PadSpaces]
    ensures |stopReason| == 0 ==> Line(r, 1) == [PadSpaces]
  {
    TwoLineScreen([PrintText(firstLine)],
                  (if |stopReason| > 0 then [PrintText("reason: "), PrintText(stopReason)] else [])
                  + [PadSpaces])
  }

  /** displayScreenProgramCompleted. */
  function DisplayScreenProgramCompleted(inp: Snapshot): (r: seq<Token>)
    ensures TwoLines(r) && Line(r, 0) == [PrintText("program complete")]
    ensures PrintText("reason: ") in Line(r, 1) <==> |inp.stopReason| > 0
  {
    ScreenEnd("program complete", inp.stopReason)
  }

  /** displayMonitorError. */
  function DisplayMonitorError(inp: Snapshot): (r: seq<Token>)
    ensures TwoLines(r) && Line(r, 0) == [PrintText("monitor error")]
    ensures PrintText("reason: ") in Line(r, 1) <==> |inp.stopReason| > 0
  {
    ScreenEnd("monitor error", inp.stopReason)
  }

  /** displayDeltaFirst: charge and temperature delta; mode letter, time and voltage delta. */
  function DisplayDeltaFirst(inp: Snapshot, t: Timing.TimingState, now: uint32): (r: seq<Token>)
    ensures TwoLines(r)
    ensures Line(r, 0) == ChargeTokens() + DeltaTTokens(inp)
    ensures Line(r, 1) == CharTimeTokens(inp, t, now) + DeltaVTokens(inp)
  {
    TwoLineScreen(ChargeTokens() + DeltaTTokens(inp), CharTimeTokens(inp, t, now) + DeltaVTokens(inp))
  }

  /** displayDeltaVout: the session's largest output voltage; the voltage delta. */
  function DisplayDeltaVout(inp: Snapshot): (r: seq<Token>)
    ensures TwoLines(r)
    ensures Line(r, 0) == [PrintText("maxVout="), PrintRealValue(DeltaVoutMax, 7), PadSpaces]
    ensures Line(r, 1) == [PrintText("delta V= ")] + DeltaVTokens(inp)
  {
    TwoLineScreen([PrintText("maxVout="), PrintRealValue(DeltaVoutMax, 7), PadSpaces],
                  [PrintText("delta V= ")] + DeltaVTokens(inp))
  }

  /** displayDeltaTextern: the last temperature sample or "not used"; the temperature delta. */
  function DisplayDeltaTextern(inp: Snapshot): (r: seq<Token>)
    ensures TwoLines(r)
    ensures PrintTemperature(DeltaLastT, 9) in Line(r, 0) <==> inp.externT
    ensures PrintText("not used") in Line(r, 0) <==> !inp.externT
    ensures PrintText("not used") in Line(r, 1) <==> !inp.externT
  {
    TwoLineScreen([PrintText("Text=")]
                  + (if inp.externT then [PrintTemperature(DeltaLastT, 9)] else [PrintText("not used")])
                  + [PadSpaces],
                  [PrintText("delta T= ")] + DeltaTTokens(inp))
  }

  /** displayNotImplemented. */
  function DisplayNotImplemented(): (r: seq<Token>)
    ensures TwoLines(r)
    ensures Line(r, 0) == [PrintText("Function not")] && Line(r, 1) == [PrintText("implemented yet")]
  {
    DisplayStrings("Function not", "implemented yet")
  }

  /** displayScreenReversedPolarity: only the first line is written. */
  function DisplayScreenReversedPolarity(): (r: seq<Token>)
    ensures Line(r, 0) == [PrintText("REVERSE POLARITY")]
    ensures Line(r, 1) == []
  {
    LineFromNoCursor([PrintText("REVERSE POLARITY")], 0, 0);
    LineFromNoCursor([PrintText("REVERSE POLARITY")], 0, 1);
    [SetCursor(0), PrintText("REVERSE POLARITY")]
  }

  // ---------------------------------------------------------------- start screen

  /** displayStartInfo reaches getChargeProcent's division and printProgram2chars's table. */
  predicate StartInfoDefined(inp: Snapshot) {
    && Metrics.ChargePercentDefined(inp.voutBalancer, inp.vCharge, inp.vDischarge)
    && inp.programType < Status.ProgramCount
  }

  /** The percentage, or "FUL " (blinking) when it is 100. */
  function PercentTokens(procent: uint8, blinkOff: bool): (r: seq<Token>)
    ensures NoCursor(r) && |r| >= 1
    ensures PrintText("FUL ") in r <==> procent == 100 && !blinkOff
    ensures PrintSpaces(4) in r <==> procent == 100 && blinkOff
    ensures PrintText("% ") in r <==> procent != 100
    ensures PrintUnsigned(procent, 2) in r <==> procent != 100
  {
    if procent == 100 then
      (if blinkOff then [PrintSpaces(4)] else [PrintText("FUL ")])
    else [PrintUnsigned(procent, 2), PrintText("% ")]
  }

  /** The balance-port block (Li-ion family) or the battery capacity (other chemistries). */
  function PortTokens(inp: Snapshot, index: nat): (r: seq<Token>)
    ensures NoCursor(r)
    ensures PrintRealValue(Vbalancer, 5) in r <==> inp.isLiXX && BlinkBit(index, 1)
    ensures PrintDigit(inp.connectedBalancePorts) in r <==> inp.isLiXX && BlinkBit(index, 2)
    ensures PrintCharge(BatteryC, 6) in r <==> !inp.isLiXX
    ensures PrintRealValue(Vout, 5) !in r && PrintText("FUL ") !in r && PrintText("% ") !in r
  {
    if inp.isLiXX then
      (if BlinkBit(index, 1) then [PrintRealValue(Vbalancer, 5)] else [PrintSpaces(5)])
      + (if BlinkBit(index, 2) then [PrintDigit(inp.connectedBalancePorts)] else [PrintChar(' ')])
    else [PrintCharge(BatteryC, 6), PadSpaces]
  }

  /** The blink-gated output voltage, or five spaces. */
  function VoutTokens(index: nat): (r: seq<Token>)
    ensures |r| == 1 && NoCursor(r)
    ensures r[0] == PrintRealValue(Vout, 5) <==> BlinkBit(index, 0)
    ensures !r[0].PrintText? && !r[0].PrintUnsigned? && !r[0].PrintDigit? && !r[0].PrintCharge?
    ensures r[0] != PrintSpaces(4) && r[0] != PrintRealValue(Vbalancer, 5)
  {
    if BlinkBit(index, 0) then [PrintRealValue(Vout, 5)] else [PrintSpaces(5)]
  }

  /** The second line of displayStartInfo: charge state, then the blink-gated
      output voltage, balance voltage and port count. */
  function StartInfoBottomLine(inp: Snapshot, blink: BlinkView): (r: seq<Token>)
    requires StartInfoDefined(inp)
    ensures NoCursor(r)
    ensures var procent := Metrics.ChargePercent(inp.voutBalancer, inp.vCharge, inp.vDischarge);
      && (PrintText("FUL ") in r <==> procent == 100 && !blink.off)
      && (PrintSpaces(4) in r <==> procent == 100 && blink.off)
      && (PrintText("% ") in r <==> procent != 100)
      && (PrintUnsigned(procent, 2) in r <==> procent != 100)
    ensures PrintRealValue(Vout, 5) in r <==> BlinkBit(blink.index, 0)
    ensures PrintRealValue(Vbalancer, 5) in r <==> inp.isLiXX && BlinkBit(blink.index, 1)
    ensures PrintDigit(inp.connectedBalancePorts) in r <==> inp.isLiXX && BlinkBit(blink.index, 2)
    ensures PrintCharge(BatteryC, 6) in r <==> !inp.isLiXX
  {
    var procent := Metrics.ChargePercent(inp.voutBalancer, inp.vCharge, inp.vDischarge);
    var percent := PercentTokens(procent, blink.off);
    var middle := VoutTokens(blink.index) + [PrintChar(' ')];
    var ports := PortTokens(inp, blink.index);
    assert PrintSpaces(4) !in ports && PrintUnsigned(procent, 2) !in ports;
    percent + middle + ports
  }

  /** displayStartInfo: battery, voltage and program labels; charge state and
      blink-gated output voltage, balance voltage and port count. */
  function DisplayStartInfo(inp: Snapshot, blink: BlinkView): (r: seq<Token>)
    requires StartInfoDefined(inp)
    ensures TwoLines(r)
    ensures Line(r, 0) == [PrintBatteryString(4), PrintChar(' '), PrintVoltageString, PrintChar(' '),
                           PrintText(Status.ProgramAbbrev(inp.programType))]
    ensures Line(r, 1) == StartInfoBottomLine(inp, blink)
  {
    TwoLineScreen([PrintBatteryString(4), PrintChar(' '), PrintVoltageString, PrintChar(' '),
                   PrintText(Status.ProgramAbbrev(inp.programType))],
                  StartInfoBottomLine(inp, blink))
  }

  // ---------------------------------------------------------------- balance screens

  /** The build variant that shows "n.a." for cell 1 while the discharger loads it. */
  predicate FirstCellNotApplicable(inp: Snapshot, from: nat) {
    inp.config.b0DischargeCorrection && from == 0 && inp.dischargerOn && inp.dischargerValue > 0
  }

  /** printBalancer divides only for a connected cell shown as a resistance. */
  predicate CellShowable(inp: Snapshot, cell: nat, kind: AnalogType)
    requires cell < 6
  {
    inp.cells[cell].connected ==> Metrics.BalanceValueDefined(inp.cells[cell], kind, inp.calibrate)
  }

  /** displayBalanceInfo reaches printBalancer for cells from..from+2, except a cell 0 shown as "n.a.". */
  predicate BalanceInfoDefined(inp: Snapshot, from: nat, kind: AnalogType) {
    && from <= 3
    && (FirstCellNotApplicable(inp, from) || CellShowable(inp, from, kind))
    && CellShowable(inp, from + 1, kind)
    && CellShowable(inp, from + 2, kind)
  }

  /** printBalancer: the cell's value, or a dashed placeholder when its port is not connected. */
  function PrintBalancer(inp: Snapshot, cell: nat, kind: AnalogType): (r: seq<Token>)
    requires cell < 6 && CellShowable(inp, cell, kind)
    ensures |r| == 1 && NoCursor(r)
    ensures r[0] == PrintText("  --  ") <==> !inp.cells[cell].connected
    ensures inp.cells[cell].connected && kind == Voltage ==>
      r[0] == PrintAnalog(inp.cells[cell].presumedV, Voltage, 6)
    ensures inp.cells[cell].connected && kind == Resistance ==>
      r[0] == PrintAnalog(Metrics.CalculateRthCalibrated(inp.cells[cell].rthV, inp.cells[cell].rthI, inp.calibrate),
                          Resistance, 6)
  {
    if inp.cells[cell].connected then
      [PrintAnalog(Metrics.BalanceValue(inp.cells[cell], kind, inp.calibrate), kind, 6)]
    else [PrintText("  --  ")]
  }

  /** The cell-state field as LCD calls: one character each, or one run of seven spaces. */
  function FieldTokens(inp: Snapshot): (r: seq<Token>)
    ensures NoCursor(r)
    ensures inp.balance == 0 ==> r == [PrintSpaces(7)]
    ensures inp.balance != 0 ==> r == Chars(Status.BalanceFieldSpec(inp.balance, inp.minCell))
    ensures PrintText("n.a.") !in r && PrintText("  --  ") !in r
  {
    if inp.balance != 0 then Chars(Status.BalanceFieldSpec(inp.balance, inp.minCell)) else [PrintSpaces(7)]
  }

  /** The label of cell `from + 1`, its value (or "n.a."), and the blanking of the rest of the line. */
  function FirstCellTokens(inp: Snapshot, from: nat, kind: AnalogType): (r: seq<Token>)
    requires BalanceInfoDefined(inp, from, kind)
    ensures NoCursor(r) && |r| == 4
    ensures r[0] == PrintDigit(from + 1) && r[1] == PrintChar(':') && r[3] == PadSpaces
    ensures FirstCellNotApplicable(inp, from) ==> r[2] == PrintText("n.a.")
    ensures !FirstCellNotApplicable(inp, from) ==> r[2] == PrintBalancer(inp, from, kind)[0]
    ensures PrintText("n.a.") in r <==> FirstCellNotApplicable(inp, from)
    ensures PrintText("  --  ") in r <==> !FirstCellNotApplicable(inp, from) && !inp.cells[from].connected
  {
    var first := if FirstCellNotApplicable(inp, from) then [PrintText("n.a.")] else PrintBalancer(inp, from, kind);
    [PrintDigit(from + 1), PrintChar(':')] + first + [PadSpaces]
  }

  lemma SplitAppend(a: seq<Token>, b: seq<Token>)
    ensures (a + b)[..|a|] == a && (a + b)[|a|..] == b
  {
  }

  /** The first line of displayBalanceInfo: mode character, cell-state field, then cell `from + 1`. */
  function BalanceTopLine(inp: Snapshot, from: nat, kind: AnalogType): (r: seq<Token>)
    requires BalanceInfoDefined(inp, from, kind)
    ensures NoCursor(r)
    ensures var mode := Status.BalanceModeChar(inp.balancerWorking, inp.balancerStable, inp.savedVon);
      && |r| == 1 + |FieldTokens(inp)| + 4
      && r[..1 + |FieldTokens(inp)|] == [PrintChar(mode)] + FieldTokens(inp)
      && r[1 + |FieldTokens(inp)|..] == FirstCellTokens(inp, from, kind)
    ensures PrintDigit(from + 1) in r
    ensures PrintText("n.a.") in r <==> FirstCellNotApplicable(inp, from)
    ensures PrintText("  --  ") in r <==> !FirstCellNotApplicable(inp, from) && !inp.cells[from].connected
  {
    var head := [PrintChar(Status.BalanceModeChar(inp.balancerWorking, inp.balancerStable, inp.savedVon))] + FieldTokens(inp);
    var tail := FirstCellTokens(inp, from, kind);
    SplitAppend(head, tail);
    head + tail
  }

  /** The second line of displayBalanceInfo: label `from + 2` with cell `from + 1`,
      then label `from + 3` with cell `from + 2`. */
  function BalanceBottomLine(inp: Snapshot, from: nat, kind: AnalogType): (r: seq<Token>)
    requires BalanceInfoDefined(inp, from, kind)
    ensures NoCursor(r) && |r| == 7
    ensures r[0] == PrintDigit(from + 2) && r[1] == PrintChar(':') && r[2] == PrintBalancer(inp, from + 1, kind)[0]
    ensures r[3] == PrintDigit(from + 3) && r[4] == PrintChar(':') && r[5] == PrintBalancer(inp, from + 2, kind)[0]
    ensures r[6] == PadSpaces
    ensures PrintDigit(from + 2) in r && PrintDigit(from + 3) in r
    ensures PrintText("  --  ") in r <==> !inp.cells[from + 1].connected || !inp.cells[from + 2].connected
  {
    var second := PrintBalancer(inp, from + 1, kind);
    var third := PrintBalancer(inp, from + 2, kind);
    assert PrintText("  --  ") in second <==> !inp.cells[from + 1].connected;
    assert PrintText("  --  ") in third <==> !inp.cells[from + 2].connected;
    [PrintDigit(from + 2), PrintChar(':')] + second + ([PrintDigit(from + 3), PrintChar(':')] + third + [PadSpaces])
  }

  /** displayBalanceInfo. */
  function DisplayBalanceInfo(inp: Snapshot, from: nat, kind: AnalogType): (r: seq<Token>)
    requires BalanceInfoDefined(inp, from, kind)
    ensures TwoLines(r)
    ensures Line(r, 0) == BalanceTopLine(inp, from, kind)
    ensures Line(r, 1) == BalanceBottomLine(inp, from, kind)
  {
    TwoLineScreen(BalanceTopLine(inp, from, kind), BalanceBottomLine(inp, from, kind))
  }
}
