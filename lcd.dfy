/** The screens' view of the two-line character display: every LCD call a
    renderer makes becomes one token, and the formatting primitives that turn
    a value into characters stay uninterpreted. */
module Lcd {

  /** `AnalogInputs::Type` as far as the screens use it. */
  datatype AnalogType = Voltage | Resistance

  /** Analog channels that a screen prints without looking at the value. */
  datatype Channel =
    | Iout | Vout | Vbalancer | VoutBalancer | Vin | Cout | Textern | Tintern | DeltaVoutMax

  /** Values from the program data or the settings that a screen prints without looking at them. */
  datatype Quantity =
    | Reading(ch: Channel)   // AnalogInputs::getRealValue
    | CapacityLimit          // ProgramData::getCapacityLimit()
    | BatteryIc              // ProgramData battery.Ic
    | BatteryC               // ProgramData battery.C
    | VChargeLimit           // ProgramData::getVoltage(VCharge)
    | InputVoltageLow        // settings.inputVoltageLow_
    | DeltaLastT             // AnalogInputs::deltaLastT_

  /** One call into the display driver or a formatting primitive. */
  datatype Token =
    | SetCursor(line: nat)                               // lcdSetCursor0_0 / lcdSetCursor0_1
    | PrintText(s: string)                               // lcdPrint_P
    | PrintChar(c: char)                                 // lcdPrintChar
    | PrintSpaces(n: nat)                                // lcdPrintSpaces(n)
    | PadSpaces                                          // lcdPrintSpaces(): blank the rest of the line
    | PrintDigit(d: int)                                 // lcdPrintDigit
    | PrintUnsigned(v: int, width: nat)                  // lcdPrintUnsigned
    | PrintSigned(v: int, width: nat)                    // lcdPrintSigned
    | PrintTime(seconds: int)                            // lcdPrintTime
    | PrintAnalog(v: int, kind: AnalogType, width: nat)  // lcdPrintAnalog of a computed value
    | PrintAnalogOf(q: Quantity, kind: AnalogType, width: nat)
    | PrintResistance(v: int, width: nat)                // lcdPrintResistance
    | PrintRealValue(ch: Channel, width: nat)            // AnalogInputs::printRealValue
    | PrintCharge(q: Quantity, width: nat)               // lcdPrintCharge
    | PrintCurrent(q: Quantity, width: nat)              // lcdPrintCurrent
    | PrintVoltage(q: Quantity, width: nat)              // lcdPrintVoltage
    | PrintTemperature(q: Quantity, width: nat)          // lcdPrintTemperature
    | PrintBatteryString(width: nat)                     // ProgramData::printBatteryString
    | PrintVoltageString                                 // ProgramData::printVoltageString

  /** A run of tokens that writes text and never moves the cursor. */
  predicate NoCursor(s: seq<Token>) {
    forall i :: 0 <= i < |s| ==> !s[i].SetCursor?
  }

  /** One character per token. */
  function Chars(s: string): (r: seq<Token>)
    ensures |r| == |s| && NoCursor(r)
    ensures forall i :: 0 <= i < |s| ==> r[i] == PrintChar(s[i])
  {
    seq(|s|, i requires 0 <= i < |s| => PrintChar(s[i]))
  }

  /** The line the cursor is on after `out`, starting on line `cur` (-1: not yet placed). */
  function CursorAfter(out: seq<Token>, cur: int): int
    decreases |out|
  {
    if out == [] then cur
    else if out[0].SetCursor? then CursorAfter(out[1..], out[0].line)
    else CursorAfter(out[1..], cur)
  }

  /** The tokens of `out` written while the cursor is on line `n`, starting on line `cur`. */
  function LineFrom(out: seq<Token>, cur: int, n: nat): seq<Token>
    decreases |out|
  {
    if out == [] then []
    else if out[0].SetCursor? then LineFrom(out[1..], out[0].line, n)
    else (if cur == n then [out[0]] else []) + LineFrom(out[1..], cur, n)
  }

  /** What a screen writes on display line `n`. */
  function Line(out: seq<Token>, n: nat): seq<Token> {
    LineFrom(out, -1, n)
  }

  /** The usual screen: move to line 0, write `top`, move to line 1, write
      `bottom`. Reading the lines back gives `top` and `bottom` again. */
  function TwoLineScreen(top: seq<Token>, bottom: seq<Token>): (out: seq<Token>)
    requires NoCursor(top) && NoCursor(bottom)
    ensures Line(out, 0) == top && Line(out, 1) == bottom
    ensures TwoLines(out)
  {
    LinesOfTwoLineScreen(top, bottom);
    [SetCursor(0)] + top + [SetCursor(1)] + bottom
  }

  /** `out` writes line 0 and then line 1, each after one cursor move, and nothing else. */
  predicate TwoLines(out: seq<Token>) {
    out == [SetCursor(0)] + Line(out, 0) + [SetCursor(1)] + Line(out, 1)
  }

  lemma {:induction false} LineFromAppend(a: seq<Token>, b: seq<Token>, cur: int, n: nat)
    ensures LineFrom(a + b, cur, n) == LineFrom(a, cur, n) + LineFrom(b, CursorAfter(a, cur), n)
    decreases |a|
  {
    if a == [] {
      assert a + b == b;
    } else {
      assert (a + b)[1..] == a[1..] + b;
      if a[0].SetCursor? {
        LineFromAppend(a[1..], b, a[0].line, n);
      } else {
        LineFromAppend(a[1..], b, cur, n);
      }
    }
  }

  lemma {:induction false} LineFromNoCursor(s: seq<Token>, cur: int, n: nat)
    requires NoCursor(s)
    ensures LineFrom(s, cur, n) == (if cur == n then s else [])
    ensures CursorAfter(s, cur) == cur
    decreases |s|
  {
    if s != [] {
      LineFromNoCursor(s[1..], cur, n);
      if cur == n {
        assert s == [s[0]] + s[1..];
      }
    }
  }

  /** A two-line screen shows `top` on line 0, `bottom` on line 1 and nothing elsewhere. */
  lemma LinesOfTwoLineScreen(top: seq<Token>, bottom: seq<Token>)
    requires NoCursor(top) && NoCursor(bottom)
    ensures var out := [SetCursor(0)] + top + [SetCursor(1)] + bottom;
      forall n: nat :: Line(out, n) == (if n == 0 then top else if n == 1 then bottom else [])
  {
    var out := [SetCursor(0)] + top + [SetCursor(1)] + bottom;
    forall n: nat
      ensures Line(out, n) == (if n == 0 then top else if n == 1 then bottom else [])
    {
      assert out == [SetCursor(0)] + (top + ([SetCursor(1)] + bottom));
      LineFromAppend([SetCursor(0)], top + ([SetCursor(1)] + bottom), -1, n);
      LineFromAppend(top, [SetCursor(1)] + bottom, 0, n);
      LineFromNoCursor(top, 0, n);
      LineFromAppend([SetCursor(1)], bottom, 0, n);
      LineFromNoCursor(bottom, 1, n);
    }
  }
}
