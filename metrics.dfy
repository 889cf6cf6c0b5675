/** The integer metrics the screens derive from sensor readings: the charge
    percentage of the start screen and the Thevenin resistances. */
module Metrics {
  import opened MachineInts
  import Lcd

  // ---------------------------------------------------------------- charge percentage

  /** getChargeProcent divides by `(VCharge - VDischarge) / 100` without a guard;
      that divisor is only reached strictly between the two limits. */
  predicate ChargePercentDefined(v: uint16, vCharge: uint16, vDischarge: uint16) {
    v >= vCharge || v <= vDischarge || vCharge - vDischarge >= 100
  }

  /** getChargeProcent: the balancer output voltage `v` placed between the
      discharge limit and the charge limit, with the range first divided by 100
      and the offset then divided by that step. */
  function ChargePercent(v: uint16, vCharge: uint16, vDischarge: uint16): (r: uint8)
    requires ChargePercentDefined(v, vCharge, vDischarge)
    ensures v >= vCharge ==> r == 100
    ensures v < vCharge && v <= vDischarge ==> r == 0
    ensures vDischarge < v < vCharge ==> r == (v - vDischarge) / ((vCharge - vDischarge) / 100)
    ensures vDischarge < v < vCharge ==> r < 200
  {
    if v >= vCharge then 100
    else if v <= vDischarge then 0
    else
      ChargePercentSteps(v, vCharge, vDischarge);
      // the two 16-bit subtractions, the step division and the uint8_t return of src/core/Screen.cpp:49-53
      Wrap8(Wrap16(Wrap16(v - vDischarge) / (Wrap16(vCharge - vDischarge) / 100)))
  }

  /** The 16-bit steps of the interior branch neither wrap nor truncate. */
  lemma ChargePercentSteps(v: uint16, vCharge: uint16, vDischarge: uint16)
    requires vDischarge < v < vCharge && vCharge - vDischarge >= 100
    ensures var q := Wrap16(v - vDischarge) / (Wrap16(vCharge - vDischarge) / 100);
      q == (v - vDischarge) / ((vCharge - vDischarge) / 100) && q < 200 && Wrap8(Wrap16(q)) == q
  {
    assert Wrap16(v - vDischarge) == v - vDischarge;
    assert Wrap16(vCharge - vDischarge) == vCharge - vDischarge;
    StepQuotientBelow200(v - vDischarge, vCharge - vDischarge);
  }

  /** An offset strictly inside a range of at least 100, divided by a hundredth
      of the range (rounded down), is below 200. */
  lemma StepQuotientBelow200(offset: nat, range: nat)
    requires offset < range && range >= 100
    ensures offset / (range / 100) < 200
  {
    var step := range / 100;
    assert step >= 1;
    assert range < 100 * step + 100;
    assert offset < 200 * step by {
      assert 100 * step + 100 <= 200 * step;
    }
    DivBelow(offset, step, 200);
  }

  lemma DivBelow(a: nat, q: nat, k: nat)
    requires q > 0 && a < k * q
    ensures a / q < k
  {
    DivBounds(a, q);
    if k <= a / q {
      MulMonotone(k, a / q, q);
    }
  }

  /** Floor division brackets its dividend. */
  lemma DivBounds(a: nat, q: nat)
    requires q > 0
    ensures (a / q) * q <= a < (a / q) * q + q
  {
    assert a == (a / q) * q + a % q;
  }

  lemma MulMonotone(a: nat, b: nat, q: nat)
    requires a <= b
    ensures a * q <= b * q
  {
  }

  lemma DivMonotone(a: nat, b: nat, q: nat)
    requires q > 0 && a <= b
    ensures a / q <= b / q
  {
    DivBounds(a, q);
    DivBounds(b, q);
    if b / q < a / q {
      MulMonotone(b / q + 1, a / q, q);
    }
  }

  /** Strictly between the limits the percentage never falls as the voltage rises. */
  lemma ChargePercentInteriorMonotone(v: uint16, w: uint16, vCharge: uint16, vDischarge: uint16)
    requires vDischarge < v <= w < vCharge
    requires vCharge - vDischarge >= 100
    ensures ChargePercent(v, vCharge, vDischarge) <= ChargePercent(w, vCharge, vDischarge)
  {
    DivMonotone(v - vDischarge, w - vDischarge, (vCharge - vDischarge) / 100);
  }

  /** When the range is a whole multiple of 100 volts-units the two-step
      division is exact enough: the result stays in 0..100 and is monotone over
      every reading, across the limits included. */
  lemma ChargePercentExactRange(v: uint16, w: uint16, vCharge: uint16, vDischarge: uint16)
    requires vCharge - vDischarge >= 100 && (vCharge - vDischarge) % 100 == 0
    requires v <= w
    ensures ChargePercent(v, vCharge, vDischarge) <= 100
    ensures ChargePercent(v, vCharge, vDischarge) <= ChargePercent(w, vCharge, vDischarge)
  {
    var step := (vCharge - vDischarge) / 100;
    assert vCharge - vDischarge == 100 * step;
    if vDischarge < v < vCharge {
      DivBelow(v - vDischarge, step, 100);
    }
    if vDischarge < v <= w < vCharge {
      ChargePercentInteriorMonotone(v, w, vCharge, vDischarge);
    }
  }

  /** With a range that is not a multiple of 100 the interior value can exceed
      100: a limit range of 0..199 shows 198 at a reading of 198. */
  lemma ChargePercentCanExceed100()
    ensures ChargePercent(198, 199, 0) == 198
    ensures ChargePercent(199, 199, 0) == 100
  {
  }

  // ---------------------------------------------------------------- Thevenin resistance

  /** Under the model's two's-complement assumption for `abs(-32768)` (which C++
      leaves undefined), -32768 becomes 2^32 - 32768 as a `uint32_t`; times 1000,
      modulo 2^32, that is this product. */
  const MinVoltageProduct: int := 4262199296

  /** The `uint32_t` that calculateRth2 computes before returning it as a
      ValueType: `abs(V)`, times 1000, divided by `I`. */
  function Rth2Wide(v: int16, i: uint16): (r: uint32)
    requires i > 0
    ensures v != -0x8000 ==> r * i <= Abs(v) * 1000 < r * i + i
    ensures v != -0x8000 ==> r <= 32767000
    ensures v == -0x8000 ==> r == MinVoltageProduct / i
  {
    var r0 := Wrap32(AbsInt16(v));
    var r1 := Wrap32(r0 * 1000);
    Rth2Steps(v, i, r0, r1);
    r1 / i
  }

  /** The steps of calculateRth2 for a voltage whose `abs` is exact. */
  lemma Rth2Steps(v: int16, i: uint16, r0: uint32, r1: uint32)
    requires i > 0 && r0 == Wrap32(AbsInt16(v)) && r1 == Wrap32(r0 * 1000)
    ensures r1 / i <= r1
    ensures v != -0x8000 ==> r1 == Abs(v) * 1000 && r1 <= 32767000
    ensures v != -0x8000 ==> (r1 / i) * i <= Abs(v) * 1000 < (r1 / i) * i + i
    ensures v == -0x8000 ==> r1 == MinVoltageProduct
  {
    DivBounds(r1, i);
    DivAtMost(r1, i);
    if v != -0x8000 {
      assert r0 == Abs(v) && r0 <= 32767;
      MulMonotone(r0, 32767, 1000);
      assert r0 * 1000 < TWO32;
    }
  }

  lemma DivAtMost(a: nat, q: nat)
    requires q > 0
    ensures a / q <= a
  {
    DivBounds(a, q);
    MulMonotone(1, q, a / q);
  }

  /** calculateRth2: the resistance `|V| * 1000 / I`, returned as a 16-bit ValueType. */
  function CalculateRth2(v: int16, i: uint16): (r: uint16)
    requires i > 0
    ensures v != -0x8000 ==> r == Wrap16(Abs(v) * 1000 / i)
    ensures v == -0x8000 ==> r == Wrap16(MinVoltageProduct / i)
  {
    var wide := Rth2Wide(v, i);
    assert v != -0x8000 ==> wide == Abs(v) * 1000 / i by {
      if v != -0x8000 {
        QuotientUnique(Abs(v) * 1000, i, wide);
      }
    }
    Wrap16(wide)
  }

  lemma QuotientUnique(a: nat, q: nat, r: nat)
    requires q > 0 && r * q <= a < r * q + q
    ensures r == a / q
  {
    DivBounds(a, q);
    if a / q < r {
      MulMonotone(a / q + 1, r, q);
    } else if r < a / q {
      MulMonotone(r + 1, a / q, q);
    }
  }

  /** The sign of the voltage delta does not matter. */
  lemma Rth2SignInvariant(v: int16, i: uint16)
    requires i > 0 && v != -0x8000
    ensures CalculateRth2(v, i) == CalculateRth2(-v, i)
  {
  }

  /** A larger voltage delta over the same current never gives a smaller (unnarrowed) resistance. */
  lemma Rth2WideMonotone(v: int16, w: int16, i: uint16)
    requires i > 0 && v != -0x8000 && w != -0x8000 && Abs(v) <= Abs(w)
    ensures Rth2Wide(v, i) <= Rth2Wide(w, i)
  {
    QuotientUnique(Abs(v) * 1000, i, Rth2Wide(v, i));
    QuotientUnique(Abs(w) * 1000, i, Rth2Wide(w, i));
    DivMonotone(Abs(v) * 1000, Abs(w) * 1000, i);
  }

  /** The current that calculateRth_calibrated divides by: the calibrated `abs(I)`. */
  function CalibratedCurrent(i: int16, calibrate: uint16 -> uint16): (r: uint16)
    ensures i != -0x8000 ==> r == calibrate(Abs(i))
    ensures i == -0x8000 ==> r == calibrate(0x8000)
  {
    calibrate(Wrap16(AbsInt16(i)))
  }

  /** calculateRth_calibrated: `calibrate` stands for `AnalogInputs::calibrateValue`
      on the current channel `Program::iName_`. */
  function CalculateRthCalibrated(v: int16, i: int16, calibrate: uint16 -> uint16): (r: uint16)
    requires CalibratedCurrent(i, calibrate) > 0
    ensures v != -0x8000 ==> r == Wrap16(Abs(v) * 1000 / CalibratedCurrent(i, calibrate))
    ensures v == -0x8000 ==> r == Wrap16(MinVoltageProduct / CalibratedCurrent(i, calibrate))
  {
    CalculateRth2(v, CalibratedCurrent(i, calibrate))
  }

  /** Neither the sign of the voltage nor that of the current matters. */
  lemma RthCalibratedSignInvariant(v: int16, i: int16, calibrate: uint16 -> uint16)
    requires v != -0x8000 && i != -0x8000
    requires CalibratedCurrent(i, calibrate) > 0
    ensures CalibratedCurrent(-i, calibrate) == CalibratedCurrent(i, calibrate)
    ensures CalculateRthCalibrated(v, i, calibrate) == CalculateRthCalibrated(-v, -i, calibrate)
  {
  }

  /** The wires' resistance of displayScreenR: `Vout - Vbalancer` kept in an
      `int16_t`, over `Iout + 1` passed as a 16-bit current. The `+ 1` keeps the
      divisor away from zero except when `Iout` is 65535, where it wraps to 0. */
  function WiresResistance(vout: uint16, vbalancer: uint16, iout: uint16): (r: uint16)
    requires iout != 0xFFFF
    ensures Abs(vout - vbalancer) < 0x8000 ==> r == Wrap16(Abs(vout - vbalancer) * 1000 / (iout + 1))
  {
    var vwires := ToInt16(ToInt16(vout) - vbalancer);  // the int16_t difference of src/core/Screen.cpp:246-247
    assert Abs(vout - vbalancer) < 0x8000 ==> vwires == vout - vbalancer by {
      WrapDifference(vout, vbalancer);
    }
    CalculateRth2(vwires, Wrap16(iout + 1))
  }

  lemma WrapDifference(a: uint16, b: uint16)
    ensures ToInt16(ToInt16(a) - b) == ToInt16(a - b)
  {
    var x := ToInt16(a);
    assert x == a || x == a - TWO16;
  }

  /** The 16-bit difference the other way round is the negation, except at -32768, which is its own negation. */
  lemma WrapDifferenceSwapped(a: uint16, b: uint16)
    ensures var d := ToInt16(ToInt16(a) - b);
      ToInt16(ToInt16(b) - a) == (if d == -0x8000 then d else -d)
  {
    WrapDifference(a, b);
    WrapDifference(b, a);
  }

  /** Swapping the two voltages does not change the wires' resistance, even when the 16-bit difference wraps. */
  lemma WiresResistanceSymmetric(vout: uint16, vbalancer: uint16, iout: uint16)
    requires iout != 0xFFFF
    ensures WiresResistance(vout, vbalancer, iout) == WiresResistance(vbalancer, vout, iout)
  {
    WrapDifferenceSwapped(vout, vbalancer);
    var d := ToInt16(ToInt16(vout) - vbalancer);
    if d != -0x8000 {
      Rth2SignInvariant(d, Wrap16(iout + 1));
    }
  }

  // ---------------------------------------------------------------- balance port cells

  /** What a screen reads about one balance-port cell: `isConnected(Vb1 + cell)`,
      `balancer.getPresumedV(cell)` and the Thevenin data `TheveninMethod::tBal_[cell]`. */
  datatype Cell = Cell(connected: bool, presumedV: uint16, rthV: int16, rthI: int16)

  /** getBalanceValue asks for a resistance unless the type is Voltage; only then does it divide. */
  predicate BalanceValueDefined(c: Cell, kind: Lcd.AnalogType, calibrate: uint16 -> uint16) {
    kind == Lcd.Voltage || CalibratedCurrent(c.rthI, calibrate) > 0
  }

  /** getBalanceValue, with calculateRthCell: the cell's presumed voltage, or its Thevenin resistance. */
  function BalanceValue(c: Cell, kind: Lcd.AnalogType, calibrate: uint16 -> uint16): (r: uint16)
    requires BalanceValueDefined(c, kind, calibrate)
    ensures kind == Lcd.Voltage ==> r == c.presumedV
    ensures kind == Lcd.Resistance && c.rthV != -0x8000 ==>
      r == Wrap16(Abs(c.rthV) * 1000 / CalibratedCurrent(c.rthI, calibrate))
    ensures kind == Lcd.Resistance && c.rthV == -0x8000 ==>
      r == Wrap16(MinVoltageProduct / CalibratedCurrent(c.rthI, calibrate))
  {
    if kind == Lcd.Voltage then c.presumedV
    else CalculateRthCalibrated(c.rthV, c.rthI, calibrate)
  }
}
