/** The Screen namespace: the session globals and the Blink counter it owns,
    the four operations that update them, and the dispatcher `display`. */
module Screen {
  import opened MachineInts
  import opened Lcd
  import Timing
  import Renderers

  /** Screen::ScreenType: one variant per layout `display` can show. */
  datatype ScreenType =
    | ScreenFirst | ScreenCIVlimits | ScreenTime | ScreenTemperature
    | ScreenBalancer1_3 | ScreenBalancer4_6 | ScreenBalancer1_3Rth | ScreenBalancer4_6Rth
    | ScreenStartInfo | ScreenR | ScreenVout | ScreenVinput
    | ScreenDeltaVout | ScreenDeltaTextern | ScreenDeltaFirst

  /** The first cell and the value type of a balance screen. */
  datatype BalancePage = BalancePage(from: nat, kind: AnalogType)

  /** The four balance-page screen types. */
  predicate IsBalanceScreen(screen: ScreenType) {
    screen.ScreenBalancer1_3? || screen.ScreenBalancer4_6? || screen.ScreenBalancer1_3Rth? || screen.ScreenBalancer4_6Rth?
  }

  /** `display` passes these arguments to displayBalanceInfo. */
  function BalancePageOf(screen: ScreenType): (p: BalancePage)
    requires IsBalanceScreen(screen)
    ensures p.from == 0 <==> screen.ScreenBalancer1_3? || screen.ScreenBalancer1_3Rth?
    ensures p.from == 3 <==> screen.ScreenBalancer4_6? || screen.ScreenBalancer4_6Rth?
    ensures p.kind == Resistance <==> screen.ScreenBalancer1_3Rth? || screen.ScreenBalancer4_6Rth?
  {
    match screen
    case ScreenBalancer1_3 => BalancePage(0, Voltage)
    case ScreenBalancer4_6 => BalancePage(3, Voltage)
    case ScreenBalancer1_3Rth => BalancePage(0, Resistance)
    case ScreenBalancer4_6Rth => BalancePage(3, Resistance)
  }

  /** The renderer that `screen` selects never reaches an unguarded division by zero. */
  predicate Renderable(screen: ScreenType, inp: Renderers.Snapshot) {
    match screen
    case ScreenBalancer1_3 => Renderers.BalanceInfoDefined(inp, 0, Voltage)
    case ScreenBalancer4_6 => Renderers.BalanceInfoDefined(inp, 3, Voltage)
    case ScreenBalancer1_3Rth => Renderers.BalanceInfoDefined(inp, 0, Resistance)
    case ScreenBalancer4_6Rth => Renderers.BalanceInfoDefined(inp, 3, Resistance)
    case ScreenStartInfo => Renderers.StartInfoDefined(inp)
    case ScreenR => Renderers.ScreenRDefined(inp)
    case _ => true
  }

  /** The switch of `display`: exactly one renderer per screen type, over all fifteen. */
  function Render(screen: ScreenType, inp: Renderers.Snapshot, t: Timing.TimingState, now: uint32,
                  blink: Renderers.BlinkView): (r: seq<Token>)
    requires Renderable(screen, inp)
    ensures TwoLines(r)
    ensures IsBalanceScreen(screen) ==>
      var page := BalancePageOf(screen);
      && Line(r, 0) == Renderers.BalanceTopLine(inp, page.from, page.kind)
      && Line(r, 1) == Renderers.BalanceBottomLine(inp, page.from, page.kind)
  {
    match screen
    case ScreenFirst => Renderers.DisplayScreenFirst(inp, t, now)
    case ScreenCIVlimits => Renderers.DisplayScreenCIVlimits()
    case ScreenTime => Renderers.DisplayScreenTime(t, now)
    case ScreenTemperature => Renderers.DisplayScreenTemperature(inp)
    case ScreenBalancer1_3 => Renderers.DisplayBalanceInfo(inp, 0, Voltage)
    case ScreenBalancer4_6 => Renderers.DisplayBalanceInfo(inp, 3, Voltage)
    case ScreenBalancer1_3Rth => Renderers.DisplayBalanceInfo(inp, 0, Resistance)
    case ScreenBalancer4_6Rth => Renderers.DisplayBalanceInfo(inp, 3, Resistance)
    case ScreenStartInfo => Renderers.DisplayStartInfo(inp, blink)
    case ScreenR => Renderers.DisplayScreenR(inp)
    case ScreenVout => Renderers.DisplayScreenVout()
    case ScreenVinput => Renderers.DisplayScreenVinput()
    case ScreenDeltaVout => Renderers.DisplayDeltaVout(inp)
    case ScreenDeltaTextern => Renderers.DisplayDeltaTextern(inp)
    case ScreenDeltaFirst => Renderers.DisplayDeltaFirst(inp, t, now)
  }

  /** The two balance pages label cells 1..3 and 4..6. */
  lemma BalancePagesLabelCells(screen: ScreenType, inp: Renderers.Snapshot, t: Timing.TimingState, now: uint32,
                               blink: Renderers.BlinkView)
    requires IsBalanceScreen(screen) && Renderable(screen, inp)
    ensures var r := Render(screen, inp, t, now, blink);
      var first := if screen.ScreenBalancer1_3? || screen.ScreenBalancer1_3Rth? then 1 else 4;
      && PrintDigit(first) in Line(r, 0)
      && PrintDigit(first + 1) in Line(r, 1) && PrintDigit(first + 2) in Line(r, 1)
  {
  }

  /** With every port of a page disconnected the voltage and resistance variants look the same: the value type only matters for a connected cell. */
  lemma RthPagesDifferOnlyOnConnectedCells(inp: Renderers.Snapshot, from: nat)
    requires from <= 3
    requires !inp.cells[from].connected && !inp.cells[from + 1].connected && !inp.cells[from + 2].connected
    ensures Renderers.DisplayBalanceInfo(inp, from, Voltage) == Renderers.DisplayBalanceInfo(inp, from, Resistance)
  {
    assert Renderers.PrintBalancer(inp, from, Voltage) == Renderers.PrintBalancer(inp, from, Resistance);
    assert Renderers.PrintBalancer(inp, from + 1, Voltage) == Renderers.PrintBalancer(inp, from + 1, Resistance);
    assert Renderers.PrintBalancer(inp, from + 2, Voltage) == Renderers.PrintBalancer(inp, from + 2, Resistance);
  }

  /** The namespace globals of Screen.cpp. `period` is SLOW_INTERRUPT_PERIOD_MILISECONDS;
      `blinkTime` counts the calls of `blink.incBlinkTime()`. */
  class ScreenState {
    var startTimeTotalTime: uint32
    var totalBalanceTime: uint32
    var totalChargDischargeTime: uint32
    var on: bool
    var blinkTime: nat
    const period: uint32

    /** The timing globals as a value. */
    function Times(): Timing.TimingState
      reads this
    {
      Timing.TimingState(startTimeTotalTime, totalBalanceTime, totalChargDischargeTime, on)
    }

    /** Static storage starts zeroed. */
    constructor (period: uint32)
      ensures this.period == period
      ensures Times() == Timing.TimingState(0, 0, 0, false) && blinkTime == 0
    {
      this.period := period;
      startTimeTotalTime, totalBalanceTime, totalChargDischargeTime, on := 0, 0, 0, false;
      blinkTime := 0;
    }

    /** powerOn. */
    method PowerOn(now: uint32)
      modifies this`startTimeTotalTime, this`totalBalanceTime, this`totalChargDischargeTime, this`on
      ensures Times() == Timing.PoweredOn(now)
    {
      startTimeTotalTime := now;
      totalBalanceTime := 0;
      totalChargDischargeTime := 0;
      on := true;
    }

    /** powerOff: only the start time and the flag change. */
    method PowerOff(now: uint32)
      modifies this`startTimeTotalTime, this`on
      ensures Times() == Timing.PoweredOff(old(Times()), now)
    {
      startTimeTotalTime := Wrap32(now - startTimeTotalTime);
      on := false;
    }

    /** doSlowInterrupt: only the two accumulators change. */
    method DoSlowInterrupt(smpsWorking: bool, dischargerWorking: bool, balancerWorking: bool)
      modifies this`totalBalanceTime, this`totalChargDischargeTime
      ensures Times() == Timing.Ticked(old(Times()), period, smpsWorking, dischargerWorking, balancerWorking)
    {
      if smpsWorking || dischargerWorking {
        totalChargDischargeTime := Wrap32(totalChargDischargeTime + period);
      }
      if balancerWorking {
        totalBalanceTime := Wrap32(totalBalanceTime + period);
      }
    }

    /** getTimeSec. */
    method GetTimeSec(now: uint32) returns (sec: uint16)
      ensures sec == Timing.TimeSec(Times(), now)
      ensures on && Wrap32(now - startTimeTotalTime) < 1000 * TWO16 ==>
        sec == Wrap32(now - startTimeTotalTime) / 1000
      ensures !on ==> sec == Wrap16(startTimeTotalTime / 1000)
    {
      var t := startTimeTotalTime;
      if on {
        t := Wrap32(now - startTimeTotalTime);
      }
      t := t / 1000;
      sec := Wrap16(t);
    }

    /** display: tick the blink counter once, then draw `screen`. */
    method Display(screen: ScreenType, inp: Renderers.Snapshot, now: uint32, blink: Renderers.BlinkView)
      returns (out: seq<Token>)
      requires Renderable(screen, inp)
      modifies this`blinkTime
      ensures blinkTime == old(blinkTime) + 1
      ensures out == Render(screen, inp, Times(), now, blink)
    {
      blinkTime := blinkTime + 1;
      out := Render(screen, inp, Times(), now, blink);
    }
  }

  /** A session as the charger runs it: power on at `t0`, three slow ticks with
      the SMPS working and the balancer idle, a look at the time five seconds
      in, a power-off then, and a look at the time an hour later. */
  method SessionScenario(t0: uint32, period: uint32) returns (early: uint16, frozen: uint16, charged: uint32, balanced: uint32)
    ensures early == 5 && frozen == 5
    ensures charged == Wrap32(3 * period) && balanced == 0
  {
    var s := new ScreenState(period);
    s.PowerOn(t0);
    ghost var s0 := s.Times();
    s.DoSlowInterrupt(true, false, false);
    assert s.Times() == Timing.Ticks(s0, 1, period, true, false);
    s.DoSlowInterrupt(true, false, false);
    assert s.Times() == Timing.Ticks(s0, 2, period, true, false);
    s.DoSlowInterrupt(true, false, false);
    ghost var s3 := s.Times();
    assert s3 == Timing.Ticks(s0, 3, period, true, false);
    Timing.TicksAfterPowerOn(t0, 3, period, false);
    Timing.ElapsedAfterPowerOn(t0, 5000);
    var five := Wrap32(t0 + 5000);
    assert Timing.ElapsedMs(s3, five) == 5000;
    early := s.GetTimeSec(five);
    s.PowerOff(five);
    var hour := Wrap32(t0 + 3_605_000);
    Timing.PowerOffFreezes(s3, five, hour);
    frozen := s.GetTimeSec(hour);
    charged, balanced := s.totalChargDischargeTime, s.totalBalanceTime;
  }
}
