/** The session time bookkeeping of the Screen namespace as values: the four
    globals, what powerOn, powerOff and doSlowInterrupt make of them, and what
    getTimeSec reads from them. The class in module Screen keeps the globals
    and is proved against these functions. */
module Timing {
  import opened MachineInts

  /** `startTime_totalTime_`, `totalBalanceTime_`, `totalChargDischargeTime_`, `on_`.
      While `on` the first field is the absolute start time; after a power-off
      it is the frozen elapsed time. */
  datatype TimingState = TimingState(
    startOrElapsed: uint32,
    balanceMs: uint32,
    chargeDischargeMs: uint32,
    on: bool)

  /** The milliseconds getTimeSec divides by 1000. While on, the start time
      plus the elapsed time is the clock reading again, modulo 2^32. */
  function ElapsedMs(s: TimingState, now: uint32): (r: uint32)
    ensures s.on ==> Wrap32(s.startOrElapsed + r) == now
    ensures !s.on ==> r == s.startOrElapsed
  {
    if s.on then
      AddWrapped(now - s.startOrElapsed, s.startOrElapsed);
      Wrap32(now - s.startOrElapsed)
    else s.startOrElapsed
  }

  /** getTimeSec: whole seconds of the session, narrowed to `uint16_t`. */
  function TimeSec(s: TimingState, now: uint32): (r: uint16)
    ensures ElapsedMs(s, now) < 1000 * TWO16 ==> r * 1000 <= ElapsedMs(s, now) < r * 1000 + 1000
  {
    Wrap16(ElapsedMs(s, now) / 1000)
  }

  /** powerOn at time `now`: the flag is set, both accumulators are cleared and
      the elapsed time starts at 0. */
  function PoweredOn(now: uint32): (r: TimingState)
    ensures r.on && r.balanceMs == 0 && r.chargeDischargeMs == 0
    ensures ElapsedMs(r, now) == 0
  {
    TimingState(now, 0, 0, true)
  }

  /** powerOff at time `now`: the start field takes the elapsed time and the
      accumulators stay. */
  function PoweredOff(s: TimingState, now: uint32): (r: TimingState)
    ensures !r.on && r.balanceMs == s.balanceMs && r.chargeDischargeMs == s.chargeDischargeMs
    ensures s.on ==> r.startOrElapsed == ElapsedMs(s, now)
  {
    s.(startOrElapsed := Wrap32(now - s.startOrElapsed), on := false)
  }

  /** doSlowInterrupt, once per `period` milliseconds. */
  function Ticked(s: TimingState, period: uint32, smpsWorking: bool, dischargerWorking: bool,
                  balancerWorking: bool): (r: TimingState)
    ensures r.startOrElapsed == s.startOrElapsed && r.on == s.on
    ensures !(smpsWorking || dischargerWorking) ==> r.chargeDischargeMs == s.chargeDischargeMs
    ensures !balancerWorking ==> r.balanceMs == s.balanceMs
  {
    s.(chargeDischargeMs := if smpsWorking || dischargerWorking then Wrap32(s.chargeDischargeMs + period)
                            else s.chargeDischargeMs,
       balanceMs := if balancerWorking then Wrap32(s.balanceMs + period) else s.balanceMs)
  }

  /** `n` slow interrupts with the same working flags. */
  function Ticks(s: TimingState, n: nat, period: uint32, stageWorking: bool, balancerWorking: bool): (r: TimingState)
    ensures r.startOrElapsed == s.startOrElapsed && r.on == s.on
    ensures !stageWorking ==> r.chargeDischargeMs == s.chargeDischargeMs
    ensures !balancerWorking ==> r.balanceMs == s.balanceMs
  {
    if n == 0 then s else Ticked(Ticks(s, n - 1, period, stageWorking, balancerWorking), period, stageWorking, false, balancerWorking)
  }

  // ---------------------------------------------------------------- properties

  /** After powerOn, the clock having advanced by `d` milliseconds, the elapsed time is `d`, across a wrap of the clock too. */
  lemma ElapsedAfterPowerOn(t0: uint32, d: uint32)
    ensures ElapsedMs(PoweredOn(t0), Wrap32(t0 + d)) == d
  {
    if t0 + d < TWO32 {
      assert Wrap32(t0 + d) == t0 + d;
    } else {
      assert Wrap32(t0 + d) == t0 + d - TWO32;
      assert Wrap32(t0 + d - TWO32 - t0) == d;
    }
  }

  /** Zero seconds at the instant of powerOn, five seconds 5000 ms later. */
  lemma TimeSecAfterPowerOn(t0: uint32)
    ensures TimeSec(PoweredOn(t0), t0) == 0
    ensures TimeSec(PoweredOn(t0), Wrap32(t0 + 5000)) == 5
  {
    ElapsedAfterPowerOn(t0, 0);
    ElapsedAfterPowerOn(t0, 5000);
  }

  /** Seconds shown `d` ms after powerOn; they wrap after 65536 s because of the 16-bit result. */
  lemma TimeSecCountsSeconds(t0: uint32, d: uint32)
    ensures TimeSec(PoweredOn(t0), Wrap32(t0 + d)) == Wrap16(d / 1000)
    ensures d < 1000 * TWO16 ==> TimeSec(PoweredOn(t0), Wrap32(t0 + d)) == d / 1000
  {
    ElapsedAfterPowerOn(t0, d);
  }

  /** powerOff during a session freezes the time: every later clock reading
      shows what the clock showed at the power-off, and the accumulators stay. */
  lemma PowerOffFreezes(s: TimingState, t: uint32, later: uint32)
    requires s.on
    ensures ElapsedMs(PoweredOff(s, t), later) == ElapsedMs(s, t)
    ensures TimeSec(PoweredOff(s, t), later) == TimeSec(s, t)
    ensures PoweredOff(s, t).balanceMs == s.balanceMs
    ensures PoweredOff(s, t).chargeDischargeMs == s.chargeDischargeMs
    ensures !PoweredOff(s, t).on
  {
  }

  /** A slow tick adds the period to each accumulator whose activity flag is
      set (modulo 2^32) and leaves everything else alone. */
  lemma TickAccumulates(s: TimingState, period: uint32, smps: bool, discharger: bool, balancer: bool)
    ensures var r := Ticked(s, period, smps, discharger, balancer);
      && Wrap32(r.chargeDischargeMs - s.chargeDischargeMs) == (if smps || discharger then period else 0)
      && Wrap32(r.balanceMs - s.balanceMs) == (if balancer then period else 0)
      && r.startOrElapsed == s.startOrElapsed && r.on == s.on
  {
    var r := Ticked(s, period, smps, discharger, balancer);
    if smps || discharger {
      AddThenSubtract(s.chargeDischargeMs, period);
    }
    if balancer {
      AddThenSubtract(s.balanceMs, period);
    }
  }

  lemma AddThenSubtract(a: uint32, p: uint32)
    ensures Wrap32(Wrap32(a + p) - a) == p
  {
    if a + p >= TWO32 {
      assert Wrap32(a + p) == a + p - TWO32;
    }
  }

  lemma AddWrapped(x: int, p: int)
    ensures Wrap32(Wrap32(x) + p) == Wrap32(x + p)
  {
    var k := x / TWO32;
    assert x == k * TWO32 + Wrap32(x);
    assert Wrap32(x) + p == (x + p) - k * TWO32;
    ModShift(x + p, k);
  }

  lemma ModShift(y: int, k: int)
    ensures (y - k * TWO32) % TWO32 == y % TWO32
  {
  }

  /** `n` periods laid end to end. */
  function Periods(n: nat, p: int): int {
    if n == 0 then 0 else Periods(n - 1, p) + p
  }

  lemma {:induction false} PeriodsIsProduct(n: nat, p: int)
    ensures Periods(n, p) == n * p
  {
    if n > 0 {
      PeriodsIsProduct(n - 1, p);
      assert n * p == (n - 1) * p + p;
    }
  }

  /** `n` ticks with the given flags accumulate `n` periods (modulo 2^32) in the
      matching accumulators and change nothing else. */
  lemma TicksAccumulate(s: TimingState, n: nat, period: uint32, stage: bool, balancer: bool)
    ensures var r := Ticks(s, n, period, stage, balancer);
      && r.chargeDischargeMs == (if stage then Wrap32(s.chargeDischargeMs + Periods(n, period)) else s.chargeDischargeMs)
      && r.balanceMs == (if balancer then Wrap32(s.balanceMs + Periods(n, period)) else s.balanceMs)
      && r.startOrElapsed == s.startOrElapsed && r.on == s.on
  {
    TicksChargeDischarge(s, n, period, stage, balancer);
    TicksBalance(s, n, period, stage, balancer);
    TicksKeepSession(s, n, period, stage, balancer);
  }

  lemma {:induction false} TicksChargeDischarge(s: TimingState, n: nat, period: uint32, stage: bool, balancer: bool)
    ensures Ticks(s, n, period, stage, balancer).chargeDischargeMs
      == (if stage then Wrap32(s.chargeDischargeMs + Periods(n, period)) else s.chargeDischargeMs)
  {
    if n > 0 {
      TicksChargeDischarge(s, n - 1, period, stage, balancer);
      AddWrapped(s.chargeDischargeMs + Periods(n - 1, period), period);
    }
  }

  lemma {:induction false} TicksBalance(s: TimingState, n: nat, period: uint32, stage: bool, balancer: bool)
    ensures Ticks(s, n, period, stage, balancer).balanceMs
      == (if balancer then Wrap32(s.balanceMs + Periods(n, period)) else s.balanceMs)
  {
    if n > 0 {
      TicksBalance(s, n - 1, period, stage, balancer);
      AddWrapped(s.balanceMs + Periods(n - 1, period), period);
    }
  }

  lemma {:induction false} TicksKeepSession(s: TimingState, n: nat, period: uint32, stage: bool, balancer: bool)
    ensures Ticks(s, n, period, stage, balancer).startOrElapsed == s.startOrElapsed
    ensures Ticks(s, n, period, stage, balancer).on == s.on
  {
    if n > 0 {
      TicksKeepSession(s, n - 1, period, stage, balancer);
    }
  }

  /** After powerOn, `n` working ticks give `n * period` of charge/discharge time. */
  lemma TicksAfterPowerOn(now: uint32, n: nat, period: uint32, balancer: bool)
    ensures Ticks(PoweredOn(now), n, period, true, balancer).chargeDischargeMs == Wrap32(n * period)
    ensures Ticks(PoweredOn(now), n, period, true, balancer).balanceMs == (if balancer then Wrap32(n * period) else 0)
    ensures TimeSec(Ticks(PoweredOn(now), n, period, true, balancer), now) == 0
  {
    TicksAccumulate(PoweredOn(now), n, period, true, balancer);
    PeriodsIsProduct(n, period);
  }
}
