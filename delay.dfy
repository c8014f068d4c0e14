/** Busy-wait delays on the Cortex-M SysTick countdown timer (src/delay.rs).
    A request in microseconds becomes a number of timer ticks, and the ticks are
    spent as a series of countdowns, none longer than the 24-bit reload register
    can hold. */
module Delay {
  import opened Uint

  /** Largest value the SysTick reload register accepts (`MAX_RVR`). */
  const MAX_RVR: nat := 0x00FF_FFFF
  /** The reload register has 24 bits; bits 24 to 31 are reserved. */
  const RVR_MODULUS: nat := 0x100_0000

  datatype ClkSource = Core | External

  /** Ticks of a `delay_us(us)` on a timer clocked at `systickSpeed` Hz:
      `us * (systick_speed / 1_000_000)` in `u32` arithmetic. */
  function TotalTicks(us: u32, systickSpeed: u32): (r: u32)
    ensures us == 0 || systickSpeed < 1_000_000 ==> r == 0
    ensures us * (systickSpeed / 1_000_000) < U32_MODULUS ==> r == us * (systickSpeed / 1_000_000)
  {
    WrappingMul(us, systickSpeed / 1_000_000)
  }

  /** The countdown programmed on one pass of the loop, `remaining` ticks still to go. */
  function Chunk(remaining: nat): (r: nat)
    ensures r <= remaining && r <= MAX_RVR
    ensures remaining > 0 ==> r > 0
    ensures r < MAX_RVR ==> r == remaining
  {
    if remaining <= MAX_RVR then remaining else MAX_RVR
  }

  /** The reload values the loop programs, in order, for a total of `total` ticks. */
  function Chunks(total: nat): (r: seq<nat>)
    ensures r == [] <==> total == 0
    decreases total
  {
    if total == 0 then [] else [Chunk(total)] + Chunks(total - Chunk(total))
  }

  function Sum(s: seq<nat>): nat
  {
    if s == [] then 0 else s[0] + Sum(s[1..])
  }

  /** Every programmed reload value lies in 1..=MAX_RVR. */
  lemma {:induction false} ChunksInRange(total: nat)
    ensures forall i :: 0 <= i < |Chunks(total)| ==> 1 <= Chunks(total)[i] <= MAX_RVR
  {
    if total > 0 {
      ChunksInRange(total - Chunk(total));
      assert Chunks(total) == [Chunk(total)] + Chunks(total - Chunk(total));
    }
  }

  /** The countdowns add up exactly to the requested number of ticks. */
  lemma {:induction false} ChunksSum(total: nat)
    ensures Sum(Chunks(total)) == total
  {
    if total > 0 {
      ChunksSum(total - Chunk(total));
      var s := Chunks(total);
      assert s[0] == Chunk(total) && s[1..] == Chunks(total - Chunk(total));
    }
  }

  /** The number of countdowns is the ceiling of `total / MAX_RVR`. */
  lemma {:induction false} ChunksCount(total: nat)
    ensures |Chunks(total)| == (total + MAX_RVR - 1) / MAX_RVR
  {
    if total > MAX_RVR {
      ChunksCount(total - MAX_RVR);
      assert (total + MAX_RVR - 1) / MAX_RVR == ((total - MAX_RVR) + MAX_RVR - 1) / MAX_RVR + 1;
    }
  }

  /** Every countdown but the last is a full `MAX_RVR`. */
  lemma {:induction false} ChunksFullExceptLast(total: nat)
    ensures forall i :: 0 <= i < |Chunks(total)| - 1 ==> Chunks(total)[i] == MAX_RVR
  {
    if total > MAX_RVR {
      ChunksFullExceptLast(total - MAX_RVR);
      assert Chunks(total) == [MAX_RVR] + Chunks(total - MAX_RVR);
    }
  }

  /** A request that fits in one countdown is done in exactly one. */
  lemma SingleChunk(total: nat)
    requires 0 < total <= MAX_RVR
    ensures Chunks(total) == [total]
  {
  }

  /** One second on a 48 MHz timer: two full countdowns and a remainder. */
  lemma OneSecondAt48MHz()
    ensures TotalTicks(1_000_000, 48_000_000) == 48_000_000
    ensures Chunks(48_000_000) == [16_777_215, 16_777_215, 14_445_570]
  {
  }

  /** When `us * (systick_speed / 1_000_000)` fits in `u32`, `delay_us` counts
      exactly that many ticks. */
  lemma DelayUsTicks(us: u32, systickSpeed: u32)
    requires us * (systickSpeed / 1_000_000) < U32_MODULUS
    ensures Sum(Chunks(TotalTicks(us, systickSpeed))) == us * (systickSpeed / 1_000_000)
  {
    ChunksSum(TotalTicks(us, systickSpeed));
  }

  /** When `ms * 1000` and the tick product both fit in `u32`, `delay_ms` counts
      exactly `ms * 1000 * (systick_speed / 1_000_000)` ticks. */
  lemma DelayMsTicks(ms: u32, systickSpeed: u32)
    requires ms * 1000 * (systickSpeed / 1_000_000) < U32_MODULUS
    ensures Sum(Chunks(TotalTicks(WrappingMul(ms, 1000), systickSpeed))) == ms * 1000 * (systickSpeed / 1_000_000)
  {
    if systickSpeed / 1_000_000 > 0 {
      assert ms * 1000 <= ms * 1000 * (systickSpeed / 1_000_000);
    }
    ChunksSum(TotalTicks(WrappingMul(ms, 1000), systickSpeed));
  }

  /** The SysTick peripheral: control/status, reload and current-value registers. */
  class SysTick {
    var source: ClkSource
    /** SYST_RVR */
    var reload: nat
    /** SYST_CVR */
    var current: nat
    /** SYST_CSR.ENABLE */
    var enabled: bool
    /** SYST_CSR.COUNTFLAG: set when the counter wraps, cleared when read */
    var countFlag: bool
    /** The reload value of every countdown that has run to its wrap, in order. */
    ghost var countdowns: seq<nat>

    /** The timer in whatever state it is handed over in; reload and current
        value are 24-bit registers. */
    constructor (source: ClkSource, reload: nat, current: nat, enabled: bool, countFlag: bool)
      requires reload < RVR_MODULUS && current < RVR_MODULUS
      ensures this.source == source && this.reload == reload && this.current == current
      ensures this.enabled == enabled && this.countFlag == countFlag && countdowns == []
    {
      this.source := source;
      this.reload := reload;
      this.current := current;
      this.enabled := enabled;
      this.countFlag := countFlag;
      countdowns := [];
    }

    method SetClockSource(s: ClkSource)
      modifies this`source
      ensures source == s
    {
      source := s;
    }

    /** Writes the reload register; the reserved upper byte is not stored. */
    method SetReload(value: u32)
      modifies this`reload
      ensures reload == value % RVR_MODULUS
    {
      reload := value % RVR_MODULUS;
    }

    /** Writing the current-value register clears it and COUNTFLAG. */
    method ClearCurrent()
      modifies this`current, this`countFlag
      ensures current == 0 && !countFlag
    {
      current := 0;
      countFlag := false;
    }

    method EnableCounter()
      modifies this`enabled
      ensures enabled
    {
      enabled := true;
    }

    method DisableCounter()
      modifies this`enabled
      ensures !enabled
    {
      enabled := false;
    }

    /** `while !has_wrapped() {}` taken as one step. From a cleared counter the
        timer loads `reload`, counts it down to zero and sets COUNTFLAG; the read
        that observes the flag clears it. The counter then runs on from the
        reloaded value, so `current` is left somewhere in 0..=reload. The spin
        ends only on a running counter with a non-zero reload. */
    method AwaitWrap()
      requires enabled && 1 <= reload && current == 0 && !countFlag
      modifies this`current, this`countdowns
      ensures countdowns == old(countdowns) + [reload]
      ensures current <= reload
    {
      countdowns := countdowns + [reload];
      var c: nat :| c <= reload;
      current := c;
    }
  }

  /** System timer (SysTick) as a delay provider. */
  class Delay {
    const syst: SysTick
    const systickSpeed: u32

    /** Selects the core clock as the timer's source and records the SysTick
        frequency reported by the clock configuration. */
    constructor (syst: SysTick, systick: u32)
      modifies syst
      ensures this.syst == syst && systickSpeed == systick
      ensures syst.source == Core
      ensures unchanged(syst`reload, syst`current, syst`enabled, syst`countFlag, syst`countdowns)
    {
      syst.SetClockSource(Core);
      this.syst := syst;
      systickSpeed := systick;
    }

    /** What a delay of `total` ticks leaves behind: one completed countdown per
        element of `Chunks(total)`, and a stopped counter; a delay of no ticks
        touches nothing. */
    twostate predicate Delayed(total: nat)
      reads this, syst
    {
      syst.countdowns == old(syst.countdowns) + Chunks(total) &&
      syst.source == old(syst.source) &&
      if total == 0 then
        syst.reload == old(syst.reload) && syst.current == old(syst.current) &&
        syst.enabled == old(syst.enabled) && syst.countFlag == old(syst.countFlag)
      else
        !syst.enabled && !syst.countFlag && syst.current <= syst.reload &&
        |Chunks(total)| > 0 && syst.reload == Chunks(total)[|Chunks(total)| - 1]
    }

    method DelayUs(us: u32)
      modifies syst
      ensures Delayed(TotalTicks(us, systickSpeed))
    {
      var totalRvr: u32 := TotalTicks(us, systickSpeed);
      ghost var total := totalRvr;
      while totalRvr != 0
        invariant totalRvr <= total
        invariant syst.countdowns + Chunks(totalRvr) == old(syst.countdowns) + Chunks(total)
        invariant syst.source == old(syst.source)
        invariant totalRvr == total ==>
          syst.reload == old(syst.reload) && syst.current == old(syst.current) &&
          syst.enabled == old(syst.enabled) && syst.countFlag == old(syst.countFlag)
        invariant totalRvr < total ==>
          !syst.enabled && !syst.countFlag && syst.current <= syst.reload &&
          |syst.countdowns| > 0 && syst.reload == syst.countdowns[|syst.countdowns| - 1]
        decreases totalRvr
      {
        var currentRvr := if totalRvr <= MAX_RVR then totalRvr else MAX_RVR;
        assert Chunks(totalRvr) == [currentRvr] + Chunks(totalRvr - currentRvr);
        syst.SetReload(currentRvr);
        syst.ClearCurrent();
        syst.EnableCounter();
        totalRvr := totalRvr - currentRvr;
        syst.AwaitWrap();
        syst.DisableCounter();
      }
      assert syst.countdowns == old(syst.countdowns) + Chunks(total);
    }

    method DelayMs(ms: u32)
      modifies syst
      ensures Delayed(TotalTicks(WrappingMul(ms, 1000), systickSpeed))
    {
      DelayUs(WrappingMul(ms, 1000));
    }

    /** `DelayMs<u16>`: widens to `u32` and delays. */
    method DelayMsU16(ms: u16)
      modifies syst
      ensures Delayed(TotalTicks(WrappingMul(ms, 1000), systickSpeed))
    {
      DelayMs(ms);
    }

    /** `DelayMs<u8>`: widens to `u32` and delays. */
    method DelayMsU8(ms: u8)
      modifies syst
      ensures Delayed(TotalTicks(WrappingMul(ms, 1000), systickSpeed))
    {
      DelayMs(ms);
    }

    /** `DelayUs<u16>`: widens to `u32` and delays. */
    method DelayUsU16(us: u16)
      modifies syst
      ensures Delayed(TotalTicks(us, systickSpeed))
    {
      DelayUs(us);
    }

    /** `DelayUs<u8>`: widens to `u32` and delays. */
    method DelayUsU8(us: u8)
      modifies syst
      ensures Delayed(TotalTicks(us, systickSpeed))
    {
      DelayUs(us);
    }

    /** Releases the timer: the same SysTick handle the constructor took. */
    method Free() returns (s: SysTick)
      ensures s == syst
    {
      s := syst;
    }
  }
}
