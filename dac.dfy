/** The digital-to-analog converter driver (src/dac.rs): a register block with one
    control register and six data-holding registers, a driver bound to one
    channel and one precision, and the per-family table that the `hal!` macro
    expands into. */
module Dac {
  import opened Uint

  type u2 = x: nat | x < 4
  type u3 = x: nat | x < 8
  type u4 = x: nat | x < 16

  datatype Channel = One | Two

  function Other(ch: Channel): Channel
  {
    match ch
    case One => Two
    case Two => One
  }

  /** Precision: 8-bit right-aligned, 12-bit left-aligned, 12-bit right-aligned. */
  datatype DacBits = EightR | TwelveL | TwelveR

  datatype Trigger = Tim6 | Tim3_8 | Tim7 | Tim15 | Tim2 | Tim4 | Exti9 | Swtrig

  /** `Trigger::bits`: the code written into a channel's `tsel` field. */
  function TriggerBits(t: Trigger): (r: nat)
    ensures r < 8
  {
    match t
    case Tim6 => 0
    case Tim3_8 => 1
    case Tim7 => 2
    case Tim15 => 3
    case Tim2 => 4
    case Tim4 => 5
    case Exti9 => 6
    case Swtrig => 7
  }

  /** The trigger a `tsel` code selects: the inverse of `TriggerBits`. */
  function TriggerFromBits(b: u3): (t: Trigger)
    ensures TriggerBits(t) == b
  {
    match b
    case 0 => Tim6
    case 1 => Tim3_8
    case 2 => Tim7
    case 3 => Tim15
    case 4 => Tim2
    case 5 => Tim4
    case 6 => Exti9
    case _ => Swtrig
  }

  lemma TriggerRoundTrip(t: Trigger)
    ensures TriggerFromBits(TriggerBits(t)) == t
  {
  }

  /** Distinct triggers get distinct codes. */
  lemma TriggerBitsInjective(a: Trigger, b: Trigger)
    ensures TriggerBits(a) == TriggerBits(b) <==> a == b
  {
  }

  /** Width of the data field a precision writes. */
  function FieldWidth(bits: DacBits): nat
  {
    if bits == EightR then 8 else 12
  }

  function Pow2(n: nat): nat
  {
    if n == 0 then 1 else 2 * Pow2(n - 1)
  }

  /** The full-scale code `set_voltage` multiplies by: the largest value of the
      precision's data field. */
  function MaxCode(bits: DacBits): (r: nat)
    ensures r + 1 == Pow2(FieldWidth(bits))
    ensures r == 255 <==> bits == EightR
  {
    assert Pow2(8) == 256 && Pow2(12) == 4096;
    match bits
    case EightR => 255
    case TwelveL => 4095
    case TwelveR => 4095
  }

  /** The control-register fields of one channel: enable, trigger enable,
      trigger select, wave generation and mask/amplitude. */
  datatype ChannelCtl = ChannelCtl(en: bool, ten: bool, tsel: u3, wave: u2, mamp: u4)

  /** The control register, as the two channels' groups of fields. */
  datatype ControlReg = ControlReg(ch1: ChannelCtl, ch2: ChannelCtl)
  {
    function Get(ch: Channel): ChannelCtl
    {
      match ch
      case One => ch1
      case Two => ch2
    }

    /** Read-modify-write of one channel's fields: the other channel is kept. */
    function Put(ch: Channel, c: ChannelCtl): (r: ControlReg)
      ensures r.Get(ch) == c
      ensures r.Get(Other(ch)) == Get(Other(ch))
    {
      match ch
      case One => this.(ch1 := c)
      case Two => this.(ch2 := c)
    }
  }

  /** The control register after `enable` (`on`) or `disable` (not `on`). */
  function WithEnable(cr: ControlReg, ch: Channel, on: bool): (r: ControlReg)
    ensures r.Get(ch).en == on
    ensures r.Get(ch).(en := cr.Get(ch).en) == cr.Get(ch)
    ensures r.Get(Other(ch)) == cr.Get(Other(ch))
  {
    cr.Put(ch, cr.Get(ch).(en := on))
  }

  /** The control register after `set_trigger(t)`. */
  function WithTrigger(cr: ControlReg, ch: Channel, t: Trigger): (r: ControlReg)
    ensures r.Get(ch).ten && r.Get(ch).tsel == TriggerBits(t)
    ensures r.Get(ch).(ten := cr.Get(ch).ten, tsel := cr.Get(ch).tsel) == cr.Get(ch)
    ensures r.Get(Other(ch)) == cr.Get(Other(ch))
  {
    var withTen := cr.Put(ch, cr.Get(ch).(ten := true));
    withTen.Put(ch, withTen.Get(ch).(tsel := TriggerBits(t)))
  }

  /** The control register after programming a wave-generation mode and its mask/amplitude. */
  function WithWave(cr: ControlReg, ch: Channel, wave: u2, mamp: u4): (r: ControlReg)
    ensures r.Get(ch).wave == wave && r.Get(ch).mamp == mamp
    ensures r.Get(ch).(wave := cr.Get(ch).wave, mamp := cr.Get(ch).mamp) == cr.Get(ch)
    ensures r.Get(Other(ch)) == cr.Get(Other(ch))
  {
    var withWave := cr.Put(ch, cr.Get(ch).(wave := wave));
    withWave.Put(ch, withWave.Get(ch).(mamp := mamp))
  }

  /** Enabling or disabling twice is the same as doing it once. */
  lemma EnableIdempotent(cr: ControlReg, ch: Channel, on: bool)
    ensures WithEnable(WithEnable(cr, ch, on), ch, on) == WithEnable(cr, ch, on)
  {
  }

  /** Disabling undoes enabling when the channel started disabled, and the reverse. */
  lemma EnableDisableInverse(cr: ControlReg, ch: Channel, on: bool)
    requires cr.Get(ch).en == !on
    ensures WithEnable(WithEnable(cr, ch, on), ch, !on) == cr
  {
  }

  /** Enabling one channel and the other commute. */
  lemma EnableChannelsCommute(cr: ControlReg, a: bool, b: bool)
    ensures WithEnable(WithEnable(cr, One, a), Two, b) == WithEnable(WithEnable(cr, Two, b), One, a)
  {
  }

  /** The six data-holding registers. */
  datatype DataReg = Dhr8R1 | Dhr12L1 | Dhr12R1 | Dhr8R2 | Dhr12L2 | Dhr12R2

  /** The channel a data register feeds, as its name says. */
  function RegChannel(r: DataReg): Channel
  {
    match r
    case Dhr8R1 | Dhr12L1 | Dhr12R1 => One
    case Dhr8R2 | Dhr12L2 | Dhr12R2 => Two
  }

  /** The precision of a data register, as its name says. */
  function RegPrecision(r: DataReg): DacBits
  {
    match r
    case Dhr8R1 | Dhr8R2 => EightR
    case Dhr12L1 | Dhr12L2 => TwelveL
    case Dhr12R1 | Dhr12R2 => TwelveR
  }

  /** A data register is determined by its channel and its precision. */
  lemma DataRegDetermined(p: DataReg, q: DataReg)
    requires RegChannel(p) == RegChannel(q) && RegPrecision(p) == RegPrecision(q)
    ensures p == q
  {
  }

  /** The chip families with a `hal!` invocation; other families have no DAC driver. */
  datatype Variant = L5 | L4 | L4x6 | F3 | F302 | G4 | H7

  /** The six data-register arguments of one `hal!` invocation, in the macro's
      order `$d81, $d12l1, $d12r1, $d82, $d12l2, $d12r2`. */
  datatype HalArgs = HalArgs(d81: DataReg, d12l1: DataReg, d12r1: DataReg,
                             d82: DataReg, d12l2: DataReg, d12r2: DataReg)

  /** The `hal!` invocation of each family. */
  function Hal(v: Variant): (h: HalArgs)
    ensures RegPrecision(h.d81) == EightR && RegPrecision(h.d82) == EightR
    ensures RegPrecision(h.d12l1) == TwelveL && RegPrecision(h.d12l2) == TwelveL
    ensures RegPrecision(h.d12r1) == TwelveR && RegPrecision(h.d12r2) == TwelveR
    ensures RegChannel(h.d82) == Two && RegChannel(h.d12l2) == Two && RegChannel(h.d12r2) == Two
    ensures var ch1 := if v == L5 || v == G4 then Two else One;
      RegChannel(h.d81) == ch1 && RegChannel(h.d12l1) == ch1 && RegChannel(h.d12r1) == ch1
  {
    match v
    case L5 => HalArgs(Dhr8R2, Dhr12L2, Dhr12R2, Dhr8R2, Dhr12L2, Dhr12R2)
    case L4 => HalArgs(Dhr8R1, Dhr12L1, Dhr12R1, Dhr8R2, Dhr12L2, Dhr12R2)
    case L4x6 => HalArgs(Dhr8R1, Dhr12L1, Dhr12R1, Dhr8R2, Dhr12L2, Dhr12R2)
    case F3 => HalArgs(Dhr8R1, Dhr12L1, Dhr12R1, Dhr8R2, Dhr12L2, Dhr12R2)
    case F302 => HalArgs(Dhr8R1, Dhr12L1, Dhr12R1, Dhr8R2, Dhr12L2, Dhr12R2)
    case G4 => HalArgs(Dhr8R2, Dhr12L2, Dhr12R2, Dhr8R2, Dhr12L2, Dhr12R2)
    case H7 => HalArgs(Dhr8R1, Dhr12L1, Dhr12R1, Dhr8R2, Dhr12L2, Dhr12R2)
  }

  /** The register `set_value` writes for a channel and precision on a family.
      The precision is always honoured; on L5 and G4 both channels are bound to
      channel 2's registers, on every other family each channel to its own. */
  function DataRegister(v: Variant, ch: Channel, bits: DacBits): (r: DataReg)
    ensures RegPrecision(r) == bits
    ensures RegChannel(r) == (if v == L5 || v == G4 then Two else ch)
  {
    var h := Hal(v);
    match ch
    case One => (match bits case EightR => h.d81 case TwelveL => h.d12l1 case TwelveR => h.d12r1)
    case Two => (match bits case EightR => h.d82 case TwelveL => h.d12l2 case TwelveR => h.d12r2)
  }

  /** On L5 and G4 a channel-1 driver and a channel-2 driver write the same register. */
  lemma SharedRegistersOnL5AndG4(v: Variant, bits: DacBits)
    requires v == L5 || v == G4
    ensures DataRegister(v, One, bits) == DataRegister(v, Two, bits)
  {
  }

  /** On the other families, drivers of different channels never share a register. */
  lemma SeparateRegistersElsewhere(v: Variant, bits: DacBits, bits': DacBits)
    requires v != L5 && v != G4
    ensures DataRegister(v, One, bits) != DataRegister(v, Two, bits')
  {
  }

  /** The DAC register block. */
  class DacRegs {
    var cr: ControlReg
    var dhr8r1: u32
    var dhr12l1: u32
    var dhr12r1: u32
    var dhr8r2: u32
    var dhr12l2: u32
    var dhr12r2: u32

    /** The register block in the state it is handed over in. */
    constructor (cr: ControlReg)
      ensures this.cr == cr && forall r :: Data(r) == 0
    {
      this.cr := cr;
      dhr8r1, dhr12l1, dhr12r1 := 0, 0, 0;
      dhr8r2, dhr12l2, dhr12r2 := 0, 0, 0;
    }

    function Data(r: DataReg): u32
      reads this
    {
      match r
      case Dhr8R1 => dhr8r1
      case Dhr12L1 => dhr12l1
      case Dhr12R1 => dhr12r1
      case Dhr8R2 => dhr8r2
      case Dhr12L2 => dhr12l2
      case Dhr12R2 => dhr12r2
    }

    /** `modify(|_, w| w.bits(val))` on one data register. */
    method WriteData(r: DataReg, val: u32)
      modifies this
      ensures Data(r) == val
      ensures forall q :: q != r ==> Data(q) == old(Data(q))
      ensures cr == old(cr)
    {
      match r
      case Dhr8R1 => dhr8r1 := val;
      case Dhr12L1 => dhr12l1 := val;
      case Dhr12R1 => dhr12r1 := val;
      case Dhr8R2 => dhr8r2 := val;
      case Dhr12L2 => dhr12l2 := val;
      case Dhr12R2 => dhr12r2 := val;
    }

    /** `modify` on the control register, replacing one channel's fields. */
    method ModifyControl(ch: Channel, c: ChannelCtl)
      modifies this`cr
      ensures cr == old(cr).Put(ch, c)
    {
      cr := cr.Put(ch, c);
    }
  }

  /** The driver: owns the register block and records its channel, precision
      and reference voltage. The family is fixed when the program is built. */
  class Dac {
    const variant: Variant
    const regs: DacRegs
    const channel: Channel
    const bits: DacBits
    const vref: real

    constructor (variant: Variant, regs: DacRegs, channel: Channel, bits: DacBits, vref: real)
      ensures this.variant == variant && this.regs == regs
      ensures this.channel == channel && this.bits == bits && this.vref == vref
    {
      this.variant := variant;
      this.regs := regs;
      this.channel := channel;
      this.bits := bits;
      this.vref := vref;
    }

    method Enable()
      modifies regs
      ensures regs.cr == WithEnable(old(regs.cr), channel, true)
      ensures forall r :: regs.Data(r) == old(regs.Data(r))
    {
      regs.ModifyControl(channel, regs.cr.Get(channel).(en := true));
    }

    method Disable()
      modifies regs
      ensures regs.cr == WithEnable(old(regs.cr), channel, false)
      ensures forall r :: regs.Data(r) == old(regs.Data(r))
    {
      regs.ModifyControl(channel, regs.cr.Get(channel).(en := false));
    }

    /** Writes `val` as it is, with no range check, into the register bound to
        this driver's channel and precision. */
    method SetValue(val: u32)
      modifies regs
      ensures regs.Data(DataRegister(variant, channel, bits)) == val
      ensures forall r :: r != DataRegister(variant, channel, bits) ==> regs.Data(r) == old(regs.Data(r))
      ensures regs.cr == old(regs.cr)
    {
      var h := Hal(variant);
      match channel
      case One => {
        match bits
        case EightR => regs.WriteData(h.d81, val);
        case TwelveL => regs.WriteData(h.d12l1, val);
        case TwelveR => regs.WriteData(h.d12r1, val);
      }
      case Two => {
        match bits
        case EightR => regs.WriteData(h.d82, val);
        case TwelveL => regs.WriteData(h.d12l2, val);
        case TwelveR => regs.WriteData(h.d12r2, val);
      }
    }

    /** Sets trigger enable, then the trigger-select code, for this channel.
        The L5 build has no `set_trigger`. */
    method SetTrigger(t: Trigger)
      requires variant != L5
      modifies regs
      ensures regs.cr == WithTrigger(old(regs.cr), channel, t)
      ensures forall r :: regs.Data(r) == old(regs.Data(r))
    {
      regs.ModifyControl(channel, regs.cr.Get(channel).(ten := true));
      regs.ModifyControl(channel, regs.cr.Get(channel).(tsel := TriggerBits(t)));
    }

    /** Noise (LFSR) generation: wave = 0b01, mask = 0b01, then `set_trigger`
        and `set_value(data)`. */
    method TriggerLfsr(t: Trigger, data: u32)
      requires variant != L5
      modifies regs
      ensures regs.cr == WithTrigger(WithWave(old(regs.cr), channel, 1, 1), channel, t)
      ensures regs.Data(DataRegister(variant, channel, bits)) == data
      ensures forall r :: r != DataRegister(variant, channel, bits) ==> regs.Data(r) == old(regs.Data(r))
    {
      regs.ModifyControl(channel, regs.cr.Get(channel).(wave := 1));
      regs.ModifyControl(channel, regs.cr.Get(channel).(mamp := 1));
      SetTrigger(t);
      SetValue(data);
    }

    /** Triangle generation: wave = 0b10, amplitude = 0b10, then `set_trigger`
        and `set_value(data)`. */
    method TriggerTriangle(t: Trigger, data: u32)
      requires variant != L5
      modifies regs
      ensures regs.cr == WithTrigger(WithWave(old(regs.cr), channel, 2, 2), channel, t)
      ensures regs.Data(DataRegister(variant, channel, bits)) == data
      ensures forall r :: r != DataRegister(variant, channel, bits) ==> regs.Data(r) == old(regs.Data(r))
    {
      regs.ModifyControl(channel, regs.cr.Get(channel).(wave := 2));
      regs.ModifyControl(channel, regs.cr.Get(channel).(mamp := 2));
      SetTrigger(t);
      SetValue(data);
    }
  }

  /** What `trigger_lfsr` and `trigger_triangle` leave in the driver's channel:
      the wave mode, the mask, trigger enabled with the trigger's code; every
      other field of that channel and the whole other channel as before. */
  lemma WaveTriggerFields(cr: ControlReg, ch: Channel, wave: u2, mamp: u4, t: Trigger)
    ensures var c := WithTrigger(WithWave(cr, ch, wave, mamp), ch, t).Get(ch);
      c == ChannelCtl(cr.Get(ch).en, true, TriggerBits(t), wave, mamp)
    ensures WithTrigger(WithWave(cr, ch, wave, mamp), ch, t).Get(Other(ch)) == cr.Get(Other(ch))
  {
  }
}
