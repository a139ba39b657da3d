/**
  * The GPIO driver of the TM4C123 hardware-abstraction layer.
  *
  * A port is the block of 32-bit registers the driver touches (DATA, DIR,
  * AFSEL, DR2R, DR4R, PUR, PDR, ODR, DEN, IS, IBE, IEV, IM, ICR). The
  * registers are treated as plain storage. Each driver call sets, clears or
  * reads bit `pin_no` of one register, or ORs a shifted value into it.
  *
  * `ApplyTo` is the reference semantics of one call, register by register;
  * `RunOn` extends it to a sequence of calls. The methods of class `Port`
  * change the registers in place, each framed to the registers it writes, and
  * each ensures that every register it writes ends up as `ApplyTo` says. The lemmas state what each call
  * promises and what no sequence of calls can undo.
  */
module Gpio {
  import opened Bits

  /** Pins of one port. A `pin_no` of 8 or more is undefined behaviour on the hardware. */
  const PinCount: bv16 := 8
  type Pin = p: bv16 | p < PinCount

  /** Pin modes (`GPIO_PIN_INPUT_MODE`, `GPIO_PIN_OUTPUT_MODE`). */
  const InputMode: bv8 := 0x00
  const OutputMode: bv8 := 0x01

  /** Drive strengths (`GPIO_PIN_DS_2MA`, `GPIO_PIN_DS_4MA`, `GPIO_PIN_DS_8MA`). */
  const DriveStrength2mA: bv16 := 0x02
  const DriveStrength4mA: bv16 := 0x04
  const DriveStrength8mA: bv16 := 0x08

  /** Pad configurations (`GPIO_PIN_PULL_UP`, `GPIO_PIN_PULL_DOWN`, `GPIO_PIN_OPEN_DRAIN`). */
  const PullUp: bv16 := 0x01
  const PullDown: bv16 := 0x02
  const OpenDrain: bv16 := 0x03

  /** Interrupt sense passed as `interrupt_type`: 0 is edge, 1 is level. */
  const EdgeTriggered: bool := false
  const LevelTriggered: bool := true

  datatype EdgeInterrupt = RisingEdge | FallingEdge | RisingFallingEdge

  datatype LevelInterrupt = LowLevel | HighLevel

  /**
    * The pin configuration record (`gpio_pin_config_t`) handed to `Init`.
    * Its NVIC interrupt number is not part of this model.
    */
  datatype PinConfig = PinConfig(
    pin: bv32,
    mode: bv32,
    driveStrength: bv32,
    digital: bv32,
    registerConfig: bv32,
    intType: bool,
    edgeSelection: EdgeInterrupt,
    levelSelection: LevelInterrupt)

  /** The registers of a port that the driver touches. */
  datatype Reg = Data | Dir | Afsel | Dr2r | Dr4r | Pur | Pdr | Odr | Den | Is | Ibe | Iev | Im | Icr

  /** One call of the driver that changes registers. */
  datatype Call =
    | WriteToPin(pin: Pin, value: bv8)
    | WritePort(value: bv8)
    | SetPinMode(pin: Pin, mode: bv8)
    | SetAltFunction(pin: Pin)
    | ConfigureDriveStrength(pin: Pin, strength: bv16)
    | ConfigureRegister(pin: Pin, config: bv16)
    | ConfigureDigitalFunctionality(pin: Pin, enable: bool)
    | ConfigureInterruptType(pin: Pin, levelSensitive: bool)
    | ConfigureEdgeInterrupt(pin: Pin, edge: EdgeInterrupt)
    | ConfigureLevelInterrupt(pin: Pin, level: LevelInterrupt)
    | EnableInterrupt(pin: Pin)
    | ClearInterrupt(pin: Pin)

  /** `w |= (v << pin_no)` for a pin mode or a promoted bool. */
  function OrShifted(w: bv32, v: bv32, pin: Pin): bv32
  {
    w | (v << pin)
  }

  /** DATA after `hal_gpio_write_to_pin`: bit `pin` set for a nonzero value, cleared for zero. */
  function PinWritten(data: bv32, pin: Pin, value: bv8): bv32
  {
    if value != 0 then Set(data, pin) else Clear(data, pin)
  }

  /**
    * DIR after `hal_gpio_set_pin_mode`. The zero branch is `DIR &= ~(0 << pin_no)`,
    * that is `DIR &= ~0`.
    */
  function ModeApplied(dir: bv32, pin: Pin, mode: bv8): bv32
  {
    if mode != 0 then OrShifted(dir, mode as bv32, pin) else dir & !((mode as bv32) << pin)
  }

  /** IS after `hal_gpio_configure_interrupt_type`: the bool is promoted to 1 or 0 before the shift. */
  function SenseApplied(sense: bv32, pin: Pin, levelSensitive: bool): bv32
  {
    OrShifted(sense, if levelSensitive then 1 else 0, pin)
  }

  /** The register `hal_gpio_configure_drive_strength` writes: DR2R for 2 mA, DR4R for anything else. */
  function DriveRegister(strength: bv16): Reg
  {
    if strength == DriveStrength2mA then Dr2r
    else if strength == DriveStrength4mA then Dr4r
    else Dr4r
  }

  /** The register `hal_gpio_configure_register` writes: PUR, PDR, or ODR for anything else. */
  function PadRegister(config: bv16): Reg
  {
    if config == PullUp then Pur
    else if config == PullDown then Pdr
    else Odr
  }

  /** IEV after `hal_gpio_configure_edge_interrupt` for a single edge: cleared for falling, set otherwise. */
  function EdgeApplied(iev: bv32, pin: Pin, edge: EdgeInterrupt): bv32
  {
    if edge == FallingEdge then Clear(iev, pin) else Set(iev, pin)
  }

  /** IEV after `hal_gpio_configure_level_interrupt`: set for high, cleared otherwise. */
  function LevelApplied(iev: bv32, pin: Pin, level: LevelInterrupt): bv32
  {
    if level == HighLevel then Set(iev, pin) else Clear(iev, pin)
  }

  /** Whether a call writes register `g`. */
  predicate WritesTo(c: Call, g: Reg)
  {
    match c
    case WriteToPin(_, _) => g == Data
    case WritePort(_) => g == Data
    case SetPinMode(_, _) => g == Dir
    case SetAltFunction(_) => g == Afsel
    case ConfigureDriveStrength(_, strength) => g == DriveRegister(strength)
    case ConfigureRegister(_, config) => g == PadRegister(config)
    case ConfigureDigitalFunctionality(_, _) => g == Den
    case ConfigureInterruptType(_, _) => g == Is
    case ConfigureEdgeInterrupt(_, edge) => g == if edge == RisingFallingEdge then Ibe else Iev
    case ConfigureLevelInterrupt(_, _) => g == Iev
    case EnableInterrupt(_) => g == Icr || g == Im
    case ClearInterrupt(_) => g == Icr
  }

  /** The word a call leaves in each register it writes, when that register held `w`. */
  function Written(c: Call, w: bv32): bv32
  {
    match c
    case WriteToPin(pin, value) => PinWritten(w, pin, value)
    case WritePort(value) => value as bv32
    case SetPinMode(pin, mode) => ModeApplied(w, pin, mode)
    case SetAltFunction(pin) => Set(w, pin)
    case ConfigureDriveStrength(pin, _) => Set(w, pin)
    case ConfigureRegister(pin, _) => Set(w, pin)
    case ConfigureDigitalFunctionality(pin, _) => Set(w, pin)
    case ConfigureInterruptType(pin, levelSensitive) => SenseApplied(w, pin, levelSensitive)
    case ConfigureEdgeInterrupt(pin, edge) => if edge == RisingFallingEdge then Set(w, pin) else EdgeApplied(w, pin, edge)
    case ConfigureLevelInterrupt(pin, level) => LevelApplied(w, pin, level)
    case EnableInterrupt(pin) => Set(w, pin)
    case ClearInterrupt(pin) => Set(w, pin)
  }

  /** What call `c` makes of register `g` when it holds `w`. */
  function ApplyTo(g: Reg, w: bv32, c: Call): bv32
  {
    if WritesTo(c, g) then Written(c, w) else w
  }

  /** Register `g` after a sequence of calls, applied first to last. */
  function RunOn(g: Reg, w: bv32, calls: seq<Call>): bv32
    decreases |calls|
  {
    if calls == [] then w else RunOn(g, ApplyTo(g, w, calls[0]), calls[1..])
  }

  /** The calls the driver makes on behalf of one call to `hal_gpio_init`. */
  function InitCalls(cfg: PinConfig): (calls: seq<Call>)
    requires cfg.pin & 0xFFFF < PinCount as bv32
    ensures |calls| == 2
    ensures calls[0] == SetPinMode((cfg.pin & 0xFFFF) as bv16, (cfg.mode & 0xFF) as bv8)
    ensures calls[1].ConfigureDigitalFunctionality? && calls[1].pin == calls[0].pin
  {
    // `pin` is narrowed to `uint16_t`, `mode` to `uint8_t` and `digital` to `bool`.
    var pin := (cfg.pin & 0xFFFF) as bv16;
    [SetPinMode(pin, (cfg.mode & 0xFF) as bv8), ConfigureDigitalFunctionality(pin, cfg.digital != 0)]
  }

  lemma RunTwo(g: Reg, w: bv32, c0: Call, c1: Call)
    ensures RunOn(g, w, [c0, c1]) == ApplyTo(g, ApplyTo(g, w, c0), c1)
  {
    var w1 := ApplyTo(g, w, c0);
    assert [c0, c1][0] == c0 && [c0, c1][1..] == [c1];
    assert RunOn(g, w, [c0, c1]) == RunOn(g, w1, [c1]);
    assert [c1][0] == c1 && [c1][1..] == [];
    assert RunOn(g, w1, [c1]) == RunOn(g, ApplyTo(g, w1, c1), []);
  }

  /** Running two sequences one after the other is running their concatenation. */
  lemma {:induction false} RunOnAppend(g: Reg, w: bv32, xs: seq<Call>, ys: seq<Call>)
    ensures RunOn(g, w, xs + ys) == RunOn(g, RunOn(g, w, xs), ys)
    decreases |xs|
  {
    if xs == [] {
      assert xs + ys == ys;
    } else {
      assert (xs + ys)[0] == xs[0];
      assert (xs + ys)[1..] == xs[1..] + ys;
      RunOnAppend(g, ApplyTo(g, w, xs[0]), xs[1..], ys);
    }
  }

  /** The registers some call can clear a bit of: DATA and IEV. */
  predicate Clearable(g: Reg)
  {
    g == Data || g == Iev
  }

  lemma OrShiftedIdempotent(w: bv32, v: bv32, pin: Pin)
    ensures OrShifted(OrShifted(w, v, pin), v, pin) == OrShifted(w, v, pin)
  {
  }

  lemma ModeIncludes(w: bv32, pin: Pin, mode: bv8)
    ensures Includes(ModeApplied(w, pin, mode), w)
  {
  }

  lemma ModeInputKeeps(w: bv32, pin: Pin, mode: bv8)
    requires mode == InputMode
    ensures ModeApplied(w, pin, mode) == w
  {
  }

  lemma ModeOutputSets(w: bv32, pin: Pin, mode: bv8)
    requires mode == OutputMode
    ensures ModeApplied(w, pin, mode) == Set(w, pin)
  {
  }

  /** The mode is not masked to one bit: mode 2 makes the next pin an output instead. */
  lemma ModeTwoSetsNextPin(w: bv32, pin: Pin)
    requires pin < PinCount - 1
    ensures ModeApplied(w, pin, 2) == Set(w, pin + 1)
  {
  }

  lemma ModeIdempotent(w: bv32, pin: Pin, mode: bv8)
    ensures ModeApplied(ModeApplied(w, pin, mode), pin, mode) == ModeApplied(w, pin, mode)
  {
    if mode != 0 {
      OrShiftedIdempotent(w, mode as bv32, pin);
    } else {
      ModeInputKeeps(w, pin, mode);
    }
  }

  lemma SenseIncludes(w: bv32, pin: Pin, levelSensitive: bool)
    ensures Includes(SenseApplied(w, pin, levelSensitive), w)
  {
  }

  lemma SenseLevelSets(w: bv32, pin: Pin, levelSensitive: bool)
    requires levelSensitive
    ensures SenseApplied(w, pin, levelSensitive) == Set(w, pin)
  {
  }

  lemma SenseEdgeKeeps(w: bv32, pin: Pin, levelSensitive: bool)
    requires !levelSensitive
    ensures SenseApplied(w, pin, levelSensitive) == w
  {
  }

  lemma SenseIdempotent(w: bv32, pin: Pin, levelSensitive: bool)
    ensures SenseApplied(SenseApplied(w, pin, levelSensitive), pin, levelSensitive) == SenseApplied(w, pin, levelSensitive)
  {
  }

  /** A single call clears no bit of a register other than DATA and IEV. */
  lemma ApplyToKeepsBits(g: Reg, w: bv32, c: Call)
    requires !Clearable(g)
    ensures Includes(ApplyTo(g, w, c), w)
  {
    IncludesReflexive(w);
    if c.SetPinMode? {
      ModeIncludes(w, c.pin, c.mode);
    } else if c.ConfigureInterruptType? {
      SenseIncludes(w, c.pin, c.levelSensitive);
    } else if !c.WriteToPin? && !c.WritePort? && !c.ConfigureLevelInterrupt? {
      SetIncludes(w, c.pin);
    }
  }

  /**
    * No sequence of driver calls clears a bit of DIR, AFSEL, DR2R, DR4R, PUR,
    * PDR, ODR, DEN, IS, IBE, IM or ICR: once a pin is an output, has a pull-up,
    * a stronger drive or an unmasked interrupt, the driver cannot take it back.
    */
  lemma {:induction false} RunOnKeepsConfiguration(g: Reg, w: bv32, calls: seq<Call>)
    requires !Clearable(g)
    ensures Includes(RunOn(g, w, calls), w)
    decreases |calls|
  {
    if calls == [] {
      IncludesReflexive(w);
    } else {
      var w1 := ApplyTo(g, w, calls[0]);
      ApplyToKeepsBits(g, w, calls[0]);
      RunOnKeepsConfiguration(g, w1, calls[1..]);
      IncludesTransitive(RunOn(g, w1, calls[1..]), w1, w);
    }
  }

  /** DATA and IEV are exactly the registers a call can clear a bit of. */
  lemma ClearableRegistersCanLoseBits(g: Reg, w: bv32, pin: Pin)
    requires Clearable(g) && IsSet(w, pin)
    ensures var c := if g == Data then WriteToPin(pin, 0) else ConfigureLevelInterrupt(pin, LowLevel);
      !Includes(ApplyTo(g, w, c), w)
  {
    ClearMakesClear(w, pin);
    var c := if g == Data then WriteToPin(pin, 0) else ConfigureLevelInterrupt(pin, LowLevel);
    assert ApplyTo(g, w, c) == Clear(w, pin);
    if Includes(Clear(w, pin), w) {
      IncludesBit(Clear(w, pin), w, pin);
    }
  }

  lemma PinWrittenIdempotent(w: bv32, pin: Pin, value: bv8)
    ensures PinWritten(PinWritten(w, pin, value), pin, value) == PinWritten(w, pin, value)
  {
    if value != 0 { SetIdempotent(w, pin); } else { ClearIdempotent(w, pin); }
  }

  lemma EdgeIdempotent(w: bv32, pin: Pin, edge: EdgeInterrupt)
    ensures var w' := if edge == RisingFallingEdge then Set(w, pin) else EdgeApplied(w, pin, edge);
      (if edge == RisingFallingEdge then Set(w', pin) else EdgeApplied(w', pin, edge)) == w'
  {
    if edge == FallingEdge { ClearIdempotent(w, pin); } else { SetIdempotent(w, pin); }
  }

  lemma LevelIdempotent(w: bv32, pin: Pin, level: LevelInterrupt)
    ensures LevelApplied(LevelApplied(w, pin, level), pin, level) == LevelApplied(w, pin, level)
  {
    if level == HighLevel { SetIdempotent(w, pin); } else { ClearIdempotent(w, pin); }
  }

  /** Repeating a call leaves the word it wrote as it was. */
  lemma WrittenIdempotent(c: Call, w: bv32)
    ensures Written(c, Written(c, w)) == Written(c, w)
  {
    if c.WriteToPin? {
      PinWrittenIdempotent(w, c.pin, c.value);
    } else if c.SetPinMode? {
      ModeIdempotent(w, c.pin, c.mode);
    } else if c.ConfigureInterruptType? {
      SenseIdempotent(w, c.pin, c.levelSensitive);
    } else if c.ConfigureEdgeInterrupt? {
      EdgeIdempotent(w, c.pin, c.edge);
    } else if c.ConfigureLevelInterrupt? {
      LevelIdempotent(w, c.pin, c.level);
    } else if !c.WritePort? {
      SetIdempotent(w, c.pin);
    }
  }

  /** Every driver call is idempotent: repeating it changes no register further. */
  lemma ApplyToIdempotent(g: Reg, w: bv32, c: Call)
    ensures ApplyTo(g, ApplyTo(g, w, c), c) == ApplyTo(g, w, c)
  {
    WrittenIdempotent(c, w);
  }

  /**
    * Writing a nonzero value sets bit `pin` of DATA, writing zero clears it;
    * no other bit of DATA changes.
    */
  lemma WriteToPinEffect(w: bv32, pin: Pin, value: bv8)
    ensures var w' := PinWritten(w, pin, value);
      IsSet(w', pin) == (value != 0) &&
      forall k: bv16 :: k < Width && k != pin ==> IsSet(w', k) == IsSet(w, k)
  {
    if value != 0 { SetBits(w, pin); } else { ClearBits(w, pin); }
  }

  /** Writing a pin back to the level it had gives back the old DATA. */
  lemma WriteToPinRestores(w: bv32, pin: Pin, value: bv8)
    ensures PinWritten(PinWritten(w, pin, value), pin, if IsSet(w, pin) then 1 else 0) == w
  {
    if IsSet(w, pin) {
      if value != 0 { SetIdempotent(w, pin); SetIsIdentity(w, pin); } else { SetAfterClear(w, pin); }
    } else {
      if value != 0 { ClearAfterSet(w, pin); } else { ClearIdempotent(w, pin); ClearIsIdentity(w, pin); }
    }
  }

  /** A port write makes DATA the zero-extended byte, so its low byte reads back as `value`. */
  lemma WritePortEffect(value: bv8)
    ensures var w := value as bv32;
      w < 0x100 && (w & 0xFF) as bv8 == value
  {
  }

  /**
    * Mode 0 (input) leaves DIR unchanged, so a pin once made an output stays
    * an output; mode 1 (output) sets bit `pin`; any mode only adds bits.
    */
  lemma SetPinModeEffect(w: bv32, pin: Pin, mode: bv8)
    ensures mode == InputMode ==> ModeApplied(w, pin, mode) == w
    ensures mode == OutputMode ==> ModeApplied(w, pin, mode) == Set(w, pin)
    ensures Includes(ModeApplied(w, pin, mode), w)
  {
    ModeIncludes(w, pin, mode);
    if mode == InputMode {
      ModeInputKeeps(w, pin, mode);
    } else if mode == OutputMode {
      ModeOutputSets(w, pin, mode);
    }
  }

  /** 2 mA writes DR2R only; 4 mA, 8 mA and every other value write DR4R only; the written bit is set. */
  lemma ConfigureDriveStrengthEffect(g: Reg, w: bv32, pin: Pin, strength: bv16)
    ensures WritesTo(ConfigureDriveStrength(pin, strength), g) == (g == if strength == DriveStrength2mA then Dr2r else Dr4r)
    ensures WritesTo(ConfigureDriveStrength(pin, DriveStrength8mA), g) == (g == Dr4r)
    ensures strength == DriveStrength2mA ==> ApplyTo(Dr2r, w, ConfigureDriveStrength(pin, strength)) == Set(w, pin)
    ensures strength != DriveStrength2mA ==> ApplyTo(Dr4r, w, ConfigureDriveStrength(pin, strength)) == Set(w, pin)
  {
  }

  /** Pull-up writes PUR only, pull-down PDR only, and every other value ODR only; the written bit is set. */
  lemma ConfigureRegisterEffect(g: Reg, w: bv32, pin: Pin, config: bv16)
    ensures WritesTo(ConfigureRegister(pin, config), g) ==
      (g == if config == PullUp then Pur else if config == PullDown then Pdr else Odr)
    ensures ApplyTo(PadRegister(config), w, ConfigureRegister(pin, config)) == Set(w, pin)
  {
  }

  /** `hal_gpio_configure_digital_functionality` sets the DEN bit whatever `enable` says: disabling is not possible. */
  lemma ConfigureDigitalIgnoresEnable(g: Reg, w: bv32, pin: Pin, enable: bool)
    ensures ApplyTo(g, w, ConfigureDigitalFunctionality(pin, enable)) == ApplyTo(g, w, ConfigureDigitalFunctionality(pin, !enable))
    ensures IsSet(ApplyTo(Den, w, ConfigureDigitalFunctionality(pin, enable)), pin)
  {
    SetMakesSet(w, pin);
  }

  /** Level sensitivity sets the IS bit; edge sensitivity leaves IS unchanged, so it cannot undo a level setting. */
  lemma ConfigureInterruptTypeEffect(w: bv32, pin: Pin, levelSensitive: bool)
    ensures levelSensitive ==> SenseApplied(w, pin, levelSensitive) == Set(w, pin)
    ensures !levelSensitive ==> SenseApplied(w, pin, levelSensitive) == w
  {
    if levelSensitive {
      SenseLevelSets(w, pin, levelSensitive);
    } else {
      SenseEdgeKeeps(w, pin, levelSensitive);
    }
  }

  lemma EdgeBothEffect(ibe: bv32, iev: bv32, pin: Pin)
    ensures IsSet(ApplyTo(Ibe, ibe, ConfigureEdgeInterrupt(pin, RisingFallingEdge)), pin)
    ensures ApplyTo(Iev, iev, ConfigureEdgeInterrupt(pin, RisingFallingEdge)) == iev
  {
    SetMakesSet(ibe, pin);
  }

  lemma EdgeSingleEffect(ibe: bv32, iev: bv32, pin: Pin, edge: EdgeInterrupt)
    requires edge != RisingFallingEdge
    ensures ApplyTo(Ibe, ibe, ConfigureEdgeInterrupt(pin, edge)) == ibe
    ensures IsSet(ApplyTo(Iev, iev, ConfigureEdgeInterrupt(pin, edge)), pin) == (edge == RisingEdge)
  {
    if edge == FallingEdge {
      ClearMakesClear(iev, pin);
    } else {
      SetMakesSet(iev, pin);
    }
  }

  /**
    * Both edges set the IBE bit and leave IEV; a falling edge clears the IEV bit
    * and a rising edge sets it, both leaving IBE.
    */
  lemma ConfigureEdgeInterruptEffect(ibe: bv32, iev: bv32, pin: Pin, edge: EdgeInterrupt)
    ensures edge == RisingFallingEdge ==>
      IsSet(ApplyTo(Ibe, ibe, ConfigureEdgeInterrupt(pin, edge)), pin) && ApplyTo(Iev, iev, ConfigureEdgeInterrupt(pin, edge)) == iev
    ensures edge != RisingFallingEdge ==>
      ApplyTo(Ibe, ibe, ConfigureEdgeInterrupt(pin, edge)) == ibe &&
      IsSet(ApplyTo(Iev, iev, ConfigureEdgeInterrupt(pin, edge)), pin) == (edge == RisingEdge)
  {
    if edge == RisingFallingEdge {
      EdgeBothEffect(ibe, iev, pin);
    } else {
      EdgeSingleEffect(ibe, iev, pin, edge);
    }
  }

  /** High level sets the IEV bit and low level clears it; the other bits of IEV are kept. */
  lemma ConfigureLevelInterruptEffect(w: bv32, pin: Pin, level: LevelInterrupt)
    ensures var w' := LevelApplied(w, pin, level);
      IsSet(w', pin) == (level == HighLevel) &&
      forall k: bv16 :: k < Width && k != pin ==> IsSet(w', k) == IsSet(w, k)
  {
    if level == HighLevel { SetBits(w, pin); } else { ClearBits(w, pin); }
  }

  /** Enabling the interrupt is a clear followed by unmasking: both set the pin's ICR bit; only the enable sets the IM bit. */
  lemma EnableInterruptIsClearThenUnmask(g: Reg, w: bv32, pin: Pin)
    ensures ApplyTo(g, w, EnableInterrupt(pin)) ==
      if g == Im then Set(w, pin) else ApplyTo(g, w, ClearInterrupt(pin))
    ensures IsSet(ApplyTo(Icr, w, ClearInterrupt(pin)), pin)
  {
    SetMakesSet(w, pin);
  }

  /**
    * `hal_gpio_init` writes DIR as `hal_gpio_set_pin_mode` does with the low
    * byte of the mode, then sets bit `pin` of DEN, and writes no other register.
    */
  lemma InitEffect(g: Reg, w: bv32, cfg: PinConfig)
    requires cfg.pin & 0xFFFF < PinCount as bv32
    ensures var pin := (cfg.pin & 0xFFFF) as bv16;
      RunOn(g, w, InitCalls(cfg)) ==
        if g == Dir then ModeApplied(w, pin, (cfg.mode & 0xFF) as bv8)
        else if g == Den then Set(w, pin)
        else w
  {
    var pin := (cfg.pin & 0xFFFF) as bv16;
    var mode := (cfg.mode & 0xFF) as bv8;
    assert InitCalls(cfg) == [SetPinMode(pin, mode), ConfigureDigitalFunctionality(pin, cfg.digital != 0)];
    InitPairEffect(g, w, pin, mode, cfg.digital != 0);
  }

  lemma InitPairEffect(g: Reg, w: bv32, pin: Pin, mode: bv8, enable: bool)
    ensures RunOn(g, w, [SetPinMode(pin, mode), ConfigureDigitalFunctionality(pin, enable)]) ==
      if g == Dir then ModeApplied(w, pin, mode) else if g == Den then Set(w, pin) else w
  {
    RunTwo(g, w, SetPinMode(pin, mode), ConfigureDigitalFunctionality(pin, enable));
  }

  /**
    * After `hal_gpio_init`, whatever the driver is asked to do next, the pin
    * stays digitally enabled, and a pin configured as an output stays one.
    */
  lemma {:induction false} InitConfigurationPersists(g: Reg, w: bv32, cfg: PinConfig, later: seq<Call>)
    requires cfg.pin & 0xFFFF < PinCount as bv32
    requires g == Den || (g == Dir && (cfg.mode & 0xFF) as bv8 == OutputMode)
    ensures IsSet(RunOn(g, w, InitCalls(cfg) + later), (cfg.pin & 0xFFFF) as bv16)
  {
    var pin := (cfg.pin & 0xFFFF) as bv16;
    var w1 := RunOn(g, w, InitCalls(cfg));
    RunOnAppend(g, w, InitCalls(cfg), later);
    InitEffect(g, w, cfg);
    if g == Dir {
      ModeOutputSets(w, pin, (cfg.mode & 0xFF) as bv8);
    }
    assert w1 == Set(w, pin);
    SetMakesSet(w, pin);
    RunOnKeepsConfiguration(g, w1, later);
    IncludesBit(RunOn(g, w1, later), w1, pin);
  }

  /** The register block of one port, changed in place by the driver calls. */
  class Port {
    var DATA: bv32
    var DIR: bv32
    var AFSEL: bv32
    var DR2R: bv32
    var DR4R: bv32
    var PUR: bv32
    var PDR: bv32
    var ODR: bv32
    var DEN: bv32
    var IS: bv32
    var IBE: bv32
    var IEV: bv32
    var IM: bv32
    var ICR: bv32

    /** `hal_gpio_read_pin`: 0 or 1, the level of bit `pin` of DATA. */
    function ReadPin(pin: Pin): (v: bv8)
      reads this
      ensures v == 0 || v == 1
      ensures v == 1 <==> IsSet(DATA, pin)
    {
      ((DATA >> pin) & 1) as bv8
    }

    /** `hal_gpio_read_port`: DATA narrowed to its low byte, bit for bit. */
    function ReadPort(): (v: bv8)
      reads this
      ensures forall k: bv16 :: k < 8 ==> (IsSet(v as bv32, k) <==> IsSet(DATA, k))
    {
      LowByteBits(DATA);
      (DATA & 0xFF) as bv8
    }

    method WriteToPin(pin: Pin, value: bv8)
      modifies this`DATA
      ensures DATA == PinWritten(old(DATA), pin, value)
      ensures DATA == ApplyTo(Data, old(DATA), Call.WriteToPin(pin, value))
      ensures ReadPin(pin) == if value != 0 then 1 else 0
    {
      WriteToPinEffect(DATA, pin, value);
      if value != 0 {
        DATA := Set(DATA, pin);
      } else {
        DATA := Clear(DATA, pin);
      }
    }

    method WritePort(value: bv8)
      modifies this`DATA
      ensures DATA == value as bv32
      ensures DATA == ApplyTo(Data, old(DATA), Call.WritePort(value))
      ensures ReadPort() == value
    {
      WritePortEffect(value);
      DATA := value as bv32;
    }

    method SetPinMode(pin: Pin, mode: bv8)
      modifies this`DIR
      ensures DIR == ModeApplied(old(DIR), pin, mode)
      ensures DIR == ApplyTo(Dir, old(DIR), Call.SetPinMode(pin, mode))
    {
      if mode != 0 {
        DIR := OrShifted(DIR, mode as bv32, pin);
      } else {
        DIR := DIR & !((mode as bv32) << pin);
      }
    }

    method SetAltFunction(pin: Pin)
      modifies this`AFSEL
      ensures AFSEL == Set(old(AFSEL), pin)
      ensures AFSEL == ApplyTo(Afsel, old(AFSEL), Call.SetAltFunction(pin))
    {
      AFSEL := Set(AFSEL, pin);
    }

    method ConfigureDriveStrength(pin: Pin, strength: bv16)
      modifies this`DR2R, this`DR4R
      ensures DriveRegister(strength) == Dr2r ==> DR2R == Set(old(DR2R), pin) && DR4R == old(DR4R)
      ensures DriveRegister(strength) == Dr4r ==> DR4R == Set(old(DR4R), pin) && DR2R == old(DR2R)
      ensures DR2R == ApplyTo(Dr2r, old(DR2R), Call.ConfigureDriveStrength(pin, strength))
      ensures DR4R == ApplyTo(Dr4r, old(DR4R), Call.ConfigureDriveStrength(pin, strength))
    {
      if strength == DriveStrength2mA {
        DR2R := Set(DR2R, pin);
      } else if strength == DriveStrength4mA {
        DR4R := Set(DR4R, pin);
      } else {
        DR4R := Set(DR4R, pin);
      }
    }

    method ConfigureRegister(pin: Pin, config: bv16)
      modifies this`PUR, this`PDR, this`ODR
      ensures PUR == (if PadRegister(config) == Pur then Set(old(PUR), pin) else old(PUR))
      ensures PDR == (if PadRegister(config) == Pdr then Set(old(PDR), pin) else old(PDR))
      ensures ODR == (if PadRegister(config) == Odr then Set(old(ODR), pin) else old(ODR))
      ensures PUR == ApplyTo(Pur, old(PUR), Call.ConfigureRegister(pin, config))
      ensures PDR == ApplyTo(Pdr, old(PDR), Call.ConfigureRegister(pin, config))
      ensures ODR == ApplyTo(Odr, old(ODR), Call.ConfigureRegister(pin, config))
    {
      if config == PullUp {
        PUR := Set(PUR, pin);
      } else if config == PullDown {
        PDR := Set(PDR, pin);
      } else {
        ODR := Set(ODR, pin);
      }
    }

    /** `enable` is accepted and ignored, as in the driver. */
    method ConfigureDigitalFunctionality(pin: Pin, enable: bool)
      modifies this`DEN
      ensures DEN == Set(old(DEN), pin)
      ensures DEN == ApplyTo(Den, old(DEN), Call.ConfigureDigitalFunctionality(pin, enable))
    {
      DEN := Set(DEN, pin);
    }

    method ConfigureInterruptType(pin: Pin, levelSensitive: bool)
      modifies this`IS
      ensures IS == SenseApplied(old(IS), pin, levelSensitive)
      ensures IS == ApplyTo(Is, old(IS), Call.ConfigureInterruptType(pin, levelSensitive))
    {
      IS := OrShifted(IS, if levelSensitive then 1 else 0, pin);
    }

    method ConfigureEdgeInterrupt(pin: Pin, edge: EdgeInterrupt)
      modifies this`IBE, this`IEV
      ensures edge == RisingFallingEdge ==> IBE == Set(old(IBE), pin) && IEV == old(IEV)
      ensures edge != RisingFallingEdge ==> IEV == EdgeApplied(old(IEV), pin, edge) && IBE == old(IBE)
      ensures IBE == ApplyTo(Ibe, old(IBE), Call.ConfigureEdgeInterrupt(pin, edge))
      ensures IEV == ApplyTo(Iev, old(IEV), Call.ConfigureEdgeInterrupt(pin, edge))
    {
      if edge == RisingFallingEdge {
        IBE := Set(IBE, pin);
      } else if edge == FallingEdge {
        IEV := Clear(IEV, pin);
      } else {
        IEV := Set(IEV, pin);
      }
    }

    method ConfigureLevelInterrupt(pin: Pin, level: LevelInterrupt)
      modifies this`IEV
      ensures IEV == LevelApplied(old(IEV), pin, level)
      ensures IEV == ApplyTo(Iev, old(IEV), Call.ConfigureLevelInterrupt(pin, level))
    {
      if level == HighLevel {
        IEV := Set(IEV, pin);
      } else {
        IEV := Clear(IEV, pin);
      }
    }

    /** The register part of `hal_gpio_enable_interrupt`: clear the pin's flag, then unmask it. */
    method EnableInterrupt(pin: Pin)
      modifies this`ICR, this`IM
      ensures ICR == Set(old(ICR), pin) && IM == Set(old(IM), pin)
      ensures ICR == ApplyTo(Icr, old(ICR), Call.EnableInterrupt(pin)) && IM == ApplyTo(Im, old(IM), Call.EnableInterrupt(pin))
    {
      ICR := Set(ICR, pin);
      IM := Set(IM, pin);
    }

    method ClearInterrupt(pin: Pin)
      modifies this`ICR
      ensures ICR == Set(old(ICR), pin)
      ensures ICR == ApplyTo(Icr, old(ICR), Call.ClearInterrupt(pin))
    {
      ICR := Set(ICR, pin);
    }

    /** `hal_gpio_init`: the pin mode first, then digital functionality, both on the configured pin. */
    method Init(cfg: PinConfig)
      requires cfg.pin & 0xFFFF < PinCount as bv32
      modifies this`DIR, this`DEN
      ensures DIR == RunOn(Dir, old(DIR), InitCalls(cfg))
      ensures DEN == RunOn(Den, old(DEN), InitCalls(cfg))
    {
      var pin := (cfg.pin & 0xFFFF) as bv16;
      SetPinMode(pin, (cfg.mode & 0xFF) as bv8);
      ConfigureDigitalFunctionality(pin, cfg.digital != 0);
      InitEffect(Dir, old(DIR), cfg);
      InitEffect(Den, old(DEN), cfg);
    }
  }

  lemma LowByteBit(w: bv32, k: bv16)
    requires k < 8
    ensures IsSet(((w & 0xFF) as bv8) as bv32, k) <==> IsSet(w, k)
  {
  }

  lemma LowByteBits(w: bv32)
    ensures forall k: bv16 :: k < 8 ==> (IsSet(((w & 0xFF) as bv8) as bv32, k) <==> IsSet(w, k))
  {
    forall k: bv16 | k < 8 {
      LowByteBit(w, k);
    }
  }
}
