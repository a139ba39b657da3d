/**
  * The UART driver of the TM4C123 hardware-abstraction layer.
  *
  * A UART instance is the block of 32-bit registers the driver touches (CTL,
  * LCRH, IM, DMACTL, CC, IBRD, FBRD), treated as plain storage. Every enable
  * call sets one fixed bit of one register and its disable partner clears
  * it; `Flag`, `RegisterOf` and `Position` are the table of those bits. The
  * word-length and stop-bit calls OR a field value shifted to its position
  * into LCRH, and the clock-source call ORs a clock selection into CC.
  */
module Uart {
  import opened Bits

  /** Bit positions in CTL. */
  const UartEnableBit: bv16 := 0
  const TransmitEnableBit: bv16 := 8
  const ReceiveEnableBit: bv16 := 9

  /** Bit positions in LCRH. */
  const ParityEnableBit: bv16 := 1
  const EvenParityBit: bv16 := 2
  const TwoStopBitsBit: bv16 := 3
  const FifoEnableBit: bv16 := 4
  const WordLengthBit: bv16 := 5
  const StickParityBit: bv16 := 7

  /** Bit positions in IM. */
  const NineBitInterruptBit: bv16 := 12
  const OverrunInterruptBit: bv16 := 10
  const BreakInterruptBit: bv16 := 9
  const ParityInterruptBit: bv16 := 8
  const FramingInterruptBit: bv16 := 7
  const ReceiveTimeoutInterruptBit: bv16 := 6
  const TransmitInterruptBit: bv16 := 5
  const ReceiveInterruptBit: bv16 := 4

  /** Bit positions in DMACTL. */
  const ReceiveDmaBit: bv16 := 0
  const TransmitDmaBit: bv16 := 1

  /** The two bits of the word-length field (WLEN, bits 5 and 6) and the stop-bit bit (STP2, bit 3) of LCRH. */
  const WordLengthField: bv32 := 0x60
  const StopBitsField: bv32 := 0x08

  /** The registers that hold a flag the driver enables and disables. */
  datatype FlagRegister = Ctl | Lcrh | Im | Dmactl

  /** Every single-bit setting of the driver, each with an enable call and a disable call. */
  datatype Flag =
    | UartEnable | TransmitEnable | ReceiveEnable
    | FifoEnable | ParityEnable | EvenParity
    | NineBitInterrupt | OverrunInterrupt | BreakInterrupt | ParityInterrupt
    | FramingInterrupt | ReceiveTimeoutInterrupt | TransmitInterrupt | ReceiveInterrupt
    | ReceiveDma | TransmitDma

  /** The register a flag lives in. */
  function RegisterOf(f: Flag): FlagRegister
  {
    match f
    case UartEnable | TransmitEnable | ReceiveEnable => Ctl
    case FifoEnable | ParityEnable | EvenParity => Lcrh
    case ReceiveDma | TransmitDma => Dmactl
    case _ => Im
  }

  /** The bit a flag occupies in its register. */
  function Position(f: Flag): (n: bv16)
    ensures n < Width
  {
    match f
    case UartEnable => UartEnableBit
    case TransmitEnable => TransmitEnableBit
    case ReceiveEnable => ReceiveEnableBit
    case FifoEnable => FifoEnableBit
    case ParityEnable => ParityEnableBit
    case EvenParity => EvenParityBit
    case NineBitInterrupt => NineBitInterruptBit
    case OverrunInterrupt => OverrunInterruptBit
    case BreakInterrupt => BreakInterruptBit
    case ParityInterrupt => ParityInterruptBit
    case FramingInterrupt => FramingInterruptBit
    case ReceiveTimeoutInterrupt => ReceiveTimeoutInterruptBit
    case TransmitInterrupt => TransmitInterruptBit
    case ReceiveInterrupt => ReceiveInterruptBit
    case ReceiveDma => ReceiveDmaBit
    case TransmitDma => TransmitDmaBit
  }

  /** No two flags of one register share a bit. */
  lemma FlagsHaveDistinctBits(f: Flag, g: Flag)
    requires f != g && RegisterOf(f) == RegisterOf(g)
    ensures Position(f) != Position(g)
  {
    match f
    case UartEnable | TransmitEnable | ReceiveEnable =>
      assert g.UartEnable? || g.TransmitEnable? || g.ReceiveEnable?;
    case FifoEnable | ParityEnable | EvenParity =>
      assert g.FifoEnable? || g.ParityEnable? || g.EvenParity?;
    case ReceiveDma | TransmitDma =>
      assert g.ReceiveDma? || g.TransmitDma?;
    case _ =>
      assert RegisterOf(g) == Im;
  }

  /** `reg |= (1 << bit)` for a flag turns it on, clearing it turns it off. */
  lemma EnableTurnsFlagOn(w: bv32, f: Flag)
    ensures IsSet(Set(w, Position(f)), Position(f))
    ensures !IsSet(Clear(w, Position(f)), Position(f))
  {
    SetMakesSet(w, Position(f));
    ClearMakesClear(w, Position(f));
  }

  /**
    * Enabling or disabling one flag never changes another flag of the same
    * register: enabling the UART leaves TXE and RXE, enabling RX leaves TX.
    */
  lemma EnableLeavesOtherFlags(w: bv32, f: Flag, g: Flag)
    requires f != g && RegisterOf(f) == RegisterOf(g)
    ensures IsSet(Set(w, Position(f)), Position(g)) == IsSet(w, Position(g))
    ensures IsSet(Clear(w, Position(f)), Position(g)) == IsSet(w, Position(g))
  {
    FlagsHaveDistinctBits(f, g);
    SetOther(w, Position(f), Position(g));
    ClearOther(w, Position(f), Position(g));
  }

  /**
    * Disabling after enabling gives back the register with only the flag's
    * bit cleared, and the original register when the flag was off.
    */
  lemma DisableUndoesEnable(w: bv32, f: Flag)
    ensures Clear(Set(w, Position(f)), Position(f)) == Clear(w, Position(f))
    ensures !IsSet(w, Position(f)) ==> Clear(Set(w, Position(f)), Position(f)) == w
  {
    ClearAfterSet(w, Position(f));
  }

  /** Enabling twice is enabling once, and disabling twice is disabling once. */
  lemma EnableIdempotent(w: bv32, f: Flag)
    ensures Set(Set(w, Position(f)), Position(f)) == Set(w, Position(f))
    ensures Clear(Clear(w, Position(f)), Position(f)) == Clear(w, Position(f))
  {
    SetIdempotent(w, Position(f));
    ClearIdempotent(w, Position(f));
  }

  /** `reg |= (value << at)`: a field value shifted to its bit position and OR-ed in. */
  function FieldOred(w: bv32, value: bv32, at: bv16): bv32
    requires at < Width
  {
    w | (value << at)
  }

  /** OR-ing a field in loses no bit of the register. */
  lemma FieldOredIncludes(w: bv32, value: bv32, at: bv16)
    requires at < Width
    ensures Includes(FieldOred(w, value, at), w)
  {
    OrIncludes(w, value << at);
  }

  /** OR-ing a field in leaves every bit below its position as it was. */
  lemma FieldOredKeepsLowBits(w: bv32, value: bv32, at: bv16)
    requires at < Width
    ensures forall k: bv16 :: k < at ==> IsSet(FieldOred(w, value, at), k) == IsSet(w, k)
  {
    ShiftedOrKeepsLowBits(w, value, at);
  }

  /** OR-ing the same field value twice is OR-ing it once. */
  lemma FieldOredIdempotent(w: bv32, value: bv32, at: bv16)
    requires at < Width
    ensures FieldOred(FieldOred(w, value, at), value, at) == FieldOred(w, value, at)
  {
  }

  /** A word length below 4 lands in WLEN (bits 5 and 6) and changes no other bit of LCRH. */
  lemma WordLengthStaysInField(w: bv32, worldlength: bv32)
    requires worldlength < 4
    ensures FieldOred(w, worldlength, WordLengthBit) & !WordLengthField == w & !WordLengthField
  {
  }

  /** A stop-bit value below 2 lands in STP2 (bit 3) and changes no other bit of LCRH. */
  lemma StopBitsStayInField(w: bv32, stopbits: bv32)
    requires stopbits < 2
    ensures FieldOred(w, stopbits, TwoStopBitsBit) & !StopBitsField == w & !StopBitsField
  {
  }

  /** The value is not masked to its field: a stop-bit value of 2 sets the FIFO enable bit instead of STP2. */
  lemma StopBitsTwoEnablesFifo(w: bv32)
    ensures IsSet(FieldOred(w, 2, TwoStopBitsBit), FifoEnableBit)
    ensures IsSet(FieldOred(w, 2, TwoStopBitsBit), TwoStopBitsBit) == IsSet(w, TwoStopBitsBit)
  {
  }

  /** The value is not masked to its field: a word-length value of 4 sets the stick-parity bit. */
  lemma WordLengthFourSetsStickParity(w: bv32)
    ensures IsSet(FieldOred(w, 4, WordLengthBit), StickParityBit)
  {
  }

  /** The C `int8_t` of the clock-source argument. */
  newtype Int8 = x: int | -128 <= x < 128

  /** An `int` constant converted to the `uint32_t` width of a register: reduced modulo 2^32. */
  function Wrap32(v: int): bv32
  {
    (v % 0x1_0000_0000) as bv32
  }

  /**
    * The bits `hal_uart_configure_clock_source` ORs into CC: the PIOSC
    * selection when the argument equals it, the system-clock selection for
    * every other value. `piosc` and `system` are the values of
    * `UART_CLOCK_PIOSC` and `UART_CLOCK_SYSTEM`.
    */
  function ClockSelection(sourceType: Int8, piosc: int, system: int): bv32
  {
    if sourceType as int == piosc then Wrap32(piosc) else Wrap32(system)
  }

  /** CC never loses bits through a clock-source call, and always holds the selection just OR-ed in. */
  lemma ClockSourceOnlyAddsBits(cc: bv32, sourceType: Int8, piosc: int, system: int)
    ensures Includes(cc | ClockSelection(sourceType, piosc, system), cc)
    ensures Includes(cc | ClockSelection(sourceType, piosc, system), ClockSelection(sourceType, piosc, system))
  {
    OrIncludes(cc, ClockSelection(sourceType, piosc, system));
  }

  /** Once PIOSC has been selected, no later clock-source call removes its bits. */
  lemma PioscSelectionIsSticky(cc: bv32, piosc: Int8, later: Int8, system: int)
    ensures Includes(cc | ClockSelection(piosc, piosc as int, system) | ClockSelection(later, piosc as int, system),
                     Wrap32(piosc as int))
  {
    var selected := cc | Wrap32(piosc as int);
    OrIncludes(cc, Wrap32(piosc as int));
    OrIncludes(selected, ClockSelection(later, piosc as int, system));
    IncludesTransitive(selected | ClockSelection(later, piosc as int, system), selected, Wrap32(piosc as int));
  }

  /**
    * With a system-clock selection of 0, asking for the system clock leaves
    * CC as it was: the driver cannot switch back from PIOSC.
    */
  lemma SystemSelectionOfZeroChangesNothing(cc: bv32, sourceType: Int8, piosc: int)
    requires sourceType as int != piosc
    ensures cc | ClockSelection(sourceType, piosc, 0) == cc
  {
  }

  /** The register block of one UART (`UART0_Type`), changed in place by the driver calls. */
  class Instance {
    var CTL: bv32
    var LCRH: bv32
    var IM: bv32
    var DMACTL: bv32
    var CC: bv32
    var IBRD: bv32
    var FBRD: bv32

    /** The word of the register a flag lives in. */
    function Word(r: FlagRegister): bv32
      reads this
    {
      match r
      case Ctl => CTL
      case Lcrh => LCRH
      case Im => IM
      case Dmactl => DMACTL
    }

    /** Whether a flag is on. */
    predicate Enabled(f: Flag)
      reads this
    {
      IsSet(Word(RegisterOf(f)), Position(f))
    }

    method EnableUartModule()
      modifies this`CTL
      ensures CTL == Set(old(CTL), Position(UartEnable))
      ensures Enabled(UartEnable)
    {
      EnableTurnsFlagOn(CTL, UartEnable);
      CTL := Set(CTL, Position(UartEnable));
    }

    method DisableUartModule()
      modifies this`CTL
      ensures CTL == Clear(old(CTL), Position(UartEnable))
      ensures !Enabled(UartEnable)
    {
      EnableTurnsFlagOn(CTL, UartEnable);
      CTL := Clear(CTL, Position(UartEnable));
    }

    method EnableTx()
      modifies this`CTL
      ensures CTL == Set(old(CTL), Position(TransmitEnable))
      ensures Enabled(TransmitEnable)
    {
      EnableTurnsFlagOn(CTL, TransmitEnable);
      CTL := Set(CTL, Position(TransmitEnable));
    }

    method DisableTx()
      modifies this`CTL
      ensures CTL == Clear(old(CTL), Position(TransmitEnable))
      ensures !Enabled(TransmitEnable)
    {
      EnableTurnsFlagOn(CTL, TransmitEnable);
      CTL := Clear(CTL, Position(TransmitEnable));
    }

    method EnableRx()
      modifies this`CTL
      ensures CTL == Set(old(CTL), Position(ReceiveEnable))
      ensures Enabled(ReceiveEnable)
    {
      EnableTurnsFlagOn(CTL, ReceiveEnable);
      CTL := Set(CTL, Position(ReceiveEnable));
    }

    method DisableRx()
      modifies this`CTL
      ensures CTL == Clear(old(CTL), Position(ReceiveEnable))
      ensures !Enabled(ReceiveEnable)
    {
      EnableTurnsFlagOn(CTL, ReceiveEnable);
      CTL := Clear(CTL, Position(ReceiveEnable));
    }

    /** `hal_uart_configure_clock_source`; the clock selection constants are parameters. */
    method ConfigureClockSource(sourceType: Int8, piosc: int, system: int)
      modifies this`CC
      ensures CC == old(CC) | ClockSelection(sourceType, piosc, system)
    {
      if sourceType as int == piosc {
        CC := CC | Wrap32(piosc);
      } else {
        CC := CC | Wrap32(system);
      }
    }

    method EnableFifo()
      modifies this`LCRH
      ensures LCRH == Set(old(LCRH), Position(FifoEnable))
      ensures Enabled(FifoEnable)
    {
      EnableTurnsFlagOn(LCRH, FifoEnable);
      LCRH := Set(LCRH, Position(FifoEnable));
    }

    method DisableFifo()
      modifies this`LCRH
      ensures LCRH == Clear(old(LCRH), Position(FifoEnable))
      ensures !Enabled(FifoEnable)
    {
      EnableTurnsFlagOn(LCRH, FifoEnable);
      LCRH := Clear(LCRH, Position(FifoEnable));
    }

    method EnableParity()
      modifies this`LCRH
      ensures LCRH == Set(old(LCRH), Position(ParityEnable))
      ensures Enabled(ParityEnable)
    {
      EnableTurnsFlagOn(LCRH, ParityEnable);
      LCRH := Set(LCRH, Position(ParityEnable));
    }

    method DisableParity()
      modifies this`LCRH
      ensures LCRH == Clear(old(LCRH), Position(ParityEnable))
      ensures !Enabled(ParityEnable)
    {
      EnableTurnsFlagOn(LCRH, ParityEnable);
      LCRH := Clear(LCRH, Position(ParityEnable));
    }

    method EnableEvenParity()
      modifies this`LCRH
      ensures LCRH == Set(old(LCRH), Position(EvenParity))
      ensures Enabled(EvenParity)
    {
      EnableTurnsFlagOn(LCRH, EvenParity);
      LCRH := Set(LCRH, Position(EvenParity));
    }

    method EnableOddParity()
      modifies this`LCRH
      ensures LCRH == Clear(old(LCRH), Position(EvenParity))
      ensures !Enabled(EvenParity)
    {
      EnableTurnsFlagOn(LCRH, EvenParity);
      LCRH := Clear(LCRH, Position(EvenParity));
    }

    method EnableNineBitModeInterrupt()
      modifies this`IM
      ensures IM == Set(old(IM), Position(NineBitInterrupt))
      ensures Enabled(NineBitInterrupt)
    {
      EnableTurnsFlagOn(IM, NineBitInterrupt);
      IM := Set(IM, Position(NineBitInterrupt));
    }

    method DisableNineBitModeInterrupt()
      modifies this`IM
      ensures IM == Clear(old(IM), Position(NineBitInterrupt))
      ensures !Enabled(NineBitInterrupt)
    {
      EnableTurnsFlagOn(IM, NineBitInterrupt);
      IM := Clear(IM, Position(NineBitInterrupt));
    }

    method EnableOverrunErrorInterrupt()
      modifies this`IM
      ensures IM == Set(old(IM), Position(OverrunInterrupt))
      ensures Enabled(OverrunInterrupt)
    {
      EnableTurnsFlagOn(IM, OverrunInterrupt);
      IM := Set(IM, Position(OverrunInterrupt));
    }

    method DisableOverrunErrorInterrupt()
      modifies this`IM
      ensures IM == Clear(old(IM), Position(OverrunInterrupt))
      ensures !Enabled(OverrunInterrupt)
    {
      EnableTurnsFlagOn(IM, OverrunInterrupt);
      IM := Clear(IM, Position(OverrunInterrupt));
    }

    method EnableBreakErrorInterrupt()
      modifies this`IM
      ensures IM == Set(old(IM), Position(BreakInterrupt))
      ensures Enabled(BreakInterrupt)
    {
      EnableTurnsFlagOn(IM, BreakInterrupt);
      IM := Set(IM, Position(BreakInterrupt));
    }

    method DisableBreakErrorInterrupt()
      modifies this`IM
      ensures IM == Clear(old(IM), Position(BreakInterrupt))
      ensures !Enabled(BreakInterrupt)
    {
      EnableTurnsFlagOn(IM, BreakInterrupt);
      IM := Clear(IM, Position(BreakInterrupt));
    }

    method EnableParityErrorInterrupt()
      modifies this`IM
      ensures IM == Set(old(IM), Position(ParityInterrupt))
      ensures Enabled(ParityInterrupt)
    {
      EnableTurnsFlagOn(IM, ParityInterrupt);
      IM := Set(IM, Position(ParityInterrupt));
    }

    method DisableParityErrorInterrupt()
      modifies this`IM
      ensures IM == Clear(old(IM), Position(ParityInterrupt))
      ensures !Enabled(ParityInterrupt)
    {
      EnableTurnsFlagOn(IM, ParityInterrupt);
      IM := Clear(IM, Position(ParityInterrupt));
    }

    method EnableFramingErrorInterrupt()
      modifies this`IM
      ensures IM == Set(old(IM), Position(FramingInterrupt))
      ensures Enabled(FramingInterrupt)
    {
      EnableTurnsFlagOn(IM, FramingInterrupt);
      IM := Set(IM, Position(FramingInterrupt));
    }

    method DisableFramingErrorInterrupt()
      modifies this`IM
      ensures IM == Clear(old(IM), Position(FramingInterrupt))
      ensures !Enabled(FramingInterrupt)
    {
      EnableTurnsFlagOn(IM, FramingInterrupt);
      IM := Clear(IM, Position(FramingInterrupt));
    }

    method EnableReceiveTimeoutInterrupt()
      modifies this`IM
      ensures IM == Set(old(IM), Position(ReceiveTimeoutInterrupt))
      ensures Enabled(ReceiveTimeoutInterrupt)
    {
      EnableTurnsFlagOn(IM, ReceiveTimeoutInterrupt);
      IM := Set(IM, Position(ReceiveTimeoutInterrupt));
    }

    method DisableReceiveTimeoutInterrupt()
      modifies this`IM
      ensures IM == Clear(old(IM), Position(ReceiveTimeoutInterrupt))
      ensures !Enabled(ReceiveTimeoutInterrupt)
    {
      EnableTurnsFlagOn(IM, ReceiveTimeoutInterrupt);
      IM := Clear(IM, Position(ReceiveTimeoutInterrupt));
    }

    method EnableTxInterrupt()
      modifies this`IM
      ensures IM == Set(old(IM), Position(TransmitInterrupt))
      ensures Enabled(TransmitInterrupt)
    {
      EnableTurnsFlagOn(IM, TransmitInterrupt);
      IM := Set(IM, Position(TransmitInterrupt));
    }

    method DisableTxInterrupt()
      modifies this`IM
      ensures IM == Clear(old(IM), Position(TransmitInterrupt))
      ensures !Enabled(TransmitInterrupt)
    {
      EnableTurnsFlagOn(IM, TransmitInterrupt);
      IM := Clear(IM, Position(TransmitInterrupt));
    }

    method EnableRxInterrupt()
      modifies this`IM
      ensures IM == Set(old(IM), Position(ReceiveInterrupt))
      ensures Enabled(ReceiveInterrupt)
    {
      EnableTurnsFlagOn(IM, ReceiveInterrupt);
      IM := Set(IM, Position(ReceiveInterrupt));
    }

    method DisableRxInterrupt()
      modifies this`IM
      ensures IM == Clear(old(IM), Position(ReceiveInterrupt))
      ensures !Enabled(ReceiveInterrupt)
    {
      EnableTurnsFlagOn(IM, ReceiveInterrupt);
      IM := Clear(IM, Position(ReceiveInterrupt));
    }

    method EnableRxDma()
      modifies this`DMACTL
      ensures DMACTL == Set(old(DMACTL), Position(ReceiveDma))
      ensures Enabled(ReceiveDma)
    {
      EnableTurnsFlagOn(DMACTL, ReceiveDma);
      DMACTL := Set(DMACTL, Position(ReceiveDma));
    }

    method DisableRxDma()
      modifies this`DMACTL
      ensures DMACTL == Clear(old(DMACTL), Position(ReceiveDma))
      ensures !Enabled(ReceiveDma)
    {
      EnableTurnsFlagOn(DMACTL, ReceiveDma);
      DMACTL := Clear(DMACTL, Position(ReceiveDma));
    }

    method EnableTxDma()
      modifies this`DMACTL
      ensures DMACTL == Set(old(DMACTL), Position(TransmitDma))
      ensures Enabled(TransmitDma)
    {
      EnableTurnsFlagOn(DMACTL, TransmitDma);
      DMACTL := Set(DMACTL, Position(TransmitDma));
    }

    method DisableTxDma()
      modifies this`DMACTL
      ensures DMACTL == Clear(old(DMACTL), Position(TransmitDma))
      ensures !Enabled(TransmitDma)
    {
      EnableTurnsFlagOn(DMACTL, TransmitDma);
      DMACTL := Clear(DMACTL, Position(TransmitDma));
    }
  }

  /** The communication parameters of `uart_init_t`. */
  datatype UartInit = UartInit(baudrate: bv32, worldlength: bv32, stopbits: bv32, parity: bv32, mode: bv32)

  /** The part of `uart_handle_t` the driver reads: the register block and the parameters. */
  class Handle {
    const instance: Instance
    var init: UartInit

    constructor (instance: Instance, init: UartInit)
      ensures this.instance == instance && this.init == init
    {
      this.instance := instance;
      this.init := init;
    }

    /** `hal_uart_configure_world_length`: the word length OR-ed into LCRH at WLEN. */
    method ConfigureWorldLength()
      modifies instance`LCRH
      ensures instance.LCRH == FieldOred(old(instance.LCRH), init.worldlength, WordLengthBit)
    {
      instance.LCRH := FieldOred(instance.LCRH, init.worldlength, WordLengthBit);
    }

    /** `hal_uart_configure_stopbits`: the stop-bit value OR-ed into LCRH at STP2. */
    method ConfigureStopbits()
      modifies instance`LCRH
      ensures instance.LCRH == FieldOred(old(instance.LCRH), init.stopbits, TwoStopBitsBit)
    {
      instance.LCRH := FieldOred(instance.LCRH, init.stopbits, TwoStopBitsBit);
    }
  }
}
