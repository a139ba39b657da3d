# TM4C123 GPIO and UART register drivers

This project models two drivers of a small hardware-abstraction layer for the
TM4C123 microcontroller:

- the GPIO port driver in `GPIO/hal_gpio.c`;
- the UART driver in `UART/hal_uart.c`.

Each driver call reads or rewrites the 32-bit memory-mapped registers of one
peripheral. The model treats those registers as plain storage.

- `bits.dfy`, module `Bits`: the read-modify-write idioms `reg |= (1 << n)`
  and `reg &= ~(1 << n)` as `Set` and `Clear`. It says what they do bit by bit
  and proves their algebra (idempotence, enable/disable inverses, no bit lost).
- `gpio.dfy`, module `Gpio`: class `Port` has the fourteen registers DATA, DIR,
  AFSEL, DR2R, DR4R, PUR, PDR, ODR, DEN, IS, IBE, IEV, IM and ICR.
  - One method per driver call changes them in place. Its `modifies` clause
    names exactly the registers it writes.
  - `ReadPin` and `ReadPort` are functions of DATA.
  - The datatype `Call` names the calls. `ApplyTo`/`RunOn` give their effect
    register by register, for one call and for a sequence of calls. The
    lemmas about these are properties of the driver as a whole, for example
    "no sequence of calls clears a DIR bit".
- `uart.dfy`, module `Uart`: class `Instance` has the registers CTL, LCRH, IM,
  DMACTL, CC, IBRD and FBRD. Class `Handle` pairs an instance with the
  `uart_init_t` parameters.
  - One method per enable/disable call sets or clears the bit that the table
    `Flag`/`RegisterOf`/`Position` assigns to it. The bit positions are the
    ones in `UART/hal_uart.h`.
  - The word-length, stop-bit and clock-source calls OR a value into LCRH or CC.

The model follows the code rather than its comments:

- `hal_gpio_set_pin_mode` with the input mode (0) changes nothing.
- `hal_gpio_configure_digital_functionality` ignores its `enable` argument.
- 8 mA drive strength lands in DR4R.
- No call ever clears a bit of DIR, AFSEL, DR2R, DR4R, PUR, PDR, ODR, DEN, IS,
  IBE, IM or ICR.

A driver argument is converted to the C parameter's width where the C code
does so:

- `pin_no` is `uint16_t`, so it becomes a `bv16`. Shifting by it is only
  defined below 31, and real ports have 8 pins, so pins are `Pin` (0..7).
- `value` and `mode` are `uint8_t`, so they become `bv8`.
- In `hal_gpio_init`, the `uint32_t` fields of `gpio_pin_config_t` are
  narrowed to those widths.

The macros `UART_CLOCK_PIOSC` and `UART_CLOCK_SYSTEM` are not defined in the
UART driver's files. They are therefore parameters of `ConfigureClockSource`.
Their `int` value is reduced modulo 2^32 when it is OR-ed into the
`uint32_t` CC register.

## Model

| member | source | states |
|---|---|---|
| Bits.Set | GPIO/hal_gpio.c:42 | `reg \| (1 << n)`: the register with bit n set (its meaning is stated by `SetBits`) |
| Bits.Clear | GPIO/hal_gpio.c:44 | `reg & ~(1 << n)`: the register with bit n cleared (its meaning is stated by `ClearBits`) |
| Bits.SetBits | GPIO/hal_gpio.c:42 | `reg \|= (1 << n)` makes bit n 1 and leaves every other bit as it was |
| Bits.ClearBits | GPIO/hal_gpio.c:44 | `reg &= ~(1 << n)` makes bit n 0 and leaves every other bit as it was |
| Bits.SetOther | UART/hal_uart.c:8-10 | setting bit n does not change any other bit k |
| Bits.ClearOther | UART/hal_uart.c:17-19 | clearing bit n does not change any other bit k |
| Bits.SetMakesSet | GPIO/hal_gpio.c:42 | after `reg \|= (1 << n)` bit n is 1 |
| Bits.ClearMakesClear | GPIO/hal_gpio.c:44 | after `reg &= ~(1 << n)` bit n is 0 |
| Bits.OrMaskKeepsOthers | GPIO/hal_gpio.c:42 | OR-ing a single-bit mask keeps all other bits |
| Bits.AndNotMaskKeepsOthers | GPIO/hal_gpio.c:44 | AND-ing the complement of a single-bit mask keeps all other bits |
| Bits.IncludesMeansBitwise | GPIO/hal_gpio.c:94 | "a includes b" means every bit set in b is set in a |
| Bits.OrIncludes | UART/hal_uart.c:103 | OR-ing anything into a register loses no bit, and every OR-ed bit ends up set |
| Bits.SetIncludes | GPIO/hal_gpio.c:94 | setting a bit loses no bit |
| Bits.ShiftedOrKeepsLowBits | UART/hal_uart.c:103 | `w \|= (v << s)` leaves the s lowest bits of w as they were |
| Bits.SetIdempotent | UART/hal_uart.c:8-10 | enabling twice is enabling once |
| Bits.ClearIdempotent | UART/hal_uart.c:17-19 | disabling twice is disabling once |
| Bits.ClearAfterSet | UART/hal_uart.c:8-19 | disable after enable gives the old register with the bit cleared, and the old register itself when the bit was 0 |
| Bits.SetAfterClear | UART/hal_uart.c:8-19 | enable after disable gives the old register with the bit set, and the old register itself when the bit was 1 |
| Bits.SetIsIdentity | GPIO/hal_gpio.c:42 | setting a bit that is already 1 changes nothing |
| Bits.ClearIsIdentity | GPIO/hal_gpio.c:44 | clearing a bit that is already 0 changes nothing |
| Gpio.PinWritten | GPIO/hal_gpio.c:40-45 | DATA after a pin write: bit pin set for a nonzero value, cleared for zero |
| Gpio.OrShifted | GPIO/hal_gpio.c:80 | `reg \| (v << pin)`, the unmasked OR of a mode or a promoted bool |
| Gpio.ModeApplied | GPIO/hal_gpio.c:79-82 | DIR after a pin-mode call: the mode shifted to pin OR-ed in for a nonzero mode, `DIR & ~(0 << pin)` for mode 0 |
| Gpio.SenseApplied | GPIO/hal_gpio.c:158 | IS after an interrupt-type call: the bool promoted to 0 or 1, shifted and OR-ed in |
| Gpio.DriveRegister | GPIO/hal_gpio.c:106-114 | the register a drive-strength call writes: DR2R for 2 mA, DR4R for 4 mA and for every other value |
| Gpio.PadRegister | GPIO/hal_gpio.c:126-134 | the register a pad call writes: PUR for pull-up, PDR for pull-down, ODR for every other value |
| Gpio.EdgeApplied | GPIO/hal_gpio.c:174-178 | IEV after a single-edge call: the pin bit cleared for a falling edge, set otherwise |
| Gpio.LevelApplied | GPIO/hal_gpio.c:190-195 | IEV after a level call: the pin bit set for a high level, cleared otherwise |
| Gpio.WritesTo | GPIO/hal_gpio.c:39-226 | which registers each call writes |
| Gpio.Written | GPIO/hal_gpio.c:39-226 | the word each call leaves in a register it writes |
| Gpio.ApplyTo | GPIO/hal_gpio.c:39-226 | a register after one call: `Written` when the call writes it, unchanged otherwise |
| Gpio.RunOn | GPIO/hal_gpio.c:39-226 | a register after a sequence of calls, applied first to last |
| Gpio.InitCalls | GPIO/hal_gpio.c:12-18 | `hal_gpio_init` is a pin-mode call followed by a digital-enable call on the same pin, with the config fields narrowed to the C parameter widths |
| Gpio.RunTwo | GPIO/hal_gpio.c:12-18 | running two calls is applying the first, then the second |
| Gpio.RunOnAppend | GPIO/hal_gpio.c:12-18 | running two call sequences one after the other is running their concatenation |
| Gpio.OrShiftedIdempotent | GPIO/hal_gpio.c:81 | OR-ing the same shifted value twice is OR-ing it once |
| Gpio.ModeIncludes | GPIO/hal_gpio.c:78-83 | setting a pin mode never clears a DIR bit |
| Gpio.ModeInputKeeps | GPIO/hal_gpio.c:82 | the input mode (0) leaves DIR unchanged, because `~(0 << pin)` is all ones |
| Gpio.ModeOutputSets | GPIO/hal_gpio.c:81 | the output mode (1) sets bit pin of DIR |
| Gpio.ModeTwoSetsNextPin | GPIO/hal_gpio.c:80 | the mode is not masked to one bit: mode 2 sets bit pin+1 of DIR, making the next pin an output |
| Gpio.ModeIdempotent | GPIO/hal_gpio.c:78-83 | setting the same mode twice is setting it once |
| Gpio.SenseIncludes | GPIO/hal_gpio.c:156-159 | configuring the interrupt type never clears an IS bit |
| Gpio.SenseLevelSets | GPIO/hal_gpio.c:158 | a level-sensitive type sets bit pin of IS |
| Gpio.SenseEdgeKeeps | GPIO/hal_gpio.c:158 | an edge-sensitive type (0) leaves IS unchanged |
| Gpio.SenseIdempotent | GPIO/hal_gpio.c:156-159 | configuring the same type twice is configuring it once |
| Gpio.PinWrittenIdempotent | GPIO/hal_gpio.c:39-46 | writing the same value to a pin twice is writing it once |
| Gpio.EdgeIdempotent | GPIO/hal_gpio.c:169-179 | configuring the same edge twice is configuring it once |
| Gpio.LevelIdempotent | GPIO/hal_gpio.c:188-196 | configuring the same level twice is configuring it once |
| Gpio.ApplyToKeepsBits | GPIO/hal_gpio.c:78-226 | no single call clears a bit of any register other than DATA and IEV |
| Gpio.RunOnKeepsConfiguration | GPIO/hal_gpio.c:78-226 | no sequence of calls clears a bit of DIR, AFSEL, DR2R, DR4R, PUR, PDR, ODR, DEN, IS, IBE, IM or ICR |
| Gpio.ClearableRegistersCanLoseBits | GPIO/hal_gpio.c:39-46 | DATA (by writing 0) and IEV (by a low-level interrupt) are registers a call does clear a bit of |
| Gpio.WrittenIdempotent | GPIO/hal_gpio.c:39-226 | every call, repeated, leaves the word it writes as the first call left it |
| Gpio.ApplyToIdempotent | GPIO/hal_gpio.c:39-226 | every call is idempotent on every register |
| Gpio.WriteToPinEffect | GPIO/hal_gpio.c:39-46 | a nonzero value sets bit pin of DATA and zero clears it; no other bit of DATA changes |
| Gpio.WriteToPinRestores | GPIO/hal_gpio.c:39-46 | writing a pin back to the level it had restores DATA exactly |
| Gpio.WritePortEffect | GPIO/hal_gpio.c:64-69 | the helper behind the read-back of `Port.WritePort`: the zero-extended byte is below 0x100 and its low byte is the value |
| Gpio.SetPinModeEffect | GPIO/hal_gpio.c:78-83 | input mode leaves DIR unchanged, output mode sets bit pin, and no mode clears a DIR bit |
| Gpio.ConfigureDriveStrengthEffect | GPIO/hal_gpio.c:104-115 | the call writes exactly one register: DR2R for 2 mA, DR4R for 4 mA, 8 mA and any other value; the pin bit of that register is set |
| Gpio.ConfigureRegisterEffect | GPIO/hal_gpio.c:124-135 | the call writes exactly one register: PUR for pull-up, PDR for pull-down, ODR for any other value; the pin bit of that register is set |
| Gpio.ConfigureDigitalIgnoresEnable | GPIO/hal_gpio.c:144-147 | the call has the same effect whatever `enable` is, and it sets the pin bit of DEN |
| Gpio.ConfigureInterruptTypeEffect | GPIO/hal_gpio.c:156-159 | level sensitivity sets the IS bit; edge sensitivity leaves IS unchanged |
| Gpio.EdgeBothEffect | GPIO/hal_gpio.c:171-173 | both edges set the IBE bit and leave IEV unchanged |
| Gpio.EdgeSingleEffect | GPIO/hal_gpio.c:174-178 | a single edge leaves IBE unchanged, and the IEV bit ends up 1 exactly for a rising edge |
| Gpio.ConfigureEdgeInterruptEffect | GPIO/hal_gpio.c:169-179 | both edges set the IBE bit and leave IEV; otherwise IBE is left and the IEV bit ends up 1 exactly for a rising edge |
| Gpio.ConfigureLevelInterruptEffect | GPIO/hal_gpio.c:188-196 | the IEV bit ends up 1 exactly for a high level; no other IEV bit changes |
| Gpio.EnableInterruptIsClearThenUnmask | GPIO/hal_gpio.c:206-226 | enabling an interrupt is clearing it (ICR bit set) plus setting the IM bit |
| Gpio.InitEffect | GPIO/hal_gpio.c:12-18 | init writes DIR as the pin-mode call does with the low byte of the mode, sets the DEN bit, and writes no other register |
| Gpio.InitPairEffect | GPIO/hal_gpio.c:12-18 | a pin-mode call followed by a digital-enable call on one pin writes DIR as the mode says, sets the DEN bit, and writes nothing else |
| Gpio.InitConfigurationPersists | GPIO/hal_gpio.c:12-18 | after init followed by any sequence of calls, the pin's DEN bit is still set, and so is its DIR bit when init made it an output |
| Gpio.LowByteBits | GPIO/hal_gpio.c:55 | bits 0..7 of `DATA & 0xFF`, taken as a byte, are bits 0..7 of DATA |
| Gpio.Port.ReadPin | GPIO/hal_gpio.c:27-30 | the result is 0 or 1, and it is 1 exactly when bit pin of DATA is set |
| Gpio.Port.ReadPort | GPIO/hal_gpio.c:53-56 | bit k of the result is bit k of DATA, for k in 0..7 |
| Gpio.Port.WriteToPin | GPIO/hal_gpio.c:39-46 | only DATA changes, as `PinWritten` says; reading the pin back gives 1 exactly when the value was nonzero; every register it writes ends up as `ApplyTo` says for the call |
| Gpio.Port.WritePort | GPIO/hal_gpio.c:64-69 | only DATA changes, to the zero-extended byte; reading the port back gives the value; every register it writes ends up as `ApplyTo` says for the call |
| Gpio.Port.SetPinMode | GPIO/hal_gpio.c:78-83 | only DIR changes, as `ModeApplied` says; every register it writes ends up as `ApplyTo` says for the call |
| Gpio.Port.SetAltFunction | GPIO/hal_gpio.c:92-95 | only AFSEL changes: its pin bit is set; every register it writes ends up as `ApplyTo` says for the call |
| Gpio.Port.ConfigureDriveStrength | GPIO/hal_gpio.c:104-115 | the pin bit of DR2R is set for 2 mA, of DR4R otherwise; the other register and all others are unchanged; every register it writes ends up as `ApplyTo` says for the call |
| Gpio.Port.ConfigureRegister | GPIO/hal_gpio.c:124-135 | exactly one of PUR, PDR, ODR gets its pin bit set, chosen by the configuration; every register it writes ends up as `ApplyTo` says for the call |
| Gpio.Port.ConfigureDigitalFunctionality | GPIO/hal_gpio.c:144-147 | only DEN changes: its pin bit is set; every register it writes ends up as `ApplyTo` says for the call |
| Gpio.Port.ConfigureInterruptType | GPIO/hal_gpio.c:156-159 | only IS changes, as `SenseApplied` says; every register it writes ends up as `ApplyTo` says for the call |
| Gpio.Port.ConfigureEdgeInterrupt | GPIO/hal_gpio.c:169-179 | both edges set the IBE bit and leave IEV; otherwise IEV is written as `EdgeApplied` says and IBE is left; every register it writes ends up as `ApplyTo` says for the call |
| Gpio.Port.ConfigureLevelInterrupt | GPIO/hal_gpio.c:188-196 | only IEV changes, as `LevelApplied` says; every register it writes ends up as `ApplyTo` says for the call |
| Gpio.Port.EnableInterrupt | GPIO/hal_gpio.c:206-216 | only ICR and IM change: the pin bit of each is set; every register it writes ends up as `ApplyTo` says for the call |
| Gpio.Port.ClearInterrupt | GPIO/hal_gpio.c:224-226 | only ICR changes: its pin bit is set; every register it writes ends up as `ApplyTo` says for the call |
| Gpio.Port.Init | GPIO/hal_gpio.c:12-18 | only DIR and DEN change, to what running `InitCalls` on them gives |
| Uart.RegisterOf | UART/hal_uart.c:8-341 | the register each enable/disable flag lives in: CTL, LCRH, IM or DMACTL |
| Uart.Position | UART/hal_uart.h:46-103 | every flag's bit position lies inside the 32-bit register |
| Uart.FlagsHaveDistinctBits | UART/hal_uart.h:46-103 | no two flags of one register share a bit |
| Uart.EnableTurnsFlagOn | UART/hal_uart.c:8-341 | every enable call turns its flag's bit on, and every disable call turns it off |
| Uart.EnableLeavesOtherFlags | UART/hal_uart.c:8-56 | enabling or disabling one flag never changes another flag of the same register |
| Uart.DisableUndoesEnable | UART/hal_uart.c:8-341 | disable after enable leaves the register with only that flag cleared, and as it was when the flag was off |
| Uart.EnableIdempotent | UART/hal_uart.c:8-341 | every enable and every disable is idempotent |
| Uart.FieldOred | UART/hal_uart.c:101-131 | `LCRH \| (value << at)`, the unmasked OR used for the word length (line 103) and for the stop-bit value (line 130) |
| Uart.FieldOredIncludes | UART/hal_uart.c:101-131 | the word-length and stop-bit calls only add bits to LCRH |
| Uart.FieldOredKeepsLowBits | UART/hal_uart.c:101-131 | OR-ing a field leaves every bit below the field's position unchanged: the word length does not disturb FEN, STP2, EPS, PEN or BRK |
| Uart.FieldOredIdempotent | UART/hal_uart.c:101-131 | repeating a word-length or stop-bit call changes nothing further |
| Uart.WordLengthStaysInField | UART/hal_uart.c:101-104 | a word length below 4 changes no LCRH bit outside WLEN (bits 5-6) |
| Uart.StopBitsStayInField | UART/hal_uart.c:129-131 | a stop-bit value below 2 changes no LCRH bit outside STP2 (bit 3) |
| Uart.StopBitsTwoEnablesFifo | UART/hal_uart.c:129-131 | the value is not masked: a stop-bit value of 2 sets the FIFO-enable bit and leaves STP2 as it was |
| Uart.WordLengthFourSetsStickParity | UART/hal_uart.c:101-104 | a word-length value of 4 sets the stick-parity bit |
| Uart.ClockSelection | UART/hal_uart.c:66-69 | the bits OR-ed into CC: the PIOSC value when the argument equals it, the system-clock value otherwise, reduced to 32 bits |
| Uart.ClockSourceOnlyAddsBits | UART/hal_uart.c:64-70 | CC never loses a bit, and it holds the selection just OR-ed in |
| Uart.PioscSelectionIsSticky | UART/hal_uart.c:64-70 | once PIOSC is selected, no later clock-source call removes its bits |
| Uart.SystemSelectionOfZeroChangesNothing | UART/hal_uart.c:69 | with a system-clock value of 0, asking for the system clock leaves CC as it was |
| Uart.Instance.EnableUartModule | UART/hal_uart.c:8-10 | only CTL changes: UARTEN (bit 0) is set |
| Uart.Instance.DisableUartModule | UART/hal_uart.c:17-19 | only CTL changes: UARTEN (bit 0) is cleared |
| Uart.Instance.EnableTx | UART/hal_uart.c:26-28 | only CTL changes: TXE (bit 8) is set |
| Uart.Instance.DisableTx | UART/hal_uart.c:35-37 | only CTL changes: TXE (bit 8) is cleared |
| Uart.Instance.EnableRx | UART/hal_uart.c:44-46 | only CTL changes: RXE (bit 9) is set |
| Uart.Instance.DisableRx | UART/hal_uart.c:54-56 | only CTL changes: RXE (bit 9) is cleared |
| Uart.Instance.ConfigureClockSource | UART/hal_uart.c:64-70 | only CC changes: the PIOSC value is OR-ed in when the argument equals it, the system-clock value otherwise |
| Uart.Instance.EnableFifo | UART/hal_uart.c:111-113 | only LCRH changes: FEN (bit 4) is set |
| Uart.Instance.DisableFifo | UART/hal_uart.c:120-122 | only LCRH changes: FEN (bit 4) is cleared |
| Uart.Instance.EnableParity | UART/hal_uart.c:138-140 | only LCRH changes: PEN (bit 1) is set |
| Uart.Instance.DisableParity | UART/hal_uart.c:147-149 | only LCRH changes: PEN (bit 1) is cleared |
| Uart.Instance.EnableEvenParity | UART/hal_uart.c:156-158 | only LCRH changes: EPS (bit 2) is set |
| Uart.Instance.EnableOddParity | UART/hal_uart.c:165-167 | only LCRH changes: EPS (bit 2) is cleared |
| Uart.Instance.EnableNineBitModeInterrupt | UART/hal_uart.c:175-177 | only IM changes: bit 12 is set |
| Uart.Instance.DisableNineBitModeInterrupt | UART/hal_uart.c:184-186 | only IM changes: bit 12 is cleared |
| Uart.Instance.EnableOverrunErrorInterrupt | UART/hal_uart.c:193-195 | only IM changes: bit 10 is set |
| Uart.Instance.DisableOverrunErrorInterrupt | UART/hal_uart.c:201-203 | only IM changes: bit 10 is cleared |
| Uart.Instance.EnableBreakErrorInterrupt | UART/hal_uart.c:209-211 | only IM changes: bit 9 is set |
| Uart.Instance.DisableBreakErrorInterrupt | UART/hal_uart.c:218-220 | only IM changes: bit 9 is cleared |
| Uart.Instance.EnableParityErrorInterrupt | UART/hal_uart.c:227-229 | only IM changes: bit 8 is set |
| Uart.Instance.DisableParityErrorInterrupt | UART/hal_uart.c:236-238 | only IM changes: bit 8 is cleared |
| Uart.Instance.EnableFramingErrorInterrupt | UART/hal_uart.c:244-246 | only IM changes: bit 7 is set |
| Uart.Instance.DisableFramingErrorInterrupt | UART/hal_uart.c:253-255 | only IM changes: bit 7 is cleared |
| Uart.Instance.EnableReceiveTimeoutInterrupt | UART/hal_uart.c:261-263 | only IM changes: bit 6 is set |
| Uart.Instance.DisableReceiveTimeoutInterrupt | UART/hal_uart.c:270-272 | only IM changes: bit 6 is cleared |
| Uart.Instance.EnableTxInterrupt | UART/hal_uart.c:278-280 | only IM changes: bit 5 is set |
| Uart.Instance.DisableTxInterrupt | UART/hal_uart.c:287-289 | only IM changes: bit 5 is cleared |
| Uart.Instance.EnableRxInterrupt | UART/hal_uart.c:296-298 | only IM changes: bit 4 is set |
| Uart.Instance.DisableRxInterrupt | UART/hal_uart.c:304-306 | only IM changes: bit 4 is cleared |
| Uart.Instance.EnableRxDma | UART/hal_uart.c:313-315 | only DMACTL changes: RXDMAE (bit 0) is set |
| Uart.Instance.DisableRxDma | UART/hal_uart.c:322-324 | only DMACTL changes: RXDMAE (bit 0) is cleared |
| Uart.Instance.EnableTxDma | UART/hal_uart.c:330-332 | only DMACTL changes: TXDMAE (bit 1) is set |
| Uart.Instance.DisableTxDma | UART/hal_uart.c:339-341 | only DMACTL changes: TXDMAE (bit 1) is cleared |
| Uart.Handle.constructor | UART/hal_uart.h:139-150 | a handle holds its register block and its `uart_init_t` parameters |
| Uart.Handle.ConfigureWorldLength | UART/hal_uart.c:101-104 | only the instance's LCRH changes: the word length shifted to bit 5 is OR-ed in |
| Uart.Handle.ConfigureStopbits | UART/hal_uart.c:129-131 | only the instance's LCRH changes: the stop-bit value shifted to bit 3 is OR-ed in |

## Left out

- `hal_uart_configure_baudrate` (`UART/hal_uart.c:79-94`) is not modelled. It computes with `double` and truncating casts. The macros `UART_SYS_CLOCK` and `UART_CLOCK_DIV` are not defined in the driver's files, so whether the division is integer or floating is unknown. IBRD and FBRD are fields of `Instance` that no method writes.
- The `NVIC_EnableIRQ` call of `hal_gpio_enable_interrupt` (`GPIO/hal_gpio.c:215`) goes into the interrupt controller, which is not part of this model. The `irq_no` argument is dropped together with it.
- `hal_uart_init`, `hal_uart_tx`, `hal_uart_rx` and `hal_uart_handle_interrupt` are declared in `UART/hal_uart.h:165-190` but have no body.
- The `uart_state_t` states (`UART/hal_uart.h:7-16`) are never changed by any implemented code. The transmit and receive buffers, their sizes and the two state fields of `uart_handle_t` are left out of `Handle` for the same reason.
- The demo program `UART/uart_application.c`, the LED demo `inc/led.c` and the clock-gating macros (`GPIO/hal_gpio.h:52-57`) are left out as application and startup code. The demo also calls two GPIO helpers, `hal_gpio_enable_changes_on_pin` and `hal_gpio_configure_mux_control`, that are neither declared nor defined.
- Hardware behaviour of the registers is left out. This covers write-1-to-clear ICR, address-masked DATA accesses, pin-driven input reads, and the lock and commit registers. Registers are plain storage: a read returns the last value written.
- The merge-conflict markers in `uart_init_t` (`UART/hal_uart.h:121-133`) enclose two identical field lists. `UartInit` models one copy.
- `PinConfig` keeps every field of `gpio_pin_config_t` except `irq_no`, but only `pin`, `mode` and `digital` are read by `hal_gpio_init`.
- Gpio.Port methods: `pin_no` is limited to 0..7 by the type `Pin`. The C code would shift a signed `1` by any `uint16_t`, which is undefined from 31 upward.
- Uart.Instance methods: the "other flags of the register are unchanged" part of each call is stated by the lemma `Uart.EnableLeavesOtherFlags` about `Set`/`Clear`, not repeated in each method's `ensures`.
