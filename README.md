# stm32-hal core: SysTick delays, DAC driver, interrupt-fed receive buffer

A Dafny model of three pieces of the `stm32-hal` peripheral layer for STM32 microcontrollers:

- **Delay engine** (`delay.dfy`, module `Delay`). `Delay` owns the Cortex-M SysTick timer. `delay_us(us)` turns a microsecond count into `us * (systick_speed / 1_000_000)` ticks. It spends those ticks as consecutive countdowns of at most `0x00FFFFFF` ticks, the most the 24-bit reload register holds. For each countdown it programs the reload value, clears the current value, starts the counter, waits for the wrap and stops the counter. The `SysTick` class holds the timer's registers, plus a ghost log of the countdowns that ran to their wrap. `Chunks(total)` is the sequence of reload values, and the lemmas about it give the range, sum, count and shape of the chunks.
- **DAC driver** (`dac.dfy`, module `Dac`). `DacRegs` is the register block: a control register with per-channel `en`, `ten`, `tsel`, `wave` and `mamp` fields, and six data-holding registers (8-bit right, 12-bit left and 12-bit right for each channel). `Dac` is the driver. Each method does a read-modify-write on one channel's control fields or on one data register. Its contract gives the new register state through a pure function (`WithEnable`, `WithTrigger`, `WithWave`, `DataRegister`) and says nothing else changes. The per-family `hal!` table is the function `Hal(Variant)`, one entry per macro invocation. `DataRegister` is the binding that this table induces.
- **Interrupt-shared receive buffer** (`serial_nonblocking.dfy`, module `SerialNonblocking`). The `UART`, `READ_BUF` and `READ_I` statics form the class `Shared`. The `USART1` handler is the method `Usart1`, one atomic step. `RxState`, `Receive` and `ReceiveAll` form the value-level specification that the handler is proved against.

`uint.dfy` (module `Uint`) defines the `u8`/`u16`/`u32` types. It also defines `WrappingMul`, which is Rust's `u32` multiplication with overflow checks off.

The model follows the code as written:
- `set_voltage` truncates with `as u32`.
- The handler's `i_val == BUF_SIZE` branch is an empty `todo`, and the following `buf[i_val]` index panics on a full buffer. The handler therefore requires `readI < BUF_SIZE`.
- On L5 and G4 both channels write channel 2's data registers; see `SharedRegistersOnL5AndG4`.

## Model

| member | source | states |
|---|---|---|
| `Uint.WrappingMul` | src/delay.rs:40 | The `u32` product. It is exact when the true product is below 2^32, and zero when either factor is zero. |
| `Delay.TotalTicks` | src/delay.rs:40 | The tick total is 0 when `us == 0` or the clock is below 1 MHz. It is exactly `us * (systick_speed / 1_000_000)` when that fits in `u32`. |
| `Delay.Chunk` | src/delay.rs:43-47 | One pass programs `min(remaining, 0x00FFFFFF)`: never more than what remains or than 0x00FFFFFF, non-zero while ticks remain, and all that remains when that is less than 0x00FFFFFF. |
| `Delay.Chunks` | src/delay.rs:42-54 | The loop's reload values in order. The sequence is empty exactly when the total is zero, so no countdown runs then. |
| `Delay.ChunksInRange` | src/delay.rs:37-47 | Every reload value the loop programs lies in 1..=0x00FFFFFF. |
| `Delay.ChunksSum` | src/delay.rs:40-54 | The programmed reload values sum exactly to the tick total. |
| `Delay.ChunksCount` | src/delay.rs:42-47 | The number of countdowns is ceil(total / 0x00FFFFFF). |
| `Delay.ChunksFullExceptLast` | src/delay.rs:43-47 | Every countdown except the last is exactly 0x00FFFFFF. |
| `Delay.SingleChunk` | src/delay.rs:42-47 | A total in 1..=0x00FFFFFF is done as exactly one countdown of that length. |
| `Delay.OneSecondAt48MHz` | src/delay.rs:38-54 | At 48 MHz, 1 000 000 µs is 48 000 000 ticks, done as countdowns 16 777 215, 16 777 215 and 14 445 570. |
| `Delay.DelayUsTicks` | src/delay.rs:40-54 | Without overflow, the countdowns of `delay_us` add up to `us * (systick_speed / 1_000_000)`. |
| `Delay.DelayMsTicks` | src/delay.rs:30-32 | Without overflow, the countdowns of `delay_ms` add up to `ms * 1000 * (systick_speed / 1_000_000)`. |
| `Delay.SysTick.SetClockSource` | src/delay.rs:21 | Only the clock source changes, to the one given. |
| `Delay.SysTick.SetReload` | src/delay.rs:49 | Only the reload register changes. It keeps the value's low 24 bits. |
| `Delay.SysTick.ClearCurrent` | src/delay.rs:50 | The current value and the wrap flag are cleared. Nothing else changes. |
| `Delay.SysTick.EnableCounter` | src/delay.rs:51 | Only the enable bit changes, to set. |
| `Delay.SysTick.AwaitWrap` | src/delay.rs:56 | The step needs a running, cleared counter with a non-zero reload. It logs one completed countdown of the reload value. The current value is left within the reload. |
| `Delay.SysTick.DisableCounter` | src/delay.rs:58 | Only the enable bit changes, to clear. |
| `Delay.Delay.constructor` | src/delay.rs:20-27 | Selects the core clock source and stores the timer handle and the SysTick frequency. Every other timer register is unchanged. |
| `Delay.Delay.DelayUs` | src/delay.rs:36-60 | The countdown log grows by exactly `Chunks(total)`. With a zero total, the counter registers are unchanged. Otherwise the counter is stopped with a clear flag, and the reload holds the last chunk. |
| `Delay.Delay.DelayMs` | src/delay.rs:30-32 | Has exactly the effect of `delay_us(ms * 1000)`, with `u32` multiplication. |
| `Delay.Delay.DelayMsU16` | src/delay.rs:75-79 | Widens the `u16` count unchanged. Same effect as `delay_ms` on that value. |
| `Delay.Delay.DelayMsU8` | src/delay.rs:81-85 | Widens the `u8` count unchanged. Same effect as `delay_ms` on that value. |
| `Delay.Delay.DelayUsU16` | src/delay.rs:93-97 | Widens the `u16` count unchanged. Same effect as `delay_us` on that value. |
| `Delay.Delay.DelayUsU8` | src/delay.rs:99-103 | Widens the `u8` count unchanged. Same effect as `delay_us` on that value. |
| `Delay.Delay.Free` | src/delay.rs:63-65 | Returns the same SysTick handle that the constructor took. |
| `Dac.TriggerBits` | src/dac.rs:64-77 | Every trigger code is below 8, so it fits the 3-bit `tsel` field. |
| `Dac.TriggerFromBits` | src/dac.rs:64-77 | Every 3-bit code is the code of some trigger, so the encoding is onto. |
| `Dac.TriggerRoundTrip` | src/dac.rs:64-77 | Decoding a trigger's code gives that trigger back. |
| `Dac.TriggerBitsInjective` | src/dac.rs:64-77 | Two triggers have the same code if and only if they are the same trigger. |
| `Dac.MaxCode` | src/dac.rs:163-167 | The conversion scale is 2^width − 1 for the precision's field width. It is 255 exactly for `EightR`, and 4095 for both 12-bit modes. |
| `Dac.ControlReg.Put` | src/dac.rs:129-142 | A read-modify-write of one channel's control fields leaves the other channel's fields unchanged. |
| `Dac.WithEnable` | src/dac.rs:129-142 | `enable`/`disable` set or clear the channel's `en` bit. They change no other field of that channel, and nothing of the other channel. |
| `Dac.EnableIdempotent` | src/dac.rs:129-142 | Enabling or disabling twice has the same effect as doing it once. |
| `Dac.EnableDisableInverse` | src/dac.rs:129-142 | Disabling after enabling restores a channel that started disabled, and the reverse. |
| `Dac.EnableChannelsCommute` | src/dac.rs:129-142 | Enable changes on the two channels commute. |
| `Dac.WithTrigger` | src/dac.rs:176-193 | `set_trigger(t)` leaves `ten` set and `tsel == t.bits()` on the driver's channel. Every other field is unchanged. |
| `Dac.WithWave` | src/dac.rs:200-209 | Sets the channel's `wave` and `mamp` fields. The channel's other fields and the other channel are unchanged. |
| `Dac.WaveTriggerFields` | src/dac.rs:198-231 | After the wave write and then `set_trigger`, the channel holds the enable bit it had, `ten` set, the trigger's code, and the given wave and mask. The other channel is unchanged. |
| `Dac.DataRegDetermined` | src/dac.rs:145-158 | A data register is identified by its channel and its precision. |
| `Dac.Hal` | src/dac.rs:236-273 | The seven `hal!` invocations. Each slot's register has the slot's precision and every `*2` slot a channel-2 register. The `*1` slots hold channel-2 registers on L5 and G4 and channel-1 registers on the other families. |
| `Dac.DataRegister` | src/dac.rs:236-273 | The bound register always has the driver's precision. Its channel is channel 2 on L5 and G4, and the driver's own channel on L4, L4x6, F3, F302 and H7. |
| `Dac.SharedRegistersOnL5AndG4` | src/dac.rs:236-270 | On L5 and G4, channel-1 and channel-2 drivers of the same precision write the same register. |
| `Dac.SeparateRegistersElsewhere` | src/dac.rs:248-273 | On the other families, a channel-1 driver and a channel-2 driver never share a data register. |
| `Dac.DacRegs.WriteData` | src/dac.rs:148-155 | Writing a data register stores the value in that register. The other data registers and the control register are unchanged. |
| `Dac.DacRegs.ModifyControl` | src/dac.rs:131-140 | The control register becomes the old one with one channel's fields replaced. |
| `Dac.Dac.constructor` | src/dac.rs:102-126 | Stores the family, the register block, the channel, the precision and the reference voltage exactly as given. |
| `Dac.Dac.Enable` | src/dac.rs:128-135 | Sets only the driver channel's enable bit. The data registers are unchanged. |
| `Dac.Dac.Disable` | src/dac.rs:136-142 | Clears only the driver channel's enable bit. The data registers are unchanged. |
| `Dac.Dac.SetValue` | src/dac.rs:145-158 | Writes `val` unmodified, with no range check, into the register bound to (family, channel, precision). All other registers are unchanged. |
| `Dac.Dac.SetTrigger` | src/dac.rs:174-193 | Control register becomes `WithTrigger(old, channel, t)`. The data registers are unchanged. Absent on the L5 build. |
| `Dac.Dac.TriggerLfsr` | src/dac.rs:195-212 | Leaves wave 0b01 and mask 0b01, then applies `set_trigger`, then writes `data` to the bound register. No other data register changes. Absent on L5. |
| `Dac.Dac.TriggerTriangle` | src/dac.rs:214-231 | Leaves wave 0b10 and amplitude 0b10, then applies `set_trigger`, then writes `data` to the bound register. No other data register changes. Absent on L5. |
| `SerialNonblocking.Usart.ClearReadNotEmpty` | examples/serial_nonblocking.rs:83 | Clears the read-not-empty flag and records that it was cleared. |
| `SerialNonblocking.Usart.ReadOne` | examples/serial_nonblocking.rs:93 | Returns the received byte and records the read. |
| `SerialNonblocking.Receive` | examples/serial_nonblocking.rs:87-94 | One firing stores the byte at `buf[idx]` and sets `idx` to `idx + 1`. Every other buffer entry is unchanged. |
| `SerialNonblocking.ReceiveAllStores` | examples/serial_nonblocking.rs:88-94 | k firings advance the index by k and place the k bytes after the old index, in arrival order. The rest of the buffer is unchanged. |
| `SerialNonblocking.FiringsFromStart` | examples/serial_nonblocking.rs:88-94 | From the initial state, k ≤ 10 firings give `idx == k`, the received bytes in `buf[0..k]` in arrival order, and zeros after them. |
| `SerialNonblocking.TenFiringsFill` | examples/serial_nonblocking.rs:89-93 | Ten firings fill the buffer and leave the index at 10, so an eleventh would index past the end. |
| `SerialNonblocking.Shared.constructor` | examples/serial_nonblocking.rs:28-30 | Initial state: the handle cell is empty, the buffer is ten zero bytes, and the index is 0. |
| `SerialNonblocking.Shared.InstallUart` | examples/serial_nonblocking.rs:64-67 | The handle cell holds the configured UART afterwards. |
| `SerialNonblocking.Shared.Usart1` | examples/serial_nonblocking.rs:77-96 | Needs an installed handle and `idx < 10`, because of `unwrap` and the bounds-checked index. The new buffer state is `Receive(old state, received byte)`. The flag is cleared before the byte is read. |

## Left out

- `Uint.WrappingMul`: follows Rust's release profile, where `u32` multiplication wraps. With overflow checks on (debug builds), the overflowing products in `delay_us` and `delay_ms` panic instead.
- `Delay.SysTick.AwaitWrap`: the spin on `has_wrapped()` is one abstract step. The real tick-by-tick countdown and the time it takes are not modelled. Only the fact that a countdown of the programmed reload value completed is recorded.
- `SysTick` hand-over: taking the core peripherals is not part of this model. The `SysTick` constructor accepts any clock source, enable bit and COUNTFLAG, and any 24-bit reload and current value.
- The clock configuration (`ClockCfg` in src/traits.rs) enters only as the `u32` SysTick frequency given to the `Delay` constructor.
- `set_voltage` float conversion (src/dac.rs:164-166): f32 arithmetic is not modelled. Only the choice of scale is, as `MaxCode`. The code truncates with `as u32`, so no rounding property is claimed.
- `Dac.Dac.constructor`: the clock enable and peripheral reset through `rcc_en_reset!` and the RCC handle are foreign register macros. The constructor does not model their effect on the registers.
- `Dac.Dac.SetTrigger`, `Dac.Dac.TriggerLfsr`, `Dac.Dac.TriggerTriangle`: each two-write sequence is one method. A higher-priority interrupt that sees the intermediate control-register state is not modelled.
- The `#[cfg]`/`cfg_if` build-time selection is a `Variant` value fixed at construction. Families with no `hal!` invocation, such as H7B3, have no driver and do not appear in `Variant`.
- Register naming is not modelled: the block name (`DAC` or `DAC1`), the control register name (`cr` or `dac_cr`) and L5/G4's `dac_` prefixes. The model uses the registers' logical names.
- Control-register fields that the driver never writes (DMA enable, output buffer and the like) are not modelled.
- Data registers store the full `u32` the driver writes. The hardware's truncation to the field width is not modelled.
- Critical sections, `Mutex`/`RefCell`, NVIC unmasking and interrupt priorities are concurrency machinery. Each handler run and each main-context access is one atomic method call.
- The rest of `main` is not modelled: clock setup, GPIO pin modes, USART construction, and the `low_power::sleep_now` loop. The USART driver is not part of this model; `Usart` keeps only its receive data register and read-not-empty flag. `Usart.Arrive` stands for a byte arriving on the line.
- `SerialNonblocking.Shared.InstallUart`: `replace` accepts a cell in either state, so the method has no precondition. That the cell goes from empty to populated once, at startup, comes from `main` calling it once.
