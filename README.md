# theCore drivers in Dafny

This project models five pieces of theCore, an embedded C++ framework, and
proves properties of each:

- **The TM4C UART bus driver** (`ecl::uart<ch>`, `uart.dfy`). One object per
  channel holds the driver context `ctx`. The API methods (`init`,
  `set_rx`, both `set_tx`, `set_handler`, `reset_handler`, `reset_buffers`,
  `do_xfer`, `cancel_xfer`) and one invocation of the interrupt handler
  `irq_bus_handler` are methods of the class `Uart`. Each is one atomic step.
  - The scalar part of the context is the datatype `Ctx`. `Step` and `Start`
    say what an interrupt and `do_xfer` do to it.
  - Ghost logs record what leaves the driver: the bytes pushed to the
    transmit data register and the handler invocations.
  - The central result is `TransferCompletes`. A transfer started by
    `do_xfer` ends after exactly `Remaining` interrupts. By then it has
    written exactly its bytes and fired exactly its events:
    `(tx, tc, tx_sz)` if TX is configured, then `(rx, tc, rx_sz)` if RX is
    configured, then always `(meta, tc, 0)`. `IrqStep` records each received
    byte and keeps the received bytes, in order, in the RX buffer.
  - The driver holds pointers to the caller's buffers. The TX buffer is an
    array read when each byte is pushed, so a buffer refilled between two
    transfers sends its new contents.
- **The blocking console pipe** (`ecl::console_pipe<GBus>`,
  `console_pipe.dfy`). `write` and `read` run over a generic bus, and `read`
  echoes what it received. The bus is a stand-in class that answers with any
  status and any count, and records every call.
- **FAT path joining** (`fat::allocate_path`, `fat::path_erased`,
  `fat_path.dfy`). The model covers the buffer the path is built in and the
  size recorded for its deallocation.
  - A buffer cell is an `Option<char>`, so a cell the code never writes stays
    visible as `None`.
  - The model has the function as written and a corrected version; see
    Findings.
- **The STM32F4 DMA stream** (`DMA_dev<stream, channel>`, `dma_device.dfy`).
  It covers the endpoint setters, the direction and size decision of
  `submit`, `get_status`, `complete`, and the flag translation of
  `enable_IRQ` and `complete_IRQ`.
  - Vendor masks are abstract and modelled as the set of their bit positions.
    Masks may share bits; the model assumes only that none of a group lies
    within the others of its group together (`VendorWf`).
  - Vendor calls go to a ghost log.
- **TM4C pin helpers** (`pin_bin`, `get_pin_intflag`, `pin_cfg.dfy`).

`ecl.dfy` holds what the modules share: bytes, `Option` and the library's
`err` codes.

## Model

| member | source | states |
|---|---|---|
| TivaUart.Step | platform/tm4c/export/aux/uart.hpp:244-286 | An interrupt step on a well-formed, initialised context yields a well-formed, initialised context: fill mode agrees with the TX source, the indices stay within their sizes, and a phase in flight has its buffer. |
| TivaUart.StepCounts | platform/tm4c/export/aux/uart.hpp:244-286 | A step never changes the buffers or sizes. With a transfer in flight, it takes exactly one step off `Remaining`. With none in flight, it changes nothing. While TX runs, RX's index and done bit are untouched; once TX is over, TX's are. |
| TivaUart.Run | platform/tm4c/export/aux/uart.hpp:238-305 | `n` steps keep the context well formed and its configuration unchanged, and take `n` off what remains of the transfer. |
| TivaUart.StepSent | platform/tm4c/export/aux/uart.hpp:244-272 | While TX runs, the bytes on the line are the first `tx_idx` bytes of the transfer. The step that ends TX has put all of them out. |
| TivaUart.StepFired | platform/tm4c/export/aux/uart.hpp:244-302 | No event fires while TX runs. The TX event has fired once only RX runs. The step that ends the transfer has fired exactly the expected sequence, and leaves the channel idle. |
| TivaUart.StepKeepsTransfer | platform/tm4c/export/aux/uart.hpp:238-305 | A step keeps the transfer's part of both logs on track. |
| TivaUart.MetaEndsTransfer | platform/tm4c/export/aux/uart.hpp:288-296 | The `(meta, tc, 0)` event fires in a step of a transfer exactly when that step ends the transfer. |
| TivaUart.RunWrites | platform/tm4c/export/aux/uart.hpp:256-264 | The remaining steps of a transfer write exactly the bytes still missing from it, by induction on `Remaining`. |
| TivaUart.RunNotifies | platform/tm4c/export/aux/uart.hpp:244-296 | The remaining steps of a transfer fire exactly the events still missing from it, by induction on `Remaining`. |
| TivaUart.TransferCompletes | platform/tm4c/export/aux/uart.hpp:238-305 | A transfer in flight is in flight after each of the first `Remaining` steps and idle after all of them. Its log parts are then its bytes and its expected events. |
| TivaUart.ReadyIdle | platform/tm4c/export/aux/uart.hpp:316-331 | The context `init` leaves is well formed and idle, and its status byte is `0x0D`. |
| TivaUart.Start | platform/tm4c/export/aux/uart.hpp:416-448 | `do_xfer` on a context that may start yields a well-formed context. |
| TivaUart.StartInFlight | platform/tm4c/export/aux/uart.hpp:431-448 | After `do_xfer`, TX is in flight iff a TX source is set and RX iff an RX buffer is set. What remains is the TX size plus the RX bytes still to come. |
| TivaUart.StartKeepsTransfer | platform/tm4c/export/aux/uart.hpp:431-442 | The started transfer is on track: its first byte is on the line and no event has fired. |
| TivaUart.TxDoneKeepsTransfer | platform/tm4c/export/aux/uart.hpp:274-286 | Once TX is over, rewriting the TX buffer, even by RX into the same memory, keeps the transfer on track. |
| TivaUart.RxIndexSpent | platform/tm4c/export/aux/uart.hpp:274-286 | As written, a transfer with RX ends idle with `rx_idx == rx_sz`, so without a `set_rx` the next transfer cannot run safely. |
| TivaUart.RestartAfterTransfer | platform/tm4c/export/aux/uart.hpp:445-448 | Once `rx_idx` is reset, the context a transfer ends in may start another transfer. |
| TivaUart.StartKeepsInv | platform/tm4c/export/aux/uart.hpp:416-448 | `do_xfer` re-establishes the driver invariant with nothing yet received. |
| TivaUart.StepKeepsRx | platform/tm4c/export/aux/uart.hpp:274-286 | An RX step stores the incoming byte at `rx_idx` and keeps the received bytes in the buffer. Once RX ends, the buffer from the start index to `rx_sz` holds them. |
| TivaUart.Uart.constructor | platform/tm4c/export/aux/uart.hpp:132-141 | The zero-initialised context: stub handler, null buffers, sizes and indices 0, status 0. |
| TivaUart.Uart.ConstructCtx | platform/tm4c/export/aux/uart.hpp:321-321 | Constructing the context in place yields the default context (stub handler, null buffers, sizes and indices 0, status 0); the logs are untouched. |
| TivaUart.Uart.Init | platform/tm4c/export/aux/uart.hpp:310-333 | Needs status 0. Rebuilds the default context and sets the inited, TX-done and RX-done bits, so the result is the idle `Ready` context and the driver invariant holds. The record of received bytes is empty. |
| TivaUart.Uart.SetRx | platform/tm4c/export/aux/uart.hpp:336-346 | Needs inited and RX done. Sets the RX buffer and size and resets the RX index; nothing else changes, the record of received bytes included. |
| TivaUart.Uart.SetTx | platform/tm4c/export/aux/uart.hpp:349-361 | Needs inited and TX done. Keeps the TX buffer's pointer, not its contents. Sets the size, resets the TX index and clears fill mode. |
| TivaUart.Uart.SetTxFill | platform/tm4c/export/aux/uart.hpp:364-376 | Needs inited and TX done. Sets the fill byte and size and sets fill mode. The TX index is left as it was. |
| TivaUart.Uart.SetHandler | platform/tm4c/export/aux/uart.hpp:379-387 | Only while idle. Replaces the handler and changes nothing else. |
| TivaUart.Uart.ResetHandler | platform/tm4c/export/aux/uart.hpp:405-413 | Only while idle. Restores the stub handler. |
| TivaUart.Uart.ResetBuffers | platform/tm4c/export/aux/uart.hpp:390-402 | Only while idle. Nulls both buffers and clears fill mode. Sizes and indices stay. |
| TivaUart.Uart.PushFirst | platform/tm4c/export/aux/uart.hpp:431-442 | Pushes the fill byte or `buf[0]`, sets `tx_idx` to 1 and clears TX done. |
| TivaUart.Uart.DoXfer | platform/tm4c/export/aux/uart.hpp:416-456 | Only while idle with something configured. The new context is `Start` of the old one, and the first TX byte, as the buffer holds it now, is logged. The transfer's bytes and expected events are recorded, and the record of received bytes restarts empty at the current `rx_idx`. |
| TivaUart.Uart.DoXferCorrected | platform/tm4c/export/aux/uart.hpp:445-448 | Corrected: with `rx_idx` reset to 0 when RX is configured, any idle channel with non-empty buffers may start, and the transfer is `Start` of the reset context; its received bytes will be recorded from index 0. |
| TivaUart.Uart.CancelXfer | platform/tm4c/export/aux/uart.hpp:459-474 | As written: the status does not change, so a transfer in flight stays in flight. |
| TivaUart.Uart.CancelXferCorrected | platform/tm4c/export/aux/uart.hpp:472 | With `tx_done \| rx_done` the channel is idle afterwards, whatever it was doing. |
| TivaUart.Uart.TxIrq | platform/tm4c/export/aux/uart.hpp:244-272 | The TX branch matches `Step`: it pushes the next byte, or fires `(tx, tc, tx_sz)` and sets TX done. |
| TivaUart.Uart.RxIrq | platform/tm4c/export/aux/uart.hpp:274-286 | The RX branch matches `Step`: it stores the byte at `rx_idx`, and fires `(rx, tc, rx_sz)` and sets RX done at the end. |
| TivaUart.Uart.IrqStep | platform/tm4c/export/aux/uart.hpp:238-305 | One handler invocation. The context becomes `Step` of the old one and the logs grow by that step's byte and events. The RX buffer changes only at `rx_idx`, only on an RX step. Each RX step appends the byte it stores to the record of received bytes, and no other step changes that record or where it starts. When RX ends, the buffer from that start to `rx_sz` holds exactly the recorded bytes, in order. No event may reach the stub handler. |
| ConsolePipe.Pipe.constructor | dev/bus/export/dev/console_pipe.hpp:105-110 | The last error starts as `ok`, which is not an error at start. |
| ConsolePipe.Pipe.Init | dev/bus/export/dev/console_pipe.hpp:118-122 | Initialises the bus, and stores and returns its status. |
| ConsolePipe.Pipe.BusTransfer | dev/bus/export/dev/console_pipe.hpp:135-140 | Lock, set buffers, transfer, store the status, unlock, in that order. At most the requested count moves. |
| ConsolePipe.Pipe.Write | dev/bus/export/dev/console_pipe.hpp:124-150 | A zero count returns 0 and makes no bus call. Otherwise one transfer of the data sends a prefix of it. The result is -1 exactly when the status is an error other than an I/O error (`err_on_start`), and otherwise the count sent. |
| ConsolePipe.Pipe.Read | dev/bus/export/dev/console_pipe.hpp:152-181 | A zero size returns 0 and makes no bus call. Otherwise the buffer receives a prefix of the incoming bytes. The result is -1 exactly on an error at start, and otherwise the count received. Any bytes received are then echoed by a write, whose status becomes the last error. |
| FatPath.JoinedParts | lib/fs/fat/export/fat/path.hpp:69-81 | The joined path starts with the path and ends with the tail. It has exactly one `/` between them and contains no NUL. |
| FatPath.AllocationFits | lib/fs/fat/export/fat/path.hpp:79-82 | The allocation is the joined length plus 2. |
| FatPath.UnterminatedHoldsNothing | lib/fs/fat/export/fat/path.hpp:88-102 | If the cell after `path ++ "/"` was never written, the buffer holds no C string at all. |
| FatPath.PathErased.constructor | lib/fs/fat/export/fat/path.hpp:46-52 | Stores the path buffer and its allocation size. |
| FatPath.PathErased.Release | lib/fs/fat/export/fat/path.hpp:54-58 | The destructor hands the buffer back with the size recorded at construction. |
| FatPath.PutPath | lib/fs/fat/export/fat/path.hpp:86-93 | After copying the path, its terminator is overwritten with `/` unless the path already ends in one. In that case the next cell stays unwritten. |
| FatPath.PutPathCorrected | lib/fs/fat/export/fat/path.hpp:86-93 | Corrected: a terminator follows the `/`. |
| FatPath.PutTail | lib/fs/fat/export/fat/path.hpp:95-100 | The tail and its terminator overwrite the cell of the previous terminator; nothing before it changes. |
| FatPath.AsWrittenLayout | lib/fs/fat/export/fat/path.hpp:79-102 | The buffer the steps as written produce, case by case. |
| FatPath.CorrectedLayout | lib/fs/fat/export/fat/path.hpp:79-102 | In every case the corrected steps produce the joined path and two terminators. |
| FatPath.AllocatePath | lib/fs/fat/export/fat/path.hpp:72-110 | As written, the allocation has the documented size. With a tail or a trailing `/`, the buffer holds the joined path, terminated. Without both, cell `L+1` is never written. The handle's `get_path` gives the buffer itself, and the handle records one cell less than allocated. |
| FatPath.AllocatePathCorrected | lib/fs/fat/export/fat/path.hpp:72-110 | Corrected: the buffer always holds the joined path as a C string, every cell is written, and the handle records the allocated size. |
| DmaDevice.PlanRefuses | platform/stm32f4xx/export/platform/dma_device.hpp:130-166 | `submit` refuses exactly when the destination is memory and smaller than the origin, or is a periphery and larger. |
| DmaDevice.PlanDirection | platform/stm32f4xx/export/platform/dma_device.hpp:138-171 | The direction table: memory→memory, periphery→memory, anything→periphery. Only memory→memory steps the peripheral address. The memory address always steps, and the channel is the stream's. |
| DmaDevice.PlanBounds | platform/stm32f4xx/export/platform/dma_device.hpp:148-169 | The transfer length is the destination size for a memory destination and the origin size otherwise. That is the larger of the two. The base addresses swap accordingly. |
| DmaDevice.EnableBits | platform/stm32f4xx/export/platform/dma_device.hpp:210-222 | HT enables the half-transfer interrupt and TC the complete one. ERR enables both the transfer-error and the FIFO-error one. Nothing else is enabled. |
| DmaDevice.PendingBits | platform/stm32f4xx/export/platform/dma_device.hpp:243-255 | HT, TC and ERR each map to the stream's own pending bit, and nothing else. |
| DmaDevice.EnableNothing | platform/stm32f4xx/export/platform/dma_device.hpp:204-222 | A non-empty flag set with none of HT, TC, ERR passes the check and enables nothing. |
| DmaDevice.AllFlagsSelectAll | platform/stm32f4xx/export/platform/dma_device.hpp:44-45 | The default `flags` of -1 enables all four interrupt sources and clears all three pending bits. |
| DmaDevice.DmaDev.constructor | platform/stm32f4xx/export/platform/dma_device.hpp:70-78 | Both endpoints are null memory with size 0, and the controller clock is on. |
| DmaDevice.DmaDev.SetOrigin | platform/stm32f4xx/export/platform/dma_device.hpp:86-95 | Returns -1 and changes nothing iff the address is null or the size is 0. Otherwise stores role, address and size and returns 0. |
| DmaDevice.DmaDev.SetDestination | platform/stm32f4xx/export/platform/dma_device.hpp:97-106 | The same for the destination. |
| DmaDevice.DmaDev.GetStatus | platform/stm32f4xx/export/platform/dma_device.hpp:108-127 | The result has each of HT, TC and ERR exactly when its hardware flag is set, and no other bit. |
| DmaDevice.DmaDev.Submit | platform/stm32f4xx/export/platform/dma_device.hpp:129-184 | The stream is disabled first, even when `submit` then refuses. On success it clears flags and pending bits, then configures and enables the stream with `Plan`'s configuration. |
| DmaDevice.DmaDev.Complete | platform/stm32f4xx/export/platform/dma_device.hpp:186-197 | Disables the stream, masks its interrupt and unsubscribes it. |
| DmaDevice.DmaDev.EnableIrq | platform/stm32f4xx/export/platform/dma_device.hpp:200-236 | Empty flags: -1 and no call. Otherwise all sources are disabled, exactly `EnableBits` are enabled, and the handler is subscribed. |
| DmaDevice.DmaDev.CompleteIrq | platform/stm32f4xx/export/platform/dma_device.hpp:238-269 | Clears the given flags and their pending bits, skipping a call whose mask is empty, between a mask and an unmask. |
| PinCfg.PinBinCoversPins | platform/tm4c/export/aux/pin_cfg.hpp:103-115 | The bin has every bit of every pin it gathers. |
| PinCfg.PinBinLeast | platform/tm4c/export/aux/pin_cfg.hpp:103-115 | The bin has no other bit: any byte with all the pins' bits has all of the bin's. |
| PinCfg.PinBinOfSet | platform/tm4c/export/aux/pin_cfg.hpp:104-109 | Reordering or repeating pins does not change the bin. |
| PinCfg.PinBinNamedPins | platform/tm4c/export/aux/pin_cfg.hpp:103-115 | A bin of named pins `GPIO_PIN_k` has pin `k`'s bit iff `k` is listed. |
| PinCfg.GetPinIntFlag | platform/tm4c/export/aux/pin_cfg.hpp:195-219 | Pin `k` maps to `GPIO_INT_PIN_k`, each flag only from its own pin. Any other value maps to `0xff`. |

## Left out

- Vendor register and interrupt-controller calls are left out: `UARTCharPut*`, `UARTInt*`, `irq::*`, `SysCtl*`, the baud and FIFO setup, and `RCC_*`. The UART keeps only what reaches the outside world, in its logs. The DMA stream records its calls, with their masks, in a ghost log.
- The hardware assertion on `UARTIntStatus` at the start of the TX branch is not modelled. It is a statement about the device, not the driver.
- Interrupts racing API calls, such as `cancel_xfer` against a running handler, are not modelled; every call is one atomic step.
- The `pick_*` lookup tables over vendor enumerations are not modelled; the DMA masks and the stream's interrupt are abstract. Also left out: `get_periph`, `get_irqn`, `apply_cfg` and `enable_periph`, and the interrupt line of the UART.
- `allocate_shared`, allocator `rebind` and shared-pointer ownership in `path.hpp` are not modelled; `allocate_path` returns the buffer and the handle directly.
- TivaUart.Uart.IrqStep: the byte from the receive data register is a parameter, since the hardware is not modelled.
- TivaUart.Uart.IrqStep: the stub handler's assertion becomes a precondition: no event may reach it.
- TivaUart.Uart.DoXfer: requires `tx_sz ≥ 1` when TX is configured. The code pushes `buf[0]` unconditionally, and with `tx_sz == 0` the TX phase never ends.
- TivaUart.Uart.DoXfer: requires `rx_idx < rx_sz` when RX is configured, since the code does not reset `rx_idx`; see Findings.
- TivaUart.Uart.IrqStep: while TX is in flight, the driver invariant ties the first `tx_sz` bytes of the TX buffer to the bytes `do_xfer` recorded. A caller rewriting them mid-transfer is outside the model; the code would send whatever the buffer then holds.
- FatPath.AllocatePath: requires a non-empty path. With an empty one the code reads `path[-1]` to decide `trailed`.
- TivaUart.Uart.SetTxFill: the `tx` union is a tagged variant, so reading the buffer pointer in fill mode (the `tx.buf || rx` check of `do_xfer`) sees "configured". The aliasing of the fill byte with the pointer bits is not modelled.
- `ecl_assert`s on the callers' side, such as the status checks of the UART API, the non-null `data` of `write` and `read`, and the non-null `path` of `allocate_path`, are preconditions, not error paths.
- `is_error` is a parameter of the console pipe. The model only assumes that `ok` is not an error.
- The console pipe's bus is a stand-in (`GenericBus`). The bus driver it is instantiated with is not part of this model.
- `ssize_t` results, `size_t` sizes and the 16-bit DMA buffer-size register are unbounded integers here. Overflow of the counts is not modelled.
- DmaDevice: `DMA_StructInit` defaults and the init fields `submit` does not set are not modelled; `Config` holds only the fields `submit` sets.

## Findings

| source | as written | input that shows it | evidently intended | confidence | as-written member | corrected member |
|---|---|---|---|---|---|---|
| platform/tm4c/export/aux/uart.hpp:472 | `status \|= (tx_done & rx_done)` ORs 0, so `cancel_xfer` changes no status bit | `do_xfer` with TX configured, then `cancel_xfer`: TX is still in flight | `tx_done \| rx_done`, forcing the channel idle | high, not executed | TivaUart.Uart.CancelXfer | TivaUart.Uart.CancelXferCorrected |
| platform/tm4c/export/aux/uart.hpp:445-448 | `do_xfer` never resets `rx_idx`, and a transfer with RX leaves it at `rx_sz` | `set_rx(buf, 1)`, `do_xfer`, one RX interrupt, `do_xfer` again: the next interrupt writes `rx[1]` and `rx_idx` becomes 2, never again equal to `rx_sz` | `rx_idx = 0` when RX is configured | high, not executed | TivaUart.RxIndexSpent | TivaUart.Uart.DoXferCorrected |
| lib/fs/fat/export/fat/path.hpp:88-102 | the `/` overwrites the path's terminator, and the final NUL lands one cell further | path `"a"`, no tail: cells are `'a' '/' ? NUL`, so reading the path meets an unwritten byte | a terminator right after the `/` | high, not executed | FatPath.AllocatePath | FatPath.AllocatePathCorrected |
| lib/fs/fat/export/fat/path.hpp:82-107 | the size given to `path_erased`, and so to `deallocate`, is the final `buf_sz`, one less than allocated | path `"a"`, tail `"b"`: 5 cells allocated, 4 recorded | the allocated size | high, not executed | FatPath.AllocatePath | FatPath.AllocatePathCorrected |

The intent of the cancellation finding is the declaration's own comment,
that no transfer occurs after `cancel_xfer` (uart.hpp:98-100).

In `read`, the echo is a call to `write`, which stores its bus status in
`m_last` (console_pipe.hpp:138, 178). After a `read` that received bytes,
`last_error` therefore gives the echo's status, as `ConsolePipe.Pipe.Read`
states.
