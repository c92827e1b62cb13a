# USB pendrive disk adapter, UART driver, byte-order helpers and keyboard demo for the LPC17xx board package

This Dafny project models the parts of the NXP LPC17xx board-support package
that hold decisions rather than register writes:

- **The FatFs drive adapter for a USB pendrive** (`usbdisk.c`). It keeps a
  status that stays `STA_NOINIT` until one initialisation succeeds. Reads,
  writes and control requests are refused with "not ready" until then. The
  model is the class `UsbDisk.UsbDisk`, with its `status` and its `hDisk`
  handle as fields.
- **The glue to the USB mass-storage class driver** (`USBMassStorageHost.c`).
  It covers the attach wait, the test-unit-ready retry loop, the cached disk
  capacity, sector reads and writes, and the eight-step "enumeration
  complete" chain, which stops at the first failing step. The model is the
  class `MassStorageHost.MassStorageHost`. The class driver and the USB host
  stack are outside the model. Each of their answers is an argument of the
  method that asks for it, and every request the glue issues directly is
  appended to the field `trace`. The contracts state that request sequence
  exactly. A call into the host task is one `UsbTask` entry, whatever the
  stack does inside it.
- **The ATA drive stub** (`atadrive.c`): every operation reports that there
  is no disk.
- **The UART driver** (`uart.c`).
  - The 64-byte receive ring buffer, as the class `Uart.UartFifo`. Its array
    is updated in place, and its contents are abstracted as a sequence.
  - The port dispatch of `UARTGetChar`.
  - The peripheral-clock and baud-divisor arithmetic of `UARTInit` and
    `UARTBaudrate`.
  - The carriage return `UARTSendStr` sends before each line feed.
- **The byte-order helpers** (`Endianness.h`).
  - The 16- and 32-bit swap macros, and the run-time swaps built on a union.
  - The in-place n-byte reversal, as a method on an array.
  - The mapping of `le*_to_cpu`, `be*_to_cpu`, `cpu_to_le*` and `cpu_to_be*`
    onto those swaps, for little- and big-endian builds alike.
- **The USB keyboard demo** (`USBKeyboardHost.c`).
  - The scancode-to-character mapping, with usage IDs from section 10
    (Keyboard/Keypad page 0x07) of the USB HID Usage Tables 1.12.
  - The task that prints one character per report.
  - The keyboard's four-step enumeration chain.

Files: `integers.dfy` (the C fixed-width types as bounded integers),
`diskio.dfy` (FatFs status bits, result codes and ioctl commands),
`usb_host.dfy` (the requests and the shared shape of an enumeration chain),
`mass_storage_host.dfy`, `usbdisk.dfy`, `atadrive.dfy`, `uart.dfy`,
`endianness.dfy` and `keyboard_host.dfy`.

FatFs's `diskio.h` and the class driver's headers are not part of this
model. The model takes the FatFs constants from FatFs's published values:
`STA_NOINIT` = 0x01, `STA_NODISK` = 0x02, `CTRL_SYNC` = 0, `GET_SECTOR_COUNT` = 1,
`GET_SECTOR_SIZE` = 2 and `GET_BLOCK_SIZE` = 3. It takes
`MS_ERROR_LOGICAL_CMD_FAILED` = 0x80 as the mass-storage class driver defines it.
The fixed 4096-byte erase block is `FSUSB_DiskGetBlockSz` in
`cortex_m3_nxp/lpcusblib/user_config/host/USBMassStorageHost.h:102`. The 64-byte
FIFO size is `UART_BUFSIZE` in `cortex_m3_nxp/inc/uart.h:53`.

## Model

| member | source | states |
|---|---|---|
| `UsbDisk.UsbDisk.constructor` | cortex_m3_nxp/fatfs/user_config/usbdisk.c:40-41 | The adapter starts with status `STA_NOINIT` and no handle. |
| `UsbDisk.UsbDisk.DiskStatus` | cortex_m3_nxp/fatfs/user_config/usbdisk.c:95-98 | Returns the current status, which is always `STA_NOINIT` or 0. The device is not asked anything. |
| `UsbDisk.UsbDisk.DiskInitialize` | cortex_m3_nxp/fatfs/user_config/usbdisk.c:101-129 | An already-initialised drive returns its status, and nothing changes. Otherwise the handle becomes the one interface and the attach wait runs, then the acquire. The request trace is the poll rounds followed by the acquire's requests. The status becomes 0 exactly when the acquire succeeds, and stays `STA_NOINIT` otherwise. |
| `UsbDisk.UsbDisk.DiskRead` | cortex_m3_nxp/fatfs/user_config/usbdisk.c:133-146 | With `STA_NOINIT` set: "not ready", and no request. Otherwise one block read of LUN 0 with the cached block size: OK when the driver answers 0, an error otherwise, and a deconfiguration after a failure. |
| `UsbDisk.UsbDisk.DiskWrite` | cortex_m3_nxp/fatfs/user_config/usbdisk.c:149-161 | With `STA_NOINIT` set: "not ready", and no request. Otherwise one block write of LUN 0: OK exactly when the driver answers 0. A failed write does not deconfigure, and the status is unchanged. |
| `UsbDisk.UsbDisk.DiskIoctl` | cortex_m3_nxp/fatfs/user_config/usbdisk.c:54-91 | With `STA_NOINIT` set: "not ready", and nothing stored. Otherwise: `CTRL_SYNC` gives OK when the ready wait reports ready, and so never fails, because the ready wait always reports ready. `GET_SECTOR_COUNT` stores the cached block count as a DWORD. `GET_SECTOR_SIZE` stores the cached block size as a WORD, so modulo 65536. `GET_BLOCK_SIZE` stores 4096. Any other command is a parameter error with nothing stored. |
| `MassStorageHost.MassStorageHost.constructor` | cortex_m3_nxp/lpcusblib/user_config/host/USBMassStorageHost.c:23-34 | The static interface starts on port 0 with a zeroed capacity and no request issued. |
| `MassStorageHost.MassStorageHost.DiskInit` | cortex_m3_nxp/lpcusblib/user_config/host/USBMassStorageHost.c:282-285 | The handle returned is the one static interface. |
| `MassStorageHost.MassStorageHost.DiskInsertWait` | cortex_m3_nxp/lpcusblib/user_config/host/USBMassStorageHost.c:288-295 | Returns 1 once the port is found configured. Each earlier test adds one class-driver task and one host task to the trace, in that order, and nothing else. |
| `MassStorageHost.FirstNonBusy` | cortex_m3_nxp/lpcusblib/user_config/host/USBMassStorageHost.c:301-314 | The retry loop stops at the first test-unit-ready answer that is not "busy" (0x80). Every earlier answer was "busy". |
| `MassStorageHost.BusyThenAnswer` | cortex_m3_nxp/lpcusblib/user_config/host/USBMassStorageHost.c:301-314 | After `k` busy answers and then any other answer, the loop stops after exactly `k + 1` requests. |
| `MassStorageHost.MassStorageHost.DiskAcquire` | cortex_m3_nxp/lpcusblib/user_config/host/USBMassStorageHost.c:298-325 | It succeeds exactly when the first non-busy answer is 0 and the capacity read succeeds. The trace: one test-unit-ready per poll up to that answer. After a non-busy error, the deconfiguration and nothing more. Otherwise the capacity read, and after it the deconfiguration when the capacity read fails. The cached capacity changes only when the capacity read takes place. |
| `MassStorageHost.MassStorageHost.DiskGetSectorCnt` | cortex_m3_nxp/lpcusblib/user_config/host/USBMassStorageHost.c:328-331 | Returns the cached block count. No request is issued. |
| `MassStorageHost.MassStorageHost.DiskGetSectorSz` | cortex_m3_nxp/lpcusblib/user_config/host/USBMassStorageHost.c:334-337 | Returns the cached block size. No request is issued. |
| `MassStorageHost.MassStorageHost.DiskReadSectors` | cortex_m3_nxp/lpcusblib/user_config/host/USBMassStorageHost.c:340-348 | Succeeds exactly when the driver answers 0. The trace gets the block read with the cached block size, then the deconfiguration when the read fails. |
| `MassStorageHost.MassStorageHost.DiskWriteSectors` | cortex_m3_nxp/lpcusblib/user_config/host/USBMassStorageHost.c:351-358 | Succeeds exactly when the driver answers 0. The trace gets only the block write. |
| `MassStorageHost.DiskReadyWait` | cortex_m3_nxp/lpcusblib/user_config/host/USBMassStorageHost.c:361-367 | Reports ready (1) for every timeout. |
| `MassStorageHost.MassStorageHost.EnumerationComplete` | cortex_m3_nxp/lpcusblib/user_config/host/USBMassStorageHost.c:178-241 | The eight steps run in order and stop at the first failure. The outcome names that step. The trace is the steps up to it, followed by the deconfiguration when the failing step is the max-LUN step or a later one. The port number is recorded once the configuration descriptor has been read. The capacity is untouched. |
| `MassStorageHost.MsDeconfiguresFromMaxLun` | cortex_m3_nxp/lpcusblib/user_config/host/USBMassStorageHost.c:184-235 | The device is deconfigured exactly when the chain fails at step 3 (max LUN) or later. No failure of the first three steps deconfigures it. |
| `UsbHost.ChainOutcome` | cortex_m3_nxp/lpcusblib/user_config/host/USBMassStorageHost.c:184-240 | A chain reports success exactly when every step succeeds. A reported failure names a step that failed. |
| `UsbHost.FirstFailure` | cortex_m3_nxp/lpcusblib/user_config/host/USBMassStorageHost.c:184-235 | The chain stops at the first step that fails. Every earlier step passed. |
| `UsbHost.FirstFailureAt` | cortex_m3_nxp/lpcusblib/user_config/host/USBMassStorageHost.c:184-235 | Passing steps `0..k-1`, then failing step `k`, stops the chain at `k`. |
| `UsbHost.ChainStopsAt` | cortex_m3_nxp/lpcusblib/user_config/host/USBMassStorageHost.c:184-235 | A chain whose first failure is step `k` issues steps `0..k`, then the deconfiguration if `k` is at or past the chain's deconfigure point. |
| `UsbHost.ChainCompletes` | cortex_m3_nxp/lpcusblib/user_config/host/USBMassStorageHost.c:184-240 | A chain whose steps all succeed issues every step and nothing else. |
| `UsbHost.ChainDeconfigures` | cortex_m3_nxp/lpcusblib/user_config/host/USBMassStorageHost.c:202-235 | When no step is itself the deconfiguration, a chain deconfigures exactly when it fails at or after its deconfigure point. |
| `UsbHost.FirstConfigured` | cortex_m3_nxp/lpcusblib/user_config/host/USBMassStorageHost.c:290 | The attach wait stops at the first test that finds the port configured. |
| `UsbHost.PollRounds` | cortex_m3_nxp/lpcusblib/user_config/host/USBMassStorageHost.c:290-293 | `n` rounds of the wait loop: `2n` requests, alternating the class-driver task and the host task. |
| `UsbHost.Repeat` | cortex_m3_nxp/lpcusblib/user_config/host/USBMassStorageHost.c:301-302 | `n` copies of one request: the test-unit-ready requests of the retry loop. |
| `AtaDrive.AtaDiskInitialize` | cortex_m3_nxp/fatfs/user_config/atadrive.c:7-10 | Reports "no disk". The `STA_NOINIT` bit is clear. |
| `AtaDrive.AtaDiskStatus` | cortex_m3_nxp/fatfs/user_config/atadrive.c:22-25 | Reports "no disk". |
| `AtaDrive.AtaDiskRead` | cortex_m3_nxp/fatfs/user_config/atadrive.c:17-20 | "Not ready" for every sector and count, without touching the buffer. |
| `AtaDrive.AtaDiskWrite` | cortex_m3_nxp/fatfs/user_config/atadrive.c:27-30 | "Not ready" for every sector and count. |
| `AtaDrive.AtaDiskIoctl` | cortex_m3_nxp/fatfs/user_config/atadrive.c:12-15 | "Not ready" for every command. |
| `Uart.UartFifo.Contents` | cortex_m3_nxp/inc/uart.h:53-59 | The bytes held, oldest first. There are fewer than 64 of them, so at most 63, and exactly `(head - tail) mod 64`. |
| `Uart.UartFifo.constructor` | cortex_m3_nxp/src/uart.c:36 | A zero-initialised FIFO is empty. |
| `Uart.UartFifo.Put` | cortex_m3_nxp/src/uart.c:38-53 | Full means `(head + 1) mod 64 == tail`, which means 63 bytes held. A full FIFO is left unchanged, and the result is false. Otherwise the byte goes into the slot at the old `head`, no other slot changes, `head` advances modulo 64, and the contents gain the byte at the end. |
| `Uart.UartFifo.Get` | cortex_m3_nxp/src/uart.c:55-70 | An empty FIFO (`head == tail`) is left unchanged, and the caller's character is returned untouched. Otherwise the oldest byte is returned and removed, and `tail` advances modulo 64. |
| `Uart.Uart.constructor` | cortex_m3_nxp/src/uart.c:36 | Three distinct, empty receive FIFOs for UART0, UART1 and UART3. |
| `Uart.Uart.FifoOf` | cortex_m3_nxp/src/uart.c:503-521 | Ports 0, 1 and 3 have a FIFO. Every other port has none. |
| `Uart.Uart.GetChar` | cortex_m3_nxp/src/uart.c:498-522 | An unknown port gives `'\0'` at once, and nothing changes. Otherwise it returns the oldest byte in the FIFO and removes it. When the FIFO is empty, it returns the one byte `arrival` that the receive interrupt delivers while it waits, and the FIFO ends empty. Only that port's FIFO changes. |
| `Uart.PclkDiv` | cortex_m3_nxp/src/uart.c:163-275 | The two PCLKSEL bits of UART0 (bits 6-7 of PCLKSEL0), UART1 (bits 8-9) or UART3 (bits 18-19 of PCLKSEL1). The value is some `pclkdiv` from 0 to 3. |
| `Uart.PclkDividers` | cortex_m3_nxp/src/uart.c:170-191 | `pclkdiv` 0, 1, 2 and 3 give the core clock divided by 4, 1, 2 and 8. |
| `Uart.BaudDivisor` | cortex_m3_nxp/src/uart.c:170-191 | `Fdiv` is the largest divisor for which `16 * Fdiv * baudrate` does not exceed the peripheral clock. |
| `Uart.DivisorRegisters` | cortex_m3_nxp/src/uart.c:188-191 | `DLM * 256 + DLL` is `Fdiv` modulo 65536, and `Fdiv` itself whenever it is below 65536. |
| `Uart.UartInit` | cortex_m3_nxp/src/uart.c:158-276 | Returns 1 exactly for ports 0, 1 and 3, and 0 otherwise. The divisor latches are programmed exactly for those ports, with the port's divisor. |
| `Uart.UartBaudrate` | cortex_m3_nxp/src/uart.c:289-365 | Gives the values written to the divisor latches exactly for ports 0, 1 and 3, and no write for any other port. The values are the ones `UARTInit` computes. |
| `Uart.WithCr` | cortex_m3_nxp/src/uart.c:426-436 | The characters on the line are at least as many as in the string, and end with its last character. |
| `Uart.WithoutCrInvertsWithCr` | cortex_m3_nxp/src/uart.c:426-436 | Reading each `"\r\n"` on the line back as `"\n"` restores the string exactly, so the characters go out in order, each once. |
| `Uart.CrBeforeEveryLf` | cortex_m3_nxp/src/uart.c:426-436 | On the line, every line feed comes straight after a carriage return. |
| `Uart.WithCrLength` | cortex_m3_nxp/src/uart.c:426-436 | One extra character is sent for each line feed, and no others. |
| `Uart.SendStr` | cortex_m3_nxp/src/uart.c:422-462 | For a string up to its terminating NUL: on ports 0, 1 and 3 it sends exactly the expansion of the string, with a carriage return before each line feed. On any other port it sends nothing. |
| `Uart.PutChar` | cortex_m3_nxp/src/uart.c:468-486 | The character goes out on ports 0, 1 and 3, and nothing goes out on any other port. |
| `Endianness.SwapEndian16Macro` | cortex_m3_nxp/lpcusblib/Common/Endianness.h:89 | Byte 0 of the result is byte 1 of the argument, and byte 1 is byte 0. |
| `Endianness.SwapEndian32Macro` | cortex_m3_nxp/lpcusblib/Common/Endianness.h:102-103 | Byte `i` of the result is byte `3 - i` of the argument. |
| `Endianness.SwapEndian16Involution` | cortex_m3_nxp/lpcusblib/Common/Endianness.h:89 | Swapping a 16-bit value twice gives it back. |
| `Endianness.SwapEndian32Involution` | cortex_m3_nxp/lpcusblib/Common/Endianness.h:102-103 | Swapping a 32-bit value twice gives it back. |
| `Endianness.NativeBytes16` | cortex_m3_nxp/lpcusblib/Common/Endianness.h:405-417 | The union's byte view of a word has two bytes. |
| `Endianness.NativeBytes32` | cortex_m3_nxp/lpcusblib/Common/Endianness.h:434-450 | The union's byte view of a double word has four bytes. |
| `Endianness.FromNativeBytes16` | cortex_m3_nxp/lpcusblib/Common/Endianness.h:405-417 | The word read back through the union has exactly the given memory image. |
| `Endianness.FromNativeBytes32` | cortex_m3_nxp/lpcusblib/Common/Endianness.h:434-450 | The double word read back through the union has exactly the given memory image. |
| `Endianness.NativeBytes16RoundTrip` | cortex_m3_nxp/lpcusblib/Common/Endianness.h:405-417 | Writing a word into the union and reading it back gives the same word. |
| `Endianness.NativeBytes32RoundTrip` | cortex_m3_nxp/lpcusblib/Common/Endianness.h:434-450 | Writing a double word into the union and reading it back gives the same double word. |
| `Endianness.Byte16Injective` | cortex_m3_nxp/lpcusblib/Common/Endianness.h:89 | Two 16-bit values with the same two bytes are equal. |
| `Endianness.Byte32Injective` | cortex_m3_nxp/lpcusblib/Common/Endianness.h:102-103 | Two 32-bit values with the same four bytes are equal. |
| `Endianness.SwapEndian16` | cortex_m3_nxp/lpcusblib/Common/Endianness.h:398-418 | The run-time swap through the union equals the macro on every input, in either memory layout. |
| `Endianness.SwapEndian32` | cortex_m3_nxp/lpcusblib/Common/Endianness.h:427-451 | The run-time swap through the union equals the macro on every input, in either memory layout. |
| `Endianness.Le16ToCpu` | cortex_m3_nxp/lpcusblib/Common/Endianness.h:105-140 | The result's little-endian bytes are the argument's bytes in memory: the identity on little-endian builds, the swap on big-endian ones. |
| `Endianness.Le32ToCpu` | cortex_m3_nxp/lpcusblib/Common/Endianness.h:105-156 | The same for 32 bits. |
| `Endianness.Be16ToCpu` | cortex_m3_nxp/lpcusblib/Common/Endianness.h:105-172 | The result's big-endian bytes are the argument's bytes in memory: the swap on little-endian builds, the identity on big-endian ones. |
| `Endianness.Be32ToCpu` | cortex_m3_nxp/lpcusblib/Common/Endianness.h:105-188 | The same for 32 bits. |
| `Endianness.CpuToLe16` | cortex_m3_nxp/lpcusblib/Common/Endianness.h:105-204 | The result's bytes in memory are the argument's little-endian bytes. |
| `Endianness.CpuToLe32` | cortex_m3_nxp/lpcusblib/Common/Endianness.h:105-220 | The same for 32 bits. |
| `Endianness.CpuToBe16` | cortex_m3_nxp/lpcusblib/Common/Endianness.h:105-236 | The result's bytes in memory are the argument's big-endian bytes. |
| `Endianness.CpuToBe32` | cortex_m3_nxp/lpcusblib/Common/Endianness.h:105-252 | The same for 32 bits. |
| `Endianness.Le16ToCpuConst` | cortex_m3_nxp/lpcusblib/Common/Endianness.h:114-337 | `LE16_TO_CPU` and `CPU_TO_LE16`, written with the macro, equal the run-time `le16_to_cpu` and `cpu_to_le16`. |
| `Endianness.Le32ToCpuConst` | cortex_m3_nxp/lpcusblib/Common/Endianness.h:115-353 | The same for `LE32_TO_CPU` and `CPU_TO_LE32`. |
| `Endianness.Be16ToCpuConst` | cortex_m3_nxp/lpcusblib/Common/Endianness.h:116-369 | The same for `BE16_TO_CPU` and `CPU_TO_BE16`. |
| `Endianness.Be32ToCpuConst` | cortex_m3_nxp/lpcusblib/Common/Endianness.h:117-385 | The same for `BE32_TO_CPU` and `CPU_TO_BE32`. |
| `Endianness.ConversionRoundTrips` | cortex_m3_nxp/lpcusblib/Common/Endianness.h:105-252 | Converting from a byte order and back is the identity, in 16 and 32 bits, on either build. |
| `Endianness.Reversed` | cortex_m3_nxp/lpcusblib/Common/Endianness.h:460-476 | The reversal of a buffer has the same length, and its byte `i` is byte `n - 1 - i` of the original. |
| `Endianness.ReversedInvolution` | cortex_m3_nxp/lpcusblib/Common/Endianness.h:460-476 | Reversing twice restores the buffer. |
| `Endianness.SwapEndianN` | cortex_m3_nxp/lpcusblib/Common/Endianness.h:460-476 | The first `length` bytes end up in reverse order. For an odd length the middle byte stays in place. Bytes from `length` on are untouched. The loop ends because `length` falls by 2 per step. |
| `KeyboardHost.BitAndOfComparisons` | cortex_m3_nxp/lpcusblib/user_config/host/USBKeyboardHost.c:64-65 | The bitwise `&` of two comparison results is non-zero exactly when both comparisons hold. |
| `KeyboardHost.PressedKey` | cortex_m3_nxp/lpcusblib/user_config/host/USBKeyboardHost.c:57-80 | Usage IDs 0x04 to 0x28 give, in order, `a`-`z`, `1`-`9`, `0` and line feed. 0x2C gives a space. Every other code gives `'\0'`. |
| `KeyboardHost.PressedKeyCharset` | cortex_m3_nxp/lpcusblib/user_config/host/USBKeyboardHost.c:60-80 | Every character produced is a lower-case letter, a digit, a space or a line feed, or `'\0'` for no character. |
| `KeyboardHost.PressedKeyInjective` | cortex_m3_nxp/lpcusblib/user_config/host/USBKeyboardHost.c:60-80 | Two codes that give the same character, other than `'\0'`, are the same code. |
| `KeyboardHost.ReportOutput` | cortex_m3_nxp/lpcusblib/user_config/host/USBKeyboardHost.c:53-85 | A report prints at most one character: the character of its first key code, or nothing when that code has none (including code 0). |
| `KeyboardHost.KeyboardHost.constructor` | cortex_m3_nxp/lpcusblib/user_config/host/USBKeyboardHost.c:9-20 | The static interface starts on port 0 with no request issued. |
| `KeyboardHost.KeyboardHost.Task` | cortex_m3_nxp/lpcusblib/user_config/host/USBKeyboardHost.c:39-87 | An unconfigured port adds nothing to the trace and prints nothing. A configured port is asked whether a report has arrived. Without one nothing more happens. With one, the report is received and its output is printed on UART 0. |
| `KeyboardHost.KeyboardHost.EnumerationComplete` | cortex_m3_nxp/lpcusblib/user_config/host/USBKeyboardHost.c:107-141 | The four steps run in order and stop at the first failure. The outcome names that step. The trace is the steps up to it, followed by the deconfiguration when the boot-protocol step fails. The port number is recorded once the configuration descriptor has been read. |
| `KeyboardHost.OnlyBootProtocolFailureDeconfigures` | cortex_m3_nxp/lpcusblib/user_config/host/USBKeyboardHost.c:112-138 | The keyboard is deconfigured exactly when setting the boot protocol fails. |

## Left out

- Data contents of sector reads and writes: the buffers are not modelled. A read or write is recorded as a request naming its LUN, first sector, count and block size.
- The USB host stack and its mass-storage and HID class drivers, which are not part of this model. That includes the SCSI commands, the capacity's byte order on the wire and the pipe set-up. Their answers are arguments of the methods, and on a failed capacity read the stored capacity is whatever the driver left, given by the same argument.
- The real-time clock set-up `FSUSB_InitRealTimeClock`, called by `USB_disk_initialize` in writable builds: register writes only.
- The delay loop inside `FSUSB_DiskReadyWait`: timing only. The model keeps its result.
- Messages written with `printf`, `sprintf` and `UARTSendStr` by the event handlers and error paths: output only. The keyboard task's character output is modelled.
- UART register set-up (pin selection, line control, FIFO control, interrupt enable), the transmit-holding-register busy waits, `UARTSend` and the interrupt handlers. The receive interrupt appears only as the bytes `GetChar` receives while it waits. Access to a FIFO from the interrupt and from the main program is not modelled as concurrent.
- Uart.GetChar: the source waits for ever on an empty FIFO when no byte arrives. The model has exactly one byte, `arrival`, come in during the first empty poll. Bytes that arrive after it stay out of the model.
- MassStorageHost.MassStorageHost.DiskInsertWait and MassStorageHost.MassStorageHost.DiskAcquire: the source may loop for ever when the device never becomes configured, or keeps answering "busy". The model requires that the wait ends.
- The demo and RTOS code: `usbHostPendrive`, `USB_ReadWriteFile`, `die`, `usbHostKeyboard`, the attach, detach, host-error and enumeration-failed handlers, the dummy callbacks, `main_ex_sdcard.c` and `main_ex_host_pendrive.c`.
- Strings and characters (`UARTSendStr`'s argument, the keyboard's characters) are modelled as `seq<char>` and `char`. The C code handles them as 8-bit `char`/`uint8_t` bytes, and the byte width is abstracted. The UART FIFOs and `GetChar` work on bytes (`bv8`).
- Uart.BaudDivisor, Uart.UartInit and Uart.UartBaudrate: a baud rate of 0 on ports 0, 1 and 3 is a division by zero in the C. The model requires a non-zero baud rate there and does not say what happens on a zero one.
- The ATA stub's module-level `status` variable: none of its operations reads or writes it.
- The SD card and SPI drivers: only headers exist for them.
- The RTC driver in `rtc.c` (`RTCInit`, `RTCStart`, `RTCStop`, `RTCSetTime`, `RTCSetAlarm`, `RTCGetTime`, `RTCSetAlarmMask`, `RTC_IRQHandler`): register reads and writes only. A time set and then read does not round-trip, because the counter keeps running between the two calls.
- MassStorageHost.MassStorageHost.DiskInsertWait: the enumeration-complete handler runs inside the host task during the attach wait. The trace shows that round only as its `UsbTask` entry, and the model does not tie the port reaching the configured state to the handler's chain succeeding. The handler's write of the port number is not modelled either: the model keeps `portNumber` from before the wait, and `DiskAcquire` and `UsbDisk.DiskInitialize` then name that port. It is the same port while `USB_PORT` is 0, as the library configuration sets it.
- Endianness: the compiler's choice between macro and run-time swap for constant arguments is not modelled. The model shows that both give the same value.
