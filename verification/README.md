# Intel 8255 digital-I/O subdevice (comedi driver), modelled in Dafny

This project models the comedi binding for the Intel 8255 programmable
peripheral interface. An 8255 drives 24 digital lines. They sit in three
8-bit data ports (A, B, C) behind one control register. The driver keeps
two words per chip:

- `status`: the last value written to the output latches;
- `io_bits`: the direction mask, where bit i set means channel i is an output.

The model covers:

- the bit instruction: a masked write of the outputs, then a read-back of all 24 lines;
- the configuration instruction: set or query the direction of a channel's bank;
- the control word derived from the direction mask;
- the command test, which normalises the five trigger arguments of an acquisition command;
- subdevice initialisation;
- attach and detach of the standalone device. These reserve and release one 4-byte I/O region per chip.

Modules:

- `Errno` (`errno.dfy`): the two error codes the driver returns.
- `Registers` (`registers.dfy`): register offsets and control-word bits. It also holds the pure derivations: the direction bank of a channel (`Bank`), the control word for a direction mask (`ControlWord`), and the effect of an input or output request on the mask (`WithInputs`, `WithOutputs`).
- `Chip8255` (`chip.dfy`): the class `Chip`, which is the driver's private record plus the chip as the port callback sees it:
  - three data ports, as an `array<bv8>`;
  - the control register;
  - a log of every byte written, so "no write was issued" can be stated.

  The bit and configuration instructions are methods on it. They are proved against the specification functions `Merge`, `BitsWrites`, `Readback`, `Bank`, `ControlWord`, `WithInputs` and `WithOutputs`.
- `CommandTest` (`cmdtest.dfy`): the command class, the specification function `Check` of one test round, and the convergence proof.
- `Device8255` (`device.dfy`): subdevice records, the device, and the I/O region registry as a set of claimed regions. It also holds attach and detach, proved against the specification function `AttachPlan` and the set `Released`.

Words are `bv32`, as are `status`, `io_bits`, the instruction data and the
command arguments. Port values are `bv8`, and the interrupt sample is `bv16`.

## Model

| member | source | states |
|---|---|---|
| Registers.BankOfChannel | ksrc/drivers/comedi/intel/8255.c:171-181 | Channels 0-7 select bank 0xff, 8-15 select 0xff00, 16-19 select 0x0f0000, and every other index below 32 selects 0xf00000. The result is always one of the four banks. |
| Registers.ChannelInOwnBank | ksrc/drivers/comedi/intel/8255.c:171-181 | A channel's own bit lies inside its selected bank exactly when the channel is below 24. Indices 24-31 are sent to bank C high without belonging to it. |
| Registers.BanksDisjoint | ksrc/drivers/comedi/intel/8255.c:173-180 | Two distinct banks share no channel. |
| Registers.ControlWordModeSet | ksrc/drivers/comedi/intel/8255.c:85 | The control word always carries the mode-set bit 0x80. |
| Registers.ControlWordNoOtherBits | ksrc/drivers/comedi/intel/8255.c:85-94 | The control word has no bit besides the mode-set bit and the four input flags. |
| Registers.FlagA | ksrc/drivers/comedi/intel/8255.c:87-88 | The port A input flag is set exactly when no channel 0-7 is an output. |
| Registers.FlagB | ksrc/drivers/comedi/intel/8255.c:89-90 | The port B input flag is set exactly when no channel 8-15 is an output. |
| Registers.FlagCLow | ksrc/drivers/comedi/intel/8255.c:91-92 | The port C low input flag is set exactly when no channel 16-19 is an output. |
| Registers.FlagCHigh | ksrc/drivers/comedi/intel/8255.c:93-94 | The port C high input flag is set exactly when no channel 20-23 is an output. |
| Registers.ControlWordFlag | ksrc/drivers/comedi/intel/8255.c:85-94 | For every bank, its input flag is in the control word if and only if the direction mask has no output bit in that bank. |
| Registers.SameBankSameFlag | ksrc/drivers/comedi/intel/8255.c:85-94 | Two direction masks that agree on a bank give that bank the same input flag. |
| Registers.WithInputsMeaning | ksrc/drivers/comedi/intel/8255.c:184-186 | An input request clears the whole bank and leaves every bit outside it unchanged. |
| Registers.WithOutputsMeaning | ksrc/drivers/comedi/intel/8255.c:187-189 | An output request sets the whole bank and leaves every bit outside it unchanged. |
| Registers.InputsIdempotent | ksrc/drivers/comedi/intel/8255.c:184-186 | Repeating an input request changes nothing. |
| Registers.OutputsIdempotent | ksrc/drivers/comedi/intel/8255.c:187-189 | Repeating an output request changes nothing. |
| Registers.RequestKeepsOtherBanks | ksrc/drivers/comedi/intel/8255.c:183-189 | A request for one bank leaves every other bank's channels unchanged. |
| Registers.QueryAfterRequest | ksrc/drivers/comedi/intel/8255.c:183-192 | After an output request, a query of any channel in the requested bank reports output. After an input request it reports input. Channels of other banks are covered by `RequestKeepsOtherBanks`. |
| Registers.OwnFlagAfterOutput | ksrc/drivers/comedi/intel/8255.c:187-199 | After an output request and the reconfiguration, the bank's input flag is clear. |
| Registers.OwnFlagAfterInput | ksrc/drivers/comedi/intel/8255.c:184-199 | After an input request and the reconfiguration, the bank's input flag is set. |
| Registers.OtherFlagsAfterOutput | ksrc/drivers/comedi/intel/8255.c:187-199 | An output request leaves the input flags of the other three banks as they were. |
| Registers.OtherFlagsAfterInput | ksrc/drivers/comedi/intel/8255.c:184-199 | An input request leaves the input flags of the other three banks as they were. |
| Chip8255.PortCarriesMask | ksrc/drivers/comedi/intel/8255.c:145-155 | The byte written to data port k, put back at its place in the word, is exactly the word masked by the port's mask (0xff, 0xff00, 0xff0000). So each port carries exactly the bits its `if` tests. |
| Chip8255.UntouchedPortKeepsByte | ksrc/drivers/comedi/intel/8255.c:142-155 | A port the mask does not touch already holds its byte of the new `status`. This is why writing only the touched ports is enough. |
| Chip8255.MergeMeaning | ksrc/drivers/comedi/intel/8255.c:142-143 | After a masked write, the bits under the mask come from data[1] and all other bits keep their old value. |
| Chip8255.MergeNothing | ksrc/drivers/comedi/intel/8255.c:140-143 | An empty mask leaves `status` unchanged. |
| Chip8255.MergeIdempotent | ksrc/drivers/comedi/intel/8255.c:142-143 | Repeating the same masked write changes nothing. |
| Chip8255.BitsWritesExactly | ksrc/drivers/comedi/intel/8255.c:140-156 | A port write is issued if and only if the mask touches that port's byte. Each written value is that byte of the new `status`. Writes go in port order, and an empty mask issues none. |
| Chip8255.ReadbackBytes | ksrc/drivers/comedi/intel/8255.c:158-160 | The read-back is below 2^24, and its three bytes are ports A, B and C. |
| Chip8255.SampleBytes | ksrc/drivers/comedi/intel/8255.c:59-60 | The interrupt sample's low byte is port A and its high byte is port B. |
| Chip8255.Chip.constructor | ksrc/drivers/comedi/intel/8255.c:257-281 | A fresh private record is zeroed except for the base address and the interrupt wiring. |
| Chip8255.Chip.Out | ksrc/drivers/comedi/intel/8255.c:68-74 | The callback's write direction writes one register and appends exactly that byte to the log. |
| Chip8255.Chip.In | ksrc/drivers/comedi/intel/8255.c:75-77 | The callback's read direction returns the current value of a data port. |
| Chip8255.Chip.DoConfig | ksrc/drivers/comedi/intel/8255.c:80-96 | The byte built by successive ORs and written to the control register is `ControlWord(io_bits)`, the only write issued. Nothing else changes. |
| Chip8255.Chip.InsnBits | ksrc/drivers/comedi/intel/8255.c:136-163 | Returns 0. The new `status` is `Merge(old status, data[0], data[1])`. An empty mask leaves `status` unchanged and writes nothing. Otherwise the log grows by exactly `BitsWrites(mask, status)`, and each data port holds its new byte if touched or its old value if not. data[1] becomes the 24-bit read-back. data[0], io_bits and the control register are unchanged. |
| Chip8255.Chip.WriteMasked | ksrc/drivers/comedi/intel/8255.c:140-156 | For a mask, updates `status` to the merge and issues exactly the writes of the touched ports. |
| Chip8255.Chip.WriteTouched | ksrc/drivers/comedi/intel/8255.c:145-155 | Writes each touched port, in order, with its byte of `status`. |
| Chip8255.Chip.ReadAll | ksrc/drivers/comedi/intel/8255.c:158-160 | Returns `Readback` of the three ports. |
| Chip8255.Chip.InsnConfig | ksrc/drivers/comedi/intel/8255.c:165-202 | Returns 0 for INPUT, OUTPUT and QUERY, and -EINVAL for anything else. INPUT makes io_bits `WithInputs(old, Bank(chan))` and OUTPUT makes it `WithOutputs(old, Bank(chan))`; both then write exactly the control word `ControlWord(io_bits)`. QUERY stores OUTPUT in data[1] iff io_bits has a bit in the bank, and changes nothing else. A refused request changes nothing. `status` and the ports are never touched. |
| Chip8255.Chip.InterruptSample | ksrc/drivers/comedi/intel/8255.c:50-61 | Returns `Sample(port A, port B)`. |
| CommandTest.FirstMismatch | ksrc/drivers/comedi/intel/8255.c:104-128 | Returns the position of the first argument, in checking order, that differs from (0,0,0,1,0), or 5 when none does. Every argument before it is as expected. |
| CommandTest.WithField | ksrc/drivers/comedi/intel/8255.c:104-124 | Replacing one argument changes that argument only. |
| CommandTest.CheckAccepts | ksrc/drivers/comedi/intel/8255.c:104-128 | The test returns 0 if and only if the arguments are (0,0,0,1,0), and accepting changes nothing. The only return codes are 0 and -EINVAL. |
| CommandTest.CheckCorrectsFirst | ksrc/drivers/comedi/intel/8255.c:104-124 | A refusal corrects exactly the first wrong argument. All earlier ones were already right, and all later ones are left as they were. |
| CommandTest.NoMismatchesFrom | ksrc/drivers/comedi/intel/8255.c:104-128 | The mismatch count from position k is at most 5-k. It is zero exactly when every argument from k on is right. |
| CommandTest.FixOneFrom | ksrc/drivers/comedi/intel/8255.c:104-124 | Correcting one wrong argument lowers the mismatch count by one. |
| CommandTest.SameFrom | ksrc/drivers/comedi/intel/8255.c:104-124 | Argument lists that agree from position k on have the same count from k. |
| CommandTest.CheckProgress | ksrc/drivers/comedi/intel/8255.c:104-128 | The count is at most 5 and is zero iff the test accepts. Each refusal lowers it by exactly one. |
| CommandTest.Converges | ksrc/drivers/comedi/intel/8255.c:104-128 | Handing the corrected command back is refused exactly Mismatches(a) ≤ 5 times and then accepted. The accepted arguments are (0,0,0,1,0). |
| CommandTest.CmdTest | ksrc/drivers/comedi/intel/8255.c:104-128 | The return code and the corrected arguments are those of `Check` on the old arguments. The trigger sources are never changed. |
| Device8255.Init | ksrc/drivers/comedi/intel/8255.c:204-231 | The flags become DIO and CMD, with the 24-channel descriptor and the bit and configuration handlers. The command handlers and the command mask are installed iff the chip has an interrupt line. The chip gets exactly the control word of its direction mask. |
| Device8255.AllInputsControlWord | ksrc/drivers/comedi/intel/8255.c:85-94 | With every channel an input, the control word is 0x9b. |
| Device8255.Device.Add | ksrc/drivers/comedi/intel/8255.c:285-291 | A negative result refuses the subdevice. Otherwise it is appended. |
| Device8255.ClaimKeepsDisjoint | ksrc/drivers/comedi/intel/8255.c:274 | Claiming a free region keeps the claimed regions pairwise disjoint. |
| Device8255.IoSpace.Request | ksrc/drivers/comedi/intel/8255.c:274 | A reservation succeeds iff the region overlaps no claimed region, and then claims it. |
| Device8255.IoSpace.Release | ksrc/drivers/comedi/intel/8255.c:306 | A release removes the region from the claimed set. |
| Device8255.ReservedRegionsConcat | ksrc/drivers/comedi/intel/8255.c:253-292 | The reserved regions of two entry lists together are the union of each list's reserved regions. |
| Device8255.AttachPlanClaims | ksrc/drivers/comedi/intel/8255.c:253-292 | Attach only adds claims and keeps them pairwise disjoint. Every reserved subdevice's region is a new claim, and every new claim is the region of one of the given addresses. |
| Device8255.AttachPlanNoRefusal | ksrc/drivers/comedi/intel/8255.c:253-295 | When no add is refused, attach claims exactly the regions of the reserved subdevices it added, none of them claimed before. This holds also when a failed allocation stops it with -ENOMEM. |
| Device8255.AttachPlanAllSucceed | ksrc/drivers/comedi/intel/8255.c:253-295 | When every allocation and add succeeds, attach adds one subdevice per address and returns the last add's result. |
| Device8255.RefusedAddPlan | ksrc/drivers/comedi/intel/8255.c:253-292 | A refused add at position i, after i rounds that went through, returns the add's error. The subdevices are exactly those of the first i rounds, and the claimed set is theirs plus the refused chip's region when it was free. |
| Device8255.AttachRoundNoMemory | ksrc/drivers/comedi/intel/8255.c:257-266 | A failed allocation ends attach with -ENOMEM and what was gathered so far. |
| Device8255.AttachRoundRefused | ksrc/drivers/comedi/intel/8255.c:285-290 | A refused add ends attach with its error after the region was claimed. |
| Device8255.AttachRoundContinues | ksrc/drivers/comedi/intel/8255.c:257-292 | A round that carries on adds one entry and moves to the next address. |
| Device8255.AttachRoundsDone | ksrc/drivers/comedi/intel/8255.c:253 | With no address left, attach returns what it gathered. |
| Device8255.AllDescribeAppend | ksrc/drivers/comedi/intel/8255.c:285 | Appending a described subdevice keeps the added subdevices described. |
| Device8255.AttachOne | ksrc/drivers/comedi/intel/8255.c:269-291 | A reservation that fails yields an UNUSED subdevice with base address 0 and no handlers. A reservation that succeeds yields an initialised subdevice at that base, with all ports input (control word 0x9b). In both cases the subdevice is added iff the add result is not negative. |
| Device8255.AttachAll | ksrc/drivers/comedi/intel/8255.c:253-295 | The loop's return code, claimed regions and added subdevices are those of `AttachPlan` over the first n addresses. Earlier subdevices are kept. |
| Device8255.Attach | ksrc/drivers/comedi/intel/8255.c:239-296 | A missing option list, or one of size 0, returns -EINVAL and changes nothing. Otherwise the outcome is `AttachPlan` over `opts_size / 8` addresses. |
| Device8255.Detach | ksrc/drivers/comedi/intel/8255.c:298-310 | Returns 0 and removes from the claimed set exactly `Released(subdevices)`: one region per subdevice whose private record holds a non-zero base address. |
| Device8255.ReleasedOfDescribed | ksrc/drivers/comedi/intel/8255.c:303-307 | For subdevices left by attach, detach releases exactly the regions of reserved chips with a non-zero base. Unused subdevices release nothing. |
| Device8255.AttachThenDetach | ksrc/drivers/comedi/intel/8255.c:239-310 | When no add is refused and no base address is 0, detach gives back exactly the regions attach claimed, also after a failed allocation. The claimed set returns to its state before attach. |
| Device8255.ZeroBaseReserved | ksrc/drivers/comedi/intel/8255.c:274-307 | For any claimed set where the region at base address 0 is free, attach reserves a chip there like any other. No list of subdevices attach leaves gives that region back on detach. |
| Device8255.RefusedAddKeepsRegion | ksrc/drivers/comedi/intel/8255.c:274-291 | A refused add at position i returns its error, and exactly i subdevices were added. If the chip's region was free before that round, it ends claimed, and no added subdevice records it, so detach cannot give it back. |

Behaviours of the code that the model keeps, although a plain reading of the
driver's purpose would expect otherwise:

- An option list shorter than one address (0 < `opts_size` < 8) is not refused. The loop runs zero times and attach returns 0 with no subdevice. Only a missing list or a size of 0 gives -EINVAL.
- Attach returns the result of the last `comedi_add_subd`, not a fixed 0.
- Attach never sets `have_irq`, so standalone subdevices never get the command entry points or the command mask (see `AttachOne` and `Describes`).
- A region claimed for a subdevice whose add is refused stays claimed (`RefusedAddKeepsRegion`). So does a region at base address 0 (`ZeroBaseReserved`).

## Left out

- Port I/O: `outb`/`inb` become writes to and reads of the model's port array and control byte. A read returns the last value written to that port. Input pins driven from outside the chip are not modelled.
- The port callback pointer (`cb_func`): it is always the driver's own callback. A board-specific callback installed by another driver is not modelled.
- The interrupt handler's delivery of the sample to the acquisition buffer (`comedi_buf_put`, `comedi_buf_evt`): only the 16-bit sample is modelled, because the buffer is not part of this model.
- `subd_8255_cmd` and `subd_8255_cancel`: they are stubs that return 0. The model only records that `Init` installs them.
- The `memset(&subd, 0, sizeof(comedi_subd_t))` in attach zeroes the local pointer itself and the stack bytes past it, so the next `subd->` dereference is a null-pointer dereference. The model takes a fresh zeroed record instead, which is what the code evidently means.
- The allocation of a subdevice record and the result of `comedi_add_subd` come from outside the driver. They are parameters of `Attach` (`alloc`, `add`), one value per address.
- `request_region` is modelled as: succeed iff the 4-byte region overlaps no claimed region. Other reasons the kernel might refuse are not modelled.
- Driver registration (`comedi_register_drv`, `comedi_unregister_drv`) and the driver descriptor: these are kernel plumbing.
- Trigger-source legality: the test never looks at the `*_src` fields. The command mask is kept as plain data.
- Concurrency between the interrupt handler and the instructions.
- Device8255.Init: does not model the `memset(&subd, 0, sizeof(comedi_subd_t))` at `ksrc/drivers/comedi/intel/8255.c:208`. As written it zeroes the local pointer, so the next `subd->` dereferences null. Zeroing the whole record instead would also clear `subd->priv`, which lines 227-230 still use. `Init` therefore starts from the record it is given and keeps its earlier handlers and command mask; its only caller, `AttachOne`, passes a fresh zeroed record.
- The `comedi_err` and `comedi_warn` messages of attach: they are log output only and change no state.
- `8255.h` and comedi's headers are not part of this model, so their constants are written out here. The control-word bits (0x80, 0x10, 0x08, 0x02, 0x01) follow the Intel 8255 data sheet. The register offsets are 0 and 3, and the region size is 4. The configuration request codes (INPUT 0, OUTPUT 1, QUERY 28) and the directions (INPUT 0, OUTPUT 1) are those of comedi's `comedi.h`. EINVAL is 22 and ENOMEM is 12, as in Linux. `sizeof(unsigned long)` is taken as 8.
- `include/comedi/descriptor.h` and `include/compat/linux/workqueue.h` are not part of this model. They carry no logic of this driver.
- Chip8255.Chip.InsnConfig: requires the channel index to be below 32. In the source, `1 << chan` for a larger index is undefined behaviour.
