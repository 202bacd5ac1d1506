# MMA8451 accelerometer driver: a Dafny model

The Python repository drives a Freescale/NXP MMA8451 three-axis
accelerometer over I2C. The driver exists in two revisions.

- The older single-file driver `accel.py` has a table of register
  addresses and flag bytes. Its `Accel` class reads and writes registers one
  byte at a time, runs two start-up sequences (`init` and `init_callback`)
  and decodes single samples and FIFO bursts.
- The packaged driver `mma8451.py` reaches the bus through `iic.py`. It uses
  the register map `register/register.py` and the option table
  `register/configuration.py`. Its `Device` controller configures the
  sensor. A reader thread drains the FIFO on every interrupt, and a data
  processor decodes the drained bytes into rows of 14-bit readings and hands
  them to a callback in batches.

Two helpers are modelled as well:

- `rss_client.py:parse_accel_data` filters the rows worth sending to a
  server;
- `files.py` merges the datasets of an HDF5 file, breadth first, and reads
  the groups whose integer names lie in a range.

The model treats the I2C device as a file of 256 eight-bit registers
(`Bus.RegisterFile`). That file holds the current register contents and a
specification-only log of every byte written. Every flag operation of both
revisions is a read-modify-write of one register, `FlagOp`. `Bus.ApplyAll`
and `Bus.WritesOf` give the effect and the bus trace of a sequence of flag
operations. Each register sequence of the source is stated as such a
sequence, or as an explicit list of writes for `accel.py`. The state-changing
methods are proved to produce exactly that state and trace. Lemmas then prove
what the sequence promises:

- standby before every write, active at the end;
- which bits each register gains or loses;
- nothing else changes.

The sample path is modelled on integers:

- the 14-bit two's-complement decoding is proved to invert the sensor's
  encoding;
- `prepare_data` is proved row by row against a reference decoding, and that
  decoding is proved to recover every encoded row;
- the batching loop of `DataProcessor.run` is proved against a fold that
  loses, duplicates and reorders no row.

For the list algorithms, the in-place filter of `parse_accel_data` and the
worklist loop of `datamerge` are proved against reference functions: a
thresholded subsequence and a breadth-first visit of the group tree.

Modules (one per file): `Wrappers` (Option, Result, Python exceptions),
`Registers`, `Configuration`, `Bus`, `ByteMath`, `Iic`, `Device`, `Samples`,
`AccelFlags`, `AccelDriver` (accel.py), `RssClient`, `Files`.

Where the code and its comments disagree, the model follows the code:

- `init` calls 0x40 the "circular" FIFO mode, which register.py calls Fill;
- `parse_accel_data` examines only half of its input;
- the eight-bit drain length does not fit `prepare_data`.

## Model

| member | source | states |
|---|---|---|
| Registers.KnownAddress | accel.py:34-51 | A register has an address exactly when accel.py spells one out. F_STATUS is given 0x00, shared with STATUS, as the comment at accel.py:203 places it. |
| Registers.FStatusPartition | register/register.py:14-18 | F_OVF, F_WMRK_FLAG and F_CNT are pairwise disjoint and together cover all eight bits. |
| Registers.FSetupLayout | register/register.py:31-39 | The four F_MODE settings are distinct and lie in F_MODE1\|F_MODE0 = 0xC0, which is disjoint from F_WMRK and together with it covers the byte. |
| Registers.CtrlReg1Layout | register/register.py:137-155 | The eight DR settings are distinct and lie within DR, and the ASLP_RATE settings lie within ASLP_RATE. ASLP_RATE, DR, LNOISE, F_READ and ACTIVE are pairwise disjoint and cover the byte. |
| Registers.CtrlReg2Layout | register/register.py:156-170 | The SMODS settings lie within 0x18 and the MODS settings within 0x03. ST, RST, SMODS, SLPE and MODS are pairwise disjoint. |
| Registers.XyzDataCfgLayout | register/register.py:65-71 | FS_2g, FS_4g and FS_8g lie within FS, which is disjoint from HPF_OUT. |
| Registers.PlStatusLayout | register/register.py:80-88 | The four LAPO settings lie within LAPO. NEWLP, LO and LAPO are pairwise disjoint. |
| Registers.InterruptEnableMatchesRouting | register/register.py:180-197 | Every CTRL_REG4 enable is a single bit, the enables are pairwise disjoint, and each equals the CTRL_REG5 routing bit of the same source. |
| Configuration.FlagFor | register/configuration.py:5-29 | A mask exists only for a legal value. For a dictionary of flags, it exists exactly for the legal values. For a byte-sized range, every member is its own mask. |
| Configuration.DefaultsAreLegal | register/configuration.py:6-28 | Every option's default is one of its legal values. |
| Configuration.FifoModeFlags | register/configuration.py:6-15 | The four fifo_mode values have pairwise distinct masks inside the F_MODE field 0xC0. |
| Configuration.WatermarkRange | register/configuration.py:24-28 | fifo_watermark accepts exactly 0..32. Each accepted value is its own mask and fits in F_WMRK. |
| Configuration.FifoModeAndWatermarkDisjoint | register/configuration.py:6-28 | fifo_mode and fifo_watermark both live in F_SETUP. Any legal values of the two have disjoint masks. |
| Configuration.BitDepthFlags | register/configuration.py:3-23 | bit_depth lives in CTRL_REG1. 8 maps to F_READ (0x02), 14 maps to no bit, and no other value is legal. |
| Bus.Apply | iic.py:29-33 | One flag operation changes only its own register, to the updated value of what that register held. |
| Bus.SetIdempotent | iic.py:29-30 | Setting a mask twice is setting it once. |
| Bus.ClearIdempotent | iic.py:32-33 | Clearing a mask twice is clearing it once. |
| Bus.ClearAfterSet | iic.py:29-33 | Clearing a mask right after setting it leaves the original byte without exactly those bits. |
| Bus.ApplyAllAppend | iic.py:29-33 | Running two operation sequences in turn is running their concatenation, for both the registers and the bus trace. |
| Bus.ApplyAllFrame | iic.py:29-33 | A register that no operation addresses keeps its value. |
| Bus.WritesOfShape | iic.py:29-33 | A sequence writes one byte per operation. Write i goes to operation i's register and carries the updated value of what that register held after the earlier operations. |
| Bus.SetOnlyKeepsBits | iic.py:29-30 | Operations that only OR into a register never clear a bit it had. |
| Bus.RegisterFile.ReadByte | iic.py:11-12 | A byte read returns the register's contents. |
| Bus.RegisterFile.WriteByte | iic.py:8-9 | A byte write changes that register only and logs exactly that write. |
| Iic.MaskOf | iic.py:35-41 | The mask is the explicit flag when one is given, otherwise the flag member itself. A bare register without a flag has no mask. |
| Iic.SharedBit | iic.py:47 | Two bytes AND to non-zero exactly when they share a set bit. |
| Iic.CheckFlag | iic.py:43-47 | `check_flag` raises ValueError exactly for an empty mask. Otherwise it is true exactly when the bit field and the mask share a set bit. |
| Iic.BlockRead | iic.py:14-18 | A negative reported size is an OSError, and otherwise the bytes pass through unchanged. |
| Iic.Iic.ReadRegister | iic.py:11-12 | Returns the register's contents. |
| Iic.Iic.SetFlagAt | iic.py:29-30 | The register becomes old \| flag, every other register is unchanged, and exactly one byte is written. |
| Iic.Iic.UnsetFlagAt | iic.py:32-33 | The register becomes old & ~flag, every other register is unchanged, and exactly one byte is written. |
| Iic.Iic.Perform | iic.py:29-33 | One flag operation through `_set_flag` or `_unset_flag` has the effect and trace of `Apply`. |
| Iic.Iic.SetFlag | iic.py:35-37 | `set_flag` ORs the chosen mask into the register's address. With no usable mask it raises TypeError and leaves the device untouched. |
| Iic.Iic.UnsetFlag | iic.py:39-41 | `unset_flag` clears the chosen mask at the register's address. With no usable mask it raises TypeError and leaves the device untouched. |
| Iic.Iic.PerformAll | iic.py:29-41 | A sequence of flag operations run in order leaves the device as `ApplyAll` says, and the bus sees `WritesOf`. |
| Device.AddressesAgree | accel.py:47-51 | The addresses used for CTRL_REG1/2/4/5 and WHO_AM_I are the ones accel.py gives. |
| Device.ConfigureShape | mma8451.py:124-137 | `configure` issues one write per setting between clearing ACTIVE first and setting it last. Write i+1 is an unset exactly when setting i is "bit_depth", and uses the parameters of that setting. |
| Device.ConfigureOpsSplit | mma8451.py:124-137 | The operations split into the standby, one per setting in order, and the activation. |
| Device.StandbyBefore | mma8451.py:125-134 | If no setting's parameters set ACTIVE, ACTIVE is clear after each prefix that ends before the activation. |
| Device.ConfigureInStandby | mma8451.py:124-137 | If no setting's parameters set ACTIVE, every option is written with ACTIVE clear, and ACTIVE is set at the end. |
| Device.ConfigureWrites | mma8451.py:125-137 | The bus sees one write per setting plus two. The first clears ACTIVE and keeps CTRL_REG1's other bits. The last writes CTRL_REG1 with ACTIVE set. |
| Device.ConfigureOnlyAddsBits | mma8451.py:127-134 | Without a "bit_depth" setting, `configure` never clears a bit of any register other than CTRL_REG1. |
| Device.SetupEffect | mma8451.py:139-168 | The FIFO interrupt is enabled and the sensor left active. The FIFO interrupt is routed to INT1 exactly when interrupt_pin is 1 or it already was. Registers other than CTRL_REG1, CTRL_REG4 and CTRL_REG5 are unchanged. |
| Device.SetupInStandby | mma8451.py:144-149 | The interrupt bits are written while the sensor is in standby. |
| Device.Device.constructor | mma8451.py:99-102 | A new controller holds the given device name and a fresh configuration. |
| Device.Device.Open | mma8451.py:107-116 | `open` succeeds exactly when WHO_AM_I reads the expected name, and otherwise raises NameError. |
| Device.Device.Restart | mma8451.py:118-122 | `restart` sets CTRL_REG2.RST with one write and starts a fresh configuration. |
| Device.Device.Configure | mma8451.py:124-137 | The device ends as `ConfigureOps` says and the bus sees its writes. The configuration records the settings. |
| Device.Device.ConfigureOne | mma8451.py:128-134 | One setting: "bit_depth" clears its mask, every other option sets its own, and exactly one write is made. |
| Device.Device.SetupThreadedFifoCallback | mma8451.py:144-168 | The register part of the FIFO interrupt set-up leaves the device as `SetupOps` says, with those writes on the bus. |
| Samples.RawWordBits | mma8451.py:35 | The shift-and-or of `reg2num` is the 14-bit raw word `(msb*256+lsb) div 4`. |
| Samples.Reg2Num | mma8451.py:30-36 | `reg2num` subtracts 2^bit_depth exactly when the raw word exceeds 2^(bit_depth-1)-1. At bit depth 14 the result lies in [-8192, 8191]. |
| Samples.Reg2Num14 | mma8451.py:34-36 | At bit depth 14 the result is the raw word when it is at most 8191, and otherwise the raw word minus 16384. |
| Samples.Reg2Num14Decodes | mma8451.py:34-36 | Decoding the sensor's byte pair for any 14-bit value gives the value back. |
| Samples.Reg2Num14Encodes | mma8451.py:34-36 | Encoding a decoded pair gives back the pair with the two unused low bits cleared. |
| Samples.PrepareData | mma8451.py:41-49 | `prepare_data` fails with IndexError exactly when the length is not a multiple of six. Otherwise it gives len/6 rows, and row k is decoded from bytes 6k..6k+5 as the x, y and z pairs. |
| Samples.DecodedAppend | mma8451.py:41-49 | Decoding two whole blocks together is decoding each and appending the rows. |
| Samples.PrepareDataRoundTrip | mma8451.py:41-49 | At bit depth 14, `prepare_data` recovers every run of rows from the bytes the sensor sends for it. |
| Samples.RowRoundTrip | mma8451.py:45-48 | One row's six bytes decode to that row. |
| Samples.Run | mma8451.py:51-66 | `DataProcessor.run` over the queued blocks hands the callback exactly the batches of the `RunFrom` fold, and stops on the first block that fails to decode. |
| Samples.BatchesAreFull | mma8451.py:62-65 | Every batch handed to the callback holds at least n rows. |
| Samples.RunKeepsRows | mma8451.py:51-65 | The batches followed by the dropped partial batch are exactly the rows of the blocks decoded before any failure, in order. No row is lost, duplicated or reordered. |
| Samples.BatchesAtMostHalf | mma8451.py:58-65 | A batch needs one block to start it and at least one more to complete it, so there are at most half as many batches as blocks. |
| Samples.FirstBlockOnlyStarts | mma8451.py:58-59 | A single block never reaches the callback, whatever n is. |
| Samples.FifoCount | mma8451.py:87-88 | The FIFO count is status & 0x3F, in [0, 63], that is status mod 64. |
| Samples.OverflowWarning | mma8451.py:89-90 | The overflow warning fires exactly on a count of 32. The F_OVF bit is not consulted, so 0x80 is silent and 0x20 warns. |
| Samples.RoundHalfEven | mma8451.py:93 | Python's `round(p/q)` gives the nearest integer, with ties going to the even one. |
| Samples.DrainLengths | mma8451.py:91-93 | A drain asks for 6 bytes per sample at bit depth 14 and 3 at bit depth 8. |
| Samples.Drain | mma8451.py:86-94 | One pass warns exactly on a count of 32 and asks for the computed length. The block read fails exactly on a negative size, and otherwise its bytes are queued unchanged, even for a count of 0. |
| Samples.EightBitOddCountFails | mma8451.py:91-93 | At bit depth 8, an odd FIFO count yields a drain that `prepare_data` cannot decode. |
| Samples.EightBitPairsSamples | mma8451.py:41-49 | Two eight-bit samples of three bytes each come out of `prepare_data` as one wrong row. |
| Samples.Signed8 | mma8451.py:30-36 | An eight-bit reading is its byte as two's complement, in [-128, 127]. |
| Samples.EightBitDrainDecodes | mma8451.py:91-93 | Three-bytes-per-sample decoding turns every eight-bit drain into exactly the FIFO count of rows. Each reading is the signed value of its own byte. |
| Samples.Signed8RoundTrip | mma8451.py:30-36 | Every reading in [-128, 127] is recovered from its byte. |
| AccelFlags.RangeFlags | accel.py:185-189 | There are exactly three range codes, each is its own full-scale flag, and each is the matching XYZ_DATA_CFG.FS setting. |
| AccelFlags.RatesAgree | accel.py:62-75 | DATARATE equals FLAG_ODR pointwise and matches register.py's DR settings. The auto-sleep rates and the LNOISE, F_READ and ACTIVE bits agree too. |
| AccelFlags.PowerSchemes | accel.py:127-140 | The HR and LP flags each set a sleep and an active scheme. FLAG_SMODS_LNLP pairs low-noise sleep with high-resolution active, unlike FLAG_MODS_LNLP. |
| AccelFlags.FifoModesDisagree | accel.py:198-201 | accel.py's circular mode 0x40 is register.py's Fill, and its stop mode 0x80 is register.py's Circular. |
| AccelFlags.InterruptFlagsAgree | accel.py:148-170 | The interrupt enable and routing flags agree with register.py bit for bit. |
| AccelFlags.PrintedCount | accel.py:267 | `status & ~0xc0`, with Python's negative `~0xc0`, equals status & 0x3F for every byte. |
| AccelFlags.Int1Report | accel.py:261-267 | `int1_callback` reports F_OVF, F_WMRK_FLAG and a count equal to status mod 64. |
| AccelDriver.InitCallbackPhases | accel.py:344-376 | The `init_callback` trace is the prologue, then the middle, then the tail. |
| AccelDriver.InitPhases | accel.py:288-301 | The `init` trace is the prologue, then the middle, then its two-write tail. |
| AccelDriver.InitCallbackStandby | accel.py:346-376 | The second write clears ACTIVE. Every CTRL_REG1 write before the last leaves it clear, and only the last write sets it. |
| AccelDriver.InitStandby | accel.py:290-301 | The same for `init`: standby from the second write, active only at the eleventh. |
| AccelDriver.InitCallbackEffect | accel.py:346-376 | The final value of each register touched: CTRL_REG1 keeps its rate bits, loses F_READ and gains LNOISE and ACTIVE; CTRL_REG2 gains RST and HR and loses SLPE; FS is ORed with the range flag; PL_EN is cleared; F_SETUP gains 0x90; the FIFO interrupt is enabled and routed to INT1. |
| AccelDriver.InitEffect | accel.py:288-301 | `init` ORs 0x40 (register.py's Fill) into F_SETUP, ends CTRL_REG1 as `init_callback` does, and never touches CTRL_REG4 or CTRL_REG5. |
| AccelDriver.Axis8 | accel.py:393-403 | The eight-bit branch as written maps 0 to 0 and any other byte b to b*256-256. |
| AccelDriver.FifoValuesAsWritten | accel.py:411-422 | x1, x2 and x3 come from bytes 0-1, 6-7 and 12-13. x1 is sign-corrected. x2 and x3 are never corrected and stay raw words in [0, 16383], because line 420 has already corrected x1 in place before lines 421-422 test it. |
| AccelDriver.FifoValues | accel.py:411-422 | Each reading is signed by its own word and lies in [-8192, 8191]. |
| AccelDriver.FifoSecondNeverSigned | accel.py:420-422 | For a burst holding -1, -1 and 0, the code as written reports [-1, 16383, 0] and the intended decoding [-1, -1, 0]. |
| AccelDriver.FifoAgreesWhenNonNegative | accel.py:420-422 | The code as written always agrees with the intended decoding on x1. It agrees on x2 (x3) exactly when that reading's own raw word is at most 8191, whatever x1 is. |
| AccelDriver.FifoValuesRoundTrip | accel.py:413-422 | Three 14-bit readings laid out as a FIFO burst decode, the intended way, to themselves. |
| AccelDriver.Accel.constructor | accel.py:271-283 | A new driver uses the oversampling high-resolution mode and the 2 g range. |
| AccelDriver.Accel.WhoAmI | accel.py:285-286 | Returns the WHO_AM_I register. |
| AccelDriver.Accel.GetOrientation | accel.py:329-333 | Returns the low three bits of PL_STATUS, which is PL_STATUS mod 8. |
| AccelDriver.Accel.SetFlag | accel.py:335-336 | The register becomes old \| flag with one write, and nothing else changes. |
| AccelDriver.Accel.UnsetFlag | accel.py:338-339 | The register becomes old & ~flag with one write, and nothing else changes. |
| AccelDriver.Accel.ReadFlag | accel.py:341-342 | True exactly when the register shares a set bit with the flag. |
| AccelDriver.Accel.Prologue | accel.py:346-352 | The four shared opening writes, which change only CTRL_REG1 and CTRL_REG2. |
| AccelDriver.Accel.Middle | accel.py:354-362 | The five shared writes after the range lookup, which change only CTRL_REG1, CTRL_REG2, XYZ_DATA_CFG and PL_CFG. |
| AccelDriver.Accel.CallbackTail | accel.py:364-376 | The last five writes of `init_callback`, which change only CTRL_REG1, F_SETUP, CTRL_REG4 and CTRL_REG5. |
| AccelDriver.Accel.InitTail | accel.py:300-301 | The last two writes of `init`, which change only F_SETUP and CTRL_REG1. |
| AccelDriver.Accel.InitCallback | accel.py:344-376 | An unknown range raises KeyError after the first four writes. Otherwise the bus sees exactly the fourteen writes, each touched register ends with its last written value, and no other register changes. |
| AccelDriver.Accel.Init | accel.py:288-301 | The same for `init`, with its eleven writes. |
| AccelDriver.Accel.Cleanup | accel.py:430-432 | `cleanup` clears ACTIVE in CTRL_REG1, changes no other register, and writes exactly that one byte to the bus. |
| AccelDriver.Accel.GetAxisValue | accel.py:378-409 | F_READ set or a non-disabled FIFO mode is an AssertionError. A short burst is an IndexError and an unknown range a KeyError. Otherwise each axis is the 14-bit reading of its byte pair, in [-8192, 8191]. |
| AccelDriver.Accel.GetFifoValues | accel.py:411-428 | A burst shorter than 14 bytes is an IndexError and an unknown range a KeyError. Otherwise x1 is the signed 14-bit reading of bytes 0-1, and x2 and x3 are the unsigned raw words of bytes 6-7 and 12-13. |
| RssClient.Abs | rss_client.py:132-134 | Python's `abs`. |
| RssClient.Consumed | rss_client.py:127-128 | Iterating over a list while popping its front visits ceil(n/2) rows: at least one, and at most n. |
| RssClient.KeptFrom | rss_client.py:129-137 | No more rows are kept than examined. |
| RssClient.RowBuffer.constructor | rss_client.py:116 | The buffer holds the caller's rows. |
| RssClient.ParseAccelData | rss_client.py:116-141 | With at most one row it returns None and leaves `b` alone. Otherwise it pops the first ceil(n/2) rows, returns those the threshold filter keeps, and leaves the rest in `b`. |
| RssClient.ParseAccelDataDrained | rss_client.py:116-141 | The filter as its comment intends: all rows are examined and `b` is left empty. |
| RssClient.FirstNeverKept | rss_client.py:129-137 | The first row is compared with itself and never kept. |
| RssClient.KeptIsSubsequence | rss_client.py:128-136 | The kept rows are some of the examined rows, in their order. |
| RssClient.NoneKept | rss_client.py:132-137 | Nothing is kept exactly when no row differs by more than 10 from the reference. |
| RssClient.FirstKept | rss_client.py:132-137 | The first row kept is the first row far from the reference. The rest are kept with it as the new reference. |
| RssClient.HalfLeftBehind | rss_client.py:127-128 | Six rows whose only far row is the last: the loop keeps nothing and leaves that row unseen, where draining would keep it. |
| RssClient.LeftBehind | rss_client.py:127-128 | Every call with n > 1 rows leaves floor(n/2) > 0 rows unexamined. |
| Files.Child | files.py:10 | A name found in a group refers to one of its entries. |
| Files.NodeAt | files.py:10 | What a path names, when it names something. |
| Files.ResolveAll | files.py:9-10 | All paths resolve exactly when each does, and then in order. |
| Files.FlattenAppend | files.py:19-23 | Flattening and counting rows distribute over concatenation. |
| Files.FlattenLength | files.py:13-18 | The merged array has exactly the total row count of the datasets. |
| Files.FlattenBlock | files.py:19-23 | Dataset k occupies the rows from the total of those before it, consecutively and in its own order. |
| Files.VisitDatasets | files.py:9-17 | The datasets visited are, as a multiset, exactly those of a depth-first collection of every subtree in the worklist, and so are their rows: none is lost or repeated. |
| Files.VisitLevel | files.py:9-17 | Breadth first: a worklist's datasets come first, and its groups' children are visited after everything behind them. |
| Files.VisitByLevels | files.py:9-17 | The whole visit, one level at a time. |
| Files.ChildPaths | files.py:15-16 | A group's paths are its own path plus each key, in `keys()` order. |
| Files.LookupAppend | files.py:16 | Looking up `items[i] + "/" + key` looks up key in what `items[i]` names. |
| Files.ChildPathsResolve | files.py:15-16 | The paths appended for a group name exactly its children, in order. |
| Files.GroupStep | files.py:14-17 | Expanding a group shrinks the pending work and leaves the breadth-first visit unchanged. |
| Files.DatasetStep | files.py:11-13 | Collecting a dataset shrinks the pending work and takes the next dataset of the visit. |
| Files.AppendChildPaths | files.py:15-16 | The inner loop appends exactly the group's child paths. |
| Files.CollectDatasets | files.py:5-17 | The worklist loop raises KeyError when a given path names nothing. Otherwise it yields the datasets in breadth-first order and their total row count. |
| Files.CopyBlocks | files.py:18-23 | Copying each dataset into the next block of a zeroed array of `size` rows gives the concatenation of the datasets. |
| Files.DataMerge | files.py:4-24 | `datamerge` raises KeyError when a given path names nothing. Otherwise it returns the rows of every dataset under the paths, breadth first, one dataset after another. |
| Files.DecimalRoundTrip | files.py:35-37 | `int()` of a number's decimal name gives the number back. |
| Files.ScanKeys | files.py:32-38 | The key loop, with its early break, computes `SelectKeys`. |
| Files.SelectedInRange | files.py:33-38 | Every selected key is one of the keys and an integer within the limits. |
| Files.StopsAtFirstAbove | files.py:35-36 | The scan stops at the first key above lim[1], and what follows is never read. |
| Files.SelectsAllInRange | files.py:34-38 | With no key above lim[1], the scan selects exactly the keys from lim[0] on. |
| Files.NameOrderSkips | files.py:34-36 | Group names in name order need not be in numeric order: with "1", "10" and "2" and limits [0, 5], the key "2" is never selected. |
| Files.DescendAll | files.py:29-31 | The descent loop computes `Descend`, and where it arrives is well formed. |
| Files.WithLimits | files.py:27-28 | The default limits are appended exactly when the last argument is not a list. |
| Files.DataRead | files.py:26-39 | `dataread` computes `ReadResult`: IndexError for no arguments, then the descent, the key scan and the merge, with their errors. |
| Files.DefaultLimits | files.py:27-28 | Leaving the limits out reads the range [0, 9999]. |
| Files.ReadMerges | files.py:33-39 | The selected keys always name children, so the merge never raises KeyError. Its datasets and rows are, as multisets, exactly those of the subtrees under the selected children. |

## Left out

- Threads, processes, the semaphore and the queue (`InterruptSF`, `f_run`, `DataQueue.get(timeout)`, `start`, `join`, `close`): `DataProcessor.run` is a fold over the finite sequence of blocks delivered before the timeout. `ThreadedDataReader.run` is one pass per interrupt (`Samples.Drain`).
- Floating point:
  - the `convert_to_float` branch of `reg2num`;
  - `RANGE_DIVIDER`, `EARTH_GRAVITY_MS2` and the divisions in `getAxisValue`/`getFifoValues`.
  The model returns counts. Only the KeyError that the division raises for an unknown range is kept.
- pigpio, smbus and GPIO become an abstract register file plus the block-read result as parameters:
  - bus open and close, and `get_hardware_revision`;
  - GPIO modes, pull-ups and edge callbacks;
  - the `time.sleep` calls and the IOError handlers in accel.py (accel.py:308-310, 316-318, 325-327). They call `sys.exit`, but accel.py never imports `sys` (its imports are at accel.py:5-7), so they would raise NameError rather than exit.
  The hardware effect of RST (registers returning to their defaults) is not modelled; `restart` is its write only.
- `Device.Device.Open`: the pigpio connection failure (OSError) and the choice of I2C bus are left out. Only the WHO_AM_I check is modelled.
- `Device.Device.SetupThreadedFifoCallback`: the GPIO set-up and the creation and start of the reader and processor are left out. Only the register writes are modelled.
- The `Configuration` class and the `register.addr` module are not part of this model.
  - `get_set_params` and `get_unset_params` are parameters of the controller.
  - `Configuration()` and `update` are recorded as a log of the settings passed.
  - Register addresses are known only where accel.py gives them.
- `register/classes.py` is not part of this model: flags are plain (register, mask) pairs.
- `IIC.write_register`, `IIC.block_read`, `IIC.read_flag`, `IIC.close` and `Accel.readRegister`/`writeRegister`/`block_read` are the register file's byte operations, `Iic.BlockRead` and `Iic.CheckFlag` with an address lookup. They have no members of their own.
- `AccelDriver.Accel.InitCallback`: the GPIO callback registration between the last two writes is left out, and so is the GPIO release in `cleanup`.
- `int1_callback` prints; `Int1Report` returns the three values it prints instead.
- rss_client.py: sockets, JSON, heartbeats and `rss_client_messages` are left out. The `int(...)` conversions of the row fields are assumed to succeed (rows are integers), and the time-stamp column is carried but never compared.
- The h5py object model and numpy allocation are left out. A file is an immutable tree of groups and datasets with three-column integer rows. Looking up a name under a dataset raises KeyError in the model, where h5py may raise a different exception.
- `Files.DataMerge` and `Files.DataRead` require names to be distinct within each group, which HDF5 itself guarantees.
- `Files.ParseInt` accepts an optional sign and decimal digits. Python's `int()` also accepts surrounding whitespace and underscores between digits; those names are not modelled.
- `dataread` assumes `keys()` yields group names in increasing numeric order. h5py yields them in name order by default, so `Files.NameOrderSkips` shows a key within the limits being skipped. The model follows `keys()` order as given.

## Findings

| source | as written | input that shows it | evidently intended | confidence | as-written member | corrected member |
|---|---|---|---|---|---|---|
| accel.py:420-422 | x1 is corrected in place at line 420, so the tests at lines 421-422 see a value of at most 8191 and x2 and x3 are never sign-corrected | a burst with x readings -1, -1, 0 (bytes 0-1 and 6-7 = 0xFF 0xFC): x2 is reported as 16383 | each reading signed by its own word, as x1 is | not executed | AccelDriver.FifoValuesAsWritten, AccelDriver.FifoSecondNeverSigned | AccelDriver.FifoValues, AccelDriver.FifoValuesRoundTrip |
| rss_client.py:127-128 | `for row in b` while popping `b[0]` each time examines only ceil(n/2) rows and leaves the rest in `b` | six rows, five at rest and the last one far: nothing is kept, and the far row stays in `b` | every row popped and examined, and `b` left empty | not executed | RssClient.ParseAccelData, RssClient.HalfLeftBehind | RssClient.ParseAccelDataDrained |
| mma8451.py:93 | at bit depth 8 a drain reads 3 bytes per sample, but `prepare_data` decodes 6 bytes (two pairs per axis) per row | a FIFO count of 1 at bit depth 8: three bytes, IndexError; bytes 1,0,0,0,0,0 (two samples) come out as one row (64, 0, 0) | one signed byte per axis, three bytes per row | not executed | Samples.EightBitOddCountFails, Samples.EightBitPairsSamples | Samples.EightBitDrainDecodes, Samples.Signed8RoundTrip |
