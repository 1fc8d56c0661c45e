# HiSilicon clock, pin controller and watchdog drivers, modelled in Dafny

This project models four small HiSilicon drivers of U-Boot and proves
properties of each.

- **Clock-table registration** (`drivers/clk/hisilicon/clk.h`, `clk.c`).
  - The record types, and the three loops that hand fixed-rate, mux and gate
    tables to the common clock framework in table order. Each accepted clock
    is bound to its numeric id. A loop stops at the first failure and returns
    its error.
  - `hisi_clk_bind_reset`, which binds the companion reset driver under
    `name ++ ".reset"`.
  - The common clock framework is represented abstractly (class
    `HisiClk.Framework`). It keeps a map from name to clock, a map from id to
    name and the log of every name offered. A fixed decision function says,
    given the clocks registered so far, whether the next clock is accepted or
    refused with an error.
- **Hi3798MV200 clock tables and domain probes** (`clk-hi3798mv200.c`).
  - The four constant tables (15 fixed-rate, 4 mux, 31 core gates, 3 sysctrl
    gates) and lemmas about them: sizes, mux values that fit their fields,
    gate bits distinct per register and clear of the mux fields, every parent
    registered before its child, unique names.
  - The crg and sysctrl probes. They share the global `fixed_rate_registered`
    flag, so the fixed-rate table is registered successfully at most once
    across any sequence of probes. After a failed fixed-rate walk the flag
    stays clear, and the next probe offers the whole table again.
- **Generic 3-cell gate clock** (`drivers/clk/clk_hisi.c`).
  - The device tree specifier decode.
  - The read-modify-write of one bit with polarity inversion.
  - The probe's NULL check.
- **HiSTB pin controller** (`pinctrl-histb.h`, `pinctrl-histb.c`).
  - The pin word's six disjoint fields and the getters.
  - Pin multiplexing: set, by searching a function's setup table; get, by
    reverse lookup in the pin's function table with an `"UNKNOWN!"` fallback.
  - The bias, slew-rate, schmitt and drive-strength read-modify-writes, and
    the `pinconf_set` dispatch.
- **Watchdog** (`drivers/watchdog/hisi_wdt.c`).
  - The register block's layout: LOCK sits at 0xc00.
  - The unlock → update → lock sequences of start, stop, reset and
    expire-now.
  - The saturating timeout load.

How words and registers are represented:

- A 32-bit register word is a `seq<bool>` of length 32, bit 0 first
  (`Word32.Word`). `BIT`, `GENMASK`, `FIELD_PREP` and `FIELD_GET` are written
  out bit by bit.
- A device window is a map from byte address to word (`Word32.Mmio`), with
  `readl` and `writel` as methods.
- The watchdog's register block is an object with seven `u32` fields and a
  ghost log of the stores made to it.

## Model

| member | source | states |
|---|---|---|
| HisiClk.ClockData.constructor | drivers/clk/hisilicon/clk.h:14-16 | a domain's data is its register base alone, initially NULL |
| HisiClk.Init | drivers/clk/hisilicon/clk.c:15-22 | the remapped base is stored; the result is -EINVAL exactly when it is NULL, 0 otherwise |
| HisiClk.MuxMask | drivers/clk/hisilicon/clk.c:56 | the mask, as a 32-bit word, has exactly bits 0 to width - 1 set; its value is 2^width - 1 |
| HisiClk.FixedBatch | drivers/clk/hisilicon/clk.c:30-32 | entry i is offered with its own id, name and rate |
| HisiClk.MuxBatch | drivers/clk/hisilicon/clk.c:55-62 | entry i is offered at base + offset, with shift, parents, count, flags and translation table passed unchanged and the derived mask |
| HisiClk.GateBatch | drivers/clk/hisilicon/clk.c:84-91 | entry i is offered at base + offset with its bit index, its single (possibly NULL) parent and the one shared lock |
| HisiClk.Names | drivers/clk/hisilicon/clk.c:31 | the names offered, one per entry, in table order |
| HisiClk.WalkLogsPrefix | drivers/clk/hisilicon/clk.c:30-39 | a loop offers the names of a prefix of the table in table order, after what was offered before |
| HisiClk.WalkResult | drivers/clk/hisilicon/clk.c:30-43 | the result is 0 exactly when every entry was offered and accepted; otherwise it is negative, at least one entry was offered and not more than the table holds; an empty table returns 0 and changes nothing |
| HisiClk.WalkNoRollback | drivers/clk/hisilicon/clk.c:38-43 | nothing registered or bound before the loop is removed, even when it fails |
| HisiClk.WalkRegistersAll | drivers/clk/hisilicon/clk.c:30-40 | on success every entry's name is registered and its id bound |
| HisiClk.WalkRegistersEach | drivers/clk/hisilicon/clk.c:30-40 | on success, with distinct names, each entry's own clock is registered under its name |
| HisiClk.WalkBindsEach | drivers/clk/hisilicon/clk.c:38 | on success, with distinct ids, each `clks[i].id` is bound to entry i |
| HisiClk.WalkKeepsClock | drivers/clk/hisilicon/clk.c:30-39 | a registered clock whose name the rest of the table does not reuse is kept |
| HisiClk.WalkKeepsId | drivers/clk/hisilicon/clk.c:38 | a bound id that the rest of the table does not reuse keeps its binding |
| HisiClk.WalkAppend | drivers/clk/hisilicon/clk-hi3798mv200.c:179-187 | running two loops one after the other, the second only if the first returned 0, is one loop over the concatenated tables |
| HisiClk.WalkStopsAtFirstRefusal | drivers/clk/hisilicon/clk.c:33-43 | a failed loop accepted every entry before the refused one, returns that entry's error and offers nothing after it |
| HisiClk.WalkStep | drivers/clk/hisilicon/clk.c:30-39 | one iteration of the loop: offer entry i; on refusal return its error, otherwise bind its id and go on |
| HisiClk.Framework.constructor | drivers/clk/hisilicon/clk.c:31 | the framework starts with nothing registered, bound or offered |
| HisiClk.Framework.Register | drivers/clk/hisilicon/clk.c:31-37 | the name is logged; an accepted clock is registered and 0 returned, a refused one returns its error |
| HisiClk.Framework.Dm | drivers/clk/hisilicon/clk.c:38 | clk_dm binds the id to the clock |
| HisiClk.RegisterFixedRate | drivers/clk/hisilicon/clk.c:24-44 | the loop's registry and result are those of the walk over the fixed-rate table |
| HisiClk.RegisterMux | drivers/clk/hisilicon/clk.c:46-75 | the loop's registry and result are those of the walk over the mux entries at the domain's base |
| HisiClk.RegisterGate | drivers/clk/hisilicon/clk.c:77-104 | the loop's registry and result are those of the walk over the gate entries at the domain's base |
| HisiClk.ResetName | drivers/clk/hisilicon/clk.c:116-126 | the companion name is the device name followed by ".reset", 6 characters longer |
| HisiClk.ResetNameInjective | drivers/clk/hisilicon/clk.c:125-126 | distinct device names give distinct companion names |
| HisiClk.DriverModel.BindDriverToNode | drivers/clk/hisilicon/clk.c:129 | binding returns the driver model's outcome for the name and records the device only on success |
| HisiClk.BindReset | drivers/clk/hisilicon/clk.c:112-137 | -ENOMEM with no bind when malloc fails; otherwise the buffer of strlen(name) + 7 bytes holds exactly name ++ ".reset" and NUL, the bind's error is returned unchanged and the buffer freed, or 0 with the device bound under that name |
| Hi3798mv200.FixedNames | drivers/clk/hisilicon/clk-hi3798mv200.c:43-59 | the fixed-rate names in table order |
| Hi3798mv200.MuxNames | drivers/clk/hisilicon/clk-hi3798mv200.c:73-85 | the mux names in table order |
| Hi3798mv200.GateNames | drivers/clk/hisilicon/clk-hi3798mv200.c:87-157 | a gate table's names in table order |
| Hi3798mv200.TableSizes | drivers/clk/hisilicon/clk-hi3798mv200.c:43-228 | the ARRAY_SIZE values: 15 fixed-rate, 4 mux, 31 gate and 3 sysctrl entries |
| Hi3798mv200.MuxTablesFit | drivers/clk/hisilicon/clk-hi3798mv200.c:61-85 | each mux's count equals its parent list's and translation table's length; its field fits the word and every translation value fits the field |
| Hi3798mv200.MmcTableNotIdentity | drivers/clk/hisilicon/clk-hi3798mv200.c:61-63 | the mmc mux selects its fifth parent, "150m", with value 6 |
| Hi3798mv200.CoreSlotsMatch | drivers/clk/hisilicon/clk-hi3798mv200.c:87-157 | each core gate's register bit, as offset * 32 + bit, is the listed slot, and each bit index is below 32 |
| Hi3798mv200.CoreSlotsDistinct | drivers/clk/hisilicon/clk-hi3798mv200.c:87-157 | the 31 core gate slots are pairwise distinct |
| Hi3798mv200.CoreGateBits | drivers/clk/hisilicon/clk-hi3798mv200.c:87-157 | within each register offset the core gate bits are pairwise distinct and inside the word |
| Hi3798mv200.CoreGatesClearOfMuxFields | drivers/clk/hisilicon/clk-hi3798mv200.c:73-157 | no core gate bit lies in a mux field of the same register |
| Hi3798mv200.SysctrlGateBits | drivers/clk/hisilicon/clk-hi3798mv200.c:221-228 | the sysctrl gate bits (0x48 bits 4, 6, 12) are distinct |
| Hi3798mv200.NameListsMatch | drivers/clk/hisilicon/clk-hi3798mv200.c:43-157 | the four tables' names are the listed names, in order |
| Hi3798mv200.ListsDistinct | drivers/clk/hisilicon/clk-hi3798mv200.c:43-157 | no table repeats a name |
| Hi3798mv200.ListsDisjoint | drivers/clk/hisilicon/clk-hi3798mv200.c:43-157 | no two tables share a name |
| Hi3798mv200.NamesUnique | drivers/clk/hisilicon/clk-hi3798mv200.c:43-228 | no two clocks of the four tables share a name |
| Hi3798mv200.MuxParentsFixed | drivers/clk/hisilicon/clk-hi3798mv200.c:61-85 | every mux parent is a fixed-rate clock |
| Hi3798mv200.GateParentListMatch | drivers/clk/hisilicon/clk-hi3798mv200.c:87-157 | the core gates' parents are the listed names or NULL, in order |
| Hi3798mv200.GateParentsFirst | drivers/clk/hisilicon/clk-hi3798mv200.c:43-157 | every non-NULL core gate parent is registered before the gate: a fixed-rate or mux clock, or an earlier gate |
| Hi3798mv200.SysctrlParentsFixed | drivers/clk/hisilicon/clk-hi3798mv200.c:221-228 | every sysctrl gate has a parent, and it is a fixed-rate clock |
| Hi3798mv200.FixedOnce | drivers/clk/hisilicon/clk-hi3798mv200.c:170-177 | the fixed-rate entries are offered only when the flag is clear |
| Hi3798mv200.CoreProbeIsOneWalk | drivers/clk/hisilicon/clk-hi3798mv200.c:165-190 | the crg probe is one walk over fixed-rate (unless already registered), mux and gate entries, so the first failure is returned and nothing after it is offered |
| Hi3798mv200.SysctrlProbeIsOneWalk | drivers/clk/hisilicon/clk-hi3798mv200.c:230-249 | the sysctrl probe is one walk over fixed-rate (unless already registered) and the three sysctrl gates only |
| Hi3798mv200.ProbeFlag | drivers/clk/hisilicon/clk-hi3798mv200.c:170-177 | after a probe the flag is set exactly when it was set or the fixed-rate loop succeeded |
| Hi3798mv200.KeepsFixedRegistered | drivers/clk/hisilicon/clk-hi3798mv200.c:179-187 | later loops never unregister the fixed-rate clocks |
| Hi3798mv200.FixedStepRegisters | drivers/clk/hisilicon/clk-hi3798mv200.c:172-176 | a successful fixed-rate loop registers every fixed-rate clock |
| Hi3798mv200.ProbesKeepFlagSound | drivers/clk/hisilicon/clk-hi3798mv200.c:170-177 | the flag is set only when the fixed-rate clocks are registered, and both probes keep it so whether they succeed or fail |
| Hi3798mv200.FixedOnceNames | drivers/clk/hisilicon/clk-hi3798mv200.c:170-177 | the fixed-rate names are offered all or none |
| Hi3798mv200.CoreBatchNames | drivers/clk/hisilicon/clk-hi3798mv200.c:165-190 | the crg probe offers fixed-rate (or no), mux and core gate names, in that order |
| Hi3798mv200.SysctrlBatchNames | drivers/clk/hisilicon/clk-hi3798mv200.c:230-249 | the sysctrl probe offers fixed-rate (or no) and sysctrl gate names |
| Hi3798mv200.ProbeNamesDistinct | drivers/clk/hisilicon/clk-hi3798mv200.c:43-228 | neither probe offers a name twice |
| Hi3798mv200.CoreProbeRegistersTables | drivers/clk/hisilicon/clk-hi3798mv200.c:165-190 | after a successful crg probe every entry it offered is registered with its own clock and its id bound |
| Hi3798mv200.SysctrlProbeRegistersTables | drivers/clk/hisilicon/clk-hi3798mv200.c:230-249 | likewise after a successful sysctrl probe |
| Hi3798mv200.FixedRegisteredAtMostOnce | drivers/clk/hisilicon/clk-hi3798mv200.c:42 | across any sequence of crg and sysctrl probes the fixed-rate table is registered successfully at most once, and once exactly when the flag ends set having started clear |
| Hi3798mv200.RunKeepsFlag | drivers/clk/hisilicon/clk-hi3798mv200.c:42 | once set, the flag stays set |
| Hi3798mv200.Driver.constructor | drivers/clk/hisilicon/clk-hi3798mv200.c:42 | the flag starts clear |
| Hi3798mv200.Driver.ClkRegister | drivers/clk/hisilicon/clk-hi3798mv200.c:165-190 | the method's flag, registry and result are the crg probe's |
| Hi3798mv200.Driver.SysctrlClkRegister | drivers/clk/hisilicon/clk-hi3798mv200.c:230-249 | the method's flag, registry and result are the sysctrl probe's |
| Hi3798mv200.ClkBind | drivers/clk/hisilicon/clk-hi3798mv200.c:192-196 | the reset driver is bound under the fixed name "hisilicon_reset" and the bind's result returned |
| ClkHisi.Clk.constructor | drivers/clk/clk_hisi.c:39-53 | a clock starts with offset, bit and flag 0 |
| ClkHisi.OfXlate | drivers/clk/clk_hisi.c:39-53 | any count other than 3 cells is -EINVAL and leaves the clock alone; 3 cells become offset, bit and flag, in that order, and 0 is returned |
| ClkHisi.EnabledWord | drivers/clk/clk_hisi.c:29-33 | bit `id` is set when flag bit 0 is clear and cleared when it is set; every other bit is as read |
| ClkHisi.DisabledWord | drivers/clk/clk_hisi.c:14-18 | bit `id` gets the opposite level; every other bit is as read |
| ClkHisi.OutOfRangeBit | drivers/clk/clk_hisi.c:14-18 | a bit index of 32 or more changes nothing |
| ClkHisi.EnableIdempotent | drivers/clk/clk_hisi.c:24-37 | enabling twice is enabling once |
| ClkHisi.DisableIdempotent | drivers/clk/clk_hisi.c:9-22 | disabling twice is disabling once |
| ClkHisi.LastCallWins | drivers/clk/clk_hisi.c:9-37 | disable after enable is disable, and enable after disable is enable |
| ClkHisi.OppositePolarity | drivers/clk/clk_hisi.c:15-18 | disable is enable with the polarity flipped |
| ClkHisi.EnableEffect | drivers/clk/clk_hisi.c:29-34 | only the word at base + offset changes, and within it only bit `id`, to the enabled level |
| ClkHisi.DisableEffect | drivers/clk/clk_hisi.c:14-19 | only the word at base + offset changes, and within it only bit `id`, to the disabled level |
| ClkHisi.AsWrittenEnableEffect | drivers/clk/clk_hisi.c:29-34 | the swapped writel stores the register's address, cut to 32 bits, at the address given by the computed word; no other address changes |
| ClkHisi.AsWrittenDisableEffect | drivers/clk/clk_hisi.c:14-19 | likewise for the disable's swapped writel |
| ClkHisi.SwappedWritelCounterexample | drivers/clk/clk_hisi.c:34 | with a clear register and specifier (0, 0, 0) the as-written enable leaves the register clear and writes its address to address 1; the intended enable sets bit 0 and touches nothing else |
| ClkHisi.SwappedWritelDisableCounterexample | drivers/clk/clk_hisi.c:19 | with only bit 0 of the register set and specifier (0, 0, 0) the as-written disable leaves bit 0 set and writes the register's address to address 0; the intended disable clears the register and touches nothing else |
| ClkHisi.Priv.constructor | drivers/clk/clk_hisi.c:5-7 | the base starts NULL |
| ClkHisi.Enable | drivers/clk/clk_hisi.c:24-37 | returns 0 and has exactly the enable effect on the window |
| ClkHisi.Disable | drivers/clk/clk_hisi.c:9-22 | returns 0 and has exactly the disable effect on the window |
| ClkHisi.Probe | drivers/clk/clk_hisi.c:66-75 | the base is stored; -ENOMEM exactly when it is NULL, 0 otherwise |
| HistbPinctrl.FieldsDisjoint | drivers/pinctrl/hisilicon/pinctrl-histb.h:7-12 | the SCHMITT, PULLDOWN, PULLUP, SLEWRATE, DRV and FUNC fields share no bit |
| HistbPinctrl.HistbPinFunc | drivers/pinctrl/hisilicon/pinctrl-histb.h:96-101 | pins_num is the length of the setup table, so the descriptor meets the function part of the driver data's validity; the id, name and table are kept |
| HistbPinctrl.Priv.constructor | drivers/pinctrl/hisilicon/pinctrl-histb.h:112-118 | the counts are the table lengths and the base starts NULL; with valid pins and descriptors built as HISTB_PIN_FUNC builds them the data is valid |
| HistbPinctrl.Priv.PinReg | drivers/pinctrl/hisilicon/pinctrl-histb.c:56 | a pin's word is at base + 4 * number |
| HistbPinctrl.GetPinsCount | drivers/pinctrl/hisilicon/pinctrl-histb.c:20-25 | the number of pins |
| HistbPinctrl.GetPinName | drivers/pinctrl/hisilicon/pinctrl-histb.c:27-32 | the selected pin's name |
| HistbPinctrl.GetFunctionsCount | drivers/pinctrl/hisilicon/pinctrl-histb.c:34-39 | the number of functions |
| HistbPinctrl.GetFunctionName | drivers/pinctrl/hisilicon/pinctrl-histb.c:41-46 | the selected function's name |
| HistbPinctrl.FirstSetup | drivers/pinctrl/hisilicon/pinctrl-histb.c:59-62 | the first setup entry naming the pin, and none exactly when no entry names it |
| HistbPinctrl.MuxWord | drivers/pinctrl/hisilicon/pinctrl-histb.c:63-67 | bits 2:0 become the select pattern; the other bits are as read, ORed with the pattern |
| HistbPinctrl.MuxWordKeepsOtherFields | drivers/pinctrl/hisilicon/pinctrl-histb.c:63-67 | a pattern that fits the field changes no bit outside it |
| HistbPinctrl.MuxWordReadsBack | drivers/pinctrl/hisilicon/pinctrl-histb.c:63-67 | the function field then reads back as the pattern |
| HistbPinctrl.PinmuxSet | drivers/pinctrl/hisilicon/pinctrl-histb.c:48-78 | the first matching setup entry's pattern is written to the pin's word; with none, -EINVAL and no write |
| HistbPinctrl.FirstMux | drivers/pinctrl/hisilicon/pinctrl-histb.c:232-240 | the first live function table entry whose bits match, and none exactly when the NULL terminator comes before any match |
| HistbPinctrl.MuxingName | drivers/pinctrl/hisilicon/pinctrl-histb.c:232-245 | the matching entry's name, or "UNKNOWN!" |
| HistbPinctrl.GetPinMuxing | drivers/pinctrl/hisilicon/pinctrl-histb.c:222-248 | reports the name for the pin's bits 2:0, returns 0 and writes nothing |
| HistbPinctrl.FirstMuxSkip | drivers/pinctrl/hisilicon/pinctrl-histb.c:232-240 | live non-matching entries can be skipped |
| HistbPinctrl.PinmuxSetThenGet | drivers/pinctrl/hisilicon/pinctrl-histb.c:48-78 | after setting a pattern that fits the field, get reports the first function with that pattern |
| HistbPinctrl.BiasWord | drivers/pinctrl/hisilicon/pinctrl-histb.c:103-116 | bit 12 is set exactly for pull-up and bit 13 exactly for pull-down; no other bit changes |
| HistbPinctrl.SetBias | drivers/pinctrl/hisilicon/pinctrl-histb.c:96-119 | returns 0 and writes the bias word to the pin's word only |
| HistbPinctrl.FlagWord | drivers/pinctrl/hisilicon/pinctrl-histb.c:128-139 | the chosen bit gets the requested level; no other bit changes |
| HistbPinctrl.SetSlewRate | drivers/pinctrl/hisilicon/pinctrl-histb.c:121-140 | argument 1 sets bit 8 and 0 clears it with result 0; any other argument is -EINVAL with no write |
| HistbPinctrl.SetSchmitt | drivers/pinctrl/hisilicon/pinctrl-histb.c:142-161 | argument 1 sets bit 14 and 0 clears it with result 0; any other argument is -EINVAL with no write |
| HistbPinctrl.FirstZero | drivers/pinctrl/hisilicon/pinctrl-histb.h:43 | the position of the drive table's terminating 0 |
| HistbPinctrl.DriveIndex | drivers/pinctrl/hisilicon/pinctrl-histb.c:185-189 | the first index whose strength is at most the argument; when every live entry exceeds it, the last live index |
| HistbPinctrl.FirstAtMost | drivers/pinctrl/hisilicon/pinctrl-histb.c:185-186 | the first index from `from` on whose entry is at most the argument |
| HistbPinctrl.DriveIndexIsBestFit | drivers/pinctrl/hisilicon/pinctrl-histb.c:182-189 | on a descending table the chosen strength is the largest not above the argument, or the smallest when none fits |
| HistbPinctrl.DriveWord | drivers/pinctrl/hisilicon/pinctrl-histb.c:191-192 | bits 7:4 get the low four bits of the index; no other bit changes |
| HistbPinctrl.DriveWordReadsBack | drivers/pinctrl/hisilicon/pinctrl-histb.h:11 | indices 0 to 15 read back from the drive field as themselves |
| HistbPinctrl.DriveWordOfMinusOne | drivers/pinctrl/hisilicon/pinctrl-histb.c:188-192 | index -1, from a table with only its terminator, fills the drive field with ones |
| HistbPinctrl.SetDriveStrength | drivers/pinctrl/hisilicon/pinctrl-histb.c:163-198 | argument 0 is -EINVAL and a missing table -ENOENT, both with no write; otherwise 0 and the drive word for the selected index |
| HistbPinctrl.FirstAtMostIsFirst | drivers/pinctrl/hisilicon/pinctrl-histb.c:185-186 | the loop's stopping index is the first entry at most the argument |
| HistbPinctrl.PinconfParamsHandled | drivers/pinctrl/hisilicon/pinctrl-histb.c:80-88 | the seven advertised properties all map to parameters the driver handles |
| HistbPinctrl.PinconfSet | drivers/pinctrl/hisilicon/pinctrl-histb.c:200-220 | each of the six known parameters has its setter's effect; any other is -EINVAL with no write |
| HistbPinctrl.OfToPlat | drivers/pinctrl/hisilicon/pinctrl-histb.c:263-276 | the base is stored; -EINVAL exactly when it is NULL |
| HisiWdt.OffsetFrom | drivers/watchdog/hisi_wdt.c:38-47 | a register's offset is a multiple of 4, and there is none exactly when the struct has no such member |
| HisiWdt.RegisterOffsets | drivers/watchdog/hisi_wdt.c:38-44 | load, value, control, intclr, ris and mis sit at 0x0 to 0x14 |
| HisiWdt.LockOffset | drivers/watchdog/hisi_wdt.c:45-46 | lock sits at 0xc00, after 762 reserved words |
| HisiWdt.Store | drivers/watchdog/hisi_wdt.c:38-47 | the stored register reads back the value and no other register changes |
| HisiWdt.WdgReg.constructor | drivers/watchdog/hisi_wdt.c:38-47 | the block starts with the given control and every other register 0, with no store made |
| HisiWdt.WdgReg.Write | drivers/watchdog/hisi_wdt.c:57 | a store changes only its register and is logged |
| HisiWdt.Unlock | drivers/watchdog/hisi_wdt.c:55-58 | the magic 0x1ACCE551 is stored to lock and nothing else changes |
| HisiWdt.Lock | drivers/watchdog/hisi_wdt.c:60-64 | 0 is stored to lock and nothing else changes |
| HisiWdt.MulU64U32Div | drivers/watchdog/hisi_wdt.c:75 | the exact quotient when it fits in 64 bits |
| HisiWdt.AsWrittenLoad | drivers/watchdog/hisi_wdt.c:74-79 | the load as computed: UINT32_MAX exactly when the quotient cut to 64 bits reaches it, that cut quotient otherwise |
| HisiWdt.LoadTicks | drivers/watchdog/hisi_wdt.c:74-79 | the load is UINT32_MAX exactly when timeout_ms * rate / 1000 reaches it, and that quotient otherwise |
| HisiWdt.AsWrittenLoadAgrees | drivers/watchdog/hisi_wdt.c:74-79 | without wrap-around the as-written load is the intended one |
| HisiWdt.LoadWrapCounterexample | drivers/watchdog/hisi_wdt.c:74-79 | 768614336404565 ms at 24 MHz loads 8384 as written, where UINT32_MAX is meant |
| HisiWdt.RateArg | drivers/watchdog/hisi_wdt.c:72-75 | a rate below 2^32 reaches mul_u64_u32_div unchanged |
| HisiWdt.ExpireNowLoad | drivers/watchdog/hisi_wdt.c:118-121 | a 1 ms timeout loads rate / 1000 ticks |
| HisiWdt.StartControl | drivers/watchdog/hisi_wdt.c:84 | INT_EN and RES_EN are set and every other control bit is kept |
| HisiWdt.StopControl | drivers/watchdog/hisi_wdt.c:97 | INT_EN is cleared and RES_EN and every other control bit are kept |
| HisiWdt.StopAfterStart | drivers/watchdog/hisi_wdt.c:84-97 | a stop after a start leaves RES_EN set and INT_EN clear |
| HisiWdt.OperationsBracketed | drivers/watchdog/hisi_wdt.c:81-113 | start, stop and reset each store the magic to lock first, 0 to lock last and lock nowhere in between |
| HisiWdt.Start | drivers/watchdog/hisi_wdt.c:66-89 | returns 0; unlock, the intended saturated load (the 64-bit wrap of line 75 is corrected, see Findings), the control update and lock are stored in that order; load, control and lock hold their new values and nothing else changes; whenever timeout_ms * rate / 1000 is below 2^64 the load is the one the code as written computes |
| HisiWdt.Stop | drivers/watchdog/hisi_wdt.c:91-102 | returns 0; unlock, the cleared INT_EN and lock are stored; only control and lock change |
| HisiWdt.Reset | drivers/watchdog/hisi_wdt.c:104-116 | returns 0; unlock, 0 to intclr and lock are stored; only intclr and lock change |
| HisiWdt.ExpireNow | drivers/watchdog/hisi_wdt.c:118-121 | exactly a start with a 1 ms timeout: load rate / 1000 |

## Left out

- The common clock framework behind `clk_register_fixed_rate`, `clk_register_mux_table`, `clk_register_gate` and `clk_dm` is not part of this model. It is the abstract `Framework`: any decision function of the registry and the clock offered. Mux selection, gate read-modify-write, rate forwarding under `CLK_SET_RATE_PARENT` and `IS_ERR`/`PTR_ERR` beyond "negative errno" are not modelled.
- The spinlock of `clk.c` is only passed through. It is the single value `ClkLock`, with no locking or concurrency.
- `HISTB_*` clock ids and `CLK_SET_RATE_PARENT` come from headers that are not part of this model. They are constants without a value. The `HI3798MV200_*` ids defined in `clk-hi3798mv200.c` keep their values.
- HisiClk.RegisterMux: requires every width to be below 32; widths of 32 or more are excluded. Every table uses widths 1 to 3 (`MuxTablesFit`).
- `device_bind_driver_to_node` is the abstract `DriverModel`, whose outcome is a fixed function of the device name. `dev_ofnode`, `dev_remap_addr` and `dev_get_priv` become parameters; the remapped address is an input, 0 being NULL.
- The `U_BOOT_DRIVER` blocks, `udevice_id` tables, ops tables and the `*_clk_init`/`*_probe` wrappers that only forward a call are not modelled.
- Logging (`pr_err`, `dev_err`, `dev_warn`, `debug`, `log_msg_ret`) is left out; `log_msg_ret` returns its argument.
- HisiClk.BindReset: malloc's success is an input, and the freed buffer is represented by returning no buffer.
- `clk_hisi.c` has no registered enable/disable ops. Its ops table names `hisi_clk_assert` and `hisi_clk_deassert`, which it never defines, and two functions lack a return type. `BITS` is undefined; it is taken as `BIT` cut to the 32-bit word. `Enable` and `Disable` model the two functions as their authors evidently meant them.
- `get_pin_muxing` writes its name with `strlcpy` into a buffer of given size. The model returns the whole name; truncation to the buffer size is not modelled.
- The `HISTB_PIN_FLAG_*` pin flags are never checked by the driver, and the model does not check them either. The `HISTB_PIN` initializer macro is not modelled; pins are built from the datatype directly.
- `PIN_CONFIG_*` parameters are a datatype, not their numeric codes. `pinctrl_generic` parsing of the property table is not modelled.
- The watchdog's LOCK read values (`HISI_WDG_LOCK_WA`, `HISI_WDG_LOCK_RO`) and the RIS/MIS bits are constants the driver never uses. What the hardware does while locked is not modelled: every store takes effect.
- The watchdog probe is not modelled, nor is clock and reset acquisition (`devm_clk_get`, `reset_*`, `udelay`). `clk_get_rate` is an input; `RateArg` cuts it to 32 bits as `mul_u64_u32_div` receives it.
- HisiWdt.Start: loads `LoadTicks`, the load without the 64-bit wrap of `mul_u64_u32_div` at hisi_wdt.c:75. The load as written is `AsWrittenLoad`; `Start` ensures the two agree whenever timeout_ms * rate / 1000 is below 2^64, and the inputs where they differ are those of the Findings row. `ExpireNow` uses a 1 ms timeout, which never reaches the wrap.
- HisiWdt.WdgReg: the log of stores is ghost; it states the order of the stores, which the hardware sees.
- Unmapped addresses of a device window read as zero.
- The fixed-rate entry "166p5m" has rate 165000000 in the source. The model keeps that value.
- The other files of the repository (USB glue, PHY, board and memory-map files, the serial prototype) are not part of this model.

## Findings

| source | as written | input that shows it | evidently intended | confidence | as-written member | corrected member |
|---|---|---|---|---|---|---|
| drivers/clk/clk_hisi.c:19 | the disable's `writel(priv->base + clk->data, val)` passes the address as the value and the value as the address | a register at address 1 holding only bit 0 and specifier (0, 0, 0): disable stores 1 at address 0 and leaves bit 0 set | `writel(val, priv->base + clk->data)`: the register is cleared | not executed | ClkHisi.SwappedWritelDisableCounterexample | ClkHisi.Disable |
| drivers/clk/clk_hisi.c:34 | the enable's `writel(priv->base + clk->data, val)` passes the address as the value and the value as the address | a clear register at address 2 and specifier (0, 0, 0): enable stores 2 at address 1 and leaves the register clear | `writel(val, priv->base + clk->data)`: bit 0 of the register is set | not executed | ClkHisi.SwappedWritelCounterexample | ClkHisi.Enable |
| drivers/watchdog/hisi_wdt.c:75 | `mul_u64_u32_div` returns the quotient in 64 bits, so a quotient of 2^64 or more wraps before the saturation test | timeout_ms 768614336404565 at 24000000 Hz: the load is 8384 ticks | the load saturates at UINT32_MAX | not executed | HisiWdt.LoadWrapCounterexample | HisiWdt.LoadTicks |
