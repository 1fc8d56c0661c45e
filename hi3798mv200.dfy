/**
 * The Hi3798MV200 clock and reset generator (drivers/clk/hisilicon/clk-hi3798mv200.c):
 * its constant clock tables, the global fixed_rate_registered flag, and the
 * probes of its two clock domains, "crg" (core) and "sysctrl".
 */
module Hi3798mv200 {
  import opened Common
  import opened HisiClk

  // ---------------------------------------------------------------------
  // Clock ids
  // ---------------------------------------------------------------------

  // The inner ids the file defines itself, from 64 up.
  const InnerClkOffset: nat := 64
  const Fixed24M: nat := 65
  const Fixed25M: nat := 66
  const Fixed50M: nat := 67
  const Fixed75M: nat := 68
  const Fixed100M: nat := 69
  const Fixed150M: nat := 70
  const Fixed200M: nat := 71
  const Fixed250M: nat := 72
  const Fixed300M: nat := 73
  const Fixed400M: nat := 74
  const MmcMux: nat := 75
  const EthPubClk: nat := 76
  const EthBusClk: nat := 77
  const EthBus0Clk: nat := 78
  const EthBus1Clk: nat := 79
  const Combphy1Mux: nat := 80
  const Fixed12M: nat := 81
  const Fixed48M: nat := 82
  const Fixed60M: nat := 83
  const Fixed166p5M: nat := 84
  const Sdio0Mux: nat := 85
  const Combphy0Mux: nat := 86
  const Sdio1Mux: nat := 87

  // The HISTB_* ids and the CLK_SET_RATE_PARENT flag come from headers
  // (dt-bindings/clock/histb-clock.h, linux/clk-provider.h) that are not part
  // of this model; their values are left unspecified.
  const HistbOscClk: nat
  const HistbApbClk: nat
  const HistbAhbClk: nat
  const HistbSdio0BiuClk: nat
  const HistbSdio0CiuClk: nat
  const HistbMmcBiuClk: nat
  const HistbMmcCiuClk: nat
  const HistbEth0MacClk: nat
  const HistbEth0MacifClk: nat
  const HistbEth1MacClk: nat
  const HistbEth1MacifClk: nat
  const HistbCombphy0Clk: nat
  const HistbUsb2BusClk: nat
  const HistbUsb2PhyClk: nat
  const HistbUsb212mClk: nat
  const HistbUsb248mClk: nat
  const HistbUsb2UtmiClk: nat
  const HistbUsb2OtgUtmiClk: nat
  const HistbUsb2Phy1RefClk: nat
  const HistbUsb2Phy2RefClk: nat
  const HistbUsb3BusClk: nat
  const HistbUsb3UtmiClk: nat
  const HistbUsb3PipeClk: nat
  const HistbUsb3SuspendClk: nat
  const HistbUsb3BusClk1: nat
  const HistbUsb3UtmiClk1: nat
  const HistbUsb3PipeClk1: nat
  const HistbUsb3SuspendClk1: nat
  const HistbSdio1BiuClk: nat
  const HistbSdio1CiuClk: nat
  const HistbIrClk: nat
  const HistbTimer01Clk: nat
  const HistbUart0Clk: nat
  const ClkSetRateParent: nat

  // ---------------------------------------------------------------------
  // The core domain's tables
  // ---------------------------------------------------------------------

  const FixedRateClks: seq<FixedRateClock> := [
    FixedRateClock(HistbOscClk, "clk_osc", 24000000),
    FixedRateClock(HistbApbClk, "clk_apb", 100000000),
    FixedRateClock(HistbAhbClk, "clk_ahb", 200000000),
    FixedRateClock(Fixed12M, "12m", 12000000),
    FixedRateClock(Fixed24M, "24m", 24000000),
    FixedRateClock(Fixed25M, "25m", 25000000),
    FixedRateClock(Fixed48M, "48m", 48000000),
    FixedRateClock(Fixed50M, "50m", 50000000),
    FixedRateClock(Fixed60M, "60m", 60000000),
    FixedRateClock(Fixed75M, "75m", 75000000),
    FixedRateClock(Fixed100M, "100m", 100000000),
    FixedRateClock(Fixed150M, "150m", 150000000),
    FixedRateClock(Fixed166p5M, "166p5m", 165000000),
    FixedRateClock(Fixed200M, "200m", 200000000),
    FixedRateClock(Fixed250M, "250m", 250000000)
  ]

  const MmcMuxParents: seq<string> := ["100m", "50m", "25m", "200m", "150m"]
  const MmcMuxTable: seq<u32> := [0, 1, 2, 3, 6]
  const ComphyMuxParents: seq<string> := ["25m", "100m"]
  const ComphyMuxTable: seq<u32> := [0, 1]
  const SdioMuxParents: seq<string> := ["100m", "50m", "150m", "166p5m"]
  const SdioMuxTable: seq<u32> := [0, 1, 2, 3]

  /** num_parents is ARRAY_SIZE of the parent list. */
  const MuxClks: seq<MuxClock> := [
    MuxClock(MmcMux, "mmc_mux", MmcMuxParents, |MmcMuxParents|,
             ClkSetRateParent, 0xa0, 8, 3, 0, MmcMuxTable),
    MuxClock(Combphy0Mux, "combphy0_mux", ComphyMuxParents, |ComphyMuxParents|,
             ClkSetRateParent, 0x188, 3, 1, 0, ComphyMuxTable),
    MuxClock(Sdio0Mux, "sdio0_mux", SdioMuxParents, |SdioMuxParents|,
             ClkSetRateParent, 0x9c, 8, 2, 0, SdioMuxTable),
    MuxClock(Sdio1Mux, "sdio1_mux", SdioMuxParents, |SdioMuxParents|,
             ClkSetRateParent, 0x28c, 8, 2, 0, SdioMuxTable)
  ]

  const GateClks: seq<GateClock> := [
    GateClock(HistbSdio0BiuClk, "clk_sdio0_biu", Some("200m"), ClkSetRateParent, 0x9c, 0, 0),
    GateClock(HistbSdio0CiuClk, "clk_sdio0_ciu", Some("sdio0_mux"), ClkSetRateParent, 0x9c, 1, 0),
    GateClock(HistbMmcBiuClk, "clk_mmc_biu", Some("200m"), ClkSetRateParent, 0xa0, 0, 0),
    GateClock(HistbMmcCiuClk, "clk_mmc_ciu", Some("mmc_mux"), ClkSetRateParent, 0xa0, 1, 0),
    GateClock(EthPubClk, "clk_pub", None, ClkSetRateParent, 0xcc, 5, 0),
    GateClock(EthBusClk, "clk_bus", Some("clk_pub"), ClkSetRateParent, 0xcc, 0, 0),
    GateClock(EthBus0Clk, "clk_bus_m0", Some("clk_bus"), ClkSetRateParent, 0xcc, 1, 0),
    GateClock(EthBus1Clk, "clk_bus_m1", Some("clk_bus"), ClkSetRateParent, 0xcc, 2, 0),
    GateClock(HistbEth0MacClk, "clk_mac0", Some("clk_bus_m0"), ClkSetRateParent, 0xcc, 3, 0),
    GateClock(HistbEth0MacifClk, "clk_macif0", Some("clk_bus_m0"), ClkSetRateParent, 0xcc, 24, 0),
    GateClock(HistbEth1MacClk, "clk_mac1", Some("clk_bus_m1"), ClkSetRateParent, 0xcc, 4, 0),
    GateClock(HistbEth1MacifClk, "clk_macif1", Some("clk_bus_m1"), ClkSetRateParent, 0xcc, 25, 0),
    GateClock(HistbCombphy0Clk, "clk_combphy0", Some("combphy0_mux"), ClkSetRateParent, 0x188, 0, 0),
    GateClock(HistbUsb2BusClk, "clk_u2_bus", Some("clk_ahb"), ClkSetRateParent, 0xb8, 0, 0),
    GateClock(HistbUsb2PhyClk, "clk_u2_phy", Some("60m"), ClkSetRateParent, 0xb8, 4, 0),
    GateClock(HistbUsb212mClk, "clk_u2_12m", Some("12m"), ClkSetRateParent, 0xb8, 2, 0),
    GateClock(HistbUsb248mClk, "clk_u2_48m", Some("48m"), ClkSetRateParent, 0xb8, 1, 0),
    GateClock(HistbUsb2UtmiClk, "clk_u2_utmi", Some("60m"), ClkSetRateParent, 0xb8, 5, 0),
    GateClock(HistbUsb2OtgUtmiClk, "clk_u2_otg_utmi", Some("60m"), ClkSetRateParent, 0xb8, 3, 0),
    GateClock(HistbUsb2Phy1RefClk, "clk_u2_phy1_ref", Some("24m"), ClkSetRateParent, 0xbc, 0, 0),
    GateClock(HistbUsb2Phy2RefClk, "clk_u2_phy2_ref", Some("24m"), ClkSetRateParent, 0xbc, 2, 0),
    GateClock(HistbUsb3BusClk, "clk_u3_bus", None, ClkSetRateParent, 0xb0, 0, 0),
    GateClock(HistbUsb3UtmiClk, "clk_u3_utmi", None, ClkSetRateParent, 0xb0, 4, 0),
    GateClock(HistbUsb3PipeClk, "clk_u3_pipe", None, ClkSetRateParent, 0xb0, 3, 0),
    GateClock(HistbUsb3SuspendClk, "clk_u3_suspend", None, ClkSetRateParent, 0xb0, 2, 0),
    GateClock(HistbUsb3BusClk1, "clk_u3_bus1", None, ClkSetRateParent, 0xb0, 16, 0),
    GateClock(HistbUsb3UtmiClk1, "clk_u3_utmi1", None, ClkSetRateParent, 0xb0, 20, 0),
    GateClock(HistbUsb3PipeClk1, "clk_u3_pipe1", None, ClkSetRateParent, 0xb0, 19, 0),
    GateClock(HistbUsb3SuspendClk1, "clk_u3_suspend1", None, ClkSetRateParent, 0xb0, 18, 0),
    GateClock(HistbSdio1BiuClk, "clk_sdio1_biu", Some("200m"), ClkSetRateParent, 0x28c, 0, 0),
    GateClock(HistbSdio1CiuClk, "clk_sdio1_ciu", Some("sdio1_mux"), ClkSetRateParent, 0x28c, 1, 0)
  ]

  // ---------------------------------------------------------------------
  // The sysctrl domain's table
  // ---------------------------------------------------------------------

  const SysctrlGateClks: seq<GateClock> := [
    GateClock(HistbIrClk, "clk_ir", Some("24m"), ClkSetRateParent, 0x48, 4, 0),
    GateClock(HistbTimer01Clk, "clk_timer01", Some("24m"), ClkSetRateParent, 0x48, 6, 0),
    GateClock(HistbUart0Clk, "clk_uart0", Some("75m"), ClkSetRateParent, 0x48, 12, 0)
  ]

  // ---------------------------------------------------------------------
  // Properties of the tables
  // ---------------------------------------------------------------------

  function FixedNames(): (ns: seq<string>)
    ensures |ns| == |FixedRateClks| && forall i :: 0 <= i < |ns| ==> ns[i] == FixedRateClks[i].name
  {
    seq(|FixedRateClks|, i requires 0 <= i < |FixedRateClks| => FixedRateClks[i].name)
  }

  function MuxNames(): (ns: seq<string>)
    ensures |ns| == |MuxClks| && forall i :: 0 <= i < |ns| ==> ns[i] == MuxClks[i].name
  {
    seq(|MuxClks|, i requires 0 <= i < |MuxClks| => MuxClks[i].name)
  }

  function GateNames(gs: seq<GateClock>): (ns: seq<string>)
    ensures |ns| == |gs| && forall i :: 0 <= i < |ns| ==> ns[i] == gs[i].name
  {
    seq(|gs|, i requires 0 <= i < |gs| => gs[i].name)
  }

  /** The table sizes that the ARRAY_SIZE arguments pass. */
  lemma TableSizes()
    ensures |FixedRateClks| == 15 && |MuxClks| == 4 && |GateClks| == 31 && |SysctrlGateClks| == 3
  {
  }

  /** Every mux's parent count is its parent list's length, its translation
      table is as long, its field is narrower than a word and every
      translation value fits the field. */
  lemma MuxTablesFit()
    ensures forall m :: m in MuxClks ==>
      && m.numParents as int == |m.parentNames| == |m.table|
      && m.width < 32 && m.shift as int + m.width as int <= 32
      && forall v :: v in m.table ==> v as int < Pow2(m.width)
  {
  }

  /** The mmc translation is not the identity: the fifth parent, "150m", is selected by value 6. */
  lemma MmcTableNotIdentity()
    ensures MuxClks[0].name == "mmc_mux"
    ensures MuxClks[0].parentNames[4] == "150m" && MuxClks[0].table[4] == 6
  {
  }

  /** A gate's register bit as one number: offset * 32 + bit. */
  function Slot(g: GateClock): int { g.offset * 32 + g.bitIdx as int }

  /** The core gates' slots, table order, in two halves (the proofs below
      compare against these). */
  ghost const CoreSlotsLow: seq<int> := [4992, 4993, 5120, 5121, 6533, 6528, 6529, 6530, 6531, 6552, 6532, 6553, 12544, 5888, 5892, 5890]
  ghost const CoreSlotsHigh: seq<int> := [5889, 5893, 5891, 6016, 6018, 5632, 5636, 5635, 5634, 5648, 5652, 5651, 5650, 20864, 20865]

  lemma CoreSlotsMatch()
    ensures |CoreSlotsLow + CoreSlotsHigh| == |GateClks|
    ensures forall i :: 0 <= i < |GateClks| ==>
      Slot(GateClks[i]) == (CoreSlotsLow + CoreSlotsHigh)[i] && GateClks[i].bitIdx < 32
  {
    SlotsMatchFirst();
    SlotsMatchSecond();
    SlotsMatchThird();
    SlotsMatchFourth();
  }

  // The four quarters of the gate table, each checked on its own.
  lemma SlotsMatchFirst()
    ensures forall i :: 0 <= i < 8 ==> Slot(GateClks[i]) == CoreSlotsLow[i] && GateClks[i].bitIdx < 32
  {
  }
  lemma SlotsMatchSecond()
    ensures forall i :: 8 <= i < 16 ==> Slot(GateClks[i]) == CoreSlotsLow[i] && GateClks[i].bitIdx < 32
  {
  }
  lemma SlotsMatchThird()
    ensures forall i :: 16 <= i < 24 ==> Slot(GateClks[i]) == CoreSlotsHigh[i - 16] && GateClks[i].bitIdx < 32
  {
  }
  lemma SlotsMatchFourth()
    ensures forall i :: 24 <= i < 31 ==> Slot(GateClks[i]) == CoreSlotsHigh[i - 16] && GateClks[i].bitIdx < 32
  {
  }
  /** Within one register, no two gates share a bit, and every bit lies within the 32-bit word. */
  ghost predicate GateBitsDistinct(gs: seq<GateClock>)
  {
    && (forall i :: 0 <= i < |gs| ==> gs[i].bitIdx < 32)
    && forall i, j :: 0 <= i < j < |gs| && gs[i].offset == gs[j].offset ==> gs[i].bitIdx != gs[j].bitIdx
  }

  /** No gate bit lies inside a mux field of the same register. */
  ghost predicate GatesClearOfMuxFields(gs: seq<GateClock>, ms: seq<MuxClock>)
  {
    forall i, j :: 0 <= i < |gs| && 0 <= j < |ms| && gs[i].offset == ms[j].offset ==>
      !(ms[j].shift <= gs[i].bitIdx < ms[j].shift + ms[j].width)
  }

  /** The core gates: distinct bits per register (0x9c bits 0, 1; 0xa0 bits 0, 1;
      0xcc bits 0-5, 24, 25; ...), none inside the mux fields (0xa0 bits 8-10,
      0x188 bit 3, 0x9c and 0x28c bits 8-9). */
  lemma {:induction false} CoreGateBits()
    ensures GateBitsDistinct(GateClks)
  {
    CoreSlotsMatch();
    CoreSlotsDistinct();
  }

  lemma {:induction false} CoreSlotsDistinct()
    ensures Distinct(CoreSlotsLow + CoreSlotsHigh)
  {
    CoreSlotsLowDistinct();
    CoreSlotsHighDistinct();
    CoreSlotHalvesDisjoint();
    DistinctAppend(CoreSlotsLow, CoreSlotsHigh);
  }

  lemma CoreSlotsLowDistinct() ensures Distinct(CoreSlotsLow) {}
  lemma CoreSlotsHighDistinct() ensures Distinct(CoreSlotsHigh) {}
  lemma CoreSlotHalvesDisjoint() ensures Disjoint(CoreSlotsLow, CoreSlotsHigh) {}

  lemma CoreGatesClearOfMuxFields()
    ensures GatesClearOfMuxFields(GateClks, MuxClks)
  {
  }

  lemma SysctrlGateBits()
    ensures GateBitsDistinct(SysctrlGateClks)
  {
  }

  ghost const FixedNameList: seq<string> := ["clk_osc", "clk_apb", "clk_ahb", "12m", "24m", "25m", "48m", "50m", "60m", "75m", "100m", "150m", "166p5m", "200m", "250m"]
  ghost const MuxNameList: seq<string> := ["mmc_mux", "combphy0_mux", "sdio0_mux", "sdio1_mux"]
  ghost const GateNameList: seq<string> := ["clk_sdio0_biu", "clk_sdio0_ciu", "clk_mmc_biu", "clk_mmc_ciu", "clk_pub", "clk_bus", "clk_bus_m0", "clk_bus_m1", "clk_mac0", "clk_macif0", "clk_mac1", "clk_macif1", "clk_combphy0", "clk_u2_bus", "clk_u2_phy", "clk_u2_12m", "clk_u2_48m", "clk_u2_utmi", "clk_u2_otg_utmi", "clk_u2_phy1_ref", "clk_u2_phy2_ref", "clk_u3_bus", "clk_u3_utmi", "clk_u3_pipe", "clk_u3_suspend", "clk_u3_bus1", "clk_u3_utmi1", "clk_u3_pipe1", "clk_u3_suspend1", "clk_sdio1_biu", "clk_sdio1_ciu"]
  ghost const SysctrlGateNameList: seq<string> := ["clk_ir", "clk_timer01", "clk_uart0"]
  ghost const GateParentAt: seq<int> := [13, 17, 13, 15, -1, 23, 24, 24, 25, 25, 26, 26, 16, 2, 8, 3, 6, 8, 8, 4, 4, -1, -1, -1, -1, -1, -1, -1, -1, 13, 18]
  ghost const SysctrlGateParentAt: seq<int> := [4, 4, 9]

  /** The four name lists are the names of the four tables. */
  lemma NameListsMatch()
    ensures FixedNames() == FixedNameList
    ensures MuxNames() == MuxNameList
    ensures GateNames(GateClks) == GateNameList
    ensures GateNames(SysctrlGateClks) == SysctrlGateNameList
  {
    FixedNameListMatch();
    GateNameListMatch();
  }

  lemma FixedNameListMatch()
    ensures FixedNames() == FixedNameList
  {
  }

  lemma GateNameListMatch()
    ensures GateNames(GateClks) == GateNameList
  {
  }

  /** No two elements of `xs` are equal. */
  ghost predicate Distinct<T>(xs: seq<T>)
  {
    forall i, j :: 0 <= i < j < |xs| ==> xs[i] != xs[j]
  }

  /** No element of `a` is an element of `b`. */
  ghost predicate Disjoint<T>(a: seq<T>, b: seq<T>)
  {
    forall i, j :: 0 <= i < |a| && 0 <= j < |b| ==> a[i] != b[j]
  }

  lemma DistinctAppend<T>(a: seq<T>, b: seq<T>)
    requires Distinct(a) && Distinct(b) && Disjoint(a, b)
    ensures Distinct(a + b)
  {
    forall i, j | 0 <= i < j < |a + b|
      ensures (a + b)[i] != (a + b)[j]
    {
      if j >= |a| && i < |a| {
        assert (a + b)[i] == a[i] && (a + b)[j] == b[j - |a|];
      }
    }
  }

  lemma DisjointAppend<T>(a: seq<T>, b: seq<T>, c: seq<T>)
    requires Disjoint(a, c) && Disjoint(b, c)
    ensures Disjoint(a + b, c)
  {
    forall i, j | 0 <= i < |a + b| && 0 <= j < |c|
      ensures (a + b)[i] != c[j]
    {
      if i >= |a| {
        assert (a + b)[i] == b[i - |a|];
      }
    }
  }

  lemma DisjointPrepend<T>(a: seq<T>, b: seq<T>, c: seq<T>)
    requires Disjoint(a, b) && Disjoint(a, c)
    ensures Disjoint(a, b + c)
  {
    forall i, j | 0 <= i < |a| && 0 <= j < |b + c|
      ensures a[i] != (b + c)[j]
    {
      if j >= |b| {
        assert (b + c)[j] == c[j - |b|];
      }
    }
  }

  /** All the names the two domains register. */
  function AllNames(): seq<string>
  {
    FixedNames() + MuxNames() + GateNames(GateClks) + GateNames(SysctrlGateClks)
  }

  // The core gate names in two halves, so that each comparison below stays small.
  ghost const GateNamesLow: seq<string> := ["clk_sdio0_biu", "clk_sdio0_ciu", "clk_mmc_biu", "clk_mmc_ciu", "clk_pub", "clk_bus", "clk_bus_m0", "clk_bus_m1", "clk_mac0", "clk_macif0", "clk_mac1", "clk_macif1", "clk_combphy0", "clk_u2_bus", "clk_u2_phy", "clk_u2_12m"]
  ghost const GateNamesHigh: seq<string> := ["clk_u2_48m", "clk_u2_utmi", "clk_u2_otg_utmi", "clk_u2_phy1_ref", "clk_u2_phy2_ref", "clk_u3_bus", "clk_u3_utmi", "clk_u3_pipe", "clk_u3_suspend", "clk_u3_bus1", "clk_u3_utmi1", "clk_u3_pipe1", "clk_u3_suspend1", "clk_sdio1_biu", "clk_sdio1_ciu"]

  lemma GateNameHalves() ensures GateNameList == GateNamesLow + GateNamesHigh {}

  lemma FixedNamesDistinct() ensures Distinct(FixedNameList) {}
  lemma MuxNamesDistinct() ensures Distinct(MuxNameList) {}
  lemma GateNamesLowDistinct() ensures Distinct(GateNamesLow) {}
  lemma GateNamesHighDistinct() ensures Distinct(GateNamesHigh) {}
  lemma SysctrlNamesDistinct() ensures Distinct(SysctrlGateNameList) {}
  lemma GateHalvesDisjoint() ensures Disjoint(GateNamesLow, GateNamesHigh) {}
  lemma FixedMuxDisjoint() ensures Disjoint(FixedNameList, MuxNameList) {}
  lemma FixedGateLowDisjoint() ensures Disjoint(FixedNameList, GateNamesLow) {}
  lemma FixedGateHighDisjoint() ensures Disjoint(FixedNameList, GateNamesHigh) {}
  lemma MuxGateDisjoint() ensures Disjoint(MuxNameList, GateNameList) {}
  lemma FixedSysctrlDisjoint() ensures Disjoint(FixedNameList, SysctrlGateNameList) {}
  lemma MuxSysctrlDisjoint() ensures Disjoint(MuxNameList, SysctrlGateNameList) {}
  lemma GateSysctrlDisjoint() ensures Disjoint(GateNameList, SysctrlGateNameList) {}

  /** Each name list has no repeated name ... */
  lemma {:induction false} ListsDistinct()
    ensures Distinct(FixedNameList) && Distinct(MuxNameList)
    ensures Distinct(GateNameList) && Distinct(SysctrlGateNameList)
  {
    FixedNamesDistinct();
    MuxNamesDistinct();
    SysctrlNamesDistinct();
    GateNameHalves();
    GateNamesLowDistinct();
    GateNamesHighDistinct();
    GateHalvesDisjoint();
    DistinctAppend(GateNamesLow, GateNamesHigh);
  }

  /** ... and no two lists share one. */
  lemma {:induction false} ListsDisjoint()
    ensures Disjoint(FixedNameList, MuxNameList) && Disjoint(FixedNameList, GateNameList)
    ensures Disjoint(MuxNameList, GateNameList) && Disjoint(FixedNameList, SysctrlGateNameList)
    ensures Disjoint(MuxNameList, SysctrlGateNameList) && Disjoint(GateNameList, SysctrlGateNameList)
  {
    FixedMuxDisjoint();
    MuxGateDisjoint();
    FixedSysctrlDisjoint();
    MuxSysctrlDisjoint();
    GateSysctrlDisjoint();
    GateNameHalves();
    FixedGateLowDisjoint();
    FixedGateHighDisjoint();
    DisjointPrepend(FixedNameList, GateNamesLow, GateNamesHigh);
  }

  /** No two clocks of the Hi3798MV200 tables share a name. */
  lemma {:induction false} NamesUnique()
    ensures Distinct(AllNames())
  {
    NameListsMatch();
    ListsDistinct();
    ListsDisjoint();
    var f, m, g, y := FixedNameList, MuxNameList, GateNameList, SysctrlGateNameList;
    DistinctAppend(f, m);
    DisjointAppend(f, m, g);
    DistinctAppend(f + m, g);
    DisjointAppend(f, m, y);
    DisjointAppend(f + m, g, y);
    DistinctAppend(f + m + g, y);
  }

  /** The names the core domain's walk offers, in order: fixed rate, mux, gate. */
  function CoreNames(): seq<string>
  {
    FixedNames() + MuxNames() + GateNames(GateClks)
  }

  ghost const MuxParentAt: seq<seq<int>> := [[10, 7, 5, 13, 11], [5, 10], [10, 7, 11, 12], [10, 7, 11, 12]]

  /** Every mux parent is a fixed-rate clock. */
  lemma {:induction false} MuxParentsFixed()
    ensures forall m, k :: 0 <= m < |MuxClks| && 0 <= k < |MuxClks[m].parentNames| ==>
      MuxClks[m].parentNames[k] in FixedNames()
  {
    NameListsMatch();
    forall m, k | 0 <= m < |MuxClks| && 0 <= k < |MuxClks[m].parentNames|
      ensures MuxClks[m].parentNames[k] in FixedNames()
    {
      var w := MuxParentAt[m][k];
      assert 0 <= w < |FixedNameList| && FixedNameList[w] == MuxClks[m].parentNames[k];
    }
  }

  ghost const GateParentList: seq<Option<string>> := [Some("200m"), Some("sdio0_mux"), Some("200m"), Some("mmc_mux"), None, Some("clk_pub"), Some("clk_bus"), Some("clk_bus"), Some("clk_bus_m0"), Some("clk_bus_m0"), Some("clk_bus_m1"), Some("clk_bus_m1"), Some("combphy0_mux"), Some("clk_ahb"), Some("60m"), Some("12m"), Some("48m"), Some("60m"), Some("60m"), Some("24m"), Some("24m"), None, None, None, None, None, None, None, None, Some("200m"), Some("sdio1_mux")]

  lemma GateParentListMatch()
    ensures |GateParentList| == |GateClks|
    ensures forall i :: 0 <= i < |GateClks| ==> GateClks[i].parentName == GateParentList[i]
  {
  }

  /** GateParentAt[i] indexes the name of gate i's parent among the names
      registered before it. */
  ghost predicate ParentAtWitnesses(i: nat)
    requires i < |GateParentList| && i < |GateParentAt| && GateParentList[i].Some?
  {
    0 <= GateParentAt[i] < 19 + i && (FixedNameList + MuxNameList + GateNameList)[GateParentAt[i]] == GateParentList[i].value
  }

  lemma {:induction false} GateParentAtWitness()
    ensures |GateParentAt| == |GateParentList|
    ensures forall i :: 0 <= i < |GateParentList| && GateParentList[i].Some? ==> ParentAtWitnesses(i)
  {
    WitnessesFirst();
    WitnessesSecond();
    WitnessesThird();
    WitnessesFourth();
  }

  lemma WitnessesFirst()
    ensures forall i :: 0 <= i < 8 && GateParentList[i].Some? ==> ParentAtWitnesses(i)
  {
    forall i | 0 <= i < 8 && GateParentList[i].Some?
      ensures ParentAtWitnesses(i)
    {
      if i == 0 { assert FixedNameList[13] == "200m"; }
      if i == 1 { assert MuxNameList[2] == "sdio0_mux"; }
      if i == 2 { assert FixedNameList[13] == "200m"; }
      if i == 3 { assert MuxNameList[0] == "mmc_mux"; }
      if i == 5 { assert GateNameList[4] == "clk_pub"; }
      if i == 6 { assert GateNameList[5] == "clk_bus"; }
      if i == 7 { assert GateNameList[5] == "clk_bus"; }
    }
  }

  lemma WitnessesSecond()
    ensures forall i :: 8 <= i < 16 && GateParentList[i].Some? ==> ParentAtWitnesses(i)
  {
    forall i | 8 <= i < 16 && GateParentList[i].Some?
      ensures ParentAtWitnesses(i)
    {
      if i == 8 { assert GateNameList[6] == "clk_bus_m0"; }
      if i == 9 { assert GateNameList[6] == "clk_bus_m0"; }
      if i == 10 { assert GateNameList[7] == "clk_bus_m1"; }
      if i == 11 { assert GateNameList[7] == "clk_bus_m1"; }
      if i == 12 { assert MuxNameList[1] == "combphy0_mux"; }
      if i == 13 { assert FixedNameList[2] == "clk_ahb"; }
      if i == 14 { assert FixedNameList[8] == "60m"; }
      if i == 15 { assert FixedNameList[3] == "12m"; }
    }
  }

  lemma WitnessesThird()
    ensures forall i :: 16 <= i < 24 && GateParentList[i].Some? ==> ParentAtWitnesses(i)
  {
    forall i | 16 <= i < 24 && GateParentList[i].Some?
      ensures ParentAtWitnesses(i)
    {
      if i == 16 { assert FixedNameList[6] == "48m"; }
      if i == 17 { assert FixedNameList[8] == "60m"; }
      if i == 18 { assert FixedNameList[8] == "60m"; }
      if i == 19 { assert FixedNameList[4] == "24m"; }
      if i == 20 { assert FixedNameList[4] == "24m"; }
    }
  }

  lemma WitnessesFourth()
    ensures forall i :: 24 <= i < 31 && GateParentList[i].Some? ==> ParentAtWitnesses(i)
  {
    forall i | 24 <= i < 31 && GateParentList[i].Some?
      ensures ParentAtWitnesses(i)
    {
      if i == 29 { assert FixedNameList[13] == "200m"; }
      if i == 30 { assert MuxNameList[3] == "sdio1_mux"; }
    }
  }

  /** Every named gate parent is registered before the gate in the core walk:
      a fixed-rate or mux clock, or a gate earlier in the table. */
  lemma {:induction false} GateParentsFirst()
    ensures forall i :: 0 <= i < |GateClks| && GateClks[i].parentName.Some? ==>
      GateClks[i].parentName.value in CoreNames()[..|FixedRateClks| + |MuxClks| + i]
  {
    NameListsMatch();
    GateParentListMatch();
    GateParentAtWitness();
    forall i | 0 <= i < |GateClks| && GateClks[i].parentName.Some?
      ensures GateClks[i].parentName.value in CoreNames()[..|FixedRateClks| + |MuxClks| + i]
    {
      var w := GateParentAt[i];
      assert CoreNames()[..|FixedRateClks| + |MuxClks| + i][w] == (FixedNameList + MuxNameList + GateNameList)[w];
    }
  }

  /** The sysctrl gates' parents are fixed-rate clocks. */
  lemma {:induction false} SysctrlParentsFixed()
    ensures forall i :: 0 <= i < |SysctrlGateClks| ==>
      SysctrlGateClks[i].parentName.Some? && SysctrlGateClks[i].parentName.value in FixedNames()
  {
    NameListsMatch();
    forall i | 0 <= i < |SysctrlGateClks|
      ensures SysctrlGateClks[i].parentName.Some? && SysctrlGateClks[i].parentName.value in FixedNames()
    {
      var w := SysctrlGateParentAt[i];
      assert 0 <= w < |FixedNameList| && FixedNameList[w] == SysctrlGateClks[i].parentName.value;
    }
  }

  // ---------------------------------------------------------------------
  // The two domain probes and fixed_rate_registered
  // ---------------------------------------------------------------------

  /** What a probe leaves behind: the flag, the framework's registry and the return value. */
  datatype Probe = Probe(registered: bool, state: Ccf, ret: int)

  /** The fixed-rate step both probes begin with: skipped when the flag is set,
      and the flag is set only when the walk succeeded. */
  function FixedStep(decide: Decision, registered: bool, s: Ccf): Probe
  {
    if registered then Probe(true, s, 0)
    else
      var r := Walk(decide, s, FixedBatch(FixedRateClks));
      Probe(r.ret == 0, r.state, r.ret)
  }

  /** hi3798mv200_clk_register: fixed-rate (once), then mux, then gate; the
      first nonzero result skips the rest. */
  function CoreProbe(decide: Decision, registered: bool, s: Ccf, base: nat): Probe
  {
    var f := FixedStep(decide, registered, s);
    if f.ret != 0 then f
    else
      var m := Walk(decide, f.state, MuxBatch(MuxClks, base));
      if m.ret != 0 then Probe(f.registered, m.state, m.ret)
      else
        var g := Walk(decide, m.state, GateBatch(GateClks, base));
        Probe(f.registered, g.state, g.ret)
  }

  /** hi3798mv200_sysctrl_clk_register: fixed-rate (once), then the sysctrl gates. */
  function SysctrlProbe(decide: Decision, registered: bool, s: Ccf, base: nat): Probe
  {
    var f := FixedStep(decide, registered, s);
    if f.ret != 0 then f
    else
      var g := Walk(decide, f.state, GateBatch(SysctrlGateClks, base));
      Probe(f.registered, g.state, g.ret)
  }

  /** The fixed-rate table's entries when the flag is clear, nothing when it is set. */
  function FixedOnce(registered: bool): (b: Batch)
    ensures registered ==> b == []
    ensures !registered ==> b == FixedBatch(FixedRateClks)
  {
    if registered then [] else FixedBatch(FixedRateClks)
  }

  /** The entries the core probe offers, in order. */
  function CoreBatch(registered: bool, base: nat): Batch
  {
    FixedOnce(registered) + MuxBatch(MuxClks, base) + GateBatch(GateClks, base)
  }

  /** The entries the sysctrl probe offers, in order: no mux and no core gate. */
  function SysctrlBatch(registered: bool, base: nat): Batch
  {
    FixedOnce(registered) + GateBatch(SysctrlGateClks, base)
  }

  /** The core probe is one walk over fixed-rate (unless already registered),
      mux and gate entries in that order, so every property of a walk holds of
      it: table order, the first failure returned with nothing after it
      offered, and no rollback. */
  lemma {:induction false} CoreProbeIsOneWalk(decide: Decision, registered: bool, s: Ccf, base: nat)
    ensures var p := CoreProbe(decide, registered, s, base);
      Outcome(p.state, p.ret) == Walk(decide, s, CoreBatch(registered, base))
  {
    var fb, mb, gb := FixedOnce(registered), MuxBatch(MuxClks, base), GateBatch(GateClks, base);
    WalkAppend(decide, s, fb, mb);
    var r := Walk(decide, s, fb);
    if r.ret == 0 {
      WalkAppend(decide, s, fb + mb, gb);
    } else {
      WalkAppend(decide, s, fb + mb, gb);
    }
  }

  /** Likewise the sysctrl probe is one walk over fixed-rate (unless already
      registered) and the three sysctrl gates. */
  lemma {:induction false} SysctrlProbeIsOneWalk(decide: Decision, registered: bool, s: Ccf, base: nat)
    ensures var p := SysctrlProbe(decide, registered, s, base);
      Outcome(p.state, p.ret) == Walk(decide, s, SysctrlBatch(registered, base))
  {
    WalkAppend(decide, s, FixedOnce(registered), GateBatch(SysctrlGateClks, base));
  }

  /** The flag after either probe: set if it was set, or if this probe's
      fixed-rate walk succeeded; a set flag is never cleared. */
  lemma ProbeFlag(decide: Decision, registered: bool, s: Ccf, base: nat)
    ensures CoreProbe(decide, registered, s, base).registered ==
      (registered || Walk(decide, s, FixedBatch(FixedRateClks)).ret == 0)
    ensures SysctrlProbe(decide, registered, s, base).registered ==
      (registered || Walk(decide, s, FixedBatch(FixedRateClks)).ret == 0)
  {
  }

  /** Every fixed-rate clock is in the registry. */
  ghost predicate FixedRegistered(s: Ccf)
  {
    forall i :: 0 <= i < |FixedRateClks| ==> FixedRateClks[i].name in s.clocks
  }

  lemma {:induction false} KeepsFixedRegistered(decide: Decision, s: Ccf, b: Batch)
    requires FixedRegistered(s)
    ensures FixedRegistered(Walk(decide, s, b).state)
  {
    WalkNoRollback(decide, s, b);
  }

  lemma {:induction false} FixedStepRegisters(decide: Decision, s: Ccf)
    requires Walk(decide, s, FixedBatch(FixedRateClks)).ret == 0
    ensures FixedRegistered(Walk(decide, s, FixedBatch(FixedRateClks)).state)
  {
    WalkRegistersAll(decide, s, FixedBatch(FixedRateClks));
  }

  /** The flag is set only when the fixed-rate clocks are registered, and both
      probes keep it that way, whether they succeed or fail. */
  lemma {:induction false} ProbesKeepFlagSound(decide: Decision, registered: bool, s: Ccf, base: nat)
    requires registered ==> FixedRegistered(s)
    ensures var p := CoreProbe(decide, registered, s, base); p.registered ==> FixedRegistered(p.state)
    ensures var p := SysctrlProbe(decide, registered, s, base); p.registered ==> FixedRegistered(p.state)
  {
    var f := FixedStep(decide, registered, s);
    if !registered && f.registered {
      FixedStepRegisters(decide, s);
    }
    if f.registered && f.ret == 0 {
      var m := Walk(decide, f.state, MuxBatch(MuxClks, base));
      KeepsFixedRegistered(decide, f.state, MuxBatch(MuxClks, base));
      KeepsFixedRegistered(decide, m.state, GateBatch(GateClks, base));
      KeepsFixedRegistered(decide, f.state, GateBatch(SysctrlGateClks, base));
    }
  }

  lemma NamesAppend(a: Batch, b: Batch)
    ensures Names(a + b) == Names(a) + Names(b)
  {
  }

  lemma DistinctParts<T>(a: seq<T>, b: seq<T>)
    requires Distinct(a + b)
    ensures Distinct(a) && Distinct(b)
  {
    forall i, j | 0 <= i < j < |a|
      ensures a[i] != a[j]
    {
      assert (a + b)[i] == a[i] && (a + b)[j] == a[j];
    }
    forall i, j | 0 <= i < j < |b|
      ensures b[i] != b[j]
    {
      assert (a + b)[|a| + i] == b[i] && (a + b)[|a| + j] == b[j];
    }
  }

  lemma DistinctDrop<T>(a: seq<T>, b: seq<T>, c: seq<T>)
    requires Distinct(a + b + c)
    ensures Distinct(a + c)
  {
    var abc := a + b + c;
    forall i, j | 0 <= i < j < |a + c|
      ensures (a + c)[i] != (a + c)[j]
    {
      var i' := if i < |a| then i else i + |b|;
      var j' := if j < |a| then j else j + |b|;
      assert (a + c)[i] == abc[i'] && (a + c)[j] == abc[j'];
    }
  }

  /** The names of the fixed-rate entries a probe offers: all or none. */
  lemma FixedOnceNames(registered: bool)
    ensures Names(FixedOnce(registered)) == if registered then [] else FixedNames()
  {
  }

  lemma CoreBatchNames(registered: bool, base: nat)
    ensures Names(CoreBatch(registered, base)) ==
      Names(FixedOnce(registered)) + MuxNames() + GateNames(GateClks)
  {
    var fb, mb, gb := FixedOnce(registered), MuxBatch(MuxClks, base), GateBatch(GateClks, base);
    NamesAppend(fb, mb);
    NamesAppend(fb + mb, gb);
    assert Names(mb) == MuxNames();
    assert Names(gb) == GateNames(GateClks);
  }

  lemma SysctrlBatchNames(registered: bool, base: nat)
    ensures Names(SysctrlBatch(registered, base)) ==
      Names(FixedOnce(registered)) + GateNames(SysctrlGateClks)
  {
    var fb, yb := FixedOnce(registered), GateBatch(SysctrlGateClks, base);
    NamesAppend(fb, yb);
    assert Names(yb) == GateNames(SysctrlGateClks);
  }

  /** If the four name lists together are distinct, so are the fixed-rate
      names (or none) followed by the mux and gate names, and the fixed-rate
      names (or none) followed by the sysctrl gate names. */
  lemma {:induction false} DistinctSubLists(f: seq<string>, m: seq<string>, g: seq<string>, y: seq<string>, none: bool)
    requires Distinct(f + m + g + y)
    ensures Distinct((if none then [] else f) + m + g)
    ensures Distinct((if none then [] else f) + y)
  {
    assert f + m + g + y == f + (m + g) + y;
    DistinctDrop(f, m + g, y);
    DistinctParts(f + (m + g), y);
    DistinctParts(f, m + g);
    DistinctParts(f, y);
    assert f + (m + g) == f + m + g;
    if none {
      assert [] + m + g == m + g;
      assert [] + y == y;
    }
  }

  /** No two entries of either probe's walk share a name. */
  lemma {:induction false} ProbeNamesDistinct(registered: bool, base: nat)
    ensures Distinct(Names(CoreBatch(registered, base)))
    ensures Distinct(Names(SysctrlBatch(registered, base)))
  {
    NamesUnique();
    CoreBatchNames(registered, base);
    SysctrlBatchNames(registered, base);
    FixedOnceNames(registered);
    DistinctSubLists(FixedNames(), MuxNames(), GateNames(GateClks), GateNames(SysctrlGateClks), registered);
  }

  /** A successful core probe leaves every entry it walked registered under its
      own name with its own clock, and its id bound. */
  lemma {:induction false} CoreProbeRegistersTables(decide: Decision, registered: bool, s: Ccf, base: nat)
    requires CoreProbe(decide, registered, s, base).ret == 0
    ensures var b, r := CoreBatch(registered, base), CoreProbe(decide, registered, s, base).state;
      forall k :: 0 <= k < |b| ==>
        b[k].1.name in r.clocks && r.clocks[b[k].1.name] == b[k].1 && b[k].0 in r.ids
  {
    var b := CoreBatch(registered, base);
    CoreProbeIsOneWalk(decide, registered, s, base);
    ProbeNamesDistinct(registered, base);
    assert forall i, j :: 0 <= i < j < |b| ==> b[i].1.name != b[j].1.name by {
      assert forall k :: 0 <= k < |b| ==> Names(b)[k] == b[k].1.name;
    }
    WalkRegistersAll(decide, s, b);
    WalkRegistersEach(decide, s, b);
  }

  /** Likewise for a successful sysctrl probe. */
  lemma {:induction false} SysctrlProbeRegistersTables(decide: Decision, registered: bool, s: Ccf, base: nat)
    requires SysctrlProbe(decide, registered, s, base).ret == 0
    ensures var b, r := SysctrlBatch(registered, base), SysctrlProbe(decide, registered, s, base).state;
      forall k :: 0 <= k < |b| ==>
        b[k].1.name in r.clocks && r.clocks[b[k].1.name] == b[k].1 && b[k].0 in r.ids
  {
    var b := SysctrlBatch(registered, base);
    SysctrlProbeIsOneWalk(decide, registered, s, base);
    ProbeNamesDistinct(registered, base);
    assert forall i, j :: 0 <= i < j < |b| ==> b[i].1.name != b[j].1.name by {
      assert forall k :: 0 <= k < |b| ==> Names(b)[k] == b[k].1.name;
    }
    WalkRegistersAll(decide, s, b);
    WalkRegistersEach(decide, s, b);
  }

  // ---------------------------------------------------------------------
  // Probes in sequence
  // ---------------------------------------------------------------------

  datatype Domain = Core | Sysctrl

  function ProbeOf(decide: Decision, d: Domain, registered: bool, s: Ccf, base: nat): Probe
  {
    match d
    case Core => CoreProbe(decide, registered, s, base)
    case Sysctrl => SysctrlProbe(decide, registered, s, base)
  }

  /** Probing the domains one after another (each with its register base),
      starting from a flag and a registry; the result carries the last probe's return. */
  function Run(decide: Decision, registered: bool, s: Ccf, probes: seq<(Domain, nat)>): Probe
    decreases |probes|
  {
    if probes == [] then Probe(registered, s, 0)
    else
      var p := ProbeOf(decide, probes[0].0, registered, s, probes[0].1);
      if |probes| == 1 then p else Run(decide, p.registered, p.state, probes[1..])
  }

  /** How many probes of a run walked the fixed-rate table and succeeded. */
  function FixedRegistrations(decide: Decision, registered: bool, s: Ccf, probes: seq<(Domain, nat)>): nat
    decreases |probes|
  {
    if probes == [] then 0
    else
      var p := ProbeOf(decide, probes[0].0, registered, s, probes[0].1);
      (if !registered && p.registered then 1 else 0) + FixedRegistrations(decide, p.registered, p.state, probes[1..])
  }

  /** Across any sequence of core and sysctrl probes the fixed-rate table is
      registered at most once: never if the flag started set, once if the flag
      ends up set, never otherwise. */
  lemma {:induction false} FixedRegisteredAtMostOnce(decide: Decision, registered: bool, s: Ccf, probes: seq<(Domain, nat)>)
    ensures FixedRegistrations(decide, registered, s, probes) ==
      if !registered && Run(decide, registered, s, probes).registered then 1 else 0
    decreases |probes|
  {
    if probes != [] {
      var p := ProbeOf(decide, probes[0].0, registered, s, probes[0].1);
      ProbeFlag(decide, registered, s, probes[0].1);
      FixedRegisteredAtMostOnce(decide, p.registered, p.state, probes[1..]);
      if |probes| > 1 {
        RunKeepsFlag(decide, p.registered, p.state, probes[1..]);
      }
    }
  }

  /** The flag, once set, stays set; a run changes it only forwards. */
  lemma {:induction false} RunKeepsFlag(decide: Decision, registered: bool, s: Ccf, probes: seq<(Domain, nat)>)
    ensures registered ==> Run(decide, registered, s, probes).registered
    decreases |probes|
  {
    if probes != [] {
      var p := ProbeOf(decide, probes[0].0, registered, s, probes[0].1);
      ProbeFlag(decide, registered, s, probes[0].1);
      if |probes| > 1 {
        RunKeepsFlag(decide, p.registered, p.state, probes[1..]);
      }
    }
  }

  // ---------------------------------------------------------------------
  // The driver's state and its register functions
  // ---------------------------------------------------------------------

  /** The driver's global fixed_rate_registered and the clock framework both
      domains register into. */
  class Driver {
    var fixedRateRegistered: bool
    const fw: Framework

    constructor (fw: Framework)
      ensures !fixedRateRegistered && this.fw == fw
    {
      fixedRateRegistered := false;
      this.fw := fw;
    }

    /** hi3798mv200_clk_register (the crg domain's probe) */
    method ClkRegister(data: ClockData) returns (ret: int)
      modifies this, fw
      ensures Probe(fixedRateRegistered, fw.state, ret) ==
        CoreProbe(fw.decide, old(fixedRateRegistered), old(fw.state), data.base)
    {
      if !fixedRateRegistered {
        ret := RegisterFixedRate(fw, FixedRateClks);
        if ret != 0 {
          return;
        }
        fixedRateRegistered := true;
      }
      ret := RegisterMux(fw, MuxClks, data);
      if ret != 0 {
        return;
      }
      ret := RegisterGate(fw, GateClks, data);
    }

    /** hi3798mv200_sysctrl_clk_register (the sysctrl domain's probe) */
    method SysctrlClkRegister(data: ClockData) returns (ret: int)
      modifies this, fw
      ensures Probe(fixedRateRegistered, fw.state, ret) ==
        SysctrlProbe(fw.decide, old(fixedRateRegistered), old(fw.state), data.base)
    {
      if !fixedRateRegistered {
        ret := RegisterFixedRate(fw, FixedRateClks);
        if ret != 0 {
          return;
        }
        fixedRateRegistered := true;
      }
      ret := RegisterGate(fw, SysctrlGateClks, data);
    }
  }

  /** hi3798mv200_clk_bind: binds the reset driver under the fixed name
      "hisilicon_reset", not the ".reset" name of hisi_clk_bind_reset. */
  method ClkBind(dm: DriverModel) returns (ret: int)
    modifies dm
    ensures ret == dm.outcome("hisilicon_reset")
    ensures dm.devices == if ret == 0 then old(dm.devices) + [("hisilicon_reset", "hisilicon_reset")] else old(dm.devices)
  {
    ret := dm.BindDriverToNode("hisilicon_reset", "hisilicon_reset");
  }
}
