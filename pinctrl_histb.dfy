/**
 * The IOCONFIG pin controller of HiSTB SoCs (drivers/pinctrl/hisilicon/
 * pinctrl-histb.c and .h).  Every pin owns one 32-bit configuration word,
 * word `number` of the device window, with the fields
 *
 *   bits 2:0  function select      bit 8   slew rate
 *   bits 7:4  drive strength       bit 12  pull-up
 *   bit 13    pull-down            bit 14  schmitt trigger
 *
 * and every setter reads the word, changes its field and writes it back.
 * A drive-strength table ends with 0 and a function table with an entry
 * whose name is NULL (None here); the terminators are part of the
 * sequences.
 */
module HistbPinctrl {
  import opened Common
  import opened Word32

  // per-register bit definitions
  function Schmitt(): Word { Bit(14) }
  function PullDown(): Word { Bit(13) }
  function PullUp(): Word { Bit(12) }
  function SlewRate(): Word { Bit(8) }
  function DrvMask(): Word { Mask(7, 4) }
  function FuncMask(): Word { Mask(2, 0) }

  /** The six fields of a pin word, in the header's order. */
  function Fields(): seq<Word>
  {
    [Schmitt(), PullDown(), PullUp(), SlewRate(), DrvMask(), FuncMask()]
  }

  /** The register fields do not overlap: no bit belongs to two of them. */
  lemma FieldsDisjoint()
    ensures |Fields()| == 6
    ensures forall i, j, k :: 0 <= i < j < 6 && 0 <= k < 32 ==> !(Fields()[i][k] && Fields()[j][k])
  {
  }

  /** struct histb_pin_mux_desc: one function of a pin and its select bits. */
  datatype PinMuxDesc = PinMuxDesc(name: Option<string>, bits: u32)

  /** struct histb_pin_desc */
  datatype PinDesc = PinDesc(
    number: nat,
    name: string,
    drvTbl: Option<seq<u8>>,
    funcTbl: seq<PinMuxDesc>,
    flags: int)

  /** struct histb_pin_func_setup_entry */
  datatype FuncSetupEntry = FuncSetupEntry(pinSelector: nat, mask: u8)

  /** struct histb_pin_function_desc */
  datatype FunctionDesc = FunctionDesc(
    funcSelector: nat,
    name: string,
    pinsNum: nat,
    cfgTbl: seq<FuncSetupEntry>)

  /** A function descriptor whose pins_num counts its setup table, as
      HISTB_PIN_FUNC builds it. */
  predicate FuncDescValid(f: FunctionDesc)
  {
    f.pinsNum == |f.cfgTbl|
  }

  /** HISTB_PIN_FUNC: pins_num is the number of entries in the setup table. */
  function HistbPinFunc(id: nat, name: string, cfg: seq<FuncSetupEntry>): (f: FunctionDesc)
    ensures FuncDescValid(f) && f.cfgTbl == cfg
    ensures f.funcSelector == id && f.name == name
  {
    FunctionDesc(id, name, |cfg|, cfg)
  }

  /** The drive table ends with 0. */
  predicate DrvTerminated(tbl: seq<u8>)
  {
    exists z :: 0 <= z < |tbl| && tbl[z] == 0
  }

  /** The function table ends with an entry whose name is NULL. */
  predicate FuncTerminated(tbl: seq<PinMuxDesc>)
  {
    exists z :: 0 <= z < |tbl| && tbl[z].name.None?
  }

  /** A pin as the SoC tables declare it. */
  predicate PinValid(p: PinDesc)
  {
    FuncTerminated(p.funcTbl) && (p.drvTbl.Some? ==> DrvTerminated(p.drvTbl.value))
  }

  /** struct histb_pinctrl_priv: the SoC's constant tables and the window
      base that of_to_plat fills in. */
  class Priv {
    var base: nat
    const pins: seq<PinDesc>
    const funcs: seq<FunctionDesc>
    const pinNums: nat
    const funcNums: nat

    /** The SoC driver's data: array sizes and descriptors as the tables
        declare them. */
    predicate Valid()
    {
      && pinNums == |pins|
      && funcNums == |funcs|
      && (forall i :: 0 <= i < |pins| ==> PinValid(pins[i]))
      && (forall i :: 0 <= i < |funcs| ==> FuncDescValid(funcs[i]))
    }

    constructor (pins: seq<PinDesc>, funcs: seq<FunctionDesc>)
      ensures this.pins == pins && this.funcs == funcs
      ensures pinNums == |pins| && funcNums == |funcs| && base == 0
      ensures ((forall i :: 0 <= i < |pins| ==> PinValid(pins[i])) &&
               (forall i :: 0 <= i < |funcs| ==> FuncDescValid(funcs[i]))) ==> Valid()
    {
      this.pins := pins;
      this.funcs := funcs;
      pinNums := |pins|;
      funcNums := |funcs|;
      base := 0;
    }

    /** The byte address of a pin's word: word `number` from the base. */
    function PinReg(selector: nat): (addr: nat)
      requires selector < |pins|
      reads this
      ensures addr == base + 4 * pins[selector].number
    {
      base + 4 * pins[selector].number
    }
  }

  // ---------------------------------------------------------------------
  // Getters
  // ---------------------------------------------------------------------

  /** histb_pinctrl_get_pins_count */
  function GetPinsCount(priv: Priv): (n: nat)
    requires priv.Valid()
    ensures n == |priv.pins|
  {
    priv.pinNums
  }

  /** histb_pinctrl_get_pin_name */
  function GetPinName(priv: Priv, selector: nat): (name: string)
    requires selector < |priv.pins|
    ensures name == priv.pins[selector].name
  {
    priv.pins[selector].name
  }

  /** histb_pinctrl_get_functions_count */
  function GetFunctionsCount(priv: Priv): (n: nat)
    requires priv.Valid()
    ensures n == |priv.funcs|
  {
    priv.funcNums
  }

  /** histb_pinctrl_get_function_name */
  function GetFunctionName(priv: Priv, selector: nat): (name: string)
    requires selector < |priv.funcs|
    ensures name == priv.funcs[selector].name
  {
    priv.funcs[selector].name
  }

  // ---------------------------------------------------------------------
  // Pin multiplexing
  // ---------------------------------------------------------------------

  /** The first setup entry for `pin`, if the table has one. */
  function FirstSetup(cfg: seq<FuncSetupEntry>, pin: nat): (r: Option<nat>)
    ensures r.Some? ==> r.value < |cfg| && cfg[r.value].pinSelector == pin
    ensures r.Some? ==> forall i :: 0 <= i < r.value ==> cfg[i].pinSelector != pin
    ensures r.None? <==> forall i :: 0 <= i < |cfg| ==> cfg[i].pinSelector != pin
  {
    if cfg == [] then None
    else if cfg[0].pinSelector == pin then Some(0)
    else match FirstSetup(cfg[1..], pin)
      case None => None
      case Some(j) => Some(j + 1)
  }

  /** The word pinmux_set writes: function bits cleared, then the entry's
      select pattern ORed in. */
  function MuxWord(w: Word, mask: u8): (r: Word)
    ensures forall k :: 0 <= k < 3 ==> r[k] == FromInt(mask)[k]
    ensures forall k :: 3 <= k < 32 ==> r[k] == (w[k] || FromInt(mask)[k])
  {
    Or(AndNot(w, FuncMask()), FromInt(mask))
  }

  /** A select pattern that fits the function field changes only that field. */
  lemma MuxWordKeepsOtherFields(w: Word, mask: u8)
    requires mask < 8
    ensures SameOutside(MuxWord(w, mask), w, FuncMask())
  {
    assert Pow2(3) == 8;
    FromIntHigh(mask, 3);
  }

  /** The function field then reads back as the pattern written. */
  lemma MuxWordReadsBack(w: Word, mask: u8)
    requires mask < 8
    ensures FieldGet(MuxWord(w, mask), 2, 0) == mask
  {
    var r := MuxWord(w, mask);
    assert Pow2(3) == 8;
    FromIntLow(mask, 3);
    assert r[0..3] == FromInt(mask)[..3];
  }

  /** histb_pinctrl_pinmux_set: the first setup entry of the function that
      names the pin selects it; with none, -EINVAL and no write. */
  method PinmuxSet(priv: Priv, io: Mmio, pin: nat, func: nat) returns (ret: int)
    requires priv.Valid()
    requires pin < |priv.pins| && func < |priv.funcs|
    modifies io
    ensures var cfg := priv.funcs[func].cfgTbl;
      match FirstSetup(cfg, pin)
      case None => ret == -EINVAL && io.words == old(io.words)
      case Some(i) =>
        ret == 0 && io.words == old(io.words)[priv.PinReg(pin) := MuxWord(Read(old(io.words), priv.PinReg(pin)), cfg[i].mask)]
  {
    var f := priv.funcs[func];
    var cfg := f.cfgTbl;
    var addr := priv.PinReg(pin);
    var i := 0;
    while i < f.pinsNum
      invariant 0 <= i <= f.pinsNum
      invariant forall j :: 0 <= j < i ==> cfg[j].pinSelector != pin
      invariant io.words == old(io.words)
    {
      if cfg[i].pinSelector == pin {
        var reg := io.Readl(addr);
        reg := AndNot(reg, FuncMask());
        reg := Or(reg, FromInt(cfg[i].mask));
        io.Writel(reg, addr);
        return 0;
      }
      i := i + 1;
    }
    return -EINVAL;
  }

  /** The first live entry of a function table whose select bits are
      `current`; the NULL-named terminator ends the search. */
  function FirstMux(tbl: seq<PinMuxDesc>, current: nat): (r: Option<nat>)
    ensures r.Some? ==> r.value < |tbl| && tbl[r.value].name.Some? && tbl[r.value].bits == current
    ensures r.Some? ==> forall i :: 0 <= i < r.value ==> tbl[i].name.Some? && tbl[i].bits != current
    ensures r.None? ==> forall i :: 0 <= i < |tbl| && tbl[i].bits == current ==>
      exists z :: 0 <= z <= i && tbl[z].name.None?
  {
    if tbl == [] || tbl[0].name.None? then None
    else if tbl[0].bits == current then Some(0)
    else match FirstMux(tbl[1..], current)
      case None =>
        assert forall i :: 1 <= i < |tbl| && tbl[i].bits == current ==>
          exists z :: 0 <= z <= i && tbl[z].name.None? by {
          forall i | 1 <= i < |tbl| && tbl[i].bits == current
            ensures exists z :: 0 <= z <= i && tbl[z].name.None?
          {
            assert tbl[1..][i - 1].bits == current;
            var z :| 0 <= z <= i - 1 && tbl[1..][z].name.None?;
            assert tbl[z + 1].name.None?;
          }
        }
        None
      case Some(j) => Some(j + 1)
  }

  /** The name get_pin_muxing reports for the select bits `current`. */
  function MuxingName(tbl: seq<PinMuxDesc>, current: nat): (name: string)
    ensures FirstMux(tbl, current).Some? ==> Some(name) == tbl[FirstMux(tbl, current).value].name
    ensures FirstMux(tbl, current).None? ==> name == "UNKNOWN!"
  {
    match FirstMux(tbl, current)
    case Some(j) => tbl[j].name.value
    case None => "UNKNOWN!"
  }

  /** histb_pinctrl_get_pin_muxing: report the function whose bits equal
      the pin's function field, or "UNKNOWN!"; always 0, and the window is
      only read. */
  method GetPinMuxing(priv: Priv, io: Mmio, pin: nat) returns (ret: int, name: string)
    requires priv.Valid()
    requires pin < |priv.pins|
    ensures ret == 0
    ensures name == MuxingName(priv.pins[pin].funcTbl, FieldGet(Read(io.words, priv.PinReg(pin)), 2, 0))
  {
    var p := priv.pins[pin];
    var tbl := p.funcTbl;
    var reg := io.Readl(priv.PinReg(pin));
    var current := FieldGet(reg, 2, 0);
    ghost var z :| 0 <= z < |tbl| && tbl[z].name.None?;
    var i := 0;
    var found := false;
    while tbl[i].name.Some?
      invariant 0 <= i <= z
      invariant forall j :: 0 <= j < i ==> tbl[j].name.Some? && tbl[j].bits != current
      decreases z - i
    {
      if tbl[i].bits == current {
        found := true;
        break;
      }
      i := i + 1;
    }
    if found {
      assert FirstMux(tbl[i..], current) == Some(0);
      FirstMuxSkip(tbl, current, i);
      name := tbl[i].name.value;
    } else {
      FirstMuxSkip(tbl, current, i);
      name := "UNKNOWN!";
    }
    return 0, name;
  }

  /** Entries that are live and do not match can be skipped. */
  lemma {:induction false} FirstMuxSkip(tbl: seq<PinMuxDesc>, current: nat, i: nat)
    requires i < |tbl|
    requires forall j :: 0 <= j < i ==> tbl[j].name.Some? && tbl[j].bits != current
    ensures FirstMux(tbl, current) ==
      match FirstMux(tbl[i..], current) case None => None case Some(j) => Some(j + i)
    decreases i
  {
    if i > 0 {
      FirstMuxSkip(tbl[1..], current, i - 1);
      assert tbl[1..][i - 1..] == tbl[i..];
    }
  }

  /** Setting a function whose pattern fits the field makes get_pin_muxing
      report the first function of the pin with that pattern. */
  lemma PinmuxSetThenGet(w: Word, mask: u8, tbl: seq<PinMuxDesc>)
    requires mask < 8
    ensures MuxingName(tbl, FieldGet(MuxWord(w, mask), 2, 0)) == MuxingName(tbl, mask)
  {
    MuxWordReadsBack(w, mask);
  }

  // ---------------------------------------------------------------------
  // Pin configuration
  // ---------------------------------------------------------------------

  /** enum histb_pinctrl_bias_status */
  datatype BiasStatus = BiasPullDown | BiasPullUp | BiasDisable

  /** The word set_bias writes: both pull bits cleared, then the requested one set. */
  function BiasWord(w: Word, status: BiasStatus): (r: Word)
    ensures r[12] == (status == BiasPullUp) && r[13] == (status == BiasPullDown)
    ensures SameOutside(r, w, Or(PullDown(), PullUp()))
  {
    var reg := AndNot(w, Or(PullDown(), PullUp()));
    match status
    case BiasDisable => reg
    case BiasPullDown => Or(reg, PullDown())
    case BiasPullUp => Or(reg, PullUp())
  }

  /** histb_pinctrl_set_bias */
  method SetBias(priv: Priv, io: Mmio, pin: nat, status: BiasStatus) returns (ret: int)
    requires pin < |priv.pins|
    modifies io
    ensures ret == 0
    ensures io.words == old(io.words)[priv.PinReg(pin) := BiasWord(Read(old(io.words), priv.PinReg(pin)), status)]
  {
    var addr := priv.PinReg(pin);
    var reg := io.Readl(addr);
    reg := AndNot(reg, Or(PullDown(), PullUp()));
    match status {
      case BiasDisable =>
      case BiasPullDown => reg := Or(reg, PullDown());
      case BiasPullUp => reg := Or(reg, PullUp());
    }
    io.Writel(reg, addr);
    return 0;
  }

  /** The word a one-bit setter writes: `bit` set or cleared, every other bit as read. */
  function FlagWord(w: Word, bit: nat, on: bool): (r: Word)
    requires bit < 32
    ensures r[bit] == on
    ensures SameOutside(r, w, Bit(bit))
  {
    if on then Or(w, Bit(bit)) else AndNot(w, Bit(bit))
  }

  /** The effect of a one-bit setter: argument 1 sets, 0 clears, anything
      else is -EINVAL and no write. */
  predicate FlagEffect(before: map<nat, Word>, after: map<nat, Word>, ret: int,
                       addr: nat, bit: nat, argument: nat)
    requires bit < 32
  {
    if argument == 1 || argument == 0 then
      ret == 0 && after == before[addr := FlagWord(Read(before, addr), bit, argument == 1)]
    else
      ret == -EINVAL && after == before
  }

  /** histb_pinctrl_set_slew_rate */
  method SetSlewRate(priv: Priv, io: Mmio, pin: nat, argument: nat) returns (ret: int)
    requires pin < |priv.pins|
    modifies io
    ensures FlagEffect(old(io.words), io.words, ret, priv.PinReg(pin), 8, argument)
  {
    var addr := priv.PinReg(pin);
    var reg := io.Readl(addr);
    if argument == 1 {
      reg := Or(reg, SlewRate());
    } else if argument == 0 {
      reg := AndNot(reg, SlewRate());
    } else {
      return -EINVAL;
    }
    io.Writel(reg, addr);
    return 0;
  }

  /** histb_pinctrl_set_schmitt */
  method SetSchmitt(priv: Priv, io: Mmio, pin: nat, argument: nat) returns (ret: int)
    requires pin < |priv.pins|
    modifies io
    ensures FlagEffect(old(io.words), io.words, ret, priv.PinReg(pin), 14, argument)
  {
    var addr := priv.PinReg(pin);
    var reg := io.Readl(addr);
    if argument == 0 {
      reg := AndNot(reg, Schmitt());
    } else if argument == 1 {
      reg := Or(reg, Schmitt());
    } else {
      return -EINVAL;
    }
    io.Writel(reg, addr);
    return 0;
  }

  /** The index of the first 0 in a terminated drive table. */
  function FirstZero(tbl: seq<u8>): (z: nat)
    requires DrvTerminated(tbl)
    ensures z < |tbl| && tbl[z] == 0
    ensures forall k :: 0 <= k < z ==> tbl[k] != 0
  {
    if tbl[0] == 0 then 0
    else
      assert DrvTerminated(tbl[1..]) by {
        var z :| 0 <= z < |tbl| && tbl[z] == 0;
        assert tbl[1..][z - 1] == 0;
      }
      1 + FirstZero(tbl[1..])
  }

  /** The index set_drive_strength selects for an argument of at least 1:
      the first entry not above the argument, or, when that is the
      terminator, the entry before it (-1 for a table holding only the
      terminator). */
  function DriveIndex(tbl: seq<u8>, argument: nat): (i: int)
    requires DrvTerminated(tbl) && argument >= 1
    ensures -1 <= i < FirstZero(tbl)
    ensures 0 <= i && tbl[i] <= argument ==> forall k :: 0 <= k < i ==> tbl[k] > argument
    ensures (i < 0 || tbl[i] > argument) ==>
      i == FirstZero(tbl) - 1 && forall k :: 0 <= k < FirstZero(tbl) ==> tbl[k] > argument
  {
    var j := FirstAtMost(tbl, argument, 0);
    if tbl[j] == 0 then j - 1 else j
  }

  /** The first index from `from` on whose entry is at most `argument`. */
  function FirstAtMost(tbl: seq<u8>, argument: nat, from: nat): (j: nat)
    requires DrvTerminated(tbl) && argument >= 1 && from <= FirstZero(tbl)
    ensures from <= j <= FirstZero(tbl) && tbl[j] <= argument
    ensures forall k :: from <= k < j ==> tbl[k] > argument
    decreases FirstZero(tbl) - from
  {
    if tbl[from] <= argument then from else FirstAtMost(tbl, argument, from + 1)
  }

  /** A drive table whose live entries strictly decrease, as the SoC tables
      list strengths. */
  predicate Descending(tbl: seq<u8>)
    requires DrvTerminated(tbl)
  {
    forall a, b :: 0 <= a < b < FirstZero(tbl) ==> tbl[a] > tbl[b]
  }

  /** On a descending table the selected strength is the largest one that
      does not exceed the argument, and the smallest one when all exceed it. */
  lemma DriveIndexIsBestFit(tbl: seq<u8>, argument: nat)
    requires DrvTerminated(tbl) && argument >= 1 && Descending(tbl)
    requires FirstZero(tbl) > 0
    ensures var i := DriveIndex(tbl, argument);
      0 <= i && forall k :: 0 <= k < FirstZero(tbl) && tbl[k] <= argument ==> tbl[k] <= tbl[i]
    ensures var i := DriveIndex(tbl, argument);
      tbl[i] > argument ==> forall k :: 0 <= k < FirstZero(tbl) ==> tbl[i] <= tbl[k]
  {
  }

  /** The word set_drive_strength writes: the drive field gets the index. */
  function DriveWord(w: Word, i: int): (r: Word)
    ensures SameOutside(r, w, DrvMask())
    ensures forall k :: 4 <= k < 8 ==> r[k] == FromInt(i)[k - 4]
  {
    Or(AndNot(w, DrvMask()), FieldPrep(7, 4, i))
  }

  /** Indices 0 .. 15 are encoded as themselves. */
  lemma DriveWordReadsBack(w: Word, i: int)
    requires 0 <= i < 16
    ensures FieldGet(DriveWord(w, i), 7, 4) == i
  {
    var r := DriveWord(w, i);
    assert Pow2(4) == 16;
    FromIntLow(i, 4);
    assert r[4..8] == FromInt(i)[..4];
  }

  /** Index -1, from a table holding only its terminator, fills the drive
      field: it reads back as 15. */
  lemma DriveWordOfMinusOne(w: Word)
    ensures forall k :: 4 <= k < 8 ==> DriveWord(w, -1)[k]
  {
    Pow2Of32();
    BitsOfAllOnes(0xFFFF_FFFF, 32);
  }

  /** The effect of set_drive_strength on the window. */
  predicate DriveEffect(before: map<nat, Word>, after: map<nat, Word>, ret: int,
                        addr: nat, drvTbl: Option<seq<u8>>, argument: nat)
    requires drvTbl.Some? ==> DrvTerminated(drvTbl.value)
  {
    if argument == 0 then
      ret == -EINVAL && after == before
    else if drvTbl.None? then
      ret == -ENOENT && after == before
    else
      var i := DriveIndex(drvTbl.value, argument);
      ret == 0 && after == before[addr := DriveWord(Read(before, addr), i)]
  }

  /** histb_pinctrl_set_drive_strength */
  method SetDriveStrength(priv: Priv, io: Mmio, pin: nat, argument: nat) returns (ret: int)
    requires priv.Valid()
    requires pin < |priv.pins|
    modifies io
    ensures DriveEffect(old(io.words), io.words, ret, priv.PinReg(pin), priv.pins[pin].drvTbl, argument)
  {
    var p := priv.pins[pin];
    var addr := priv.PinReg(pin);
    var reg := io.Readl(addr);
    if argument == 0 {
      return -EINVAL;
    }
    if p.drvTbl.None? {
      return -ENOENT;
    }
    var tbl := p.drvTbl.value;
    ghost var z := FirstZero(tbl);
    var i := 0;
    while tbl[i] > argument
      invariant 0 <= i <= z
      invariant forall k :: 0 <= k < i ==> tbl[k] > argument
      decreases z - i
    {
      i := i + 1;
    }
    assert i == FirstAtMost(tbl, argument, 0) by {
      FirstAtMostIsFirst(tbl, argument, 0, i);
    }
    if tbl[i] == 0 {
      i := i - 1;
    }
    reg := AndNot(reg, DrvMask());
    reg := Or(reg, FieldPrep(7, 4, i));
    io.Writel(reg, addr);
    return 0;
  }

  /** FirstAtMost is the first index at or after `from` whose entry is at
      most the argument. */
  lemma {:induction false} FirstAtMostIsFirst(tbl: seq<u8>, argument: nat, from: nat, i: nat)
    requires DrvTerminated(tbl) && argument >= 1 && from <= i < |tbl|
    requires from <= FirstZero(tbl)
    requires tbl[i] <= argument
    requires forall k :: from <= k < i ==> tbl[k] > argument
    ensures FirstAtMost(tbl, argument, from) == i
    decreases i - from
  {
    if from < i {
      FirstAtMostIsFirst(tbl, argument, from + 1, i);
    }
  }

  /** The pinconf parameters the driver handles, and any other. */
  datatype Param =
    | PinConfigBiasDisable
    | PinConfigBiasPullUp
    | PinConfigBiasPullDown
    | PinConfigSlewRate
    | PinConfigInputSchmittEnable
    | PinConfigDriveStrength
    | Unsupported(code: nat)

  /** histb_pinctrl_pinconf_params: device tree property, parameter, default argument. */
  const PinconfParams: seq<(string, Param, nat)> := [
    ("bias-disable", PinConfigBiasDisable, 0),
    ("bias-pulldown", PinConfigBiasPullDown, 0),
    ("bias-pullup", PinConfigBiasPullUp, 0),
    ("input-schmitt-enable", PinConfigInputSchmittEnable, 1),
    ("input-schmitt-disable", PinConfigInputSchmittEnable, 0),
    ("drive-strength", PinConfigDriveStrength, 1),
    ("slew-rate", PinConfigSlewRate, 1)]

  /** Every property the driver advertises maps to a parameter it handles. */
  lemma PinconfParamsHandled()
    ensures |PinconfParams| == 7
    ensures forall i :: 0 <= i < |PinconfParams| ==> !PinconfParams[i].1.Unsupported?
  {
  }

  /** The effect of pinconf_set: each known parameter has its setter's effect. */
  predicate PinconfEffect(before: map<nat, Word>, after: map<nat, Word>, ret: int,
                          addr: nat, pin: PinDesc, param: Param, argument: nat)
    requires PinValid(pin)
  {
    match param
    case PinConfigBiasDisable => ret == 0 && after == before[addr := BiasWord(Read(before, addr), BiasDisable)]
    case PinConfigBiasPullUp => ret == 0 && after == before[addr := BiasWord(Read(before, addr), BiasPullUp)]
    case PinConfigBiasPullDown => ret == 0 && after == before[addr := BiasWord(Read(before, addr), BiasPullDown)]
    case PinConfigSlewRate => FlagEffect(before, after, ret, addr, 8, argument)
    case PinConfigInputSchmittEnable => FlagEffect(before, after, ret, addr, 14, argument)
    case PinConfigDriveStrength => DriveEffect(before, after, ret, addr, pin.drvTbl, argument)
    case Unsupported(_) => ret == -EINVAL && after == before
  }

  /** histb_pinctrl_pinconf_set */
  method PinconfSet(priv: Priv, io: Mmio, pin: nat, param: Param, argument: nat) returns (ret: int)
    requires priv.Valid()
    requires pin < |priv.pins|
    modifies io
    ensures PinconfEffect(old(io.words), io.words, ret, priv.PinReg(pin), priv.pins[pin], param, argument)
  {
    match param {
      case PinConfigBiasDisable => ret := SetBias(priv, io, pin, BiasDisable);
      case PinConfigBiasPullUp => ret := SetBias(priv, io, pin, BiasPullUp);
      case PinConfigBiasPullDown => ret := SetBias(priv, io, pin, BiasPullDown);
      case PinConfigSlewRate => ret := SetSlewRate(priv, io, pin, argument);
      case PinConfigInputSchmittEnable => ret := SetSchmitt(priv, io, pin, argument);
      case PinConfigDriveStrength => ret := SetDriveStrength(priv, io, pin, argument);
      case Unsupported(_) => ret := -EINVAL;
    }
  }

  /** histb_pinctrl_of_to_plat: store the remapped base (0 is NULL); a NULL
      base is -EINVAL. */
  method OfToPlat(priv: Priv, remapped: nat) returns (ret: int)
    modifies priv
    ensures priv.base == remapped
    ensures ret == (if remapped == 0 then -EINVAL else 0)
  {
    priv.base := remapped;
    if priv.base == 0 {
      return -EINVAL;
    }
    return 0;
  }
}
