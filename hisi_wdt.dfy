/**
 * The HiSilicon watchdog of drivers/watchdog/hisi_wdt.c.  Its register
 * block is a record of u32 registers; every operation unlocks the block by
 * writing the magic value to LOCK, updates one register and locks it again
 * by writing 0.  The clock rate is an input (clk_get_rate is not part of
 * this model); mul_u64_u32_div takes it cut to 32 bits.
 */
module HisiWdt {
  import opened Common
  import opened Word32

  // CONTROL register bits
  const ResEn: nat := 1
  const IntEn: nat := 0

  /** The value that unlocks the registers; any other locks them. */
  const LockMagic: nat := 0x1ACCE551

  /** The registers of struct hisi_wdg_reg. */
  datatype Reg = LoadReg | ValueReg | ControlReg | IntclrReg | RisReg | MisReg | LockReg

  /** A member of the register struct: one register or reserved words. */
  datatype Member = Field(reg: Reg) | Reserved(words: nat)

  /** struct hisi_wdg_reg, in declaration order. */
  const Layout: seq<Member> := [
    Field(LoadReg), Field(ValueReg), Field(ControlReg), Field(IntclrReg),
    Field(RisReg), Field(MisReg), Reserved(762), Field(LockReg)]

  function Words(m: Member): nat
  {
    match m
    case Field(_) => 1
    case Reserved(n) => n
  }

  /** The byte offset of `r` within a struct laid out as `members`,
      counted from member `i`, each 32-bit word taking four bytes. */
  function OffsetFrom(members: seq<Member>, i: nat, r: Reg): (off: Option<nat>)
    requires i <= |members|
    ensures off.Some? ==> off.value % 4 == 0
    ensures off.None? <==> forall j :: i <= j < |members| ==> members[j] != Field(r)
    decreases |members| - i
  {
    if i == |members| then None
    else if members[i] == Field(r) then Some(0)
    else match OffsetFrom(members, i + 1, r)
      case None => None
      case Some(o) => Some(4 * Words(members[i]) + o)
  }

  /** The byte offset of `r` within the whole struct. */
  function OffsetOf(members: seq<Member>, r: Reg): (off: Option<nat>)
  {
    OffsetFrom(members, 0, r)
  }

  /** The offsets the struct's comments give: 0x0 to 0x14 for the six
      counter, control and status registers ... */
  lemma RegisterOffsets()
    ensures OffsetOf(Layout, LoadReg) == Some(0x0)
    ensures OffsetOf(Layout, ValueReg) == Some(0x4)
    ensures OffsetOf(Layout, ControlReg) == Some(0x8)
    ensures OffsetOf(Layout, IntclrReg) == Some(0xc)
    ensures OffsetOf(Layout, RisReg) == Some(0x10)
    ensures OffsetOf(Layout, MisReg) == Some(0x14)
  {
  }

  /** ... and 0xc00 for LOCK, after 762 reserved words. */
  lemma LockOffset()
    ensures OffsetOf(Layout, LockReg) == Some(0xc00)
  {
    assert OffsetFrom(Layout, 7, LockReg) == Some(0);
    assert OffsetFrom(Layout, 6, LockReg) == Some(3048);
    assert OffsetFrom(Layout, 5, LockReg) == Some(3052);
    assert OffsetFrom(Layout, 4, LockReg) == Some(3056);
    assert OffsetFrom(Layout, 3, LockReg) == Some(3060);
    assert OffsetFrom(Layout, 2, LockReg) == Some(3064);
    assert OffsetFrom(Layout, 1, LockReg) == Some(3068);
  }

  /** The contents of struct hisi_wdg_reg, reserved words aside. */
  datatype Regs = Regs(load: u32, value: u32, control: u32, intclr: u32,
                       ris: u32, mis: u32, lock: u32)
  {
    /** Register `r` of the block. */
    function Get(r: Reg): (v: u32)
    {
      match r
      case LoadReg => load
      case ValueReg => value
      case ControlReg => control
      case IntclrReg => intclr
      case RisReg => ris
      case MisReg => mis
      case LockReg => lock
    }
  }

  /** The block after a store of `v` to register `r`: `r` reads back `v`
      and every other register is as before. */
  function Store(s: Regs, r: Reg, v: u32): (t: Regs)
    ensures t.Get(r) == v
    ensures forall q :: q != r ==> t.Get(q) == s.Get(q)
  {
    match r
    case LoadReg => s.(load := v)
    case ValueReg => s.(value := v)
    case ControlReg => s.(control := v)
    case IntclrReg => s.(intclr := v)
    case RisReg => s.(ris := v)
    case MisReg => s.(mis := v)
    case LockReg => s.(lock := v)
  }

  /** The register block behind priv->reg, and the stores the driver made
      to it, in order. */
  class WdgReg {
    var load: u32
    var value: u32
    var control: u32
    var intclr: u32
    var ris: u32
    var mis: u32
    var lock: u32
    /** Every store to the block, oldest first. */
    ghost var writes: seq<(Reg, u32)>

    constructor (control: u32)
      ensures Snapshot() == Regs(0, 0, control, 0, 0, 0, 0) && writes == []
    {
      this.control := control;
      load, value, intclr, ris, mis, lock := 0, 0, 0, 0, 0, 0;
      writes := [];
    }

    /** The seven registers as read now. */
    function Snapshot(): Regs
      reads this
    {
      Regs(load, value, control, intclr, ris, mis, lock)
    }

    /** A 32-bit store to register `r`. */
    method Write(r: Reg, v: u32)
      modifies this
      ensures Snapshot() == Store(old(Snapshot()), r, v)
      ensures writes == old(writes) + [(r, v)]
    {
      match r {
        case LoadReg => load := v;
        case ValueReg => value := v;
        case ControlReg => control := v;
        case IntclrReg => intclr := v;
        case RisReg => ris := v;
        case MisReg => mis := v;
        case LockReg => lock := v;
      }
      writes := writes + [(r, v)];
    }
  }

  /** hisi_wdt_unlock */
  method Unlock(reg: WdgReg)
    modifies reg
    ensures reg.Snapshot() == old(reg.Snapshot()).(lock := LockMagic)
    ensures reg.writes == old(reg.writes) + [(LockReg, LockMagic)]
  {
    reg.Write(LockReg, LockMagic);
  }

  /** hisi_wdt_lock */
  method Lock(reg: WdgReg)
    modifies reg
    ensures reg.Snapshot() == old(reg.Snapshot()).(lock := 0)
    ensures reg.writes == old(reg.writes) + [(LockReg, 0)]
  {
    reg.Write(LockReg, 0);
  }

  // ---------------------------------------------------------------------
  // The timeout load
  // ---------------------------------------------------------------------

  const U64Modulus: nat := 0x1_0000_0000_0000_0000

  /** mul_u64_u32_div as the kernel computes it: the quotient of the 96-bit
      product, returned in a u64, so a quotient of 2^64 or more wraps. */
  function MulU64U32Div(a: u64, mul: u32, divisor: nat): (r: u64)
    requires divisor > 0
    ensures a * mul / divisor < U64Modulus ==> r == a * mul / divisor
  {
    var product: nat := a * mul;
    var quotient: nat := product / divisor;
    quotient % U64Modulus
  }

  /** The load hisi_wdt_start computes as written: the wrapped quotient,
      saturated at UINT32_MAX. */
  function AsWrittenLoad(timeoutMs: u64, rate: u32): (ticks: u32)
    ensures ticks == UINT32_MAX <==> (timeoutMs * rate / 1000) % U64Modulus >= UINT32_MAX
    ensures ticks < UINT32_MAX ==> ticks == (timeoutMs * rate / 1000) % U64Modulus
  {
    var val := MulU64U32Div(timeoutMs, rate, 1000);
    if val > UINT32_MAX then UINT32_MAX else val
  }

  /** The load the driver means: timeout_ms milliseconds in clock ticks,
      saturated at UINT32_MAX. */
  function LoadTicks(timeoutMs: u64, rate: u32): (ticks: u32)
    ensures ticks == UINT32_MAX <==> timeoutMs * rate / 1000 >= UINT32_MAX
    ensures ticks < UINT32_MAX ==> ticks == timeoutMs * rate / 1000
  {
    var product: nat := timeoutMs * rate;
    var val := product / 1000;
    if val > UINT32_MAX then UINT32_MAX else val
  }

  /** Without wrap-around the driver's load is the intended one. */
  lemma AsWrittenLoadAgrees(timeoutMs: u64, rate: u32)
    requires timeoutMs * rate / 1000 < U64Modulus
    ensures AsWrittenLoad(timeoutMs, rate) == LoadTicks(timeoutMs, rate)
  {
  }

  /** A timeout of 768614336404565 ms at 24 MHz is about 2^64 ticks; the
      quotient wraps to 8384, which passes the saturation test, so the
      driver loads 8384 ticks (0.35 ms) where the intended load is
      UINT32_MAX. */
  lemma LoadWrapCounterexample()
    ensures AsWrittenLoad(768614336404565, 24000000) == 8384
    ensures LoadTicks(768614336404565, 24000000) == UINT32_MAX
  {
    assert 768614336404565 * 24000000 / 1000 == 18446744073709560000;
    assert 18446744073709560000 % U64Modulus == 8384;
  }

  /** The rate as mul_u64_u32_div receives it: clk_get_rate's unsigned long
      cut to 32 bits. */
  function RateArg(rate: u64): (mul: u32)
    ensures rate < 0x1_0000_0000 ==> mul == rate
  {
    rate % 0x1_0000_0000
  }

  /** A timeout of 1 ms loads rate / 1000 ticks, which always fits. */
  lemma ExpireNowLoad(rate: u32)
    ensures LoadTicks(1, rate) == rate / 1000
  {
  }

  // ---------------------------------------------------------------------
  // Operations
  // ---------------------------------------------------------------------

  /** CONTROL after start: RES_EN and INT_EN set, every other bit as read. */
  function StartControl(c: u32): (r: u32)
    ensures FromInt(r)[IntEn] && FromInt(r)[ResEn]
    ensures SameOutside(FromInt(r), FromInt(c), Or(Bit(ResEn), Bit(IntEn)))
  {
    ToU32(Or(FromInt(c), Or(Bit(ResEn), Bit(IntEn))))
  }

  /** CONTROL after stop: INT_EN cleared, RES_EN and the rest as read. */
  function StopControl(c: u32): (r: u32)
    ensures !FromInt(r)[IntEn]
    ensures SameOutside(FromInt(r), FromInt(c), Bit(IntEn))
  {
    ToU32(AndNot(FromInt(c), Bit(IntEn)))
  }

  /** A stop after a start leaves the reset enable set and interrupts off. */
  lemma StopAfterStart(c: u32)
    ensures FromInt(StopControl(StartControl(c)))[ResEn]
    ensures !FromInt(StopControl(StartControl(c)))[IntEn]
  {
  }

  /** The stores of one operation: the unlock magic first, 0 to LOCK last,
      and only other registers in between. */
  predicate Bracketed(ws: seq<(Reg, u32)>)
  {
    && |ws| >= 2
    && ws[0] == (LockReg, LockMagic)
    && ws[|ws| - 1] == (LockReg, 0)
    && forall i :: 0 < i < |ws| - 1 ==> ws[i].0 != LockReg
  }

  /** The stores of hisi_wdt_start on a block whose CONTROL reads `c`. */
  function StartWrites(c: u32, timeoutMs: u64, rate: u32): seq<(Reg, u32)>
  {
    [(LockReg, LockMagic), (LoadReg, LoadTicks(timeoutMs, rate)),
     (ControlReg, StartControl(c)), (LockReg, 0)]
  }

  /** The stores of hisi_wdt_stop. */
  function StopWrites(c: u32): seq<(Reg, u32)>
  {
    [(LockReg, LockMagic), (ControlReg, StopControl(c)), (LockReg, 0)]
  }

  /** The stores of hisi_wdt_reset. */
  function ResetWrites(): seq<(Reg, u32)>
  {
    [(LockReg, LockMagic), (IntclrReg, 0), (LockReg, 0)]
  }

  /** Each operation unlocks, updates, and locks again. */
  lemma OperationsBracketed(c: u32, timeoutMs: u64, rate: u32)
    ensures Bracketed(StartWrites(c, timeoutMs, rate))
    ensures Bracketed(StopWrites(c))
    ensures Bracketed(ResetWrites())
  {
  }

  /** hisi_wdt_start, with the intended load. */
  method Start(reg: WdgReg, timeoutMs: u64, rate: u64) returns (ret: int)
    modifies reg
    ensures ret == 0
    ensures reg.writes == old(reg.writes) + StartWrites(old(reg.control), timeoutMs, RateArg(rate))
    ensures reg.Snapshot() == old(reg.Snapshot()).(load := LoadTicks(timeoutMs, RateArg(rate)),
      control := StartControl(old(reg.control)), lock := 0)
    ensures timeoutMs * RateArg(rate) / 1000 < U64Modulus ==>
      reg.load == AsWrittenLoad(timeoutMs, RateArg(rate))
  {
    var mul: u32 := rate % 0x1_0000_0000;
    var product: nat := timeoutMs * mul;
    var val := product / 1000;
    if val > UINT32_MAX {
      val := UINT32_MAX;
    }
    Unlock(reg);
    reg.Write(LoadReg, val);
    reg.Write(ControlReg, ToU32(Or(FromInt(reg.control), Or(Bit(ResEn), Bit(IntEn)))));
    Lock(reg);
    if timeoutMs * RateArg(rate) / 1000 < U64Modulus {
      AsWrittenLoadAgrees(timeoutMs, RateArg(rate));
    }
    return 0;
  }

  /** hisi_wdt_stop */
  method Stop(reg: WdgReg) returns (ret: int)
    modifies reg
    ensures ret == 0
    ensures reg.writes == old(reg.writes) + StopWrites(old(reg.control))
    ensures reg.Snapshot() == old(reg.Snapshot()).(control := StopControl(old(reg.control)), lock := 0)
  {
    Unlock(reg);
    reg.Write(ControlReg, ToU32(AndNot(FromInt(reg.control), Bit(IntEn))));
    Lock(reg);
    return 0;
  }

  /** hisi_wdt_reset: any store to INTCLR reloads the counter. */
  method Reset(reg: WdgReg) returns (ret: int)
    modifies reg
    ensures ret == 0
    ensures reg.writes == old(reg.writes) + ResetWrites()
    ensures reg.Snapshot() == old(reg.Snapshot()).(intclr := 0, lock := 0)
  {
    Unlock(reg);
    reg.Write(IntclrReg, 0);
    Lock(reg);
    return 0;
  }

  /** hisi_wdt_expire_now: start with a timeout of 1 ms. */
  method ExpireNow(reg: WdgReg, rate: u64) returns (ret: int)
    modifies reg
    ensures ret == 0
    ensures reg.writes == old(reg.writes) + StartWrites(old(reg.control), 1, RateArg(rate))
    ensures reg.Snapshot() == old(reg.Snapshot()).(load := RateArg(rate) / 1000,
      control := StartControl(old(reg.control)), lock := 0)
  {
    ExpireNowLoad(RateArg(rate));
    ret := Start(reg, 1, rate);
  }
}
