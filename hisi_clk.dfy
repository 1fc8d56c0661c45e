/**
 * The HiSilicon clock-table registration helpers (drivers/clk/hisilicon/clk.h
 * and clk.c).
 *
 * The common clock framework that the helpers call into (clk_register_fixed_rate,
 * clk_register_mux_table, clk_register_gate and clk_dm) is not part of this
 * model.  It is represented by the class Framework: a map from clock name to
 * the clock handed over, a map from numeric id to clock name, the log of every
 * name offered for registration, and a fixed decision function that says, for
 * the clocks registered so far and the clock offered, whether registration
 * succeeds or fails with some error.
 */
module HisiClk {
  import opened Common
  import opened Word32

  // ---------------------------------------------------------------------
  // Record types of clk.h
  // ---------------------------------------------------------------------

  /** struct hisi_fixed_rate_clock: an id, a name and a rate; no parent, no register. */
  datatype FixedRateClock = FixedRateClock(id: nat, name: string, fixedRate: nat)

  /** struct hisi_mux_clock: ordered parent names with an 8-bit count, the
      register field (offset, shift, width) and the u32 translation table. */
  datatype MuxClock = MuxClock(
    id: nat, name: string, parentNames: seq<string>, numParents: u8, flags: nat,
    offset: nat, shift: u8, width: u8, muxFlags: u8, table: seq<u32>)

  /** struct hisi_gate_clock: exactly one parent name, possibly NULL, and an 8-bit bit index. */
  datatype GateClock = GateClock(
    id: nat, name: string, parentName: Option<string>, flags: nat,
    offset: nat, bitIdx: u8, gateFlags: u8)

  /** struct hisi_clock_data: a domain's data is its register base (0 is NULL).
      hisi_clk_init stores into it, so it is an object. */
  class ClockData {
    var base: nat

    constructor ()
      ensures base == 0
    {
      base := 0;
    }
  }

  /** hisi_clk_init: store the remapped base; a NULL base is -EINVAL. */
  method Init(data: ClockData, remapped: nat) returns (ret: int)
    modifies data
    ensures data.base == remapped
    ensures ret == (if remapped == 0 then -EINVAL else 0)
  {
    data.base := remapped;
    if data.base == 0 {
      return -EINVAL;
    }
    return 0;
  }

  // ---------------------------------------------------------------------
  // What the helpers hand to the clock framework
  // ---------------------------------------------------------------------

  /** The one static spinlock of clk.c; every gate is registered with it. */
  datatype Spinlock = ClkLock

  /** A clock as passed to clk_register_fixed_rate, clk_register_mux_table or
      clk_register_gate: register fields are absolute addresses. */
  datatype Clock =
    | FixedRate(name: string, rate: nat)
    | Mux(name: string, parents: seq<string>, numParents: u8, flags: nat,
          reg: nat, shift: u8, mask: u32, muxFlags: u8, table: seq<u32>)
    | Gate(name: string, parent: Option<string>, flags: nat,
           reg: nat, bitIdx: u8, gateFlags: u8, lock: Spinlock)

  /** An error pointer: IS_ERR holds and PTR_ERR is a negative errno. */
  type Errno = e: int | -4095 <= e < 0 witness -EINVAL

  datatype Verdict = Accept | Refuse(err: Errno)

  /** The framework's decision, given the clocks registered so far and the clock offered. */
  type Decision = (map<string, Clock>, Clock) -> Verdict

  /** The framework's registry: clocks by name, clk_dm's id bindings, and the
      names offered so far in order. */
  datatype Ccf = Ccf(clocks: map<string, Clock>, ids: map<nat, string>, log: seq<string>)

  /** The mux mask of hisi_clk_register_mux: BIT(width) - 1, the low `width` bits. */
  function MuxMask(width: u8): (mask: u32)
    requires width < 32
    ensures mask + 1 == Pow2(width)
    ensures forall k :: 0 <= k < 32 ==> FromInt(mask)[k] == (k < width as int)
  {
    Pow2Bound(width);
    FromIntLowOnes(Pow2(width) - 1, width as nat);
    Pow2(width) - 1
  }

  function FixedRateOf(c: FixedRateClock): Clock {
    FixedRate(c.name, c.fixedRate)
  }

  /** clk_register_mux_table's arguments: base + offset, shift and table unchanged, the derived mask. */
  function MuxOf(c: MuxClock, base: nat): Clock
    requires c.width < 32
  {
    Mux(c.name, c.parentNames, c.numParents, c.flags, base + c.offset, c.shift,
        MuxMask(c.width), c.muxFlags, c.table)
  }

  /** clk_register_gate's arguments: base + offset, bit_idx and the shared lock. */
  function GateOf(c: GateClock, base: nat): Clock {
    Gate(c.name, c.parentName, c.flags, base + c.offset, c.bitIdx, c.gateFlags, ClkLock)
  }

  /** A table as the loops see it: each entry's id and the clock registered for it. */
  type Batch = seq<(nat, Clock)>

  function FixedBatch(clks: seq<FixedRateClock>): (b: Batch)
    ensures |b| == |clks|
    ensures forall i :: 0 <= i < |clks| ==> b[i] == (clks[i].id, FixedRateOf(clks[i]))
  {
    if clks == [] then [] else [(clks[0].id, FixedRateOf(clks[0]))] + FixedBatch(clks[1..])
  }

  function MuxBatch(clks: seq<MuxClock>, base: nat): (b: Batch)
    requires forall i :: 0 <= i < |clks| ==> clks[i].width < 32
    ensures |b| == |clks|
    ensures forall i :: 0 <= i < |clks| ==> b[i] == (clks[i].id, MuxOf(clks[i], base))
  {
    if clks == [] then [] else [(clks[0].id, MuxOf(clks[0], base))] + MuxBatch(clks[1..], base)
  }

  function GateBatch(clks: seq<GateClock>, base: nat): (b: Batch)
    ensures |b| == |clks|
    ensures forall i :: 0 <= i < |clks| ==> b[i] == (clks[i].id, GateOf(clks[i], base))
  {
    if clks == [] then [] else [(clks[0].id, GateOf(clks[0], base))] + GateBatch(clks[1..], base)
  }

  function Names(b: Batch): (ns: seq<string>)
    ensures |ns| == |b|
    ensures forall i :: 0 <= i < |b| ==> ns[i] == b[i].1.name
  {
    if b == [] then [] else [b[0].1.name] + Names(b[1..])
  }

  // ---------------------------------------------------------------------
  // The registration walk
  // ---------------------------------------------------------------------

  /** One clk_register_* call: the name is logged, and the clock is kept if accepted. */
  function Offer(decide: Decision, s: Ccf, c: Clock): Ccf {
    var logged := s.(log := s.log + [c.name]);
    if decide(s.clocks, c).Accept? then logged.(clocks := s.clocks[c.name := c]) else logged
  }

  /** One clk_dm call: bind the id to the clock. */
  function Bind(s: Ccf, id: nat, name: string): Ccf {
    s.(ids := s.ids[id := name])
  }

  datatype Outcome = Outcome(state: Ccf, ret: int)

  /** How many entries of a finished walk were accepted (and bound). */
  function Accepted(s: Ccf, r: Outcome): int {
    |r.state.log| - |s.log| - (if r.ret != 0 then 1 else 0)
  }

  /** The walk of every hisi_clk_register_* loop: offer each entry in table
      order, bind its id when accepted, and stop at the first refusal,
      returning its error; 0 when the whole table was accepted. */
  function Walk(decide: Decision, s: Ccf, b: Batch): Outcome
    decreases |b|
  {
    if b == [] then Outcome(s, 0)
    else
      var s1 := Offer(decide, s, b[0].1);
      match decide(s.clocks, b[0].1)
      case Refuse(e) => Outcome(s1, e)
      case Accept => Walk(decide, Bind(s1, b[0].0, b[0].1.name), b[1..])
  }

  /** The log after a walk: the earlier log, then the names of a prefix of the table. */
  ghost predicate LogsPrefix(s: Ccf, b: Batch, log: seq<string>)
  {
    && |s.log| <= |log| <= |s.log| + |b|
    && log[..|s.log|] == s.log
    && forall i :: |s.log| <= i < |log| ==> log[i] == b[i - |s.log|].1.name
  }

  /** A walk offers the names of a prefix of the table, in table order. */
  lemma {:induction false} WalkLogsPrefix(decide: Decision, s: Ccf, b: Batch)
    ensures LogsPrefix(s, b, Walk(decide, s, b).state.log)
    decreases |b|
  {
    if b != [] && decide(s.clocks, b[0].1).Accept? {
      var s2 := Bind(Offer(decide, s, b[0].1), b[0].0, b[0].1.name);
      WalkLogsPrefix(decide, s2, b[1..]);
      var log := Walk(decide, s2, b[1..]).state.log;
      assert log[..|s2.log|][..|s.log|] == log[..|s.log|];
    }
  }

  /** A walk returns 0 exactly when it offered, and the framework accepted,
      every entry; otherwise it returns a negative error after offering at
      least one entry.  An empty table returns 0 and changes nothing. */
  lemma {:induction false} WalkResult(decide: Decision, s: Ccf, b: Batch)
    ensures b == [] ==> Walk(decide, s, b) == Outcome(s, 0)
    ensures var r := Walk(decide, s, b);
      && r.ret <= 0
      && (r.ret == 0 ==> |r.state.log| == |s.log| + |b|)
      && (r.ret != 0 ==> |s.log| < |r.state.log| <= |s.log| + |b|)
    decreases |b|
  {
    if b != [] && decide(s.clocks, b[0].1).Accept? {
      WalkResult(decide, Bind(Offer(decide, s, b[0].1), b[0].0, b[0].1.name), b[1..]);
    }
  }

  /** No rollback: a walk removes nothing registered or bound before it, even when it fails. */
  lemma {:induction false} WalkNoRollback(decide: Decision, s: Ccf, b: Batch)
    ensures s.clocks.Keys <= Walk(decide, s, b).state.clocks.Keys
    ensures s.ids.Keys <= Walk(decide, s, b).state.ids.Keys
    decreases |b|
  {
    if b != [] && decide(s.clocks, b[0].1).Accept? {
      WalkNoRollback(decide, Bind(Offer(decide, s, b[0].1), b[0].0, b[0].1.name), b[1..]);
    }
  }

  /** On success every entry's name is registered and its id bound (to some
      clock: a later entry may reuse an id or a name); an empty table changes nothing. */
  lemma {:induction false} WalkRegistersAll(decide: Decision, s: Ccf, b: Batch)
    requires Walk(decide, s, b).ret == 0
    ensures forall i :: 0 <= i < |b| ==>
      b[i].1.name in Walk(decide, s, b).state.clocks && b[i].0 in Walk(decide, s, b).state.ids
    ensures b == [] ==> Walk(decide, s, b).state == s
    decreases |b|
  {
    if b != [] {
      var s1 := Bind(Offer(decide, s, b[0].1), b[0].0, b[0].1.name);
      WalkRegistersAll(decide, s1, b[1..]);
      WalkNoRollback(decide, s1, b[1..]);
      forall i | 0 <= i < |b|
        ensures b[i].1.name in Walk(decide, s, b).state.clocks && b[i].0 in Walk(decide, s, b).state.ids
      {
        if i > 0 {
          assert b[i] == b[1..][i - 1];
        }
      }
    }
  }

  /** When the table's names are distinct, a successful walk leaves every
      entry's own clock registered under its name. */
  lemma {:induction false} WalkRegistersEach(decide: Decision, s: Ccf, b: Batch)
    requires Walk(decide, s, b).ret == 0
    requires forall i, j :: 0 <= i < j < |b| ==> b[i].1.name != b[j].1.name
    ensures forall i :: 0 <= i < |b| ==>
      b[i].1.name in Walk(decide, s, b).state.clocks &&
      Walk(decide, s, b).state.clocks[b[i].1.name] == b[i].1
    decreases |b|
  {
    if b != [] {
      var s1 := Bind(Offer(decide, s, b[0].1), b[0].0, b[0].1.name);
      WalkRegistersEach(decide, s1, b[1..]);
      WalkKeepsClock(decide, s1, b[1..], b[0].1.name);
      var r := Walk(decide, s, b).state;
      forall i | 0 <= i < |b|
        ensures b[i].1.name in r.clocks && r.clocks[b[i].1.name] == b[i].1
      {
        if i > 0 {
          assert b[i] == b[1..][i - 1];
        }
      }
    }
  }

  /** When the table's ids are distinct, a successful walk leaves every entry's
      id bound to its name (clk_dm(clks[i].id, clk)). */
  lemma {:induction false} WalkBindsEach(decide: Decision, s: Ccf, b: Batch)
    requires Walk(decide, s, b).ret == 0
    requires forall i, j :: 0 <= i < j < |b| ==> b[i].0 != b[j].0
    ensures forall i :: 0 <= i < |b| ==>
      b[i].0 in Walk(decide, s, b).state.ids &&
      Walk(decide, s, b).state.ids[b[i].0] == b[i].1.name
    decreases |b|
  {
    if b != [] {
      var s1 := Bind(Offer(decide, s, b[0].1), b[0].0, b[0].1.name);
      WalkBindsEach(decide, s1, b[1..]);
      WalkKeepsId(decide, s1, b[1..], b[0].0);
      var r := Walk(decide, s, b).state;
      forall i | 0 <= i < |b|
        ensures b[i].0 in r.ids && r.ids[b[i].0] == b[i].1.name
      {
        if i > 0 {
          assert b[i] == b[1..][i - 1];
        }
      }
    }
  }

  /** A registered name that the rest of the table does not reuse keeps its clock. */
  lemma {:induction false} WalkKeepsClock(decide: Decision, s: Ccf, b: Batch, name: string)
    requires name in s.clocks
    requires forall i :: 0 <= i < |b| ==> b[i].1.name != name
    ensures name in Walk(decide, s, b).state.clocks && Walk(decide, s, b).state.clocks[name] == s.clocks[name]
    decreases |b|
  {
    if b != [] && decide(s.clocks, b[0].1).Accept? {
      WalkKeepsClock(decide, Bind(Offer(decide, s, b[0].1), b[0].0, b[0].1.name), b[1..], name);
    }
  }

  /** A bound id that the rest of the table does not reuse keeps its binding. */
  lemma {:induction false} WalkKeepsId(decide: Decision, s: Ccf, b: Batch, id: nat)
    requires id in s.ids
    requires forall i :: 0 <= i < |b| ==> b[i].0 != id
    ensures id in Walk(decide, s, b).state.ids && Walk(decide, s, b).state.ids[id] == s.ids[id]
    decreases |b|
  {
    if b != [] && decide(s.clocks, b[0].1).Accept? {
      WalkKeepsId(decide, Bind(Offer(decide, s, b[0].1), b[0].0, b[0].1.name), b[1..], id);
    }
  }

  /** Walking two tables one after the other is walking their concatenation:
      the second is only walked when the first succeeded. */
  lemma {:induction false} WalkAppend(decide: Decision, s: Ccf, b1: Batch, b2: Batch)
    ensures Walk(decide, s, b1 + b2) ==
      var r := Walk(decide, s, b1);
      if r.ret != 0 then r else Walk(decide, r.state, b2)
    decreases |b1|
  {
    if b1 == [] {
      assert b1 + b2 == b2;
    } else {
      assert (b1 + b2)[0] == b1[0];
      assert (b1 + b2)[1..] == b1[1..] + b2;
      if decide(s.clocks, b1[0].1).Accept? {
        WalkAppend(decide, Bind(Offer(decide, s, b1[0].1), b1[0].0, b1[0].1.name), b1[1..], b2);
      }
    }
  }

  /** A failed walk stopped at the first refusal: the entries before it were all
      accepted (the walk over them succeeds and yields the state in which the
      refused entry was offered), the refused entry's error is returned, and no
      later entry was offered. */
  lemma {:induction false} WalkStopsAtFirstRefusal(decide: Decision, s: Ccf, b: Batch)
    requires Walk(decide, s, b).ret != 0
    ensures var r := Walk(decide, s, b);
      var k := Accepted(s, r);
      && 0 <= k < |b|
      && var before := Walk(decide, s, b[..k]);
      && before.ret == 0
      && decide(before.state.clocks, b[k].1).Refuse?
      && decide(before.state.clocks, b[k].1).err == r.ret
      && r.state == Offer(decide, before.state, b[k].1)
    decreases |b|
  {
    var r := Walk(decide, s, b);
    var k := Accepted(s, r);
    match decide(s.clocks, b[0].1)
    case Refuse(e) =>
      assert k == 0 && b[..0] == [];
    case Accept =>
      var s1 := Bind(Offer(decide, s, b[0].1), b[0].0, b[0].1.name);
      WalkStopsAtFirstRefusal(decide, s1, b[1..]);
      var k1 := Accepted(s1, r);
      assert k == k1 + 1;
      assert b[..k][0] == b[0];
      assert b[..k][1..] == b[1..][..k1];
      assert b[k] == b[1..][k1];
  }

  /** One step of the walk, as the loops take it. */
  lemma WalkStep(decide: Decision, s: Ccf, b: Batch, i: nat)
    requires i < |b|
    ensures Walk(decide, s, b[i..]) ==
      match decide(s.clocks, b[i].1)
      case Refuse(e) => Outcome(Offer(decide, s, b[i].1), e)
      case Accept => Walk(decide, Bind(Offer(decide, s, b[i].1), b[i].0, b[i].1.name), b[i + 1..])
  {
    assert b[i..][1..] == b[i + 1..];
  }

  // ---------------------------------------------------------------------
  // The framework and the three registration loops
  // ---------------------------------------------------------------------

  class Framework {
    var state: Ccf
    const decide: Decision

    constructor (decide: Decision)
      ensures state == Ccf(map[], map[], []) && this.decide == decide
    {
      state := Ccf(map[], map[], []);
      this.decide := decide;
    }

    /** clk_register_fixed_rate / clk_register_mux_table / clk_register_gate:
        0 for a valid clock pointer, PTR_ERR otherwise. */
    method Register(c: Clock) returns (err: int)
      modifies this
      ensures state == Offer(decide, old(state), c)
      ensures err == match decide(old(state).clocks, c) case Accept => 0 case Refuse(e) => e
    {
      var v := decide(state.clocks, c);
      state := Offer(decide, state, c);
      err := match v case Accept => 0 case Refuse(e) => e;
    }

    /** clk_dm(id, clk) */
    method Dm(id: nat, name: string)
      modifies this
      ensures state == Bind(old(state), id, name)
    {
      state := Bind(state, id, name);
    }
  }

  /** hisi_clk_register_fixed_rate */
  method RegisterFixedRate(fw: Framework, clks: seq<FixedRateClock>) returns (ret: int)
    modifies fw
    ensures Outcome(fw.state, ret) == Walk(fw.decide, old(fw.state), FixedBatch(clks))
  {
    ghost var b := FixedBatch(clks);
    for i := 0 to |clks|
      invariant Walk(fw.decide, old(fw.state), b) == Walk(fw.decide, fw.state, b[i..])
    {
      WalkStep(fw.decide, fw.state, b, i);
      var err := fw.Register(FixedRateOf(clks[i]));
      if err != 0 {
        return err;
      }
      fw.Dm(clks[i].id, clks[i].name);
    }
    return 0;
  }

  /** hisi_clk_register_mux */
  method RegisterMux(fw: Framework, clks: seq<MuxClock>, data: ClockData) returns (ret: int)
    requires forall i :: 0 <= i < |clks| ==> clks[i].width < 32
    modifies fw
    ensures Outcome(fw.state, ret) == Walk(fw.decide, old(fw.state), MuxBatch(clks, data.base))
  {
    var base := data.base;
    ghost var b := MuxBatch(clks, base);
    for i := 0 to |clks|
      invariant Walk(fw.decide, old(fw.state), b) == Walk(fw.decide, fw.state, b[i..])
    {
      var c := MuxOf(clks[i], base);
      assert b[i] == (clks[i].id, c);
      WalkStep(fw.decide, fw.state, b, i);
      var err := fw.Register(c);
      if err != 0 {
        return err;
      }
      fw.Dm(clks[i].id, clks[i].name);
    }
    return 0;
  }

  /** hisi_clk_register_gate */
  method RegisterGate(fw: Framework, clks: seq<GateClock>, data: ClockData) returns (ret: int)
    modifies fw
    ensures Outcome(fw.state, ret) == Walk(fw.decide, old(fw.state), GateBatch(clks, data.base))
  {
    var base := data.base;
    ghost var b := GateBatch(clks, base);
    for i := 0 to |clks|
      invariant Walk(fw.decide, old(fw.state), b) == Walk(fw.decide, fw.state, b[i..])
    {
      var c := GateOf(clks[i], base);
      assert b[i] == (clks[i].id, c);
      WalkStep(fw.decide, fw.state, b, i);
      var err := fw.Register(c);
      if err != 0 {
        return err;
      }
      fw.Dm(clks[i].id, clks[i].name);
    }
    return 0;
  }

  // ---------------------------------------------------------------------
  // hisi_clk_bind_reset
  // ---------------------------------------------------------------------

  const ResetSuffix: string := ".reset"

  /** The companion reset device's name. */
  function ResetName(name: string): (r: string)
    ensures |r| == |name| + 6
    ensures r[..|name|] == name && r[|name|..] == ResetSuffix
  {
    name + ResetSuffix
  }

  /** Distinct domains get distinct companion names. */
  lemma ResetNameInjective(a: string, b: string)
    requires ResetName(a) == ResetName(b)
    ensures a == b
  {
    assert |a| == |b|;
    assert a == ResetName(a)[..|a|];
  }

  /** The driver model's binding of a driver to the device tree node
      (device_bind_driver_to_node), which is not part of this model: it binds
      a device of the given name, or fails with the error its outcome function
      gives for that name. */
  class DriverModel {
    var devices: seq<(string, string)>
    const outcome: string -> int

    constructor (outcome: string -> int)
      ensures devices == [] && this.outcome == outcome
    {
      devices := [];
      this.outcome := outcome;
    }

    method BindDriverToNode(driver: string, name: string) returns (ret: int)
      modifies this
      ensures ret == outcome(name)
      ensures devices == if ret == 0 then old(devices) + [(driver, name)] else old(devices)
    {
      ret := outcome(name);
      if ret == 0 {
        devices := devices + [(driver, name)];
      }
    }
  }

  /** hisi_clk_bind_reset.  `mallocOk` is whether malloc returned memory.  The
      buffer holds exactly name ++ ".reset" and its terminating NUL, in
      strlen(name) + sizeof(".reset") bytes; `kept` is the buffer still allocated
      on return (None when malloc failed or the buffer was freed). */
  method BindReset(dm: DriverModel, name: string, mallocOk: bool) returns (ret: int, kept: Option<array<char>>)
    requires '\0' !in name
    modifies dm
    ensures !mallocOk ==> ret == -ENOMEM && kept == None && dm.devices == old(dm.devices)
    ensures mallocOk ==> ret == dm.outcome(ResetName(name))
    ensures mallocOk && ret == 0 ==>
      dm.devices == old(dm.devices) + [("hisilicon_reset", ResetName(name))] &&
      kept.Some? && fresh(kept.value) &&
      kept.value.Length == |name| + |ResetSuffix| + 1 &&
      kept.value[..] == ResetName(name) + ['\0']
    ensures mallocOk && ret != 0 ==> kept == None && dm.devices == old(dm.devices)
  {
    if !mallocOk {
      return -ENOMEM, None;
    }
    var buf := new char[|name| + |ResetSuffix| + 1];
    // strcpy(rst_dev_name, pdev->name); strcat(rst_dev_name, suffix)
    forall i | 0 <= i < |name| {
      buf[i] := name[i];
    }
    forall i | 0 <= i < |ResetSuffix| {
      buf[|name| + i] := ResetSuffix[i];
    }
    buf[|name| + |ResetSuffix|] := '\0';
    assert buf[..] == ResetName(name) + ['\0'];
    ret := dm.BindDriverToNode("hisilicon_reset", buf[..|name| + |ResetSuffix|]);
    if ret != 0 {
      // free(rst_dev_name)
      return ret, None;
    }
    return 0, Some(buf);
  }
}
