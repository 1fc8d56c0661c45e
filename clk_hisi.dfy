/**
 * The generic HiSilicon gate clock of drivers/clk/clk_hisi.c: a device tree
 * specifier of three cells (register offset, bit, polarity) selects one bit
 * of a 32-bit register, which enable and disable set or clear.
 *
 * BITS(x) is taken as BIT(x) cut to the 32-bit word, so a bit index of 32
 * or more selects no bit; the polarity is bit 0 of the flag.
 */
module ClkHisi {
  import opened Common
  import opened Word32

  /** The fields of struct clk that the driver uses. */
  class Clk {
    var data: nat
    var id: nat
    var flag: nat

    constructor ()
      ensures data == 0 && id == 0 && flag == 0
    {
      data, id, flag := 0, 0, 0;
    }
  }

  /** hisi_clk_of_xlate: `args` holds the specifier's args_count cells.
      Anything but three cells is -EINVAL and leaves the clock alone;
      otherwise the cells become offset, bit and polarity, in that order. */
  method OfXlate(clk: Clk, args: seq<u32>) returns (ret: int)
    modifies clk
    ensures |args| != 3 ==> ret == -EINVAL && unchanged(clk)
    ensures |args| == 3 ==>
      ret == 0 && clk.data == args[0] && clk.id == args[1] && clk.flag == args[2]
  {
    if |args| != 3 {
      return -EINVAL;
    }
    clk.data := args[0];
    clk.id := args[1];
    clk.flag := args[2];
    return 0;
  }

  /** Whether flag bit 0, the polarity, is set: then the gate is active low. */
  predicate Inverted(flag: nat)
  {
    flag % 2 == 1
  }

  /** The word hisi_clk_enable writes back: bit `id` set for a normal gate,
      cleared for an inverted one, every other bit as read. */
  function EnabledWord(w: Word, id: nat, flag: nat): (r: Word)
    ensures forall k :: 0 <= k < 32 && k != id ==> r[k] == w[k]
    ensures id < 32 ==> r[id] == !Inverted(flag)
  {
    if !Inverted(flag) then Or(w, Bit(id)) else AndNot(w, Bit(id))
  }

  /** The word hisi_clk_disable writes back: the opposite level for bit `id`,
      every other bit as read. */
  function DisabledWord(w: Word, id: nat, flag: nat): (r: Word)
    ensures forall k :: 0 <= k < 32 && k != id ==> r[k] == w[k]
    ensures id < 32 ==> r[id] == Inverted(flag)
  {
    if Inverted(flag) then Or(w, Bit(id)) else AndNot(w, Bit(id))
  }

  /** A bit index past the word selects nothing: the word is written back as read. */
  lemma OutOfRangeBit(w: Word, id: nat, flag: nat)
    requires id >= 32
    ensures EnabledWord(w, id, flag) == w && DisabledWord(w, id, flag) == w
  {
    assert EnabledWord(w, id, flag) == w;
    assert DisabledWord(w, id, flag) == w;
  }

  /** Enable is idempotent. */
  lemma EnableIdempotent(w: Word, id: nat, flag: nat)
    ensures EnabledWord(EnabledWord(w, id, flag), id, flag) == EnabledWord(w, id, flag)
  {
  }

  /** Disable is idempotent. */
  lemma DisableIdempotent(w: Word, id: nat, flag: nat)
    ensures DisabledWord(DisabledWord(w, id, flag), id, flag) == DisabledWord(w, id, flag)
  {
  }

  /** Disable after enable is disable: the gate bit ends at the disabled level
      and nothing else differs from the word before either call; likewise
      the other way round. */
  lemma LastCallWins(w: Word, id: nat, flag: nat)
    ensures DisabledWord(EnabledWord(w, id, flag), id, flag) == DisabledWord(w, id, flag)
    ensures EnabledWord(DisabledWord(w, id, flag), id, flag) == EnabledWord(w, id, flag)
  {
  }

  /** Disable is enable with the polarity flipped. */
  lemma OppositePolarity(w: Word, id: nat, flag: nat)
    ensures DisabledWord(w, id, flag) == EnabledWord(w, id, flag + 1)
  {
  }

  /** The register effect of enable: the addressed word gets EnabledWord of
      what it held; no other address changes. */
  function EnableEffect(words: map<nat, Word>, addr: nat, id: nat, flag: nat): (r: map<nat, Word>)
    ensures r.Keys == words.Keys + {addr}
    ensures forall a :: a in words && a != addr ==> r[a] == words[a]
    ensures forall k :: 0 <= k < 32 && k != id ==> r[addr][k] == Read(words, addr)[k]
    ensures id < 32 ==> r[addr][id] == !Inverted(flag)
  {
    words[addr := EnabledWord(Read(words, addr), id, flag)]
  }

  /** The register effect of disable, likewise. */
  function DisableEffect(words: map<nat, Word>, addr: nat, id: nat, flag: nat): (r: map<nat, Word>)
    ensures r.Keys == words.Keys + {addr}
    ensures forall a :: a in words && a != addr ==> r[a] == words[a]
    ensures forall k :: 0 <= k < 32 && k != id ==> r[addr][k] == Read(words, addr)[k]
    ensures id < 32 ==> r[addr][id] == Inverted(flag)
  {
    words[addr := DisabledWord(Read(words, addr), id, flag)]
  }

  /** The effect of writel(priv->base + clk->data, val) as the driver writes
      it: writel's first argument is the value and its second the address, so
      the register address, cut to 32 bits, is stored at the address `val`,
      and no other address changes. */
  function AsWrittenEnableEffect(words: map<nat, Word>, addr: nat, id: nat, flag: nat): (r: map<nat, Word>)
    ensures var val := Value(EnabledWord(Read(words, addr), id, flag));
      val in r && r[val] == FromInt(addr) && r.Keys == words.Keys + {val}
    ensures var val := Value(EnabledWord(Read(words, addr), id, flag));
      forall a :: a in words && a != val ==> r[a] == words[a]
  {
    var val := EnabledWord(Read(words, addr), id, flag);
    words[Value(val) := FromInt(addr)]
  }

  /** The effect of the disable's writel as written, likewise. */
  function AsWrittenDisableEffect(words: map<nat, Word>, addr: nat, id: nat, flag: nat): (r: map<nat, Word>)
    ensures var val := Value(DisabledWord(Read(words, addr), id, flag));
      val in r && r[val] == FromInt(addr) && r.Keys == words.Keys + {val}
    ensures var val := Value(DisabledWord(Read(words, addr), id, flag));
      forall a :: a in words && a != val ==> r[a] == words[a]
  {
    var val := DisabledWord(Read(words, addr), id, flag);
    words[Value(val) := FromInt(addr)]
  }

  /** Enabling bit 0 of a clear word with normal polarity gives the word of value 1. */
  lemma EnableBit0OfZero()
    ensures Value(EnabledWord(Zero(), 0, 0)) == 1
  {
    var val := EnabledWord(Zero(), 0, 0);
    assert forall k :: 0 <= k < 31 ==> !val[1..][k];
    ValueOfClear(val[1..]);
  }

  /** Disabling bit 0 of the word holding only bit 0 gives the clear word, of value 0. */
  lemma DisableBit0OfBit0()
    ensures DisabledWord(Bit(0), 0, 0) == Zero()
    ensures Value(DisabledWord(Bit(0), 0, 0)) == 0
  {
    var val := DisabledWord(Bit(0), 0, 0);
    assert val == Zero();
    ValueOfClear(val);
  }

  /** With a clear register at any address above 1 and the specifier
      (0, 0, 0), the driver's enable leaves that register clear and writes its
      address to address 1; the intended effect sets bit 0 of the register and
      touches no other address. */
  lemma SwappedWritelCounterexample(addr: nat)
    requires 1 < addr
    ensures var w := AsWrittenEnableEffect(map[addr := Zero()], addr, 0, 0);
      Read(w, addr) == Zero() && Read(w, 1) == FromInt(addr)
    ensures var w := EnableEffect(map[addr := Zero()], addr, 0, 0);
      Read(w, addr)[0] && w.Keys == {addr}
  {
    EnableBit0OfZero();
  }

  /** With a register at any address above 0 holding only bit 0 and the
      specifier (0, 0, 0), the driver's disable leaves bit 0 set and writes
      the register's address to address 0; the intended effect clears the
      register and touches no other address. */
  lemma SwappedWritelDisableCounterexample(addr: nat)
    requires 0 < addr
    ensures var w := AsWrittenDisableEffect(map[addr := Bit(0)], addr, 0, 0);
      Read(w, addr)[0] && Read(w, 0) == FromInt(addr)
    ensures var w := DisableEffect(map[addr := Bit(0)], addr, 0, 0);
      Read(w, addr) == Zero() && w.Keys == {addr}
  {
    DisableBit0OfBit0();
  }

  /** struct hisi_clk_priv */
  class Priv {
    var base: nat

    constructor ()
      ensures base == 0
    {
      base := 0;
    }
  }

  /** hisi_clk_enable, with the write going to the register it read. */
  method Enable(priv: Priv, io: Mmio, clk: Clk) returns (ret: int)
    modifies io
    ensures ret == 0
    ensures io.words == EnableEffect(old(io.words), priv.base + clk.data, clk.id, clk.flag)
  {
    var addr := priv.base + clk.data;
    var val := io.Readl(addr);
    if !Inverted(clk.flag) {
      val := Or(val, Bit(clk.id));
    } else {
      val := AndNot(val, Bit(clk.id));
    }
    io.Writel(val, addr);
    return 0;
  }

  /** hisi_clk_disable, with the write going to the register it read. */
  method Disable(priv: Priv, io: Mmio, clk: Clk) returns (ret: int)
    modifies io
    ensures ret == 0
    ensures io.words == DisableEffect(old(io.words), priv.base + clk.data, clk.id, clk.flag)
  {
    var addr := priv.base + clk.data;
    var val := io.Readl(addr);
    if Inverted(clk.flag) {
      val := Or(val, Bit(clk.id));
    } else {
      val := AndNot(val, Bit(clk.id));
    }
    io.Writel(val, addr);
    return 0;
  }

  /** hisi_clk_probe: store the remapped base (0 is NULL); a NULL base is -ENOMEM. */
  method Probe(priv: Priv, remapped: nat) returns (ret: int)
    modifies priv
    ensures priv.base == remapped
    ensures ret == (if remapped == 0 then -ENOMEM else 0)
  {
    priv.base := remapped;
    if priv.base == 0 {
      return -ENOMEM;
    }
    return 0;
  }
}
