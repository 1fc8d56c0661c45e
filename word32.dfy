/**
 * 32-bit register words as the drivers read and write them, and the C bit
 * operations they use: a word is its 32 bits, bit 0 first; BIT, GENMASK,
 * FIELD_PREP and FIELD_GET of <linux/bitfield.h> are written out bit by bit.
 * An MMIO window maps byte addresses to words, and readl/writel read and
 * write one word of it.
 */
module Word32 {
  import opened Common

  type Word = w: seq<bool> | |w| == 32
    witness [false, false, false, false, false, false, false, false,
             false, false, false, false, false, false, false, false,
             false, false, false, false, false, false, false, false,
             false, false, false, false, false, false, false, false]

  /** The word with no bit set. */
  function Zero(): (w: Word)
  {
    seq(32, _ => false)
  }

  /** The unsigned value of a bit sequence, bit 0 first. */
  function Value(w: seq<bool>): (v: nat)
    ensures v < Pow2(|w|)
  {
    if w == [] then 0 else (if w[0] then 1 else 0) + 2 * Value(w[1..])
  }

  /** The low m bits of n, bit 0 first. */
  function BitsOf(n: nat, m: nat): (w: seq<bool>)
    ensures |w| == m
  {
    if m == 0 then [] else [n % 2 == 1] + BitsOf(n / 2, m - 1)
  }

  /** A C integer converted to u32: its value modulo 2^32, as bits. */
  function FromInt(n: int): (w: Word)
  {
    BitsOf(n % 0x1_0000_0000, 32)
  }

  /** Reading back the bits of a number below 2^m gives the number. */
  lemma {:induction false} ValueOfBits(n: nat, m: nat)
    requires n < Pow2(m)
    ensures Value(BitsOf(n, m)) == n
    decreases m
  {
    if m > 0 {
      ValueOfBits(n / 2, m - 1);
      assert BitsOf(n, m)[1..] == BitsOf(n / 2, m - 1);
    }
  }

  /** Taking the bits of a sequence's value gives the sequence back. */
  lemma {:induction false} BitsOfValue(w: seq<bool>)
    ensures BitsOf(Value(w), |w|) == w
    decreases |w|
  {
    if w != [] {
      BitsOfValue(w[1..]);
      assert Value(w) / 2 == Value(w[1..]);
    }
  }

  /** The u32 conversion and the unsigned value are inverse on 0 .. 2^32 - 1. */
  lemma FromIntValue(n: int)
    requires 0 <= n < 0x1_0000_0000
    ensures Value(FromInt(n)) == n
  {
    Pow2Of32();
    assert n % 0x1_0000_0000 == n;
    ValueOfBits(n, 32);
  }

  lemma ValueFromInt(w: Word)
    ensures FromInt(Value(w)) == w
  {
    Pow2Of32();
    var v := Value(w);
    assert v % 0x1_0000_0000 == v;
    BitsOfValue(w);
  }

  /** The u32 a word holds: the number whose u32 conversion is the word. */
  function ToU32(w: Word): (v: u32)
    ensures FromInt(v) == w
  {
    Pow2Of32();
    ValueFromInt(w);
    Value(w)
  }

  /** A sequence with no bit set has value 0. */
  lemma {:induction false} ValueOfClear(w: seq<bool>)
    requires forall k :: 0 <= k < |w| ==> !w[k]
    ensures Value(w) == 0
    decreases |w|
  {
    if w != [] {
      ValueOfClear(w[1..]);
    }
  }

  /** A number below 2^j has no bit set at j or above. */
  lemma {:induction false} BitsOfHigh(n: nat, m: nat, j: nat)
    requires n < Pow2(j)
    ensures forall k :: j <= k < m ==> !BitsOf(n, m)[k]
    decreases m
  {
    if m > 0 {
      if j == 0 {
        BitsOfHigh(0, m - 1, 0);
      } else {
        BitsOfHigh(n / 2, m - 1, j - 1);
      }
      assert BitsOf(n, m)[1..] == BitsOf(n / 2, m - 1);
    }
  }

  /** The low j of the low m bits are the low j bits. */
  lemma {:induction false} BitsOfPrefix(n: nat, m: nat, j: nat)
    requires j <= m
    ensures BitsOf(n, m)[..j] == BitsOf(n, j)
    decreases m
  {
    if j > 0 {
      BitsOfPrefix(n / 2, m - 1, j - 1);
      assert BitsOf(n, m)[..j] == [n % 2 == 1] + BitsOf(n / 2, m - 1)[..j - 1];
    }
  }

  /** 2^m - 1 has all its low m bits set. */
  lemma {:induction false} BitsOfAllOnes(n: nat, m: nat)
    requires n == Pow2(m) - 1
    ensures forall k :: 0 <= k < m ==> BitsOf(n, m)[k]
    decreases m
  {
    if m > 0 {
      var q := Pow2(m - 1) - 1;
      assert n == 2 * q + 1;
      BitsOfAllOnes(q, m - 1);
      assert BitsOf(n, m) == [true] + BitsOf(q, m - 1);
    }
  }

  /** A number that fits in j bits, converted to u32: no bit from j on. */
  lemma FromIntHigh(n: nat, j: nat)
    requires n < Pow2(j) && j <= 32
    ensures forall k :: j <= k < 32 ==> !FromInt(n)[k]
  {
    Pow2Monotone(j, 32);
    Pow2Of32();
    assert n % 0x1_0000_0000 == n;
    BitsOfHigh(n, 32, j);
  }

  /** ... and its low j bits read back as the number. */
  lemma FromIntLow(n: nat, j: nat)
    requires n < Pow2(j) && j <= 32
    ensures Value(FromInt(n)[..j]) == n
  {
    Pow2Monotone(j, 32);
    Pow2Of32();
    assert n % 0x1_0000_0000 == n;
    BitsOfPrefix(n, 32, j);
    ValueOfBits(n, j);
  }

  /** 2^m - 1, converted to u32, has exactly its low m bits set. */
  lemma FromIntLowOnes(n: nat, m: nat)
    requires m < 32 && n == Pow2(m) - 1
    ensures forall k :: 0 <= k < 32 ==> FromInt(n)[k] == (k < m)
  {
    Pow2Monotone(m, 32);
    Pow2Of32();
    assert n % 0x1_0000_0000 == n;
    BitsOfAllOnes(n, m);
    BitsOfPrefix(n, 32, m);
    FromIntHigh(n, m);
    forall k | 0 <= k < m
      ensures FromInt(n)[k]
    {
      assert FromInt(n)[k] == BitsOf(n, 32)[..m][k];
    }
  }

  /** BIT(n): bit n alone; past bit 31 the word has no bit set. */
  function Bit(n: nat): (w: Word)
  {
    seq(32, k => k == n)
  }

  /** GENMASK(hi, lo): bits lo through hi. */
  function Mask(hi: nat, lo: nat): (w: Word)
  {
    seq(32, k => lo <= k <= hi)
  }

  /** a | b */
  function Or(a: Word, b: Word): (w: Word)
  {
    seq(32, k requires 0 <= k < 32 => a[k] || b[k])
  }

  /** a & ~m */
  function AndNot(a: Word, m: Word): (w: Word)
  {
    seq(32, k requires 0 <= k < 32 => a[k] && !m[k])
  }

  /** FIELD_PREP(GENMASK(hi, lo), v): v converted to u32, shifted to bit lo
      and cut to the field. */
  function FieldPrep(hi: nat, lo: nat, v: int): (w: Word)
  {
    seq(32, k requires 0 <= k < 32 => lo <= k <= hi && FromInt(v)[k - lo])
  }

  /** FIELD_GET(GENMASK(hi, lo), w): the unsigned value of bits lo .. hi. */
  function FieldGet(w: Word, hi: nat, lo: nat): (v: nat)
    requires lo <= hi < 32
  {
    Value(w[lo..hi + 1])
  }

  /** Two words agree on every bit outside `m`. */
  predicate SameOutside(a: Word, b: Word, m: Word)
  {
    forall k :: 0 <= k < 32 && !m[k] ==> a[k] == b[k]
  }

  /** The word at byte address `addr`; an address never written reads as zero. */
  function Read(words: map<nat, Word>, addr: nat): Word
  {
    if addr in words then words[addr] else Zero()
  }

  /** The device window, by byte address. */
  class Mmio {
    var words: map<nat, Word>

    constructor (words: map<nat, Word>)
      ensures this.words == words
    {
      this.words := words;
    }

    /** readl */
    method Readl(addr: nat) returns (w: Word)
      ensures w == Read(words, addr)
    {
      w := Read(words, addr);
    }

    /** writel(value, addr): only the word at addr changes. */
    method Writel(value: Word, addr: nat)
      modifies this
      ensures words == old(words)[addr := value]
    {
      words := words[addr := value];
    }
  }
}
