/**
 * The unit normalizer: a memory quantity becomes a count of bits, by a left shift on a
 * `uint64` whose distance depends on the unit (binary, 1024-based scaling).
 */
module Units {
  import opened Pb

  /** 2 to the power `k`. */
  function Pow2(k: nat): nat
  {
    if k == 0 then 1 else 2 * Pow2(k - 1)
  }

  /** Powers of two multiply by adding exponents. */
  lemma {:induction false} Pow2Add(a: nat, b: nat)
    ensures Pow2(a + b) == Pow2(a) * Pow2(b)
    decreases a
  {
    if a > 0 {
      Pow2Add(a - 1, b);
      assert Pow2(a + b) == 2 * Pow2(a - 1 + b);
      MulAssoc(2, Pow2(a - 1), Pow2(b));
    }
  }

  /** The powers of two the unit exponents need. */
  lemma Pow2Values()
    ensures Pow2(3) == 8 && Pow2(10) == 1024
    ensures Pow2(13) == 8192 && Pow2(23) == 8388608 && Pow2(33) == 8589934592 && Pow2(43) == 8796093022208
  {
    Pow2Add(10, 3);
    Pow2Add(10, 13);
    Pow2Add(10, 23);
    Pow2Add(10, 33);
  }

  /** Go's `v << k` on a `uint64`: `k` doublings, each dropping the bit shifted out at the top. */
  function ShiftLeft(v: U64, k: nat): U64
    decreases k
  {
    if k == 0 then v else ShiftLeft((2 * v) % TWO_64, k - 1)
  }

  /** Multiplying by a reduced factor and then reducing is the same as reducing once. */
  lemma ModMulLeft(a: nat, b: nat)
    ensures ((a % TWO_64) * b) % TWO_64 == (a * b) % TWO_64
  {
    var q, r := a / TWO_64, a % TWO_64;
    assert a * b == r * b + (q * b) * TWO_64;
  }

  /** Regrouping a product of three factors. */
  lemma MulAssoc(a: int, b: int, c: int)
    ensures (a * b) * c == b * (a * c)
  {
  }

  /** A left shift is multiplication by a power of two, modulo 2^64. */
  lemma {:induction false} ShiftLeftIsMulMod(v: U64, k: nat)
    ensures ShiftLeft(v, k) == (v * Pow2(k)) % TWO_64
    decreases k
  {
    if k > 0 {
      var d := (2 * v) % TWO_64;
      ShiftLeftIsMulMod(d, k - 1);
      ModMulLeft(2 * v, Pow2(k - 1));
      assert Pow2(k) == 2 * Pow2(k - 1);
      assert (2 * v) * Pow2(k - 1) == v * Pow2(k) by {
        MulAssoc(2, v, Pow2(k - 1));
      }
    }
  }

  /** Shifting by `a` and then by `b` is shifting by `a + b`. */
  lemma {:induction false} ShiftLeftAdd(v: U64, a: nat, b: nat)
    ensures ShiftLeft(ShiftLeft(v, a), b) == ShiftLeft(v, a + b)
    decreases a
  {
    if a > 0 {
      ShiftLeftAdd((2 * v) % TWO_64, a - 1, b);
    }
  }

  /** The shift distance of each recognised unit: bits, then 8 bits per byte, then 1024 per step. */
  function Exponent(u: MemoryUnit): nat
    requires !u.Unknown?
  {
    match u
    case Bit => 0
    case Byte => 3
    case Kilobyte => 13
    case Megabyte => 23
    case Gigabyte => 33
    case Terabyte => 43
  }

  /**
   * `toBit`: the number of bits in `memory`, computed in `uint64`. An unknown unit
   * gives 0, the smallest possible quantity.
   */
  function ToBit(memory: Memory): (r: U64)
    ensures memory.unit.Unknown? ==> r == 0
    ensures !memory.unit.Unknown? ==> r == (memory.value * Pow2(Exponent(memory.unit))) % TWO_64
  {
    var value := memory.value;
    match memory.unit
    case Bit => value
    case Byte => ShiftLeftIsMulMod(value, 3); ShiftLeft(value, 3)
    case Kilobyte => ShiftLeftIsMulMod(value, 13); ShiftLeft(value, 13)
    case Megabyte => ShiftLeftIsMulMod(value, 23); ShiftLeft(value, 23)
    case Gigabyte => ShiftLeftIsMulMod(value, 33); ShiftLeft(value, 33)
    case Terabyte => ShiftLeftIsMulMod(value, 43); ShiftLeft(value, 43)
    case Unknown => 0
  }

  /** The next smaller unit of a unit above `Bit`. */
  function Below(u: MemoryUnit): MemoryUnit
    requires !u.Unknown? && !u.Bit?
  {
    match u
    case Byte => Bit
    case Kilobyte => Byte
    case Megabyte => Kilobyte
    case Gigabyte => Megabyte
    case Terabyte => Gigabyte
  }

  /** One kilobyte, megabyte, gigabyte or terabyte is 1024 of the unit below it (in `uint64`). */
  lemma UnitIs1024OfBelow(v: U64, u: MemoryUnit)
    requires u.Kilobyte? || u.Megabyte? || u.Gigabyte? || u.Terabyte?
    ensures ToBit(Memory(v, u)) == ToBit(Memory((v * 1024) % TWO_64, Below(u)))
  {
    var e := Exponent(Below(u));
    assert Exponent(u) == 10 + e;
    ShiftLeftAdd(v, 10, e);
    ShiftLeftIsMulMod(v, 10);
    Pow2Values();
    ShiftLeftIsMulMod(ShiftLeft(v, 10), e);
    ShiftLeftIsMulMod(v, 10 + e);
  }

  /** One byte is eight bits (in `uint64`). */
  lemma ByteIs8Bits(v: U64)
    ensures ToBit(Memory(v, Byte)) == (v * 8) % TWO_64
  {
    Pow2Values();
  }

  /** 1 GB, 1024 MB and 2^33 bits normalise to the same bit count. */
  lemma GigabyteExample()
    ensures ToBit(Memory(1, Gigabyte)) == ToBit(Memory(1024, Megabyte)) == ToBit(Memory(8589934592, Bit)) == 8589934592
  {
    UnitIs1024OfBelow(1, Gigabyte);
    Pow2Values();
  }

  /** Without overflow, the bit count is the exact product. */
  lemma ToBitExact(memory: Memory)
    requires !memory.unit.Unknown?
    requires memory.value * Pow2(Exponent(memory.unit)) < TWO_64
    ensures ToBit(memory) == memory.value * Pow2(Exponent(memory.unit))
  {
    var x := memory.value * Pow2(Exponent(memory.unit));
    assert 0 <= x;
    assert x % TWO_64 == x;
  }

  /** Without overflow, more of a unit never normalises to fewer bits. */
  lemma ToBitMonotone(a: U64, b: U64, u: MemoryUnit)
    requires a <= b && !u.Unknown?
    requires b * Pow2(Exponent(u)) < TWO_64
    ensures ToBit(Memory(a, u)) <= ToBit(Memory(b, u))
  {
    var p := Pow2(Exponent(u));
    assert a * p <= b * p;
    ToBitExact(Memory(a, u));
    ToBitExact(Memory(b, u));
  }

  /** With overflow the shift wraps: 2^21 terabytes normalise to 0 bits, fewer than 1 bit. */
  lemma ToBitWrapsOnOverflow()
    ensures ToBit(Memory(2097152, Terabyte)) == 0 < ToBit(Memory(1, Bit))
  {
    Pow2Values();
    assert 2097152 * 8796093022208 == TWO_64;
  }
}
