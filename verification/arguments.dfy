/**
  The values a JavaScript caller can pass to an entry point, as the entry
  points observe them, and the fixed-width integers the native routines take.
*/
module Arguments {

  type uint32 = x: int | 0 <= x < 0x1_0000_0000
  type uint64 = x: int | 0 <= x < 0x1_0000_0000_0000_0000

  /** Raw binary data; no text encoding is applied anywhere. */
  type Bytes = seq<bv8>

  /**
    One JavaScript argument. `Buffer` stands for any value
    `Buffer::HasInstance` accepts, which in Node includes a plain
    `Uint8Array`. Besides that, the entry points tell apart only a boolean
    and a number for which `IsUint32()` holds; every other value, whether a
    number or not, is `Other`. Every variant except `Bool` carries
    `asNumber`: what the host's number coercion followed by the C++
    conversion to `unsigned int` yields for that value, for the entry points
    that read the argument as a number. For a Buffer the coercion goes
    through its text; the model does not compute that reading from the
    bytes but takes it as given.
  */
  datatype ArgValue =
    | Buffer(bytes: Bytes, asNumber: uint32)
    | Bool(flag: bool)
    | Uint32(uint: uint32)
    | Other(asNumber: uint32)

  /**
    The `unsigned int` an entry point obtains from an argument it reads as a
    number (`Nan::To<Number>` and then the conversion to `unsigned int`).
  */
  function NumberValue(a: ArgValue): uint32
  {
    match a
    case Bool(f) => if f then 1 else 0
    case Uint32(u) => u
    case _ => a.asNumber
  }

  /** A buffer length stored in a `uint32_t`: the length modulo 2^32. */
  function Len32(n: nat): (r: uint32)
    ensures n < 0x1_0000_0000 ==> r == n
    ensures (r - n) % 0x1_0000_0000 == 0
  {
    n % 0x1_0000_0000
  }

  /** A buffer length stored in a `uint64_t`: the length modulo 2^64. */
  function Len64(n: nat): (r: uint64)
    ensures n < 0x1_0000_0000_0000_0000 ==> r == n
    ensures (r - n) % 0x1_0000_0000_0000_0000 == 0
  {
    n % 0x1_0000_0000_0000_0000
  }

  /** 2 raised to the power k. */
  function Pow2(k: nat): nat {
    if k == 0 then 1 else 2 * Pow2(k - 1)
  }

  lemma {:induction false} Pow2Monotone(k: nat, m: nat)
    requires k <= m
    ensures Pow2(k) <= Pow2(m)
  {
    if k < m {
      Pow2Monotone(k, m - 1);
    }
  }

  lemma {:induction false} Pow2Add(a: nat, b: nat)
    ensures Pow2(a + b) == Pow2(a) * Pow2(b)
  {
    if a > 0 {
      Pow2Add(a - 1, b);
      assert Pow2(a + b) == 2 * Pow2(a - 1 + b);
      assert 2 * (Pow2(a - 1) * Pow2(b)) == (2 * Pow2(a - 1)) * Pow2(b);
    }
  }

  lemma Pow2Of32()
    ensures Pow2(32) == 0x1_0000_0000
  {
    assert Pow2(2) == 4;
    Pow2Add(2, 2);
    Pow2Add(4, 4);
    Pow2Add(8, 8);
    Pow2Add(16, 16);
  }

  /**
    `1 << k` evaluated on a 32-bit word and stored in an `unsigned int`. The
    shift is defined only for k below 32; for k == 31 the common targets
    produce the bit pattern of 2^31, which the conversion to unsigned keeps.
  */
  function ShiftOne(k: uint32): (r: uint32)
    requires k < 32
    ensures r == Pow2(k)
  {
    SmallAmount(k);
    ShiftIsPow2(k as bv8);
    ((1 as bv32) << (k as bv8)) as int
  }

  /** Shifting a one bit left by k places yields 2^k. */
  lemma {:induction false} ShiftIsPow2(k: bv8)
    requires k < 32
    ensures ((1 as bv32) << k) as int == Pow2(k as int)
  {
    if k > 0 {
      var j := (k - 1) as int;
      assert j == k as int - 1;
      ShiftIsPow2(k - 1);
      var w := (1 as bv32) << (k - 1);
      ShiftStep(k);
      Pow2Monotone(j, 30);
      Pow2Of30();
      DoubleWord(w);
      assert Pow2(k as int) == 2 * Pow2(j);
    }
  }

  lemma ShiftStep(k: bv8)
    requires 0 < k < 32
    ensures (1 as bv32) << k == ((1 as bv32) << (k - 1)) << 1
  {
  }

  /** A shift amount below 32 survives the conversion to an 8-bit word. */
  lemma SmallAmount(k: int)
    requires 0 <= k < 32
    ensures (k as bv8) as int == k
  {
  }

  lemma Pow2Of30()
    ensures Pow2(30) == 0x4000_0000
  {
    Pow2Of32();
  }

  /** Shifting a word below 2^31 left by one doubles it. */
  lemma DoubleWord(w: bv32)
    requires w as int <= 0x4000_0000
    ensures (w << 1) as int == 2 * (w as int)
  {
  }
}
