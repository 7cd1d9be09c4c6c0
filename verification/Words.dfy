/** Machine words as their binary digits, least significant digit first, with the C operators
    the sources apply to them. */
module Words {

  type uint64 = x: int | 0 <= x < 0x1_0000_0000_0000_0000

  const TWO_TO_THE_64: nat := 0x1_0000_0000_0000_0000

  /** A `uint64_t` used as a bit pattern. */
  type Word64 = w: seq<bool> | |w| == 64 witness seq(64, _ => false)

  /** A `uint32_t` used as a bit pattern. */
  type Word32 = w: seq<bool> | |w| == 32 witness seq(32, _ => false)

  /** `n` zero digits. */
  function Zeros(n: nat): (r: seq<bool>)
    ensures |r| == n
    ensures forall k :: 0 <= k < n ==> !r[k]
  {
    seq(n, _ => false)
  }

  /** `w << n`, which C defines for `n < 64`. */
  function Shl(w: Word64, n: nat): Word64
    requires n < 64
  {
    Zeros(n) + w[..64 - n]
  }

  /** `w >> n`, which C defines for `n < 64`. */
  function Shr(w: Word64, n: nat): Word64
    requires n < 64
  {
    w[n..] + Zeros(n)
  }

  /** `a | b` */
  function Or(a: Word64, b: Word64): Word64 {
    seq(64, k requires 0 <= k < 64 => a[k] || b[k])
  }

  /** `a & b` */
  function And(a: Word64, b: Word64): Word64 {
    seq(64, k requires 0 <= k < 64 => a[k] && b[k])
  }

  /** `1ULL << n` */
  function Mask(n: nat): Word64
    requires n < 64
  {
    Zeros(n) + [true] + Zeros(63 - n)
  }

  /** `a & b` on `uint32_t` */
  function And32(a: Word32, b: Word32): Word32 {
    seq(32, k requires 0 <= k < 32 => a[k] && b[k])
  }

  // ----- digits and numbers

  function Pow2(n: nat): nat {
    if n == 0 then 1 else 2 * Pow2(n - 1)
  }

  lemma {:induction false} Pow2Add(a: nat, b: nat)
    ensures Pow2(a + b) == Pow2(a) * Pow2(b)
  {
    if a > 0 {
      Pow2Add(a - 1, b);
      TwiceTimes(Pow2(a - 1), Pow2(b));
    }
  }

  /** The number that `digits` stand for. */
  function Value(digits: seq<bool>): nat {
    if digits == [] then 0 else (if digits[0] then 1 else 0) + 2 * Value(digits[1..])
  }

  lemma {:induction false} ValueAppend(low: seq<bool>, high: seq<bool>)
    ensures Value(low + high) == Value(low) + Pow2(|low|) * Value(high)
  {
    if low == [] {
      assert low + high == high;
    } else {
      assert (low + high)[1..] == low[1..] + high && (low + high)[0] == low[0];
      ValueAppend(low[1..], high);
      TwiceTimes(Pow2(|low| - 1), Value(high));
    }
  }

  lemma TwiceTimes(a: nat, b: nat)
    ensures 2 * (a * b) == (2 * a) * b
  {}

  lemma ValueSplit(a: seq<bool>)
    requires a != []
    ensures a[0] <==> Value(a) % 2 == 1
    ensures Value(a[1..]) == Value(a) / 2
  {}

  /** A number of digits determines them. */
  lemma {:induction false} ValueInjective(a: seq<bool>, b: seq<bool>)
    requires |a| == |b| && Value(a) == Value(b)
    ensures a == b
  {
    hide Value;
    if a != [] {
      ValueSplit(a);
      ValueSplit(b);
      ValueInjective(a[1..], b[1..]);
      assert a == [a[0]] + a[1..] && b == [b[0]] + b[1..];
    }
  }
}
