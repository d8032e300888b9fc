/** Optional values and fallible results. The service's `anyhow::Result` carries a message;
    here each module supplies a datatype of the errors it can raise. */
module Wrappers {
  datatype Option<+T> = None | Some(value: T)

  datatype Result<+T, +E> = Ok(value: T) | Err(error: E)
}

/** Machine integers and bytes of the source, and its right shift. */
module MachineInts {
  const U32_MAX: nat := 0xFFFF_FFFF
  const U64_MAX: nat := 0xFFFF_FFFF_FFFF_FFFF

  type byte = b: nat | b < 256
  type u32 = n: nat | n <= U32_MAX
  type u64 = n: nat | n <= U64_MAX

  type Bytes = seq<byte>

  function Zeros(n: nat): (z: Bytes)
    ensures |z| == n
    ensures forall i {:trigger z[i]} :: 0 <= i < n ==> z[i] == 0
  {
    if n == 0 then [] else Zeros(n - 1) + [0]
  }

  function Min(a: nat, b: nat): nat { if a <= b then a else b }

  function Max(a: nat, b: nat): nat { if a >= b then a else b }

  function Pow2(n: nat): (p: nat)
    ensures p >= 1
  {
    if n == 0 then 1 else 2 * Pow2(n - 1)
  }

  /** `n >> k` */
  function ShiftRight(n: nat, k: nat): nat
  {
    if k == 0 then n else ShiftRight(n, k - 1) / 2
  }

  lemma {:induction false} ShiftRightHalves(n: nat, k: nat)
    requires k > 0
    ensures ShiftRight(n, k) == ShiftRight(n / 2, k - 1)
    decreases k
  {
    if k > 1 {
      ShiftRightHalves(n, k - 1);
    }
  }

  /** A shift empties a number exactly when the number fits the shifted-out bits. */
  lemma {:induction false} ShiftRightIsZero(n: nat, k: nat)
    ensures ShiftRight(n, k) == 0 <==> n < Pow2(k)
    decreases k
  {
    if k > 0 {
      ShiftRightHalves(n, k);
      ShiftRightIsZero(n / 2, k - 1);
    }
  }

  /** The shifts of consecutive numbers differ by at most one. */
  lemma {:induction false} ShiftRightSuccessor(n: nat, k: nat)
    ensures ShiftRight(n, k) <= ShiftRight(n + 1, k) <= ShiftRight(n, k) + 1
  {
    if k > 0 {
      ShiftRightSuccessor(n, k - 1);
    }
  }
}
