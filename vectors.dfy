/**
 Integer 3-vectors (the engine's `Vector3i`) as used by the block pipeline:
 block positions, voxel-space origins and the squared distance that orders
 pending work. Coordinates are unbounded integers.
 */
module Vectors {

  datatype Vector3i = Vector3i(x: int, y: int, z: int)

  /** `Vector3i::distance_sq`: the sum of the squared per-axis differences. */
  function DistanceSq(a: Vector3i, b: Vector3i): int
  {
    (a.x - b.x) * (a.x - b.x) + (a.y - b.y) * (a.y - b.y) + (a.z - b.z) * (a.z - b.z)
  }

  /** The squared distance is never negative and is zero exactly at the point itself. */
  lemma DistanceSqZero(a: Vector3i, b: Vector3i)
    ensures DistanceSq(a, b) >= 0
    ensures DistanceSq(a, b) == 0 <==> a == b
  {
    SquareNonNegative(a.x - b.x);
    SquareNonNegative(a.y - b.y);
    SquareNonNegative(a.z - b.z);
  }

  lemma SquareNonNegative(n: int)
    ensures n * n >= 0
    ensures n * n == 0 <==> n == 0
    ensures n * n == (-n) * (-n)
  {
    if n < 0 {
      assert n * n == (-n) * (-n);
    }
  }

  /** `block_pos * bs`: component-wise multiplication by a scalar. */
  function Scale(v: Vector3i, k: int): Vector3i
  {
    Vector3i(v.x * k, v.y * k, v.z * k)
  }

  /** Scaling by a positive factor loses no information. */
  lemma ScaleInjective(a: Vector3i, b: Vector3i, k: int)
    requires k > 0
    ensures Scale(a, k) == Scale(b, k) <==> a == b
  {
    if Scale(a, k) == Scale(b, k) {
      MulCancel(a.x, b.x, k);
      MulCancel(a.y, b.y, k);
      MulCancel(a.z, b.z, k);
    }
  }

  lemma MulCancel(m: int, n: int, k: int)
    requires k > 0 && m * k == n * k
    ensures m == n
  {
    assert (m - n) * k == 0;
    MulPositive(m - n, k);
  }

  lemma MulPositive(d: int, k: int)
    requires k > 0
    ensures d > 0 ==> d * k > 0
    ensures d < 0 ==> d * k < 0
  {
  }

  /** `1 << n` for a shift that stays inside the word. */
  function Pow2(n: nat): (r: nat)
    ensures r >= 1
  {
    if n == 0 then 1 else 2 * Pow2(n - 1)
  }
}
