/**
 The integer-index part of Hermite sampling for dual marching cubes
 (`dmc::get_isolevel_clamped`, `dmc::get_hermite_value` and the corner
 selection of `dmc::get_interpolated_hermite_value`).

 Grid coordinates are C++ `unsigned int`, so they are 32-bit values that
 wrap: `x - 1` at `x == 0` is the largest coordinate, which the clamp then
 maps to the far boundary. Floating-point values are modelled as `real`;
 the isolevel channel read by `get_voxel` is an integer whose conversion to
 `float` is taken to be exact.
 */
module HermiteValue {

  /** `unsigned int`. */
  const U32Modulus: int := 0x1_0000_0000
  type U32 = x: int | 0 <= x < 0x1_0000_0000

  /** Conversion of an integer result to `unsigned int`: reduction modulo 2^32. */
  function ToU32(n: int): (r: U32)
    ensures 0 <= n < U32Modulus ==> r == n
    ensures n == -1 ==> r == U32Modulus - 1
    ensures n == U32Modulus ==> r == 0
  {
    n % U32Modulus
  }

  /** A size along one axis; `get_size()` components are `int`. */
  predicate AxisSize(size: int)
  {
    1 <= size < 0x8000_0000
  }

  /**
   A voxel buffer as far as sampling sees it: its size and two views of the
   isolevel channel. `raw` is `get_voxel(x, y, z, CHANNEL_ISOLEVEL)`,
   `normalized` is `get_voxel_f` on the same channel; the two are independent
   here, since the buffer's scaling is not part of this model.
   */
  datatype Grid = Grid(sizeX: int, sizeY: int, sizeZ: int,
                       raw: (int, int, int) -> int,
                       normalized: (int, int, int) -> real)
  {
    /** Every axis has at least one cell, as the clamp needs. */
    predicate WellSized()
    {
      AxisSize(sizeX) && AxisSize(sizeY) && AxisSize(sizeZ)
    }

    predicate InBounds(x: int, y: int, z: int)
    {
      0 <= x < sizeX && 0 <= y < sizeY && 0 <= z < sizeZ
    }
  }

  /** A real 3D vector (`Vector3`). */
  datatype Vector3 = Vector3(x: real, y: real, z: real)

  const ZeroVector := Vector3(0.0, 0.0, 0.0)

  /** `HermiteValue`: the sampled value and its gradient. */
  datatype HermiteValue = HermiteValue(value: real, gradient: Vector3)

  /** `HermiteValue()`: the value starts at 1.0 and the gradient at zero. */
  const DefaultHermiteValue := HermiteValue(1.0, ZeroVector)

  /**
   One line of `get_isolevel_clamped`: a coordinate at or past the size
   becomes `size - 1`, anything else is kept. The result is always a valid
   index, and also in range for `unsigned int`.
   */
  function ClampAxis(c: U32, size: int): (r: U32)
    requires AxisSize(size)
    ensures 0 <= r < size
    ensures c < size ==> r == c
    ensures c >= size ==> r == size - 1
  {
    if c >= size then size - 1 else c
  }

  /**
   `get_isolevel_clamped`: the raw isolevel at the clamped coordinates. The
   result is always the value of some cell of the grid, and an in-bounds
   query reads its own cell.
   */
  function IsolevelClamped(g: Grid, x: U32, y: U32, z: U32): (r: int)
    requires g.WellSized()
    ensures exists i, j, k :: g.InBounds(i, j, k) && r == g.raw(i, j, k)
    ensures g.InBounds(x, y, z) ==> r == g.raw(x, y, z)
  {
    var i, j, k := ClampAxis(x, g.sizeX), ClampAxis(y, g.sizeY), ClampAxis(z, g.sizeZ);
    assert g.InBounds(i, j, k);
    g.raw(i, j, k)
  }

  /** Every clamped read lands inside the grid. */
  lemma ClampedReadInBounds(g: Grid, x: U32, y: U32, z: U32)
    requires g.WellSized()
    ensures g.InBounds(ClampAxis(x, g.sizeX), ClampAxis(y, g.sizeY), ClampAxis(z, g.sizeZ))
    ensures g.InBounds(x, y, z) ==> IsolevelClamped(g, x, y, z) == g.raw(x, y, z)
  {
  }

  /**
   `get_hermite_value`: the value is read unclamped through `get_voxel_f`,
   each gradient component is the clamped read one step up minus the clamped
   read one step down, with `unsigned` arithmetic on the coordinate.
   */
  function GetHermiteValue(g: Grid, x: U32, y: U32, z: U32): (v: HermiteValue)
    requires g.WellSized() && g.InBounds(x, y, z)
    ensures v.value == g.normalized(x, y, z)
    // along an axis one cell thick both neighbours clamp onto the cell itself
    ensures g.sizeX == 1 ==> v.gradient.x == 0.0
    ensures g.sizeY == 1 ==> v.gradient.y == 0.0
    ensures g.sizeZ == 1 ==> v.gradient.z == 0.0
  {
    var gx := IsolevelClamped(g, ToU32(x + 1), y, z) - IsolevelClamped(g, ToU32(x - 1), y, z);
    var gy := IsolevelClamped(g, x, ToU32(y + 1), z) - IsolevelClamped(g, x, ToU32(y - 1), z);
    var gz := IsolevelClamped(g, x, y, ToU32(z + 1)) - IsolevelClamped(g, x, y, ToU32(z - 1));
    DefaultHermiteValue.(value := g.normalized(x, y, z), gradient := Vector3(gx as real, gy as real, gz as real))
  }

  /**
   Away from the faces, each gradient component is the plain central
   difference of the raw isolevel.
   */
  lemma InteriorCentralDifference(g: Grid, x: U32, y: U32, z: U32)
    requires g.WellSized() && g.InBounds(x, y, z)
    ensures 0 < x < g.sizeX - 1 ==>
      GetHermiteValue(g, x, y, z).gradient.x == (g.raw(x + 1, y, z) - g.raw(x - 1, y, z)) as real
    ensures 0 < y < g.sizeY - 1 ==>
      GetHermiteValue(g, x, y, z).gradient.y == (g.raw(x, y + 1, z) - g.raw(x, y - 1, z)) as real
    ensures 0 < z < g.sizeZ - 1 ==>
      GetHermiteValue(g, x, y, z).gradient.z == (g.raw(x, y, z + 1) - g.raw(x, y, z - 1)) as real
  {
  }

  /**
   At coordinate 0 the step down wraps to the largest `unsigned` value and
   is clamped to the far face: the gradient subtracts the read at
   `size - 1`, not at 0.
   */
  lemma LowFaceReadsFarBoundary(g: Grid, x: U32, y: U32, z: U32)
    requires g.WellSized() && g.InBounds(x, y, z)
    ensures x == 0 ==>
      GetHermiteValue(g, x, y, z).gradient.x == (g.raw(if g.sizeX > 1 then 1 else 0, y, z) - g.raw(g.sizeX - 1, y, z)) as real
    ensures y == 0 ==>
      GetHermiteValue(g, x, y, z).gradient.y == (g.raw(x, if g.sizeY > 1 then 1 else 0, z) - g.raw(x, g.sizeY - 1, z)) as real
    ensures z == 0 ==>
      GetHermiteValue(g, x, y, z).gradient.z == (g.raw(x, y, if g.sizeZ > 1 then 1 else 0) - g.raw(x, y, g.sizeZ - 1)) as real
  {
  }

  /** At the far face the step up is clamped back onto the face: a one-sided difference. */
  lemma HighFaceOneSided(g: Grid, x: U32, y: U32, z: U32)
    requires g.WellSized() && g.InBounds(x, y, z)
    ensures 0 < x == g.sizeX - 1 ==>
      GetHermiteValue(g, x, y, z).gradient.x == (g.raw(x, y, z) - g.raw(x - 1, y, z)) as real
    ensures 0 < y == g.sizeY - 1 ==>
      GetHermiteValue(g, x, y, z).gradient.y == (g.raw(x, y, z) - g.raw(x, y - 1, z)) as real
    ensures 0 < z == g.sizeZ - 1 ==>
      GetHermiteValue(g, x, y, z).gradient.z == (g.raw(x, y, z) - g.raw(x, y, z - 1)) as real
  {
  }

  /** The raw isolevel is `k` in every cell of the grid. */
  ghost predicate ConstantIsolevel(g: Grid, k: int)
  {
    forall x, y, z :: g.InBounds(x, y, z) ==> g.raw(x, y, z) == k
  }

  /** On a constant grid every gradient component is zero, at every cell including the faces. */
  lemma ConstantGridZeroGradient(g: Grid, k: int, x: U32, y: U32, z: U32)
    requires g.WellSized() && g.InBounds(x, y, z) && ConstantIsolevel(g, k)
    ensures GetHermiteValue(g, x, y, z).gradient == ZeroVector
    ensures GetHermiteValue(g, x, y, z).value == g.normalized(x, y, z)
  {
    ClampedReadInBounds(g, ToU32(x + 1), y, z);
    ClampedReadInBounds(g, ToU32(x - 1), y, z);
    ClampedReadInBounds(g, x, ToU32(y + 1), z);
    ClampedReadInBounds(g, x, ToU32(y - 1), z);
    ClampedReadInBounds(g, x, y, ToU32(z + 1));
    ClampedReadInBounds(g, x, y, ToU32(z - 1));
  }

  /** `static_cast<int>` of a real: truncation toward zero. */
  function Trunc(r: real): (n: int)
    ensures r >= 0.0 ==> n as real <= r < n as real + 1.0
    ensures r < 0.0 ==> n as real - 1.0 < r <= n as real
  {
    if r >= 0.0 then r.Floor else -((-r).Floor)
  }

  /** `Math::ceil`: the least integer not below `r`. */
  function Ceil(r: real): (n: int)
    ensures n as real - 1.0 < r <= n as real
  {
    -((-r).Floor)
  }

  /**
   Along one axis the cell spans `Trunc(p)` to `Ceil(p)`. For a
   non-negative coordinate the two coincide exactly when it is whole, are
   one apart otherwise, and the offset from the low corner lies in [0, 1).
   */
  lemma CellSpan(p: real)
    requires p >= 0.0
    ensures Ceil(p) == Trunc(p) <==> p == Trunc(p) as real
    ensures Ceil(p) != Trunc(p) ==> Ceil(p) == Trunc(p) + 1
    ensures 0.0 <= p - Trunc(p) as real < 1.0
  {
  }

  /**
   For a negative coordinate that is not whole, truncation rounds up, so
   both corners are the same ceiling and the offset is negative.
   */
  lemma NegativeCellCollapses(p: real)
    requires p < 0.0 && p != Trunc(p) as real
    ensures Ceil(p) == Trunc(p)
    ensures -1.0 < p - Trunc(p) as real < 0.0
  {
  }

  /** Which end of the cell each axis takes: `false` for the `0` corner, `true` for the `1` corner. */
  datatype Offset = Offset(hiX: bool, hiY: bool, hiZ: bool)

  /** The corner order of `get_interpolated_hermite_value`, `v0` to `v7`. */
  const CornerOrder: seq<Offset> := [
    Offset(false, false, false), Offset(true, false, false),
    Offset(true, false, true), Offset(false, false, true),
    Offset(false, true, false), Offset(true, true, false),
    Offset(true, true, true), Offset(false, true, true)
  ]

  /** Each of the eight end combinations occurs exactly once in the corner order. */
  lemma CornerOrderIsEachCombinationOnce()
    ensures |CornerOrder| == 8
    ensures forall o: Offset :: o in CornerOrder
    ensures forall i, j :: 0 <= i < j < |CornerOrder| ==> CornerOrder[i] != CornerOrder[j]
  {
    forall o: Offset ensures o in CornerOrder {
      var i := (if o.hiX != o.hiZ then 1 else 0) + (if o.hiZ then 2 else 0) + (if o.hiY then 4 else 0);
      assert CornerOrder[i] == o;
    }
  }

  /** The integer coordinates of a corner: the truncated or the ceiled position on each axis. */
  datatype Corner = Corner(x: int, y: int, z: int)

  function CornerAt(pos: Vector3, o: Offset): Corner
  {
    Corner(if o.hiX then Ceil(pos.x) else Trunc(pos.x),
           if o.hiY then Ceil(pos.y) else Trunc(pos.y),
           if o.hiZ then Ceil(pos.z) else Trunc(pos.z))
  }

  /** The eight corners sampled for `pos`, in the order `v0` to `v7`. */
  function Corners(pos: Vector3): seq<Corner>
  {
    seq(|CornerOrder|, i requires 0 <= i < |CornerOrder| => CornerAt(pos, CornerOrder[i]))
  }

  /**
   The corners are exactly the points of {x0,x1} × {y0,y1} × {z0,z1}; when
   no coordinate is whole they are eight distinct points.
   */
  lemma CornersAreTheCellProduct(pos: Vector3)
    ensures forall c: Corner :: c in Corners(pos) <==>
      && (c.x == Trunc(pos.x) || c.x == Ceil(pos.x))
      && (c.y == Trunc(pos.y) || c.y == Ceil(pos.y))
      && (c.z == Trunc(pos.z) || c.z == Ceil(pos.z))
    ensures Trunc(pos.x) != Ceil(pos.x) && Trunc(pos.y) != Ceil(pos.y) && Trunc(pos.z) != Ceil(pos.z) ==>
      forall i, j :: 0 <= i < j < |Corners(pos)| ==> Corners(pos)[i] != Corners(pos)[j]
  {
    CornerOrderIsEachCombinationOnce();
    var cs := Corners(pos);
    forall c: Corner | (c.x == Trunc(pos.x) || c.x == Ceil(pos.x)) && (c.y == Trunc(pos.y) || c.y == Ceil(pos.y))
                 && (c.z == Trunc(pos.z) || c.z == Ceil(pos.z))
      ensures c in cs
    {
      var o := Offset(c.x != Trunc(pos.x), c.y != Trunc(pos.y), c.z != Trunc(pos.z));
      assert o in CornerOrder;
      var i :| 0 <= i < |CornerOrder| && CornerOrder[i] == o;
      assert cs[i] == c;
    }
  }

  /**
   `rpos`: the query position relative to its low corner. Each component
   lies strictly between -1 and 1, and is not negative for a non-negative
   coordinate.
   */
  function RelativePosition(pos: Vector3): (r: Vector3)
    ensures -1.0 < r.x < 1.0 && -1.0 < r.y < 1.0 && -1.0 < r.z < 1.0
    ensures pos.x >= 0.0 ==> 0.0 <= r.x
    ensures pos.y >= 0.0 ==> 0.0 <= r.y
    ensures pos.z >= 0.0 ==> 0.0 <= r.z
  {
    Vector3(pos.x - Trunc(pos.x) as real, pos.y - Trunc(pos.y) as real, pos.z - Trunc(pos.z) as real)
  }

  /** For a query inside the positive octant, each component of `rpos` lies in [0, 1). */
  lemma RelativePositionInUnitCell(pos: Vector3)
    requires pos.x >= 0.0 && pos.y >= 0.0 && pos.z >= 0.0
    ensures 0.0 <= RelativePosition(pos).x < 1.0
    ensures 0.0 <= RelativePosition(pos).y < 1.0
    ensures 0.0 <= RelativePosition(pos).z < 1.0
  {
    CellSpan(pos.x);
    CellSpan(pos.y);
    CellSpan(pos.z);
  }

  /**
   The corners of a query lie in the grid when every coordinate is above -1
   (so that truncation gives at least 0) and its ceiling is inside. A
   coordinate in (-1, 0) truncates and rounds up to 0 alike, so the cell
   collapses onto index 0 on that axis.
   */
  predicate QueryInside(g: Grid, pos: Vector3)
  {
    && -1.0 < pos.x && -1.0 < pos.y && -1.0 < pos.z
    && Ceil(pos.x) < g.sizeX && Ceil(pos.y) < g.sizeY && Ceil(pos.z) < g.sizeZ
  }

  /** Above -1, truncation and ceiling are both at least 0; in (-1, 0) both are 0. */
  lemma CornerIndexNonNegative(p: real)
    requires -1.0 < p
    ensures 0 <= Trunc(p) <= Ceil(p)
    ensures p < 0.0 ==> Trunc(p) == 0 == Ceil(p)
  {
    if p >= 0.0 {
      CellSpan(p);
    }
  }

  /**
   The eight Hermite samples `v0` to `v7` that `get_interpolated_hermite_value`
   feeds to the (unmodelled) trilinear interpolation, with `rpos`. The
   `int` corner coordinates are passed to `unsigned` parameters.
   */
  function InterpolationInputs(g: Grid, pos: Vector3): (r: (seq<HermiteValue>, Vector3))
    requires g.WellSized() && QueryInside(g, pos)
    ensures |r.0| == 8
    ensures forall i :: 0 <= i < 8 ==>
      var c := CornerAt(pos, CornerOrder[i]);
      g.InBounds(c.x, c.y, c.z) && r.0[i] == GetHermiteValue(g, c.x, c.y, c.z)
    ensures -1.0 < r.1.x < 1.0 && -1.0 < r.1.y < 1.0 && -1.0 < r.1.z < 1.0
    ensures pos.x >= 0.0 && pos.y >= 0.0 && pos.z >= 0.0 ==>
      0.0 <= r.1.x < 1.0 && 0.0 <= r.1.y < 1.0 && 0.0 <= r.1.z < 1.0
  {
    CornerIndexNonNegative(pos.x);
    CornerIndexNonNegative(pos.y);
    CornerIndexNonNegative(pos.z);
    var samples := seq(8, i requires 0 <= i < 8 =>
      var c := CornerAt(pos, CornerOrder[i]);
      GetHermiteValue(g, ToU32(c.x), ToU32(c.y), ToU32(c.z)));
    (samples, RelativePosition(pos))
  }
}
