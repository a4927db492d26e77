/**
 Control-grid sizing for the free-form (B-spline) deformation estimated by
 `est_nl_transf`. From the reference image's per-axis voxel count and voxel
 spacing it derives how many control-grid cells each axis gets and the mesh
 size handed to the B-spline transform initializer.

 Arithmetic is on exact reals; Python's `int(x)` on a float is modelled by
 `PyInt`, which truncates toward zero for every real, negative ones included.
 */
module GridSizing {

  /** Target control-point spacing, in physical units, used on every axis. */
  const GridPhysicalSpacing: real := 50.0

  /** The fewest control-grid cells an axis may have. */
  const MinGridSize: int := 3

  /** One axis of the reference image: its voxel count and its voxel spacing. */
  datatype Axis = Axis(size: nat, spacing: real)

  /**
   Physical extent of an axis: voxel count times voxel spacing. Dividing the
   extent by a non-zero spacing gives back the voxel count, and a non-negative
   spacing gives a non-negative extent.
   */
  function Extent(a: Axis): (r: real)
    ensures a.spacing != 0.0 ==> r / a.spacing == a.size as real
    ensures a.spacing >= 0.0 ==> r >= 0.0
  {
    a.size as real * a.spacing
  }

  /** `n` is `x` rounded half-up: the unique integer with n <= x + 1/2 < n + 1. */
  ghost predicate IsRoundHalfUp(x: real, n: int)
  {
    n as real <= x + 0.5 < n as real + 1.0
  }

  /**
   Declarative description of the grid size for an axis of extent `e`:
   at least the minimum, equal to the half-up rounding of `e / 50` when it is
   above the minimum, and the minimum only when that rounding does not exceed it.
   */
  ghost predicate IsGridSizeFor(e: real, g: int)
  {
    && g >= MinGridSize
    && (g > MinGridSize ==> IsRoundHalfUp(e / GridPhysicalSpacing, g))
    && (g == MinGridSize ==> e / GridPhysicalSpacing + 0.5 < MinGridSize as real + 1.0)
  }

  /** Python's `int(x)` on a float: truncation toward zero. */
  function PyInt(x: real): (r: int)
    ensures x >= 0.0 ==> r as real <= x < r as real + 1.0
    ensures x < 0.0 ==> r as real - 1.0 < x <= r as real
  {
    if x >= 0.0 then x.Floor else -((-x).Floor)
  }

  /** The per-axis cell count before clamping: `int(extent / 50 + 0.5)`. */
  function RoundedCells(a: Axis): (r: int)
    ensures Extent(a) >= 0.0 ==> IsRoundHalfUp(Extent(a) / GridPhysicalSpacing, r)
  {
    PyInt(Extent(a) / GridPhysicalSpacing + 0.5)
  }

  /** The per-axis cell count after clamping to at least three cells. */
  function GridSize(a: Axis): (r: int)
    ensures IsGridSizeFor(Extent(a), r)
  {
    Clamp(RoundedCells(a))
  }

  /** `max(3, g)`: the least integer that is at least the minimum and at least `g`. */
  function Clamp(g: int): (r: int)
    ensures r >= MinGridSize && r >= g
    ensures r == MinGridSize || r == g
  {
    if g < MinGridSize then MinGridSize else g
  }

  /** The per-axis mesh size given to the B-spline initializer. */
  function MeshSize(a: Axis): (r: int)
    ensures r >= MinGridSize - 1
    ensures IsGridSizeFor(Extent(a), r + 1)
  {
    GridSize(a) - 1
  }

  /** The first comprehension: unclamped cell count of every axis, in axis order. */
  function RoundedGridSizes(axes: seq<Axis>): (r: seq<int>)
    ensures |r| == |axes|
    ensures forall i :: 0 <= i < |axes| && Extent(axes[i]) >= 0.0 ==>
              IsRoundHalfUp(Extent(axes[i]) / GridPhysicalSpacing, r[i])
  {
    seq(|axes|, i requires 0 <= i < |axes| => RoundedCells(axes[i]))
  }

  /** The second comprehension: every entry clamped to at least three. */
  function ClampGridSizes(g: seq<int>): (r: seq<int>)
    ensures |r| == |g|
    ensures forall i :: 0 <= i < |g| ==> r[i] >= MinGridSize && r[i] >= g[i]
    ensures forall i :: 0 <= i < |g| ==> r[i] == MinGridSize || r[i] == g[i]
    ensures forall i :: 0 <= i < |g| && g[i] >= MinGridSize ==> r[i] == g[i]
  {
    seq(|g|, i requires 0 <= i < |g| => Clamp(g[i]))
  }

  /** The third comprehension: each grid size minus one. */
  function MeshSizes(g: seq<int>): (r: seq<int>)
    ensures |r| == |g|
    ensures forall i :: 0 <= i < |g| ==> r[i] + 1 == g[i]
  {
    seq(|g|, i requires 0 <= i < |g| => g[i] - 1)
  }

  /** Grid sizes of all axes: the first two comprehensions composed. */
  function GridSizes(axes: seq<Axis>): (r: seq<int>)
    ensures |r| == |axes|
    ensures forall i :: 0 <= i < |axes| ==> IsGridSizeFor(Extent(axes[i]), r[i])
  {
    ClampGridSizes(RoundedGridSizes(axes))
  }

  /** `transform_domain_mesh_size`: the list passed to the B-spline initializer. */
  function TransformDomainMeshSize(axes: seq<Axis>): (r: seq<int>)
    ensures |r| == |axes|
    ensures forall i :: 0 <= i < |axes| ==>
              r[i] >= MinGridSize - 1 && IsGridSizeFor(Extent(axes[i]), r[i] + 1)
  {
    MeshSizes(GridSizes(axes))
  }

  /**
   The three comprehensions fused into one pass over the axes: each axis's
   rounded count is clamped and decremented in turn. The result is the list
   the composed comprehensions give.
   */
  method ComputeMeshSize(axes: seq<Axis>) returns (mesh: seq<int>)
    ensures |mesh| == |axes|
    ensures forall i :: 0 <= i < |axes| ==>
              mesh[i] >= MinGridSize - 1 && IsGridSizeFor(Extent(axes[i]), mesh[i] + 1)
    ensures mesh == TransformDomainMeshSize(axes)
  {
    mesh := [];
    var i := 0;
    while i < |axes|
      invariant 0 <= i <= |axes|
      invariant |mesh| == i
      invariant forall j :: 0 <= j < i ==> mesh[j] == MeshSize(axes[j])
    {
      var g := PyInt(axes[i].size as real * axes[i].spacing / GridPhysicalSpacing + 0.5);
      if g < MinGridSize {
        g := MinGridSize;
      }
      mesh := mesh + [g - 1];
      i := i + 1;
    }
    assert forall j :: 0 <= j < |axes| ==> mesh[j] == TransformDomainMeshSize(axes)[j];
  }
}
