/**
 Properties of the control-grid sizing rule: the declarative description
 pins the grid size down, the unclamped count is half-up rounding, the clamp
 is inactive above the minimum, larger extents never give smaller grids,
 and every axis is sized on its own.
 */
module GridSizingProperties {
  import opened GridSizing

  /** On non-negative input Python's truncation is the floor. */
  lemma PyIntIsFloorOnNonNegative(x: real)
    requires x >= 0.0
    ensures PyInt(x) == x.Floor
  {
  }

  /** Truncation toward zero never decreases when its argument grows. */
  lemma PyIntMonotone(x: real, y: real)
    requires x <= y
    ensures PyInt(x) <= PyInt(y)
  {
    if x < 0.0 && y >= 0.0 {
      assert PyInt(x) <= 0;
    }
  }

  /** Half-up rounding has exactly one result. */
  lemma RoundHalfUpUnique(x: real, n: int, m: int)
    requires IsRoundHalfUp(x, n) && IsRoundHalfUp(x, m)
    ensures n == m
  {
  }

  /** For a non-negative extent the unclamped count is `floor(extent / 50 + 1/2)`. */
  lemma RoundedCellsIsFloor(a: Axis)
    requires Extent(a) >= 0.0
    ensures RoundedCells(a) == (Extent(a) / GridPhysicalSpacing + 0.5).Floor
    ensures IsRoundHalfUp(Extent(a) / GridPhysicalSpacing, RoundedCells(a))
  {
    PyIntIsFloorOnNonNegative(Extent(a) / GridPhysicalSpacing + 0.5);
  }

  /** At most one grid size fits the declarative description of an extent. */
  lemma GridSizeSpecUnique(e: real, g1: int, g2: int)
    requires IsGridSizeFor(e, g1) && IsGridSizeFor(e, g2)
    ensures g1 == g2
  {
    if g1 > MinGridSize && g2 > MinGridSize {
      RoundHalfUpUnique(e / GridPhysicalSpacing, g1, g2);
    }
  }

  /** The computed grid size is exactly the one the description allows. */
  lemma GridSizeCharacterized(a: Axis, g: int)
    ensures GridSize(a) == g <==> IsGridSizeFor(Extent(a), g)
  {
    if IsGridSizeFor(Extent(a), g) {
      GridSizeSpecUnique(Extent(a), GridSize(a), g);
    }
  }

  /** When rounding already gives at least three cells the clamp changes nothing. */
  lemma ClampInactive(a: Axis)
    requires RoundedCells(a) >= MinGridSize
    ensures GridSize(a) == RoundedCells(a)
    ensures MeshSize(a) == RoundedCells(a) - 1
  {
  }

  /**
   The clamp decides exactly at an extent of 175 physical units: below it an
   axis gets the minimum three cells, from it on more than three.
   */
  lemma ClampThreshold(a: Axis)
    ensures GridSize(a) > MinGridSize <==> Extent(a) >= 175.0
    ensures GridSize(a) == MinGridSize <==> Extent(a) < 175.0
  {
  }

  /** A larger physical extent never yields a smaller grid or mesh size. */
  lemma GridSizeMonotone(a: Axis, b: Axis)
    requires Extent(a) <= Extent(b)
    ensures GridSize(a) <= GridSize(b)
    ensures MeshSize(a) <= MeshSize(b)
  {
    PyIntMonotone(Extent(a) / GridPhysicalSpacing + 0.5, Extent(b) / GridPhysicalSpacing + 0.5);
  }

  /** With a fixed non-negative spacing, more voxels never give fewer cells. */
  lemma GridSizeMonotoneInSize(size1: nat, size2: nat, spacing: real)
    requires size1 <= size2 && spacing >= 0.0
    ensures GridSize(Axis(size1, spacing)) <= GridSize(Axis(size2, spacing))
  {
    assert size1 as real * spacing <= size2 as real * spacing;
    GridSizeMonotone(Axis(size1, spacing), Axis(size2, spacing));
  }

  /** With a fixed voxel count, a coarser spacing never gives fewer cells. */
  lemma GridSizeMonotoneInSpacing(size: nat, spacing1: real, spacing2: real)
    requires spacing1 <= spacing2
    ensures GridSize(Axis(size, spacing1)) <= GridSize(Axis(size, spacing2))
  {
    assert size as real * spacing1 <= size as real * spacing2;
    GridSizeMonotone(Axis(size, spacing1), Axis(size, spacing2));
  }

  /** Axis by axis, larger extents give a pointwise larger mesh-size list. */
  lemma MeshSizesMonotone(xs: seq<Axis>, ys: seq<Axis>)
    requires |xs| == |ys|
    requires forall i :: 0 <= i < |xs| ==> Extent(xs[i]) <= Extent(ys[i])
    ensures forall i :: 0 <= i < |xs| ==>
              TransformDomainMeshSize(xs)[i] <= TransformDomainMeshSize(ys)[i]
  {
    forall i | 0 <= i < |xs|
      ensures TransformDomainMeshSize(xs)[i] <= TransformDomainMeshSize(ys)[i]
    {
      GridSizeMonotone(xs[i], ys[i]);
      GridSizeCharacterized(xs[i], TransformDomainMeshSize(xs)[i] + 1);
      GridSizeCharacterized(ys[i], TransformDomainMeshSize(ys)[i] + 1);
    }
  }

  /** The list entry of an axis is that axis's own mesh size. */
  lemma MeshSizeAt(axes: seq<Axis>, i: int)
    requires 0 <= i < |axes|
    ensures TransformDomainMeshSize(axes)[i] == MeshSize(axes[i])
  {
    GridSizeCharacterized(axes[i], TransformDomainMeshSize(axes)[i] + 1);
  }

  /**
   Changing one axis's size or spacing changes that axis's entry to the new
   axis's mesh size and leaves every other entry as it was.
   */
  lemma AxisIndependence(axes: seq<Axis>, k: int, a: Axis)
    requires 0 <= k < |axes|
    ensures TransformDomainMeshSize(axes[k := a]) == TransformDomainMeshSize(axes)[k := MeshSize(a)]
  {
    var lhs := TransformDomainMeshSize(axes[k := a]);
    var rhs := TransformDomainMeshSize(axes)[k := MeshSize(a)];
    forall i | 0 <= i < |axes|
      ensures lhs[i] == rhs[i]
    {
      MeshSizeAt(axes[k := a], i);
      MeshSizeAt(axes, i);
    }
  }

  /** Sizing a list of axes is sizing its parts and joining them in order. */
  lemma MeshSizesAppend(xs: seq<Axis>, ys: seq<Axis>)
    ensures TransformDomainMeshSize(xs + ys) == TransformDomainMeshSize(xs) + TransformDomainMeshSize(ys)
  {
    var lhs := TransformDomainMeshSize(xs + ys);
    var rhs := TransformDomainMeshSize(xs) + TransformDomainMeshSize(ys);
    forall i | 0 <= i < |xs + ys|
      ensures lhs[i] == rhs[i]
    {
      MeshSizeAt(xs + ys, i);
      if i < |xs| {
        MeshSizeAt(xs, i);
      } else {
        MeshSizeAt(ys, i - |xs|);
      }
    }
  }

  /** 256 voxels of spacing 1: 5.12 rounds to a grid of 5 and a mesh of 4. */
  lemma Example256()
    ensures GridSize(Axis(256, 1.0)) == 5
    ensures MeshSize(Axis(256, 1.0)) == 4
    ensures TransformDomainMeshSize([Axis(256, 1.0), Axis(256, 1.0), Axis(256, 1.0)]) == [4, 4, 4]
  {
    MeshSizeAt([Axis(256, 1.0), Axis(256, 1.0), Axis(256, 1.0)], 0);
    MeshSizeAt([Axis(256, 1.0), Axis(256, 1.0), Axis(256, 1.0)], 1);
    MeshSizeAt([Axis(256, 1.0), Axis(256, 1.0), Axis(256, 1.0)], 2);
  }

  /** 10 voxels of spacing 1: 0.2 rounds to 0, clamped to a grid of 3 and a mesh of 2. */
  lemma ExampleTiny()
    ensures RoundedCells(Axis(10, 1.0)) == 0
    ensures GridSize(Axis(10, 1.0)) == 3
    ensures MeshSize(Axis(10, 1.0)) == 2
  {
  }
}
