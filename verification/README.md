# B-spline control-grid sizing

This project models the control-grid sizing rule of the non-linear
registration step `est_nl_transf` in `Codes/Registration.py`. Before the
B-spline transform is built, the rule takes the reference image's voxel
count and voxel spacing on each axis and computes two lists:

- the grid size of each axis, which is the physical extent divided by a fixed
  control-point spacing of 50 physical units, rounded half-up and clamped to
  at least 3;
- the mesh size of each axis, which is the grid size minus 1. This list is
  passed to the B-spline transform initializer.

Module `GridSizing` (`grid_sizing.dfy`) holds the data model and the operations:

- `Axis` is one axis of the reference image, a voxel count and a spacing.
- `PyInt` is Python's `int()` on a number, which truncates toward zero.
- `RoundedGridSizes`, `ClampGridSizes` and `MeshSizes` are the three list
  comprehensions of lines 54, 55 and 56.
- `TransformDomainMeshSize` composes those three comprehensions.
- `ComputeMeshSize` fuses the three comprehensions into one loop.

The per-axis operations and the list operations built from them
(`RoundedCells`, `GridSize`, `MeshSize`, `RoundedGridSizes`, `GridSizes`,
`TransformDomainMeshSize`, `ComputeMeshSize`) are specified against an
independent declarative description. `IsRoundHalfUp` says what half-up
rounding means. `IsGridSizeFor` says which grid size an extent must get.
The helpers `Clamp` and `Extent` and the comprehensions `ClampGridSizes` and
`MeshSizes` are specified pointwise: `Clamp` by the usual characterisation of
a maximum, `Extent` by recovering the voxel count from it.

Module `GridSizingProperties` (`grid_sizing_properties.dfy`) proves the relations between the operations
and these descriptions: uniqueness, rounding, the clamp threshold,
monotonicity, per-axis independence and the worked examples.

The sizing code does no validation of the geometry. A zero or negative spacing
is not rejected: it gives a non-positive extent, truncation toward zero brings
the rounded count to at most 0, and the clamp then yields 3 cells. The model
follows the code, so the sizing functions have no precondition on the spacing.
Only the rounding facts that depend on the extent being non-negative require
it. A geometry error raised at transform construction would come from the
B-spline initializer, which is not part of this model.

## Model

| member | source | states |
|---|---|---|
| GridSizing.PyInt | Codes/Registration.py:54 | `int()` truncates toward zero: for x >= 0 the result r has r <= x < r + 1, and for x < 0 it has r - 1 < x <= r |
| GridSizing.Extent | Codes/Registration.py:52-54 | the physical extent `size * spacing` of an axis: dividing it by a non-zero spacing gives back the voxel count, and a non-negative spacing gives a non-negative extent |
| GridSizing.Clamp | Codes/Registration.py:55 | `max(3, g)`: the result is at least 3 and at least g, and is one of the two |
| GridSizing.RoundedCells | Codes/Registration.py:51-54 | for a non-negative extent, the unclamped cell count is `extent / 50` rounded half-up |
| GridSizing.GridSize | Codes/Registration.py:51-55 | an axis's grid size meets the declarative description: at least 3, the half-up rounding of `extent / 50` when above 3, and 3 only when that rounding is at most 3 |
| GridSizing.MeshSize | Codes/Registration.py:55-56 | an axis's mesh size is at least 2, and one more than it is the grid size the description allows |
| GridSizing.RoundedGridSizes | Codes/Registration.py:54 | one unclamped count per axis, in axis order, each the half-up rounding of that axis's `extent / 50` when the extent is non-negative |
| GridSizing.ClampGridSizes | Codes/Registration.py:55 | same length as its input; every entry is at least 3 and at least its input, and is either 3 or its input, so it is their maximum; entries already at least 3 are unchanged |
| GridSizing.MeshSizes | Codes/Registration.py:56 | same length as its input; each entry plus one is the corresponding grid size |
| GridSizing.GridSizes | Codes/Registration.py:54-55 | one grid size per axis, in axis order, each meeting the declarative description for that axis's extent |
| GridSizing.TransformDomainMeshSize | Codes/Registration.py:51-56 | one mesh size per image dimension, in axis order; each is at least 2 and is one less than the grid size allowed for that axis |
| GridSizing.ComputeMeshSize | Codes/Registration.py:51-56 | the fused loop returns one mesh size per axis, each at least 2 and one less than the allowed grid size, and the list equals the composed comprehensions |
| GridSizingProperties.PyIntIsFloorOnNonNegative | Codes/Registration.py:54 | on non-negative input, truncation equals the floor |
| GridSizingProperties.PyIntMonotone | Codes/Registration.py:54 | truncation toward zero is non-decreasing |
| GridSizingProperties.RoundHalfUpUnique | Codes/Registration.py:54 | at most one integer is the half-up rounding of a given value |
| GridSizingProperties.RoundedCellsIsFloor | Codes/Registration.py:54 | for a non-negative extent, `int(extent / 50 + 0.5)` equals `floor(extent / 50 + 0.5)` and is the half-up rounding |
| GridSizingProperties.GridSizeSpecUnique | Codes/Registration.py:54-55 | the declarative description determines at most one grid size per extent |
| GridSizingProperties.GridSizeCharacterized | Codes/Registration.py:54-55 | the computed grid size equals g if and only if g meets the declarative description for the axis's extent |
| GridSizingProperties.ClampInactive | Codes/Registration.py:55-56 | when rounding already gives at least 3 cells, the grid size is the rounded count and the mesh size is one less |
| GridSizingProperties.ClampThreshold | Codes/Registration.py:51-55 | an axis gets more than 3 cells exactly when its extent is at least 175 units, and exactly 3 when the extent is below 175 |
| GridSizingProperties.GridSizeMonotone | Codes/Registration.py:54-56 | a larger physical extent never yields a smaller grid size or mesh size |
| GridSizingProperties.GridSizeMonotoneInSize | Codes/Registration.py:54-55 | at a fixed non-negative spacing, more voxels never yield fewer cells |
| GridSizingProperties.GridSizeMonotoneInSpacing | Codes/Registration.py:54-55 | at a fixed voxel count, a larger spacing never yields fewer cells |
| GridSizingProperties.MeshSizesMonotone | Codes/Registration.py:54-56 | if every axis's extent grows, every entry of the mesh-size list is at least as large |
| GridSizingProperties.MeshSizeAt | Codes/Registration.py:54-56 | the list entry of an axis is the mesh size of that axis alone |
| GridSizingProperties.AxisIndependence | Codes/Registration.py:54-56 | changing one axis's size or spacing changes only that axis's entry, which becomes the new axis's mesh size |
| GridSizingProperties.MeshSizesAppend | Codes/Registration.py:54-56 | sizing a concatenation of axes gives the concatenation of the separate results, in order |
| GridSizingProperties.Example256 | Codes/Registration.py:54-56 | 256 voxels at spacing 1.0 give grid 5 and mesh 4; three such axes give the mesh list [4, 4, 4] |
| GridSizingProperties.ExampleTiny | Codes/Registration.py:54-56 | 10 voxels at spacing 1.0 round to 0 cells, which is clamped to grid 3 and mesh 2 |

## Left out

- Arithmetic is on exact reals, not IEEE doubles. In the source the product `size * spacing`, the division by 50.0 and the addition of 0.5 each round to a double. An extent within a rounding error of a half-integer boundary, such as 125 or 175 units, may round the other way in floating point.
- `int()` on NaN or infinity raises an error in Python. Reals have no such values, so that error path is not modelled.
- The per-axis list `[50.0] * dimension` (line 51) is modelled as the single constant `GridPhysicalSpacing`, because every entry of the list has the same value.
- The reference image is modelled only by its per-axis voxel counts and spacings, as one sequence of `Axis` values. Origin, direction and pixel data do not affect the sizing.
- `est_lin_transf` (lines 3-29) and the rest of `est_nl_transf` (lines 31-50 and 57-63) are left out. They configure and run the registration library's metric, sampler, optimizers and centered initializer, which are foreign floating-point numerics.
- `BSplineTransformInitializer` (line 57) is a call into the library. The model stops at the mesh-size list passed to it.
- `apply_lin_transf` and `apply_nl_transf` (lines 65-87) are left out. They wrap the library's resampling filter, and interpolation and resampling happen inside the library.
- The optimizer and metric constants, such as learning rate, tolerances, histogram bin count and sampling percentage, are left out. They are settings of the library and carry no behaviour on this side.
