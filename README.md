# Point-cloud augmentation layers of keras-cv, modelled in Dafny

This project models two 3D augmentation layers of keras-cv. They work on
rank-3 tensors:

- point clouds, shaped frames × points × point features (`[x, y, z, class, range, …]`);
- bounding boxes, shaped frames × boxes × box features (`[x, y, z, dx, dy, dz, phi, …]`).

**GlobalRandomFlippingY** mirrors the scene about the Y axis. It negates
feature y (index 1) of every point and box. It replaces every box heading
phi (index 6) with `wrap_angle_radians(-phi)`. It keeps every other feature.
It draws no random parameter: `get_random_transformation` returns `None`,
modelled as `FlippingY.GetRandomTransformation` returning `()`, and the
transformation handed to the augmentation is discarded.

**GlobalRandomDroppingPoints** zeroes point-cloud entries. Its constructor
refuses a negative `keep_probability`. `get_random_transformation` compares a
tensor of uniform samples in [0, 1), shaped like the point clouds, against the
keep probability. The augmentation then applies `tf.where(mask, point_clouds, 0.0)`
and returns the boxes unchanged.

Modules:

- `Tensors` (`tensors.dfy`): tensors as `seq<seq<seq<T>>>`, `SameShape`,
  Python's clamped slicing `s[lo:hi]`, and the lifting of a last-axis transform
  to every (frame, point) row.
- `FlippingY` (`flipping_y.dfy`): the flip layer.
- `DroppingPoints` (`dropping_points.dfy`): the dropping layer.

Feature values are `real`, since negation and selection are exact. `wrap_angle_radians`
lives in a module that is not part of this model. It is passed to the flip as
a function parameter `wrap: real -> real`. The model assumes only that
`wrap_angle_radians` acts on each element of its tensor separately, so the
heading slice keeps its shape. Nothing is assumed about the values it returns.
The uniform samples are an input of `DroppingPoints.GetRandomTransformation`
rather than being drawn. Like the draw in the code, they must have the shape
of the point clouds. A `DroppingPoints.Layer` is a subset type whose keep
probability is never negative, which is the check the constructor makes.

Two observations on the code, which the model follows:

- The docstrings describe layouts of at least 5 point features and 7 box
  features, but the code slices with Python's clamped slices. The flip
  therefore keeps the shape for any number of features. With fewer features,
  only the features that exist are negated or wrapped. The model has no
  precondition on the feature count.
- The docstring speaks of dropping points. The mask, however, has the full
  shape of the point-cloud tensor, so single features of a point are zeroed
  independently. Whole points are not dropped as units.

## Model

| member | source | states |
|---|---|---|
| `FlippingY.FlipPoint` | keras_cv/layers/preprocessing3d/global_random_flipping_y.py:54-58 | the flipped point has as many features as the input; feature 1 is negated and every other feature is the input's |
| `FlippingY.FlipBox` | keras_cv/layers/preprocessing3d/global_random_flipping_y.py:60-71 | the flipped box has as many features as the input; feature 1 is negated, feature 6 is `wrap` of its negation, and features 0, 2–5 and 7 onward are the input's |
| `FlippingY.AugmentPointCloudsBoundingBoxes` | keras_cv/layers/preprocessing3d/global_random_flipping_y.py:49-73 | both output tensors have their input's shape (frames, points or boxes, features); at every index, point feature 1 is negated, box feature 1 is negated, box feature 6 is `wrap(-phi)` and all else is copied |
| `FlippingY.TransformationIsIgnored` | keras_cv/layers/preprocessing3d/global_random_flipping_y.py:46-52 | any transformation argument gives the same result as the layer's own `GetRandomTransformation()` (the unit value standing for `None`), so the flip is deterministic |
| `FlippingY.PointFlipIsInvolution` | keras_cv/layers/preprocessing3d/global_random_flipping_y.py:54-58 | applying the layer twice gives back the original point clouds |
| `FlippingY.BoxFlipTwiceRestoresAllButHeading` | keras_cv/layers/preprocessing3d/global_random_flipping_y.py:60-71 | applying the layer twice keeps the box shape and gives back every box feature except the heading, which becomes `wrap(-wrap(-phi))` |
| `FlippingY.BoxFlipIsInvolutionWhenWrapIsStable` | keras_cv/layers/preprocessing3d/global_random_flipping_y.py:60-71 | if `wrap(-wrap(-phi)) == phi` for every input heading, applying the layer twice gives back the original boxes |
| `DroppingPoints.New` | keras_cv/layers/preprocessing3d/global_random_dropping_points.py:45-49 | construction fails with the negative-probability error exactly when `keep_probability < 0`; otherwise the layer keeps the given probability (0 and values above 1 are accepted) |
| `DroppingPoints.GetRandomTransformation` | keras_cv/layers/preprocessing3d/global_random_dropping_points.py:51-59 | for samples drawn in the shape of the point clouds, the mask has exactly the point clouds' shape, and an entry is true iff its sample is below the keep probability |
| `DroppingPoints.AugmentPointCloudsBoundingBoxes` | keras_cv/layers/preprocessing3d/global_random_dropping_points.py:61-66 | for a mask shaped like the point clouds: the output keeps the shape, equals the input where the mask is true and is 0 where it is false; the boxes are returned unchanged |
| `DroppingPoints.DropBySamples` | keras_cv/layers/preprocessing3d/global_random_dropping_points.py:51-66 | the whole layer, for every keep probability: the output keeps the point clouds' shape, an entry is the input entry if its sample is below the keep probability and 0 otherwise, and the boxes are unchanged |
| `DroppingPoints.DropIsIdempotent` | keras_cv/layers/preprocessing3d/global_random_dropping_points.py:65 | dropping a second time with the same mask gives the same point clouds and boxes as dropping once |
| `DroppingPoints.KeepProbabilityZeroDropsAll` | keras_cv/layers/preprocessing3d/global_random_dropping_points.py:51-66 | with keep probability 0 and samples in [0, 1), the output point clouds are all zeros of the input's shape |
| `DroppingPoints.KeepProbabilityOneKeepsAll` | keras_cv/layers/preprocessing3d/global_random_dropping_points.py:51-66 | with keep probability at least 1 and samples in [0, 1), point clouds and boxes come out unchanged |

## Left out

- Random number generation: `random_uniform` belongs to the host framework. The samples are an argument of `DroppingPoints.GetRandomTransformation`, and `DroppingPoints.UnitSamples` states their range where a lemma needs it.
- `wrap_angle_radians`: its module is not part of this model. It is a parameter, so no involution is claimed for the box heading without the extra hypothesis of `BoxFlipIsInvolutionWhenWrapIsStable`.
- The `BaseAugmentationLayer3D` base class is framework plumbing whose code is not part of this model. This covers the `training` flag (identity at inference time), batching of a fourth leading axis and packing of inputs and outputs into dicts.
- Broadcasting in `tf.where`: `DroppingPoints.AugmentPointCloudsBoundingBoxes` requires a mask of exactly the point-cloud shape. That is the shape `get_random_transformation` produces.
- A `keep_probability` given as a tensor rather than a scalar: the model takes one `real`.
- IEEE float32 rounding, NaN and signed zero: values are `real`.
- `CropObjects`: a separate layer, not modelled.
