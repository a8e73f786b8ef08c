/** The GlobalRandomDroppingPoints augmentation layer: every point-cloud
    entry whose uniform sample is not below the keep probability is set to
    zero; bounding boxes pass through. */
module DroppingPoints {
  import opened Tensors

  /** The `ValueError` raised by the constructor. */
  datatype Error = NegativeKeepProbability

  datatype Result<T> = Ok(value: T) | Err(error: Error)

  /** The layer's only state, fixed at construction. */
  datatype LayerState = LayerState(keepProbability: real)

  /** A layer as the constructor admits it: the keep probability is not negative. */
  type Layer = l: LayerState | 0.0 <= l.keepProbability witness LayerState(0.0)

  /** What `get_random_transformation` returns: `{"point_mask": mask}`. */
  datatype Transformation = Transformation(pointMask: Tensor<bool>)

  /** The constructor: a negative keep probability is refused; zero and values
      above one are accepted. */
  function New(keepProbability: real): (r: Result<Layer>)
    ensures r.Err? <==> keepProbability < 0.0
    ensures r.Err? ==> r.error == NegativeKeepProbability
    ensures r.Ok? ==> r.value.keepProbability == keepProbability && 0.0 <= r.value.keepProbability
  {
    if keepProbability < 0.0 then Err(NegativeKeepProbability) else var layer: Layer := LayerState(keepProbability); Ok(layer)
  }

  /** Every sample lies in [0, 1), as `random_uniform(minval=0, maxval=1)`
      draws them. */
  predicate UnitSamples(samples: Tensor<real>)
  {
    forall f, p, k :: 0 <= f < |samples| && 0 <= p < |samples[f]| && 0 <= k < |samples[f][p]| ==>
      0.0 <= samples[f][p][k] < 1.0
  }

  /** `get_random_transformation`, with the uniform samples drawn in the
      shape of the point clouds given as `samples`: the mask has the shape of
      the point clouds, and an entry is true exactly when its sample is below
      the keep probability. */
  function GetRandomTransformation(layer: Layer, pointClouds: Tensor<real>, samples: Tensor<real>): (t: Transformation)
    requires SameShape(samples, pointClouds)
    ensures SameShape(t.pointMask, pointClouds)
    ensures SameShape(t.pointMask, samples)
    ensures forall f, p, k :: 0 <= f < |samples| && 0 <= p < |samples[f]| && 0 <= k < |samples[f][p]| ==>
              (t.pointMask[f][p][k] <==> samples[f][p][k] < layer.keepProbability)
  {
    Transformation(MapRows(samples, (row: seq<real>) =>
      seq(|row|, i requires 0 <= i < |row| => row[i] < layer.keepProbability)))
  }

  /** One row of `tf.where(mask, x, 0.0)`. */
  function SelectRow(keep: seq<bool>, row: seq<real>): (r: seq<real>)
    requires |keep| == |row|
    ensures |r| == |row|
  {
    seq(|row|, i requires 0 <= i < |row| => if keep[i] then row[i] else 0.0)
  }

  /** `augment_point_clouds_bounding_boxes`: `tf.where(point_mask, point_clouds, 0.0)`.
      The mask must have the shape of the point clouds. Each entry is kept
      where the mask is true and becomes zero where it is false; the boxes are
      returned unchanged. */
  function AugmentPointCloudsBoundingBoxes(
    pointClouds: Tensor<real>, boundingBoxes: Tensor<real>, transformation: Transformation
  ): (r: (Tensor<real>, Tensor<real>))
    requires SameShape(transformation.pointMask, pointClouds)
    ensures SameShape(r.0, pointClouds)
    ensures forall f, p, k :: 0 <= f < |pointClouds| && 0 <= p < |pointClouds[f]| && 0 <= k < |pointClouds[f][p]| ==>
              && (transformation.pointMask[f][p][k] ==> r.0[f][p][k] == pointClouds[f][p][k])
              && (!transformation.pointMask[f][p][k] ==> r.0[f][p][k] == 0.0)
    ensures r.1 == boundingBoxes
  {
    var mask := transformation.pointMask;
    var out := seq(|pointClouds|, f requires 0 <= f < |pointClouds| =>
      seq(|pointClouds[f]|, p requires 0 <= p < |pointClouds[f]| => SelectRow(mask[f][p], pointClouds[f][p])));
    (out, boundingBoxes)
  }

  /** Dropping again with the same mask changes nothing. */
  lemma DropIsIdempotent(pointClouds: Tensor<real>, boundingBoxes: Tensor<real>, transformation: Transformation)
    requires SameShape(transformation.pointMask, pointClouds)
    ensures var once := AugmentPointCloudsBoundingBoxes(pointClouds, boundingBoxes, transformation);
            SameShape(transformation.pointMask, once.0)
            && AugmentPointCloudsBoundingBoxes(once.0, once.1, transformation) == once
  {
    var once := AugmentPointCloudsBoundingBoxes(pointClouds, boundingBoxes, transformation);
    assert SameShape(transformation.pointMask, once.0);
    var twice := AugmentPointCloudsBoundingBoxes(once.0, once.1, transformation);
    EqualAtEveryIndex(twice.0, once.0);
  }

  /** The whole layer for any keep probability: with the mask drawn from
      `samples`, an entry is kept when its sample is below the keep
      probability and is zero otherwise; the boxes pass through. */
  lemma DropBySamples(layer: Layer, pointClouds: Tensor<real>, boundingBoxes: Tensor<real>, samples: Tensor<real>)
    requires SameShape(samples, pointClouds)
    ensures var t := GetRandomTransformation(layer, pointClouds, samples);
            var out := AugmentPointCloudsBoundingBoxes(pointClouds, boundingBoxes, t);
            && SameShape(out.0, pointClouds)
            && out.1 == boundingBoxes
            && forall f, p, k :: 0 <= f < |pointClouds| && 0 <= p < |pointClouds[f]| && 0 <= k < |pointClouds[f][p]| ==>
                 out.0[f][p][k] == if samples[f][p][k] < layer.keepProbability then pointClouds[f][p][k] else 0.0
  {
  }

  /** The tensor of zeros with the shape of `t`. */
  function ZerosLike(t: Tensor<real>): (z: Tensor<real>)
    ensures SameShape(z, t)
    ensures forall f, p, k :: 0 <= f < |t| && 0 <= p < |t[f]| && 0 <= k < |t[f][p]| ==> z[f][p][k] == 0.0
  {
    MapRows(t, (row: seq<real>) => seq(|row|, _ => 0.0))
  }

  /** With a keep probability of zero and samples in [0, 1), every entry of
      the point clouds is dropped. */
  lemma KeepProbabilityZeroDropsAll(
    layer: Layer, pointClouds: Tensor<real>, boundingBoxes: Tensor<real>, samples: Tensor<real>)
    requires layer.keepProbability == 0.0
    requires SameShape(samples, pointClouds) && UnitSamples(samples)
    ensures var t := GetRandomTransformation(layer, pointClouds, samples);
            SameShape(t.pointMask, pointClouds)
            && AugmentPointCloudsBoundingBoxes(pointClouds, boundingBoxes, t).0 == ZerosLike(pointClouds)
  {
    var t := GetRandomTransformation(layer, pointClouds, samples);
    assert SameShape(t.pointMask, pointClouds);
    var out := AugmentPointCloudsBoundingBoxes(pointClouds, boundingBoxes, t).0;
    EqualAtEveryIndex(out, ZerosLike(pointClouds));
  }

  /** With a keep probability of one or more and samples in [0, 1), the point
      clouds come out unchanged. */
  lemma KeepProbabilityOneKeepsAll(
    layer: Layer, pointClouds: Tensor<real>, boundingBoxes: Tensor<real>, samples: Tensor<real>)
    requires layer.keepProbability >= 1.0
    requires SameShape(samples, pointClouds) && UnitSamples(samples)
    ensures var t := GetRandomTransformation(layer, pointClouds, samples);
            SameShape(t.pointMask, pointClouds)
            && AugmentPointCloudsBoundingBoxes(pointClouds, boundingBoxes, t) == (pointClouds, boundingBoxes)
  {
    var t := GetRandomTransformation(layer, pointClouds, samples);
    assert SameShape(t.pointMask, pointClouds);
    var out := AugmentPointCloudsBoundingBoxes(pointClouds, boundingBoxes, t).0;
    EqualAtEveryIndex(out, pointClouds);
  }
}
