/** The GlobalRandomFlippingY augmentation layer: mirrors the whole scene
    about the Y axis by negating the y coordinate of every point and box and
    the heading of every box. */
module FlippingY {
  import opened Tensors

  /** Index of the y coordinate among point and box features. */
  const Y: nat := 1
  /** Index of the heading angle phi among box features. */
  const Heading: nat := 6

  /** The layer draws no random parameter; `()` stands for Python's `None`. */
  function GetRandomTransformation(): ()
  {
    ()
  }

  /** Flips one point: `concat([p[0:1], -p[1:2], p[2:]])`. Feature y is
      negated and every other feature is kept, whatever the feature count. */
  function FlipPoint(point: seq<real>): (r: seq<real>)
    ensures |r| == |point|
    ensures forall k :: 0 <= k < |point| ==> r[k] == if k == Y then -point[k] else point[k]
  {
    var head, y, tail := Slice(point, 0, 1), Negate(Slice(point, 1, 2)), SliceFrom(point, 2);
    var r := head + y + tail;
    assert forall k :: 0 <= k < |point| ==> r[k] == if k == Y then -point[k] else point[k] by {
      forall k | 0 <= k < |point|
        ensures r[k] == if k == Y then -point[k] else point[k]
      {
        if k == 0 { assert r[k] == head[0]; }
        else if k == 1 { assert r[k] == y[0]; }
        else { assert r[k] == tail[k - 2]; }
      }
    }
    r
  }

  /** Flips one box: `concat([b[0:1], -b[1:2], b[2:6], wrap(-b[6:7]), b[7:]])`.
      Feature y is negated, the heading phi becomes `wrap(-phi)` and every
      other feature, the box label included, is kept. */
  function FlipBox(box: seq<real>, wrap: real -> real): (r: seq<real>)
    ensures |r| == |box|
    ensures forall k :: 0 <= k < |box| ==>
              r[k] == if k == Y then -box[k] else if k == Heading then wrap(-box[k]) else box[k]
  {
    var x, y := Slice(box, 0, 1), Negate(Slice(box, 1, 2));
    var size, phi := Slice(box, 2, 6), Pointwise(Negate(Slice(box, 6, 7)), wrap);
    var rest := SliceFrom(box, 7);
    var r := x + y + size + phi + rest;
    assert forall k :: 0 <= k < |box| ==>
             r[k] == if k == Y then -box[k] else if k == Heading then wrap(-box[k]) else box[k] by {
      forall k | 0 <= k < |box|
        ensures r[k] == if k == Y then -box[k] else if k == Heading then wrap(-box[k]) else box[k]
      {
        if k == 0 { assert r[k] == x[0]; }
        else if k == 1 { assert r[k] == y[0]; }
        else if k < 6 { assert r[k] == size[k - 2]; }
        else if k == 6 { assert r[k] == phi[0]; }
        else { assert r[k] == rest[k - 7]; }
      }
    }
    r
  }

  /** `augment_point_clouds_bounding_boxes`: the transformation is discarded;
      point clouds and boxes keep their shape, y is negated everywhere and
      each box heading phi becomes `wrap(-phi)`. `wrap` stands for
      `wrap_angle_radians`. */
  function AugmentPointCloudsBoundingBoxes<X>(
    pointClouds: Tensor<real>, boundingBoxes: Tensor<real>, transformation: X, wrap: real -> real
  ): (r: (Tensor<real>, Tensor<real>))
    ensures SameShape(r.0, pointClouds) && SameShape(r.1, boundingBoxes)
    ensures forall f, p, k :: 0 <= f < |pointClouds| && 0 <= p < |pointClouds[f]| && 0 <= k < |pointClouds[f][p]| ==>
              r.0[f][p][k] == if k == Y then -pointClouds[f][p][k] else pointClouds[f][p][k]
    ensures forall f, b, k :: 0 <= f < |boundingBoxes| && 0 <= b < |boundingBoxes[f]| && 0 <= k < |boundingBoxes[f][b]| ==>
              r.1[f][b][k] == if k == Y then -boundingBoxes[f][b][k]
                             else if k == Heading then wrap(-boundingBoxes[f][b][k])
                             else boundingBoxes[f][b][k]
  {
    (MapRows(pointClouds, FlipPoint), MapRows(boundingBoxes, box => FlipBox(box, wrap)))
  }

  /** The output depends only on the point clouds, the boxes and `wrap`: any
      transformation gives the same result as the layer's own, so the flip is
      deterministic. */
  lemma TransformationIsIgnored<X>(
    pointClouds: Tensor<real>, boundingBoxes: Tensor<real>, transformation: X, wrap: real -> real)
    ensures AugmentPointCloudsBoundingBoxes(pointClouds, boundingBoxes, transformation, wrap)
         == AugmentPointCloudsBoundingBoxes(pointClouds, boundingBoxes, GetRandomTransformation(), wrap)
  {
  }

  /** Flipping twice gives back the original point cloud. */
  lemma PointFlipIsInvolution<X>(
    pointClouds: Tensor<real>, boundingBoxes: Tensor<real>, transformation: X, wrap: real -> real)
    ensures var once := AugmentPointCloudsBoundingBoxes(pointClouds, boundingBoxes, transformation, wrap);
            AugmentPointCloudsBoundingBoxes(once.0, once.1, transformation, wrap).0 == pointClouds
  {
    var once := AugmentPointCloudsBoundingBoxes(pointClouds, boundingBoxes, transformation, wrap);
    var twice := AugmentPointCloudsBoundingBoxes(once.0, once.1, transformation, wrap);
    EqualAtEveryIndex(twice.0, pointClouds);
  }

  /** Flipping boxes twice gives back every box feature except the heading,
      which becomes `wrap(-wrap(-phi))`; the model claims no more, because
      `wrap` is not known to be an involution. */
  lemma BoxFlipTwiceRestoresAllButHeading<X>(
    pointClouds: Tensor<real>, boundingBoxes: Tensor<real>, transformation: X, wrap: real -> real)
    ensures var once := AugmentPointCloudsBoundingBoxes(pointClouds, boundingBoxes, transformation, wrap);
            var twice := AugmentPointCloudsBoundingBoxes(once.0, once.1, transformation, wrap).1;
            && SameShape(twice, boundingBoxes)
            && forall f, b, k :: 0 <= f < |boundingBoxes| && 0 <= b < |boundingBoxes[f]| && 0 <= k < |boundingBoxes[f][b]| ==>
                 twice[f][b][k] == if k == Heading then wrap(-wrap(-boundingBoxes[f][b][k])) else boundingBoxes[f][b][k]
  {
  }

  /** When `wrap(-wrap(-phi)) == phi` for every heading in the input (true of
      headings already in the wrapped range for a wrap that is odd there),
      flipping boxes twice gives back the original boxes. */
  lemma BoxFlipIsInvolutionWhenWrapIsStable<X>(
    pointClouds: Tensor<real>, boundingBoxes: Tensor<real>, transformation: X, wrap: real -> real)
    requires forall f, b :: 0 <= f < |boundingBoxes| && 0 <= b < |boundingBoxes[f]| && Heading < |boundingBoxes[f][b]| ==>
               wrap(-wrap(-boundingBoxes[f][b][Heading])) == boundingBoxes[f][b][Heading]
    ensures var once := AugmentPointCloudsBoundingBoxes(pointClouds, boundingBoxes, transformation, wrap);
            AugmentPointCloudsBoundingBoxes(once.0, once.1, transformation, wrap).1 == boundingBoxes
  {
    var once := AugmentPointCloudsBoundingBoxes(pointClouds, boundingBoxes, transformation, wrap);
    var twice := AugmentPointCloudsBoundingBoxes(once.0, once.1, transformation, wrap);
    forall f, b, k | 0 <= f < |boundingBoxes| && 0 <= b < |boundingBoxes[f]| && 0 <= k < |boundingBoxes[f][b]|
      ensures twice.1[f][b][k] == boundingBoxes[f][b][k]
    {
      if k == Heading {
        assert once.1[f][b][k] == wrap(-boundingBoxes[f][b][k]);
      }
    }
    EqualAtEveryIndex(twice.1, boundingBoxes);
  }
}
