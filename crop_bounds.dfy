/** adjustCropToBounds: every crop the user drags is pushed back inside the
    displayed image before it is stored. The function converts the crop to
    pixels, keeps its centre, caps width and height at the image size, shifts
    the box inside, and converts back to percentages. */
module CropBounds {
  import opened Geometry

  /** One axis of a crop: where it starts and how long it is. */
  datatype Span = Span(start: real, length: real)

  /** One axis of adjustCropToBounds, step by step as the component computes
      it: `pos` and `size` are percentages, `extent` the displayed size in
      pixels along this axis. */
  function ClampSpan(pos: real, size: real, extent: real): Span
    requires extent > 0.0
  {
    var pixelPos := (pos / 100.0) * extent;
    var pixelSize := (size / 100.0) * extent;
    var centre := pixelPos + pixelSize / 2.0;
    var adjustedSize := Min(pixelSize, extent);
    var adjustedPos := Max(0.0, Min(centre - adjustedSize / 2.0, extent - adjustedSize));
    Span((adjustedPos / extent) * 100.0, (adjustedSize / extent) * 100.0)
  }

  /** The same clamp carried out directly in percent, against a box of
      length 100: an independent reference for ClampSpan. */
  function PercentSpan(pos: real, size: real): Span
  {
    var length := Min(size, 100.0);
    Span(Max(0.0, Min(pos + size / 2.0 - length / 2.0, 100.0 - length)), length)
  }

  /** adjustCropToBounds(crop, imageWidth, imageHeight). The spread `...crop`
      is the datatype update: every field not recomputed is copied. */
  function AdjustCropToBounds(crop: Crop, imageWidth: real, imageHeight: real): (r: Crop)
    requires imageWidth > 0.0 && imageHeight > 0.0
    ensures Contained(r)
    ensures r.width == Min(crop.width, 100.0) && r.height == Min(crop.height, 100.0)
    ensures r.unit == crop.unit
  {
    ClampSpanIsScaleFree(crop.x, crop.width, imageWidth);
    ClampSpanIsScaleFree(crop.y, crop.height, imageHeight);
    var horizontal := ClampSpan(crop.x, crop.width, imageWidth);
    var vertical := ClampSpan(crop.y, crop.height, imageHeight);
    crop.(x := horizontal.start, y := vertical.start,
          width := horizontal.length, height := vertical.length)
  }

  // ---------------------------------------------------------------------
  // Scale freedom: the pixel round trip cancels out.

  lemma MinScales(a: real, b: real, k: real)
    requires k > 0.0
    ensures Min(a * k, b * k) == Min(a, b) * k
  {
    if a < b {
      assert a * k < b * k;
    } else {
      assert b * k <= a * k;
    }
  }

  lemma MaxZeroScales(a: real, k: real)
    requires k > 0.0
    ensures Max(0.0, a * k) == Max(0.0, a) * k
  {
    if a < 0.0 {
      assert a * k < 0.0;
    } else {
      assert a * k >= 0.0;
    }
  }

  /** Computing in pixels and converting back gives exactly the percent-space
      clamp, whatever positive size the image is displayed at. */
  lemma ClampSpanIsScaleFree(pos: real, size: real, extent: real)
    requires extent > 0.0
    ensures ClampSpan(pos, size, extent) == PercentSpan(pos, size)
  {
    var k := extent / 100.0;
    assert extent == 100.0 * k;
    var pixelPos := (pos / 100.0) * extent;
    var pixelSize := (size / 100.0) * extent;
    assert pixelPos == pos * k;
    assert pixelSize == size * k;
    var centre := pixelPos + pixelSize / 2.0;
    assert centre == (pos + size / 2.0) * k;
    var length := Min(size, 100.0);
    MinScales(size, 100.0, k);
    var adjustedSize := Min(pixelSize, extent);
    assert adjustedSize == length * k;
    var free := pos + size / 2.0 - length / 2.0;
    assert centre - adjustedSize / 2.0 == free * k;
    assert extent - adjustedSize == (100.0 - length) * k;
    MinScales(free, 100.0 - length, k);
    var inner := Min(free, 100.0 - length);
    MaxZeroScales(inner, k);
    var adjustedPos := Max(0.0, Min(centre - adjustedSize / 2.0, extent - adjustedSize));
    assert adjustedPos == Max(0.0, inner) * k;
    assert (adjustedPos / extent) * 100.0 == Max(0.0, inner);
    assert (adjustedSize / extent) * 100.0 == length;
  }

  /** The clamped crop does not depend on the size the image is displayed at. */
  lemma AdjustIgnoresImageSize(crop: Crop, w1: real, h1: real, w2: real, h2: real)
    requires w1 > 0.0 && h1 > 0.0 && w2 > 0.0 && h2 > 0.0
    ensures AdjustCropToBounds(crop, w1, h1) == AdjustCropToBounds(crop, w2, h2)
  {
    ClampSpanIsScaleFree(crop.x, crop.width, w1);
    ClampSpanIsScaleFree(crop.x, crop.width, w2);
    ClampSpanIsScaleFree(crop.y, crop.height, h1);
    ClampSpanIsScaleFree(crop.y, crop.height, h2);
  }

  // ---------------------------------------------------------------------
  // Properties of the clamp.

  /** The horizontal result depends only on x, width and the image width;
      the vertical one only on y, height and the image height. */
  lemma AdjustAxesIndependent(a: Crop, b: Crop, imageWidth: real, imageHeight: real)
    requires imageWidth > 0.0 && imageHeight > 0.0
    ensures a.x == b.x && a.width == b.width ==>
              AdjustCropToBounds(a, imageWidth, imageHeight).x == AdjustCropToBounds(b, imageWidth, imageHeight).x
              && AdjustCropToBounds(a, imageWidth, imageHeight).width == AdjustCropToBounds(b, imageWidth, imageHeight).width
    ensures a.y == b.y && a.height == b.height ==>
              AdjustCropToBounds(a, imageWidth, imageHeight).y == AdjustCropToBounds(b, imageWidth, imageHeight).y
              && AdjustCropToBounds(a, imageWidth, imageHeight).height == AdjustCropToBounds(b, imageWidth, imageHeight).height
  {
  }

  /** A request of positive width and height comes out as a valid crop:
      inside the box and of positive area. */
  lemma AdjustGivesValidCrop(crop: Crop, imageWidth: real, imageHeight: real)
    requires imageWidth > 0.0 && imageHeight > 0.0
    requires crop.width > 0.0 && crop.height > 0.0
    ensures ValidCrop(AdjustCropToBounds(crop, imageWidth, imageHeight))
  {
  }

  lemma {:induction false} PercentSpanIdempotent(pos: real, size: real)
    ensures PercentSpan(PercentSpan(pos, size).start, PercentSpan(pos, size).length) == PercentSpan(pos, size)
  {
    var s := PercentSpan(pos, size);
    assert s.length <= 100.0;
    assert 0.0 <= s.start <= 100.0 - s.length;
    assert s.start + s.length / 2.0 - s.length / 2.0 == s.start;
  }

  /** Clamping twice is clamping once, even against another displayed size. */
  lemma AdjustIdempotent(crop: Crop, w1: real, h1: real, w2: real, h2: real)
    requires w1 > 0.0 && h1 > 0.0 && w2 > 0.0 && h2 > 0.0
    ensures AdjustCropToBounds(AdjustCropToBounds(crop, w1, h1), w2, h2) == AdjustCropToBounds(crop, w1, h1)
  {
    var once := AdjustCropToBounds(crop, w1, h1);
    ClampSpanIsScaleFree(crop.x, crop.width, w1);
    ClampSpanIsScaleFree(crop.y, crop.height, h1);
    ClampSpanIsScaleFree(once.x, once.width, w2);
    ClampSpanIsScaleFree(once.y, once.height, h2);
    PercentSpanIdempotent(crop.x, crop.width);
    PercentSpanIdempotent(crop.y, crop.height);
  }

  lemma PercentSpanFixedIff(pos: real, size: real)
    ensures PercentSpan(pos, size) == Span(pos, size) <==> SpanContained(pos, size)
  {
    if SpanContained(pos, size) {
      assert Min(size, 100.0) == size;
      assert pos + size / 2.0 - size / 2.0 == pos;
    }
  }

  /** The clamp leaves a crop alone exactly when it is already inside the box. */
  lemma AdjustFixedIff(crop: Crop, imageWidth: real, imageHeight: real)
    requires imageWidth > 0.0 && imageHeight > 0.0
    ensures AdjustCropToBounds(crop, imageWidth, imageHeight) == crop <==> Contained(crop)
  {
    ClampSpanIsScaleFree(crop.x, crop.width, imageWidth);
    ClampSpanIsScaleFree(crop.y, crop.height, imageHeight);
    PercentSpanFixedIff(crop.x, crop.width);
    PercentSpanFixedIff(crop.y, crop.height);
  }

  /** Where the centre of a span lies after the width cap and the shift: it
      stays put exactly when re-centring the capped span needs no shift. */
  lemma PercentSpanCentreIff(pos: real, size: real)
    ensures var s := PercentSpan(pos, size);
            s.start + s.length / 2.0 == pos + size / 2.0
            <==> SpanContained(pos + size / 2.0 - Min(size, 100.0) / 2.0, Min(size, 100.0))
  {
  }

  /** The clamp keeps the crop's centre on an axis exactly when the capped
      box, placed around the old centre, already fits on that axis. */
  lemma AdjustCentreIff(crop: Crop, imageWidth: real, imageHeight: real)
    requires imageWidth > 0.0 && imageHeight > 0.0
    ensures var r := AdjustCropToBounds(crop, imageWidth, imageHeight);
            r.x + r.width / 2.0 == crop.x + crop.width / 2.0
            <==> SpanContained(crop.x + crop.width / 2.0 - Min(crop.width, 100.0) / 2.0, Min(crop.width, 100.0))
    ensures var r := AdjustCropToBounds(crop, imageWidth, imageHeight);
            r.y + r.height / 2.0 == crop.y + crop.height / 2.0
            <==> SpanContained(crop.y + crop.height / 2.0 - Min(crop.height, 100.0) / 2.0, Min(crop.height, 100.0))
  {
    ClampSpanIsScaleFree(crop.x, crop.width, imageWidth);
    ClampSpanIsScaleFree(crop.y, crop.height, imageHeight);
    PercentSpanCentreIff(crop.x, crop.width);
    PercentSpanCentreIff(crop.y, crop.height);
  }
}
