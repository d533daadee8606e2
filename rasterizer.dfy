/** The arithmetic of getCroppedImg: from a percentage crop, the image's
    natural size and the zoom scale to the canvas size and to the source
    rectangle handed to drawImage. Canvas allocation, pixel copying and
    encoding are not part of this model. */
module Rasterizer {
  import opened Geometry

  /** The `pixelCrop` object, field for field (the source spells the first
      extent `widthOrginal`). */
  datatype PixelCrop = PixelCrop(x: real, y: real, width: real, height: real,
                                 widthOriginal: real, heightOriginal: real)

  datatype Rect = Rect(x: real, y: real, width: real, height: real)

  /** What the export draws: the size assigned to `canvas.width` and
      `canvas.height` (before the browser converts it to whole pixels, see
      AllocatedCanvas), the sub-rectangle of the natural image read by
      drawImage, and where drawImage puts it. */
  datatype RasterPlan = RasterPlan(requestedWidth: real, requestedHeight: real, source: Rect, dest: Rect)

  /** The `pixelCrop` computation. The component never checks the zoom scale;
      dividing by it needs it non-zero. */
  function ToPixelCrop(crop: Crop, naturalWidth: real, naturalHeight: real, zoomScale: real): PixelCrop
    requires zoomScale != 0.0
  {
    PixelCrop(
      ((crop.x / 100.0) * naturalWidth) / zoomScale,
      ((crop.y / 100.0) * naturalHeight) / zoomScale,
      (crop.width / 100.0) * naturalWidth,
      (crop.height / 100.0) * naturalHeight,
      ((crop.width * zoomScale) / 100.0) * (naturalWidth / zoomScale),
      ((crop.height * zoomScale) / 100.0) * (naturalHeight / zoomScale))
  }

  /** The canvas size getCroppedImg assigns and the nine drawImage arguments it uses. */
  function PlanRaster(crop: Crop, naturalWidth: real, naturalHeight: real, zoomScale: real): (plan: RasterPlan)
    requires zoomScale != 0.0
    ensures plan.dest == Rect(0.0, 0.0, plan.requestedWidth, plan.requestedHeight)
  {
    var pixelCrop := ToPixelCrop(crop, naturalWidth, naturalHeight, zoomScale);
    RasterPlan(
      pixelCrop.width, pixelCrop.height,
      Rect(pixelCrop.x, pixelCrop.y,
           pixelCrop.widthOriginal / zoomScale, pixelCrop.heightOriginal / zoomScale),
      Rect(0.0, 0.0, pixelCrop.width, pixelCrop.height))
  }

  /** A rectangle with every coordinate divided by `s`. */
  function ShrinkRect(r: Rect, s: real): Rect
    requires s != 0.0
  {
    Rect(r.x / s, r.y / s, r.width / s, r.height / s)
  }

  /** The conversion a browser applies to a number assigned to an `unsigned
      long` attribute such as `canvas.width`: truncate toward zero, then
      reduce modulo 2^32. */
  function UnsignedLong(v: real): (r: int)
    ensures 0 <= r < 0x1_0000_0000
    ensures 0.0 <= v < 4294967296.0 ==> r as real <= v < r as real + 1.0
  {
    var truncated := if v >= 0.0 then v.Floor else -((-v).Floor);
    truncated % 0x1_0000_0000
  }

  /** The dimension a canvas takes when a number is assigned to its `width`
      or `height`: the unsigned-long value when it is at most 2^31 - 1, and
      the canvas default (300 for width, 150 for height) otherwise. */
  function CanvasDimension(v: real, default: int): (r: int)
    requires 0 <= default <= 0x7FFF_FFFF
    ensures 0 <= r <= 0x7FFF_FFFF
    ensures 0.0 <= v < 2147483648.0 ==> r as real <= v < r as real + 1.0
  {
    var u := UnsignedLong(v);
    if u <= 0x7FFF_FFFF then u else default
  }

  /** The pixel size of the canvas the browser actually allocates for a plan. */
  function AllocatedCanvas(plan: RasterPlan): (int, int)
  {
    (CanvasDimension(plan.requestedWidth, 300), CanvasDimension(plan.requestedHeight, 150))
  }

  // ---------------------------------------------------------------------
  // Canvas size

  /** The requested canvas size is the crop's share of the natural size, whatever the zoom. */
  lemma CanvasIgnoresZoom(crop: Crop, naturalWidth: real, naturalHeight: real, z1: real, z2: real)
    requires z1 != 0.0 && z2 != 0.0
    ensures PlanRaster(crop, naturalWidth, naturalHeight, z1).requestedWidth
            == PlanRaster(crop, naturalWidth, naturalHeight, z2).requestedWidth
            == crop.width / 100.0 * naturalWidth
    ensures PlanRaster(crop, naturalWidth, naturalHeight, z1).requestedHeight
            == PlanRaster(crop, naturalWidth, naturalHeight, z2).requestedHeight
            == crop.height / 100.0 * naturalHeight
  {
  }

  /** Cropping the whole box requests exactly the natural size, and for an
      image of whole-pixel size that is also the canvas allocated. */
  lemma FullCropCanvasIsNatural(unit: string, naturalWidth: real, naturalHeight: real, zoomScale: real)
    requires zoomScale != 0.0
    ensures var plan := PlanRaster(Crop(unit, 0.0, 0.0, 100.0, 100.0), naturalWidth, naturalHeight, zoomScale);
            plan.requestedWidth == naturalWidth && plan.requestedHeight == naturalHeight
    ensures var plan := PlanRaster(Crop(unit, 0.0, 0.0, 100.0, 100.0), naturalWidth, naturalHeight, zoomScale);
            0.0 <= naturalWidth < 2147483648.0 && 0.0 <= naturalHeight < 2147483648.0
            && naturalWidth == naturalWidth.Floor as real && naturalHeight == naturalHeight.Floor as real
            ==> AllocatedCanvas(plan) == (naturalWidth.Floor, naturalHeight.Floor)
  {
  }

  /** A crop that is not a whole number of pixels gets a truncated canvas,
      while drawImage is still asked for the exact size: a third of a
      1000-pixel image requests 1000/3 pixels and gets a 333-pixel canvas. */
  lemma FractionalCropTruncates()
    ensures var plan := PlanRaster(Crop("%", 0.0, 0.0, 100.0 / 3.0, 100.0 / 3.0), 1000.0, 1000.0, 1.0);
            plan.requestedWidth == 1000.0 / 3.0 && plan.dest.width == 1000.0 / 3.0
            && AllocatedCanvas(plan) == (333, 333)
  {
    var plan := PlanRaster(Crop("%", 0.0, 0.0, 100.0 / 3.0, 100.0 / 3.0), 1000.0, 1000.0, 1.0);
    assert plan.requestedWidth == 1000.0 / 3.0 && plan.requestedHeight == 1000.0 / 3.0;
    var third := 1000.0 / 3.0;
    assert 333.0 <= third < 334.0;
    assert third.Floor == 333;
    assert UnsignedLong(third) == 333;
  }

  // ---------------------------------------------------------------------
  // Source rectangle

  lemma ExtentCancels(size: real, natural: real, zoomScale: real)
    requires zoomScale != 0.0
    ensures (((size * zoomScale) / 100.0) * (natural / zoomScale)) / zoomScale
            == ((size / 100.0) * natural) / zoomScale
  {
    assert ((size * zoomScale) / 100.0) * (natural / zoomScale)
        == (size / 100.0) * natural * (zoomScale / zoomScale);
  }

  /** The source rectangle is the crop's share of the natural image, offset
      and extent alike divided by the zoom scale: `widthOrginal / zoomScale`
      simplifies to width/100 * naturalWidth / zoomScale. */
  lemma SourceClosedForm(crop: Crop, naturalWidth: real, naturalHeight: real, zoomScale: real)
    requires zoomScale != 0.0
    ensures PlanRaster(crop, naturalWidth, naturalHeight, zoomScale).source
            == Rect(((crop.x / 100.0) * naturalWidth) / zoomScale,
                    ((crop.y / 100.0) * naturalHeight) / zoomScale,
                    ((crop.width / 100.0) * naturalWidth) / zoomScale,
                    ((crop.height / 100.0) * naturalHeight) / zoomScale)
  {
    ExtentCancels(crop.width, naturalWidth, zoomScale);
    ExtentCancels(crop.height, naturalHeight, zoomScale);
  }

  /** At zoom 1 the source rectangle is the crop's share of the natural image
      and is copied 1:1 onto the canvas. */
  lemma UnitZoomCopiesOneToOne(crop: Crop, naturalWidth: real, naturalHeight: real)
    ensures var plan := PlanRaster(crop, naturalWidth, naturalHeight, 1.0);
            plan.source == Rect((crop.x / 100.0) * naturalWidth, (crop.y / 100.0) * naturalHeight,
                                plan.requestedWidth, plan.requestedHeight)
  {
    SourceClosedForm(crop, naturalWidth, naturalHeight, 1.0);
  }

  /** Zooming by `s` shrinks the whole source rectangle by `s`, and the
      source-to-canvas ratio is 1/s; the canvas itself is unchanged. */
  lemma SourceShrinksWithZoom(crop: Crop, naturalWidth: real, naturalHeight: real, zoomScale: real)
    requires zoomScale != 0.0
    ensures PlanRaster(crop, naturalWidth, naturalHeight, zoomScale).source
            == ShrinkRect(PlanRaster(crop, naturalWidth, naturalHeight, 1.0).source, zoomScale)
    ensures var plan := PlanRaster(crop, naturalWidth, naturalHeight, zoomScale);
            plan.source.width * zoomScale == plan.requestedWidth
            && plan.source.height * zoomScale == plan.requestedHeight
  {
    SourceClosedForm(crop, naturalWidth, naturalHeight, zoomScale);
    SourceClosedForm(crop, naturalWidth, naturalHeight, 1.0);
  }

  lemma ShareShrinks(pos: real, size: real, natural: real, zoomScale: real)
    requires SpanContained(pos, size) && size >= 0.0 && natural >= 0.0 && zoomScale >= 1.0
    ensures 0.0 <= ((pos / 100.0) * natural) / zoomScale
    ensures ((pos / 100.0) * natural) / zoomScale + ((size / 100.0) * natural) / zoomScale <= natural
  {
    var share := ((pos + size) / 100.0) * natural;
    assert 0.0 <= share <= natural;
    assert share / zoomScale <= share;
    assert ((pos / 100.0) * natural) / zoomScale + ((size / 100.0) * natural) / zoomScale == share / zoomScale;
  }

  /** For a crop inside the box and a zoom of at least 1, drawImage reads only
      pixels of the natural image. */
  lemma SourceWithinNatural(crop: Crop, naturalWidth: real, naturalHeight: real, zoomScale: real)
    requires Contained(crop) && crop.width >= 0.0 && crop.height >= 0.0
    requires naturalWidth >= 0.0 && naturalHeight >= 0.0 && zoomScale >= 1.0
    ensures var s := PlanRaster(crop, naturalWidth, naturalHeight, zoomScale).source;
            0.0 <= s.x && s.x + s.width <= naturalWidth && 0.0 <= s.y && s.y + s.height <= naturalHeight
  {
    SourceClosedForm(crop, naturalWidth, naturalHeight, zoomScale);
    ShareShrinks(crop.x, crop.width, naturalWidth, zoomScale);
    ShareShrinks(crop.y, crop.height, naturalHeight, zoomScale);
  }

  /** Below zoom 1 the source rectangle of the full crop is larger than the
      image: at zoom 0.5 it is twice the natural size. */
  lemma ZoomedOutSourceExceedsImage(unit: string, naturalWidth: real, naturalHeight: real)
    ensures var plan := PlanRaster(Crop(unit, 0.0, 0.0, 100.0, 100.0), naturalWidth, naturalHeight, 0.5);
            plan.source == Rect(0.0, 0.0, 2.0 * naturalWidth, 2.0 * naturalHeight)
            && plan.requestedWidth == naturalWidth && plan.requestedHeight == naturalHeight
  {
    SourceClosedForm(Crop(unit, 0.0, 0.0, 100.0, 100.0), naturalWidth, naturalHeight, 0.5);
  }

  /** A 1000x500 image cropped to 25/25/50/50: at zoom 1 the canvas is
      500x250 and the source starts at (250, 125) with size 500x250; at zoom
      2 the source starts at (125, 62.5) with size 250x125 and the canvas
      stays 500x250. */
  lemma WorkedExample()
    ensures PlanRaster(Crop("%", 25.0, 25.0, 50.0, 50.0), 1000.0, 500.0, 1.0)
            == RasterPlan(500.0, 250.0, Rect(250.0, 125.0, 500.0, 250.0), Rect(0.0, 0.0, 500.0, 250.0))
    ensures PlanRaster(Crop("%", 25.0, 25.0, 50.0, 50.0), 1000.0, 500.0, 2.0)
            == RasterPlan(500.0, 250.0, Rect(125.0, 62.5, 250.0, 125.0), Rect(0.0, 0.0, 500.0, 250.0))
  {
  }
}
