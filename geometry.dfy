/** The crop rectangle the image uploader keeps, and the real-number helpers
    (Math.min, Math.max) its geometry is written with. All coordinates are
    percentages of the displayed image box; `real` stands in for JS numbers. */
module Geometry {

  /** A crop as react-image-crop hands it over: a unit tag ("%") and four
      percentages. The clamp copies every field it does not recompute. */
  datatype Crop = Crop(unit: string, x: real, y: real, width: real, height: real)

  /** The crop the component starts with and returns to on reset: the whole box. */
  const DEFAULT_CROP: Crop := Crop("%", 0.0, 0.0, 100.0, 100.0)

  /** Math.min on two numbers. */
  function Min(a: real, b: real): (r: real)
    ensures r <= a && r <= b
    ensures r == a || r == b
  {
    if a < b then a else b
  }

  /** Math.max on two numbers. */
  function Max(a: real, b: real): (r: real)
    ensures r >= a && r >= b
    ensures r == a || r == b
  {
    if a < b then b else a
  }

  /** A span [pos, pos + size] starts inside the box and ends inside it. */
  predicate SpanContained(pos: real, size: real)
  {
    0.0 <= pos && pos + size <= 100.0
  }

  /** The crop lies inside the displayed box on both axes. */
  predicate Contained(c: Crop)
  {
    SpanContained(c.x, c.width) && SpanContained(c.y, c.height)
  }

  /** The full set of crop-rectangle invariants: inside the box and of positive area. */
  predicate ValidCrop(c: Crop)
  {
    Contained(c) && c.width > 0.0 && c.height > 0.0
  }
}
