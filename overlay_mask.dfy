/** getClipPathOverLay: the CSS polygon that dims everything outside the crop.
    Only the vertex list is modelled; each pair is (x%, y%). */
module OverlayMask {
  import opened Geometry

  /** The 11 vertices of the clip-path polygon, in the order the component
      lists them: the container's outline and its lower-left corner again, a
      slit up the left edge to the crop's top, the crop window traced
      clockwise from its top-left corner, and back along the slit. */
  function ClipPathOverlay(crop: Crop): (polygon: seq<(real, real)>)
    ensures |polygon| == 11
    ensures polygon[5] == polygon[10]
  {
    [ (0.0, 0.0), (100.0, 0.0), (100.0, 100.0), (0.0, 100.0),
      (0.0, 100.0),
      (0.0, crop.y),
      (crop.x, crop.y),
      (crop.x, crop.y + crop.height),
      (crop.x + crop.width, crop.y + crop.height),
      (crop.x + crop.width, crop.y),
      (0.0, crop.y) ]
  }

  /** Two crops give the same polygon exactly when they agree on x, y,
      width and height: the mask tells every window apart, and ignores the
      unit tag. */
  lemma ClipPathDeterminesWindow(a: Crop, b: Crop)
    ensures ClipPathOverlay(a) == ClipPathOverlay(b)
            <==> a.x == b.x && a.y == b.y && a.width == b.width && a.height == b.height
  {
    if ClipPathOverlay(a) == ClipPathOverlay(b) {
      assert ClipPathOverlay(a)[6] == ClipPathOverlay(b)[6];
      assert ClipPathOverlay(a)[8] == ClipPathOverlay(b)[8];
    }
  }

  /** The first five vertices (the container outline) are the same for every crop. */
  lemma ClipPathOutlineFixed(a: Crop, b: Crop)
    ensures ClipPathOverlay(a)[..5] == ClipPathOverlay(b)[..5]
    ensures ClipPathOverlay(a)[..5] == [(0.0, 0.0), (100.0, 0.0), (100.0, 100.0), (0.0, 100.0), (0.0, 100.0)]
  {
  }

  /** Every vertex of the mask of a crop that lies inside the box, with
      non-negative width and height, lies inside the container. */
  lemma ClipPathWithinContainer(crop: Crop, i: int)
    requires Contained(crop) && crop.width >= 0.0 && crop.height >= 0.0
    requires 0 <= i < 11
    ensures 0.0 <= ClipPathOverlay(crop)[i].0 <= 100.0
    ensures 0.0 <= ClipPathOverlay(crop)[i].1 <= 100.0
  {
  }
}
