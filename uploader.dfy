/** The ImageUploader component's state and its event handlers. React state
    set through setters becomes fields that the handlers reassign; the
    geometry they call is in CropBounds and Rasterizer. */
module Uploader {
  import opened Geometry
  import CropBounds
  import Rasterizer

  datatype Option<T> = None | Some(value: T)

  /** The step of one zoom button press (`zoomFactor`). */
  const ZOOM_FACTOR: real := 0.1

  /** What the component reads from the <img> element behind `imageRef`:
      its displayed size and its natural (file) size, in pixels. */
  datatype ImageMetrics = ImageMetrics(width: real, height: real, naturalWidth: real, naturalHeight: real)

  /** The new zoom scale after the zoom button called `name` is pressed. There
      is no lower bound: zooming out can reach zero and go below it. */
  function ZoomStep(scale: real, name: string): real
  {
    if name == "zoomin" then scale + ZOOM_FACTOR
    else if name == "resetzoom" then 1.0
    else if name == "zoomout" then scale - ZOOM_FACTOR
    else scale
  }

  /** The zoom scale after the buttons `names` are pressed in order. */
  function ZoomSteps(scale: real, names: seq<string>): real
    decreases |names|
  {
    if names == [] then scale else ZoomSteps(ZoomStep(scale, names[0]), names[1..])
  }

  /** How many times `name` occurs in `names`. */
  function Count(names: seq<string>, name: string): nat
    decreases |names|
  {
    if names == [] then 0 else (if names[0] == name then 1 else 0) + Count(names[1..], name)
  }

  // ---------------------------------------------------------------------
  // Zoom properties

  /** Zooming in and then out, or out and then in, restores the scale. */
  lemma ZoomInOutRestores(scale: real)
    ensures ZoomStep(ZoomStep(scale, "zoomin"), "zoomout") == scale
    ensures ZoomStep(ZoomStep(scale, "zoomout"), "zoomin") == scale
  {
  }

  /** Reset goes to 1 from any scale; any other button name changes nothing. */
  lemma ZoomResetAndUnknown(scale: real, name: string)
    ensures ZoomStep(scale, "resetzoom") == 1.0
    ensures name != "zoomin" && name != "zoomout" && name != "resetzoom" ==> ZoomStep(scale, name) == scale
  {
  }

  /** Without a reset, only the balance of zoom-ins over zoom-outs matters. */
  lemma {:induction false} NetZoom(scale: real, names: seq<string>)
    requires "resetzoom" !in names
    ensures ZoomSteps(scale, names)
            == scale + ZOOM_FACTOR * ((Count(names, "zoomin") - Count(names, "zoomout")) as real)
    decreases |names|
  {
    if names != [] {
      assert "resetzoom" !in names[1..] by {
        forall i | 0 <= i < |names[1..]| ensures names[1..][i] != "resetzoom" {
          assert names[1..][i] == names[i + 1];
        }
      }
      NetZoom(ZoomStep(scale, names[0]), names[1..]);
    }
  }

  lemma {:induction false} ZoomStepsAppend(scale: real, a: seq<string>, b: seq<string>)
    ensures ZoomSteps(scale, a + b) == ZoomSteps(ZoomSteps(scale, a), b)
    decreases |a|
  {
    if a != [] {
      assert (a + b)[0] == a[0];
      assert (a + b)[1..] == a[1..] + b;
      ZoomStepsAppend(ZoomStep(scale, a[0]), a[1..], b);
    } else {
      assert a + b == b;
    }
  }

  /** A reset forgets every press before it. */
  lemma ResetForgetsHistory(scale: real, before: seq<string>, after: seq<string>)
    ensures ZoomSteps(scale, before + ["resetzoom"] + after) == ZoomSteps(1.0, after)
  {
    ZoomStepsAppend(scale, before + ["resetzoom"], after);
    ZoomStepsAppend(scale, before, ["resetzoom"]);
  }

  lemma {:induction false} CountRepeated(n: nat, name: string, other: string)
    ensures Count(seq(n, _ => name), name) == n
    ensures other != name ==> Count(seq(n, _ => name), other) == 0
    ensures other !in seq(n, _ => name) || other == name
    decreases n
  {
    if n > 0 {
      assert seq(n, _ => name)[1..] == seq(n - 1, _ => name);
      CountRepeated(n - 1, name, other);
    }
  }

  /** Ten zoom-outs from the default scale reach zero, an eleventh goes
      negative: nothing in the component keeps the scale positive. */
  lemma ZoomOutReachesZero()
    ensures ZoomSteps(1.0, seq(10, _ => "zoomout")) == 0.0
    ensures ZoomSteps(1.0, seq(11, _ => "zoomout")) < 0.0
  {
    CountRepeated(10, "zoomout", "zoomin");
    CountRepeated(10, "zoomout", "resetzoom");
    NetZoom(1.0, seq(10, _ => "zoomout"));
    CountRepeated(11, "zoomout", "zoomin");
    CountRepeated(11, "zoomout", "resetzoom");
    NetZoom(1.0, seq(11, _ => "zoomout"));
  }

  // ---------------------------------------------------------------------
  // The component

  class ImageUploader {
    var crop: Crop
    var aspectRatio: Option<real>
    var key: nat
    var image: Option<ImageMetrics>
    var sourceImageUrl: Option<string>
    var openCropModal: bool
    var zoomScale: real

    /** The initial useState values. */
    constructor ()
      ensures crop == DEFAULT_CROP && aspectRatio == None && key == 0 && image == None
      ensures sourceImageUrl == None && !openCropModal && zoomScale == 1.0
    {
      crop := DEFAULT_CROP;
      aspectRatio := None;
      key := 0;
      image := None;
      sourceImageUrl := None;
      openCropModal := false;
      zoomScale := 1.0;
    }

    /** handleFileChange once the file reader has finished: `files` holds the
        data URL of each chosen file; only the first is used, and an empty
        selection changes nothing. */
    method HandleFileChange(files: seq<string>)
      modifies this`sourceImageUrl, this`openCropModal
      ensures |files| > 0 ==> sourceImageUrl == Some(files[0]) && openCropModal
      ensures |files| == 0 ==> sourceImageUrl == old(sourceImageUrl) && openCropModal == old(openCropModal)
    {
      if |files| > 0 {
        sourceImageUrl := Some(files[0]);
        openCropModal := true;
      }
    }

    /** handleImageLoad: the image element is now available, the aspect ratio
        is its natural width over its natural height, and the crop becomes
        `centred`, the result of the library's centerCrop. */
    method HandleImageLoad(img: ImageMetrics, centred: Crop)
      requires img.naturalHeight != 0.0
      modifies this`image, this`aspectRatio, this`crop
      ensures image == Some(img)
      ensures aspectRatio == Some(img.naturalWidth / img.naturalHeight)
      ensures crop == centred
    {
      image := Some(img);
      aspectRatio := Some(img.naturalWidth / img.naturalHeight);
      crop := centred;
    }

    /** handleCropChange: clamp the dragged crop against the displayed image
        size and store it. */
    method HandleCropChange(percentCrop: Crop)
      requires image.Some? && image.value.width > 0.0 && image.value.height > 0.0
      modifies this`crop
      ensures crop == CropBounds.AdjustCropToBounds(percentCrop, image.value.width, image.value.height)
      ensures Contained(crop)
      ensures crop.width == Min(percentCrop.width, 100.0) && crop.height == Min(percentCrop.height, 100.0)
    {
      crop := CropBounds.AdjustCropToBounds(percentCrop, image.value.width, image.value.height);
    }

    /** The debounced resize handler: remount the crop view by bumping `key`. */
    method HandleResize()
      modifies this`key
      ensures key == old(key) + 1
    {
      key := key + 1;
    }

    /** handleZoom: the scale moves by one step, or resets; the crop is left
        as it is. */
    method HandleZoom(name: string)
      modifies this`zoomScale
      ensures zoomScale == ZoomStep(old(zoomScale), name)
      ensures crop == old(crop)
    {
      if name == "zoomin" {
        zoomScale := zoomScale + ZOOM_FACTOR;
      } else if name == "resetzoom" {
        zoomScale := 1.0;
      } else if name == "zoomout" {
        zoomScale := zoomScale - ZOOM_FACTOR;
      }
    }

    /** resetCrop: back to the full-box crop with key 0 and no image. The
        zoom scale, the aspect ratio and the modal flag are not touched. */
    method ResetCrop()
      modifies this`key, this`crop, this`image, this`sourceImageUrl
      ensures key == 0 && crop == DEFAULT_CROP && image == None && sourceImageUrl == None
      ensures ValidCrop(crop)
    {
      key := 0;
      crop := DEFAULT_CROP;
      image := None;
      sourceImageUrl := None;
    }

    /** The condition handleSubmit checks before exporting: an image is
        present and the crop's width and height are non-zero. */
    predicate SubmitAllowed()
      reads this
    {
      image.Some? && crop.width != 0.0 && crop.height != 0.0
    }

    /** handleSubmit. When the guard holds, the crop is rasterized at the
        current zoom (`exported` is what was drawn); if a submit callback is
        present the modal closes and the crop is reset. Otherwise nothing
        happens. The division by the zoom scale needs it non-zero, which the
        component does not ensure. */
    method HandleSubmit(hasOnSubmit: bool) returns (exported: Option<Rasterizer.RasterPlan>)
      requires SubmitAllowed() ==> zoomScale != 0.0
      modifies this
      ensures old(SubmitAllowed()) ==>
                exported == Some(Rasterizer.PlanRaster(old(crop), old(image).value.naturalWidth,
                                                      old(image).value.naturalHeight, old(zoomScale)))
      ensures old(SubmitAllowed()) && hasOnSubmit ==>
                !openCropModal && key == 0 && crop == DEFAULT_CROP && image == None && sourceImageUrl == None
                && zoomScale == old(zoomScale) && aspectRatio == old(aspectRatio)
      ensures !old(SubmitAllowed()) ==> exported == None
      ensures !(old(SubmitAllowed()) && hasOnSubmit) ==> unchanged(this)
    {
      if SubmitAllowed() {
        var img := image.value;
        exported := Some(Rasterizer.PlanRaster(crop, img.naturalWidth, img.naturalHeight, zoomScale));
        if hasOnSubmit {
          openCropModal := false;
          ResetCrop();
        }
      } else {
        exported := None;
      }
    }

    /** handleCancel: close the modal and reset the crop. */
    method HandleCancel()
      modifies this
      ensures !openCropModal && key == 0 && crop == DEFAULT_CROP && image == None && sourceImageUrl == None
      ensures zoomScale == old(zoomScale) && aspectRatio == old(aspectRatio)
    {
      openCropModal := false;
      ResetCrop();
    }
  }

  /** The handlers called in sequence: after a drag the stored crop is inside
      the box, zooming leaves it where it is, zoom in then out restores the
      scale, and the resize handler itself only bumps the key (the remount it
      causes re-runs HandleImageLoad, which is a separate call). */
  method ZoomAndDragSession(img: ImageMetrics, drag: Crop)
    requires img.width > 0.0 && img.height > 0.0 && img.naturalHeight != 0.0
  {
    var view := new ImageUploader();
    view.HandleImageLoad(img, DEFAULT_CROP);
    view.HandleCropChange(drag);
    var dragged := view.crop;
    assert Contained(dragged);
    view.HandleZoom("zoomin");
    view.HandleZoom("zoomout");
    assert view.zoomScale == 1.0;
    assert view.crop == dragged;
    view.HandleResize();
    assert view.key == 1 && view.crop == dragged;
    view.ResetCrop();
    assert view.crop == DEFAULT_CROP && view.key == 0;
  }
}
