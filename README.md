# Crop geometry of the image uploader

This project models the crop logic of the `ImageUploader` React component: a
user picks an image, drags a crop rectangle over it, zooms, and submits the
selection to be exported as a new image. The model uses Dafny `real` for
JavaScript numbers, so every equality proved here holds in exact arithmetic.

The model has five modules:

- `Geometry`: the crop rectangle `Crop`, kept in percent of the displayed image
  box. It also holds the default full-box crop and `Math.min`/`Math.max`.
- `CropBounds`: `adjustCropToBounds`. Each axis (`ClampSpan`) is computed as the
  component does it. The crop goes to pixels, keeps its centre, has its size
  capped at the image, is shifted inside, and goes back to percent. The module
  proves that this equals the same clamp done directly in percent
  (`PercentSpan`), so the result does not depend on the displayed size at all.
  Containment, the size cap, idempotence, the fixed points and centre
  preservation all follow from that.
- `OverlayMask`: `getClipPathOverLay` as its 11-vertex list. The CSS text is not
  modelled.
- `Rasterizer`: the arithmetic of `getCroppedImg`. It gives the canvas size
  the code requests, the whole-pixel canvas the browser allocates for it, the
  source rectangle passed to `drawImage`, and where that rectangle lands.
- `Uploader`: the component's state as a class `ImageUploader`, with one method
  per handler. It also holds the zoom step function `ZoomStep`.

Behaviour of the code worth knowing:

- Zooming out has no lower bound. `ZoomOutReachesZero` shows that ten presses
  from the default reach 0 and an eleventh goes below it.
- At zoom `s`, the code divides the extent of the source rectangle by `s` as
  well as its offset. At zoom 2 the 25/25/50/50 crop of a 1000×500 image is read
  from a 250×125 source, not a 500×250 one.
- `resetCrop` does not reset the zoom scale.

## Model

| member | source | states |
|---|---|---|
| `CropBounds.AdjustCropToBounds` | src/components/ImageUploader/ImageUploader.jsx:94-127 | for any crop and positive image size, the result lies inside the box (x ≥ 0, y ≥ 0, x + width ≤ 100, y + height ≤ 100); width is min(width, 100), height is min(height, 100); the unit is copied |
| `CropBounds.ClampSpanIsScaleFree` | src/components/ImageUploader/ImageUploader.jsx:97-125 | one axis of the clamp, computed in pixels and converted back, equals the percent-space reference clamp for every positive displayed size |
| `CropBounds.AdjustIgnoresImageSize` | src/components/ImageUploader/ImageUploader.jsx:94-127 | the clamped crop is the same for any two positive displayed image sizes |
| `CropBounds.AdjustAxesIndependent` | src/components/ImageUploader/ImageUploader.jsx:98-125 | output x and width depend only on input x, width and image width; output y and height depend only on input y, height and image height |
| `CropBounds.AdjustGivesValidCrop` | src/components/ImageUploader/ImageUploader.jsx:108-126 | a request of positive width and height gives a crop inside the box with positive width and height |
| `CropBounds.PercentSpanIdempotent` | src/components/ImageUploader/ImageUploader.jsx:104-117 | the percent-space clamp of one axis applied to its own result returns that result |
| `CropBounds.AdjustIdempotent` | src/components/ImageUploader/ImageUploader.jsx:104-117 | clamping an already clamped crop returns it unchanged, even against another displayed size |
| `CropBounds.PercentSpanFixedIff` | src/components/ImageUploader/ImageUploader.jsx:104-117 | one axis is left unchanged exactly when 0 ≤ pos and pos + size ≤ 100 |
| `CropBounds.AdjustFixedIff` | src/components/ImageUploader/ImageUploader.jsx:104-126 | the clamp returns the crop unchanged if and only if the crop already lies inside the box on both axes |
| `CropBounds.PercentSpanCentreIff` | src/components/ImageUploader/ImageUploader.jsx:103-117 | on one axis the centre is kept exactly when the capped span placed around the old centre already fits |
| `CropBounds.AdjustCentreIff` | src/components/ImageUploader/ImageUploader.jsx:103-117 | on each axis the clamp keeps the crop's centre if and only if the capped box re-centred on it needs no shift |
| `OverlayMask.ClipPathOverlay` | src/components/ImageUploader/ImageUploader.jsx:47-59 | the mask polygon always has 11 vertices, and the slit vertex (0, y) is the same at positions 5 and 10 |
| `OverlayMask.ClipPathDeterminesWindow` | src/components/ImageUploader/ImageUploader.jsx:48-58 | two crops give the same vertex sequence if and only if they have the same x, y, width and height |
| `OverlayMask.ClipPathOutlineFixed` | src/components/ImageUploader/ImageUploader.jsx:49-50 | the first five vertices are the container corners (0,0), (100,0), (100,100), (0,100) and then (0,100) again, for every crop |
| `OverlayMask.ClipPathWithinContainer` | src/components/ImageUploader/ImageUploader.jsx:51-56 | for a crop inside the box with non-negative size, every vertex lies in [0,100]×[0,100] |
| `Rasterizer.PlanRaster` | src/components/ImageUploader/ImageUploader.jsx:141-167 | drawImage writes from the canvas origin over the requested size: the destination is (0, 0, requested width, requested height) |
| `Rasterizer.CanvasIgnoresZoom` | src/components/ImageUploader/ImageUploader.jsx:144-154 | the requested canvas size is (width/100 · naturalWidth, height/100 · naturalHeight) at every non-zero zoom |
| `Rasterizer.FullCropCanvasIsNatural` | src/components/ImageUploader/ImageUploader.jsx:144-154 | the full crop (0, 0, 100, 100) requests exactly the natural dimensions, and for a whole-pixel image the allocated canvas is the natural size |
| `Rasterizer.SourceClosedForm` | src/components/ImageUploader/ImageUploader.jsx:142-162 | the source rectangle is (x/100 · nw/z, y/100 · nh/z, width/100 · nw/z, height/100 · nh/z); the extent `widthOrginal / zoomScale` simplifies to width/100 · nw/z, and likewise for height |
| `Rasterizer.UnsignedLong` | src/components/ImageUploader/ImageUploader.jsx:153-154 | a number assigned to `canvas.width`/`canvas.height` becomes an integer in [0, 2^32); for a value in that range it is the whole part, at most the value and within 1 of it |
| `Rasterizer.CanvasDimension` | src/components/ImageUploader/ImageUploader.jsx:153-154 | the canvas dimension set from a number is an integer in [0, 2^31 - 1]; for a value in that range it is the whole part of the value |
| `Rasterizer.FractionalCropTruncates` | src/components/ImageUploader/ImageUploader.jsx:153-166 | a third of a 1000-pixel image requests 1000/3 pixels, drawImage's destination keeps 1000/3, and the allocated canvas is 333×333 |
| `Rasterizer.UnitZoomCopiesOneToOne` | src/components/ImageUploader/ImageUploader.jsx:157-167 | at zoom 1 the source rectangle has the requested canvas size and starts at the crop's offset in natural pixels |
| `Rasterizer.SourceShrinksWithZoom` | src/components/ImageUploader/ImageUploader.jsx:141-167 | the source rectangle at zoom z is the zoom-1 source with every coordinate divided by z, and source extent × z equals the requested canvas size |
| `Rasterizer.SourceWithinNatural` | src/components/ImageUploader/ImageUploader.jsx:157-162 | for a crop inside the box and zoom ≥ 1, drawImage reads only pixels inside the natural image |
| `Rasterizer.ZoomedOutSourceExceedsImage` | src/components/ImageUploader/ImageUploader.jsx:157-167 | at zoom 0.5 the full crop reads a source twice the natural size, while the requested canvas stays the natural size |
| `Rasterizer.WorkedExample` | src/components/ImageUploader/ImageUploader.jsx:141-167 | 1000×500 with crop 25/25/50/50: at zoom 1, source (250,125) of size 500×250 on a 500×250 canvas; at zoom 2, source (125,62.5) of size 250×125 on the same canvas |
| `Uploader.ZoomInOutRestores` | src/components/ImageUploader/ImageUploader.jsx:217-235 | zoom in then zoom out, or out then in, gives back the original scale |
| `Uploader.ZoomResetAndUnknown` | src/components/ImageUploader/ImageUploader.jsx:216-245 | "resetzoom" sets the scale to 1 from any scale; any other name changes nothing |
| `Uploader.NetZoom` | src/components/ImageUploader/ImageUploader.jsx:213-246 | with no reset among the presses, the final scale is start + 0.1 · (number of zoom-ins − number of zoom-outs) |
| `Uploader.ZoomStepsAppend` | src/components/ImageUploader/ImageUploader.jsx:213-246 | pressing a then b equals pressing b from the scale a left behind |
| `Uploader.ResetForgetsHistory` | src/components/ImageUploader/ImageUploader.jsx:229-231 | after a reset, the scale depends only on the presses that follow it, starting from 1 |
| `Uploader.ZoomOutReachesZero` | src/components/ImageUploader/ImageUploader.jsx:233-235 | ten zoom-outs from 1 give scale 0 and eleven give a negative scale: nothing keeps the scale positive |
| `Uploader.ImageUploader.constructor` | src/components/ImageUploader/ImageUploader.jsx:16-33 | the initial state: full-box crop, no aspect ratio, key 0, no image or source URL, modal closed, zoom 1 |
| `Uploader.ImageUploader.HandleFileChange` | src/components/ImageUploader/ImageUploader.jsx:35-45 | a non-empty selection stores the first file's data URL and opens the modal; an empty one changes nothing |
| `Uploader.ImageUploader.HandleImageLoad` | src/components/ImageUploader/ImageUploader.jsx:73-92 | the aspect ratio becomes naturalWidth / naturalHeight and the crop becomes the centred crop supplied by the library |
| `Uploader.ImageUploader.HandleCropChange` | src/components/ImageUploader/ImageUploader.jsx:129-136 | the stored crop is the dragged crop clamped against the displayed image size; it lies inside the box, its size is capped at 100, and nothing else changes |
| `Uploader.ImageUploader.HandleResize` | src/components/ImageUploader/ImageUploader.jsx:62-64 | a resize increments key by one and changes nothing else |
| `Uploader.ImageUploader.HandleZoom` | src/components/ImageUploader/ImageUploader.jsx:213-246 | the new scale is ZoomStep of the old scale and the button name; the crop and every other field are unchanged |
| `Uploader.ImageUploader.ResetCrop` | src/components/ImageUploader/ImageUploader.jsx:186-191 | key 0, full-box crop, no image, no source URL; the zoom scale, aspect ratio and modal flag are untouched |
| `Uploader.ImageUploader.HandleSubmit` | src/components/ImageUploader/ImageUploader.jsx:193-205 | exporting happens only when an image is present and crop width and height are non-zero, and then uses the crop, natural size and zoom of that moment; with a submit callback the modal closes and the crop is reset; otherwise the state is unchanged |
| `Uploader.ImageUploader.HandleCancel` | src/components/ImageUploader/ImageUploader.jsx:207-211 | the modal closes and the crop is reset, leaving the zoom scale and aspect ratio as they were |

## Left out

- Reading the file (`FileReader`) is I/O. `HandleFileChange` receives the data URLs it would produce.
- `imageRef.current` is set by React when the `<img>` element mounts. The model sets it in `HandleImageLoad`.
- The exported image has the allocated size ⌊width/100 · nw⌋ × ⌊height/100 · nh⌋ (`AllocatedCanvas`), or the canvas default when the value is out of range. drawImage is still given the exact size, so the fractional last pixel row and column fall outside the canvas and are clipped. Pixel copying itself is not modelled.
- Creating the canvas, copying pixels in `drawImage`, `toBlob` encoding, object URLs and the `fetch` of the blob are browser calls. Only the rectangle arithmetic passed to them is modelled.
- The "Canvas is empty" path leaves the export promise unresolved. A never-resolving promise is not modelled, so `HandleSubmit` always finishes.
- The awaits in `handleSubmit` are not modelled. State changes made by other handlers while the export is pending are not captured.
- `centerCrop` comes from react-image-crop, whose code is not part of this model. Its result is a parameter of `HandleImageLoad`, so the initial aspect-locked crop is not computed.
- A crop library that keeps the aspect ratio during drags is not part of this model either. The stored ratio is recorded but never enforced.
- A resize bumps `key`, which remounts `<ReactCrop>` and its `<img>`. The new image's load event then runs `handleImageLoad` again and replaces the crop with the library's centred crop. The model has no remounting, so `HandleResize` changes only `key` and a caller has to call `HandleImageLoad` again to represent the reload.
- The timing and coalescing of the 200 ms lodash `debounce` are not modelled. Only their effect, one `key` increment per resize call, is.
- Panning with `scrollBy` (`handleUp`, `handleDown`, `handleLeft`, `handleRight`) moves the browser's scroll position and touches no core state.
- IEEE-754 doubles are replaced by exact reals. In doubles, zoom in followed by zoom out need not restore the scale bit for bit. Ten zoom-outs give about 1.4e-16 instead of 0. The clamp's pixel round trip may also be off in the last bit.
- Rendering (JSX, the modal, icons, `toFixed` display) and `src/App.jsx` are left out. App only passes the callbacks to a state setter.
- CropBounds.AdjustCropToBounds: requires a positive displayed width and height. With a zero size the component divides by zero and stores NaN, which reals cannot express.
- Uploader.ImageUploader.HandleSubmit: requires a non-zero zoom scale whenever the submit guard holds, because `getCroppedImg` divides by it. The component itself never checks this, and `ZoomOutReachesZero` shows that the scale can reach zero.
- Uploader.ImageUploader.HandleImageLoad: requires a non-zero natural height, because the aspect ratio divides by it.
