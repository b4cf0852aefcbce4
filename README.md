# Landmarker annotation core, in Dafny

Landmarker is a browser page for annotating a batch of images with landmarks (for
example the left eye, the right eye and the nose). The user loads images, picks a
landmark in a dropdown, and clicks or drags on an image's canvas to place that landmark.
The placed positions are kept per image and per landmark, and they can be saved as JSON.

This project models the core of `html/js/controls.js`:

- **Coordinate mapping** (module `Geometry`). Every canvas is 320 display pixels wide.
  Its height keeps the image's aspect ratio. Pointer positions are converted from display
  space to the image's natural pixels before they are stored. Stored points are converted
  back to display space when they are drawn. The redraw decision is a `Frame`: the base
  image over the whole canvas, plus a 20 x 20 icon box when there is a point.
- **Annotation map** (module `Annotations`). The `annotations` object is a value here:
  a map from image name to a map from landmark key to a point. A placement writes one cell.
- **Annotation store** (module `Store`). The class `AnnotationStore` holds that map and the
  order in which its keys were created, and updates them in place.
- **Drag state machine** (module `Drag`). This is the `isDragging` flag as a pure transition
  function over `mousedown`, `mousemove` and `mouseup`. It includes the effect of a whole
  event sequence on the annotation map.
- **Canvas surface** (module `Canvas`). The class `Surface` is one canvas after its image
  has loaded. Its three listener methods update the flag and write into the shared store.
- **Controls** (module `Controls`). A batch load empties the store and creates one canvas
  per image. A landmark change redraws every canvas from the store.

Arithmetic is over `real`. The selected landmark is a method parameter. The shared store
is passed to the methods that write to it.

## Model

| member | source | states |
|---|---|---|
| `Geometry.DisplayGeometry.DisplayHeight` | html/js/controls.js:80 | the display height is positive and gives the same height/width ratio as the natural image |
| `Geometry.ToSourceIsUniform` | html/js/controls.js:106-107 | display-to-source multiplies both axes by the same factor, natural width / display width, so the aspect ratio is preserved |
| `Geometry.ToDisplayIsUniform` | html/js/controls.js:95-96 | source-to-display divides both axes by that same factor |
| `Geometry.SourceRoundTrip` | html/js/controls.js:95-107 | mapping a stored point to display space and back gives the point exactly |
| `Geometry.DisplayRoundTrip` | html/js/controls.js:95-107 | mapping a pointer position to source space and back gives the position exactly |
| `Geometry.DrawIconCanvas` | html/js/controls.js:85-91 | the base image always covers the whole canvas; an icon is drawn if and only if there is a position, as a 20 x 20 box centred on it |
| `Geometry.DrawIconImageCoords` | html/js/controls.js:92-101 | an icon is drawn if and only if a point is stored, as a 20 x 20 box centred on the display-space image of that point |
| `Geometry.RedrawMatchesPlacement` | html/js/controls.js:102-108 | redrawing from the stored source point gives exactly the frame drawn under the pointer at placement |
| `Geometry.IconCentreIsStoredPoint` | html/js/controls.js:92-101 | the centre of a redrawn icon, mapped back to source space, is the stored point |
| `Annotations.SetPoint` | html/js/controls.js:49-52 | a placement succeeds exactly when the image is registered; it then sets that cell to the point and changes no other image or landmark, and it adds no image; otherwise the map is unchanged and a TypeError is reported |
| `Annotations.Empties` | html/js/controls.js:130-133 | after a load, the registered images are exactly the batch's names and every annotation is empty |
| `Annotations.LastWriterWins` | html/js/controls.js:51 | placing twice in one cell is the same as placing only the second point |
| `Annotations.DistinctCellsCommute` | html/js/controls.js:51 | placements in different cells give the same map in either order |
| `Store.AnnotationStore.constructor` | html/js/controls.js:13 | the store starts empty |
| `Store.AnnotationStore.Clear` | html/js/controls.js:130 | a load first discards every image and every annotation |
| `Store.AnnotationStore.Register` | html/js/controls.js:132 | the image's annotation becomes empty; a new name goes to the end of the key order and a repeated one keeps its place; the keys stay distinct and match the map |
| `Store.AnnotationStore.Place` | html/js/controls.js:49-52 | the store's new map and the outcome are those of `SetPoint`; the key order is unchanged |
| `Store.AnnotationStore.Get` | html/js/controls.js:66 | the lookup finds a point exactly when the landmark was placed on that image, and returns that point |
| `Store.AnnotationStore.Entries` | html/js/controls.js:55 | the saved entries list each registered image once, in key order, with its annotation |
| `Drag.React` | html/js/controls.js:110-122 | an event places a point unless it is a move while not dragging; what it places is the pointer position; afterwards the flag is set exactly after a `mousedown` or after a move while already dragging |
| `Drag.IdleMovesPlaceNothing` | html/js/controls.js:118-122 | when no drag is in progress, any number of moves places nothing and leaves the flag clear |
| `Drag.DragPlacesEveryMove` | html/js/controls.js:118-122 | during a drag, every move places its position, in order, and the drag continues |
| `Drag.ReplayKeepsLastPlacement` | html/js/controls.js:102-122 | after any event sequence on a canvas, the map is unchanged if nothing was placed; otherwise it holds only the last placed position, mapped to source space |
| `Drag.MovesAfterMouseUpAreInert` | html/js/controls.js:110-122 | after a `mouseup`, further moves change neither the map nor the flag |
| `Drag.PlacementsEndWithMouseUp` | html/js/controls.js:110-113 | a sequence ending in `mouseup` ends by placing the release position, even if no drag was in progress, and ends with the flag clear |
| `Drag.DragStoresReleasePosition` | html/js/controls.js:110-122 | a press, any moves and a release store the release position for the selected landmark and end the drag |
| `Canvas.Surface.constructor` | html/js/controls.js:77-84 | a loaded canvas is 320 wide, has its image's natural size, and no drag is in progress |
| `Canvas.Surface.DrawIcon` | html/js/controls.js:102-109 | the canvas is redrawn with the icon under the pointer, and the pointer position, mapped to source space, is placed for the selected landmark |
| `Canvas.Surface.MouseUp` | html/js/controls.js:110-113 | the flag is cleared and the position is placed even when no drag was in progress; the store and flag are those of `Drag.Replay` and `Drag.FinalDragging` on this one event |
| `Canvas.Surface.MouseDown` | html/js/controls.js:114-117 | the flag is set and the position is placed; the store and flag are those of the pure model on this one event |
| `Canvas.Surface.MouseMove` | html/js/controls.js:118-122 | the canvas is redrawn and the position is placed exactly when a drag is in progress; otherwise nothing is drawn and the store is unchanged |
| `Controls.OnChangeFileBrowser` | html/js/controls.js:128-135 | after a load, the store's keys are exactly the batch's names in batch order, every annotation is empty, and each name has its own newly created canvas, idle and sized to its image |
| `Controls.DragAfterLoad` | html/js/controls.js:110-135 | after loading one image, a press, a move and a release on its new canvas leave the store holding the release position, mapped to source space, for the selected landmark |
| `Controls.ShowLandmarks` | html/js/controls.js:63-70 | a landmark change redraws every registered image in key order, each from its own stored point for the new landmark, and changes no annotation |

## Left out

- Asynchronous image loading (`img.onload`, `img.src`) is not modelled. A `Surface` is built with the natural size its load would report. `ImageFile` carries that size instead of a URI.
- `Controls.OnChangeFileBrowser`: requires distinct names with positive natural sizes. With a repeated name the page holds two canvases with one id. `document.getElementById` (line 78) returns the first of them, so the first canvas gets both images' listeners and the second is never drawn; only which image is drawn last, and whose write lands last, depend on load timing. The store part alone (`Store.AnnotationStore.Register`) does handle repeated names.
- `Controls.ShowLandmarks`: requires that every registered image has a loaded canvas. On the page, a canvas whose image has not loaded yet has no `drawIconImageCoords`, and the call throws.
- Object keys inherited from `Object.prototype` are not modelled. The model treats `annotations` as a plain map. In the page, an unregistered name such as `constructor` or `toString` finds an inherited value, so line 51 writes without throwing. An image named `__proto__` never becomes an own key: line 132 replaces the object's prototype instead, and `Object.keys` (line 64) and `JSON.stringify` (line 55) skip it, while the model registers and saves it.
- Key order: the model keeps the order in which keys were created. `Object.keys` and `JSON.stringify` put integer-like keys (such as an image named `12`) first, in numeric order; that is not modelled.
- `getMousePos` (the bounding-rectangle arithmetic), jQuery and DOM access, `getContext`, and the real `drawImage`/`clearRect` calls are host APIs. The model keeps only whether and where the image and the icon are drawn (`Frame`).
- Floating-point rounding in the scalings, and the truncation of the canvas's integer `height` attribute (line 82), are not modelled. The conversions use the unrounded `height` from line 80, as the source does.
- Saving: `JSON.stringify` formatting, `Blob` and `saveAs` are I/O. `Store.AnnotationStore.Entries` models only which images are written and in what order. Inside each image `JSON.stringify` writes the landmarks in the order they were first placed; an `Annotation` is a `map`, so that order is not modelled.
- `setInfo`, `setWarning`, `setError` and `progressBarUpdate` write to the page only. They are not modelled.
- The `UiUtils` widgets and the `landmarkPresets` dropdown are UI setup. The selected landmark is a parameter of the methods that use it.
- Loading of the landmark icon image (lines 15-16) is not modelled. The icon is modelled only by its 20 x 20 box.
- No per-image keypoints export exists in `controls.js`, so none is modelled.

## Notes on the source

- A placement on an image that is not registered is not a silent no-op. For an ordinary name `annotations[imageId]` is `undefined`, and line 51 throws a TypeError before anything is written. The model returns the outcome `TypeError` and leaves the map unchanged. Canvases from an earlier load are removed from the page (line 129), so this case does not arise in normal use.
- The `mouseup` listener clears the flag before it places the point (lines 111-112). The model follows that order; either order gives the same final state.
