/**
 * One canvas per loaded image (`createCanvas` and its `img.onload` handler, lines 73-126),
 * modelled from the moment its image has loaded: the image's natural size is known, the
 * canvas is `CanvasWidth` wide, and the closure flag `isDragging` (line 84) is a field.
 * The listeners write into the shared annotation store, passed in explicitly, for the
 * landmark currently selected in the dropdown, passed in as a parameter.
 */
module Canvas {
  import opened Wrappers
  import opened Geometry
  import opened Annotations
  import opened Store
  import opened Drag

  class Surface {
    const imageId: ImageId
    const geometry: DisplayGeometry
    var dragging: bool

    /** The canvas of `imageId` once its image has loaded; no drag is in progress (line 84). */
    constructor (imageId: ImageId, naturalWidth: real, naturalHeight: real)
      requires naturalWidth > 0.0 && naturalHeight > 0.0
      ensures this.imageId == imageId
      ensures geometry == DisplayGeometry(naturalWidth, naturalHeight, CanvasWidth) && geometry.Valid()
      ensures !dragging
    {
      this.imageId := imageId;
      geometry := DisplayGeometry(naturalWidth, naturalHeight, CanvasWidth);
      dragging := false;
    }

    /**
     * `drawIcon` (lines 102-109): redraw with the icon under the pointer, then store the
     * pointer's position, mapped to source space, for the selected landmark.
     */
    method DrawIcon(store: AnnotationStore, pointer: Point, landmark: LandmarkKey) returns (frame: Frame, outcome: Outcome)
      requires geometry.Valid() && store.Valid()
      modifies store
      ensures store.Valid() && store.ids == old(store.ids)
      ensures frame == DrawIconCanvas(geometry, Some(pointer))
      ensures (store.annotations, outcome) == SetPoint(old(store.annotations), imageId, landmark, ToSource(geometry, pointer))
    {
      frame := DrawIconCanvas(geometry, Some(pointer));
      outcome := store.Place(imageId, landmark, ToSource(geometry, pointer));
    }

    /** The `mouseup` listener (lines 110-113): the drag ends and the position is placed. */
    method MouseUp(store: AnnotationStore, pointer: Point, landmark: LandmarkKey) returns (frame: Frame, outcome: Outcome)
      requires geometry.Valid() && store.Valid()
      modifies this, store
      ensures !dragging && dragging == FinalDragging(old(dragging), [Event.MouseUp(pointer)])
      ensures store.Valid() && store.ids == old(store.ids)
      ensures store.annotations == Replay(old(store.annotations), geometry, imageId, landmark, old(dragging), [Event.MouseUp(pointer)])
      ensures frame == DrawIconCanvas(geometry, Some(pointer))
      ensures outcome == Placed <==> imageId in store.annotations
    {
      dragging := false;
      frame, outcome := DrawIcon(store, pointer, landmark);
    }

    /** The `mousedown` listener (lines 114-117): a drag starts and the position is placed. */
    method MouseDown(store: AnnotationStore, pointer: Point, landmark: LandmarkKey) returns (frame: Frame, outcome: Outcome)
      requires geometry.Valid() && store.Valid()
      modifies this, store
      ensures dragging && dragging == FinalDragging(old(dragging), [Event.MouseDown(pointer)])
      ensures store.Valid() && store.ids == old(store.ids)
      ensures store.annotations == Replay(old(store.annotations), geometry, imageId, landmark, old(dragging), [Event.MouseDown(pointer)])
      ensures frame == DrawIconCanvas(geometry, Some(pointer))
      ensures outcome == Placed <==> imageId in store.annotations
    {
      dragging := true;
      frame, outcome := DrawIcon(store, pointer, landmark);
    }

    /**
     * The `mousemove` listener (lines 118-122): only while a drag is in progress is the
     * canvas redrawn and the position placed; otherwise nothing happens.
     */
    method MouseMove(store: AnnotationStore, pointer: Point, landmark: LandmarkKey) returns (frame: Option<Frame>, outcome: Option<Outcome>)
      requires geometry.Valid() && store.Valid()
      modifies store
      ensures store.Valid() && store.ids == old(store.ids)
      ensures dragging == FinalDragging(dragging, [Event.MouseMove(pointer)])
      ensures store.annotations == Replay(old(store.annotations), geometry, imageId, landmark, dragging, [Event.MouseMove(pointer)])
      ensures frame.Some? <==> dragging
      ensures outcome.Some? <==> dragging
      ensures dragging ==> frame.value == DrawIconCanvas(geometry, Some(pointer))
                           && (outcome.value == Placed <==> imageId in store.annotations)
      ensures !dragging ==> store.annotations == old(store.annotations)
    {
      if dragging {
        var f, o := DrawIcon(store, pointer, landmark);
        frame, outcome := Some(f), Some(o);
      } else {
        frame, outcome := None, None;
      }
    }
  }
}
