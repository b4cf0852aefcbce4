/**
 * The controller of controls.js: loading a batch of images (`onChangeFileBrowser`,
 * lines 128-135) and redrawing every canvas when another landmark is selected
 * (`showLandmarks`, lines 63-70, called from the dropdown at lines 143-145).
 * The canvases of the page are the map from image name to `Surface` that a load returns,
 * standing for `document.getElementById`.
 */
module Controls {
  import opened Wrappers
  import opened Geometry
  import opened Annotations
  import opened Store
  import opened Canvas

  /** A selected image file, with the natural size its `img.onload` will report. */
  datatype ImageFile = ImageFile(name: ImageId, naturalWidth: real, naturalHeight: real)

  function Names(batch: seq<ImageFile>): (names: seq<ImageId>)
    ensures |names| == |batch|
    ensures forall i :: 0 <= i < |batch| ==> names[i] == batch[i].name
  {
    seq(|batch|, i requires 0 <= i < |batch| => batch[i].name)
  }

  predicate Loadable(batch: seq<ImageFile>) {
    forall i :: 0 <= i < |batch| ==> batch[i].naturalWidth > 0.0 && batch[i].naturalHeight > 0.0
  }

  /** The name of file `i` of a batch with distinct names is not among the names before it. */
  lemma NameIsNew(batch: seq<ImageFile>, i: nat)
    requires NoDuplicates(Names(batch)) && i < |batch|
    ensures forall j :: 0 <= j < i ==> batch[j].name != batch[i].name
    ensures batch[i].name !in Names(batch)[..i]
    ensures Names(batch)[..i + 1] == Names(batch)[..i] + [batch[i].name]
  {
    var names := Names(batch);
    forall j | 0 <= j < i ensures batch[j].name != batch[i].name {
      assert names[j] == batch[j].name && names[i] == batch[i].name;
    }
  }

  /** The canvases of the first `n` files of the batch have been created, each idle and sized to its image. */
  ghost predicate CanvasesFor(surfaces: map<ImageId, Surface>, batch: seq<ImageFile>, n: nat)
    requires n <= |batch|
    reads surfaces.Values
  {
    forall j :: 0 <= j < n ==>
      && batch[j].name in surfaces
      && surfaces[batch[j].name].imageId == batch[j].name
      && !surfaces[batch[j].name].dragging
      && surfaces[batch[j].name].geometry == DisplayGeometry(batch[j].naturalWidth, batch[j].naturalHeight, CanvasWidth)
  }

  /** Adding the canvas of file `i`, whose name is new, extends the canvases built so far. */
  lemma CanvasesForExtend(surfaces: map<ImageId, Surface>, batch: seq<ImageFile>, i: nat, canvas: Surface)
    requires i < |batch| && CanvasesFor(surfaces, batch, i)
    requires forall j :: 0 <= j < i ==> batch[j].name != batch[i].name
    requires canvas.imageId == batch[i].name && !canvas.dragging
    requires canvas.geometry == DisplayGeometry(batch[i].naturalWidth, batch[i].naturalHeight, CanvasWidth)
    ensures CanvasesFor(surfaces[batch[i].name := canvas], batch, i + 1)
  {
  }

  /**
   * The state after the first `n` files of a batch have been loaded: the keys are their
   * names in order, every annotation is empty, and each key has its canvas.
   */
  ghost predicate LoadedPrefix(ids: seq<ImageId>, a: Annotations, surfaces: map<ImageId, Surface>,
                               batch: seq<ImageFile>, n: nat)
    reads surfaces.Values
  {
    && n <= |batch|
    && ids == Names(batch)[..n]
    && (forall id :: id in a ==> a[id] == map[])
    && surfaces.Keys == a.Keys
    && CanvasesFor(surfaces, batch, n)
  }

  /** The name of the next file of a batch with distinct names is not yet among the keys. */
  lemma NextNameIsNew(ids: seq<ImageId>, a: Annotations, surfaces: map<ImageId, Surface>,
                      batch: seq<ImageFile>, n: nat)
    requires LoadedPrefix(ids, a, surfaces, batch, n) && n < |batch|
    requires NoDuplicates(Names(batch))
    ensures batch[n].name !in ids
  {
    NameIsNew(batch, n);
  }

  /** Loading file `n`, whose name is new, extends the loaded prefix by one file. */
  lemma LoadedPrefixStep(ids: seq<ImageId>, a: Annotations, surfaces: map<ImageId, Surface>,
                         batch: seq<ImageFile>, n: nat, canvas: Surface)
    requires LoadedPrefix(ids, a, surfaces, batch, n) && n < |batch|
    requires NoDuplicates(Names(batch))
    requires canvas.imageId == batch[n].name && !canvas.dragging
    requires canvas.geometry == DisplayGeometry(batch[n].naturalWidth, batch[n].naturalHeight, CanvasWidth)
    ensures LoadedPrefix(ids + [batch[n].name], a[batch[n].name := map[]],
                         surfaces[batch[n].name := canvas], batch, n + 1)
  {
    NameIsNew(batch, n);
    CanvasesForExtend(surfaces, batch, n, canvas);
  }

  /**
   * Loading a batch: the store is emptied, then each image gets an empty annotation and a
   * new canvas, in the order of the batch. Nothing annotated before the load survives it.
   */
  method OnChangeFileBrowser(store: AnnotationStore, batch: seq<ImageFile>) returns (surfaces: map<ImageId, Surface>)
    requires NoDuplicates(Names(batch)) && Loadable(batch)
    modifies store
    ensures store.Valid()
    ensures store.ids == Names(batch)
    ensures store.annotations == Empties(Names(batch))
    ensures surfaces.Keys == store.annotations.Keys
    ensures CanvasesFor(surfaces, batch, |batch|)
    ensures fresh(surfaces.Values)
  {
    store.Clear();
    surfaces := map[];
    ghost var made: set<Surface> := {};
    for i := 0 to |batch|
      invariant store.Valid()
      invariant LoadedPrefix(store.ids, store.annotations, surfaces, batch, i)
      invariant surfaces.Values <= made && fresh(made)
    {
      var file := batch[i];
      ghost var ids, annotations := store.ids, store.annotations;
      NextNameIsNew(ids, annotations, surfaces, batch, i);
      assert file.name !in store.annotations;
      store.Register(file.name);
      var canvas := new Surface(file.name, file.naturalWidth, file.naturalHeight);
      LoadedPrefixStep(ids, annotations, surfaces, batch, i, canvas);
      assert surfaces[file.name := canvas].Values <= surfaces.Values + {canvas};
      surfaces := surfaces[file.name := canvas];
      made := made + {canvas};
    }
    assert Names(batch)[..|batch|] == Names(batch);
    EmptiesCharacterised(store.annotations, Names(batch));
  }

  /**
   * Selecting a landmark redraws every registered image's canvas, in key order, with
   * that image's stored point for the landmark, or with no icon where it was not placed.
   * The store is only read.
   */
  method ShowLandmarks(store: AnnotationStore, surfaces: map<ImageId, Surface>, landmark: LandmarkKey) returns (frames: seq<Frame>)
    requires store.Valid()
    requires forall id :: id in store.annotations ==> id in surfaces && surfaces[id].geometry.Valid()
    ensures |frames| == |store.ids|
    ensures forall k :: 0 <= k < |frames| ==>
              frames[k] == DrawIconImageCoords(surfaces[store.ids[k]].geometry, store.Get(store.ids[k], landmark))
  {
    frames := [];
    var imgIds := store.ids;
    for k := 0 to |imgIds|
      invariant |frames| == k
      invariant forall j :: 0 <= j < k ==>
                  frames[j] == DrawIconImageCoords(surfaces[imgIds[j]].geometry, store.Get(imgIds[j], landmark))
    {
      var id := imgIds[k];
      var pos := store.Get(id, landmark);
      frames := frames + [DrawIconImageCoords(surfaces[id].geometry, pos)];
    }
  }

  /**
   * A session on one freshly loaded image: press, drag, release. The store then holds
   * the release position, mapped to source space, for the selected landmark, and the
   * canvas is idle again.
   */
  method DragAfterLoad(store: AnnotationStore, file: ImageFile, landmark: LandmarkKey, down: Point, move: Point, up: Point)
      returns (stored: Option<Point>)
    requires file.naturalWidth > 0.0 && file.naturalHeight > 0.0
    modifies store
    ensures store.ids == [file.name]
    ensures stored == Some(ToSource(DisplayGeometry(file.naturalWidth, file.naturalHeight, CanvasWidth), up))
  {
    assert Names([file]) == [file.name];
    var surfaces := OnChangeFileBrowser(store, [file]);
    assert [file][0] == file;
    var canvas := surfaces[file.name];
    var _, _ := canvas.MouseDown(store, down, landmark);
    var _, _ := canvas.MouseMove(store, move, landmark);
    var _, _ := canvas.MouseUp(store, up, landmark);
    stored := store.Get(file.name, landmark);
  }
}
