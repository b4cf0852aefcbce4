/**
 * The annotation store of controls.js: the module-level `annotations` object (line 13),
 * emptied on every batch load (line 130), given one entry per image (line 132) and
 * written one cell at a time by placements (lines 49-52).
 *
 * `ids` is the order in which the object's keys were created. `Object.keys` and
 * `JSON.stringify` (lines 55, 64) visit keys in that order, except that integer-like
 * keys (an image named `12`) come first in numeric order; that exception is not modelled.
 */
module Store {
  import opened Wrappers
  import opened Geometry
  import opened Annotations

  class AnnotationStore {
    var ids: seq<ImageId>
    var annotations: Annotations

    /** Every key appears once in `ids`, and `ids` lists exactly the keys of the map. */
    ghost predicate Valid()
      reads this
    {
      NoDuplicates(ids) && forall id :: id in annotations <==> id in ids
    }

    /** `let annotations = {}` (line 13). */
    constructor ()
      ensures Valid()
      ensures ids == [] && annotations == map[]
    {
      ids := [];
      annotations := map[];
    }

    /** `annotations = {}` on a batch load (line 130). */
    method Clear()
      modifies this
      ensures Valid()
      ensures ids == [] && annotations == map[]
    {
      ids := [];
      annotations := map[];
    }

    /**
     * `annotations[name] = {}` (line 132): the image's annotation becomes empty; a name
     * seen for the first time is appended to the key order, a repeated one keeps its place.
     */
    method Register(id: ImageId)
      requires Valid()
      modifies this
      ensures Valid()
      ensures annotations == old(annotations)[id := map[]]
      ensures ids == if id in old(annotations) then old(ids) else old(ids) + [id]
    {
      if id !in annotations {
        ids := ids + [id];
      }
      annotations := annotations[id := map[]];
    }

    /**
     * `annotations[imageId][landmark] = {x, y}` (line 51): inserts or overwrites one cell;
     * for an image that is not registered the write throws and nothing changes.
     */
    method Place(id: ImageId, landmark: LandmarkKey, p: Point) returns (outcome: Outcome)
      requires Valid()
      modifies this
      ensures Valid() && ids == old(ids)
      ensures (annotations, outcome) == SetPoint(old(annotations), id, landmark, p)
    {
      if id in annotations {
        annotations := annotations[id := annotations[id][landmark := p]];
        outcome := Placed;
      } else {
        outcome := TypeError;
      }
    }

    /** The point stored for a landmark of a registered image, if one was placed (line 66). */
    function Get(id: ImageId, landmark: LandmarkKey): (r: Option<Point>)
      reads this
      requires id in annotations
      ensures r.Some? <==> landmark in annotations[id]
      ensures r.Some? ==> r.value == annotations[id][landmark]
    {
      Lookup(annotations, id, landmark)
    }

    /**
     * The entries `JSON.stringify` writes when the landmarks are saved (line 55), in key
     * order; saving reads the store and changes nothing.
     */
    function Entries(): (es: seq<(ImageId, Annotation)>)
      reads this
      requires Valid()
      ensures |es| == |ids|
      ensures forall k :: 0 <= k < |es| ==> es[k].0 == ids[k] && es[k].1 == annotations[ids[k]]
      ensures forall id :: id in annotations <==> exists k :: 0 <= k < |es| && es[k].0 == id
    {
      var order, a := ids, annotations;
      seq(|order|, k requires 0 <= k < |order| && order[k] in a => (order[k], a[order[k]]))
    }
  }
}
