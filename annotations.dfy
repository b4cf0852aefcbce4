/**
 * The annotation map as a value: image name -> (landmark key -> point in source pixels).
 * This is the content of the module-level `annotations` object of controls.js; the
 * class in module Store holds it and updates it in place.
 */
module Annotations {
  import opened Wrappers
  import opened Geometry

  type ImageId = string
  type LandmarkKey = string

  /** The landmarks placed on one image; an absent key means "not yet placed". */
  type Annotation = map<LandmarkKey, Point>

  type Annotations = map<ImageId, Annotation>

  /** Writing to an image that is not registered throws a TypeError in the browser (line 51). */
  datatype Outcome = Placed | TypeError

  /** The point stored for one landmark of a registered image (the read at line 66). */
  function Lookup(a: Annotations, id: ImageId, landmark: LandmarkKey): Option<Point>
    requires id in a
  {
    if landmark in a[id] then Some(a[id][landmark]) else None
  }

  /**
   * A placement (lines 49-52): the cell (id, landmark) is set to `p`; when `id` is not
   * registered the write throws and the map is left as it was.
   */
  function SetPoint(a: Annotations, id: ImageId, landmark: LandmarkKey, p: Point): (r: (Annotations, Outcome))
    ensures r.1 == Placed <==> id in a
    ensures r.1 == TypeError ==> r.0 == a
    ensures r.1 == Placed ==> && r.0.Keys == a.Keys
                              && Lookup(r.0, id, landmark) == Some(p)
                              && r.0[id].Keys == a[id].Keys + {landmark}
                              && (forall k :: k in a[id] && k != landmark ==> r.0[id][k] == a[id][k])
                              && (forall other :: other in a && other != id ==> r.0[other] == a[other])
  {
    if id in a then (a[id := a[id][landmark := p]], Placed) else (a, TypeError)
  }

  /** The content of a freshly loaded batch: one empty annotation per name (lines 130-133). */
  function Empties(names: seq<ImageId>): (a: Annotations)
    ensures a.Keys == set n | n in names
    ensures forall n :: n in a ==> a[n] == map[]
  {
    map n | n in names :: map[]
  }

  /** A map whose keys are exactly the names and whose annotations are all empty is the content of a load. */
  lemma EmptiesCharacterised(a: Annotations, names: seq<ImageId>)
    requires forall id :: id in a <==> id in names
    requires forall id :: id in a ==> a[id] == map[]
    ensures a == Empties(names)
  {
  }

  predicate NoDuplicates(s: seq<ImageId>) {
    forall i, j :: 0 <= i < j < |s| ==> s[i] != s[j]
  }

  /** Placing twice in the same cell keeps only the second point: the write is last-writer-wins. */
  lemma LastWriterWins(a: Annotations, id: ImageId, landmark: LandmarkKey, p1: Point, p2: Point)
    ensures SetPoint(SetPoint(a, id, landmark, p1).0, id, landmark, p2) == SetPoint(a, id, landmark, p2)
  {
    if id in a {
      var once := a[id := a[id][landmark := p1]];
      assert once[id][landmark := p2] == a[id][landmark := p2];
      assert once[id := once[id][landmark := p2]] == a[id := a[id][landmark := p2]];
    }
  }

  /** Placements in different cells do not interfere: their order does not matter. */
  lemma DistinctCellsCommute(a: Annotations, id1: ImageId, l1: LandmarkKey, p1: Point,
                             id2: ImageId, l2: LandmarkKey, p2: Point)
    requires (id1, l1) != (id2, l2)
    ensures SetPoint(SetPoint(a, id1, l1, p1).0, id2, l2, p2).0
         == SetPoint(SetPoint(a, id2, l2, p2).0, id1, l1, p1).0
  {
    if id1 in a && id2 in a {
      var m1, m2 := a[id1][l1 := p1], a[id2][l2 := p2];
      if id1 == id2 {
        assert m1[l2 := p2] == m2[l1 := p1];
        assert a[id1 := m1][id2 := m1[l2 := p2]] == a[id2 := m2][id1 := m2[l1 := p1]];
      } else {
        assert a[id1 := m1][id2 := m2] == a[id2 := m2][id1 := m1];
      }
    }
  }

}
