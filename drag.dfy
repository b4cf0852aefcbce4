/**
 * The per-canvas drag state machine of controls.js (lines 84, 110-122) as a pure
 * transition function, and the effect of a sequence of pointer events on the annotation
 * map. Positions in events are in display space; placements store them in source space.
 */
module Drag {
  import opened Wrappers
  import opened Geometry
  import opened Annotations

  datatype Event = MouseDown(pos: Point) | MouseMove(pos: Point) | MouseUp(pos: Point)

  /** The new value of `isDragging`, and the display-space position placed, if any. */
  datatype Reaction = Reaction(dragging: bool, placed: Option<Point>)

  /**
   * `mouseup` clears the flag and places, `mousedown` sets it and places, `mousemove`
   * places only while the flag is set and leaves it as it is.
   */
  function React(dragging: bool, e: Event): (r: Reaction)
    ensures r.placed.Some? <==> !e.MouseMove? || dragging
    ensures r.placed.Some? ==> r.placed.value == e.pos
    ensures r.dragging <==> e.MouseDown? || (e.MouseMove? && dragging)
  {
    match e
    case MouseUp(p) => Reaction(false, Some(p))
    case MouseDown(p) => Reaction(true, Some(p))
    case MouseMove(p) => Reaction(dragging, if dragging then Some(p) else None)
  }

  /** The display-space positions placed by a sequence of events, in order. */
  function Placements(dragging: bool, events: seq<Event>): seq<Point>
    decreases |events|
  {
    if events == [] then []
    else
      var r := React(dragging, events[0]);
      (if r.placed.Some? then [r.placed.value] else []) + Placements(r.dragging, events[1..])
  }

  /** The value of `isDragging` after a sequence of events. */
  function FinalDragging(dragging: bool, events: seq<Event>): bool
    decreases |events|
  {
    if events == [] then dragging else FinalDragging(React(dragging, events[0]).dragging, events[1..])
  }

  /** The annotation map after a sequence of events on the canvas of image `id`. */
  function Replay(a: Annotations, g: DisplayGeometry, id: ImageId, landmark: LandmarkKey,
                  dragging: bool, events: seq<Event>): Annotations
    requires g.Valid()
    decreases |events|
  {
    if events == [] then a
    else
      var r := React(dragging, events[0]);
      var a' := if r.placed.Some? then SetPoint(a, id, landmark, ToSource(g, r.placed.value)).0 else a;
      Replay(a', g, id, landmark, r.dragging, events[1..])
  }

  predicate AllMoves(events: seq<Event>) {
    forall i :: 0 <= i < |events| ==> events[i].MouseMove?
  }

  function Positions(events: seq<Event>): (ps: seq<Point>)
    ensures |ps| == |events|
    ensures forall i :: 0 <= i < |events| ==> ps[i] == events[i].pos
  {
    seq(|events|, i requires 0 <= i < |events| => events[i].pos)
  }

  /** While the button is up, moving the pointer places nothing and keeps the flag clear. */
  lemma {:induction false} IdleMovesPlaceNothing(events: seq<Event>)
    requires AllMoves(events)
    ensures Placements(false, events) == []
    ensures !FinalDragging(false, events)
    decreases |events|
  {
    if events != [] {
      IdleMovesPlaceNothing(events[1..]);
    }
  }

  /** While the button is down, every move places the pointer's position. */
  lemma {:induction false} DragPlacesEveryMove(events: seq<Event>)
    requires AllMoves(events)
    ensures Placements(true, events) == Positions(events)
    ensures FinalDragging(true, events)
    decreases |events|
  {
    if events != [] {
      DragPlacesEveryMove(events[1..]);
    }
  }

  /**
   * The annotation map after a sequence of events: unchanged when nothing was placed,
   * otherwise holding the source-space image of the last placed position in the cell
   * (id, landmark), as if that placement alone had happened.
   */
  lemma {:induction false} ReplayKeepsLastPlacement(a: Annotations, g: DisplayGeometry, id: ImageId,
                                                    landmark: LandmarkKey, dragging: bool, events: seq<Event>)
    requires g.Valid()
    ensures var ps := Placements(dragging, events);
            Replay(a, g, id, landmark, dragging, events)
              == if ps == [] then a else SetPoint(a, id, landmark, ToSource(g, ps[|ps| - 1])).0
    decreases |events|
  {
    if events != [] {
      var r := React(dragging, events[0]);
      var a' := if r.placed.Some? then SetPoint(a, id, landmark, ToSource(g, r.placed.value)).0 else a;
      ReplayKeepsLastPlacement(a', g, id, landmark, r.dragging, events[1..]);
      var rest := Placements(r.dragging, events[1..]);
      if r.placed.Some? && rest != [] {
        LastWriterWins(a, id, landmark, ToSource(g, r.placed.value), ToSource(g, rest[|rest| - 1]));
      }
    }
  }

  /** After a `mouseup`, further moves leave the annotation map unchanged. */
  lemma MovesAfterMouseUpAreInert(a: Annotations, g: DisplayGeometry, id: ImageId, landmark: LandmarkKey,
                                  dragging: bool, p: Point, moves: seq<Event>)
    requires g.Valid()
    requires AllMoves(moves)
    ensures Replay(a, g, id, landmark, dragging, [MouseUp(p)] + moves)
         == SetPoint(a, id, landmark, ToSource(g, p)).0
    ensures !FinalDragging(dragging, [MouseUp(p)] + moves)
  {
    var es := [MouseUp(p)] + moves;
    assert es[1..] == moves;
    IdleMovesPlaceNothing(moves);
    ReplayKeepsLastPlacement(a, g, id, landmark, dragging, es);
  }

  /** A drag (press, moves, release) stores the release position for the selected landmark. */
  lemma DragStoresReleasePosition(a: Annotations, g: DisplayGeometry, id: ImageId, landmark: LandmarkKey,
                                  dragging: bool, down: Point, moves: seq<Event>, up: Point)
    requires g.Valid()
    requires AllMoves(moves)
    ensures Replay(a, g, id, landmark, dragging, [MouseDown(down)] + moves + [MouseUp(up)])
         == SetPoint(a, id, landmark, ToSource(g, up)).0
    ensures !FinalDragging(dragging, [MouseDown(down)] + moves + [MouseUp(up)])
  {
    var es := [MouseDown(down)] + moves + [MouseUp(up)];
    PlacementsEndWithMouseUp(dragging, es[..|es| - 1], up);
    assert es == es[..|es| - 1] + [MouseUp(up)];
    ReplayKeepsLastPlacement(a, g, id, landmark, dragging, es);
  }

  /** A sequence that ends with a `mouseup` ends by placing its position and clearing the flag. */
  lemma {:induction false} PlacementsEndWithMouseUp(dragging: bool, events: seq<Event>, up: Point)
    ensures var ps := Placements(dragging, events + [MouseUp(up)]);
            ps != [] && ps[|ps| - 1] == up
    ensures !FinalDragging(dragging, events + [MouseUp(up)])
    decreases |events|
  {
    if events == [] {
      assert [MouseUp(up)][1..] == [];
    } else {
      var r := React(dragging, events[0]);
      assert (events + [MouseUp(up)])[1..] == events[1..] + [MouseUp(up)];
      PlacementsEndWithMouseUp(r.dragging, events[1..], up);
    }
  }
}
