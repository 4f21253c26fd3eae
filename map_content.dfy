/** The zoomable map's coordinate conversions and the state its pins keep while one of
    them is dragged. A point on the image at `p` is drawn on screen at `p * scale + offset`;
    a screen point `q` lies over the image point `(q - offset) / scale`. */
module MapContent {
  import opened KotlinStd
  import opened Geometry
  import opened PoiModel

  /** The image point under a tap. */
  function TapToImage(tap: Offset, offset: Offset, scale: real): (p: Offset)
    requires scale != 0.0
    ensures p.x * scale + offset.x == tap.x && p.y * scale + offset.y == tap.y
  {
    tap.Minus(offset).Div(scale)
  }

  /** Where a pin at image position `pos` is drawn on screen. */
  function PinOnScreen(pos: Offset, scale: real, offset: Offset): (q: Offset)
    ensures scale != 0.0 ==> (q.x - offset.x) / scale == pos.x && (q.y - offset.y) / scale == pos.y
  {
    pos.Times(scale).Plus(offset)
  }

  /** A tap lands a pin exactly under the finger. */
  lemma TapThenPin(tap: Offset, offset: Offset, scale: real)
    requires scale != 0.0
    ensures PinOnScreen(TapToImage(tap, offset, scale), scale, offset) == tap
  {
  }

  /** Tapping where a pin is drawn gives back the pin's image position. */
  lemma PinThenTap(pos: Offset, offset: Offset, scale: real)
    requires scale != 0.0
    ensures TapToImage(PinOnScreen(pos, scale, offset), offset, scale) == pos
  {
  }

  /** What a tap on the map asks for: a new POI at the tapped image point, and only in
      the add mode (in every other mode no tap detector is installed). */
  function TapRequest(mode: MapMode, tap: Offset, offset: Offset, scale: real): (r: Option<Offset>)
    requires mode == AddPoi ==> scale != 0.0
    ensures r.Some? <==> mode == AddPoi
    ensures r.Some? ==> PinOnScreen(r.value, scale, offset) == tap
  {
    if mode == AddPoi then Some(TapToImage(tap, offset, scale)) else None
  }

  /** A pin counts as dragged when the dragged POI has its id. */
  predicate IsBeingDragged(dragged: Option<Poi>, poi: Poi) {
    dragged.Some? && dragged.value.id == poi.id
  }

  /** The image position after a drag step of `d` screen pixels. */
  function DragStep(pos: Offset, d: Offset, scale: real): (p: Offset)
    requires scale != 0.0
    ensures forall offset :: PinOnScreen(p, scale, offset) == PinOnScreen(pos, scale, offset).Plus(d)
  {
    pos.Plus(d.Div(scale))
  }

  /** The image position after a whole drag made of the steps `ds`. */
  function DragAll(pos: Offset, ds: seq<Offset>, scale: real): Offset
    requires scale != 0.0
    decreases |ds|
  {
    if ds == [] then pos else DragAll(DragStep(pos, ds[0], scale), ds[1..], scale)
  }

  /** The sum of a sequence of screen vectors. */
  function Total(ds: seq<Offset>): Offset
    decreases |ds|
  {
    if ds == [] then Zero else ds[0].Plus(Total(ds[1..]))
  }

  /** However a drag is split into steps, the pin ends up moved on screen by exactly the
      sum of the finger's movements. */
  lemma {:induction false} DragMovesPinByFingerTotal(pos: Offset, ds: seq<Offset>, scale: real, offset: Offset)
    requires scale != 0.0
    ensures PinOnScreen(DragAll(pos, ds, scale), scale, offset) == PinOnScreen(pos, scale, offset).Plus(Total(ds))
    decreases |ds|
  {
    if ds != [] {
      var next := DragStep(pos, ds[0], scale);
      DragMovesPinByFingerTotal(next, ds[1..], scale, offset);
      var a := PinOnScreen(pos, scale, offset);
      var t := Total(ds[1..]);
      assert PinOnScreen(next, scale, offset) == a.Plus(ds[0]);
      assert a.Plus(ds[0]).Plus(t) == a.Plus(ds[0].Plus(t));
    }
  }

  /** The state `ZoomableMapContent` remembers across recompositions: which POI is being
      dragged, each pin's current image position, and the dragged flag each pin's tap
      detector captured when it last started. Positions and flags are looked up by POI id;
      the source keeps them per slot of the POI list (see the README). */
  class PinLayer {
    var draggedPoi: Option<Poi>
    var currentPos: map<string, Offset>
    var tapGuard: map<string, bool>

    constructor ()
      ensures draggedPoi == None && currentPos == map[] && tapGuard == map[]
    {
      draggedPoi := None;
      currentPos := map[];
      tapGuard := map[];
    }

    /** First composition of a pin: its position starts at the POI's position on the image.
        Later compositions under the same key keep it. */
    method RememberPin(poi: Poi)
      modifies this
      ensures draggedPoi == old(draggedPoi) && tapGuard == old(tapGuard)
      ensures poi.id !in old(currentPos) ==> currentPos == old(currentPos)[poi.id := PositionOnImage(poi)]
      ensures poi.id in old(currentPos) ==> currentPos == old(currentPos)
    {
      if poi.id !in currentPos {
        currentPos := currentPos[poi.id := PositionOnImage(poi)];
      }
    }

    /** The pin's tap detector starts (on its first composition, and again whenever its POI
        or the mode changes) and captures the click guard of that composition: whether the
        pin is being dragged at that moment. */
    method RestartTapDetector(poi: Poi)
      modifies this
      ensures tapGuard == old(tapGuard)[poi.id := IsBeingDragged(draggedPoi, poi)]
      ensures draggedPoi == old(draggedPoi) && currentPos == old(currentPos)
    {
      tapGuard := tapGuard[poi.id := IsBeingDragged(draggedPoi, poi)];
    }

    /** Where the pin of `poi` is drawn. */
    function PinOffset(poi: Poi, scale: real, offset: Offset): (q: Offset)
      reads this
      requires poi.id in currentPos
      ensures scale != 0.0 ==> TapToImage(q, offset, scale) == currentPos[poi.id]
    {
      PinOnScreen(currentPos[poi.id], scale, offset)
    }

    /** A tap on a pin is passed on only when the pin was not being dragged at the moment
        its tap detector last started; a drag that began since then does not stop it. */
    method OnPoiClick(poi: Poi) returns (forwarded: Option<Poi>)
      requires poi.id in tapGuard
      ensures forwarded.Some? <==> !tapGuard[poi.id]
      ensures forwarded.Some? ==> forwarded.value == poi
    {
      if !tapGuard[poi.id] {
        forwarded := Some(poi);
      } else {
        forwarded := None;
      }
    }

    /** A long press starts dragging the pin. Neither the pin's POI nor the mode changes, so
        its tap detector keeps the guard it captured before the drag. */
    method OnDragStart(poi: Poi)
      modifies this
      ensures draggedPoi == Some(poi) && IsBeingDragged(draggedPoi, poi)
      ensures currentPos == old(currentPos) && tapGuard == old(tapGuard)
    {
      draggedPoi := Some(poi);
    }

    /** One drag event on the dragged pin (its drag detector is installed only while it is
        dragged): the finger moved `dragAmount` screen pixels, so the pin's image position
        moves by `dragAmount / scale` and its drawn position by `dragAmount`. */
    method OnDrag(poi: Poi, dragAmount: Offset, scale: real)
      requires IsBeingDragged(draggedPoi, poi)
      requires scale != 0.0 && poi.id in currentPos
      modifies this
      ensures draggedPoi == old(draggedPoi) && tapGuard == old(tapGuard)
      ensures currentPos == old(currentPos)[poi.id := DragStep(old(currentPos)[poi.id], dragAmount, scale)]
      ensures forall offset :: PinOffset(poi, scale, offset) == old(PinOnScreen(currentPos[poi.id], scale, offset)).Plus(dragAmount)
    {
      currentPos := currentPos[poi.id := currentPos[poi.id].Plus(dragAmount.Div(scale))];
    }

    /** The drag ends: the pin's final image position is reported for saving, and no pin
        is dragged any more. */
    method OnDragEnd(poi: Poi) returns (moved: Poi, newPosition: Offset)
      requires IsBeingDragged(draggedPoi, poi)
      requires poi.id in currentPos
      modifies this
      ensures moved == poi && newPosition == old(currentPos)[poi.id]
      ensures draggedPoi == None
      ensures currentPos == old(currentPos) && tapGuard == old(tapGuard)
    {
      moved, newPosition := poi, currentPos[poi.id];
      draggedPoi := None;
    }
  }
}
