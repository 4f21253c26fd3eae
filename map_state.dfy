/** The map screen's state and its view model: the viewport (scale and offset of the floor
    plan inside its container), the interaction mode, the POI being edited, and the POI
    list panel. Each event replaces the whole `MapUiState` by a modified copy; the pure
    functions below compute those copies and `MapViewModel` holds the current one. */
module MapState {
  import opened KotlinStd
  import opened Geometry
  import opened PoiModel
  import MapContent

  datatype MapUiState = MapUiState(
    mode: MapMode,
    pois: seq<Poi>,
    selectedPoi: Option<Poi>,
    isUserAdmin: bool,
    isLoadingImage: bool,
    scale: real,
    offset: Offset,
    containerSize: IntSize,
    imageSize: Size,
    isInitialized: bool,
    isPoiListVisible: bool
  )

  /** The state a fresh view model starts from. */
  const InitialState := MapUiState(View, [], None, false, false, 1.0, Zero, IntSizeZero, SizeZero, false, false)

  /** The bounds every gesture or button zoom keeps the scale in. */
  const MinScale: real := 0.5
  const MaxScale: real := 5.0

  /** The zoom buttons' factors. */
  const ZoomInFactor: real := 1.2
  const ZoomOutFactor: real := 1.0 / 1.2

  // ---------------------------------------------------------------------------
  // Keeping the image in view

  /** On one axis, an offset `o` for an image of drawn length `scaled` inside a container of
      length `container`, given a wanted offset `proposed`: an image longer than the
      container covers it and moves as little as possible from `proposed`; a shorter one is
      centred, with equal margins on both sides. */
  predicate AxisPlaced(proposed: real, o: real, scaled: real, container: real) {
    if scaled > container then
      && o <= 0.0 && container <= o + scaled
      && (container - scaled <= proposed <= 0.0 ==> o == proposed)
      && (proposed < container - scaled ==> o == container - scaled)
      && (0.0 < proposed ==> o == 0.0)
    else
      o == container - (o + scaled)
  }

  function ClampAxis(proposed: real, scaled: real, container: real): (o: real)
    ensures AxisPlaced(proposed, o, scaled, container)
  {
    if scaled > container then CoerceIn(proposed, container - scaled, 0.0)
    else (container - scaled) / 2.0
  }

  /** `clampOffset`: no offset at all while the container or the image has no width;
      otherwise each axis is placed as `AxisPlaced` says. */
  function ClampOffset(proposed: Offset, scale: real, containerSize: IntSize, imageSize: Size): (r: Offset)
    ensures containerSize.width == 0 || imageSize.width == 0.0 ==> r == Zero
    ensures containerSize.width != 0 && imageSize.width != 0.0 ==>
      && AxisPlaced(proposed.x, r.x, imageSize.width * scale, containerSize.width as real)
      && AxisPlaced(proposed.y, r.y, imageSize.height * scale, containerSize.height as real)
  {
    if containerSize.width == 0 || imageSize.width == 0.0 then Zero
    else Offset(ClampAxis(proposed.x, imageSize.width * scale, containerSize.width as real),
                ClampAxis(proposed.y, imageSize.height * scale, containerSize.height as real))
  }

  /** An offset the clamp leaves where it is. */
  predicate InBounds(o: Offset, scale: real, containerSize: IntSize, imageSize: Size) {
    ClampOffset(o, scale, containerSize, imageSize) == o
  }

  /** Clamping an already clamped offset changes nothing. */
  lemma ClampOffsetIdempotent(proposed: Offset, scale: real, containerSize: IntSize, imageSize: Size)
    ensures InBounds(ClampOffset(proposed, scale, containerSize, imageSize), scale, containerSize, imageSize)
  {
    if containerSize.width != 0 && imageSize.width != 0.0 {
      var cw, ch := containerSize.width as real, containerSize.height as real;
      var sw, sh := imageSize.width * scale, imageSize.height * scale;
      if sw > cw { CoerceInIdempotent(proposed.x, cw - sw, 0.0); }
      if sh > ch { CoerceInIdempotent(proposed.y, ch - sh, 0.0); }
    }
  }

  /** An offset the clamp leaves where it is exactly when, on each axis, it keeps a longer
      image over the whole container and centres a shorter one. */
  lemma InBoundsMeaning(o: Offset, scale: real, containerSize: IntSize, imageSize: Size)
    requires containerSize.width != 0 && imageSize.width != 0.0
    ensures InBounds(o, scale, containerSize, imageSize) <==>
      && AxisInView(o.x, imageSize.width * scale, containerSize.width as real)
      && AxisInView(o.y, imageSize.height * scale, containerSize.height as real)
  {
  }

  predicate AxisInView(o: real, scaled: real, container: real) {
    if scaled > container then container - scaled <= o <= 0.0 else o + o + scaled == container
  }

  // ---------------------------------------------------------------------------
  // Size changes and the initial "cover" scale

  /** The smallest scale at which the image covers the container on both axes. */
  function CoverScale(containerSize: IntSize, imageSize: Size): (k: real)
    requires imageSize.width > 0.0 && imageSize.height > 0.0
    ensures containerSize.width as real <= imageSize.width * k
    ensures containerSize.height as real <= imageSize.height * k
    ensures imageSize.width * k == containerSize.width as real || imageSize.height * k == containerSize.height as real
    ensures containerSize.width > 0 ==> k > 0.0
  {
    MaxOf(containerSize.width as real / imageSize.width, containerSize.height as real / imageSize.height)
  }

  /** The guard of the size handler as the source writes it: while the container or the
      image has no width, a new size is only recorded. */
  predicate DegenerateAsWritten(containerSize: IntSize, imageSize: Size) {
    containerSize.width == 0 || imageSize.width == 0.0
  }

  /** The sizes the first initialisation must skip. It divides by the image height as well
      as by the width, so a zero height counts as degenerate too. */
  predicate Degenerate(containerSize: IntSize, imageSize: Size) {
    DegenerateAsWritten(containerSize, imageSize) || imageSize.height == 0.0
  }

  /** The written guard lets through a size whose initial scale divides by zero: the image
      height here is 0, and the second ratio is the container height over it. The
      corrected guard stops it. */
  lemma AsWrittenGuardAdmitsZeroHeight()
    ensures !DegenerateAsWritten(IntSize(1080, 1920), Size(800.0, 0.0))
    ensures Degenerate(IntSize(1080, 1920), Size(800.0, 0.0))
  {
  }

  /** Past the corrected guard both ratios are defined and the initial scale is positive. */
  lemma NonDegenerateSizesHavePositiveCoverScale(containerSize: IntSize, imageSize: Size)
    requires !Degenerate(containerSize, imageSize)
    ensures imageSize.width > 0.0 && imageSize.height > 0.0
    ensures CoverScale(containerSize, imageSize) > 0.0
  {
  }

  /** `onMapSizeChanged`: sizes without a width are only recorded; the first proper size
      sets the cover scale and marks the viewport initialised; later sizes keep the scale
      and re-clamp the offset. The first initialisation also skips a zero image height,
      which the source lets through (the only division the guard must protect is there). */
  function SizeChanged(s: MapUiState, containerSize: IntSize, imageSize: Size): (r: MapUiState)
    ensures r.containerSize == containerSize && r.imageSize == imageSize
    ensures DegenerateAsWritten(containerSize, imageSize) ==> r == s.(containerSize := containerSize, imageSize := imageSize)
    ensures !s.isInitialized && Degenerate(containerSize, imageSize) ==>
      r == s.(containerSize := containerSize, imageSize := imageSize)
    ensures !s.isInitialized && !Degenerate(containerSize, imageSize) ==>
      r.isInitialized && r.scale == CoverScale(containerSize, imageSize)
    ensures s.isInitialized && !DegenerateAsWritten(containerSize, imageSize) ==>
      && r == s.(containerSize := containerSize, imageSize := imageSize, offset := r.offset)
      && r.offset == ClampOffset(s.offset, s.scale, containerSize, imageSize)
      && InBounds(r.offset, s.scale, containerSize, imageSize)
    ensures s.isInitialized ==> r.isInitialized && r.scale == s.scale
  {
    if DegenerateAsWritten(containerSize, imageSize) then
      s.(containerSize := containerSize, imageSize := imageSize)
    else if !s.isInitialized then
      if imageSize.height == 0.0 then
        s.(containerSize := containerSize, imageSize := imageSize)
      else
        var k := CoverScale(containerSize, imageSize);
        s.(containerSize := containerSize, imageSize := imageSize,
           scale := k, offset := ClampOffset(Zero, k, containerSize, imageSize), isInitialized := true)
    else
      var o := ClampOffset(s.offset, s.scale, containerSize, imageSize);
      ClampOffsetIdempotent(s.offset, s.scale, containerSize, imageSize);
      s.(containerSize := containerSize, imageSize := imageSize, offset := o)
  }

  /** Once initialised, a size with a zero image height is handled as the source handles it:
      the offset is re-clamped, not kept, and the flat image is centred vertically. */
  lemma InitialisedViewportReclampsZeroHeight(s: MapUiState, containerSize: IntSize, imageSize: Size)
    requires s.isInitialized && !DegenerateAsWritten(containerSize, imageSize) && imageSize.height == 0.0
    ensures var r := SizeChanged(s, containerSize, imageSize);
      && r.offset == ClampOffset(s.offset, s.scale, containerSize, imageSize)
      && r.offset.y == containerSize.height as real / 2.0
  {
  }

  /** The first proper size shows the image from its top-left corner, at the smallest scale
      at which it covers the container on both axes. */
  lemma FirstSizeCoversContainer(s: MapUiState, containerSize: IntSize, imageSize: Size)
    requires !s.isInitialized && !Degenerate(containerSize, imageSize)
    ensures var r := SizeChanged(s, containerSize, imageSize);
      && r.isInitialized
      && r.scale == CoverScale(containerSize, imageSize) > 0.0
      && containerSize.width as real <= imageSize.width * r.scale
      && containerSize.height as real <= imageSize.height * r.scale
      && r.offset == Zero
      && r == s.(containerSize := containerSize, imageSize := imageSize,
                 scale := r.scale, offset := Zero, isInitialized := true)
  {
    var k := CoverScale(containerSize, imageSize);
    var cw, ch := containerSize.width as real, containerSize.height as real;
    var o := ClampOffset(Zero, k, containerSize, imageSize);
    assert o.x == 0.0 by {
      if imageSize.width * k > cw { assert cw - imageSize.width * k <= 0.0; } else { assert imageSize.width * k == cw; }
    }
    assert o.y == 0.0 by {
      if imageSize.height * k > ch { assert ch - imageSize.height * k <= 0.0; } else { assert imageSize.height * k == ch; }
    }
  }

  // ---------------------------------------------------------------------------
  // Pinch, pan and the zoom buttons

  /** The offset that keeps the image point under `centroid` in place when the scale is
      multiplied by `ratio`. */
  function ZoomAbout(offset: Offset, centroid: Offset, ratio: real): Offset {
    offset.Minus(centroid).Times(ratio).Plus(centroid)
  }

  lemma ZoomAboutAxis(o: real, c: real, pan: real, scale: real, newScale: real)
    requires scale > 0.0 && newScale > 0.0
    ensures (c + pan - ((o - c) * (newScale / scale) + c + pan)) / newScale == (c - o) / scale
  {
    var k := newScale / scale;
    assert k * scale == newScale;
    calc {
      (c + pan - ((o - c) * k + c + pan)) / newScale;
      ((c - o) * k) / newScale;
      ((c - o) * k) / (k * scale);
      { assert k != 0.0; }
      (c - o) / scale;
    }
  }

  /** Before clamping, zooming about a centroid and then panning leaves the image point that
      was under the centroid under the centroid moved by the pan. */
  lemma ZoomAboutKeepsPointUnderFingers(offset: Offset, centroid: Offset, pan: Offset, scale: real, newScale: real)
    requires scale > 0.0 && newScale > 0.0
    ensures MapContent.TapToImage(centroid.Plus(pan), ZoomAbout(offset, centroid, newScale / scale).Plus(pan), newScale)
         == MapContent.TapToImage(centroid, offset, scale)
  {
    ZoomAboutAxis(offset.x, centroid.x, pan.x, scale, newScale);
    ZoomAboutAxis(offset.y, centroid.y, pan.y, scale, newScale);
  }

  /** `onMapTransform`: a pinch/pan gesture. Ignored before the viewport is initialised. */
  function Transform(s: MapUiState, centroid: Offset, pan: Offset, zoom: real): (r: MapUiState)
    requires s.scale > 0.0
    ensures !s.isInitialized ==> r == s
    ensures s.isInitialized ==>
      && MinScale <= r.scale <= MaxScale
      && r == s.(scale := r.scale, offset := r.offset)
      && InBounds(r.offset, r.scale, s.containerSize, s.imageSize)
    ensures s.isInitialized ==>
      && r.scale == CoerceIn(s.scale * zoom, MinScale, MaxScale)
      && r.offset == ClampOffset(ZoomAbout(s.offset, centroid, r.scale / s.scale).Plus(pan), r.scale, s.containerSize, s.imageSize)
  {
    if !s.isInitialized then s
    else
      var newScale := CoerceIn(s.scale * zoom, MinScale, MaxScale);
      var proposed := ZoomAbout(s.offset, centroid, newScale / s.scale).Plus(pan);
      ClampOffsetIdempotent(proposed, newScale, s.containerSize, s.imageSize);
      s.(scale := newScale, offset := ClampOffset(proposed, newScale, s.containerSize, s.imageSize))
  }

  /** When the gesture needs no clamping, the image point under the fingers stays under them. */
  lemma TransformKeepsPointUnderFingers(s: MapUiState, centroid: Offset, pan: Offset, zoom: real)
    requires s.scale > 0.0 && s.isInitialized
    requires var newScale := CoerceIn(s.scale * zoom, MinScale, MaxScale);
      InBounds(ZoomAbout(s.offset, centroid, newScale / s.scale).Plus(pan), newScale, s.containerSize, s.imageSize)
    ensures var r := Transform(s, centroid, pan, zoom);
      MapContent.TapToImage(centroid.Plus(pan), r.offset, r.scale) == MapContent.TapToImage(centroid, s.offset, s.scale)
  {
    var newScale := CoerceIn(s.scale * zoom, MinScale, MaxScale);
    var proposed := ZoomAbout(s.offset, centroid, newScale / s.scale).Plus(pan);
    var r := Transform(s, centroid, pan, zoom);
    assert r.scale == newScale && r.offset == proposed;
    ZoomAboutKeepsPointUnderFingers(s.offset, centroid, pan, s.scale, newScale);
  }

  /** The centre of the container. */
  function ContainerCentre(containerSize: IntSize): Offset {
    Offset(containerSize.width as real / 2.0, containerSize.height as real / 2.0)
  }

  /** `handleZoom`: zoom by a factor about the centre of the container. */
  function Zoom(s: MapUiState, zoomFactor: real): (r: MapUiState)
    requires s.scale > 0.0
    ensures !s.isInitialized ==> r == s
    ensures s.isInitialized ==>
      && MinScale <= r.scale <= MaxScale
      && r == s.(scale := r.scale, offset := r.offset)
      && InBounds(r.offset, r.scale, s.containerSize, s.imageSize)
    ensures s.isInitialized ==>
      && r.scale == CoerceIn(s.scale * zoomFactor, MinScale, MaxScale)
      && r.offset == ClampOffset(ZoomAbout(s.offset, ContainerCentre(s.containerSize), r.scale / s.scale),
                                 r.scale, s.containerSize, s.imageSize)
  {
    if !s.isInitialized then s
    else
      var newScale := CoerceIn(s.scale * zoomFactor, MinScale, MaxScale);
      var proposed := ZoomAbout(s.offset, ContainerCentre(s.containerSize), newScale / s.scale);
      ClampOffsetIdempotent(proposed, newScale, s.containerSize, s.imageSize);
      s.(scale := newScale, offset := ClampOffset(proposed, newScale, s.containerSize, s.imageSize))
  }

  /** Zooming about a point, without a pan, keeps the image point under it. */
  lemma ZoomAboutFixesCentroid(offset: Offset, centroid: Offset, scale: real, newScale: real)
    requires scale > 0.0 && newScale > 0.0
    ensures MapContent.TapToImage(centroid, ZoomAbout(offset, centroid, newScale / scale), newScale)
         == MapContent.TapToImage(centroid, offset, scale)
  {
    ZoomAboutAxis(offset.x, centroid.x, 0.0, scale, newScale);
    ZoomAboutAxis(offset.y, centroid.y, 0.0, scale, newScale);
  }

  /** A button zoom that needs no clamping takes the coerced scale and the zoomed offset. */
  lemma ZoomUnclamped(s: MapUiState, zoomFactor: real, newScale: real, proposed: Offset)
    requires s.scale > 0.0 && s.isInitialized
    requires newScale == CoerceIn(s.scale * zoomFactor, MinScale, MaxScale)
    requires proposed == ZoomAbout(s.offset, ContainerCentre(s.containerSize), newScale / s.scale)
    requires InBounds(proposed, newScale, s.containerSize, s.imageSize)
    ensures Zoom(s, zoomFactor).scale == newScale && Zoom(s, zoomFactor).offset == proposed
  {
  }

  /** When a button zoom needs no clamping, the image point at the centre of the container
      stays there. */
  lemma ZoomKeepsCentreFixed(s: MapUiState, zoomFactor: real)
    requires s.scale > 0.0 && s.isInitialized
    requires var newScale := CoerceIn(s.scale * zoomFactor, MinScale, MaxScale);
      InBounds(ZoomAbout(s.offset, ContainerCentre(s.containerSize), newScale / s.scale), newScale, s.containerSize, s.imageSize)
    ensures var r := Zoom(s, zoomFactor);
      var c := ContainerCentre(s.containerSize);
      MapContent.TapToImage(c, r.offset, r.scale) == MapContent.TapToImage(c, s.offset, s.scale)
  {
    var newScale := CoerceIn(s.scale * zoomFactor, MinScale, MaxScale);
    var c := ContainerCentre(s.containerSize);
    var proposed := ZoomAbout(s.offset, c, newScale / s.scale);
    ZoomUnclamped(s, zoomFactor, newScale, proposed);
    ZoomAboutFixesCentroid(s.offset, c, s.scale, newScale);
  }

  /** Zooming in and then out (or out and then in) from a scale well inside the bounds,
      without clamping, gives back the scale. */
  lemma ZoomInOutRestoresScale(s: MapUiState)
    requires s.isInitialized && MinScale * ZoomInFactor <= s.scale <= MaxScale * ZoomOutFactor
    ensures Zoom(Zoom(s, ZoomInFactor), ZoomOutFactor).scale == s.scale
    ensures Zoom(Zoom(s, ZoomOutFactor), ZoomInFactor).scale == s.scale
  {
  }

  // ---------------------------------------------------------------------------
  // The POI list

  /** `onTogglePoiList`. */
  function TogglePoiList(s: MapUiState): (r: MapUiState)
    ensures r.isPoiListVisible != s.isPoiListVisible
    ensures r == s.(isPoiListVisible := r.isPoiListVisible)
  {
    s.(isPoiListVisible := !s.isPoiListVisible)
  }

  lemma TogglePoiListTwiceIsIdentity(s: MapUiState)
    ensures TogglePoiList(TogglePoiList(s)) == s
  {
  }

  /** The offset that draws image point `p` at the centre of the container at `scale`. */
  function CentreOn(p: Offset, scale: real, containerSize: IntSize): (o: Offset)
    ensures MapContent.PinOnScreen(p, scale, o) == ContainerCentre(containerSize)
  {
    Offset(containerSize.width as real / 2.0 - p.x * scale, containerSize.height as real / 2.0 - p.y * scale)
  }

  /** `onPoiSelectedFromList`: select the POI, hide the list, zoom to at least 2 and bring
      the POI to the centre as far as the clamp allows. Ignored before initialisation. */
  function SelectFromList(s: MapUiState, poi: Poi): (r: MapUiState)
    ensures !s.isInitialized ==> r == s
    ensures s.isInitialized ==>
      && r.selectedPoi == Some(poi) && !r.isPoiListVisible
      && r.scale == CoerceAtLeast(s.scale, 2.0) && r.scale >= 2.0 && r.scale >= s.scale
      && r.offset == ClampOffset(CentreOn(PositionOnImage(poi), r.scale, s.containerSize), r.scale, s.containerSize, s.imageSize)
      && r == s.(selectedPoi := r.selectedPoi, isPoiListVisible := false, scale := r.scale, offset := r.offset)
  {
    if !s.isInitialized then s
    else
      var targetScale := CoerceAtLeast(s.scale, 2.0);
      var targetOffset := CentreOn(PositionOnImage(poi), targetScale, s.containerSize);
      s.(selectedPoi := Some(poi), isPoiListVisible := false, scale := targetScale,
         offset := ClampOffset(targetOffset, targetScale, s.containerSize, s.imageSize))
  }

  /** When no clamping is needed, a POI picked from the list is drawn at the centre. */
  lemma SelectedPoiIsCentred(s: MapUiState, poi: Poi)
    requires s.isInitialized
    requires var k := CoerceAtLeast(s.scale, 2.0);
      InBounds(CentreOn(PositionOnImage(poi), k, s.containerSize), k, s.containerSize, s.imageSize)
    ensures var r := SelectFromList(s, poi);
      MapContent.PinOnScreen(PositionOnImage(poi), r.scale, r.offset) == ContainerCentre(s.containerSize)
  {
  }

  // ---------------------------------------------------------------------------
  // Selecting and editing a POI

  /** `onAddPoi`: start editing a new, untitled POI at an image position. */
  function AddPoiAt(s: MapUiState, position: Offset): (r: MapUiState)
    ensures r.mode == EditPoi && r.selectedPoi.Some?
    ensures var p := r.selectedPoi.value;
      p.id == "" && p.title == "" && p.emoji == "" && p.description == "" && PositionOnImage(p) == position
    ensures r == s.(selectedPoi := r.selectedPoi, mode := EditPoi)
  {
    s.(selectedPoi := Some(PoiFromOffset(title := "", emoji := "", positionOnImage := position)), mode := EditPoi)
  }

  /** The tap detector is restarted only when the mode changes, so a tap is converted with
      the scale and offset `captured` when the add mode was entered. While the viewport is
      still the captured one, the new POI is drawn exactly under the tap. */
  lemma TappedPoiAppearsUnderTap(captured: MapUiState, s: MapUiState, tap: Offset)
    requires s.mode == AddPoi && captured.scale > 0.0
    requires s.scale == captured.scale && s.offset == captured.offset
    ensures var req := MapContent.TapRequest(s.mode, tap, captured.offset, captured.scale);
      req.Some? &&
      var r := AddPoiAt(s, req.value);
      MapContent.PinOnScreen(PositionOnImage(r.selectedPoi.value), s.scale, s.offset) == tap
  {
  }

  /** After a pan that left the scale alone, a tap converted with the captured viewport puts
      the new POI away from the finger by exactly that pan. */
  lemma TappedPoiShiftsByPanSinceCapture(captured: MapUiState, s: MapUiState, tap: Offset)
    requires s.mode == AddPoi && captured.scale > 0.0 && s.scale == captured.scale
    ensures var req := MapContent.TapRequest(s.mode, tap, captured.offset, captured.scale);
      req.Some? &&
      var r := AddPoiAt(s, req.value);
      MapContent.PinOnScreen(PositionOnImage(r.selectedPoi.value), s.scale, s.offset)
        == tap.Plus(s.offset.Minus(captured.offset))
  {
    var p := MapContent.TapToImage(tap, captured.offset, captured.scale);
    assert p.x * s.scale == tap.x - captured.offset.x;
    assert p.y * s.scale == tap.y - captured.offset.y;
  }

  /** `onPoiClicked`: select the POI and drop any pending image upload indicator. */
  function PoiClicked(s: MapUiState, poi: Poi): (r: MapUiState)
    ensures r.selectedPoi == Some(poi) && !r.isLoadingImage
    ensures r == s.(selectedPoi := Some(poi), isLoadingImage := false)
  {
    s.(selectedPoi := Some(poi), isLoadingImage := false)
  }

  /** The text fields of a POI the detail panel edits. */
  datatype PoiField = Title | Emoji | Description | IconName | ColorHex

  function GetField(p: Poi, f: PoiField): string {
    match f
    case Title => p.title
    case Emoji => p.emoji
    case Description => p.description
    case IconName => p.iconName
    case ColorHex => p.colorHex
  }

  /** A copy of `p` with one text field replaced; the id, position, image and every other
      text field are kept. */
  function SetField(p: Poi, f: PoiField, value: string): (q: Poi)
    ensures GetField(q, f) == value
    ensures forall g :: g != f ==> GetField(q, g) == GetField(p, g)
    ensures q.id == p.id && q.positionX == p.positionX && q.positionY == p.positionY && q.imageUrl == p.imageUrl
  {
    match f
    case Title => p.(title := value)
    case Emoji => p.(emoji := value)
    case Description => p.(description := value)
    case IconName => p.(iconName := value)
    case ColorHex => p.(colorHex := value)
  }

  /** A POI is determined by its id, position, image and text fields. */
  lemma PoiDeterminedByFields(p: Poi, q: Poi)
    requires p.id == q.id && p.positionX == q.positionX && p.positionY == q.positionY && p.imageUrl == q.imageUrl
    requires forall f :: GetField(p, f) == GetField(q, f)
    ensures p == q
  {
    assert GetField(p, Title) == GetField(q, Title);
    assert GetField(p, Emoji) == GetField(q, Emoji);
    assert GetField(p, Description) == GetField(q, Description);
    assert GetField(p, IconName) == GetField(q, IconName);
    assert GetField(p, ColorHex) == GetField(q, ColorHex);
  }

  /** Setting a field to the value it already has changes nothing; setting it twice keeps
      the second value. */
  lemma SetFieldLaws(p: Poi, f: PoiField, v: string, w: string)
    ensures SetField(p, f, GetField(p, f)) == p
    ensures SetField(SetField(p, f, v), f, w) == SetField(p, f, w)
  {
    PoiDeterminedByFields(SetField(p, f, GetField(p, f)), p);
    PoiDeterminedByFields(SetField(SetField(p, f, v), f, w), SetField(p, f, w));
  }

  /** The field setters (`onPoiTitleChanged`, `onEmojiChanged`, ...): edit one field of the
      selected POI; with no POI selected, nothing changes. */
  function EditSelected(s: MapUiState, f: PoiField, value: string): (r: MapUiState)
    ensures r == s.(selectedPoi := r.selectedPoi)
    ensures r.selectedPoi.Some? <==> s.selectedPoi.Some?
    ensures r.selectedPoi.Some? ==> r.selectedPoi.value == SetField(s.selectedPoi.value, f, value)
    ensures s.selectedPoi.None? ==> r == s
  {
    match s.selectedPoi
    case None => s
    case Some(p) => s.(selectedPoi := Some(SetField(p, f, value)))
  }

  /** Editing one field never disturbs another: the other fields read the same afterwards. */
  lemma EditSelectedOnlyTouchesItsField(s: MapUiState, f: PoiField, value: string, g: PoiField)
    requires s.selectedPoi.Some? && g != f
    ensures GetField(EditSelected(s, f, value).selectedPoi.value, g) == GetField(s.selectedPoi.value, g)
    ensures GetField(EditSelected(s, f, value).selectedPoi.value, f) == value
  {
  }

  /** The document write the view model asks of the POI repository. */
  datatype PoiWrite = AddDoc(poi: Poi) | UpdateDoc(poi: Poi) | DeleteDoc(id: string)

  /** Closing the editor: no selection, no upload indicator, back to viewing. */
  function CloseEditor(s: MapUiState): (r: MapUiState)
    ensures r.selectedPoi == None && !r.isLoadingImage && r.mode == View
    ensures r == s.(selectedPoi := None, isLoadingImage := false, mode := View)
  {
    s.(selectedPoi := None, isLoadingImage := false, mode := View)
  }

  /** What `onConfirmChanges` saves: a POI without an id is added, one with an id updated;
      with no POI selected nothing is saved. */
  function ConfirmWrite(s: MapUiState): (w: Option<PoiWrite>)
    ensures w.None? <==> s.selectedPoi.None?
    ensures w.Some? ==> (w.value.AddDoc? <==> IsBlank(s.selectedPoi.value.id))
    ensures w.Some? ==> !w.value.DeleteDoc? && w.value.poi == s.selectedPoi.value
  {
    match s.selectedPoi
    case None => None
    case Some(p) => if IsBlank(p.id) then Some(AddDoc(p)) else Some(UpdateDoc(p))
  }

  /** The state after `onConfirmChanges`: the editor closes once the write is done; with no
      POI selected the state is left alone. */
  function Confirmed(s: MapUiState): (r: MapUiState)
    ensures s.selectedPoi.None? ==> r == s
    ensures s.selectedPoi.Some? ==> r == CloseEditor(s)
  {
    if s.selectedPoi.None? then s else CloseEditor(s)
  }

  /** Confirm and cancel both end the edit with nothing selected in the view mode. */
  lemma ConfirmAndCancelCloseTheEditor(s: MapUiState)
    requires s.selectedPoi.Some?
    ensures Confirmed(s) == CloseEditor(s)
    ensures Confirmed(s).selectedPoi == None && !Confirmed(s).isLoadingImage && Confirmed(s).mode == View
  {
  }

  /** `onPoiMoved`: the moved POI is saved with its new coordinates; nothing else about it changes. */
  function MoveWrite(poi: Poi, newPosition: Offset): (w: PoiWrite)
    ensures w.UpdateDoc? && PositionOnImage(w.poi) == newPosition
    ensures forall f :: GetField(w.poi, f) == GetField(poi, f)
    ensures w.poi.id == poi.id && w.poi.imageUrl == poi.imageUrl
  {
    UpdateDoc(poi.(positionX := newPosition.x, positionY := newPosition.y))
  }

  /** `onDeletePoi`'s state change, applied once the delete was sent. */
  function Deleted(s: MapUiState): (r: MapUiState)
    ensures r.selectedPoi == None && r.mode == View
    ensures r == s.(selectedPoi := None, mode := View)
  {
    s.(mode := View, selectedPoi := None)
  }

  /** What the backend says about the signed-in user's role. */
  datatype RoleLookup = NoSignedInUser | LookupFailed | RoleDocument(role: Option<string>)

  /** `fetchUserRole`'s state change: only a stored role of "admin" makes the user an admin;
      no user, a failed lookup or any other role means not an admin. */
  function RoleFetched(s: MapUiState, lookup: RoleLookup): (r: MapUiState)
    ensures r.isUserAdmin <==> lookup == RoleDocument(Some("admin"))
    ensures r == s.(isUserAdmin := r.isUserAdmin)
  {
    match lookup
    case NoSignedInUser => s.(isUserAdmin := false)
    case LookupFailed => s.(isUserAdmin := false)
    case RoleDocument(role) => s.(isUserAdmin := role == Some("admin"))
  }

  // ---------------------------------------------------------------------------
  // The view model

  /** `MapViewModel`: holds the current `MapUiState` and replaces it on every event. */
  class MapViewModel {
    var uiState: MapUiState

    /** The scale stays positive, so the zoom ratio (new scale over current scale) is defined. */
    predicate Valid()
      reads this
    {
      uiState.scale > 0.0
    }

    constructor ()
      ensures Valid() && uiState == InitialState
      ensures uiState.mode == View && uiState.pois == [] && uiState.selectedPoi == None
      ensures !uiState.isUserAdmin && !uiState.isLoadingImage && !uiState.isInitialized && !uiState.isPoiListVisible
      ensures uiState.scale == 1.0 && uiState.offset == Zero
      ensures uiState.containerSize == IntSize(0, 0) && uiState.imageSize == Size(0.0, 0.0)
    {
      uiState := InitialState;
    }

    method OnMapSizeChanged(newContainerSize: IntSize, newImageSize: Size)
      requires Valid()
      modifies this
      ensures Valid()
      ensures uiState == SizeChanged(old(uiState), newContainerSize, newImageSize)
    {
      if !Degenerate(newContainerSize, newImageSize) && !uiState.isInitialized {
        NonDegenerateSizesHavePositiveCoverScale(newContainerSize, newImageSize);
      }
      uiState := SizeChanged(uiState, newContainerSize, newImageSize);
    }

    method OnMapTransform(centroid: Offset, pan: Offset, zoom: real)
      requires Valid()
      modifies this
      ensures Valid()
      ensures uiState == Transform(old(uiState), centroid, pan, zoom)
      ensures old(uiState).isInitialized ==> MinScale <= uiState.scale <= MaxScale
    {
      uiState := Transform(uiState, centroid, pan, zoom);
    }

    method OnZoomIn()
      requires Valid()
      modifies this
      ensures Valid()
      ensures uiState == Zoom(old(uiState), ZoomInFactor)
      ensures old(uiState).isInitialized ==> MinScale <= uiState.scale <= MaxScale
    {
      uiState := Zoom(uiState, ZoomInFactor);
    }

    method OnZoomOut()
      requires Valid()
      modifies this
      ensures Valid()
      ensures uiState == Zoom(old(uiState), ZoomOutFactor)
      ensures old(uiState).isInitialized ==> MinScale <= uiState.scale <= MaxScale
    {
      uiState := Zoom(uiState, ZoomOutFactor);
    }

    method OnTogglePoiList()
      requires Valid()
      modifies this
      ensures Valid()
      ensures uiState == TogglePoiList(old(uiState))
    {
      uiState := TogglePoiList(uiState);
    }

    method OnPoiSelectedFromList(poi: Poi)
      requires Valid()
      modifies this
      ensures Valid()
      ensures uiState == SelectFromList(old(uiState), poi)
    {
      uiState := SelectFromList(uiState, poi);
    }

    /** A new list of POIs from the live collection. */
    method OnPoisReceived(pois: seq<Poi>)
      requires Valid()
      modifies this
      ensures Valid()
      ensures uiState == old(uiState).(pois := pois)
    {
      uiState := uiState.(pois := pois);
    }

    method OnUserRoleFetched(lookup: RoleLookup)
      requires Valid()
      modifies this
      ensures Valid()
      ensures uiState == RoleFetched(old(uiState), lookup)
    {
      uiState := RoleFetched(uiState, lookup);
    }

    method OnAddPoi(position: Offset)
      requires Valid()
      modifies this
      ensures Valid()
      ensures uiState == AddPoiAt(old(uiState), position)
    {
      uiState := AddPoiAt(uiState, position);
    }

    /** Returns the delete asked of the repository; the state change follows it. */
    method OnDeletePoi(poiToDelete: Poi) returns (write: PoiWrite)
      requires Valid()
      modifies this
      ensures Valid()
      ensures write == DeleteDoc(poiToDelete.id)
      ensures uiState == Deleted(old(uiState))
    {
      write := DeleteDoc(poiToDelete.id);
      uiState := Deleted(uiState);
    }

    method OnPoiClicked(poi: Poi)
      requires Valid()
      modifies this
      ensures Valid()
      ensures uiState == PoiClicked(old(uiState), poi)
    {
      uiState := PoiClicked(uiState, poi);
    }

    /** Returns the update asked of the repository; the state does not change. */
    method OnPoiMoved(poi: Poi, newPosition: Offset) returns (write: PoiWrite)
      ensures write == MoveWrite(poi, newPosition)
    {
      write := MoveWrite(poi, newPosition);
    }

    method OnPoiTitleChanged(newTitle: string)
      requires Valid()
      modifies this
      ensures Valid()
      ensures uiState == EditSelected(old(uiState), Title, newTitle)
    {
      uiState := EditSelected(uiState, Title, newTitle);
    }

    method OnEmojiChanged(newEmoji: string)
      requires Valid()
      modifies this
      ensures Valid()
      ensures uiState == EditSelected(old(uiState), Emoji, newEmoji)
    {
      uiState := EditSelected(uiState, Emoji, newEmoji);
    }

    method OnPoiDescriptionChanged(newDescription: string)
      requires Valid()
      modifies this
      ensures Valid()
      ensures uiState == EditSelected(old(uiState), Description, newDescription)
    {
      uiState := EditSelected(uiState, Description, newDescription);
    }

    method OnIconChanged(newIconName: string)
      requires Valid()
      modifies this
      ensures Valid()
      ensures uiState == EditSelected(old(uiState), IconName, newIconName)
    {
      uiState := EditSelected(uiState, IconName, newIconName);
    }

    method OnColorChanged(newColorHex: string)
      requires Valid()
      modifies this
      ensures Valid()
      ensures uiState == EditSelected(old(uiState), ColorHex, newColorHex)
    {
      uiState := EditSelected(uiState, ColorHex, newColorHex);
    }

    /** Returns the add or update asked of the repository (none when nothing is selected). */
    method OnConfirmChanges() returns (write: Option<PoiWrite>)
      requires Valid()
      modifies this
      ensures Valid()
      ensures write == ConfirmWrite(old(uiState))
      ensures uiState == Confirmed(old(uiState))
    {
      write := ConfirmWrite(uiState);
      uiState := Confirmed(uiState);
    }

    method OnCancelChanges()
      requires Valid()
      modifies this
      ensures Valid()
      ensures uiState == CloseEditor(old(uiState))
    {
      uiState := CloseEditor(uiState);
    }

    /** The four mode setters (`onEnterAddPoiMode`, `onEnterDeletePoiMode`,
        `onEnterEditMode`, `onEnterViewMode`). */
    method OnEnterMode(mode: MapMode)
      requires Valid()
      modifies this
      ensures Valid()
      ensures uiState == old(uiState).(mode := mode)
    {
      uiState := uiState.(mode := mode);
    }
  }
}
