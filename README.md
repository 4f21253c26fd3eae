# Interactive museum guide — a Dafny model of its map and sign-in logic

GuiaInteractiva is an Android museum guide. It shows a zoomable floor plan with points of
interest (POIs) on it. Admin users can add, edit, move and delete POIs. This project models
the parts of the app that carry logic, and proves properties about them:

- **Map viewport and editing state** (`map_state.dfy`, module `MapState`). The screen's
  `MapUiState` record holds the scale and offset of the floor plan inside its container,
  the interaction mode, the selected POI and the list panel. Every event replaces that
  record by a modified copy. The modules' pure functions compute the copies. The
  `MapViewModel` class holds the current copy and has one method per event.
- **Sign-in and registration** (`login.dfy`, module `Login`). This covers the ordered input
  checks, the employee-code gate for admin accounts and the mapping from backend failures
  to messages. It also covers the loading flag around each backend operation.
- **Coordinate conversion and pin dragging** (`map_content.dfy`, module `MapContent`).
  A tap becomes an image position, and an image position becomes a pin's place on screen.
  While a pin is dragged, its remembered position accumulates the finger's movement.
- **The POI record** (`poi.dfy`, module `PoiModel`). This covers its defaults, the
  secondary constructor from an offset and the derived `positionOnImage`.
- **Icon and colour tables** (`icons.dfy`, module `IconPicker`). This covers the icon
  lookup with its fallback, the palette, and which picker entry is drawn as selected.

Two small support modules hold the Kotlin and Compose pieces these rely on.
`kotlin_std.dfy` has nullable values, `isBlank`, `coerceIn`, `coerceAtLeast` and `maxOf`.
`geometry.dfy` has `Offset`, `IntSize` and `Size`.

Kotlin `Float` and `Double` are modelled as `real`, so the viewport is exact arithmetic.

The backend is a hosted authentication service, document store and file store. It does not
appear as code. Each backend answer is a parameter of the operation that waits for it.
Each request the app sends is a value: the login view model records its requests, and the
map view model's methods return the repository write they ask for.

Two points where the source does not agree with itself:
- The `Poi` record declares no `iconName`, `colorHex` or `imageUrl`, yet the view model and
  the pin read and copy them. The model's `Poi` has them. The first two are strings that
  default to `""`, and `imageUrl` is an optional string that defaults to none. The source
  declares no defaults, so these are choices of the model.
- `createUser` takes a `role`, but the registration screen calls it without one. The model
  follows the view model's signature.

## Model

| member | source | states |
|---|---|---|
| `KotlinStd.IsWhitespace` | app/src/main/java/com/example/guiainteractiva/ui/login/LoginViewModel.kt:35 | the characters `isBlank` skips: the JVM's whitespace and space characters |
| `KotlinStd.IsBlank` | app/src/main/java/com/example/guiainteractiva/ui/login/LoginViewModel.kt:35 | `isBlank`: every character of the string is whitespace (so the empty string is blank) |
| `KotlinStd.IsNullOrBlank` | app/src/main/java/com/example/guiainteractiva/ui/login/LoginViewModel.kt:105 | `isNullOrBlank`: no string at all, or a blank one |
| `KotlinStd.CoerceIn` | app/src/main/java/com/example/guiainteractiva/ui/map/MapViewModel.kt:138 | `coerceIn` needs a non-empty range and returns the point of the range nearest to its argument |
| `KotlinStd.CoerceInIdempotent` | app/src/main/java/com/example/guiainteractiva/ui/map/MapViewModel.kt:138 | coercing a value already coerced into the same range leaves it unchanged |
| `KotlinStd.MaxOf` | app/src/main/java/com/example/guiainteractiva/ui/map/MapViewModel.kt:70 | `maxOf` is at least both arguments and equals one of them |
| `KotlinStd.CoerceAtLeast` | app/src/main/java/com/example/guiainteractiva/ui/map/MapViewModel.kt:160 | the result is at least the bound and at least the argument, and equals whichever is larger |
| `PoiModel.NewPoi` | app/src/main/java/com/example/guiainteractiva/model/Poi.kt:11-21 | the primary constructor keeps every argument; the presentation fields start empty with no image |
| `PoiModel.DefaultPoiIsEmpty` | app/src/main/java/com/example/guiainteractiva/model/Poi.kt:12-20 | a default POI has an empty id, title, description and emoji and sits at (0, 0) |
| `PoiModel.PositionOnImage` | app/src/main/java/com/example/guiainteractiva/model/Poi.kt:24-26 | the derived offset is (positionX, positionY) |
| `PoiModel.PositionOnImageOnlyReadsCoordinates` | app/src/main/java/com/example/guiainteractiva/model/Poi.kt:24-26 | two POIs have the same position on the image exactly when their stored coordinates agree |
| `PoiModel.PoiFromOffset` | app/src/main/java/com/example/guiainteractiva/model/Poi.kt:29-41 | the secondary constructor keeps id, title, description and emoji, stores the offset's x and y, and `positionOnImage` gives the offset back |
| `PoiModel.PositionRoundTrip` | app/src/main/java/com/example/guiainteractiva/model/Poi.kt:24-41 | rebuilding a POI from its own position keeps its coordinates |
| `IconPicker.GetIcon` | app/src/main/java/com/example/guiainteractiva/ui/components/IconAndColorPicker.kt:46-48 | a registered name gives its table entry; any other name gives the location pin |
| `IconPicker.IconNamesAreTheTable` | app/src/main/java/com/example/guiainteractiva/ui/components/IconAndColorPicker.kt:37-44 | the picker's name list is exactly the table's names, each once |
| `IconPicker.RegisteredIcons` | app/src/main/java/com/example/guiainteractiva/ui/components/IconAndColorPicker.kt:37-47 | each of the six names yields its own icon |
| `IconPicker.IconTableInjective` | app/src/main/java/com/example/guiainteractiva/ui/components/IconAndColorPicker.kt:37-44 | distinct registered names yield distinct icons |
| `IconPicker.UnknownNameFallsBackToLocationOn` | app/src/main/java/com/example/guiainteractiva/ui/components/IconAndColorPicker.kt:47 | an unregistered name yields the same icon as "location_on" |
| `IconPicker.PaletteWellFormed` | app/src/main/java/com/example/guiainteractiva/ui/components/IconAndColorPicker.kt:53-60 | the palette has exactly six distinct `#RRGGBB` strings |
| `IconPicker.PickerRow` | app/src/main/java/com/example/guiainteractiva/ui/components/IconAndColorPicker.kt:80-81 | a row lists its keys in order, and an entry is selected exactly when its key equals the current selection |
| `IconPicker.AtMostOneSelected` | app/src/main/java/com/example/guiainteractiva/ui/components/IconAndColorPicker.kt:112 | over distinct keys at most one entry is selected, and one is selected exactly when the selection is a key |
| `IconPicker.IconRowSelection` | app/src/main/java/com/example/guiainteractiva/ui/components/IconAndColorPicker.kt:80-81 | the icon row selects at most one icon, and one exactly when the current name is registered |
| `IconPicker.ColorRowSelection` | app/src/main/java/com/example/guiainteractiva/ui/components/IconAndColorPicker.kt:111-112 | the colour row selects at most one colour, and one exactly when the current hex is in the palette |
| `MapContent.TapToImage` | app/src/main/java/com/example/guiainteractiva/ui/map/MapContent.kt:67 | the tapped image point, drawn at the current scale and offset, lands on the tap |
| `MapContent.PinOnScreen` | app/src/main/java/com/example/guiainteractiva/ui/map/MapContent.kt:103 | for a non-zero scale, converting the pin's screen point back gives its image position |
| `MapContent.TapThenPin` | app/src/main/java/com/example/guiainteractiva/ui/map/MapContent.kt:67-103 | a pin placed at a tap's image point is drawn exactly at the tap |
| `MapContent.PinThenTap` | app/src/main/java/com/example/guiainteractiva/ui/map/MapContent.kt:67-103 | tapping where a pin is drawn gives the pin's image position |
| `MapContent.TapRequest` | app/src/main/java/com/example/guiainteractiva/ui/map/MapContent.kt:63-70 | a tap asks for a new POI exactly in the add mode, and at the image point under the tap |
| `MapContent.IsBeingDragged` | app/src/main/java/com/example/guiainteractiva/ui/map/MapContent.kt:92 | a pin is the dragged one when the dragged POI has its id |
| `MapContent.DragStep` | app/src/main/java/com/example/guiainteractiva/ui/map/MapContent.kt:112 | a drag step of d screen pixels moves the pin's drawn position by exactly d, whatever the offset |
| `MapContent.DragAll` | app/src/main/java/com/example/guiainteractiva/ui/map/MapContent.kt:112 | the image position after the drag steps in order; `DragMovesPinByFingerTotal` states what it does |
| `MapContent.DragMovesPinByFingerTotal` | app/src/main/java/com/example/guiainteractiva/ui/map/MapContent.kt:112 | a drag split into any number of steps moves the pin on screen by the sum of the steps |
| `MapContent.PinLayer.constructor` | app/src/main/java/com/example/guiainteractiva/ui/map/MapContent.kt:48 | no pin is dragged, no position is remembered and no tap detector has started |
| `MapContent.PinLayer.RememberPin` | app/src/main/java/com/example/guiainteractiva/ui/map/MapContent.kt:93 | on a pin's first composition its position starts at its POI's image position; later compositions under the same key keep it |
| `MapContent.PinLayer.PinOffset` | app/src/main/java/com/example/guiainteractiva/ui/map/MapContent.kt:103 | the pin is drawn where its remembered image position maps to |
| `MapContent.PinLayer.RestartTapDetector` | app/src/main/java/com/example/guiainteractiva/ui/map/PoiPin.kt:47-56 | a (re)started tap detector captures whether its pin is being dragged at that moment; nothing else changes |
| `MapContent.PinLayer.OnPoiClick` | app/src/main/java/com/example/guiainteractiva/ui/map/MapContent.kt:110 | a click is passed on, unchanged, exactly when the pin was not being dragged at the moment its tap detector last started |
| `MapContent.PinLayer.OnDragStart` | app/src/main/java/com/example/guiainteractiva/ui/map/MapContent.kt:111 | the pin becomes the dragged one; positions do not change |
| `MapContent.PinLayer.OnDrag` | app/src/main/java/com/example/guiainteractiva/ui/map/MapContent.kt:112 | only on the dragged pin: its position moves by the drag over the scale and its drawn position by the drag; no other pin and not the dragged POI change |
| `MapContent.PinLayer.OnDragEnd` | app/src/main/java/com/example/guiainteractiva/ui/map/MapContent.kt:113-116 | only on the dragged pin: the POI is reported with its final image position and no pin is dragged any more |
| `MapState.ClampAxis` | app/src/main/java/com/example/guiainteractiva/ui/map/MapViewModel.kt:137-147 | an image longer than the container covers it, moving as little as possible from the wanted offset; a shorter one is centred with equal margins |
| `MapState.ClampOffset` | app/src/main/java/com/example/guiainteractiva/ui/map/MapViewModel.kt:131-149 | the offset is zero while the container or the image has no width; otherwise each axis is placed as `ClampAxis` states |
| `MapState.ClampOffsetIdempotent` | app/src/main/java/com/example/guiainteractiva/ui/map/MapViewModel.kt:131-149 | clamping an already clamped offset returns it unchanged |
| `MapState.InBoundsMeaning` | app/src/main/java/com/example/guiainteractiva/ui/map/MapViewModel.kt:137-147 | the clamp leaves an offset alone exactly when a longer image covers the container and a shorter one is centred, on each axis |
| `MapState.CoverScale` | app/src/main/java/com/example/guiainteractiva/ui/map/MapViewModel.kt:68-70 | the initial scale makes the image at least as large as the container on both axes, and exactly as large on one of them |
| `MapState.AsWrittenGuardAdmitsZeroHeight` | app/src/main/java/com/example/guiainteractiva/ui/map/MapViewModel.kt:60-69 | a 1080×1920 container with an 800×0 image passes the written guard, whose initial scale then divides by the zero height, and the corrected guard stops it |
| `MapState.NonDegenerateSizesHavePositiveCoverScale` | app/src/main/java/com/example/guiainteractiva/ui/map/MapViewModel.kt:60-70 | past the corrected guard both ratios are defined and the initial scale is positive |
| `MapState.DegenerateAsWritten` | app/src/main/java/com/example/guiainteractiva/ui/map/MapViewModel.kt:60 | the sizes the written guard only records: no container width or no image width |
| `MapState.Degenerate` | app/src/main/java/com/example/guiainteractiva/ui/map/MapViewModel.kt:60-69 | the sizes the first initialisation must skip: those of the written guard and a zero image height |
| `MapState.SizeChanged` | app/src/main/java/com/example/guiainteractiva/ui/map/MapViewModel.kt:58-87 | sizes without a width are only recorded; the first proper size (also with a non-zero image height) initialises the viewport at the cover scale; once initialised the scale is kept and the offset is re-clamped |
| `MapState.InitialisedViewportReclampsZeroHeight` | app/src/main/java/com/example/guiainteractiva/ui/map/MapViewModel.kt:79-85 | once initialised, a size with a width but a zero image height re-clamps the offset as the source does, which centres the flat image vertically |
| `MapState.FirstSizeCoversContainer` | app/src/main/java/com/example/guiainteractiva/ui/map/MapViewModel.kt:67-78 | the first proper size sets the cover scale, covers the container on both axes, shows the image from offset zero and marks the viewport initialised |
| `MapState.ZoomAbout` | app/src/main/java/com/example/guiainteractiva/ui/map/MapViewModel.kt:96 | the offset that keeps the image point under the centroid when the scale is multiplied by the ratio (its lemmas below) |
| `MapState.ZoomAboutAxis` | app/src/main/java/com/example/guiainteractiva/ui/map/MapViewModel.kt:96 | on one axis, zooming about a point and panning keeps the image coordinate under the moved point |
| `MapState.ZoomAboutKeepsPointUnderFingers` | app/src/main/java/com/example/guiainteractiva/ui/map/MapViewModel.kt:95-96 | before clamping, the image point under the centroid ends up under the centroid moved by the pan |
| `MapState.Transform` | app/src/main/java/com/example/guiainteractiva/ui/map/MapViewModel.kt:90-103 | ignored before initialisation; afterwards the scale is the old scale times the zoom coerced into [0.5, 5], the offset is the clamp of the old offset zoomed about the centroid by the scale ratio and panned, and nothing else changes |
| `MapState.TransformKeepsPointUnderFingers` | app/src/main/java/com/example/guiainteractiva/ui/map/MapViewModel.kt:94-100 | when no clamping is needed, the gesture keeps the image point under the fingers |
| `MapState.Zoom` | app/src/main/java/com/example/guiainteractiva/ui/map/MapViewModel.kt:114-128 | ignored before initialisation; afterwards the scale is the old scale times the factor coerced into [0.5, 5], the offset is the clamp of the old offset zoomed about the container's centre, and nothing else changes |
| `MapState.ContainerCentre` | app/src/main/java/com/example/guiainteractiva/ui/map/MapViewModel.kt:119 | the centre of the container, half its width and half its height |
| `MapState.ZoomAboutFixesCentroid` | app/src/main/java/com/example/guiainteractiva/ui/map/MapViewModel.kt:119-121 | zooming about a point with no pan keeps the image point under that point |
| `MapState.ZoomUnclamped` | app/src/main/java/com/example/guiainteractiva/ui/map/MapViewModel.kt:118-125 | a button zoom whose zoomed offset needs no clamping takes the coerced scale and exactly that offset |
| `MapState.ZoomKeepsCentreFixed` | app/src/main/java/com/example/guiainteractiva/ui/map/MapViewModel.kt:118-125 | when no clamping is needed, a button zoom keeps the image point at the container's centre |
| `MapState.ZoomInOutRestoresScale` | app/src/main/java/com/example/guiainteractiva/ui/map/MapViewModel.kt:106-118 | zooming in then out, or out then in, from a scale inside the bounds gives the scale back |
| `MapState.TogglePoiList` | app/src/main/java/com/example/guiainteractiva/ui/map/MapViewModel.kt:152-154 | the list visibility flips and nothing else changes |
| `MapState.TogglePoiListTwiceIsIdentity` | app/src/main/java/com/example/guiainteractiva/ui/map/MapViewModel.kt:152-154 | toggling twice restores the state |
| `MapState.CentreOn` | app/src/main/java/com/example/guiainteractiva/ui/map/MapViewModel.kt:161-164 | the target offset draws the given image point at the container's centre |
| `MapState.SelectFromList` | app/src/main/java/com/example/guiainteractiva/ui/map/MapViewModel.kt:156-173 | ignored before initialisation; otherwise it selects the POI, hides the list, sets the scale to the larger of the old scale and 2, and clamps the offset that centres the POI at that scale |
| `MapState.SelectedPoiIsCentred` | app/src/main/java/com/example/guiainteractiva/ui/map/MapViewModel.kt:160-170 | when no clamping is needed, the POI picked from the list is drawn at the container's centre |
| `MapState.AddPoiAt` | app/src/main/java/com/example/guiainteractiva/ui/map/MapViewModel.kt:227-230 | a new POI with an empty id, title, description and emoji is selected at the given position, in the edit mode |
| `MapState.TappedPoiAppearsUnderTap` | app/src/main/java/com/example/guiainteractiva/ui/map/MapContent.kt:63-70 | a tap converted with the viewport captured on entering the add mode makes a POI drawn exactly under the tap, while the viewport is still the captured one |
| `MapState.TappedPoiShiftsByPanSinceCapture` | app/src/main/java/com/example/guiainteractiva/ui/map/MapContent.kt:57-70 | after a pan at the same scale since the add mode was entered, the new POI is drawn away from the tap by exactly that pan |
| `MapState.PoiClicked` | app/src/main/java/com/example/guiainteractiva/ui/map/MapViewModel.kt:239-241 | the POI is selected and the image-loading flag is cleared |
| `MapState.SetField` | app/src/main/java/com/example/guiainteractiva/ui/map/MapViewModel.kt:251-269 | one text field takes the new value; the others, the id, the position and the image stay as they were |
| `MapState.PoiDeterminedByFields` | app/src/main/java/com/example/guiainteractiva/ui/map/MapViewModel.kt:251-269 | two POIs with the same id, position, image and editable fields are equal, so the setters cover everything else |
| `MapState.SetFieldLaws` | app/src/main/java/com/example/guiainteractiva/ui/map/MapViewModel.kt:251-269 | writing a field's own value changes nothing, and the last of two writes wins |
| `MapState.EditSelected` | app/src/main/java/com/example/guiainteractiva/ui/map/MapViewModel.kt:251-269 | a field setter edits only the selected POI; with no POI selected nothing changes |
| `MapState.EditSelectedOnlyTouchesItsField` | app/src/main/java/com/example/guiainteractiva/ui/map/MapViewModel.kt:251-269 | after a setter the edited field has the new value and every other field reads as before |
| `MapState.CloseEditor` | app/src/main/java/com/example/guiainteractiva/ui/map/MapViewModel.kt:284-286 | nothing is selected, the image-loading flag is off and the mode is VIEW; nothing else changes |
| `MapState.ConfirmWrite` | app/src/main/java/com/example/guiainteractiva/ui/map/MapViewModel.kt:271-278 | confirming writes exactly when a POI is selected: an add when its id is blank, an update otherwise |
| `MapState.Confirmed` | app/src/main/java/com/example/guiainteractiva/ui/map/MapViewModel.kt:271-282 | with a POI selected the editor closes; with none the state is untouched |
| `MapState.ConfirmAndCancelCloseTheEditor` | app/src/main/java/com/example/guiainteractiva/ui/map/MapViewModel.kt:279-285 | confirm and cancel both end with nothing selected, the loading flag off and the mode VIEW |
| `MapState.MoveWrite` | app/src/main/java/com/example/guiainteractiva/ui/map/MapViewModel.kt:243-248 | a moved POI is updated at the new position with everything else kept |
| `MapState.Deleted` | app/src/main/java/com/example/guiainteractiva/ui/map/MapViewModel.kt:232-237 | after a delete nothing is selected and the mode is VIEW |
| `MapState.RoleFetched` | app/src/main/java/com/example/guiainteractiva/ui/map/MapViewModel.kt:184-199 | the user is an admin exactly when the stored role is "admin"; no user or a failed lookup means not an admin |
| `MapState.MapViewModel.constructor` | app/src/main/java/com/example/guiainteractiva/ui/map/MapViewModel.kt:25-42 | the view model starts from the default state: VIEW mode, no POIs, nothing selected, not an admin, no loading, scale 1, offset and sizes zero, not initialised, list hidden |
| `MapState.MapViewModel.OnMapSizeChanged` | app/src/main/java/com/example/guiainteractiva/ui/map/MapViewModel.kt:58-87 | the state becomes `SizeChanged` of the old one, and the scale stays positive |
| `MapState.MapViewModel.OnMapTransform` | app/src/main/java/com/example/guiainteractiva/ui/map/MapViewModel.kt:90-103 | the state becomes `Transform` of the old one; once initialised the scale lies in [0.5, 5] |
| `MapState.MapViewModel.OnZoomIn` | app/src/main/java/com/example/guiainteractiva/ui/map/MapViewModel.kt:106-108 | zoom by 1.2 about the centre; once initialised the scale lies in [0.5, 5] |
| `MapState.MapViewModel.OnZoomOut` | app/src/main/java/com/example/guiainteractiva/ui/map/MapViewModel.kt:110-112 | zoom by 1/1.2 about the centre; once initialised the scale lies in [0.5, 5] |
| `MapState.MapViewModel.OnTogglePoiList` | app/src/main/java/com/example/guiainteractiva/ui/map/MapViewModel.kt:152-154 | the state becomes `TogglePoiList` of the old one |
| `MapState.MapViewModel.OnPoiSelectedFromList` | app/src/main/java/com/example/guiainteractiva/ui/map/MapViewModel.kt:156-173 | the state becomes `SelectFromList` of the old one |
| `MapState.MapViewModel.OnPoisReceived` | app/src/main/java/com/example/guiainteractiva/ui/map/MapViewModel.kt:178-179 | a new POI list from the live collection replaces the list and nothing else |
| `MapState.MapViewModel.OnUserRoleFetched` | app/src/main/java/com/example/guiainteractiva/ui/map/MapViewModel.kt:184-199 | the state becomes `RoleFetched` of the old one |
| `MapState.MapViewModel.OnAddPoi` | app/src/main/java/com/example/guiainteractiva/ui/map/MapViewModel.kt:227-230 | the state becomes `AddPoiAt` of the old one |
| `MapState.MapViewModel.OnDeletePoi` | app/src/main/java/com/example/guiainteractiva/ui/map/MapViewModel.kt:232-237 | a delete of the POI's id is asked for and the state becomes `Deleted` of the old one |
| `MapState.MapViewModel.OnPoiClicked` | app/src/main/java/com/example/guiainteractiva/ui/map/MapViewModel.kt:239-241 | the state becomes `PoiClicked` of the old one |
| `MapState.MapViewModel.OnPoiMoved` | app/src/main/java/com/example/guiainteractiva/ui/map/MapViewModel.kt:243-248 | the update asked for is `MoveWrite`; the state is not touched |
| `MapState.MapViewModel.OnPoiTitleChanged` | app/src/main/java/com/example/guiainteractiva/ui/map/MapViewModel.kt:251-253 | only the selected POI's title changes |
| `MapState.MapViewModel.OnEmojiChanged` | app/src/main/java/com/example/guiainteractiva/ui/map/MapViewModel.kt:255-257 | only the selected POI's emoji changes |
| `MapState.MapViewModel.OnPoiDescriptionChanged` | app/src/main/java/com/example/guiainteractiva/ui/map/MapViewModel.kt:259-261 | only the selected POI's description changes |
| `MapState.MapViewModel.OnIconChanged` | app/src/main/java/com/example/guiainteractiva/ui/map/MapViewModel.kt:263-265 | only the selected POI's icon name changes |
| `MapState.MapViewModel.OnColorChanged` | app/src/main/java/com/example/guiainteractiva/ui/map/MapViewModel.kt:267-269 | only the selected POI's colour changes |
| `MapState.MapViewModel.OnConfirmChanges` | app/src/main/java/com/example/guiainteractiva/ui/map/MapViewModel.kt:271-282 | the write asked for is `ConfirmWrite` and the state becomes `Confirmed` of the old one |
| `MapState.MapViewModel.OnCancelChanges` | app/src/main/java/com/example/guiainteractiva/ui/map/MapViewModel.kt:284-286 | the state becomes `CloseEditor` of the old one |
| `MapState.MapViewModel.OnEnterMode` | app/src/main/java/com/example/guiainteractiva/ui/map/MapViewModel.kt:289-303 | each mode setter changes the mode and nothing else |
| `Login.FirebaseError` | app/src/main/java/com/example/guiainteractiva/ui/login/LoginViewModel.kt:131-148 | in order: the employee-code message passes through; the seven known codes give fixed messages; otherwise the failure's message, or the default text |
| `Login.AuthMessagesDistinct` | app/src/main/java/com/example/guiainteractiva/ui/login/LoginViewModel.kt:138-145 | distinct known codes give distinct messages |
| `Login.RaisedMessagesPassThrough` | app/src/main/java/com/example/guiainteractiva/ui/login/LoginViewModel.kt:81-87 | the view model's own failures reach the user with their message |
| `Login.LoginCheck` | app/src/main/java/com/example/guiainteractiva/ui/login/LoginViewModel.kt:35-38 | sign-in goes ahead exactly when neither field is blank; otherwise "fill in all fields" |
| `Login.RegisterCheck` | app/src/main/java/com/example/guiainteractiva/ui/login/LoginViewModel.kt:61-72 | blank fields, then different passwords, then a password under 8 characters; each message exactly when the checks before it pass and its own fails |
| `Login.ValidateEmployeeCode` | app/src/main/java/com/example/guiainteractiva/ui/login/LoginViewModel.kt:104-115 | false for a missing or blank input; otherwise true exactly when the stored code equals the input; false when the lookup fails |
| `Login.SignInEvent` | app/src/main/java/com/example/guiainteractiva/ui/login/LoginViewModel.kt:43-46 | a successful sign-in emits success; a failed one emits its mapped message |
| `Login.LoginRun` | app/src/main/java/com/example/guiainteractiva/ui/login/LoginViewModel.kt:34-51 | a blank field gives the message and sends nothing; otherwise one sign-in is sent and its answer decides the event |
| `Login.CaughtEvent` | app/src/main/java/com/example/guiainteractiva/ui/login/LoginViewModel.kt:94-97 | registration emits success exactly when the `try` block ends without an exception; otherwise the event is the caught exception's mapped message |
| `Login.CodeRequests` | app/src/main/java/com/example/guiainteractiva/ui/login/LoginViewModel.kt:104-109 | the employee-code check sends the lookup only for a filled-in code |
| `Login.Raised` | app/src/main/java/com/example/guiainteractiva/ui/login/LoginViewModel.kt:81-87 | an exception the view model throws itself: a message and no auth error code |
| `Login.RegisterFailure` | app/src/main/java/com/example/guiainteractiva/ui/login/LoginViewModel.kt:77-95 | the exception the `try` block ends with: a bad code for admins, then a failed or userless account creation, then a failed profile write; none on success |
| `Login.RegisterRequests` | app/src/main/java/com/example/guiainteractiva/ui/login/LoginViewModel.kt:77-91 | the requests the `try` block sends before it ends: the code lookup for admins, the account, and the profile when the account was created |
| `Login.RegisterRemote` | app/src/main/java/com/example/guiainteractiva/ui/login/LoginViewModel.kt:74-101 | the remote part of registration: those requests and the caught event; the lemmas below state its properties |
| `Login.RegisterRun` | app/src/main/java/com/example/guiainteractiva/ui/login/LoginViewModel.kt:53-102 | registration: a failing input check, or else the remote part; the lemmas below state what it sends and emits |
| `Login.RegisterCheckFailureStops` | app/src/main/java/com/example/guiainteractiva/ui/login/LoginViewModel.kt:61-72 | a failing input check emits its message, sends nothing and leaves the loading flag alone |
| `Login.AccountCreationNeedsValidInput` | app/src/main/java/com/example/guiainteractiva/ui/login/LoginViewModel.kt:61-86 | an account is only requested for non-blank fields, equal passwords of at least 8 characters, with that email and password |
| `Login.AdminNeedsValidCode` | app/src/main/java/com/example/guiainteractiva/ui/login/LoginViewModel.kt:78-83 | an admin registration with a bad code shows "Código de empleado incorrecto" and sends nothing but the code lookup |
| `Login.SavedProfileMatchesInput` | app/src/main/java/com/example/guiainteractiva/ui/login/LoginViewModel.kt:86-91 | a stored profile holds the typed email and the requested role, under the new account's id |
| `Login.RegisterSuccessMeansAccountAndProfile` | app/src/main/java/com/example/guiainteractiva/ui/login/LoginViewModel.kt:77-94 | success means the code (for admins) checked out, the account was created and its profile stored last |
| `Login.LoginViewModel.constructor` | app/src/main/java/com/example/guiainteractiva/ui/login/LoginViewModel.kt:28-32 | not loading, nothing emitted, nothing sent |
| `Login.LoginViewModel.SetLoading` | app/src/main/java/com/example/guiainteractiva/ui/login/LoginViewModel.kt:121-123 | the loading flag takes the value; events and requests are untouched |
| `Login.LoginViewModel.EmitEvent` | app/src/main/java/com/example/guiainteractiva/ui/login/LoginViewModel.kt:125-129 | the event is appended to those emitted |
| `Login.LoginViewModel.TryRegister` | app/src/main/java/com/example/guiainteractiva/ui/login/LoginViewModel.kt:76-95 | the `try` block sends the code lookup (admins only), the account creation and the profile write, stops at the first failure and returns that exception |
| `Login.LoginViewModel.Register` | app/src/main/java/com/example/guiainteractiva/ui/login/LoginViewModel.kt:74-101 | loading goes on, the `try` block runs, its outcome is emitted, and loading goes off in the `finally` |
| `Login.LoginViewModel.Send` | app/src/main/java/com/example/guiainteractiva/ui/login/LoginViewModel.kt:43 | a request is recorded with the loading flag as it is when sent; nothing else changes |
| `Login.LoginViewModel.CheckEmployeeCode` | app/src/main/java/com/example/guiainteractiva/ui/login/LoginViewModel.kt:104-115 | returns `ValidateEmployeeCode`, and sends the lookup only for a filled-in code |
| `Login.LoginViewModel.LogIn` | app/src/main/java/com/example/guiainteractiva/ui/login/LoginViewModel.kt:34-51 | emits `LoginRun`'s event, sends its requests while loading, and ends not loading when the remote part ran |
| `Login.LoginViewModel.CreateUser` | app/src/main/java/com/example/guiainteractiva/ui/login/LoginViewModel.kt:53-102 | emits `RegisterRun`'s event, sends its requests while loading, and ends not loading when the remote part ran |

## Left out

- The backend calls themselves (authentication, document store, file storage), `await` and the coroutines. Each answer is a parameter, each operation runs to its end in one step, and emitted events are appended in program order.
- `PoiRepository`: the model records the write the view model asks for. The repository skips an update or a delete with a blank id; that is not modelled.
- A failed add, update or delete in `onConfirmChanges` or `onDeletePoi` throws inside `viewModelScope.launch`, where nothing catches it. The exception reaches the thread's uncaught-exception handler, which ends the app on Android. The model always applies the state reset and has no crash.
- `onImageSelected`: an upload under random UUIDs. The model has no operation for it, so it does not capture the `isLoadingImage` flag going on and off around the upload.
- `listenToPois` appears only as the effect of one new list (`OnPoisReceived`). `fetchUserRole` appears only as the effect of its answer (`OnUserRoleFetched`). `signOut` is one SDK call and is not modelled.
- `ZoomableMapContent`'s `LaunchedEffect` that re-reads a pin's position when its POI moves is not modelled (MapContent.kt:97-101).
- Compose restarts a `pointerInput` block only when its keys change, so each gesture callback uses the values of the composition in which its detector last started. The pin's drag callbacks use the `scale` from when the drag began (PoiPin.kt:58); `OnDrag` takes the scale as a parameter. The pin's tap callbacks use the POI, the mode and the click guard of the composition in which the POI or the mode last changed (PoiPin.kt:47); `PinLayer.tapGuard` records that guard, and `OnDragStart` leaves it alone, so a tap after a long press has started a drag is still passed on.
- MapContent.PinLayer.RememberPin: looks positions up by POI id. The source composes the pins in a plain `forEach` without `key`, so Compose keeps each remembered position per slot of the POI list and only uses the id to decide when to re-read (MapContent.kt:91-93). When a POI is inserted, removed or moved in the list, the pins in the shifted slots re-read `positionOnImage`, which can reset a pin being dragged. The model does not capture this re-read; the same holds for `tapGuard`.
- MapState.TappedPoiAppearsUnderTap: holds only while the scale and offset are still those captured when the add mode was entered (MapContent.kt:63-70). The transform gestures stay active in that mode (MapContent.kt:57-62), so after a pan the new POI lands away from the finger. `MapState.TappedPoiShiftsByPanSinceCapture` states by how much.
- Gesture detection, the click dispatch of the map screen, colour parsing, pin-pixel rounding, density conversion, layout, theming, navigation and theme persistence: these are presentation or library code.
- Floating point: `Float` and `Double` are exact reals. Rounding, infinities and NaN are not modelled, and the `Double` to `Float` narrowing in `positionOnImage` is the identity here.
- `MapState.MapViewModel`: its methods require a positive scale, which the constructor sets up and every method keeps. The division by the current scale in the transform and zoom handlers needs it.
- String length and blankness follow Dafny's characters (Unicode scalar values). Kotlin counts UTF-16 units, so a password with characters outside the Basic Multilingual Plane has a different length. `isBlank` uses a fixed list of the JVM's whitespace code points.
- The picker rows are computed as lists of entries. The icon tint and colour parsing inside each row are not modelled.

## Findings

| source | as written | input that shows it | evidently intended | confidence | as-written member | corrected member |
|---|---|---|---|---|---|---|
| app/src/main/java/com/example/guiainteractiva/ui/map/MapViewModel.kt:60-69 | the guard before the first initialisation tests only the container width and the image width, then divides the container height by the image height | container 1080×1920 and image 800×0: the guard passes; in Kotlin `Float` the second ratio is +Infinity, so the initial scale is infinite and the clamped y offset is NaN | skip the first initialisation while the image height is zero, as for a zero width | low, not executed; the map screen passes the fixed drawable's intrinsic size, so this input does not arise in the app as it stands | `MapState.AsWrittenGuardAdmitsZeroHeight` | `MapState.NonDegenerateSizesHavePositiveCoverScale` |

In the model, `MapState.SizeChanged` only records the size when `MapState.DegenerateAsWritten`
holds, as the source does. The zero-height test of `MapState.Degenerate` applies only to the
first initialisation, the one branch that divides by the image height. An initialised
viewport re-clamps as the source does (`MapState.InitialisedViewportReclampsZeroHeight`).
`clampOffset` keeps its own width-only guard as written.
