/** The point-of-interest record stored per map marker, and the interaction modes of the map. */
module PoiModel {
  import opened KotlinStd
  import opened Geometry

  /** The map's interaction modes. */
  datatype MapMode = View | AddPoi | DeletePoi | EditPoi

  /** A point of interest. The position is kept as two doubles (the document store has no
      offset type); `iconName`, `colorHex` and `imageUrl` are the presentation fields the
      view model edits. */
  datatype Poi = Poi(
    id: string,
    title: string,
    description: string,
    emoji: string,
    positionX: real,
    positionY: real,
    iconName: string,
    colorHex: string,
    imageUrl: Option<string>
  )

  /** The primary constructor, with its default arguments. The three presentation fields
      take the empty string and no image. */
  function NewPoi(id: string := "", title: string := "", description: string := "",
                  emoji: string := "", positionX: real := 0.0, positionY: real := 0.0): (p: Poi)
    ensures p.id == id && p.title == title && p.description == description && p.emoji == emoji
    ensures p.positionX == positionX && p.positionY == positionY
    ensures p.iconName == "" && p.colorHex == "" && p.imageUrl == None
  {
    Poi(id, title, description, emoji, positionX, positionY, "", "", None)
  }

  /** The derived position on the image, as an offset. */
  function PositionOnImage(p: Poi): (o: Offset)
    ensures o.x == p.positionX && o.y == p.positionY
  {
    Offset(p.positionX, p.positionY)
  }

  /** The secondary constructor: a POI whose position is given as an offset on the image. */
  function PoiFromOffset(id: string := "", title: string, description: string := "",
                         emoji: string, positionOnImage: Offset): (p: Poi)
    ensures p.id == id && p.title == title && p.description == description && p.emoji == emoji
    ensures p.positionX == positionOnImage.x && p.positionY == positionOnImage.y
    ensures PositionOnImage(p) == positionOnImage
  {
    NewPoi(id := id, title := title, description := description, emoji := emoji,
           positionX := positionOnImage.x, positionY := positionOnImage.y)
  }

  /** A default POI is empty and sits at the image origin. */
  lemma DefaultPoiIsEmpty()
    ensures var p := NewPoi();
      p.id == "" && p.title == "" && p.description == "" && p.emoji == ""
      && p.positionX == 0.0 && p.positionY == 0.0 && PositionOnImage(p) == Zero
  {
  }

  /** `positionOnImage` depends on the two stored coordinates and on nothing else. */
  lemma PositionOnImageOnlyReadsCoordinates(p: Poi, q: Poi)
    ensures PositionOnImage(p) == PositionOnImage(q) <==> (p.positionX == q.positionX && p.positionY == q.positionY)
  {
  }

  /** Building a POI from the position of another POI reproduces that position. */
  lemma PositionRoundTrip(p: Poi)
    ensures var q := PoiFromOffset(p.id, p.title, p.description, p.emoji, PositionOnImage(p));
      q.positionX == p.positionX && q.positionY == p.positionY
  {
  }
}
