/** The icon and colour tables offered by the POI editor, the icon lookup with its fallback,
    and which entry of each picker row is shown as selected. */
module IconPicker {

  /** The six Material icons the application registers. */
  datatype Icon = LocationOn | Star | Favorite | Home | School | Restaurant

  /** The registered icon names, in the order the picker lists them. */
  const IconNames: seq<string> := ["location_on", "star", "favorite", "home", "school", "restaurant"]

  /** The icon provider's table from name to icon. */
  const Icons: map<string, Icon> := map[
    "location_on" := LocationOn,
    "star" := Star,
    "favorite" := Favorite,
    "home" := Home,
    "school" := School,
    "restaurant" := Restaurant
  ]

  /** The icon for a name: the registered one, or the location pin for any other name. */
  function GetIcon(name: string): (icon: Icon)
    ensures name in Icons ==> icon == Icons[name]
    ensures name !in Icons ==> icon == LocationOn
  {
    if name in Icons then Icons[name] else LocationOn
  }

  /** The colour palette, as `#RRGGBB` strings. */
  const Colors: seq<string> := ["#F44336", "#4CAF50", "#FFC107", "#2196F3", "#9C27B0", "#E91E63"]

  predicate IsHexDigit(c: char) {
    ('0' <= c <= '9') || ('A' <= c <= 'F') || ('a' <= c <= 'f')
  }

  /** A colour written `#RRGGBB`. */
  predicate IsHexColor(s: string) {
    |s| == 7 && s[0] == '#' && forall k :: 1 <= k < 7 ==> IsHexDigit(s[k])
  }

  /** No entry of a list occurs twice. */
  predicate Distinct(names: seq<string>) {
    forall i, j :: 0 <= i < j < |names| ==> names[i] != names[j]
  }

  /** One entry of a picker row: its key and whether it is drawn as selected. */
  datatype Choice = Choice(key: string, selected: bool)

  /** A picker row over `keys` with `current` as the current selection: an entry is
      marked selected exactly when its key equals the selection. */
  function PickerRow(keys: seq<string>, current: string): (row: seq<Choice>)
    ensures |row| == |keys|
    ensures forall i :: 0 <= i < |row| ==> row[i].key == keys[i]
    ensures forall i :: 0 <= i < |row| ==> (row[i].selected <==> keys[i] == current)
  {
    seq(|keys|, i requires 0 <= i < |keys| => Choice(keys[i], keys[i] == current))
  }

  /** The icon picker lists the table's names, each once. */
  lemma IconNamesAreTheTable()
    ensures Distinct(IconNames)
    ensures forall n :: n in IconNames <==> n in Icons
  {
  }

  /** Each of the six registered names yields its own icon. */
  lemma RegisteredIcons()
    ensures GetIcon("location_on") == LocationOn
    ensures GetIcon("star") == Star
    ensures GetIcon("favorite") == Favorite
    ensures GetIcon("home") == Home
    ensures GetIcon("school") == School
    ensures GetIcon("restaurant") == Restaurant
  {
  }

  /** Distinct registered names give distinct icons, so every icon has exactly one name. */
  lemma IconTableInjective(a: string, b: string)
    requires a in Icons && b in Icons && a != b
    ensures GetIcon(a) != GetIcon(b)
  {
  }

  /** An unregistered name draws the same icon as "location_on". */
  lemma UnknownNameFallsBackToLocationOn(name: string)
    requires name !in Icons
    ensures GetIcon(name) == GetIcon("location_on") == LocationOn
  {
  }

  /** The palette holds exactly six distinct well-formed colours. */
  lemma PaletteWellFormed()
    ensures |Colors| == 6
    ensures Distinct(Colors)
    ensures forall i :: 0 <= i < |Colors| ==> IsHexColor(Colors[i])
  {
  }

  /** In a row over distinct keys at most one entry is selected, and one is selected
      exactly when the current selection is one of the keys. */
  lemma AtMostOneSelected(keys: seq<string>, current: string)
    requires Distinct(keys)
    ensures forall i, j ::
      (0 <= i < |keys| && 0 <= j < |keys| && PickerRow(keys, current)[i].selected && PickerRow(keys, current)[j].selected)
      ==> i == j
    ensures (exists i :: 0 <= i < |keys| && PickerRow(keys, current)[i].selected) <==> current in keys
  {
    var row := PickerRow(keys, current);
    if current in keys {
      var k :| 0 <= k < |keys| && keys[k] == current;
      assert row[k].selected;
    }
  }

  /** The icon row selects at most one icon, and one exactly when the current name is registered. */
  lemma IconRowSelection(current: string)
    ensures var row := PickerRow(IconNames, current);
      (forall i, j :: 0 <= i < |row| && 0 <= j < |row| && row[i].selected && row[j].selected ==> i == j)
      && ((exists i :: 0 <= i < |row| && row[i].selected) <==> current in Icons)
  {
    IconNamesAreTheTable();
    AtMostOneSelected(IconNames, current);
  }

  /** The colour row selects at most one colour, and one exactly when the current hex is in the palette. */
  lemma ColorRowSelection(current: string)
    ensures var row := PickerRow(Colors, current);
      (forall i, j :: 0 <= i < |row| && 0 <= j < |row| && row[i].selected && row[j].selected ==> i == j)
      && ((exists i :: 0 <= i < |row| && row[i].selected) <==> current in Colors)
  {
    PaletteWellFormed();
    AtMostOneSelected(Colors, current);
  }
}
