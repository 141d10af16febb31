/**
 * The attraction records of attractions.json as the page scripts read them,
 * the lookup of one attraction by id, and the category tables that style the
 * map markers.
 */
module Catalog {
  import opened Wrappers

  /** `coordinates`: degrees, and whether they only stand in for a real location. */
  datatype Coordinates = Coordinates(lat: real, lon: real, placeholder: bool)

  /**
   * The fields of an attraction that the modelled code reads. `category` is
   * the `zh-TW` category name; `galleryImages` is empty when the field is
   * absent, and `panoramaImage` is "" when it is absent.
   */
  datatype Attraction = Attraction(
    id: string,
    category: string,
    coordinates: Option<Coordinates>,
    folder: string,
    galleryImages: seq<string>,
    panoramaImage: string)

  /** `attractions.find(a => a.id === id)`, as the position of the first match. */
  function FindIndex(attractions: seq<Attraction>, id: string): (r: Option<nat>)
    ensures r.Some? ==> r.value < |attractions| && attractions[r.value].id == id
    ensures r.Some? ==> forall j :: 0 <= j < r.value ==> attractions[j].id != id
    ensures r.None? <==> forall j :: 0 <= j < |attractions| ==> attractions[j].id != id
  {
    if attractions == [] then None
    else if attractions[0].id == id then Some(0)
    else match FindIndex(attractions[1..], id)
      case None => None
      case Some(k) => Some(k + 1)
  }

  /** The icon and colour of a map marker. */
  datatype MarkerStyle = MarkerStyle(icon: string, color: string)

  /** The table of `getCategoryIcon` (both toku-trip scripts): the seven categories with a marker of their own. */
  const CategoryIcons: map<string, MarkerStyle> := map[
    "歷史建築" := MarkerStyle("fa-landmark", "#8B4513"),
    "歷史街區" := MarkerStyle("fa-landmark", "#A0522D"),
    "美食" := MarkerStyle("fa-utensils", "#FFA500"),
    "信仰" := MarkerStyle("fa-place-of-worship", "#FFD700"),
    "文化" := MarkerStyle("fa-palette", "#800080"),
    "體驗" := MarkerStyle("fa-hand-paper", "#008080"),
    "咖啡" := MarkerStyle("fa-coffee", "#654321")
  ]

  const DefaultIcon: MarkerStyle := MarkerStyle("fa-map-marker-alt", "#708090")

  /** `getCategoryIcon(category)`: the category's own style, or the grey pin for any other category. */
  function CategoryIcon(category: string): (r: MarkerStyle)
    ensures category in CategoryIcons ==> r == CategoryIcons[category]
    ensures r == DefaultIcon <==> category !in CategoryIcons
  {
    if category in CategoryIcons then CategoryIcons[category] else DefaultIcon
  }

  /** The table of `getCategoryStyle` in src/js/script.js, which gives a colour only. */
  const CategoryColors: map<string, string> := map[
    "歷史建築" := "#8B4513",
    "歷史街區" := "#A0522D",
    "美食" := "#FFA500",
    "信仰" := "#FFD700",
    "文化" := "#800080",
    "體驗" := "#008080",
    "咖啡" := "#654321"
  ]

  const DefaultColor: string := "#708090"

  /** `getCategoryStyle(category).color`: the category's colour, or slate grey for any other category. */
  function CategoryColor(category: string): (r: string)
    ensures r == DefaultColor <==> category !in CategoryColors
  {
    if category in CategoryColors then CategoryColors[category] else DefaultColor
  }

  /** The older colour table and the newer icon table colour every category alike. */
  lemma ColorTablesAgree(category: string)
    ensures CategoryColor(category) == CategoryIcon(category).color
    ensures category in CategoryColors <==> category in CategoryIcons
  {
    assert CategoryColors.Keys == CategoryIcons.Keys;
  }

  /** The transform and stacking order `getCategoryIcon` gives a marker on the detail map. */
  datatype Emphasis = Emphasis(scale: string, zIndex: int)

  /** The current attraction's marker is enlarged to `scale(1.2)` at z-index 1000; the others stay at `scale(1)` and 900. */
  function MarkerEmphasis(isCurrent: bool): (e: Emphasis)
    ensures e.zIndex == 1000 <==> isCurrent
    ensures isCurrent <==> e.scale == "scale(1.2)"
    ensures !isCurrent ==> e.scale == "scale(1)" && e.zIndex == 900
  {
    if isCurrent then Emphasis("scale(1.2)", 1000) else Emphasis("scale(1)", 900)
  }
}
