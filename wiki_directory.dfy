/**
 * The "Wildlife Wiki" page over its built-in species list: per-category
 * counts, the search-and-category filter, and the selection that re-keys the
 * map component.
 */
module WikiDirectory {
  import opened Wrappers
  import opened Sequences
  import opened SpeciesSearch
  import Habitat
  import Geo

  datatype Icon = Bird | Fish | TreePine | Flower

  /** One entry of the page's `wildlifeData` list. */
  datatype Listing = Listing(
    id: int,
    name: string,
    category: string,
    scientificName: string,
    status: string,
    habitat: string,
    coordinates: Geo.LatLng,
    polygon: seq<Habitat.Position>,
    description: string,
    lastSeen: string,
    icon: Icon)

  function P(lng: real, lat: real): Habitat.Position {
    Habitat.Position(lng, lat)
  }

  /** The page's built-in list. */
  const WildlifeData: seq<Listing> := [
    Listing(1, "European Kingfisher", "birds", "Alcedo atthis", "Protected", "River banks, shallow waters",
      Geo.LatLng(45.2671, 19.8335),
      [P(19.8335, 45.2671), P(19.8345, 45.2675), P(19.8355, 45.2665), P(19.834, 45.266), P(19.8335, 45.2671)],
      "Small, brightly colored bird known for its brilliant blue and orange plumage.", "2024-01-15", Bird),
    Listing(2, "Brown Trout", "fish", "Salmo trutta", "Common", "Cool, oxygen-rich river waters",
      Geo.LatLng(45.268, 19.834),
      [P(19.834, 45.268), P(19.836, 45.269), P(19.838, 45.267), P(19.835, 45.266), P(19.834, 45.268)],
      "Native freshwater fish species, important indicator of water quality.", "2024-01-20", Fish),
    Listing(3, "Pedunculate Oak", "flora", "Quercus robur", "Ancient", "Riparian forest, well-drained soils",
      Geo.LatLng(45.2665, 19.8325),
      [P(19.8325, 45.2665), P(19.833, 45.267), P(19.832, 45.2675), P(19.8315, 45.266), P(19.8325, 45.2665)],
      "Centuries-old oak trees forming the backbone of the forest ecosystem.", "2024-01-10", TreePine),
    Listing(4, "Wild Iris", "flora", "Iris pseudacorus", "Abundant", "Wetlands, river margins",
      Geo.LatLng(45.2675, 19.8345),
      [P(19.8345, 45.2675), P(19.835, 45.268), P(19.834, 45.2685), P(19.8335, 45.267), P(19.8345, 45.2675)],
      "Yellow flowering plant that thrives in wet conditions along the riverbank.", "2024-01-18", Flower),
    Listing(5, "Roe Deer", "mammals", "Capreolus capreolus", "Common", "Forest edges, clearings",
      Geo.LatLng(45.2685, 19.833),
      [P(19.833, 45.2685), P(19.834, 45.2695), P(19.836, 45.269), P(19.835, 45.268), P(19.833, 45.2685)],
      "Small deer species frequently observed in early morning hours.", "2024-01-22", TreePine),
    Listing(6, "Grey Heron", "birds", "Ardea cinerea", "Regular", "Shallow waters, fishing spots",
      Geo.LatLng(45.269, 19.835),
      [P(19.835, 45.269), P(19.836, 45.27), P(19.837, 45.268), P(19.836, 45.267), P(19.835, 45.269)],
      "Large wading bird, excellent fisher and indicator of healthy aquatic ecosystem.", "2024-01-25", Bird)
  ]

  /** The four category tabs besides "all". */
  predicate KnownCategory(c: string) {
    c == "birds" || c == "fish" || c == "flora" || c == "mammals"
  }

  function InCategory(c: string): Listing -> bool {
    (item: Listing) => item.category == c
  }

  /** The count shown on a category chip: all records for "all", else those of that category. */
  function CategoryCount(items: seq<Listing>, id: string): (n: nat)
    ensures n <= |items|
    ensures id == "all" ==> n == |items|
    ensures id != "all" ==> n == |set k | 0 <= k < |items| && items[k].category == id|
  {
    KeepIsSubsequence(items, InCategory(id));
    KeepCountsPositions(items, InCategory(id));
    assert Positions(items, InCategory(id)) == set k | 0 <= k < |items| && items[k].category == id;
    if id == "all" then |items| else |Keep(items, InCategory(id))|
  }

  datatype Chip = Chip(id: string, caption: string, count: nat)

  /** `categories`. */
  function Categories(items: seq<Listing>): seq<Chip> {
    [ Chip("all", "All Species", CategoryCount(items, "all")),
      Chip("birds", "Birds", CategoryCount(items, "birds")),
      Chip("fish", "Fish", CategoryCount(items, "fish")),
      Chip("flora", "Flora", CategoryCount(items, "flora")),
      Chip("mammals", "Mammals", CategoryCount(items, "mammals")) ]
  }

  /** When every record has one of the four categories, the four counts add up to the "all" count. */
  lemma {:induction false} CountsAddUp(items: seq<Listing>)
    requires forall k :: 0 <= k < |items| ==> KnownCategory(items[k].category)
    ensures CategoryCount(items, "birds") + CategoryCount(items, "fish") +
            CategoryCount(items, "flora") + CategoryCount(items, "mammals") == CategoryCount(items, "all")
    decreases |items|
  {
    if items != [] {
      CountsAddUp(items[1..]);
    }
  }

  /** On the page's own list the four chip counts add up to the six entries. */
  lemma BuiltInCountsAddUp()
    ensures CategoryCount(WildlifeData, "birds") + CategoryCount(WildlifeData, "fish") +
            CategoryCount(WildlifeData, "flora") + CategoryCount(WildlifeData, "mammals") == 6
  {
    assert forall k :: 0 <= k < |WildlifeData| ==> KnownCategory(WildlifeData[k].category);
    CountsAddUp(WildlifeData);
  }

  /** The filter callback of `filteredData`. */
  function Matches(term: string, selected: string): Listing -> bool {
    (item: Listing) => MatchesSearch(item.name, item.scientificName, term) && MatchesCategory(item.category, selected)
  }

  function FilteredData(items: seq<Listing>, term: string, selected: string): seq<Listing> {
    Keep(items, Matches(term, selected))
  }

  /** The filter keeps exactly the matching entries, in list order, one per matching position. */
  lemma FilteredDataExact(items: seq<Listing>, term: string, selected: string)
    ensures IsSubsequence(FilteredData(items, term, selected), items)
    ensures forall x :: x in FilteredData(items, term, selected) <==>
      x in items && MatchesSearch(x.name, x.scientificName, term) && (selected == "all" || x.category == selected)
    ensures |FilteredData(items, term, selected)| == |set k | 0 <= k < |items| && MatchesSearch(items[k].name, items[k].scientificName, term) && (selected == "all" || items[k].category == selected)|
  {
    KeepIsSubsequence(items, Matches(term, selected));
    KeepMembers(items, Matches(term, selected));
    KeepCountsPositions(items, Matches(term, selected));
    assert Positions(items, Matches(term, selected)) == set k | 0 <= k < |items| && MatchesSearch(items[k].name, items[k].scientificName, term) && (selected == "all" || items[k].category == selected);
  }

  /** The "No species found" panel appears iff no entry matches. */
  lemma EmptyStateIffNoMatch(items: seq<Listing>, term: string, selected: string)
    ensures |FilteredData(items, term, selected)| == 0 <==>
      forall k :: 0 <= k < |items| ==>
        !(MatchesSearch(items[k].name, items[k].scientificName, term) && MatchesCategory(items[k].category, selected))
  {
    KeepEmpty(items, Matches(term, selected));
  }

  datatype BadgeVariant = Destructive | Default | Secondary

  /** The badge of a list entry: Protected, Ancient, anything else. */
  function ListBadge(status: string): (v: BadgeVariant)
    ensures v == Destructive <==> status == "Protected"
    ensures v == Default <==> status == "Ancient"
  {
    if status == "Protected" then Destructive else if status == "Ancient" then Default else Secondary
  }

  /** The badge of the details card, which has no "Ancient" case. */
  function DetailsBadge(status: string): (v: BadgeVariant)
    ensures v == Destructive <==> status == "Protected"
    ensures v != Default
  {
    if status == "Protected" then Destructive else Secondary
  }

  /** What the map component receives for an entry. */
  function ToMapSpecies(l: Listing): (m: Habitat.MapSpecies)
    ensures m.polygon == Some(l.polygon) && m.coordinates == l.coordinates && m.category == l.category
  {
    Habitat.MapSpecies(l.name, l.scientificName, l.category, l.status, l.habitat, l.coordinates, Some(l.polygon))
  }

  /** The page's state. */
  class DirectoryState {
    var searchTerm: string
    var selectedCategory: string
    var selectedSpecies: Option<Listing>
    var mapKey: int

    constructor ()
      ensures searchTerm == "" && selectedCategory == "all" && selectedSpecies == None && mapKey == 0
    {
      searchTerm := "";
      selectedCategory := "all";
      selectedSpecies := None;
      mapKey := 0;
    }

    function Filtered(): seq<Listing>
      reads this
    {
      FilteredData(WildlifeData, searchTerm, selectedCategory)
    }

    /** `handleSpeciesClick`: selects the species and bumps `mapKey`, which remounts the map. */
    method HandleSpeciesClick(species: Listing)
      modifies this
      ensures selectedSpecies == Some(species) && mapKey == old(mapKey) + 1
      ensures searchTerm == old(searchTerm) && selectedCategory == old(selectedCategory)
    {
      selectedSpecies := Some(species);
      mapKey := mapKey + 1;
    }

    method SetSearchTerm(term: string)
      modifies this
      ensures searchTerm == term
      ensures selectedCategory == old(selectedCategory) && selectedSpecies == old(selectedSpecies) && mapKey == old(mapKey)
    {
      searchTerm := term;
    }

    method SetSelectedCategory(category: string)
      modifies this
      ensures selectedCategory == category
      ensures searchTerm == old(searchTerm) && selectedSpecies == old(selectedSpecies) && mapKey == old(mapKey)
    {
      selectedCategory := category;
    }
  }
}
