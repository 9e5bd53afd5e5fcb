/**
 * The species wiki component over the records loaded from CSV: a search
 * term and a category select an ordered sub-list, and one species can be
 * selected for the map.
 */
module WikiPage {
  import opened Wrappers
  import opened Sequences
  import opened SpeciesSearch
  import opened Observations
  import Habitat
  import Geo

  /** The scientific name as the filter reads it. */
  function ScientificText(s: Species): string {
    s.scientificName.GetOr("")
  }

  /** The filter callback of `filteredData`. */
  function Matches(term: string, selected: string): Species -> bool {
    (item: Species) => MatchesSearch(item.name, ScientificText(item), term) && MatchesCategory(CategoryName(item.category), selected)
  }

  /** `filteredData`. */
  function FilteredData(data: seq<Species>, term: string, selected: string): seq<Species> {
    Keep(data, Matches(term, selected))
  }

  /**
   * The filter keeps, in their original order, exactly the records whose
   * name or scientific name contains the term and whose category is the
   * selected one (any category under "all"), one per matching position.
   */
  lemma FilteredDataExact(data: seq<Species>, term: string, selected: string)
    ensures IsSubsequence(FilteredData(data, term, selected), data)
    ensures forall s :: s in FilteredData(data, term, selected) <==>
      s in data && MatchesSearch(s.name, ScientificText(s), term) &&
      (selected == "all" || CategoryName(s.category) == selected)
    ensures |FilteredData(data, term, selected)| == |set k | 0 <= k < |data| && MatchesSearch(data[k].name, ScientificText(data[k]), term) && (selected == "all" || CategoryName(data[k].category) == selected)|
  {
    KeepIsSubsequence(data, Matches(term, selected));
    KeepMembers(data, Matches(term, selected));
    KeepCountsPositions(data, Matches(term, selected));
    assert Positions(data, Matches(term, selected)) == set k | 0 <= k < |data| && MatchesSearch(data[k].name, ScientificText(data[k]), term) && (selected == "all" || CategoryName(data[k].category) == selected);
  }

  /** An empty term under "all" shows every record. */
  lemma EmptySearchShowsAll(data: seq<Species>)
    ensures FilteredData(data, "", "all") == data
  {
    forall k | 0 <= k < |data| ensures Matches("", "all")(data[k]) {
      EmptyTermMatches(data[k].name, ScientificText(data[k]));
    }
    KeepAll(data, Matches("", "all"));
  }

  /** Filtering the filtered list again changes nothing. */
  lemma FilterIdempotent(data: seq<Species>, term: string, selected: string)
    ensures FilteredData(FilteredData(data, term, selected), term, selected) == FilteredData(data, term, selected)
  {
    KeepIdempotent(data, Matches(term, selected));
  }

  /** The icon components the page can draw. */
  datatype Icon = Bird | Fish | Flower | TreePine

  /** `iconMap[name] || TreePine`. */
  function IconFor(name: string): Icon {
    match name
    case "Bird" => Bird
    case "Fish" => Icon.Fish
    case "Flower" => Flower
    case "TreePine" => TreePine
    case _ => TreePine
  }

  /**
   * Every icon name the loader produces is in the table and maps to the
   * component of that name; an unknown name falls back to TreePine.
   */
  lemma IconTableCoversLoader(i: IconName, unknown: string)
    requires unknown !in {"Bird", "Fish", "Flower", "TreePine"}
    ensures IconFor(IconText(i)) == match i
      case BirdIcon => Bird
      case TreePineIcon => TreePine
      case FishIcon => Icon.Fish
      case FlowerIcon => Flower
    ensures IconFor(unknown) == TreePine
  {
  }

  datatype BadgeVariant = Destructive | Secondary

  /** The status badge of a list row and of the details card. */
  function StatusBadge(status: Status): (v: BadgeVariant)
    ensures v == Destructive <==> StatusText(status) == "Protected"
  {
    if StatusText(status) == "Protected" then Destructive else Secondary
  }

  /** The record handed to the map component; CSV records carry no polygon. */
  function ToMapSpecies(s: Species): (m: Habitat.MapSpecies)
    ensures m.polygon.None?
    ensures m.coordinates == Geo.LatLng(s.coordinates.lat, s.coordinates.lng)
    ensures m.category == CategoryName(s.category) && m.name == s.name
  {
    Habitat.MapSpecies(s.name, ScientificText(s), CategoryName(s.category), StatusText(s.status),
      s.habitat, Geo.LatLng(s.coordinates.lat, s.coordinates.lng), None)
  }

  /** The component's state: its input and its three state variables. */
  class WikiPageState {
    const wildlifeData: seq<Species>
    var searchTerm: string
    var selectedCategory: string
    var selectedSpecies: Option<Species>

    constructor (data: seq<Species>)
      ensures wildlifeData == data
      ensures searchTerm == "" && selectedCategory == "all" && selectedSpecies == None
    {
      wildlifeData := data;
      searchTerm := "";
      selectedCategory := "all";
      selectedSpecies := None;
    }

    /** The list currently shown. */
    function Filtered(): seq<Species>
      reads this
    {
      FilteredData(wildlifeData, searchTerm, selectedCategory)
    }

    /** `handleSpeciesClick`: selects the clicked species, nothing else changes. */
    method HandleSpeciesClick(species: Species)
      modifies this
      ensures selectedSpecies == Some(species)
      ensures searchTerm == old(searchTerm) && selectedCategory == old(selectedCategory)
    {
      selectedSpecies := Some(species);
    }

    /** `clearSelection`: drops the selection, nothing else changes. */
    method ClearSelection()
      modifies this
      ensures selectedSpecies == None
      ensures searchTerm == old(searchTerm) && selectedCategory == old(selectedCategory)
    {
      selectedSpecies := None;
    }

    /** Typing in the search box. */
    method SetSearchTerm(term: string)
      modifies this
      ensures searchTerm == term
      ensures selectedCategory == old(selectedCategory) && selectedSpecies == old(selectedSpecies)
    {
      searchTerm := term;
    }

    /** Pressing one of the category buttons. */
    method SetSelectedCategory(category: string)
      modifies this
      ensures selectedCategory == category
      ensures searchTerm == old(searchTerm) && selectedSpecies == old(selectedSpecies)
    {
      selectedCategory := category;
    }
  }
}
