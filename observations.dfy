/**
 * The CSV observation loader: every CSV row (a map from column name to cell
 * text) becomes at most one `Species` record. Rows whose coordinates do not
 * parse, or whose iconic taxon is not one of the four known ones, are
 * dropped; every kept row becomes its own record, numbered 1, 2, 3, ...
 * in input order.
 */
module Observations {
  import opened Wrappers
  import opened Text
  import Geo
  import opened Sequences

  type Row = map<string, string>

  /** `parseFloat`, which is not modelled: the loader receives it as a parameter. */
  type NumberParser = string -> Geo.Num

  datatype Category = Birds | Mammals | Fish | Flora
  datatype IconName = BirdIcon | TreePineIcon | FishIcon | FlowerIcon
  datatype Status = Protected | Common

  /** The category as the text the pages compare against (`"birds"`, ...). */
  function CategoryName(c: Category): string {
    match c
    case Birds => "birds"
    case Mammals => "mammals"
    case Fish => "fish"
    case Flora => "flora"
  }

  /** The icon as the component name the pages look up (`"Bird"`, ...). */
  function IconText(i: IconName): string {
    match i
    case BirdIcon => "Bird"
    case TreePineIcon => "TreePine"
    case FishIcon => "Fish"
    case FlowerIcon => "Flower"
  }

  function StatusText(s: Status): string {
    match s
    case Protected => "Protected"
    case Common => "Common"
  }

  /** One entry of the taxonomy table. */
  datatype TaxonInfo = TaxonInfo(category: Category, icon: IconName)

  /** `categoryMap[iconic] || categoryMap.default`: the table has no `default` entry. */
  function CategoryMap(iconic: Option<string>): Option<TaxonInfo> {
    match iconic
    case Some("Aves") => Some(TaxonInfo(Birds, BirdIcon))
    case Some("Mammalia") => Some(TaxonInfo(Mammals, TreePineIcon))
    case Some("Actinopterygii") => Some(TaxonInfo(Fish, FishIcon))
    case Some("Plantae") => Some(TaxonInfo(Flora, FlowerIcon))
    case _ => None
  }

  /** The icon that goes with each category, independently of the taxon. */
  function IconOfCategory(c: Category): IconName {
    match c
    case Birds => BirdIcon
    case Mammals => TreePineIcon
    case Fish => FishIcon
    case Flora => FlowerIcon
  }

  /**
   * Exactly the four taxa are known, and each table entry's icon is the one
   * its category has: the icon is a function of the category.
   */
  lemma CategoryMapTable(iconic: Option<string>)
    ensures CategoryMap(iconic).Some? <==>
      iconic in {Some("Aves"), Some("Mammalia"), Some("Actinopterygii"), Some("Plantae")}
    ensures CategoryMap(iconic).Some? ==>
      CategoryMap(iconic).value.icon == IconOfCategory(CategoryMap(iconic).value.category)
  {
  }

  /** The coordinates of a record. */
  datatype Coordinates = Coordinates(lat: real, lng: real)

  /** A species observation record. */
  datatype Species = Species(
    id: int,
    name: string,
    scientific_name: string,
    category: Category,
    scientificName: Option<string>,
    status: Status,
    habitat: string,
    coordinates: Coordinates,
    description: string,
    lastSeen: Option<string>,
    icon: IconName,
    inaturalistId: string,
    url: Option<string>,
    imageUrl: string)

  /** The cell of `column`, absent when the row has no such column. */
  function Cell(row: Row, column: string): Option<string> {
    if column in row then Some(row[column]) else None
  }

  /** JavaScript truthiness of an optional text: present and non-empty. */
  predicate Truthy(v: Option<string>) {
    v.Some? && v.value != ""
  }

  /** `a || b` on optional texts: the first truthy one, else `b`. */
  function OrElse(a: Option<string>, b: Option<string>): Option<string> {
    if Truthy(a) then a else b
  }

  /** `a || fallback`. */
  function OrText(a: Option<string>, fallback: string): string {
    if Truthy(a) then a.value else fallback
  }

  /** `parseFloat(row[column])`; a missing cell parses as NaN. */
  function Coordinate(row: Row, column: string, parse: NumberParser): Geo.Num {
    if column in row then parse(row[column]) else Geo.NaN
  }

  /** The row passes both guards of the loader: numeric coordinates and a known taxon. */
  predicate Accepted(row: Row, parse: NumberParser) {
    && Coordinate(row, "latitude", parse).Real?
    && Coordinate(row, "longitude", parse).Real?
    && CategoryMap(Cell(row, "iconic_taxon_name")).Some?
  }

  /** `row.url?.split("/").pop() || ""`. */
  function InaturalistId(url: Option<string>): (r: string)
    ensures url.None? ==> r == ""
    ensures url.Some? ==>
      && |r| <= |url.value| && url.value[|url.value| - |r|..] == r && '/' !in r
      && (|r| < |url.value| ==> url.value[|url.value| - |r| - 1] == '/')
  {
    match url
    case None => ""
    case Some(u) =>
      LastSegmentIsMaximalSuffix(u, '/');
      LastSegment(u, '/')
  }

  /** The record the loader pushes for an accepted row, numbered `id`. */
  function Build(row: Row, parse: NumberParser, id: int): (s: Species)
    requires Accepted(row, parse)
    ensures s.id == id
    ensures s.icon == IconOfCategory(s.category)
    ensures s.status == Protected <==> Cell(row, "quality_grade") == Some("research")
    ensures s.name != "" && s.scientific_name != ""
    ensures Truthy(Cell(row, "common_name")) ==> s.name == Cell(row, "common_name").value
    ensures !Truthy(Cell(row, "common_name")) && Truthy(Cell(row, "species_guess")) ==>
      s.name == Cell(row, "species_guess").value
    ensures !Truthy(Cell(row, "common_name")) && !Truthy(Cell(row, "species_guess")) ==> s.name == "Unknown"
    ensures s.scientificName == Cell(row, "scientific_name")
    ensures s.scientific_name == if Truthy(s.scientificName) then s.scientificName.value else "Unknown"
    ensures s.imageUrl == if Truthy(Cell(row, "image_url")) then Cell(row, "image_url").value else ""
    ensures s.coordinates.lat == Coordinate(row, "latitude", parse).value
    ensures s.coordinates.lng == Coordinate(row, "longitude", parse).value
    ensures s.url == Cell(row, "url") && s.inaturalistId == InaturalistId(s.url)
  {
    var info := CategoryMap(Cell(row, "iconic_taxon_name")).value;
    CategoryMapTable(Cell(row, "iconic_taxon_name"));
    Species(
      id := id,
      name := OrText(OrElse(Cell(row, "common_name"), Cell(row, "species_guess")), "Unknown"),
      scientific_name := OrText(Cell(row, "scientific_name"), "Unknown"),
      category := info.category,
      scientificName := Cell(row, "scientific_name"),
      status := if Cell(row, "quality_grade") == Some("research") then Protected else Common,
      habitat := "Unknown",
      coordinates := Coordinates(Coordinate(row, "latitude", parse).value, Coordinate(row, "longitude", parse).value),
      description := OrText(Cell(row, "description"), "No description available."),
      lastSeen := Cell(row, "observed_on"),
      icon := info.icon,
      inaturalistId := InaturalistId(Cell(row, "url")),
      url := Cell(row, "url"),
      imageUrl := OrText(Cell(row, "image_url"), ""))
  }

  function AcceptedBy(parse: NumberParser): Row -> bool {
    row => Accepted(row, parse)
  }

  /** The rows that pass both guards, in input order. */
  function AcceptedRows(rows: seq<Row>, parse: NumberParser): seq<Row> {
    Keep(rows, AcceptedBy(parse))
  }

  /** What the loader resolves with: one record per accepted row, numbered from 1. */
  function Records(rows: seq<Row>, parse: NumberParser): (r: seq<Species>)
    ensures |r| == |AcceptedRows(rows, parse)|
  {
    var kept := AcceptedRows(rows, parse);
    KeepSatisfies(rows, AcceptedBy(parse));
    seq(|kept|, k requires 0 <= k < |kept| => Build(kept[k], parse, k + 1))
  }

  /** Appending one row appends its record, if any, numbered after the others. */
  lemma RecordsSnoc(rows: seq<Row>, row: Row, parse: NumberParser)
    ensures Records(rows + [row], parse) ==
      Records(rows, parse) + (if Accepted(row, parse) then [Build(row, parse, |Records(rows, parse)| + 1)] else [])
  {
    KeepAppend(rows, [row], AcceptedBy(parse));
    assert Keep([row], AcceptedBy(parse)) == if Accepted(row, parse) then [row] else [];
  }

  /**
   * `loadWildlifeDataFromCSV` over already-parsed CSV rows: each row is
   * checked and, when accepted, pushed with id `results.length + 1`.
   */
  method LoadWildlifeData(rows: seq<Row>, parse: NumberParser) returns (results: seq<Species>)
    ensures results == Records(rows, parse)
    ensures |results| <= |rows|
    ensures forall k :: 0 <= k < |results| ==> results[k].id == k + 1
  {
    results := [];
    var i := 0;
    while i < |rows|
      invariant 0 <= i <= |rows|
      invariant results == Records(rows[..i], parse)
    {
      var row := rows[i];
      RecordsSnoc(rows[..i], row, parse);
      assert rows[..i + 1] == rows[..i] + [row];
      i := i + 1;
      var lat := Coordinate(row, "latitude", parse);
      var lng := Coordinate(row, "longitude", parse);
      if lat.NaN? || lng.NaN? {
        continue;
      }
      var mapInfo := CategoryMap(Cell(row, "iconic_taxon_name"));
      if mapInfo.None? {
        continue;
      }
      results := results + [Build(row, parse, |results| + 1)];
    }
    assert rows[..i] == rows;
    KeepIsSubsequence(rows, AcceptedBy(parse));
  }

  /**
   * The records correspond one to one, in order, to the accepted rows, which
   * are a subsequence of the input: no row is merged into another or split.
   */
  lemma RecordsFollowRows(rows: seq<Row>, parse: NumberParser)
    ensures IsSubsequence(AcceptedRows(rows, parse), rows)
    ensures forall k :: 0 <= k < |Records(rows, parse)| ==>
      Accepted(AcceptedRows(rows, parse)[k], parse) &&
      Records(rows, parse)[k] == Build(AcceptedRows(rows, parse)[k], parse, k + 1)
    ensures forall row :: row in AcceptedRows(rows, parse) <==> row in rows && Accepted(row, parse)
  {
    KeepIsSubsequence(rows, AcceptedBy(parse));
    KeepSatisfies(rows, AcceptedBy(parse));
    KeepMembers(rows, AcceptedBy(parse));
    var kept := AcceptedRows(rows, parse);
    forall k | 0 <= k < |Records(rows, parse)|
      ensures Accepted(kept[k], parse) && Records(rows, parse)[k] == Build(kept[k], parse, k + 1)
    {
      assert AcceptedBy(parse)(kept[k]);
    }
  }

  /** A row that fails either guard contributes nothing, wherever it stands. */
  lemma {:induction false} RejectedRowIgnored(before: seq<Row>, row: Row, after: seq<Row>, parse: NumberParser)
    requires !Accepted(row, parse)
    ensures Records(before + [row] + after, parse) == Records(before + after, parse)
  {
    var p := AcceptedBy(parse);
    KeepAppend(before + [row], after, p);
    KeepAppend(before, [row], p);
    KeepAppend(before, after, p);
    assert Keep([row], p) == [];
    assert AcceptedRows(before + [row] + after, parse) == AcceptedRows(before + after, parse);
  }
}
