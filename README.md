# River-restoration monitoring dashboard — verified model of its core

The dashboard is a Next.js application for a river-renaturation study area.
It shows:

- wildlife observations loaded from an iNaturalist CSV export;
- a species wiki with search, category tabs and a habitat map;
- drone survey imagery (GeoTIFF) laid over a Leaflet map of water and soil
  measurement stations;
- the current weather, fetched through a small proxy route.

This Dafny project models the logic behind those views:

- `observations.dfy` models the CSV loader (`data/data.ts`). Each accepted
  row becomes one `Species` record with the next sequential id.
- `weather_route.dfy` models the weather proxy `GET` (`app/api/weather/route.ts`).
  It is a total function from the query, the environment key and the upstream
  outcome to an HTTP status and body. `openweather.dfy` holds the upstream
  answer as a datatype.
- `wiki_page.dfy` (`components/WikiPage.tsx`) and `wiki_directory.dfy`
  (`app/wiki/page.tsx`) model the two species lists. That covers:
  - the case-insensitive search-and-category filter;
  - the category counts and status badges;
  - the selection state, as a class whose methods update its fields.

  `species_search.dfy` holds the shared search predicate. `sequences.dfy`
  holds the ordered filter `Keep`.
- `geotiff.dfy`, `raster.dfy` and `tiff_uploader.dfy` model the GeoTIFF
  uploader (`components/TiffUploader.tsx`):
  - georeferencing: the EPSG choice, the lat/lon range test, bounds from the
    bounding box or from origin and resolution;
  - canvas sizing;
  - the in-place RGBA fill of a byte `array` (RGB and grayscale);
  - the manual-bounds prompt with its default;
  - the component's processing state.
- `survey_loader.dfy` models the survey-image loader
  (`components/SimpleTiffLoader.tsx`). `manual_coordinates.dfy` holds the
  "four comma-separated numbers" parser that both loaders share.
- `station_map.dfy` models the Leaflet station map (`components/LeafletMap.tsx`):
  - marker styling and popup contents;
  - the initial centre and zoom;
  - the per-component and global marker registries;
  - the two "open station popup" entry points;
  - build and teardown of the map. The map library is reduced to a `Leaflet`
    object recording live maps, views, overlays and open popups.
- `wiki_map.dfy` (`components/WikiMap.tsx`) and `mapbox_map.dfy`
  (`components/mapbox-map.tsx`) model the two species maps. The map library
  is reduced to a registry of layers, sources and markers. Both maps clear
  what they track before adding new layers.
- `live_weather.dfy` models the weather widget (`components/LiveWeather.tsx`):
  its fetch outcome, the state update with the fixed fallback, and the icon
  classifier.
- `text.dfy`, `geo.dfy`, `habitat.dfy` and `wrappers.dfy` hold shared pieces:
  - ASCII lower-casing, substring search, split/join and last segment;
  - JavaScript numbers as an exact real or NaN, plus map corners and bounds;
  - the record the map components receive;
  - `Option`/`Result`.

Parsing functions the code borrows from the platform are parameters of the
model: `parseFloat`, `Number`, `proj4`, and the UTM series in
`utmToWgs84`. So are I/O outcomes: the CSV rows, the fetched response, the
decoded raster and the user's answer to a prompt.

The CSV loader in `data/data.ts` builds one record per accepted row. It
does not group rows by scientific name, and it merges no duplicates into
lists of locations or images. `Observations.RecordsFollowRows` proves this
one-row-one-record behaviour.

## Model

| member | source | states |
|---|---|---|
| Observations.CategoryMapTable | data/data.ts:60-65 | A taxon maps to a category iff it is one of Aves, Mammalia, Actinopterygii, Plantae; the icon always belongs to the same entry as the category |
| Observations.InaturalistId | data/data.ts:87 | The id is the longest suffix of the URL free of "/", preceded by a "/" when shorter than the URL; "" when the URL is missing |
| Observations.Build | data/data.ts:89-104 | The record has the given id; the category's own icon; status Protected iff quality_grade is "research"; name falls back common_name → species_guess → "Unknown"; scientific_name falls back to "Unknown" while scientificName is copied unchanged; imageUrl defaults to ""; coordinates are the parsed latitude and longitude |
| Observations.Records | data/data.ts:76-106 | One record per accepted row |
| Observations.RecordsSnoc | data/data.ts:79-105 | Appending a row appends exactly its record, with id one past the current count, when the row is accepted, and nothing otherwise |
| Observations.LoadWildlifeData | data/data.ts:71-109 | The per-row loop returns exactly `Records` of the rows: no more records than rows, and ids 1..n in output order |
| Observations.RecordsFollowRows | data/data.ts:79-105 | The accepted rows are a subsequence of the input, exactly those passing the coordinate and taxon guards; record k is built from accepted row k with id k+1 (no grouping) |
| Observations.RejectedRowIgnored | data/data.ts:80-86 | A row with an unparseable coordinate or an unknown taxon can be removed from the input without changing the output |
| WeatherRoute.ChosenKey | app/api/weather/route.ts:7 | A non-empty query `apiKey` is used; otherwise the environment key |
| WeatherRoute.TranslateFailure | app/api/weather/route.ts:33-61 | A non-OK upstream status gives an error reply carrying that same status; a `null` JSON body makes reading `message` throw, which gives 500 |
| WeatherRoute.ErrorForStatus | app/api/weather/route.ts:36-60 | The reply keeps the upstream status; details are the upstream message when present, else "Check your OpenWeatherMap API key" for 401, "Too many requests" for 429, else the status text |
| WeatherRoute.ValidateSuccess | app/api/weather/route.ts:63-73 | An OK body is forwarded unchanged with 200 iff it has both `main` and `weather`; an object without them gives 502; an unparsable body gives 500 |
| WeatherRoute.Get | app/api/weather/route.ts:3-84 | Missing lat or lon gives 400 whatever the key; with both present and no key, 401; a reply is forwarded iff its status is 200, and a forwarded body always has `main` and `weather` |
| WeatherRoute.UpstreamDecides | app/api/weather/route.ts:23-83 | Once the guards pass: a thrown fetch gives 500 with the error's message; upstream 401 gives 401 "Invalid API key"; upstream 429 gives 429 "Rate limit exceeded"; other non-OK statuses pass through; an OK object gives 502 iff `main` or `weather` is missing |
| WeatherRoute.QueryKeyTakesPrecedence | app/api/weather/route.ts:7 | With a query key, the environment key does not affect the reply |
| WeatherRoute.ErrorRepliesAreNotSuccesses | app/api/weather/route.ts:9-83 | Every error body comes with a non-2xx status |
| Text.Lower | components/WikiPage.tsx:51-53 | Lower-casing keeps the length and lower-cases each character in place |
| Text.LowerIdempotent | components/WikiPage.tsx:51-53 | Lower-casing twice is lower-casing once |
| Text.ContainsIffOccurs | components/WikiPage.tsx:51-53 | `includes` holds iff the term occurs at some index of the text |
| Text.Split | components/TiffUploader.tsx:445 | Splitting on "," yields at least one field and no field contains the separator |
| Text.JoinSplit | components/SimpleTiffLoader.tsx:116 | Joining the fields of a split restores the input |
| Text.SplitJoin | components/SimpleTiffLoader.tsx:116 | Splitting a join of separator-free fields gives back those fields |
| Text.SplitWithoutSeparator | data/data.ts:87 | Text with no separator splits into itself alone |
| Text.LastSegmentIsMaximalSuffix | data/data.ts:87 | `split("/").pop()` is the longest separator-free suffix, preceded by the separator when shorter than the text |
| SpeciesSearch.EmptyTermMatches | components/WikiPage.tsx:51-53 | The empty search term matches every record |
| SpeciesSearch.SearchIgnoresTermCase | components/WikiPage.tsx:51-53 | Lower-casing the term first does not change which records match |
| WikiPage.FilteredDataExact | components/WikiPage.tsx:49-57 | The filtered list is a subsequence of the input and holds exactly the records whose name or scientific name contains the term (case-insensitively) and whose category is the selected one, or any under "all"; its length is the number of matching positions, so each match is kept once per occurrence |
| WikiPage.EmptySearchShowsAll | components/WikiPage.tsx:49-57 | An empty term under "all" returns the whole input |
| WikiPage.FilterIdempotent | components/WikiPage.tsx:49-57 | Filtering the filtered list again with the same term and category changes nothing |
| WikiPage.IconTableCoversLoader | components/WikiPage.tsx:69 | Each icon name the loader produces maps to the component of that name; any other name falls back to TreePine |
| WikiPage.StatusBadge | components/WikiPage.tsx:89-98 | The badge is destructive iff the status is "Protected" |
| WikiPage.ToMapSpecies | components/WikiPage.tsx:220 | The map receives the record's name, category and coordinates and no polygon |
| WikiPage.WikiPageState.constructor | components/WikiPage.tsx:45-47 | Starts with empty term, category "all", nothing selected |
| WikiPage.WikiPageState.HandleSpeciesClick | components/WikiPage.tsx:59-61 | Selects the clicked species; term and category unchanged |
| WikiPage.WikiPageState.ClearSelection | components/WikiPage.tsx:63-65 | Clears the selection; term and category unchanged |
| WikiPage.WikiPageState.SetSearchTerm | components/WikiPage.tsx:148 | Sets the term only |
| WikiPage.WikiPageState.SetSelectedCategory | components/WikiPage.tsx:155-158 | Sets the category only |
| WikiDirectory.CategoryCount | app/wiki/page.tsx:135-140 | The "all" count is the number of records; any other chip counts exactly the records whose category is that chip's id, and never more than all records |
| WikiDirectory.CountsAddUp | app/wiki/page.tsx:135-140 | When every record has one of the four categories, the four counts sum to the "all" count |
| WikiDirectory.BuiltInCountsAddUp | app/wiki/page.tsx:18-140 | On the page's own six entries the four counts sum to 6 |
| WikiDirectory.FilteredDataExact | app/wiki/page.tsx:149-155 | The filter keeps, in order, exactly the entries matching the term (name or scientific name, case-insensitive) and the category, one per matching position |
| WikiDirectory.EmptyStateIffNoMatch | app/wiki/page.tsx:275 | The "no species" panel shows iff no entry matches both conditions |
| WikiDirectory.ListBadge | app/wiki/page.tsx:242-249 | Destructive iff "Protected", default iff "Ancient", otherwise secondary |
| WikiDirectory.DetailsBadge | app/wiki/page.tsx:316 | Destructive iff "Protected", never default |
| WikiDirectory.ToMapSpecies | app/wiki/page.tsx:298 | The map receives the entry's coordinates, category and polygon |
| WikiDirectory.DirectoryState.constructor | app/wiki/page.tsx:144-147 | Starts with empty term, "all", no selection, map key 0 |
| WikiDirectory.DirectoryState.HandleSpeciesClick | app/wiki/page.tsx:157-161 | Selects the species and increases the map key by exactly 1; term and category unchanged |
| WikiDirectory.DirectoryState.SetSearchTerm | app/wiki/page.tsx:188 | Sets the term only |
| WikiDirectory.DirectoryState.SetSelectedCategory | app/wiki/page.tsx:193 | Sets the category only |
| Geo.FromEdges | components/TiffUploader.tsx:302-305 | Edges west, south, east, north are laid out as [[south, west], [north, east]] |
| GeoTiff.SourceEpsg | components/TiffUploader.tsx:182-198 | The source CRS is the projected GeoKey, else the geographic GeoKey, else EPSG:25832 iff west < 500000 and EPSG:25833 otherwise |
| GeoTiff.ConvertToWgs84 | components/TiffUploader.tsx:143-240 | Bounds already in lat/lon range are returned unchanged, as are bounds that are neither geographic nor projected; projected bounds are converted corner by corner from the chosen EPSG to EPSG:4326, falling back to the input when conversion fails |
| GeoTiff.OriginEdges | components/TiffUploader.tsx:275-285 | west = originX, east = originX + width·resX, north = originY, south = originY − height·\|resY\| |
| GeoTiff.DeriveBounds | components/TiffUploader.tsx:244-308 | A four-number bounding box with a NaN is rejected, otherwise converted; without one, origin and resolution are used; with neither, "No geographic information found" |
| GeoTiff.GeographicBoxKept | components/TiffUploader.tsx:152-164 | A bounding box already in lat/lon range comes out as [[south, west], [north, east]] whatever the projection does |
| GeoTiff.Scale | components/TiffUploader.tsx:322-323 | The scale lies in (0, 1]; it is 1 when both sides fit 2048, else it brings the longer side to exactly 2048 |
| GeoTiff.ScaledSideIsFloor | components/TiffUploader.tsx:324-351 | The integer canvas side is floor(side·scale) and the integer source coordinate is floor(c/scale) |
| GeoTiff.CanvasFits | components/TiffUploader.tsx:324-326 | Neither canvas side exceeds 2048 or the source side |
| GeoTiff.CanvasSideZero | components/TiffUploader.tsx:322-326 | A canvas side is 0 iff its image side is 0 or that side times 2048 is below the long side |
| GeoTiff.ScaledSideFits | components/TiffUploader.tsx:324-326 | A scaled side exceeds neither 2048 nor the unscaled side |
| GeoTiff.SourceIndexInBounds | components/TiffUploader.tsx:350-397 | Every source index read from a canvas pixel is below width·height |
| GeoTiff.UnscaledBelow | components/TiffUploader.tsx:350-351 | A canvas coordinate maps back to a source coordinate inside the source side |
| GeoTiff.ManualBounds | components/TiffUploader.tsx:439-469 | Four numeric fields "west,south,east,north" give [[south, west], [north, east]]; a cancelled, empty or malformed answer gives [[51.95, 7.55], [52.05, 7.65]] |
| ManualCoordinates.FourNumbers | components/TiffUploader.tsx:445-446 | Accepted iff the input splits on "," into exactly four fields each converting to a number; the values are those conversions in order |
| ManualCoordinates.FourNumbersOfJoin | components/SimpleTiffLoader.tsx:116-117 | Four comma-free numeric fields joined by "," parse back to those four numbers |
| Raster.SampleAt | components/TiffUploader.tsx:357-368 | A sample inside the band is read; a read past the end is treated as 0 |
| Raster.ClampedStore | components/TiffUploader.tsx:357-373 | A byte store clamps to 0 and 255 and otherwise rounds to the nearest integer |
| Raster.RgbChannelCopiesBytes | components/TiffUploader.tsx:357-373 | An integer sample in [0,255] is stored as is; values below 0 store 0 and above 255 store 255 |
| Raster.ExtremesBound | components/TiffUploader.tsx:380-389 | The min/max scan finds values of the band that bound every sample, and finds none only for an empty band |
| Raster.MinMax | components/TiffUploader.tsx:380-389 | The loop computes exactly the band's extremes, which bound every sample |
| Raster.GrayLevelStretch | components/TiffUploader.tsx:401-409 | With max > min, min maps to 0, max to 255, and the mapping is monotone |
| Raster.StoredInteger | components/TiffUploader.tsx:370-373 | An integer in [0,255] is stored unchanged |
| Raster.FlatBandIsBlack | components/TiffUploader.tsx:401-409 | A band with max = min stores 0 |
| Raster.PixelAt | components/TiffUploader.tsx:354-373 | The four bytes of pixel (x, y) sit at (y·cw + x)·4 in the image |
| Raster.RowStartOffset | components/TiffUploader.tsx:348-354 | Row y starts at byte y·cw·4 |
| Raster.FillImageData | components/TiffUploader.tsx:348-411 | The nested loops write every byte of a fresh cw·ch·4 buffer: the result equals the image the pixel function describes |
| Raster.FillRow | components/TiffUploader.tsx:349-374 | One pass of the inner loop extends the correctly written prefix by one full row |
| Raster.RgbImagePixels | components/TiffUploader.tsx:344-375 | Each RGB canvas pixel is the three clamped source samples at an in-bounds source index, with alpha 255 |
| Raster.RenderRgb | components/TiffUploader.tsx:344-375 | The RGB branch fills the buffer with exactly that RGB image |
| Raster.GrayImagePixels | components/TiffUploader.tsx:376-412 | Each grayscale canvas pixel has R = G = B = the normalized level and alpha 255 |
| Raster.RenderGray | components/TiffUploader.tsx:376-412 | The grayscale branch scans min/max and fills the buffer with exactly that gray image |
| TiffUploader.Render | components/TiffUploader.tsx:322-412 | Fails iff a canvas side scales to 0 (`createImageData` throws, checked before the bands) or the file has no raster band; otherwise the picture is the canvas-sized RGB image for three or more bands, else the gray image of band 0 |
| TiffUploader.GeoTiffWins | components/TiffUploader.tsx:244-425 | When bounds derive, a band exists and both canvas sides are positive, the rendered picture is delivered with the derived bounds, whatever the fallback inputs |
| TiffUploader.DeliveryCases | components/TiffUploader.tsx:52-481 | Something is delivered iff the GeoTIFF path succeeds or the file decodes as a regular image; a fallback delivery is the redrawn image with the manual or default bounds |
| TiffUploader.ElongatedRasterFallsBack | components/TiffUploader.tsx:322-337 | A raster whose width times 2048 falls short of its long side fails as a GeoTIFF, so any delivery is the plain image at the typed or default bounds |
| TiffUploader.RenderedFits | components/TiffUploader.tsx:322-326 | A rendered picture fits 2048×2048 and holds width·height·4 bytes |
| TiffUploader.RenderFile | components/TiffUploader.tsx:322-412 | The in-place rendering produces exactly `Render`'s result, including its errors |
| TiffUploader.ProcessSteps | components/TiffUploader.tsx:52-481 | The step-by-step processing returns exactly `Process`'s delivery and status |
| TiffUploader.Uploader.constructor | components/TiffUploader.tsx:18-20 | Starts idle with no image, no info, nothing delivered |
| TiffUploader.Uploader.ProcessFile | components/TiffUploader.tsx:52-481 | Ends not processing; status info is set; a delivery is appended and becomes the shown image, or an alert is raised and nothing else changes |
| TiffUploader.Uploader.HandleFileUpload | components/TiffUploader.tsx:26-32 | No file chosen changes nothing; otherwise the file is processed: geo info set, and a decoded raster is delivered and shown while an undecodable one leaves the image and raises one alert |
| TiffUploader.Uploader.AutoLoad | components/TiffUploader.tsx:34-50 | A failed fetch raises an alert only; otherwise the fetched file is processed: geo info set, and a decoded raster is delivered and shown while an undecodable one leaves the image and raises one alert |
| SurveyLoader.AsWrittenLongitudeShift | components/SimpleTiffLoader.tsx:59-62 | As written, each longitude is 9·(180/π − 1), between 506.6 and 506.7 degrees, east of the intended one; a point on the central meridian comes out above 515.6 degrees, and no point within 3 degrees of the meridian comes out inside 6–12 degrees |
| SurveyLoader.CentralMeridianKept | components/SimpleTiffLoader.tsx:59-62 | With the offset scaled before the meridian is added, the central meridian maps to 9 degrees and offsets within 3 degrees stay within zone 32N's 6–12 degrees east |
| SurveyLoader.SurveyBounds | components/SimpleTiffLoader.tsx:70-85 | The survey bounds are the converted (west, south) corner as south-west and the converted (east, north) corner as north-east |
| SurveyLoader.SurveyBoundsOrdered | components/SimpleTiffLoader.tsx:70-85 | For a series whose latitude gains at least a per metre north and drifts at most b per metre east, and whose longitude offset gains at least g per metre east and drifts at most h per metre north, across the survey's UTM extent, with the gains over the extent above the drifts, south-west lies below and left of north-east |
| SurveyLoader.ParseManualCoords | components/SimpleTiffLoader.tsx:116-122 | Accepted iff four numeric fields; read as south-lat, west-lon, north-lat, east-lon into [[c0, c1], [c2, c3]] |
| SurveyLoader.ParseManualCoordsOfJoin | components/SimpleTiffLoader.tsx:116-122 | Four numeric fields joined by "," give bounds [[south, west], [north, east]] |
| SurveyLoader.PromptOrdersTransposed | components/SimpleTiffLoader.tsx:118-122 | The same accepted text read by the uploader's prompt gives the bounds with latitude and longitude swapped at both corners |
| SurveyLoader.Loader.constructor | components/SimpleTiffLoader.tsx:13-14 | Starts not loading, no image, nothing delivered |
| SurveyLoader.Loader.LoadCompressedImage | components/SimpleTiffLoader.tsx:65-108 | Ends not loading; when the image exists it is shown and delivered with the survey bounds; otherwise only an alert is raised |
| SurveyLoader.Loader.LoadWithManualCoords | components/SimpleTiffLoader.tsx:110-131 | A cancelled or empty prompt does nothing; accepted input shows and delivers the image with the parsed bounds; rejected input raises an alert only |
| StationMap.Style | components/LeafletMap.tsx:230-232 | Green "Renatured" iff `restored` is "y"; anything else, including missing, is red "Non-renatured" |
| StationMap.ChemistryLines | components/LeafletMap.tsx:254-257 | Each truthy oxygen, temperature, pH, conductivity reading gets its line |
| StationMap.FieldLines | components/LeafletMap.tsx:258-260 | Truthy flow velocity other than "n/a", humidity and soil moisture get their lines |
| StationMap.PopupLines | components/LeafletMap.tsx:249-266 | The popup starts with the status and shows every truthy reading |
| StationMap.ChemistryFromPoint | components/LeafletMap.tsx:254-257 | Every chemistry line shows a truthy reading of the point |
| StationMap.FieldFromPoint | components/LeafletMap.tsx:258-260 | Every field line shows a truthy reading of the point |
| StationMap.PopupLinesFromPoint | components/LeafletMap.tsx:249-266 | Every popup line is the status or a truthy reading of the point |
| StationMap.FalsyReadingsOmitted | components/LeafletMap.tsx:254-260 | No line shows a falsy reading, and flow velocity "n/a" is never shown |
| StationMap.LeastGreatest | components/LeafletMap.tsx:162-168 | `Math.min`/`Math.max` over the coordinates are members bounding all of them |
| StationMap.ZoomForSpan | components/LeafletMap.tsx:180-183 | The zoom is one of 10, 13, 15, 16 |
| StationMap.ZoomNarrowsWithSpan | components/LeafletMap.tsx:180-183 | A wider span never gives a closer zoom |
| StationMap.InitialView | components/LeafletMap.tsx:151-184 | Survey bounds centre the view on their midpoint at zoom 13; with no bounds and no points, [52.0, 7.6] at zoom 13 |
| StationMap.StationsAroundCenter | components/LeafletMap.tsx:160-184 | With points only, the centre is the midpoint of the min/max latitude and longitude, every point is within half the span of it, and the zoom follows the span thresholds |
| StationMap.InitialViewSurvives | components/LeafletMap.tsx:151-224 | The initial view is the final one iff there are no points and no overlay; with points, `fitBounds` always decides the view |
| StationMap.RegistryEntries | components/LeafletMap.tsx:275-283 | An id is registered iff some point has it as a truthy `objectId`; its marker is the last such point's |
| StationMap.RegistryOnMap | components/LeafletMap.tsx:226-283 | Every registered marker belongs to the map just built |
| StationMap.Globals.constructor | components/LeafletMap.tsx:8-9 | No global map and an empty global registry |
| StationMap.Globals.OpenStationPopup | components/LeafletMap.tsx:12-46 | With no global map or an unknown id nothing opens; otherwise the marker's popup opens and the map centres at (lat + 0.0003, lng), zoom 18 |
| StationMap.StationMapComponent.constructor | components/LeafletMap.tsx:89-91 | No map and an empty registry |
| StationMap.StationMapComponent.Build | components/LeafletMap.tsx:137-297 | Without a container nothing changes. Otherwise: the previous map is removed; a new map is created with the final view and the optional overlay; the local registry is exactly the points' registry; the global map is the new one; the global registry is cleared first only when a previous map existed |
| StationMap.StationMapComponent.Register | components/LeafletMap.tsx:275-283 | The local registry becomes the points' registry and is merged into the global one; all markers are on the given map |
| StationMap.StationMapComponent.Rerun | components/LeafletMap.tsx:137-313 | A re-run of the effect (cleanup, then build) creates the new map and registry and leaves every old global registry entry in place |
| StationMap.StationMapComponent.Unmount | components/LeafletMap.tsx:299-313 | The map is removed and the ref and local registry emptied; the global map is left pointing at the removed map |
| StationMap.StationMapComponent.OpenPopup | components/LeafletMap.tsx:93-135 | With no map or an unknown id nothing changes; otherwise the popup opens and the map centres on the marker itself at zoom 18 |
| WikiMap.CategoryColor | components/WikiMap.tsx:17-30 | Birds, fish, flora and mammals get their own colours; the purple default iff the category is none of them |
| WikiMap.LoaderCategoriesColoured | components/WikiMap.tsx:17-30 | Each loader category gets a non-default colour, and different categories get different colours |
| WikiMap.SwapVertices | components/WikiMap.tsx:121 | [lng, lat] vertices become [lat, lng], keeping length and order |
| WikiMap.ToPositions | components/WikiMap.tsx:121 | The reverse swap, vertex by vertex |
| WikiMap.SwapRoundTrip | components/WikiMap.tsx:121 | Swapping back restores the polygon |
| WikiMap.NewLayersShape | components/WikiMap.tsx:96-155 | A selection gives its marker with an open popup, plus a polygon with swapped vertices in the marker's colour when it has one; with no selection, one marker per species in order with its category colour |
| WikiMap.TargetView | components/WikiMap.tsx:134-158 | A selection is shown at its coordinates, zoom 16; otherwise [45.2671, 19.8335] at zoom 14 |
| WikiMap.PlaceLayers | components/WikiMap.tsx:96-155 | Adding layers gives them fresh consecutive ids and tracks those ids |
| WikiMap.WikiMapWidget.constructor | components/WikiMap.tsx:11-14 | No map, no layers, nothing tracked |
| WikiMap.WikiMapWidget.InitializeMap | components/WikiMap.tsx:57-73 | Does nothing without a container, with a map already present or without the library; otherwise creates the map once with the tile layer and the overview |
| WikiMap.WikiMapWidget.Update | components/WikiMap.tsx:85-160 | A no-op until the map is loaded; then every tracked layer is gone, and the tracked list is exactly the new layers in order, with the target view |
| WikiMap.WikiMapWidget.RemoveTracked | components/WikiMap.tsx:90-94 | Removes every tracked layer from the map and empties the list |
| WikiMap.WikiMapWidget.AddLayers | components/WikiMap.tsx:96-155 | Adds the layers under fresh ids and tracks exactly them |
| WikiMap.WikiMapWidget.Unmount | components/WikiMap.tsx:77-82 | The map and its layers are gone, the tracked list and the id counter stay, and the invariant holds, so a later initialisation and update can follow as on a remount |
| MapboxMap.PolygonColor | components/mapbox-map.tsx:16-29 | The purple default iff the category is none of the four |
| MapboxMap.ColorTablesAgree | components/mapbox-map.tsx:16-29 | The colour table equals the Leaflet wiki map's |
| MapboxMap.HabitatGeoJson | components/mapbox-map.tsx:139-155 | One feature whose single ring is the polygon as given, with name, category and status |
| MapboxMap.SameHabitatOutline | components/mapbox-map.tsx:139-155 | That ring is the outline the Leaflet wiki map draws, swapped back to [lng, lat] |
| MapboxMap.NewMarkers | components/mapbox-map.tsx:112-244 | One marker for a selection; otherwise one per species, at [lng, lat] in its category colour |
| MapboxMap.SameTarget | components/mapbox-map.tsx:216-251 | The camera target matches the Leaflet wiki map's view, with coordinates in [lng, lat] |
| MapboxMap.AccessToken | components/mapbox-map.tsx:63-64 | The environment token when non-empty, else the built-in placeholder |
| MapboxMap.MapboxMapWidget.constructor | components/mapbox-map.tsx:11-13 | No map, not loaded, no click handlers |
| MapboxMap.MapboxMapWidget.InitializeMap | components/mapbox-map.tsx:57-80 | Creates the map once, with the default camera and no sources or layers |
| MapboxMap.MapboxMapWidget.OnLoad | components/mapbox-map.tsx:77-79 | Marks the map loaded |
| MapboxMap.MapboxMapWidget.AddSource | components/mapbox-map.tsx:157-160 | Adds the source |
| MapboxMap.MapboxMapWidget.AddLayer | components/mapbox-map.tsx:163-182 | Adds a layer whose source is present, keeping "layer ⇒ its source exists" |
| MapboxMap.MapboxMapWidget.RemoveLayer | components/mapbox-map.tsx:103-108 | Removes the layer |
| MapboxMap.MapboxMapWidget.RemoveSource | components/mapbox-map.tsx:109 | Removes a source only when no layer uses it |
| MapboxMap.MapboxMapWidget.Update | components/mapbox-map.tsx:92-253 | A no-op until loaded; then the source and both layers exist iff the selection has a polygon; markers and camera follow the selection; each drawn polygon adds a click handler |
| MapboxMap.MapboxMapWidget.ClearHabitat | components/mapbox-map.tsx:102-110 | Removes both layers before the source, leaving neither |
| MapboxMap.MapboxMapWidget.DrawSelection | components/mapbox-map.tsx:112-220 | One selected marker, the habitat source and fill/line layers in the category colour when there is a polygon, camera on the species |
| MapboxMap.MapboxMapWidget.DrawHabitat | components/mapbox-map.tsx:157-199 | Adds the source, then the fill (opacity 0.4) and line (width 2) layers, then a click handler |
| MapboxMap.MapboxMapWidget.DrawOverview | components/mapbox-map.tsx:223-251 | One marker per species and the overview camera |
| MapboxMap.MapboxMapWidget.Unmount | components/mapbox-map.tsx:84-89 | The map and everything on it are gone |
| LiveWeather.Round | components/LiveWeather.tsx:46 | `Math.round` lands within half a unit of its argument |
| LiveWeather.WindSpeed | components/LiveWeather.tsx:48 | speed × 3.6 rounded, or 0 when the speed is missing |
| LiveWeather.StatusDigits | components/LiveWeather.tsx:40 | The status prints as its three decimal digits |
| LiveWeather.Decode | components/LiveWeather.tsx:43-51 | Succeeds iff the body has `main` and a non-empty `weather` whose first entry is not `null` (a `null` entry fails reading `description` of null); then temperature is the rounded temp (NaN, as `None`, when temp is missing), humidity is carried as is (undefined, as `None`, when missing), wind the converted speed, description and icon from `weather[0]`, each `None` (undefined) when missing |
| LiveWeather.DecodedScreen | components/LiveWeather.tsx:77-115 | After a decoded fetch the card shows the decoded weather with its code's icon; a missing icon makes the render throw reading `includes` of undefined, and a missing description is shown as nothing |
| LiveWeather.Attempt | components/LiveWeather.tsx:29-33 | A missing or empty key fails with "OpenWeather API key not configured" |
| LiveWeather.AttemptCases | components/LiveWeather.tsx:35-51 | A thrown fetch fails; a non-OK status fails with "Weather API error: <status>"; an OK answer is decoded |
| LiveWeather.WeatherIcon | components/LiveWeather.tsx:77-85 | "01" gives Sun (and only it does); else "02"/"03" give Cloud; else "09"/"10" give CloudRain; otherwise Cloud |
| LiveWeather.LeadingGroupOnly | components/LiveWeather.tsx:81-83 | For a standard code (two digits and a letter) a two-digit pattern occurs only as its leading group |
| LiveWeather.StandardCodeIcon | components/LiveWeather.tsx:77-85 | For a standard code the icon depends only on its leading group |
| LiveWeather.WeatherWidget.constructor | components/LiveWeather.tsx:16-18 | Loading, no weather, no error |
| LiveWeather.WeatherWidget.FetchWeather | components/LiveWeather.tsx:20-67 | Ends not loading with weather set: on success the decoded weather and no error; on any failure the message and the fixed fallback weather |
| LiveWeather.WeatherWidget.NeverUnavailable | components/LiveWeather.tsx:87-111 | In every reachable state the "Unable to load weather data" screen is not chosen |

## Left out

- I/O is not modelled. The CSV stream, `fetch`, the `HEAD` existence check, `FileReader`/`Image`, canvas `toDataURL`/JPEG encoding, `prompt`, `alert`, `window.open` and console logging become parameters or counters. For example, an alert is a counter increment and a fetched file is a `Result`.
- `parseFloat`, `Number`, `proj4` and the UTM-to-WGS84 series are parameters. Their numeric behaviour is not modelled: prefix parsing, `Number("")` being 0, and floating-point geodesy.
- JavaScript numbers are exact reals or NaN. Infinities and float rounding are not modelled.
- Observations.CategoryMapTable: keys inherited from `Object.prototype` (such as "constructor") are not modelled, because row values are plain data and the table is read as a four-entry map.
- Text.Lower: only ASCII `A`–`Z` are folded. `toLowerCase` folds all of Unicode, so a term such as "Äsche" becomes "äsche" in the code but keeps its "Ä" in the model.
- SurveyLoader.SurveyBoundsOrdered: takes slope bounds on the series across the survey extent as hypotheses (at least a per metre north and at most b per metre east in latitude, at least g per metre east and at most h per metre north in the longitude offset, with a times the extent's height, about 242.16 m, above b times its width, about 177.60 m, and g times the width above h times the height). The zone-32N series, with its sines and cosines, is a parameter, so the model does not derive these bounds (about a = 1.56e-7, b = 3.1e-9, g = 2.5e-7, h = 5e-9 radians per metre) from the trigonometry.
- SurveyLoader.SurveyBounds: uses the corrected conversion (see Findings). The code as written would hand the map longitudes about 506.66 degrees too large.
- WikiPage.FilteredDataExact: a record whose `scientificName` is missing is searched as "" where the component would throw a TypeError once the name did not match. CSV exports always carry the column.
- GeoTiff.Scale: exact reals replace the float product `width * scale`, so the model's floor is exact where the code's float could fall one short. The model states the exact value.
- GeoTiff.ConvertToWgs84: conversion failure is the projection parameter answering `None`. What `proj4` accepts is not modelled.
- Raster.ClampedStore: stores round half to even, like `Uint8ClampedArray`. Samples that are NaN or infinite are not modelled.
- `setTimeout` delays are taken as immediate. This covers the ref `openPopup`, the map-ready callback and the auto-load delay. `onMapReady` is not modelled.
- The `setInterval` refresh is the caller calling `FetchWeather` again; clearing the interval is not modelled.
- Presentation is not modelled: `toFixed` formatting, icon and badge styling beyond the variant, hover handlers, and fields that are only displayed (description, lastSeen, numberOfSpecies, value, type).
- `downloadProcessed` in the uploader is not modelled: it only triggers a browser download.
- The `isDay` computation in `getWeatherIcon` is not modelled: both of its branches return Sun.
- Only the final status message of the uploader is modelled. The intermediate progress messages are not.
- The document-wide `querySelectorAll` marker removal in the Mapbox map is modelled as clearing that widget's markers.
- Calls on a removed map are treated as no-ops.
- Leaflet's own `fitBounds` zoom computation is a `FitBounds` view value, not a zoom.
- React scheduling (effects, re-renders, state batching) is not modelled. Build, update and teardown are explicit method calls in sequence.

## Findings

| source | as written | input that shows it | evidently intended | confidence | as-written member | corrected member |
|---|---|---|---|---|---|---|
| components/SimpleTiffLoader.tsx:59-62 | `utmToWgs84` adds the central meridian 9 (degrees) to the longitude offset in radians, then multiplies the sum by 180/π | any point on the central meridian (offset 0) gives about 515.66 degrees instead of 9 | the offset scaled to degrees, then 9 added: 9 + offset·180/π | high, not executed | SurveyLoader.AsWrittenLongitudeShift | SurveyLoader.CentralMeridianKept |

## Behaviour worth knowing

- StationMap.InitialViewSurvives: whenever there are stations, the zoom picked from their span (10/13/15/16) is overridden by the later `fitBounds` on the same stations. The span rule only ever shows when there are no stations and no overlay, and then it is the default zoom 13.
- StationMap.StationMapComponent.Build: the global registry is emptied only when this component still holds a map. The effect's cleanup (LeafletMap.tsx:299-313) always runs before the effect runs again and drops the component's map, so that branch never fires: on every build, first or not, stale global entries survive alongside the new ones. `StationMap.StationMapComponent.Rerun` (cleanup, then build) states this.
- StationMap.StationMapComponent.Unmount: unmounting removes the map but leaves the global map reference pointing at it. A later global `openStationPopup` then targets a removed map.
- MapboxMap.MapboxMapWidget.Update: each redraw of a polygon registers another click handler, and the count is never decreased.
- SurveyLoader.PromptOrdersTransposed: the two manual-coordinate prompts read four numbers in different orders. The uploader reads west,south,east,north and the survey loader reads south,west,north,east, so the same text gives transposed bounds.
- TiffUploader.ElongatedRasterFallsBack: a GeoTIFF more than 2048 times longer than it is wide (or tall) scales one canvas side to 0, so `createImageData` throws and the file falls back to the plain-image path with the prompt, although its georeferencing was readable.
- LiveWeather.WeatherWidget.NeverUnavailable: every failure sets the fallback weather, so the "Unable to load weather data" screen is unreachable.
