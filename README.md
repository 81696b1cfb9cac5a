# Barcelona metro map: layer handling and population points

This project models two parts of a small web map of Barcelona.

The first is the page script `static/js/map.js`. It creates a MapLibre GL map on a blank style. On `load` it registers:
- three raster base maps;
- eight overlays: the cadastre, the 3D buildings, the metro lines and stops, the population heatmap, the station demand circles, and the L1 and L12 extensions.

It then re-orders the overlays. Each is moved below the first symbol layer, or below the 3D buildings when the style has no symbol layer. The registered style has none, so the overlays go below the 3D buildings, and the 3D buildings are then put on top. Event handlers switch the base map, the overlays, the terrain, the heatmap sliders, the 3D camera and the layers panel. The terrain can only be switched on once `load` has added its source. A loop corrects the longitude of the station popup across the antimeridian.

The second is the batch script `poblacion.py`. It reads the cadastre's buildings and keeps the residential ones. It cleans and sums their dwelling counts and divides the 2024 population of Barcelona (1 686 208) by that total. It then writes at most one point per residential building, each with an estimated population. A building whose geometry cannot be reduced to a point is skipped.

Modules:
- `LayerStyle` (layer_style.dfy): a map style as an ordered list of layers, and what the library calls the script makes do to that list.
- `MapLibre` (maplibre.dfy): class `MapLibreMap`, the map object, with one method per library call.
- `LayerOrder` (layer_order.dfy): the re-ordering of the `load` handler, and a closed form of its result.
- `MapLayers` (map_layers.dfy): the registered layers, `setBaseMap` as a function, and the state after `load`.
- `MapRules` (map_rules.dfy): the longitude loop, the 3D camera target and the panel toggle.
- `MapScript` (map_script.dfy): class `MapPage`, the script itself.
  - Its field `theMap` is the script's `let map`, null until `initializeMap` runs.
  - It also holds the two DOM displays the handlers write and the map clicks armed by the layers button.
  - Every handler is a method proved against the functions above.
- `Poblacion` (poblacion.dfy): the population script.
  - Its loops are methods proved equal to specification functions.
  - The properties of the output are lemmas about those functions.
- `Wrappers` (wrappers.dfy): `Option`.

## Model

| member | source | states |
|---|---|---|
| LayerStyle.Find | static/js/map.js:281 | `getLayer`: the position found holds a layer with that id and no earlier layer has it, or no layer has it |
| LayerStyle.Add | static/js/map.js:113-118 | `addLayer`: the layer is appended on top when its id is new; a repeated id is assumed to leave the style unchanged. `MapLayers.AddNext` states when it appends |
| LayerStyle.SetVisibility | static/js/map.js:330 | `setLayoutProperty(id, 'visibility', v)`: same length, every layer named `id` gets `v`, every other layer is unchanged. Properties in `VisibilityRoundTrip`, `VisibilityLastWriteWins` and `SettersKeepIds` |
| LayerStyle.SetPaint | static/js/map.js:408 | `setPaintProperty(id, prop, x)`: same length, every layer named `id` gets `prop` set to `x`, every other layer is unchanged. `SettersKeepIds` states that ids, types and order are kept |
| LayerStyle.Move | static/js/map.js:286 | `moveLayer(id, before)`: the layer is taken out and reinserted directly below `before`, or on top without `before`; a missing layer or `before` is assumed to change nothing. Properties in `MovePermutes`, `MovePreservesUniqueIds`, `MoveOnTop`, `MoveBelowAdjacent` and `MoveTopmost` |
| LayerStyle.FirstSymbolIsFirst | static/js/map.js:283 | the symbol-layer search finds nothing iff no layer is a symbol layer, and otherwise returns the lowest symbol layer |
| LayerStyle.HasPermuted | static/js/map.js:281 | two styles holding the same layers in different orders agree on which ids `getLayer` finds |
| LayerStyle.MovePermutes | static/js/map.js:286 | `moveLayer` only permutes the layers: none is lost, added or altered |
| LayerStyle.MovePreservesUniqueIds | static/js/map.js:286 | `moveLayer` keeps the layer ids distinct |
| LayerStyle.MoveOnTop | static/js/map.js:291 | `moveLayer` without `before` puts the layer on top and keeps the others in their order |
| LayerStyle.MoveTopmost | static/js/map.js:290-292 | moving the top layer on top again changes nothing |
| LayerStyle.MoveBelowAdjacent | static/js/map.js:286 | moving a layer below another existing layer leaves it directly below that layer |
| LayerStyle.VisibilityRoundTrip | static/js/map.js:375-378 | switching a hidden layer on and then off restores the style exactly |
| LayerStyle.VisibilityLastWriteWins | static/js/map.js:375-432 | of two visibility writes to one layer, only the last counts |
| LayerStyle.SettersKeepIds | static/js/map.js:375-432 | visibility and paint writes change no id, no layer type and no order |
| MapLibre.MapLibreMap.MoveLayer | static/js/map.js:286 | the map's layers become the moved list, which is a permutation of the old one; sources, terrain and camera are kept |
| MapLibre.MapLibreMap.AddLayer | static/js/map.js:113-118 | the map's layers become `Add` of the old ones; sources, terrain and camera are kept |
| MapLibre.MapLibreMap.SetLayoutProperty | static/js/map.js:330 | the map's layers become `SetVisibility` of the old ones; sources, terrain and camera are kept |
| MapLibre.MapLibreMap.SetPaintProperty | static/js/map.js:408 | the map's layers become `SetPaint` of the old ones; sources, terrain and camera are kept |
| MapLibre.MapLibreMap.SetTerrain | static/js/map.js:364-370 | `setTerrain`: the terrain becomes the argument, or none for `null`, except that a terrain whose source the map does not have is refused and the terrain is unchanged; layers, sources and camera are kept |
| MapLibre.MapLibreMap.AddSource | static/js/map.js:92-100 | `addSource`: the id joins the map's sources; layers, terrain and camera are kept |
| MapLibre.MapLibreMap.EaseTo | static/js/map.js:438-441 | `easeTo`: pitch and bearing end at the requested values; layers, sources and terrain are kept |
| LayerOrder.LayersToMoveFacts | static/js/map.js:276-279 | the list of layers to move names each overlay once and does not name the 3D buildings |
| LayerOrder.Anchor | static/js/map.js:283-284 | the layer the overlays are moved below: the lowest symbol layer, or `buildings-3d-layer` when there is none. `AnchorStable` shows the moves keep it; `FirstSymbolIsFirst` characterises the search |
| LayerOrder.MoveAll | static/js/map.js:280-288 | the `forEach`: each listed layer that exists is moved below the current anchor, in list order. Closed form in `MoveAllPlaces`; permutation in `MoveAllPermutes` |
| LayerOrder.BuildingsOnTop | static/js/map.js:289-292 | the final move of `buildings-3d-layer` on top when it exists. `ReorderedBuildingsOnTop` states the effect |
| LayerOrder.Reordered | static/js/map.js:276-292 | the whole re-ordering: the `forEach`, then the 3D buildings on top. Properties in `ReorderedPermutes`, `ReorderedBuildingsOnTop` and `MapLayers.LoadOrder` |
| LayerOrder.MoveAllPermutes | static/js/map.js:280-288 | the `forEach` only permutes the layers |
| LayerOrder.MoveAllUnique | static/js/map.js:280-288 | the `forEach` keeps the layer ids distinct |
| LayerOrder.MoveAllPlaces | static/js/map.js:280-288 | with an anchor that exists and is not listed, the result is the unlisted layers in their old order, with the listed layers that exist inserted contiguously, in list order, immediately below the anchor |
| LayerOrder.MoveAllWithoutAnchor | static/js/map.js:283-286 | with no symbol layer and no 3D buildings, every move is modelled as refused, so the style is unchanged; this rests on the assumption for a missing `before` stated under "Left out" |
| LayerOrder.ReorderedPermutes | static/js/map.js:276-292 | the whole re-ordering is a permutation of the layers, so every layer keeps its visibility and paint |
| LayerOrder.ReorderedBuildingsOnTop | static/js/map.js:289-292 | when the 3D buildings exist, they end up as the top layer |
| MapLayers.AddNext | static/js/map.js:113-118 | adding the next layer of a list with distinct ids appends it, because its id is not in the style yet |
| MapLayers.Registered | static/js/map.js:62-272 | the style after every `addLayer` of `load`, bottom to top: background, the three base maps, then the eight overlays in source order, with their types, visibility and numeric paint. `RegisteredIds`, `RegisteredUnique` and `RegisteredVisibility` state its ids, their distinctness and which layers show |
| MapLayers.RegisteredIds | static/js/map.js:111-272 | the registered ids, in registration order |
| MapLayers.SelectBase | static/js/map.js:328-332 | the `forEach` of `setBaseMap`: each listed base map that exists is shown iff it is the selected one. Closed form in `SelectBaseEffect` |
| MapLayers.RegisteredUnique | static/js/map.js:111-272 | no two registered layers share an id, so no `addLayer` of the `load` handler is refused |
| MapLayers.RegisteredVisibility | static/js/map.js:111-272 | once registered, the background, `osm` and the 3D buildings are visible and every other layer is hidden |
| MapLayers.SelectBaseEffect | static/js/map.js:326-333 | `setBaseMap` keeps the length and order of the layers; a listed base map that exists is visible iff it is the selected one; every other layer and every paint value is untouched |
| MapLayers.SelectBaseExclusive | static/js/map.js:326-333 | after `setBaseMap(s)` a base map is visible iff it is `s`, and the selected base map shows when it exists |
| MapLayers.SelectBaseKeepsIds | static/js/map.js:326-333 | `setBaseMap` changes no id and no order |
| MapLayers.MovedWithoutSymbols | static/js/map.js:280-288 | on a style with no symbol layer, laid out as the registered one, the listed overlays land in list order between the bottom four layers and the 3D buildings |
| MapLayers.BuildingsStayOnTop | static/js/map.js:289-292 | the 3D buildings, already on top, are not moved by the final `moveLayer` |
| MapLayers.LoadOrder | static/js/map.js:111-292 | after `load`, the ids are distinct and in this order: background, the three base maps, the overlays in `layersToMove` order, the 3D buildings on top |
| MapLayers.LoadVisibility | static/js/map.js:111-292 | after `load`, exactly the background, `osm` and the 3D buildings are visible |
| MapRules.Unwrapped | static/js/map.js:304-306 | the corrected longitude is within 180 degrees of the click, and equals the original longitude when that was already within 180 |
| MapRules.Turns | static/js/map.js:304-306 | the number of turns is positive only when the click is more than 180 east, negative only when it is more than 180 west, and zero iff the longitude is already within 180 |
| MapRules.UnwrappedByTurns | static/js/map.js:304-306 | the corrected longitude differs from the original by a whole number of 360-degree turns |
| MapRules.TurnsUnique | static/js/map.js:304-306 | no other number of turns brings the longitude strictly within 180 degrees of the click |
| MapRules.UnwrappedExample | static/js/map.js:304-306 | a click at 170 on a station at -170 moves the popup one turn east, to 190 |
| MapRules.CorrectLongitude | static/js/map.js:304-306 | the `while` loop ends with the longitude at the corrected value and the latitude untouched |
| MapRules.Toggle3DTarget | static/js/map.js:436-442 | a camera with pitch above 0 is given pitch 0, otherwise pitch 60; the target is always one of the two |
| MapRules.Toggle3DAlternates | static/js/map.js:436-442 | successive targets of the 3D button alternate between the two views, once each ease has ended |
| MapRules.NextPanelDisplay | static/js/map.js:342-343 | the panel becomes `block` iff it was not `block`, and is always `block` or `none` |
| MapRules.PanelToggleTwice | static/js/map.js:342-343 | two clicks from an open or closed panel leave it as it was |
| MapScript.CheckboxLayersDistinct | static/js/map.js:374-432 | each overlay checkbox drives a layer of its own, and that layer is one the `load` handler registers |
| MapScript.VisibilityFor | static/js/map.js:377 | a checkbox's visibility is `visible` iff the box is checked |
| MapScript.MapPage.constructor | static/js/map.js:4 | before `initializeMap` the map is undefined and no map click is armed |
| MapScript.MapPage.InitializeMap | static/js/map.js:61-80 | a new map on the blank style: only the background layer, no source, no terrain, a flat camera |
| MapScript.MapPage.OnLoad | static/js/map.js:85-292 | the `load` handler turns the blank style into the re-ordered registered layers, adds the terrain source, one source per base map and the overlays' sources, and keeps the terrain and the camera |
| MapLayers.LoadedSources | static/js/map.js:92-258 | the ids of every source the `load` handler adds: the terrain source first, one per base map, one per overlay |
| MapScript.MapPage.RegisterLayers | static/js/map.js:111-272 | the `addSource` and `addLayer` calls of `load` after the terrain source produce the registered layer list and add the base-map and overlay sources |
| MapScript.MapPage.RegisterBaseMaps | static/js/map.js:111-119 | the base-map loop adds a source named after each base map and the three base-map layers in order, only `osm` visible |
| MapScript.MapPage.RegisterOverlays | static/js/map.js:121-272 | the eight overlays are added in order, each with its source, each on top of the previous one |
| MapScript.MapPage.RegisterCityOverlays | static/js/map.js:121-185 | the cadastre, 3D buildings, metro lines and metro stops come next, with their four sources |
| MapScript.MapPage.RegisterTransitOverlays | static/js/map.js:187-272 | the heatmap, station demand and the two planned lines come last, with their four sources |
| MapScript.MapPage.AddRegistered | static/js/map.js:122-272 | one overlay: its `addSource` adds its source id, then its `addLayer` puts the next registered layer on top |
| MapScript.MapPage.ReorderLayers | static/js/map.js:276-292 | the re-ordering loop and the final move leave the layers at the re-ordered list and change nothing else |
| MapScript.MapPage.SetBaseMap | static/js/map.js:326-333 | nothing happens when the map is undefined; otherwise the layers become the base-map selection and terrain and camera are kept |
| MapScript.MapPage.OnBaseMapRadioChange | static/js/map.js:351-355 | a radio that becomes checked selects its base map; an unchecked one changes nothing |
| MapScript.MapPage.OnTerrainChange | static/js/map.js:360-372 | nothing happens when the map is undefined; otherwise unchecking turns the terrain off, and checking turns on `maptiler-terrain` at 1.5 once `load` has added that source, but is refused and leaves the terrain as it was before then; layers, sources and camera are kept |
| MapScript.TerrainTickedBeforeLoad | static/js/map.js:360-372 | ticking the terrain box while the map is still loading leaves the terrain off, still off after `load`; ticking it again then turns it on |
| MapScript.MapPage.OnCheckboxChange | static/js/map.js:374-432 | nothing changes when the map or the box's layer is missing; otherwise only that layer's visibility follows the box, and the heatmap box also sets the slider container to `flex` or `none` |
| MapScript.MapPage.OnSliderInput | static/js/map.js:406-414 | nothing changes when the map or the heatmap is missing; otherwise exactly one paint property of the heatmap, radius or intensity, takes the value |
| MapScript.MapPage.OnToggle3D | static/js/map.js:436-442 | the camera eases to the target for its current pitch; layers, sources and terrain are kept |
| MapScript.MapPage.OnLayersToggleClick | static/js/map.js:340-345 | the panel display flips, and opening it arms one close on the next map click |
| MapScript.MapPage.OnMapClick | static/js/map.js:344 | a map click with an armed close closes the panel and disarms it; otherwise nothing changes |
| Poblacion.ResidentialCount | poblacion.py:34-39 | the residential list holds each residential feature exactly as often as the input, and no other feature |
| Poblacion.ResidentialAppend | poblacion.py:34-39 | filtering two lists one after the other gives the two filtered lists one after the other, so input order is kept |
| Poblacion.Residential | poblacion.py:34-39 | the residential features, in input order; never more than the input. Counts and membership in `ResidentialCount`, order in `ResidentialAppend` |
| Poblacion.FilterResidential | poblacion.py:34-39 | the filter loop returns the residential features |
| Poblacion.TruncateTowardZero | poblacion.py:54-55 | converting a float to an integer truncates toward zero, for either sign |
| Poblacion.CleanRoundTrip | poblacion.py:49-60 | cleaning gives back every whole number stored as an integer, as a float or as a parsable string |
| Poblacion.Clean | poblacion.py:49-60 | the cleaning of `numberOfDwellings`: numbers truncated, parsable strings parsed, everything else 0. `CleanRoundTrip` states the successful cases, `CleanFallsBack` the others |
| Poblacion.CleanFallsBack | poblacion.py:49-60 | an unparsable string, null, a list or an object cleans to 0, and a boolean cleans to 1 or 0 as Python's `int` gives |
| Poblacion.DwellingsMissing | poblacion.py:51 | a building without `numberOfDwellings` counts no dwellings |
| Poblacion.TotalDwellingsAppend | poblacion.py:47-62 | the total over two lists of buildings is the sum of their totals |
| Poblacion.AnnotateReadBack | poblacion.py:64 | the stored cleaned count reads back as the cleaned count; the geometry and every other property are untouched |
| Poblacion.SumDwellings | poblacion.py:47-64 | the dwelling loop returns the sum of the cleaned counts and the features annotated with their counts |
| Poblacion.RatioScales | poblacion.py:72 | the index times the total dwellings is the population of Barcelona |
| Poblacion.Projected | poblacion.py:82-117 | the output has no more points than there are residential features |
| Poblacion.ProjectOne | poblacion.py:85-111 | the point feature built for one building whose geometry converts: the point geometry, the reference and area read from the properties, the stored cleaned count and that count times the index. `AnnotatedPoint` and `ProjectedEstimates` state its properties |
| Poblacion.PropertiesOf | poblacion.py:96-102 | each output point has exactly four properties: `referencia_catastral` holds its reference, `metros_cuadrados` its area, `viviendas` its cleaned count and `poblacion_estimada` its estimate |
| Poblacion.Project | poblacion.py:82-111 | the conversion loop returns the projected points |
| Poblacion.ProjectedIsSubsequence | poblacion.py:82-117 | the output is the points of the features whose geometry converts, in input order, and every feature that converts is kept |
| Poblacion.EstimatesProportional | poblacion.py:85-86 | when every point's estimate is its dwellings times the index, the estimates add up to the total output dwellings times the index |
| Poblacion.ProjectedEstimates | poblacion.py:85-86 | every output point's estimate is its cleaned count times the index |
| Poblacion.PopulationProportional | poblacion.py:85-86 | the output estimates add up to the output dwellings times the index |
| Poblacion.AllConvertedKeepsDwellings | poblacion.py:82-117 | when every geometry converts, the output dwellings add up to the residential total |
| Poblacion.Share | poblacion.py:72 | estimates summing at the index share the population in proportion to dwellings, and add up to all of it when every dwelling is in the output |
| Poblacion.AnnotatedPoint | poblacion.py:85-102 | annotation does not change whether the geometry converts, and the point of a converted feature carries its reference, area, cleaned count and estimate |
| Poblacion.ProjectedFromResidential | poblacion.py:82-117 | each output point describes the residential building at its index, and the indices increase |
| Poblacion.Apportion | poblacion.py:30-126 | the script's top level returns the outcome of the analysis |
| Poblacion.Analysis | poblacion.py:30-126 | the outcome of a run: no residential feature, a zero total, or the written collection. `AnalysisOutcome`, `WrittenFeatures`, `PopulationShared` and `PopulationConserved` state its properties |
| Poblacion.AnalysisOutcome | poblacion.py:43-126 | no output iff no feature is residential, or iff the cleaned counts sum to zero; otherwise the collection is named `barcelona_population_points`, has the input's `crs` exactly when the input has one, and has at most one point per residential building |
| Poblacion.WrittenFeatures | poblacion.py:82-117 | each written point describes one residential building, in order: its reference, its area, its cleaned count and count times index |
| Poblacion.PointObject | poblacion.py:96-102 | a point that describes a building writes a properties object holding exactly the four keys, with that building's reference, area, cleaned count and estimate |
| Poblacion.WrittenProperties | poblacion.py:82-111 | the properties object of each written point is that of the residential building it comes from, in order: reference, area, cleaned count and count times index under the four output keys |
| Poblacion.PopulationShared | poblacion.py:72-86 | the written estimates add up to the population of Barcelona times the fraction of dwellings that reached the output |
| Poblacion.PopulationConserved | poblacion.py:72-86 | when no geometry fails, the written estimates add up to exactly the population of Barcelona |

## Left out

- Rendering is not modelled: tiles, the data behind sources, GeoJSON loading, `setLight`, the navigation and scale controls, and the `easeTo` animation. The map is reduced to its layer list, the ids of its sources, its terrain and its final pitch and bearing.
- The popup's HTML and number formatting are not modelled; only the longitude loop before them is. The screenshot button is not modelled either: it is canvas and download plumbing.
- `parseFloat` of the slider values is left out: `OnSliderInput` takes the number directly.
- `stopPropagation` on the button and the panel is left out: it is DOM event plumbing, and the panel is modelled as a two-state display.
- Paint properties are modelled only as numeric values. Colours and data expressions are not numbers, so they are left out.
- `moveLayer` to a missing `before` layer is assumed to do nothing. This is a modelling assumption, not a statement about the library, and the script never reaches that case because `buildings-3d-layer` is always registered.
- `addLayer` with an id already in the style is likewise assumed to be a no-op. It never happens during `load`, as `MapLayers.RegisteredUnique` shows.
- `addSource` with an id the map already has is assumed to keep the sources as they were. The `load` handler adds twelve distinct ids to a map that starts with none.
- `addLayer` does not check that its layer's source exists. Every layer of `load` is added right after its source, so the check never fails there.
- MapLibre.MapLibreMap.SetTerrain: a terrain whose source is missing is refused by throwing. The model keeps the old terrain and does not model the uncaught exception in the checkbox handler.
- MapScript.MapPage.OnLoad: requires the map to still hold the blank style. `load` fires asynchronously, and other handlers can run before it, but none of them changes the layers of a blank style. `setBaseMap`, the checkboxes and the sliders each check `getLayer` for a layer the blank style lacks before writing (static/js/map.js:329, 376-430). The terrain checkbox and the 3D button change no layer.
- MapScript.MapPage.OnToggle3D: with no map the handler throws; the model leaves the page unchanged.
- MapScript.MapPage.OnLayersToggleClick: with no map the display is written and then `map.once` throws; the model arms no close.
- The way `map.once` handlers fire is modelled as a counter of armed closes. All of them fire on the next map click.
- File I/O, `json.load`/`json.dump` and the progress messages of `poblacion.py` are not modelled. The input is an already parsed document.
- Malformed input that ends the run in the outer exception handler is not modelled. This includes a `properties` that is not an object and `features` that is not a list.
- Python's `int` on a string is the parameter `parse`, with `None` where `int` raises.
- shapely's `shape` and `representative_point` are the parameter `point`, with `None` where they raise.
- The `gml_id` warning printed for a skipped building is left out. Only the skipping is modelled.
- Floats are exact reals. IEEE rounding of the index and the estimates is not modelled.
- MapRules.Unwrapped: longitudes and clicks in `static/js/map.js` are exact reals, not doubles. Non-finite and huge longitudes are therefore excluded: in doubles a NaN longitude skips the loop, and from about 2^62 an added 360 is absorbed so the loop never ends. The termination proof holds only for reals.
- MapRules.CorrectLongitude: the same holds for the loop itself, which is proved to end only in real arithmetic.
- The other numbers of `static/js/map.js` (pitch, bearing, slider values, paint values) are exact reals too.
- `int(nan)` and `int(inf)` are not modelled. They raise outside the inner `try` and end the run.
- Poblacion.SumDwellings: the cleaned count is written into a copy of each feature, a value, rather than in place. The model therefore does not show that the shallow `feature.copy()` lets the write reach the input document's own properties.
- `toJson.py`, `app.py` and `main.py` are not part of this model. They are spreadsheet conversion and web routes that pass constants to templates.
