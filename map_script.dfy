/**
 * The page script static/js/map.js as a class: the module-level `map`
 * (undefined until `initializeMap` runs), the two DOM styles the handlers
 * write, and the map-click handlers the layers button leaves armed. Each
 * event handler of the script is one method.
 */
module MapScript {
  import opened Wrappers
  import opened LayerStyle
  import opened LayerOrder
  import opened MapLibre
  import opened MapLayers
  import opened MapRules

  /** The overlay checkboxes that show or hide one layer each. */
  datatype Checkbox =
    | CatastroBox | BuildingsBox | MetroLinesBox | MetroStopsBox
    | PopulationHeatmapBox | StationDemandBox | AmpliacioL1Box | L12Box

  /** The layer each checkbox drives. */
  function CheckboxLayer(box: Checkbox): string {
    match box
    case CatastroBox => "catastro-layer"
    case BuildingsBox => Buildings3D
    case MetroLinesBox => "metro-lines-layer"
    case MetroStopsBox => "metro-stops-layer"
    case PopulationHeatmapBox => HeatmapId
    case StationDemandBox => "station-demand-layer"
    case AmpliacioL1Box => "ampliacio-l1-layer"
    case L12Box => "l12-layer"
  }

  /** Each checkbox drives a layer of its own, one the `load` handler registers. */
  lemma CheckboxLayersDistinct(a: Checkbox, b: Checkbox)
    ensures CheckboxLayer(a) == CheckboxLayer(b) ==> a == b
    ensures CheckboxLayer(a) in LoadedOrder
  {
  }

  /** The two heatmap sliders. */
  datatype Slider = RadiusSlider | IntensitySlider

  /** The paint property each slider sets on the heatmap layer. */
  function SliderProperty(s: Slider): string {
    match s
    case RadiusSlider => "heatmap-radius"
    case IntensitySlider => "heatmap-intensity"
  }

  /** `checked ? 'visible' : 'none'`. */
  function VisibilityFor(checked: bool): (v: Visibility)
    ensures v == Visible <==> checked
  {
    if checked then Visible else Hidden
  }

  /** The terrain the 3D terrain checkbox switches on. */
  const Terrain3D: Terrain := Terrain(TerrainSource, 1.5)

  class MapPage {
    /** The script's `let map;`: null until `initializeMap` has run. */
    var theMap: MapLibreMap?
    /** `heatmapSliderContainer.style.display`. */
    var sliderDisplay: string
    /** `layersPanel.style.display`. */
    var panelDisplay: string
    /** `map.once('click', ...)` handlers registered by the layers button and not yet fired. */
    var pendingCloses: nat

    /** The page before `initializeMap`, with the displays its stylesheet gives. */
    constructor (slider: string, panel: string)
      ensures theMap == null && sliderDisplay == slider && panelDisplay == panel && pendingCloses == 0
    {
      theMap := null;
      sliderDisplay := slider;
      panelDisplay := panel;
      pendingCloses := 0;
    }

    /** `initializeMap`, up to the `load` event: a new map on the blank style. */
    method InitializeMap()
      modifies this
      ensures fresh(theMap) && theMap.layers == BlankStyle() && theMap.sources == {} && theMap.terrain == None
      ensures theMap.pitch == 0.0 && theMap.bearing == 0.0
      ensures sliderDisplay == old(sliderDisplay) && panelDisplay == old(panelDisplay)
      ensures pendingCloses == old(pendingCloses)
    {
      theMap := new MapLibreMap(BlankStyle());
    }

    /**
     * The `load` handler: the terrain source is added, then the base maps
     * and the overlays with their sources, in order, then the layers are
     * re-ordered. The terrain and the camera are kept.
     */
    method OnLoad()
      requires theMap != null && theMap.layers == BlankStyle()
      modifies theMap
      ensures theMap.layers == Reordered(Registered())
      ensures theMap.sources == old(theMap.sources) + LoadedSources()
      ensures theMap.terrain == old(theMap.terrain) && theMap.pitch == old(theMap.pitch)
      ensures theMap.bearing == old(theMap.bearing)
    {
      theMap.AddSource(TerrainSource);
      RegisterLayers(theMap);
      ReorderLayers(theMap);
    }

    /** The `addSource` and `addLayer` calls of the `load` handler after the terrain's, in order: none is refused. */
    static method RegisterLayers(m: MapLibreMap)
      requires m.layers == BlankStyle()
      modifies m
      ensures m.layers == Registered()
      ensures m.sources == old(m.sources) + (set id | id in BaseMapIds) + OverlaySources
      ensures m.terrain == old(m.terrain) && m.pitch == old(m.pitch) && m.bearing == old(m.bearing)
    {
      RegisteredUnique();
      RegisterBaseMaps(m);
      RegisterOverlays(m);
    }

    /** The `forEach` over the base maps: a source and a raster layer each, only `osm` visible. */
    static method RegisterBaseMaps(m: MapLibreMap)
      requires m.layers == BlankStyle() && UniqueIds(Registered())
      modifies m
      ensures m.layers == Registered()[..4]
      ensures m.sources == old(m.sources) + (set id | id in BaseMapIds)
      ensures m.terrain == old(m.terrain) && m.pitch == old(m.pitch) && m.bearing == old(m.bearing)
    {
      var all := Registered();
      var ids := BaseMapIds;
      assert all[..1] == BlankStyle();
      for i := 0 to |ids|
        invariant m.layers == all[..1 + i]
        invariant m.sources == old(m.sources) + (set id | id in ids[..i])
        invariant m.terrain == old(m.terrain) && m.pitch == old(m.pitch) && m.bearing == old(m.bearing)
      {
        AddNext(all, 1 + i);
        assert all[1 + i] == BaseMapLayer(ids[i]);
        assert ids[..i + 1] == ids[..i] + [ids[i]];
        m.AddSource(ids[i]);
        m.AddLayer(BaseMapLayer(ids[i]));
      }
      assert ids[..|ids|] == ids;
    }

    /** The eight overlays, each with its source, each added on top of the previous one. */
    static method RegisterOverlays(m: MapLibreMap)
      requires m.layers == Registered()[..4] && UniqueIds(Registered())
      modifies m
      ensures m.layers == Registered()
      ensures m.sources == old(m.sources) + OverlaySources
      ensures m.terrain == old(m.terrain) && m.pitch == old(m.pitch) && m.bearing == old(m.bearing)
    {
      RegisterCityOverlays(m);
      RegisterTransitOverlays(m);
      assert Registered()[..12] == Registered();
    }

    /** The first four overlays: the cadastre, the 3D buildings and the metro lines and stops. */
    static method RegisterCityOverlays(m: MapLibreMap)
      requires m.layers == Registered()[..4] && UniqueIds(Registered())
      modifies m
      ensures m.layers == Registered()[..8]
      ensures m.sources == old(m.sources) + {"catastro-wms", "barcelona-buildings", "metro-lines", "metro-stops"}
      ensures m.terrain == old(m.terrain) && m.pitch == old(m.pitch) && m.bearing == old(m.bearing)
    {
      var all := Registered();
      AddRegistered(m, all, 4, "catastro-wms", CatastroLayer);
      AddRegistered(m, all, 5, "barcelona-buildings", BuildingsLayer);
      AddRegistered(m, all, 6, "metro-lines", MetroLinesLayer);
      AddRegistered(m, all, 7, "metro-stops", MetroStopsLayer);
    }

    /** The last four overlays: the population heatmap, the station demand and the two planned lines. */
    static method RegisterTransitOverlays(m: MapLibreMap)
      requires m.layers == Registered()[..8] && UniqueIds(Registered())
      modifies m
      ensures m.layers == Registered()[..12]
      ensures m.sources == old(m.sources) + {"population-points", "station-demand-source", "ampliacio-l1-source", "l12-source"}
      ensures m.terrain == old(m.terrain) && m.pitch == old(m.pitch) && m.bearing == old(m.bearing)
    {
      var all := Registered();
      AddRegistered(m, all, 8, "population-points", HeatmapLayer);
      AddRegistered(m, all, 9, "station-demand-source", StationDemandLayer);
      AddRegistered(m, all, 10, "ampliacio-l1-source", AmpliacioL1Layer);
      AddRegistered(m, all, 11, "l12-source", L12Layer);
    }

    /** One overlay of the `load` handler: its source, then its layer, the n-th of `all`, on top of the first n. */
    static method AddRegistered(m: MapLibreMap, all: seq<Layer>, n: nat, source: string, layer: Layer)
      requires UniqueIds(all) && n < |all| && m.layers == all[..n] && layer == all[n]
      modifies m
      ensures m.layers == all[..n + 1]
      ensures m.sources == old(m.sources) + {source}
      ensures m.terrain == old(m.terrain) && m.pitch == old(m.pitch) && m.bearing == old(m.bearing)
    {
      AddNext(all, n);
      m.AddSource(source);
      m.AddLayer(layer);
    }

    /**
     * "Ordenar capes": each listed overlay that exists is moved below the
     * first symbol layer, or below the 3D buildings; then the 3D buildings
     * are moved on top.
     */
    static method ReorderLayers(m: MapLibreMap)
      modifies m
      ensures m.layers == Reordered(old(m.layers))
      ensures m.sources == old(m.sources) && m.terrain == old(m.terrain)
      ensures m.pitch == old(m.pitch) && m.bearing == old(m.bearing)
    {
      var ids := LayersToMove;
      for i := 0 to |ids|
        invariant m.layers == MoveAll(old(m.layers), ids[..i])
        invariant m.sources == old(m.sources) && m.terrain == old(m.terrain)
        invariant m.pitch == old(m.pitch) && m.bearing == old(m.bearing)
      {
        var id := ids[i];
        if m.HasLayer(id) {
          var first := m.FirstSymbolLayer();
          var before := if first.Some? then first.value else Buildings3D;
          m.MoveLayer(id, Some(before));
        }
        assert ids[..i + 1][..i] == ids[..i];
      }
      assert ids[..|ids|] == ids;
      if m.HasLayer(Buildings3D) {
        m.MoveLayer(Buildings3D, None);
      }
    }

    /**
     * `setBaseMap(selected)`: nothing when the map is undefined; otherwise
     * each base map that exists is shown iff it is the selected one.
     */
    method SetBaseMap(selected: string)
      modifies theMap
      ensures theMap != null ==> theMap.layers == SelectBase(old(theMap.layers), BaseMapIds, selected)
      ensures theMap != null ==>
                theMap.sources == old(theMap.sources) && theMap.terrain == old(theMap.terrain)
                && theMap.pitch == old(theMap.pitch) && theMap.bearing == old(theMap.bearing)
    {
      if theMap == null {
        return;
      }
      var m := theMap;
      var ids := BaseMapIds;
      for i := 0 to |ids|
        invariant m.layers == SelectBase(old(m.layers), ids[..i], selected)
        invariant m.sources == old(m.sources) && m.terrain == old(m.terrain)
        invariant m.pitch == old(m.pitch) && m.bearing == old(m.bearing)
      {
        var id := ids[i];
        if m.HasLayer(id) {
          m.SetLayoutProperty(id, if id == selected then Visible else Hidden);
        }
        assert ids[..i + 1][..i] == ids[..i];
      }
      assert ids[..|ids|] == ids;
    }

    /** The base-map radio buttons: a radio that becomes checked selects its base map. */
    method OnBaseMapRadioChange(value: string, checked: bool)
      modifies theMap
      ensures theMap != null ==>
                theMap.layers == (if checked then SelectBase(old(theMap.layers), BaseMapIds, value) else old(theMap.layers))
      ensures theMap != null ==>
                theMap.sources == old(theMap.sources) && theMap.terrain == old(theMap.terrain)
                && theMap.pitch == old(theMap.pitch) && theMap.bearing == old(theMap.bearing)
    {
      if checked {
        SetBaseMap(value);
      }
    }

    /**
     * The 3D terrain checkbox: terrain on with exaggeration 1.5, or off.
     * Before `load` has added the terrain source, switching it on is refused.
     */
    method OnTerrainChange(checked: bool)
      modifies theMap
      ensures theMap != null && !checked ==> theMap.terrain == None
      ensures theMap != null && checked && TerrainSource in old(theMap.sources) ==> theMap.terrain == Some(Terrain3D)
      ensures theMap != null && checked && TerrainSource !in old(theMap.sources) ==> theMap.terrain == old(theMap.terrain)
      ensures theMap != null ==>
                theMap.layers == old(theMap.layers) && theMap.sources == old(theMap.sources)
                && theMap.pitch == old(theMap.pitch) && theMap.bearing == old(theMap.bearing)
    {
      if theMap == null {
        return;
      }
      theMap.SetTerrain(if checked then Some(Terrain3D) else None);
    }

    /**
     * An overlay checkbox: nothing when the map or its layer is missing;
     * otherwise only that layer's visibility follows the box, and the
     * heatmap box also shows or hides the slider container.
     */
    method OnCheckboxChange(box: Checkbox, checked: bool)
      modifies this, theMap
      ensures theMap == old(theMap) && panelDisplay == old(panelDisplay) && pendingCloses == old(pendingCloses)
      ensures theMap == null ==> sliderDisplay == old(sliderDisplay)
      ensures theMap != null ==>
                theMap.sources == old(theMap.sources) && theMap.terrain == old(theMap.terrain)
                && theMap.pitch == old(theMap.pitch) && theMap.bearing == old(theMap.bearing)
      ensures theMap != null && !Has(old(theMap.layers), CheckboxLayer(box)) ==>
                theMap.layers == old(theMap.layers) && sliderDisplay == old(sliderDisplay)
      ensures theMap != null && Has(old(theMap.layers), CheckboxLayer(box)) ==>
                theMap.layers == SetVisibility(old(theMap.layers), CheckboxLayer(box), VisibilityFor(checked))
                && sliderDisplay == (if box == PopulationHeatmapBox then (if checked then "flex" else "none")
                                     else old(sliderDisplay))
    {
      var id := CheckboxLayer(box);
      if theMap == null || !theMap.HasLayer(id) {
        return;
      }
      theMap.SetLayoutProperty(id, VisibilityFor(checked));
      if box == PopulationHeatmapBox {
        sliderDisplay := if checked then "flex" else "none";
      }
    }

    /** A heatmap slider: nothing when the map or the heatmap is missing; otherwise one paint property. */
    method OnSliderInput(s: Slider, x: real)
      modifies theMap
      ensures theMap != null ==>
                theMap.layers == (if Has(old(theMap.layers), HeatmapId)
                               then SetPaint(old(theMap.layers), HeatmapId, SliderProperty(s), x)
                               else old(theMap.layers))
      ensures theMap != null ==>
                theMap.sources == old(theMap.sources) && theMap.terrain == old(theMap.terrain)
                && theMap.pitch == old(theMap.pitch) && theMap.bearing == old(theMap.bearing)
    {
      if theMap == null || !theMap.HasLayer(HeatmapId) {
        return;
      }
      theMap.SetPaintProperty(HeatmapId, SliderProperty(s), x);
    }

    /**
     * The 3D button: ease to the target Toggle3DTarget gives for the current
     * pitch. The handler has no guard; with no map its call throws and nothing changes.
     */
    method OnToggle3D()
      modifies theMap
      ensures theMap != null ==>
                theMap.pitch == Toggle3DTarget(old(theMap.pitch)).pitch
                && theMap.bearing == Toggle3DTarget(old(theMap.pitch)).bearing
      ensures theMap != null ==>
                theMap.layers == old(theMap.layers) && theMap.sources == old(theMap.sources) && theMap.terrain == old(theMap.terrain)
    {
      if theMap == null {
        return;
      }
      var target := Toggle3DTarget(theMap.pitch);
      theMap.EaseTo(target.pitch, target.bearing);
    }

    /**
     * The layers button: the panel flips between open and closed; opening it
     * arms one more close on the next map click (not when the map is undefined:
     * the `map.once` call throws after the display is written).
     */
    method OnLayersToggleClick()
      modifies this
      ensures panelDisplay == NextPanelDisplay(old(panelDisplay))
      ensures pendingCloses == if old(panelDisplay) != "block" && theMap != null then old(pendingCloses) + 1
                               else old(pendingCloses)
      ensures theMap == old(theMap) && sliderDisplay == old(sliderDisplay)
    {
      var isVisible := panelDisplay == "block";
      panelDisplay := NextPanelDisplay(panelDisplay);
      if !isVisible && theMap != null {
        pendingCloses := pendingCloses + 1;
      }
    }

    /** A click on the map: every armed close fires once, closing the panel. */
    method OnMapClick()
      modifies this
      ensures panelDisplay == if old(pendingCloses) > 0 then "none" else old(panelDisplay)
      ensures pendingCloses == 0
      ensures theMap == old(theMap) && sliderDisplay == old(sliderDisplay)
    {
      if pendingCloses > 0 {
        panelDisplay := "none";
        pendingCloses := 0;
      }
    }
  }

  /**
   * The terrain box ticked while the map is still loading: the terrain stays
   * off, and is still off once `load` has run; ticked again, it comes on.
   */
  method TerrainTickedBeforeLoad() returns (beforeLoad: Option<Terrain>, afterLoad: Option<Terrain>, again: Option<Terrain>)
    ensures beforeLoad == None && afterLoad == None && again == Some(Terrain3D)
  {
    var page := new MapPage("none", "none");
    page.InitializeMap();
    page.OnTerrainChange(true);
    beforeLoad := page.theMap.terrain;
    page.OnLoad();
    afterLoad := page.theMap.terrain;
    page.OnTerrainChange(true);
    again := page.theMap.terrain;
  }
}
