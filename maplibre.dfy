/**
 * The part of a MapLibre GL `Map` object that static/js/map.js drives: the
 * layer list of its style, the ids of its sources, its terrain option and
 * the pitch and bearing of its camera. Each method is one library call and says what it changes.
 */
module MapLibre {
  import opened Wrappers
  import opened LayerStyle

  /** The argument of `setTerrain`: a raster-dem source and its exaggeration. */
  datatype Terrain = Terrain(source: string, exaggeration: real)

  class MapLibreMap {
    var layers: seq<Layer>
    var sources: set<string>
    var terrain: Option<Terrain>
    var pitch: real
    var bearing: real

    /** `new maplibregl.Map({style, ...})`: the style's layers, no source, no terrain, a flat north-up camera. */
    constructor (style: seq<Layer>)
      ensures layers == style && sources == {} && terrain == None && pitch == 0.0 && bearing == 0.0
    {
      layers := style;
      sources := {};
      terrain := None;
      pitch := 0.0;
      bearing := 0.0;
    }

    /** `getLayer(id)` returns a layer rather than `undefined`. */
    predicate HasLayer(id: string)
      reads this
    {
      Has(layers, id)
    }

    /** `getStyle().layers.find(l => l.type === 'symbol')`, by id. */
    function FirstSymbolLayer(): Option<string>
      reads this
    {
      FirstSymbol(layers)
    }

    /** `addSource(id, spec)`: the id names a source from now on. */
    method AddSource(id: string)
      modifies this
      ensures sources == old(sources) + {id}
      ensures layers == old(layers) && terrain == old(terrain) && pitch == old(pitch) && bearing == old(bearing)
    {
      sources := sources + {id};
    }

    method AddLayer(layer: Layer)
      modifies this
      ensures layers == Add(old(layers), layer)
      ensures sources == old(sources) && terrain == old(terrain) && pitch == old(pitch) && bearing == old(bearing)
    {
      layers := Add(layers, layer);
    }

    /** `setLayoutProperty(id, 'visibility', v)`. */
    method SetLayoutProperty(id: string, v: Visibility)
      modifies this
      ensures layers == SetVisibility(old(layers), id, v)
      ensures sources == old(sources) && terrain == old(terrain) && pitch == old(pitch) && bearing == old(bearing)
    {
      layers := SetVisibility(layers, id, v);
    }

    method SetPaintProperty(id: string, prop: string, x: real)
      modifies this
      ensures layers == SetPaint(old(layers), id, prop, x)
      ensures sources == old(sources) && terrain == old(terrain) && pitch == old(pitch) && bearing == old(bearing)
    {
      layers := SetPaint(layers, id, prop, x);
    }

    method MoveLayer(id: string, before: Option<string>)
      modifies this
      ensures layers == Move(old(layers), id, before)
      ensures multiset(layers) == multiset(old(layers))
      ensures sources == old(sources) && terrain == old(terrain) && pitch == old(pitch) && bearing == old(bearing)
    {
      MovePermutes(layers, id, before);
      layers := Move(layers, id, before);
    }

    /**
     * `setTerrain(spec)`, or `setTerrain(null)` for `None`. A terrain whose
     * source the map does not have is refused (the library throws) and the
     * terrain stays as it was.
     */
    method SetTerrain(t: Option<Terrain>)
      modifies this
      ensures terrain == if t.Some? && t.value.source !in sources then old(terrain) else t
      ensures layers == old(layers) && sources == old(sources) && pitch == old(pitch) && bearing == old(bearing)
    {
      if t.Some? && t.value.source !in sources {
        return;
      }
      terrain := t;
    }

    /** `easeTo({pitch, bearing})`, taken at the end of the animation. */
    method EaseTo(p: real, b: real)
      modifies this
      ensures pitch == p && bearing == b
      ensures layers == old(layers) && sources == old(sources) && terrain == old(terrain)
    {
      pitch := p;
      bearing := b;
    }
  }
}
