/**
 * The layers static/js/map.js puts into its map: the blank style it starts
 * from, the three base maps and the eight overlays it registers on `load`
 * (map.js:62-71, 111-272), in registration order; and `setBaseMap`
 * (map.js:326-333) as a function on the layer list. None of the registered
 * layers is a symbol layer, so the re-ordering moves the overlays below
 * `buildings-3d-layer`.
 */
module MapLayers {
  import opened Wrappers
  import opened LayerStyle
  import opened LayerOrder

  /** `Object.keys(baseMaps)`, in the order the object literal lists them. */
  const BaseMapIds: seq<string> := ["osm", "esri-satellite", "esri-topo"]

  const HeatmapId: string := "population-heatmap-layer"

  /** The raster-dem source the `load` handler adds first, for the 3D terrain. */
  const TerrainSource: string := "maptiler-terrain"

  /** The sources the `load` handler adds for its eight overlays. */
  const OverlaySources: set<string> :=
    {"catastro-wms", "barcelona-buildings", "metro-lines", "metro-stops",
     "population-points", "station-demand-source", "ampliacio-l1-source", "l12-source"}

  /** Every source the `load` handler adds: the terrain, one per base map (named after it), the overlays'. */
  function LoadedSources(): set<string> {
    {TerrainSource} + (set id | id in BaseMapIds) + OverlaySources
  }

  /** The one layer of the blank style the map is created with. */
  function BlankStyle(): seq<Layer> {
    [Layer("background", Background, Visible, map[])]
  }

  /** The raster layer of a base map: only `osm` starts visible. */
  function BaseMapLayer(id: string): Layer {
    Layer(id, Raster, if id == "osm" then Visible else Hidden, map[])
  }

  const CatastroLayer: Layer := Layer("catastro-layer", Raster, Hidden, map[])

  const BuildingsLayer: Layer :=
    Layer(Buildings3D, FillExtrusion, Visible,
          map["fill-extrusion-opacity" := 0.85, "fill-extrusion-height" := 40.0, "fill-extrusion-base" := 0.0])

  const MetroLinesLayer: Layer := Layer("metro-lines-layer", Line, Hidden, map["line-width" := 5.0])

  const MetroStopsLayer: Layer :=
    Layer("metro-stops-layer", Circle, Hidden, map["circle-radius" := 6.0, "circle-stroke-width" := 2.0])

  const HeatmapLayer: Layer :=
    Layer(HeatmapId, Heatmap, Hidden,
          map["heatmap-intensity" := 0.4, "heatmap-radius" := 15.0, "heatmap-opacity" := 0.8])

  const StationDemandLayer: Layer :=
    Layer("station-demand-layer", Circle, Hidden, map["circle-opacity" := 0.8, "circle-stroke-width" := 1.0])

  const AmpliacioL1Layer: Layer := Layer("ampliacio-l1-layer", Line, Hidden, map["line-width" := 5.0])

  const L12Layer: Layer := Layer("l12-layer", Line, Hidden, map["line-width" := 5.0])

  /** The style once every `addLayer` of the `load` handler has run, bottom to top. */
  function Registered(): seq<Layer> {
    BlankStyle()
    + [BaseMapLayer("osm"), BaseMapLayer("esri-satellite"), BaseMapLayer("esri-topo")]
    + [CatastroLayer, BuildingsLayer, MetroLinesLayer, MetroStopsLayer,
       HeatmapLayer, StationDemandLayer, AmpliacioL1Layer, L12Layer]
  }

  /** The layer ids, bottom to top, once the `load` handler has re-ordered them. */
  const LoadedOrder: seq<string> := [
    "background", "osm", "esri-satellite", "esri-topo",
    "catastro-layer", "population-heatmap-layer", "metro-lines-layer", "ampliacio-l1-layer",
    "l12-layer", "metro-stops-layer", "station-demand-layer", "buildings-3d-layer"
  ]

  /**
   * Registering the layers one by one: each `addLayer` of a layer list with
   * distinct ids appends the next layer, since its id is not in the style yet.
   */
  lemma AddNext(layers: seq<Layer>, n: nat)
    requires UniqueIds(layers) && n < |layers|
    ensures Add(layers[..n], layers[n]) == layers[..n + 1]
  {
    var front := layers[..n];
    assert forall j :: 0 <= j < |front| ==> front[j].id != layers[n].id;
    assert layers[..n + 1] == front + [layers[n]];
  }

  /** The ids of Registered(), in registration order. */
  const RegistrationOrder: seq<string> := [
    "background", "osm", "esri-satellite", "esri-topo", "catastro-layer", "buildings-3d-layer",
    "metro-lines-layer", "metro-stops-layer", "population-heatmap-layer", "station-demand-layer",
    "ampliacio-l1-layer", "l12-layer"
  ]

  lemma RegisteredIds()
    ensures Ids(Registered()) == RegistrationOrder
  {
  }

  lemma UniqueFromIds(layers: seq<Layer>)
    requires NoDuplicates(Ids(layers))
    ensures UniqueIds(layers)
  {
    forall i, j | 0 <= i < j < |layers| ensures layers[i].id != layers[j].id {
      assert Ids(layers)[i] != Ids(layers)[j];
    }
  }

  /** No two registered layers share an id, so no `addLayer` of the `load` handler is refused. */
  lemma RegisteredUnique()
    ensures UniqueIds(Registered())
  {
    RegisteredIds();
    RegistrationOrderDistinct();
    UniqueFromIds(Registered());
  }

  lemma RegistrationOrderDistinct()
    ensures NoDuplicates(RegistrationOrder)
  {
  }

  // ---------------------------------------------------------------------
  // setBaseMap

  /** One iteration of `setBaseMap`'s `forEach`: a base map that exists is shown iff it is the selected one. */
  function ShowIfSelected(layers: seq<Layer>, id: string, selected: string): seq<Layer> {
    if Has(layers, id) then SetVisibility(layers, id, if id == selected then Visible else Hidden)
    else layers
  }

  /** The `forEach` of `setBaseMap` over `ids`, one element after the other. */
  function SelectBase(layers: seq<Layer>, ids: seq<string>, selected: string): seq<Layer>
    decreases |ids|
  {
    if ids == [] then layers
    else ShowIfSelected(SelectBase(layers, ids[..|ids| - 1], selected), ids[|ids| - 1], selected)
  }

  /**
   * `setBaseMap` in closed form: the layer list keeps its length and order;
   * a layer named in `ids` is visible iff it is the selected one; every other
   * layer, and every paint value, is untouched.
   */
  lemma {:induction false} SelectBaseEffect(layers: seq<Layer>, ids: seq<string>, selected: string)
    ensures |SelectBase(layers, ids, selected)| == |layers|
    ensures forall k :: 0 <= k < |layers| ==>
              SelectBase(layers, ids, selected)[k]
                == if layers[k].id in ids
                   then layers[k].(visibility := if layers[k].id == selected then Visible else Hidden)
                   else layers[k]
    decreases |ids|
  {
    if ids != [] {
      var init := ids[..|ids| - 1];
      var t := ids[|ids| - 1];
      SelectBaseEffect(layers, init, selected);
      var prev := SelectBase(layers, init, selected);
      var r := SelectBase(layers, ids, selected);
      assert ids == init + [t];
      forall k | 0 <= k < |layers|
        ensures r[k] == if layers[k].id in ids
                        then layers[k].(visibility := if layers[k].id == selected then Visible else Hidden)
                        else layers[k]
      {
        assert prev[k].id == layers[k].id;
        assert (layers[k].id in ids) == (layers[k].id in init || layers[k].id == t);
      }
    }
  }

  /**
   * After `setBaseMap(s)`, a base map is visible iff it is `s`: at most one
   * base map shows, and exactly one when `s` names a base map that exists.
   */
  lemma SelectBaseExclusive(layers: seq<Layer>, selected: string)
    ensures var r := SelectBase(layers, BaseMapIds, selected);
            forall k :: 0 <= k < |r| && r[k].id in BaseMapIds ==> (r[k].visibility == Visible <==> r[k].id == selected)
    ensures var r := SelectBase(layers, BaseMapIds, selected);
            selected in BaseMapIds && Has(layers, selected) ==> Has(r, selected) && r[Find(r, selected)].visibility == Visible
  {
    SelectBaseEffect(layers, BaseMapIds, selected);
    var r := SelectBase(layers, BaseMapIds, selected);
    if selected in BaseMapIds && Has(layers, selected) {
      var k := Find(layers, selected);
      assert r[k].id == selected;
      HasAt(r, k);
      var j := Find(r, selected);
      assert r[j].id == layers[j].id;
    }
  }

  /** `setBaseMap` changes no id, no type and no order: it commutes with any later re-ordering. */
  lemma SelectBaseKeepsIds(layers: seq<Layer>, ids: seq<string>, selected: string)
    ensures Ids(SelectBase(layers, ids, selected)) == Ids(layers)
  {
    SelectBaseEffect(layers, ids, selected);
  }

  // ---------------------------------------------------------------------
  // The style after `load`

  lemma RegisteredKinds()
    ensures forall k :: 0 <= k < |Registered()| ==> Registered()[k].kind != Symbol
  {
  }

  /** Every overlay the `forEach` names, and the 3D buildings, is registered. */
  lemma RegisteredHasListed()
    ensures Has(Registered(), Buildings3D)
    ensures forall k :: 0 <= k < |LayersToMove| ==> Has(Registered(), LayersToMove[k])
  {
    var l := Registered();
    RegisteredIds();
    assert forall k :: 0 <= k < |LayersToMove| ==> LayersToMove[k] in RegistrationOrder;
    forall k | 0 <= k < |LayersToMove| ensures Has(l, LayersToMove[k]) {
      HasNamed(l, LayersToMove[k]);
    }
    HasNamed(l, Buildings3D);
  }

  lemma RegisteredUnlisted()
    ensures Unpicked(Registered(), LayersToMove) == Registered()[..4] + [Registered()[5]]
  {
    var l := Registered();
    assert l == l[..4] + [l[4], l[5]] + l[6..];
    assert forall k :: 0 <= k < 4 ==> l[..4][k].id !in LayersToMove;
    assert forall k :: 0 <= k < 6 ==> l[6..][k].id in LayersToMove;
    UnpickedAround(l[..4], l[4], l[5], l[6..], LayersToMove);
  }

  lemma UnpickedAround(a: seq<Layer>, x: Layer, y: Layer, rest: seq<Layer>, ids: seq<string>)
    requires forall k :: 0 <= k < |a| ==> a[k].id !in ids
    requires x.id in ids && y.id !in ids
    requires forall k :: 0 <= k < |rest| ==> rest[k].id in ids
    ensures Unpicked(a + [x, y] + rest, ids) == a + [y]
  {
    var pair := Unpicked([x, y], ids);
    assert pair == [y] by {
      UnpickedCons(x, [y], ids);
      UnpickedCons(y, [], ids);
      assert [x] + [y] == [x, y];
      assert [y] + [] == [y];
    }
    var front := Unpicked(a + [x, y], ids);
    assert front == a + [y] by {
      UnpickedAppend(a, [x, y], ids);
      UnpickedNoneListed(a, ids);
    }
    UnpickedAppend(a + [x, y], rest, ids);
    UnpickedAllListed(rest, ids);
    assert front + [] == front;
  }

  /**
   * The `forEach` on a style laid out like Registered(): no symbol layer,
   * four unlisted layers, a listed one, the 3D buildings and then only listed
   * ones. The listed overlays land in list order between the four bottom
   * layers and the 3D buildings.
   */
  lemma MovedWithoutSymbols(l: seq<Layer>, ids: seq<string>)
    requires UniqueIds(l) && FirstSymbol(l) == None && ListedAreNotSymbols(l, ids)
    requires NoDuplicates(ids) && Buildings3D !in ids
    requires |l| >= 6 && l[5].id == Buildings3D
    requires Unpicked(l, ids) == l[..4] + [l[5]]
    ensures UniqueIds(MoveAll(l, ids))
    ensures MoveAll(l, ids) == l[..4] + Picked(l, ids) + [l[5]]
  {
    HasAt(l, 5);
    MoveAllPlaces(l, ids);
    MoveAllUnique(l, ids);
    var u := Unpicked(l, ids);
    UnpickedUnique(l, ids);
    FindAt(u, 4);
    assert u[..4] == l[..4] && u[4..] == [l[5]];
  }

  /** Then the 3D buildings, already on top, are moved on top again: nothing changes. */
  lemma BuildingsStayOnTop(moved: seq<Layer>, a: seq<Layer>, p: seq<Layer>, b: Layer)
    requires moved == a + p + [b] && b.id == Buildings3D && UniqueIds(moved)
    ensures BuildingsOnTop(moved) == moved
    ensures Ids(moved) == Ids(a) + Ids(p) + [Buildings3D]
  {
    IdsAppend(a, p);
    IdsAppend(a + p, [b]);
    assert Ids([b]) == [Buildings3D];
    var n := |moved| - 1;
    assert moved[n] == b;
    HasAt(moved, n);
    MoveTopmost(moved);
  }

  lemma LoadedOrderSplit()
    ensures LoadedOrder == RegistrationOrder[..4] + LayersToMove + [Buildings3D]
  {
  }

  /**
   * The `load` handler leaves the layers in this order: the base maps under
   * the overlays, the overlays in `layersToMove` order, the 3D buildings on top.
   */
  lemma LoadOrder()
    ensures UniqueIds(Reordered(Registered()))
    ensures Ids(Reordered(Registered())) == LoadedOrder
  {
    var l := Registered();
    RegisteredMoved();
    RegisteredHasListed();
    PickedAllPresent(l, LayersToMove);
    BuildingsStayOnTop(MoveAll(l, LayersToMove), l[..4], Picked(l, LayersToMove), l[5]);
    RegisteredIds();
    IdsPrefix(l, 4);
    LoadedOrderSplit();
  }

  /**
   * The registered style has no symbol layer, so the listed layers are moved
   * below the 3D buildings: they land between the base maps and the 3D buildings.
   */
  lemma RegisteredMoved()
    ensures |Registered()| == 12 && Registered()[5].id == Buildings3D
    ensures UniqueIds(MoveAll(Registered(), LayersToMove))
    ensures MoveAll(Registered(), LayersToMove)
            == Registered()[..4] + Picked(Registered(), LayersToMove) + [Registered()[5]]
  {
    RegisteredUnique();
    RegisteredKinds();
    NoSymbolFirstSymbol(Registered());
    RegisteredUnlisted();
    LayersToMoveFacts();
    MovedWithoutSymbols(Registered(), LayersToMove);
  }

  /** The layers showing once registered, by id. */
  const ShownAtLoad: seq<string> := ["background", "osm", Buildings3D]

  lemma RegisteredVisibility()
    ensures forall i :: 0 <= i < |Registered()| ==>
              (Registered()[i].visibility == Visible <==> Registered()[i].id in ShownAtLoad)
  {
  }

  /** A re-ordering keeps the rule that says, by id, which layers show. */
  lemma PermutedVisibility(l: seq<Layer>, r: seq<Layer>, shown: seq<string>)
    requires multiset(r) == multiset(l)
    requires forall i :: 0 <= i < |l| ==> (l[i].visibility == Visible <==> l[i].id in shown)
    ensures forall k :: 0 <= k < |r| ==> (r[k].visibility == Visible <==> r[k].id in shown)
  {
    forall k | 0 <= k < |r| ensures r[k].visibility == Visible <==> r[k].id in shown {
      assert r[k] in multiset(l);
    }
  }

  /**
   * After `load`, the only layers showing are the background, `osm` and the
   * 3D buildings; every other base map and every other overlay is hidden.
   */
  lemma LoadVisibility()
    ensures var r := Reordered(Registered());
            forall k :: 0 <= k < |r| ==> (r[k].visibility == Visible <==> r[k].id in ShownAtLoad)
  {
    ReorderedPermutes(Registered());
    RegisteredVisibility();
    PermutedVisibility(Registered(), Reordered(Registered()), ShownAtLoad);
  }
}
