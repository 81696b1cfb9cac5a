/**
 * The population apportionment of poblacion.py: the buildings of the
 * cadastre are filtered to residential ones, their dwelling counts are
 * cleaned and summed, the population of Barcelona is divided by that total,
 * and every residential building whose geometry can be reduced to a point
 * becomes a point feature carrying four properties.
 *
 * The input GeoJSON is taken as already parsed; reading and writing the
 * files, the progress messages, Python's `int` on strings and the shapely
 * geometry step are outside the model (the last two are parameters).
 */
module Poblacion {
  import opened Wrappers

  /** Population of the municipality of Barcelona in 2024. */
  const PoblacionBarcelona: int := 1686208
  const ResidentialUse := "1_residential"
  const OutputName := "barcelona_population_points"
  /** The property the dwelling loop writes the cleaned count into. */
  const CleanKey := "numberOfDwellings_clean"

  /** A JSON value as `json.load` returns it. */
  datatype Value =
    | Null
    | Bool(b: bool)
    | Int(i: int)
    | Float(x: real)
    | Str(s: string)
    | Arr(items: seq<Value>)
    | Obj(fields: map<string, Value>)

  /**
   * A building: its `properties` object (absent = empty) and its
   * `geometry`, None when the key is absent.
   */
  datatype Feature = Feature(properties: map<string, Value>, geometry: Option<Value>)

  /** The input document: `features` (None when absent) and `crs` (None when absent). */
  datatype Doc = Doc(features: Option<seq<Feature>>, crs: Option<Value>)

  /** An output point feature; its `properties` object is PropertiesOf. */
  datatype PointFeature = PointFeature(geometry: Value, reference: Value, area: Value, dwellings: int, population: real)

  /** The output FeatureCollection. */
  datatype Collection = Collection(name: string, features: seq<PointFeature>, crs: Option<Value>)

  /** How a run ends: one of the two messages without output, or the collection written. */
  datatype Outcome = NoResidential | NoDwellings | Written(collection: Collection)

  /** `dict.get(key)`: None (JSON null) when the key is missing. */
  function Get(props: map<string, Value>, key: string): Value
  {
    if key in props then props[key] else Null
  }

  function AllFeatures(doc: Doc): seq<Feature>
  {
    if doc.features.Some? then doc.features.value else []
  }

  // ---------------------------------------------------------------------
  // Step 1: residential filter

  predicate IsResidential(f: Feature)
  {
    Get(f.properties, "currentUse") == Str(ResidentialUse)
  }

  function Residential(fs: seq<Feature>): (r: seq<Feature>)
    ensures |r| <= |fs|
  {
    if |fs| == 0 then []
    else Residential(fs[..|fs| - 1]) + (if IsResidential(fs[|fs| - 1]) then [fs[|fs| - 1]] else [])
  }

  /** The filter keeps every residential feature as often as it occurs, and nothing else. */
  lemma {:induction false} ResidentialCount(fs: seq<Feature>)
    ensures forall f :: multiset(Residential(fs))[f] == if IsResidential(f) then multiset(fs)[f] else 0
    ensures forall f :: f in Residential(fs) <==> f in fs && IsResidential(f)
  {
    if |fs| > 0 {
      var p, x := fs[..|fs| - 1], fs[|fs| - 1];
      ResidentialCount(p);
      assert fs == p + [x];
      assert multiset(fs) == multiset(p) + multiset{x};
    }
  }

  /** The filter keeps the input order: filtering a concatenation concatenates the filtered parts. */
  lemma {:induction false} ResidentialAppend(a: seq<Feature>, b: seq<Feature>)
    ensures Residential(a + b) == Residential(a) + Residential(b)
    decreases |b|
  {
    if |b| == 0 {
      assert a + b == a;
    } else {
      var b' := b[..|b| - 1];
      assert (a + b)[..|a + b| - 1] == a + b';
      ResidentialAppend(a, b');
    }
  }

  /** The `for` loop of step 1, appending each residential feature to a new list. */
  method FilterResidential(all: seq<Feature>) returns (res: seq<Feature>)
    ensures res == Residential(all)
  {
    res := [];
    for i := 0 to |all|
      invariant res == Residential(all[..i])
    {
      assert all[..i + 1][..i] == all[..i];
      if IsResidential(all[i]) {
        res := res + [all[i]];
      }
    }
    assert all[..|all|] == all;
  }

  // ---------------------------------------------------------------------
  // Step 2: cleaned dwelling counts and their total

  /** Python's `int` on a float: truncation toward zero. */
  function TruncateTowardZero(x: real): (n: int)
    ensures x >= 0.0 ==> n as real <= x < n as real + 1.0
    ensures x < 0.0 ==> n as real - 1.0 < x <= n as real
  {
    if x >= 0.0 then x.Floor else -((-x).Floor)
  }

  /**
   * The cleaning of `numberOfDwellings`: numbers (booleans included, as in
   * Python) are converted with `int`, strings are parsed by `parse` (None
   * where `int` raises) with 0 on failure, anything else is 0.
   */
  function Clean(v: Value, parse: string -> Option<int>): int
  {
    match v
    case Int(n) => n
    case Float(x) => TruncateTowardZero(x)
    case Bool(b) => if b then 1 else 0
    case Str(s) => if parse(s).Some? then parse(s).value else 0
    case _ => 0
  }

  /** Cleaning gives back every whole number written as an integer, a float or a parsable string. */
  lemma CleanRoundTrip(n: int, s: string, parse: string -> Option<int>)
    requires parse(s) == Some(n)
    ensures Clean(Int(n), parse) == n
    ensures Clean(Float(n as real), parse) == n
    ensures Clean(Str(s), parse) == n
  {
    var m := TruncateTowardZero(n as real);
    if n >= 0 {
      assert m as real <= n as real < m as real + 1.0;
    } else {
      assert m as real - 1.0 < n as real <= m as real;
    }
  }

  /**
   * The fall-back cases of the cleaning: an unparsable string, null, a list
   * or an object gives 0, and a boolean gives 1 or 0 as Python's `int` does.
   */
  lemma CleanFallsBack(v: Value, parse: string -> Option<int>)
    ensures v.Null? || v.Arr? || v.Obj? ==> Clean(v, parse) == 0
    ensures v.Str? && parse(v.s).None? ==> Clean(v, parse) == 0
    ensures v.Bool? ==> Clean(v, parse) == if v.b then 1 else 0
  {
  }

  function Dwellings(f: Feature, parse: string -> Option<int>): int
  {
    Clean(Get(f.properties, "numberOfDwellings"), parse)
  }

  function TotalDwellings(fs: seq<Feature>, parse: string -> Option<int>): int
  {
    if |fs| == 0 then 0 else TotalDwellings(fs[..|fs| - 1], parse) + Dwellings(fs[|fs| - 1], parse)
  }

  /** A building without `numberOfDwellings` counts no dwellings. */
  lemma DwellingsMissing(f: Feature, parse: string -> Option<int>)
    requires "numberOfDwellings" !in f.properties
    ensures Dwellings(f, parse) == 0
  {
  }

  /** The total over two lists of buildings is the sum of their totals. */
  lemma {:induction false} TotalDwellingsAppend(a: seq<Feature>, b: seq<Feature>, parse: string -> Option<int>)
    ensures TotalDwellings(a + b, parse) == TotalDwellings(a, parse) + TotalDwellings(b, parse)
    decreases |b|
  {
    if b == [] {
      assert a + b == a;
    } else {
      var init := b[..|b| - 1];
      TotalDwellingsAppend(a, init, parse);
      assert (a + b)[..|a + b| - 1] == a + init;
      assert (a + b)[|a + b| - 1] == b[|b| - 1];
    }
  }

  /** A feature after the loop has stored its cleaned count under CleanKey. */
  function Annotate(f: Feature, parse: string -> Option<int>): Feature
  {
    f.(properties := f.properties[CleanKey := Int(Dwellings(f, parse))])
  }

  function Annotated(fs: seq<Feature>, parse: string -> Option<int>): seq<Feature>
  {
    seq(|fs|, i requires 0 <= i < |fs| => Annotate(fs[i], parse))
  }

  /** The count read back with `.get(CleanKey, 0)`. */
  function StoredDwellings(props: map<string, Value>): int
  {
    if CleanKey in props && props[CleanKey].Int? then props[CleanKey].i else 0
  }

  /**
   * Annotation is read back exactly: the stored count is the cleaned count,
   * the geometry and every other property are untouched.
   */
  lemma AnnotateReadBack(f: Feature, parse: string -> Option<int>)
    ensures StoredDwellings(Annotate(f, parse).properties) == Dwellings(f, parse)
    ensures Annotate(f, parse).geometry == f.geometry
    ensures forall k :: k != CleanKey ==> Get(Annotate(f, parse).properties, k) == Get(f.properties, k)
  {
  }

  /**
   * The `for` loop of step 2: it sums the cleaned counts and stores each one
   * in its feature's properties.
   */
  method SumDwellings(res: seq<Feature>, parse: string -> Option<int>) returns (total: int, annotated: seq<Feature>)
    ensures total == TotalDwellings(res, parse)
    ensures annotated == Annotated(res, parse)
  {
    total, annotated := 0, res;
    for i := 0 to |res|
      invariant |annotated| == |res|
      invariant total == TotalDwellings(res[..i], parse)
      invariant forall j :: 0 <= j < i ==> annotated[j] == Annotate(res[j], parse)
      invariant forall j :: i <= j < |res| ==> annotated[j] == res[j]
    {
      assert res[..i + 1][..i] == res[..i];
      var dwellings := Dwellings(annotated[i], parse);
      total := total + dwellings;
      annotated := annotated[i := annotated[i].(properties := annotated[i].properties[CleanKey := Int(dwellings)])];
    }
    assert res[..|res|] == res;
  }

  // ---------------------------------------------------------------------
  // Step 3: inhabitants per dwelling

  /** The index: the population divided by the total. */
  function Ratio(total: int): real
    requires total != 0
  {
    PoblacionBarcelona as real / total as real
  }

  /** `ratio` times `total` dwellings is the whole population. */
  predicate Scales(ratio: real, total: int)
  {
    ratio * total as real == PoblacionBarcelona as real
  }

  /** Over the total it came from, the index gives the whole population back. */
  lemma RatioScales(total: int)
    requires total != 0
    ensures Scales(Ratio(total), total)
  {
  }

  // ---------------------------------------------------------------------
  // Steps 4 and 5: points with four properties

  /**
   * Whether the geometry step succeeds for a feature: `feature['geometry']`
   * exists and `point` (shape, representative point, mapping) gives a point.
   */
  predicate Converts(f: Feature, point: Value -> Option<Value>)
  {
    f.geometry.Some? && point(f.geometry.value).Some?
  }

  function ProjectOne(f: Feature, ratio: real, point: Value -> Option<Value>): PointFeature
    requires Converts(f, point)
  {
    var dwellings := StoredDwellings(f.properties);
    PointFeature(point(f.geometry.value).value, Get(f.properties, "reference"), Get(f.properties, "value"),
                 dwellings, dwellings as real * ratio)
  }

  function Projected(fs: seq<Feature>, ratio: real, point: Value -> Option<Value>): (r: seq<PointFeature>)
    ensures |r| <= |fs|
  {
    if |fs| == 0 then []
    else
      var last := fs[|fs| - 1];
      Projected(fs[..|fs| - 1], ratio, point) + (if Converts(last, point) then [ProjectOne(last, ratio, point)] else [])
  }

  /** The properties object of an output feature. */
  function PropertiesOf(o: PointFeature): (m: map<string, Value>)
    ensures m.Keys == {"referencia_catastral", "metros_cuadrados", "viviendas", "poblacion_estimada"}
    ensures m["referencia_catastral"] == o.reference && m["metros_cuadrados"] == o.area
    ensures m["viviendas"] == Int(o.dwellings) && m["poblacion_estimada"] == Float(o.population)
  {
    map["referencia_catastral" := o.reference, "metros_cuadrados" := o.area,
        "viviendas" := Int(o.dwellings), "poblacion_estimada" := Float(o.population)]
  }

  /**
   * The `for` loop of steps 4 and 5: a feature whose geometry step fails is
   * skipped, every other one is appended as a point feature.
   */
  method Project(fs: seq<Feature>, ratio: real, point: Value -> Option<Value>) returns (out: seq<PointFeature>)
    ensures out == Projected(fs, ratio, point)
  {
    out := [];
    for i := 0 to |fs|
      invariant out == Projected(fs[..i], ratio, point)
    {
      assert fs[..i + 1][..i] == fs[..i];
      if fs[i].geometry.Some? {
        var p := point(fs[i].geometry.value);
        if p.Some? {
          out := out + [ProjectOne(fs[i], ratio, point)];
        }
      }
    }
    assert fs[..|fs|] == fs;
  }

  /** The indices of the features that convert, in order. */
  function Kept(fs: seq<Feature>, point: Value -> Option<Value>): seq<int>
  {
    if |fs| == 0 then []
    else Kept(fs[..|fs| - 1], point) + (if Converts(fs[|fs| - 1], point) then [|fs| - 1] else [])
  }

  /**
   * The output is the subsequence of the input that converts: the j-th
   * point comes from the Kept(fs)[j]-th feature, the indices increase, and
   * every feature that converts is kept.
   */
  lemma {:induction false} ProjectedIsSubsequence(fs: seq<Feature>, ratio: real, point: Value -> Option<Value>)
    ensures var k, out := Kept(fs, point), Projected(fs, ratio, point);
            |k| == |out|
            && (forall j :: 0 <= j < |k| ==>
                  0 <= k[j] < |fs| && Converts(fs[k[j]], point) && out[j] == ProjectOne(fs[k[j]], ratio, point))
            && (forall j, j' :: 0 <= j < j' < |k| ==> k[j] < k[j'])
            && (forall i :: 0 <= i < |fs| && Converts(fs[i], point) ==> i in k)
  {
    if |fs| > 0 {
      var p := fs[..|fs| - 1];
      ProjectedIsSubsequence(p, ratio, point);
      forall i | 0 <= i < |p| ensures fs[i] == p[i] { }
    }
  }

  function TotalPopulation(out: seq<PointFeature>): real
  {
    if |out| == 0 then 0.0 else TotalPopulation(out[..|out| - 1]) + out[|out| - 1].population
  }

  function OutputDwellings(out: seq<PointFeature>): int
  {
    if |out| == 0 then 0 else OutputDwellings(out[..|out| - 1]) + out[|out| - 1].dwellings
  }

  /** Multiplication by the index distributes over a sum of dwelling counts. */
  lemma Distribute(a: int, b: int, ratio: real)
    ensures (a + b) as real * ratio == a as real * ratio + b as real * ratio
  {
  }

  /** Every point's estimate is its dwellings times `ratio`. */
  predicate EstimatedAt(out: seq<PointFeature>, ratio: real)
  {
    forall j :: 0 <= j < |out| ==> out[j].population == out[j].dwellings as real * ratio
  }

  /** Points estimated at `ratio` have estimates summing to their dwellings times `ratio`. */
  lemma {:induction false} EstimatesProportional(out: seq<PointFeature>, ratio: real)
    requires EstimatedAt(out, ratio)
    ensures TotalPopulation(out) == OutputDwellings(out) as real * ratio
  {
    if |out| > 0 {
      var q := out[..|out| - 1];
      assert EstimatedAt(q, ratio) by {
        forall j | 0 <= j < |q| ensures q[j] == out[j] { }
      }
      EstimatesProportional(q, ratio);
      Distribute(OutputDwellings(q), out[|out| - 1].dwellings, ratio);
    }
  }

  /** Every point is estimated at the index it was projected with. */
  lemma {:induction false} ProjectedEstimates(fs: seq<Feature>, ratio: real, point: Value -> Option<Value>)
    ensures EstimatedAt(Projected(fs, ratio, point), ratio)
  {
    if |fs| > 0 {
      var p, last := fs[..|fs| - 1], fs[|fs| - 1];
      var q := Projected(p, ratio, point);
      ProjectedEstimates(p, ratio, point);
      if Converts(last, point) {
        var o := ProjectOne(last, ratio, point);
        assert o.population == o.dwellings as real * ratio;
        var out := q + [o];
        assert Projected(fs, ratio, point) == out;
        forall j | 0 <= j < |out| ensures out[j].population == out[j].dwellings as real * ratio {
          if j < |q| {
            assert out[j] == q[j];
          }
        }
      } else {
        assert Projected(fs, ratio, point) == q;
      }
    }
  }

  /** The estimates of `out` add up to its dwellings times `ratio`. */
  predicate SumsAt(out: seq<PointFeature>, ratio: real)
  {
    TotalPopulation(out) == OutputDwellings(out) as real * ratio
  }

  /** The estimates of all points add up to the output's dwellings times the index. */
  lemma PopulationProportional(fs: seq<Feature>, ratio: real, point: Value -> Option<Value>)
    ensures SumsAt(Projected(fs, ratio, point), ratio)
  {
    ProjectedEstimates(fs, ratio, point);
    EstimatesProportional(Projected(fs, ratio, point), ratio);
  }

  /** When no geometry fails, the output carries every cleaned dwelling of the residential features. */
  lemma {:induction false} AllConvertedKeepsDwellings(res: seq<Feature>, parse: string -> Option<int>, ratio: real,
                                                      point: Value -> Option<Value>)
    requires forall f :: f in res ==> Converts(f, point)
    ensures OutputDwellings(Projected(Annotated(res, parse), ratio, point)) == TotalDwellings(res, parse)
  {
    if |res| > 0 {
      var p, x := res[..|res| - 1], res[|res| - 1];
      assert x in res;
      var a := Annotated(res, parse);
      assert a[..|a| - 1] == Annotated(p, parse);
      assert a[|a| - 1] == Annotate(x, parse);
      AnnotateReadBack(x, parse);
      AllConvertedKeepsDwellings(p, parse, ratio, point);
      var q := Projected(Annotated(p, parse), ratio, point);
      var o := ProjectOne(Annotate(x, parse), ratio, point);
      var out := Projected(a, ratio, point);
      assert out == q + [o];
      assert out[..|out| - 1] == q;
    }
  }

  /**
   * The estimates of `out` are the population's share for the dwellings of
   * `out` among `total`: their sum is to the population as those dwellings
   * are to the total.
   */
  predicate ShareOf(out: seq<PointFeature>, total: int)
  {
    TotalPopulation(out) * total as real == PoblacionBarcelona as real * OutputDwellings(out) as real
  }

  /** Estimates summing at the index, scaled back by the total the index came from. */
  lemma Share(out: seq<PointFeature>, ratio: real, total: int)
    requires SumsAt(out, ratio) && Scales(ratio, total)
    ensures ShareOf(out, total)
    ensures OutputDwellings(out) == total ==> TotalPopulation(out) == PoblacionBarcelona as real
  {
    var p, d, t := TotalPopulation(out), OutputDwellings(out) as real, total as real;
    calc {
      p * t;
      (d * ratio) * t;
      d * (ratio * t);
    }
  }

  // ---------------------------------------------------------------------
  // Points read back against the buildings

  /**
   * The point `o` describes the building `f` at the index `ratio`: same
   * reference and area, the cleaned dwelling count, and that count times
   * the index as its estimate.
   */
  predicate DescribesPoint(o: PointFeature, f: Feature, parse: string -> Option<int>, ratio: real)
  {
    o.reference == Get(f.properties, "reference")
    && o.area == Get(f.properties, "value")
    && o.dwellings == Dwellings(f, parse)
    && o.population == Dwellings(f, parse) as real * ratio
  }

  /**
   * `out` lists, through the increasing indices `k`, points describing
   * buildings of `res` whose geometry converts.
   */
  predicate Describes(out: seq<PointFeature>, k: seq<int>, res: seq<Feature>, parse: string -> Option<int>, ratio: real,
                      point: Value -> Option<Value>)
  {
    |k| == |out|
    && (forall j, j' :: 0 <= j < j' < |k| ==> k[j] < k[j'])
    && forall j :: 0 <= j < |k| ==>
         0 <= k[j] < |res| && Converts(res[k[j]], point) && DescribesPoint(out[j], res[k[j]], parse, ratio)
  }

  /** The point of an annotated building describes the building as it was read. */
  lemma AnnotatedPoint(f: Feature, parse: string -> Option<int>, ratio: real, point: Value -> Option<Value>)
    ensures Converts(Annotate(f, parse), point) == Converts(f, point)
    ensures Converts(f, point) ==> DescribesPoint(ProjectOne(Annotate(f, parse), ratio, point), f, parse, ratio)
  {
    AnnotateReadBack(f, parse);
  }

  /**
   * Read through the annotation: the j-th point of the annotated
   * residential features describes the k[j]-th residential building.
   */
  lemma ProjectedFromResidential(res: seq<Feature>, parse: string -> Option<int>, ratio: real,
                                 point: Value -> Option<Value>)
    ensures Describes(Projected(Annotated(res, parse), ratio, point), Kept(Annotated(res, parse), point),
                      res, parse, ratio, point)
  {
    var a := Annotated(res, parse);
    var out, k := Projected(a, ratio, point), Kept(a, point);
    ProjectedIsSubsequence(a, ratio, point);
    forall j | 0 <= j < |k|
      ensures 0 <= k[j] < |res| && Converts(res[k[j]], point) && DescribesPoint(out[j], res[k[j]], parse, ratio)
    {
      var i := k[j];
      assert a[i] == Annotate(res[i], parse);
      AnnotatedPoint(res[i], parse, ratio, point);
    }
  }

  /**
   * The properties object `m` of an output feature, read against the
   * building `f`: exactly the four keys, holding the building's reference,
   * its area, its cleaned dwelling count and that count times the index.
   */
  predicate ObjectDescribes(m: map<string, Value>, f: Feature, parse: string -> Option<int>, ratio: real)
  {
    m.Keys == {"referencia_catastral", "metros_cuadrados", "viviendas", "poblacion_estimada"}
    && m["referencia_catastral"] == Get(f.properties, "reference")
    && m["metros_cuadrados"] == Get(f.properties, "value")
    && m["viviendas"] == Int(Dwellings(f, parse))
    && m["poblacion_estimada"] == Float(Dwellings(f, parse) as real * ratio)
  }

  /** A point that describes a building writes a properties object that describes it. */
  lemma PointObject(o: PointFeature, f: Feature, parse: string -> Option<int>, ratio: real)
    requires DescribesPoint(o, f, parse, ratio)
    ensures ObjectDescribes(PropertiesOf(o), f, parse, ratio)
  {
  }

  // ---------------------------------------------------------------------
  // The whole run

  /** What the script does with a document. */
  function Analysis(doc: Doc, parse: string -> Option<int>, point: Value -> Option<Value>): Outcome
  {
    var res := Residential(AllFeatures(doc));
    if res == [] then NoResidential
    else
      var total := TotalDwellings(res, parse);
      if total == 0 then NoDwellings
      else Written(Collection(OutputName, Projected(Annotated(res, parse), Ratio(total), point), doc.crs))
  }

  /** The script's top level: steps 1 to 5 in order, stopping at either message. */
  method Apportion(doc: Doc, parse: string -> Option<int>, point: Value -> Option<Value>) returns (outcome: Outcome)
    ensures outcome == Analysis(doc, parse, point)
  {
    var res := FilterResidential(AllFeatures(doc));
    if |res| == 0 {
      return NoResidential;
    }
    var total, annotated := SumDwellings(res, parse);
    if total == 0 {
      return NoDwellings;
    }
    var out := Project(annotated, Ratio(total), point);
    var collection := Collection(OutputName, out, None);
    if doc.crs.Some? {
      collection := collection.(crs := doc.crs);
    }
    outcome := Written(collection);
  }

  /**
   * When each kind of run happens: no output iff no feature is residential
   * or the cleaned counts sum to zero; otherwise the collection is named
   * barcelona_population_points, carries the input's `crs` exactly when it
   * had one, and holds at most one point per residential building.
   */
  lemma AnalysisOutcome(doc: Doc, parse: string -> Option<int>, point: Value -> Option<Value>)
    ensures var o, all := Analysis(doc, parse, point), AllFeatures(doc);
            (o == NoResidential <==> forall f :: f in all ==> !IsResidential(f))
            && (o == NoDwellings <==> (exists f :: f in all && IsResidential(f))
                                      && TotalDwellings(Residential(all), parse) == 0)
            && (o.Written? ==> o.collection.name == OutputName
                               && o.collection.crs == doc.crs
                               && |o.collection.features| <= |Residential(all)|)
  {
    var all := AllFeatures(doc);
    ResidentialCount(all);
    var res := Residential(all);
    if res != [] {
      assert res[0] in res;
    }
  }

  /** A written collection holds the points of the annotated residential features at the index. */
  lemma WrittenPoints(doc: Doc, parse: string -> Option<int>, point: Value -> Option<Value>)
    requires Analysis(doc, parse, point).Written?
    ensures var res := Residential(AllFeatures(doc));
            TotalDwellings(res, parse) != 0
            && Analysis(doc, parse, point).collection.features
               == Projected(Annotated(res, parse), Ratio(TotalDwellings(res, parse)), point)
  {
  }

  /**
   * Each point describes one residential building, in order: its reference
   * and area are the building's, its dwellings the cleaned count, and its
   * estimate that count times the index.
   */
  lemma WrittenFeatures(doc: Doc, parse: string -> Option<int>, point: Value -> Option<Value>)
    requires Analysis(doc, parse, point).Written?
    ensures var res := Residential(AllFeatures(doc));
            Describes(Analysis(doc, parse, point).collection.features, Kept(Annotated(res, parse), point),
                      res, parse, Ratio(TotalDwellings(res, parse)), point)
  {
    var res := Residential(AllFeatures(doc));
    WrittenPoints(doc, parse, point);
    ProjectedFromResidential(res, parse, Ratio(TotalDwellings(res, parse)), point);
  }

  /**
   * The estimates share out the city's population: they add up to it
   * times the fraction of the dwellings that reached the output.
   */
  lemma PopulationShared(doc: Doc, parse: string -> Option<int>, point: Value -> Option<Value>)
    requires Analysis(doc, parse, point).Written?
    ensures ShareOf(Analysis(doc, parse, point).collection.features, TotalDwellings(Residential(AllFeatures(doc)), parse))
  {
    var res := Residential(AllFeatures(doc));
    var total := TotalDwellings(res, parse);
    WrittenPoints(doc, parse, point);
    var ratio := Ratio(total);
    RatioScales(total);
    PopulationProportional(Annotated(res, parse), ratio, point);
    Share(Analysis(doc, parse, point).collection.features, ratio, total);
  }

  /** When no building's geometry fails, the estimates add up to exactly the population of Barcelona. */
  lemma PopulationConserved(doc: Doc, parse: string -> Option<int>, point: Value -> Option<Value>)
    requires Analysis(doc, parse, point).Written?
    requires forall f :: f in Residential(AllFeatures(doc)) ==> Converts(f, point)
    ensures TotalPopulation(Analysis(doc, parse, point).collection.features) == PoblacionBarcelona as real
  {
    var res := Residential(AllFeatures(doc));
    var total := TotalDwellings(res, parse);
    WrittenPoints(doc, parse, point);
    var ratio := Ratio(total);
    RatioScales(total);
    PopulationProportional(Annotated(res, parse), ratio, point);
    AllConvertedKeepsDwellings(res, parse, ratio, point);
    Share(Analysis(doc, parse, point).collection.features, ratio, total);
  }

  /**
   * The properties object written for each point is the one of the
   * residential building it comes from, in order.
   */
  lemma WrittenProperties(doc: Doc, parse: string -> Option<int>, point: Value -> Option<Value>)
    requires Analysis(doc, parse, point).Written?
    ensures var res := Residential(AllFeatures(doc));
            var out, k := Analysis(doc, parse, point).collection.features, Kept(Annotated(res, parse), point);
            |k| == |out|
            && forall j :: 0 <= j < |out| ==>
                 0 <= k[j] < |res|
                 && ObjectDescribes(PropertiesOf(out[j]), res[k[j]], parse, Ratio(TotalDwellings(res, parse)))
  {
    var res := Residential(AllFeatures(doc));
    var ratio := Ratio(TotalDwellings(res, parse));
    var out, k := Analysis(doc, parse, point).collection.features, Kept(Annotated(res, parse), point);
    WrittenFeatures(doc, parse, point);
    forall j | 0 <= j < |out|
      ensures 0 <= k[j] < |res| && ObjectDescribes(PropertiesOf(out[j]), res[k[j]], parse, ratio)
    {
      PointObject(out[j], res[k[j]], parse, ratio);
    }
  }
}
