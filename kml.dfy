/** The GeoJSON-to-KML encoder of cli.py (`convert_json_to_kml` and its helpers):
    a fixed KML 2.2 envelope around one Placemark per Point or Polygon feature. */
module Kml {
  import opened Values
  import opened Text

  /** A coordinate value as decoded JSON: a number (kept as the text Python's
      `str` gives it) or a list. */
  datatype Coord = Num(token: string) | Arr(items: seq<Coord>)

  /** A dictionary entry read with `.get(key, default)`: a missing key and a
      JSON null are told apart, because the source treats them differently. */
  datatype Field<+T> = Absent | Null | Present(value: T)

  /** The `geometry` object: its `type` (None when missing or not a string) and its `coordinates`. */
  datatype Geometry = Geometry(kind: Option<string>, coordinates: Field<seq<Coord>>)

  /** Properties in dictionary order; each value is the text `str(value)` gives. */
  type Properties = seq<(string, string)>

  datatype Feature = Feature(geometry: Field<Geometry>, properties: Field<Properties>)

  /** The Python exceptions malformed input raises out of the encoder. */
  datatype Raised = AttributeError | TypeError | IndexError

  const Header: seq<string> := [
    "<?xml version=\"1.0\" encoding=\"UTF-8\"?>",
    "<kml xmlns=\"http://www.opengis.net/kml/2.2\">",
    "<Document>"
  ]

  const Footer: seq<string> := ["</Document>", "</kml>"]

  const TableStart: string := "<![CDATA[<table border=\"1\"><tr><th>Attribute</th><th>Value</th></tr>"

  const TableEnd: string := "</table>]]>"

  /** The output dispatch of `output_result`: KML only for `--format kml` and a
      dictionary result that has a `features` key. */
  predicate RendersAsKml(format: Option<string>, data: Json)
  {
    format == Some("kml") && data.JObj? && "features" in data.members
  }

  // ---------------------------------------------------------------- name

  predicate IsNameKey(key: string)
  {
    Lower(key) == "name"
  }

  /** The value of the first property whose key lower-cases to "name", else "". */
  function FeatureName(props: Properties): string
  {
    if |props| == 0 then ""
    else if IsNameKey(props[0].0) then props[0].1
    else FeatureName(props[1..])
  }

  lemma {:induction false} FeatureNameIsFirstMatch(props: Properties, i: nat)
    requires i < |props| && IsNameKey(props[i].0)
    requires forall j :: 0 <= j < i ==> !IsNameKey(props[j].0)
    ensures FeatureName(props) == props[i].1
  {
    if i > 0 {
      FeatureNameIsFirstMatch(props[1..], i - 1);
    }
  }

  lemma {:induction false} FeatureNameWithoutNameKey(props: Properties)
    requires forall j :: 0 <= j < |props| ==> !IsNameKey(props[j].0)
    ensures FeatureName(props) == ""
  {
    if |props| > 0 {
      FeatureNameWithoutNameKey(props[1..]);
    }
  }

  /** `get_feature_name`: a scan with an early return. */
  method GetFeatureName(props: Properties) returns (name: string)
    ensures name == FeatureName(props)
  {
    var i := 0;
    while i < |props|
      invariant 0 <= i <= |props|
      invariant FeatureName(props[i..]) == FeatureName(props)
    {
      if Lower(props[i].0) == "name" {
        return props[i].1;
      }
      assert props[i..][1..] == props[i + 1..];
      i := i + 1;
    }
    return "";
  }

  // ---------------------------------------------------------- description

  function Row(key: string, value: string): string
  {
    "<tr><td>" + key + "</td><td>" + value + "</td></tr>"
  }

  /** One table row per property whose key is not a name key, in order. */
  function Rows(props: Properties): seq<string>
  {
    if |props| == 0 then []
    else
      var last := props[|props| - 1];
      Rows(props[..|props| - 1]) + (if IsNameKey(last.0) then [] else [Row(last.0, last.1)])
  }

  function Description(props: Properties): string
  {
    TableStart + Join(Rows(props), "") + TableEnd
  }

  /** Every property that is not a name key has its row, and every row comes from such a property. */
  lemma {:induction false} RowsAreNonNameProperties(props: Properties)
    ensures forall i :: 0 <= i < |props| && !IsNameKey(props[i].0) ==> Row(props[i].0, props[i].1) in Rows(props)
    ensures forall r :: r in Rows(props) ==>
              exists i :: 0 <= i < |props| && !IsNameKey(props[i].0) && r == Row(props[i].0, props[i].1)
  {
    if |props| > 0 {
      var init := props[..|props| - 1];
      RowsAreNonNameProperties(init);
      forall i | 0 <= i < |props| && !IsNameKey(props[i].0)
        ensures Row(props[i].0, props[i].1) in Rows(props)
      {
        if i < |props| - 1 {
          assert props[i] == init[i];
        }
      }
      forall r | r in Rows(props)
        ensures exists i :: 0 <= i < |props| && !IsNameKey(props[i].0) && r == Row(props[i].0, props[i].1)
      {
        if r in Rows(init) {
          var i :| 0 <= i < |init| && !IsNameKey(init[i].0) && r == Row(init[i].0, init[i].1);
          assert props[i] == init[i];
        } else {
          assert r == Row(props[|props| - 1].0, props[|props| - 1].1);
        }
      }
    }
  }

  /** Rows of a concatenation are the rows of the parts in order. */
  lemma {:induction false} RowsAppend(a: Properties, b: Properties)
    ensures Rows(a + b) == Rows(a) + Rows(b)
  {
    if |b| == 0 {
      assert a + b == a;
    } else {
      assert (a + b)[..|a + b| - 1] == a + b[..|b| - 1];
      RowsAppend(a, b[..|b| - 1]);
    }
  }

  /** `create_feature_description`: collects the rows in a list, then wraps them. */
  method CreateFeatureDescription(props: Properties) returns (description: string)
    ensures description == Description(props)
  {
    var tableRows: seq<string> := [];
    var i := 0;
    while i < |props|
      invariant 0 <= i <= |props|
      invariant tableRows == Rows(props[..i])
    {
      assert props[..i + 1][..i] == props[..i];
      var key, value := props[i].0, props[i].1;
      if Lower(key) != "name" {
        tableRows := tableRows + [Row(key, value)];
      }
      i := i + 1;
    }
    assert props[..|props|] == props;
    description := TableStart + Join(tableRows, "") + TableEnd;
  }

  // ---------------------------------------------------------- coordinates

  /** `str(c)`: a number's own text, a list as Python's repr `[a, b]`. */
  function CoordText(c: Coord): string
  {
    match c
    case Num(t) => t
    case Arr(items) => "[" + Join(seq(|items|, i requires 0 <= i < |items| => CoordText(items[i])), ", ") + "]"
  }

  /** `f'{coord[0]},{coord[1]},0'` for one ring vertex. */
  function VertexText(v: Coord): Result<string, Raised>
  {
    match v
    case Num(_) => Err(TypeError)
    case Arr(xs) => if |xs| < 2 then Err(IndexError) else Ok(CoordText(xs[0]) + "," + CoordText(xs[1]) + ",0")
  }

  /** The comprehension over a ring: the first failing vertex's error, else one text per vertex. */
  function VertexTexts(vs: seq<Coord>): (r: Result<seq<string>, Raised>)
    ensures r.Ok? <==> forall i :: 0 <= i < |vs| ==> VertexText(vs[i]).Ok?
    ensures r.Ok? ==> |r.value| == |vs| && forall i :: 0 <= i < |vs| ==> r.value[i] == VertexText(vs[i]).value
  {
    if |vs| == 0 then Ok([])
    else match VertexText(vs[0])
      case Err(e) => Err(e)
      case Ok(t) =>
        match VertexTexts(vs[1..])
        case Err(e) => Err(e)
        case Ok(ts) => Ok([t] + ts)
  }

  /** The outer ring is a list whose every vertex is a list of at least two values. */
  predicate WellFormedRing(ring: Coord)
  {
    ring.Arr? && forall i :: 0 <= i < |ring.items| ==> ring.items[i].Arr? && |ring.items[i].items| >= 2
  }

  /** `' '.join(...)` over the first ring. */
  function RingText(ring: Coord): (r: Result<string, Raised>)
    ensures r.Ok? <==> WellFormedRing(ring)
  {
    match ring
    case Num(_) => Err(TypeError)
    case Arr(vs) =>
      match VertexTexts(vs)
      case Err(e) => Err(e)
      case Ok(ts) => Ok(Join(ts, " "))
  }

  // ----------------------------------------------------------- placemarks

  function PointLines(name: string, description: string, coordinates: string): seq<string>
  {
    [
      "<Placemark>",
      "<name>" + name + "</name>",
      "<description>" + description + "</description>",
      "<Point>",
      "<coordinates>" + coordinates + "</coordinates>",
      "</Point>",
      "</Placemark>"
    ]
  }

  function PolygonLines(name: string, description: string, coordinates: string): seq<string>
  {
    [
      "<Placemark>",
      "<name>" + name + "</name>",
      "<description>" + description + "</description>",
      "<Polygon>",
      "<outerBoundaryIs>",
      "<LinearRing>",
      "<coordinates>" + coordinates + "</coordinates>",
      "</LinearRing>",
      "</outerBoundaryIs>",
      "</Polygon>",
      "</Placemark>"
    ]
  }

  /** `create_point_placemark`: skipped with fewer than two coordinates, a TypeError for null ones. */
  function PointPlacemark(name: string, description: string, coordinates: Field<seq<Coord>>): (r: Result<Option<seq<string>>, Raised>)
    ensures r.Err? <==> coordinates.Null?
    ensures r.Ok? && r.value.Some? <==> coordinates.Present? && |coordinates.value| >= 2
    ensures r.Ok? && r.value.Some? ==>
              r.value.value == PointLines(name, description, CoordText(coordinates.value[0]) + "," + CoordText(coordinates.value[1]))
  {
    match coordinates
    case Absent => Ok(None)
    case Null => Err(TypeError)
    case Present(cs) =>
      if |cs| >= 2 then Ok(Some(PointLines(name, description, CoordText(cs[0]) + "," + CoordText(cs[1]))))
      else Ok(None)
  }

  /** `create_polygon_placemark`: skipped without rings, an error for a malformed first ring. */
  function PolygonPlacemark(name: string, description: string, coordinates: Field<seq<Coord>>): (r: Result<Option<seq<string>>, Raised>)
    ensures r.Err? <==> coordinates.Present? && |coordinates.value| > 0 && !WellFormedRing(coordinates.value[0])
    ensures r.Ok? && r.value.Some? <==> coordinates.Present? && |coordinates.value| > 0 && WellFormedRing(coordinates.value[0])
    ensures r.Ok? && r.value.Some? ==> r.value.value == PolygonLines(name, description, RingText(coordinates.value[0]).value)
  {
    match coordinates
    case Absent => Ok(None)
    case Null => Ok(None)
    case Present(cs) =>
      if |cs| == 0 then Ok(None)
      else match RingText(cs[0])
        case Err(e) => Err(e)
        case Ok(text) => Ok(Some(PolygonLines(name, description, text)))
  }

  /** `create_kml_placemark`: the lines of one feature, `None` for a skipped one. */
  function Placemark(f: Feature): (r: Result<Option<seq<string>>, Raised>)
    ensures r.Ok? && r.value.Some? ==>
              var props := if f.properties.Present? then f.properties.value else [];
              |r.value.value| >= 7 && r.value.value[0] == "<Placemark>" && r.value.value[|r.value.value| - 1] == "</Placemark>" &&
              r.value.value[1] == "<name>" + FeatureName(props) + "</name>" &&
              r.value.value[2] == "<description>" + Description(props) + "</description>"
    ensures !f.properties.Null? && (f.geometry.Absent? ||
              (f.geometry.Present? && f.geometry.value.kind != Some("Point") && f.geometry.value.kind != Some("Polygon")))
            ==> r == Ok(None)
  {
    if f.properties.Null? then Err(AttributeError)
    else
      var props := if f.properties.Present? then f.properties.value else [];
      match f.geometry
      case Null => Err(AttributeError)
      case Absent => Ok(None)
      case Present(g) =>
        if g.kind == Some("Point") then PointPlacemark(FeatureName(props), Description(props), g.coordinates)
        else if g.kind == Some("Polygon") then PolygonPlacemark(FeatureName(props), Description(props), g.coordinates)
        else Ok(None)
  }

  /** The features that yield a Placemark, described without the encoder's functions. */
  predicate Renders(f: Feature)
  {
    && !f.properties.Null?
    && f.geometry.Present?
    && var g := f.geometry.value;
       || (g.kind == Some("Point") && g.coordinates.Present? && |g.coordinates.value| >= 2)
       || (g.kind == Some("Polygon") && g.coordinates.Present? && |g.coordinates.value| > 0
           && WellFormedRing(g.coordinates.value[0]))
  }

  /** The inputs on which the source raises instead of skipping. */
  predicate Fails(f: Feature)
  {
    || f.properties.Null?
    || f.geometry.Null?
    || (f.geometry.Present? &&
        var g := f.geometry.value;
        || (g.kind == Some("Point") && g.coordinates.Null?)
        || (g.kind == Some("Polygon") && g.coordinates.Present? && |g.coordinates.value| > 0
            && !WellFormedRing(g.coordinates.value[0])))
  }

  /** The output dispatch at `output_result`: only a dictionary with `features`
      under `--format kml` is encoded; lists and other formats are printed as JSON. */
  lemma KmlOutputDispatch(format: Option<string>, data: Json)
    ensures format != Some("kml") ==> !RendersAsKml(format, data)
    ensures !data.JObj? ==> !RendersAsKml(format, data)
    ensures data.JObj? ==> (RendersAsKml(Some("kml"), data) <==> "features" in data.members)
    ensures !RendersAsKml(Some("geojson"), JObj(map["type" := JStr("FeatureCollection"), "features" := JArr([])]))
    ensures RendersAsKml(Some("kml"), JObj(map["features" := JArr([])]))
  {
  }

  /** A feature renders exactly when it is a Point with two coordinates or a
      Polygon with a well-formed first ring; it raises exactly on the malformed
      inputs; every other feature is skipped without error. */
  lemma PlacemarkCases(f: Feature)
    ensures Placemark(f).Ok? && Placemark(f).value.Some? <==> Renders(f)
    ensures Placemark(f).Err? <==> Fails(f)
    ensures Placemark(f) == Ok(None) <==> !Renders(f) && !Fails(f)
  {
  }

  /** `create_kml_placemark` calls the two scanning helpers, then dispatches on the type. */
  method CreateKmlPlacemark(f: Feature) returns (r: Result<Option<seq<string>>, Raised>)
    ensures r == Placemark(f)
  {
    if f.properties.Null? {
      return Err(AttributeError);
    }
    var props := if f.properties.Present? then f.properties.value else [];
    var name := GetFeatureName(props);
    var description := CreateFeatureDescription(props);
    match f.geometry
    case Null => r := Err(AttributeError);
    case Absent => r := Ok(None);
    case Present(g) =>
      if g.kind == Some("Point") {
        r := PointPlacemark(name, description, g.coordinates);
      } else if g.kind == Some("Polygon") {
        r := PolygonPlacemark(name, description, g.coordinates);
      } else {
        r := Ok(None);
      }
  }

  /** A Point placemark is seven lines and uses only the first two coordinates. */
  lemma PointShape(name: string, description: string, cs: seq<Coord>)
    requires |cs| >= 2
    ensures PointPlacemark(name, description, Present(cs)) == PointPlacemark(name, description, Present(cs[..2]))
    ensures var p := PointPlacemark(name, description, Present(cs)).value.value;
            |p| == 7 && p[4] == "<coordinates>" + CoordText(cs[0]) + "," + CoordText(cs[1]) + "</coordinates>"
  {
  }

  /** A vertex given as two plain numbers, neither containing a space. */
  predicate PlainVertex(v: Coord)
  {
    v.Arr? && |v.items| >= 2 && v.items[0].Num? && v.items[1].Num?
    && ' ' !in v.items[0].token && ' ' !in v.items[1].token
  }

  /** The Polygon's coordinate text lists every vertex of the first ring, in ring
      order, as `x,y,0`, with nothing added or removed: splitting it on spaces
      gives back one `x,y,0` per vertex. */
  lemma {:induction false} PolygonVertices(name: string, description: string, cs: seq<Coord>)
    requires |cs| > 0 && cs[0].Arr? && |cs[0].items| > 0
    requires forall i :: 0 <= i < |cs[0].items| ==> PlainVertex(cs[0].items[i])
    ensures var p := PolygonPlacemark(name, description, Present(cs));
            p.Ok? && p.value.Some? && |p.value.value| == 11 &&
            p.value.value[6] == "<coordinates>" + RingText(cs[0]).value + "</coordinates>"
    ensures var vs := cs[0].items;
            var ts := Split(RingText(cs[0]).value, ' ');
            |ts| == |vs| &&
            forall i :: 0 <= i < |vs| ==>
              PlainVertex(vs[i]) && ts[i] == vs[i].items[0].token + "," + vs[i].items[1].token + ",0"
  {
    var vs := cs[0].items;
    var ts := VertexTexts(vs).value;
    forall k | 0 <= k < |ts|
      ensures ' ' !in ts[k]
    {
      assert ts[k] == vs[k].items[0].token + "," + vs[k].items[1].token + ",0";
    }
    SplitJoin(ts, ' ');
  }

  /** A first ring that is present but empty still yields a Polygon, with empty coordinate text. */
  lemma EmptyRingPolygon(name: string, description: string, rest: seq<Coord>)
    ensures PolygonPlacemark(name, description, Present([Arr([])] + rest)) == Ok(Some(PolygonLines(name, description, "")))
  {
    assert ([Arr([])] + rest)[0] == Arr([]);
  }

  // ------------------------------------------------------------- document

  /** Appends one feature's outcome to the lines so far; the first error sticks. */
  function Extend(lines: Result<seq<string>, Raised>, placemark: Result<Option<seq<string>>, Raised>): Result<seq<string>, Raised>
  {
    match lines
    case Err(e) => Err(e)
    case Ok(ls) =>
      match placemark
      case Err(e) => Err(e)
      case Ok(None) => Ok(ls)
      case Ok(Some(p)) => Ok(ls + p)
  }

  /** Two line lists one after the other; the first error sticks. */
  function Combine(x: Result<seq<string>, Raised>, y: Result<seq<string>, Raised>): Result<seq<string>, Raised>
  {
    match x
    case Err(e) => Err(e)
    case Ok(lx) =>
      match y
      case Err(e) => Err(e)
      case Ok(ly) => Ok(lx + ly)
  }

  /** The placemark lines of a feature list, in order; the first error raised stops it. */
  function PlacemarkLines(fs: seq<Feature>): Result<seq<string>, Raised>
  {
    if |fs| == 0 then Ok([]) else Extend(PlacemarkLines(fs[..|fs| - 1]), Placemark(fs[|fs| - 1]))
  }

  /** `convert_json_to_kml` as lines: the envelope around the placemark lines. */
  function DocumentLines(features: Field<seq<Feature>>): (r: Result<seq<string>, Raised>)
    ensures r.Ok? ==> |r.value| >= 5 && r.value[..3] == Header && r.value[|r.value| - 2..] == Footer
  {
    match features
    case Null => Err(TypeError)
    case Absent => Ok(Header + Footer)
    case Present(fs) =>
      match PlacemarkLines(fs)
      case Err(e) => Err(e)
      case Ok(lines) => Ok(Header + lines + Footer)
  }

  /** The document fails exactly when the list is null or some feature raises. */
  function Document(features: Field<seq<Feature>>): (r: Result<string, Raised>)
    ensures r.Err? <==> features.Null? || (features.Present? && exists i :: 0 <= i < |features.value| && Fails(features.value[i]))
  {
    PlacemarkLinesFail(if features.Present? then features.value else []);
    match DocumentLines(features)
    case Err(e) => Err(e)
    case Ok(lines) => Ok(Join(lines, "\n"))
  }

  lemma ExtendCombine(x: Result<seq<string>, Raised>, y: Result<seq<string>, Raised>, p: Result<Option<seq<string>>, Raised>)
    ensures Extend(Combine(x, y), p) == Combine(x, Extend(y, p))
  {
    if x.Ok? && y.Ok? && p.Ok? && p.value.Some? {
      assert x.value + y.value + p.value.value == x.value + (y.value + p.value.value);
    }
  }

  /** Placemarks of a concatenation are those of the first part followed by those of the second. */
  lemma {:induction false} PlacemarkLinesAppend(a: seq<Feature>, b: seq<Feature>)
    ensures PlacemarkLines(a + b) == Combine(PlacemarkLines(a), PlacemarkLines(b))
  {
    if |b| == 0 {
      assert a + b == a;
      if PlacemarkLines(a).Ok? {
        assert PlacemarkLines(a).value + [] == PlacemarkLines(a).value;
      }
    } else {
      var init, last := b[..|b| - 1], b[|b| - 1];
      assert (a + b)[..|a + b| - 1] == a + init;
      assert (a + b)[|a + b| - 1] == last;
      PlacemarkLinesAppend(a, init);
      ExtendCombine(PlacemarkLines(a), PlacemarkLines(init), Placemark(last));
    }
  }

  lemma LinesAssoc(a: seq<string>, b: seq<string>, c: seq<string>)
    ensures (a + b) + c == a + (b + c)
  {
  }

  /** One more feature extends the lines of the features before it. */
  lemma PlacemarkLinesSnoc(fs: seq<Feature>, i: int)
    requires 0 <= i < |fs|
    ensures PlacemarkLines(fs[..i + 1]) == Extend(PlacemarkLines(fs[..i]), Placemark(fs[i]))
  {
    assert fs[..i + 1][..i] == fs[..i];
  }

  /** One feature contributes exactly its own placemark lines, or none. */
  lemma PlacemarkLinesSingle(f: Feature)
    ensures PlacemarkLines([f]) == Extend(Ok([]), Placemark(f))
  {
    assert [f][..0] == [];
  }

  /** The placemark lines fail exactly when some feature raises, and then with
      the error of the first feature that does. */
  lemma {:induction false} PlacemarkLinesFail(fs: seq<Feature>)
    ensures PlacemarkLines(fs).Err? <==> exists i :: 0 <= i < |fs| && Fails(fs[i])
    ensures PlacemarkLines(fs).Err? ==>
              exists i :: 0 <= i < |fs| && Fails(fs[i]) && (forall j :: 0 <= j < i ==> !Fails(fs[j])) &&
                PlacemarkLines(fs).error == Placemark(fs[i]).error
  {
    if |fs| > 0 {
      var init, last := fs[..|fs| - 1], fs[|fs| - 1];
      PlacemarkLinesFail(init);
      PlacemarkCases(last);
      assert forall i :: 0 <= i < |init| ==> init[i] == fs[i];
      if PlacemarkLines(init).Err? {
        var i :| 0 <= i < |init| && Fails(init[i]) && (forall j :: 0 <= j < i ==> !Fails(init[j])) &&
                 PlacemarkLines(init).error == Placemark(init[i]).error;
        assert Fails(fs[i]);
      } else if Fails(last) {
        assert Fails(fs[|fs| - 1]);
      } else {
        forall i | 0 <= i < |fs|
          ensures !Fails(fs[i])
        {
          if i < |init| {
            assert fs[i] == init[i];
          }
        }
      }
    }
  }

  /** The number of features that render. */
  function RenderedCount(fs: seq<Feature>): nat
  {
    if |fs| == 0 then 0 else RenderedCount(fs[..|fs| - 1]) + (if Renders(fs[|fs| - 1]) then 1 else 0)
  }

  /** A block whose first line, and only that one, is `<Placemark>`. */
  lemma OpensOnce(p: seq<string>)
    requires |p| > 0 && p[0] == "<Placemark>"
    requires forall i :: 1 <= i < |p| ==> p[i] != "<Placemark>"
    ensures multiset(p)["<Placemark>"] == 1
  {
    assert p == [p[0]] + p[1..];
    assert "<Placemark>" !in p[1..];
  }

  /** Two lines that differ in their second character differ. */
  lemma DifferAt1(a: string, b: string)
    requires |a| > 1 && |b| > 1 && a[1] != b[1]
    ensures a != b
  {
  }

  lemma PointBlockOpensOnce(name: string, description: string, coordinates: string)
    ensures multiset(PointLines(name, description, coordinates))["<Placemark>"] == 1
  {
    var p := PointLines(name, description, coordinates);
    DifferAt1(p[1], "<Placemark>");
    DifferAt1(p[2], "<Placemark>");
    DifferAt1(p[4], "<Placemark>");
    OpensOnce(p);
  }

  lemma PolygonBlockOpensOnce(name: string, description: string, coordinates: string)
    ensures multiset(PolygonLines(name, description, coordinates))["<Placemark>"] == 1
  {
    var p := PolygonLines(name, description, coordinates);
    DifferAt1(p[1], "<Placemark>");
    DifferAt1(p[2], "<Placemark>");
    DifferAt1(p[6], "<Placemark>");
    OpensOnce(p);
  }

  /** Each placemark block opens with exactly one `<Placemark>` line. */
  lemma BlockOpensOnce(f: Feature)
    requires Renders(f)
    ensures Placemark(f).Ok? && Placemark(f).value.Some?
    ensures multiset(Placemark(f).value.value)["<Placemark>"] == 1
  {
    PlacemarkCases(f);
    var props := if f.properties.Present? then f.properties.value else [];
    var g := f.geometry.value;
    var cs := g.coordinates.value;
    if g.kind == Some("Point") {
      PointBlockOpensOnce(FeatureName(props), Description(props), CoordText(cs[0]) + "," + CoordText(cs[1]));
    } else {
      PolygonBlockOpensOnce(FeatureName(props), Description(props), RingText(cs[0]).value);
    }
  }

  /** The document holds one `<Placemark>` per rendering feature. */
  lemma {:induction false} PlacemarkCount(fs: seq<Feature>)
    requires PlacemarkLines(fs).Ok?
    ensures multiset(PlacemarkLines(fs).value)["<Placemark>"] == RenderedCount(fs)
  {
    if |fs| > 0 {
      var f := fs[|fs| - 1];
      PlacemarkCount(fs[..|fs| - 1]);
      PlacemarkCases(f);
      if Renders(f) {
        BlockOpensOnce(f);
      }
    }
  }

  /** A feature list without renderable features yields only the five envelope lines. */
  lemma EmptyDocument()
    ensures DocumentLines(Present([])) == Ok(Header + Footer) && |Header + Footer| == 5
    ensures Document(Present([])) == Ok(Join(Header + Footer, "\n"))
    ensures Document(Absent) == Document(Present([]))
  {
    assert PlacemarkLines([]) == Ok([]);
    assert Header + [] + Footer == Header + Footer;
  }

  /** A Point feature whose name key is spelled `Name`: its name is taken out of
      the table, the other property becomes the one row, and the two numbers
      become the coordinate text. */
  lemma PointExample()
    ensures Placemark(Feature(Present(Geometry(Some("Point"), Present([Num("-74.0"), Num("40.0")]))),
                              Present([("Name", "Test Point"), ("attr1", "value1")])))
            == Ok(Some(PointLines("Test Point", TableStart + "<tr><td>attr1</td><td>value1</td></tr>" + TableEnd, "-74.0,40.0")))
  {
    var props := [("Name", "Test Point"), ("attr1", "value1")];
    assert Lower("Name") == "name";
    assert Lower("attr1")[0] == 'a';
    assert FeatureName(props) == "Test Point";
    assert props[..1] == [("Name", "Test Point")];
    assert [("Name", "Test Point")][..0] == [];
    assert Rows(props) == [Row("attr1", "value1")];
    assert Description(props) == TableStart + "<tr><td>attr1</td><td>value1</td></tr>" + TableEnd;
    assert CoordText(Num("-74.0")) + "," + CoordText(Num("40.0")) == "-74.0,40.0";
  }

  /** A vertex of two plain numbers. */
  lemma VertexOf(x: string, y: string)
    ensures VertexText(Arr([Num(x), Num(y)])) == Ok(x + "," + y + ",0")
  {
  }

  lemma VertexTextsCons(v: Coord, t: string, vs: seq<Coord>, ts: seq<string>)
    requires VertexText(v) == Ok(t) && VertexTexts(vs) == Ok(ts)
    ensures VertexTexts([v] + vs) == Ok([t] + ts)
  {
    assert ([v] + vs)[1..] == vs;
  }

  lemma JoinCons(p: string, rest: seq<string>, sep: string)
    requires |rest| > 0
    ensures Join([p] + rest, sep) == p + sep + Join(rest, sep)
  {
    assert ([p] + rest)[1..] == rest;
  }

  /** The vertices of the closed unit square, one text each. */
  lemma SquareVertices()
    ensures VertexTexts([Arr([Num("0"), Num("0")]), Arr([Num("1"), Num("0")]), Arr([Num("1"), Num("1")]),
                         Arr([Num("0"), Num("1")]), Arr([Num("0"), Num("0")])])
            == Ok(["0,0,0", "1,0,0", "1,1,0", "0,1,0", "0,0,0"])
  {
    var a, b, c, d := Arr([Num("0"), Num("0")]), Arr([Num("1"), Num("0")]), Arr([Num("1"), Num("1")]), Arr([Num("0"), Num("1")]);
    var ta, tb, tc, td := "0,0,0", "1,0,0", "1,1,0", "0,1,0";
    VertexOf("0", "0");
    assert "0" + "," + "0" + ",0" == ta;
    VertexOf("1", "0");
    assert "1" + "," + "0" + ",0" == tb;
    VertexOf("1", "1");
    assert "1" + "," + "1" + ",0" == tc;
    VertexOf("0", "1");
    assert "0" + "," + "1" + ",0" == td;
    VertexTextsCons(a, ta, [], []);
    assert [a] + [] == [a] && [ta] + [] == [ta];
    VertexTextsCons(d, td, [a], [ta]);
    assert [d] + [a] == [d, a] && [td] + [ta] == [td, ta];
    VertexTextsCons(c, tc, [d, a], [td, ta]);
    assert [c] + [d, a] == [c, d, a] && [tc] + [td, ta] == [tc, td, ta];
    VertexTextsCons(b, tb, [c, d, a], [tc, td, ta]);
    assert [b] + [c, d, a] == [b, c, d, a] && [tb] + [tc, td, ta] == [tb, tc, td, ta];
    VertexTextsCons(a, ta, [b, c, d, a], [tb, tc, td, ta]);
    assert [a] + [b, c, d, a] == [a, b, c, d, a] && [ta] + [tb, tc, td, ta] == [ta, tb, tc, td, ta];
  }

  /** The five vertex texts of the square, joined by spaces. */
  lemma SquareJoin()
    ensures Join(["0,0,0", "1,0,0", "1,1,0", "0,1,0", "0,0,0"], " ") == "0,0,0 1,0,0 1,1,0 0,1,0 0,0,0"
  {
    var ta, tb, tc, td := "0,0,0", "1,0,0", "1,1,0", "0,1,0";
    JoinCons(td, [ta], " ");
    assert [td] + [ta] == [td, ta];
    JoinCons(tc, [td, ta], " ");
    assert [tc] + [td, ta] == [tc, td, ta];
    JoinCons(tb, [tc, td, ta], " ");
    assert [tb] + [tc, td, ta] == [tb, tc, td, ta];
    JoinCons(ta, [tb, tc, td, ta], " ");
    assert [ta] + [tb, tc, td, ta] == [ta, tb, tc, td, ta];
  }

  /** The closed unit square as a ring: five `x,y,0` vertices joined by spaces. */
  lemma SquareRing()
    ensures RingText(Arr([Arr([Num("0"), Num("0")]), Arr([Num("1"), Num("0")]), Arr([Num("1"), Num("1")]),
                          Arr([Num("0"), Num("1")]), Arr([Num("0"), Num("0")])]))
            == Ok("0,0,0 1,0,0 1,1,0 0,1,0 0,0,0")
  {
    SquareVertices();
    SquareJoin();
  }

  /** A Polygon feature whose name key is spelled `NAME` and whose outer ring is
      the closed unit square. */
  lemma PolygonExample()
    ensures var ring := Arr([Arr([Num("0"), Num("0")]), Arr([Num("1"), Num("0")]), Arr([Num("1"), Num("1")]),
                             Arr([Num("0"), Num("1")]), Arr([Num("0"), Num("0")])]);
            var props := [("NAME", "Test Polygon"), ("attr1", "value1")];
            Placemark(Feature(Present(Geometry(Some("Polygon"), Present([ring]))), Present(props)))
            == Ok(Some(PolygonLines("Test Polygon", Description(props), "0,0,0 1,0,0 1,1,0 0,1,0 0,0,0")))
  {
    var props := [("NAME", "Test Polygon"), ("attr1", "value1")];
    assert Lower("NAME") == "name";
    assert FeatureName(props) == "Test Polygon";
    SquareRing();
  }

  /** `convert_json_to_kml`: grows the list of lines feature by feature, then joins them. */
  method ConvertJsonToKml(features: Field<seq<Feature>>) returns (r: Result<string, Raised>)
    ensures r == Document(features)
  {
    if features.Null? {
      return Err(TypeError);
    }
    var fs := if features.Present? then features.value else [];
    var kmlParts := Header;
    var i := 0;
    while i < |fs|
      invariant 0 <= i <= |fs|
      invariant PlacemarkLines(fs[..i]).Ok?
      invariant kmlParts == Header + PlacemarkLines(fs[..i]).value
    {
      PlacemarkLinesSnoc(fs, i);
      var placemark := CreateKmlPlacemark(fs[i]);
      if placemark.Err? {
        PlacemarkLinesAppend(fs[..i + 1], fs[i + 1..]);
        assert fs[..i + 1] + fs[i + 1..] == fs;
        return Err(placemark.error);
      }
      if placemark.value.Some? {
        LinesAssoc(Header, PlacemarkLines(fs[..i]).value, placemark.value.value);
        kmlParts := kmlParts + placemark.value.value;
      }
      i := i + 1;
    }
    assert fs[..|fs|] == fs;
    kmlParts := kmlParts + Footer;
    r := Ok(Join(kmlParts, "\n"));
  }
}
