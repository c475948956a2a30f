/**
 * The filters a CSW GetRecords request is built from, as the GeoTools
 * FilterFactory makes them, the helpers that build them from search
 * criteria, and the one rule of request creation that is visible here: a
 * request needs a filter.
 */
module CswFilters {
  import opened Wrappers
  import opened Json

  /** The spatial property every coverage filter is on. */
  const BOUNDING_BOX := "ows:BoundingBox"

  datatype Coordinate = Coordinate(x: real, y: real)

  /** A geometry, opaque here: its rings of coordinates, outer ring first. */
  datatype Geometry = Geometry(rings: seq<seq<Coordinate>>)

  datatype LiteralValue = TextValue(text: string) | GeometryValue(geometry: Geometry)

  datatype Expression = PropertyName(name: string) | Literal(value: LiteralValue)

  /** A filter tree: the four kinds of node the request's constraint is made of. */
  datatype Filter =
    | Equals(left: Expression, right: Expression)
    | Like(expr: Expression, pattern: string, wildcard: string, singleChar: string, escape: string, matchCase: bool)
    | Intersects(geometryProperty: Expression, geometryValue: Expression)
    | And(first: Filter, second: Filter)

  /** The catalogue's wildcard, single-character wildcard and escape characters. */
  datatype LikeConfig = LikeConfig(wildcard: string, singleChar: string, escape: string)

  /** The exceptions: a failure while building a coverage filter, and a request without a filter. */
  datatype ServiceRuntimeException = CoverageFilterFailed | NoFilter

  /** A null or empty criterion means there is nothing to filter on. */
  predicate NoCriterion(criterion: Option<string>) {
    criterion.None? || criterion.value == ""
  }

  /**
   * createLikeFilter: no filter for a null or empty criterion; otherwise a
   * case-insensitive like on the element with the criterion as pattern and
   * the configured wildcard, single-character and escape strings as given.
   */
  function CreateLikeFilter(criterion: Option<string>, elementName: string, config: LikeConfig): (r: Option<Filter>)
    ensures r.None? <==> NoCriterion(criterion)
    ensures r.Some? ==>
      && r.value.Like?
      && r.value.expr == PropertyName(elementName)
      && r.value.pattern == criterion.value
      && r.value.wildcard == config.wildcard && r.value.singleChar == config.singleChar
      && r.value.escape == config.escape
      && !r.value.matchCase
  {
    if NoCriterion(criterion) then None
    else Some(Like(PropertyName(elementName), criterion.value, config.wildcard, config.singleChar, config.escape, false))
  }

  /** createEqualsFilter: no filter for a null or empty criterion; otherwise element = criterion. */
  function CreateEqualsFilter(criterion: Option<string>, elementName: string): (r: Option<Filter>)
    ensures r.None? <==> NoCriterion(criterion)
    ensures r.Some? ==>
      r.value.Equals? && r.value.left == PropertyName(elementName) && r.value.right == Literal(TextValue(criterion.value))
  {
    if NoCriterion(criterion) then None
    else Some(Equals(PropertyName(elementName), Literal(TextValue(criterion.value))))
  }

  /** The comparisons of a filter tree from left to right, its And nodes flattened away. */
  function Conjuncts(f: Filter): (r: seq<Filter>)
    ensures |r| >= 1
    ensures forall i :: 0 <= i < |r| ==> !r[i].And?
  {
    match f
    case And(a, b) => Conjuncts(a) + Conjuncts(b)
    case _ => [f]
  }

  /** filterFactory.and(a, b): a binary node whose comparisons are a's followed by b's. */
  function AndFilter(a: Filter, b: Filter): (r: Filter)
    ensures Conjuncts(r) == Conjuncts(a) + Conjuncts(b)
    ensures r.And? && r.first == a && r.second == b
  {
    And(a, b)
  }

  /**
   * createGeometryFilter. The input is the GeoJSON text as JSONHelper
   * parses it (None when it does not parse); readGeometry stands for
   * GeoJSONReader.toGeometry and reproject for the transform from
   * EPSG:3067 to the catalogue's coordinate system (None when either
   * throws). Anything but exactly one feature gives no filter; any failure
   * after that is an exception, never "no filter".
   */
  function CreateGeometryFilter(
    input: Option<Json>,
    readGeometry: Option<Json> -> Option<Geometry>,
    reproject: Geometry -> Option<Geometry>)
    : (r: Result<Option<Filter>, ServiceRuntimeException>)
    ensures r.Err? ==> r.error == CoverageFilterFailed
    ensures input.None? ==> r == Err(CoverageFilterFailed)
    ensures (input.Some? && OptArray(input.value, "features").Some? && |OptArray(input.value, "features").value| == 1 &&
             OptObjectAt(OptArray(input.value, "features").value, 0).None?) ==>
      r == Err(CoverageFilterFailed)
    ensures (r.Ok? && r.value.None?) <==>
      input.Some? && (OptArray(input.value, "features").None? || |OptArray(input.value, "features").value| != 1)
    ensures r.Ok? && r.value.Some? ==>
      input.Some? && r.value.value.Intersects? &&
      r.value.value.geometryProperty == PropertyName(BOUNDING_BOX) &&
      r.value.value.geometryValue.Literal? &&
      r.value.value.geometryValue.value.GeometryValue? &&
      exists g :: readGeometry(GeometryMember(input.value)) == Some(g) &&
        reproject(g) == Some(r.value.value.geometryValue.value.geometry)
  {
    match input
    case None => Err(CoverageFilterFailed)
    case Some(geojson) =>
      var features := OptArray(geojson, "features");
      if features.None? || |features.value| != 1 then Ok(None)
      else
        match OptObjectAt(features.value, 0)
        // optJSONObject(0) is null and the next call on it throws
        case None => Err(CoverageFilterFailed)
        case Some(feature) =>
          match readGeometry(OptObject(feature, "geometry"))
          case None => Err(CoverageFilterFailed)
          case Some(geom) =>
            match reproject(geom)
            case None => Err(CoverageFilterFailed)
            case Some(transformed) =>
              Ok(Some(Intersects(PropertyName(BOUNDING_BOX), Literal(GeometryValue(transformed)))))
  }

  /** The geometry member of the single feature, for a document that has one object feature. */
  function GeometryMember(geojson: Json): Option<Json> {
    match OptArray(geojson, "features")
    case None => None
    case Some(features) =>
      match OptObjectAt(features, 0)
      case None => None
      case Some(feature) => OptObject(feature, "geometry")
  }

  /** When the single feature's geometry cannot be read or reprojected the input is an error, not "no filter". */
  lemma GeometryFailureIsError(input: Json, readGeometry: Option<Json> -> Option<Geometry>, reproject: Geometry -> Option<Geometry>)
    requires OptArray(input, "features").Some? && |OptArray(input, "features").value| == 1
    requires forall g :: readGeometry(GeometryMember(input)) == Some(g) ==> reproject(g).None?
    ensures CreateGeometryFilter(Some(input), readGeometry, reproject) == Err(CoverageFilterFailed)
  {
  }

  /**
   * testCoverageFilter in general: one feature object whose geometry reads
   * and reprojects gives an intersects filter on ows:BoundingBox holding
   * the reprojected geometry.
   */
  lemma SingleFeatureCoverage(
    members: map<string, Json>, feature: map<string, Json>,
    readGeometry: Option<Json> -> Option<Geometry>, reproject: Geometry -> Option<Geometry>,
    read: Geometry, transformed: Geometry)
    requires "features" in members && members["features"] == JArray([JObject(feature)])
    requires readGeometry(OptObject(JObject(feature), "geometry")) == Some(read)
    requires reproject(read) == Some(transformed)
    ensures CreateGeometryFilter(Some(JObject(members)), readGeometry, reproject) ==
      Ok(Some(Intersects(PropertyName(BOUNDING_BOX), Literal(GeometryValue(transformed)))))
  {
    assert OptArray(JObject(members), "features") == Some([JObject(feature)]);
  }

  /** The request with its constraint; its XML form is written by GetRecords, which is not part of this model. */
  datatype GetRecordsRequest = GetRecordsRequest(constraint: Filter)

  /** createRequest: a null filter is refused with an exception. */
  function CreateRequest(filter: Option<Filter>): (r: Result<GetRecordsRequest, ServiceRuntimeException>)
    ensures r.Err? <==> filter.None?
    ensures r.Err? ==> r.error == NoFilter
    ensures r.Ok? ==> r.value.constraint == filter.value
  {
    match filter
    case None => Err(NoFilter)
    case Some(f) => Ok(GetRecordsRequest(f))
  }

  /** testWithNoFilter: creating a request without a filter throws. */
  lemma NoFilterRejected()
    ensures CreateRequest(None) == Err(NoFilter)
  {
  }

  /** An empty search criterion leaves nothing to send: the request with it is refused too. */
  lemma EmptyCriterionRequestRejected(elementName: string)
    ensures CreateRequest(CreateEqualsFilter(Some(""), elementName)).Err?
    ensures CreateRequest(CreateEqualsFilter(None, elementName)).Err?
  {
  }

  /** testSimpleFilter: the request's constraint is myprop = "my value". */
  lemma SimpleFilterRequest()
    ensures CreateRequest(CreateEqualsFilter(Some("my value"), "myprop")) ==
      Ok(GetRecordsRequest(Equals(PropertyName("myprop"), Literal(TextValue("my value")))))
  {
  }

  /**
   * testMultiFilter: the and-filter lists myprop = "my value" first and
   * query = "input*" second; the second, though named as a like filter in
   * the test, is an equality.
   */
  lemma MultiFilterRequest()
    ensures var eq := CreateEqualsFilter(Some("my value"), "myprop");
      var second := CreateEqualsFilter(Some("input*"), "query");
      eq.Some? && second.Some? &&
      Conjuncts(CreateRequest(Some(AndFilter(eq.value, second.value))).value.constraint) ==
        [Equals(PropertyName("myprop"), Literal(TextValue("my value"))),
         Equals(PropertyName("query"), Literal(TextValue("input*")))]
  {
  }
}
