/**
 * LayerCapabilitiesWFS: the WFS-specific part of a layer's capabilities,
 * kept in the type-specific map that the capabilities object inherits.
 * The geometry field, namespace and feature-property setters ignore a null
 * argument and setMaxFeatures a negative one; every getter reads the map
 * with its own default.
 */
module LayerCapabilitiesWfs {
  import opened Wrappers
  import opened JavaText
  import OskariLayer

  const OGC_API_CRS_URI := "crs-uri"
  // CapabilitiesConstants.KEY_MAX_FEATURES
  const MAX_FEATURES := "maxFeatures"
  const NAMESPACE_URI := "nsUri"
  const FEATURE_PROPERTIES := "featureProperties"
  const GEOMETRY_FIELD := "geomName"

  /** A property of a feature type, as FeaturePropertyType describes it to this class. */
  datatype FeatureProperty = FeatureProperty(name: string, isGeometry: bool)

  /** The values this class stores in the type-specific map. */
  datatype CapabilityValue =
    | CrsUris(uris: set<string>)
    | Properties(props: seq<FeatureProperty>)
    | Text(text: string)
    | Count(count: int)

  /** Index i holds a geometry property and no earlier property is one. */
  predicate IsFirstGeometry(props: seq<FeatureProperty>, i: int) {
    0 <= i < |props| && props[i].isGeometry && forall j :: 0 <= j < i ==> !props[j].isGeometry
  }

  /**
   * The stream in setFeatureProperties: the name of the first property
   * that is a geometry, or null when there is none.
   */
  function FirstGeometryName(props: seq<FeatureProperty>): (r: Option<string>)
    ensures r.None? <==> forall i :: 0 <= i < |props| ==> !props[i].isGeometry
    ensures r.Some? ==> exists i :: IsFirstGeometry(props, i) && props[i].name == r.value
    decreases |props|
  {
    if |props| == 0 then None
    else if props[0].isGeometry then
      assert IsFirstGeometry(props, 0);
      Some(props[0].name)
    else
      var r := FirstGeometryName(props[1..]);
      assert forall i :: 1 <= i < |props| ==> props[i] == props[1..][i - 1];
      if r.Some? then
        var k :| IsFirstGeometry(props[1..], k) && props[1..][k].name == r.value;
        assert IsFirstGeometry(props, k + 1);
        r
      else
        r
  }

  /** What the getters report, all together. */
  datatype CapabilitiesView = CapabilitiesView(
    supportedCrsUris: set<string>,
    featureProperties: seq<FeatureProperty>,
    geometryField: Option<string>,
    namespaceUri: Option<string>,
    maxScale: Option<int>)

  class LayerCapabilitiesWFS {
    const name: string
    const title: string
    var layerType: string
    var typeSpecific: map<string, CapabilityValue>

    /** Each key this class writes holds the kind of value its getter casts to. */
    ghost predicate Valid()
      reads this
    {
      && (OGC_API_CRS_URI in typeSpecific ==> typeSpecific[OGC_API_CRS_URI].CrsUris?)
      && (FEATURE_PROPERTIES in typeSpecific ==> typeSpecific[FEATURE_PROPERTIES].Properties?)
      && (GEOMETRY_FIELD in typeSpecific ==> typeSpecific[GEOMETRY_FIELD].Text?)
      && (NAMESPACE_URI in typeSpecific ==> typeSpecific[NAMESPACE_URI].Text?)
      && (MAX_FEATURES in typeSpecific ==> typeSpecific[MAX_FEATURES].Count?)
    }

    /** The constructor: a WFS layer with nothing type-specific recorded yet. */
    constructor (name: string, title: string)
      ensures Valid()
      ensures this.name == name && this.title == title
      ensures layerType == OskariLayer.TYPE_WFS
      ensures typeSpecific == map[]
      ensures View() == CapabilitiesView({}, [], None, None, None)
    {
      this.name := name;
      this.title := title;
      layerType := OskariLayer.TYPE_WFS;
      typeSpecific := map[];
    }

    /** addCapabilityData, inherited: put the value under the key. */
    method AddCapabilityData(key: string, value: CapabilityValue)
      modifies this
      ensures typeSpecific == old(typeSpecific)[key := value]
      ensures layerType == old(layerType)
    {
      typeSpecific := typeSpecific[key := value];
    }

    /** getSupportedCrsURIs: the stored set, the empty set when never set. */
    function SupportedCrsURIs(): (r: set<string>)
      reads this
      requires Valid()
      ensures OGC_API_CRS_URI in typeSpecific ==> typeSpecific[OGC_API_CRS_URI] == CrsUris(r)
      ensures OGC_API_CRS_URI !in typeSpecific ==> r == {}
    {
      if OGC_API_CRS_URI in typeSpecific then typeSpecific[OGC_API_CRS_URI].uris else {}
    }

    /** getFeatureProperties: the stored collection, the empty list when never set. */
    function FeatureProperties(): (r: seq<FeatureProperty>)
      reads this
      requires Valid()
      ensures FEATURE_PROPERTIES in typeSpecific ==> typeSpecific[FEATURE_PROPERTIES] == Properties(r)
      ensures FEATURE_PROPERTIES !in typeSpecific ==> r == []
    {
      if FEATURE_PROPERTIES in typeSpecific then typeSpecific[FEATURE_PROPERTIES].props else []
    }

    /** getGeometryField: the stored name, null when never set. */
    function GeometryField(): (r: Option<string>)
      reads this
      requires Valid()
      ensures r.Some? <==> GEOMETRY_FIELD in typeSpecific
      ensures r.Some? ==> typeSpecific[GEOMETRY_FIELD] == Text(r.value)
    {
      if GEOMETRY_FIELD in typeSpecific then Some(typeSpecific[GEOMETRY_FIELD].text) else None
    }

    /** getNamespaceUri: the stored URI, null by default. */
    function NamespaceUri(): (r: Option<string>)
      reads this
      requires Valid()
      ensures r.Some? <==> NAMESPACE_URI in typeSpecific
      ensures r.Some? ==> typeSpecific[NAMESPACE_URI] == Text(r.value)
    {
      if NAMESPACE_URI in typeSpecific then Some(typeSpecific[NAMESPACE_URI].text) else None
    }

    /** getMaxScale: reads the max-features entry, null when never set. */
    function MaxScale(): (r: Option<int>)
      reads this
      requires Valid()
      ensures r.Some? <==> MAX_FEATURES in typeSpecific
      ensures r.Some? ==> typeSpecific[MAX_FEATURES] == Count(r.value)
    {
      if MAX_FEATURES in typeSpecific then Some(typeSpecific[MAX_FEATURES].count) else None
    }

    function View(): CapabilitiesView
      reads this
      requires Valid()
    {
      CapabilitiesView(SupportedCrsURIs(), FeatureProperties(), GeometryField(), NamespaceUri(), MaxScale())
    }

    /** setSupportedCrsURIs: stores the set unconditionally. */
    method SetSupportedCrsURIs(uris: set<string>)
      requires Valid()
      modifies this
      ensures Valid() && layerType == old(layerType)
      ensures typeSpecific == old(typeSpecific)[OGC_API_CRS_URI := CrsUris(uris)]
      ensures View() == old(View()).(supportedCrsUris := uris)
    {
      AddCapabilityData(OGC_API_CRS_URI, CrsUris(uris));
    }

    /** setGeometryField: stores a non-null name; null changes nothing. */
    method SetGeometryField(geomName: Option<string>)
      requires Valid()
      modifies this
      ensures Valid() && layerType == old(layerType)
      ensures typeSpecific ==
        if geomName.Some? then old(typeSpecific)[GEOMETRY_FIELD := Text(geomName.value)] else old(typeSpecific)
      ensures View() == if geomName.Some? then old(View()).(geometryField := geomName) else old(View())
    {
      if geomName.Some? {
        AddCapabilityData(GEOMETRY_FIELD, Text(geomName.value));
      }
    }

    /**
     * setFeatureProperties: null changes nothing; otherwise the properties
     * are stored and the geometry field is set to the first geometry
     * property's name. When no property is a geometry the geometry field
     * keeps whatever it held before.
     */
    method SetFeatureProperties(props: Option<seq<FeatureProperty>>)
      requires Valid()
      modifies this
      ensures Valid() && layerType == old(layerType)
      ensures props.None? ==> typeSpecific == old(typeSpecific)
      ensures props.Some? ==>
        var stored := old(typeSpecific)[FEATURE_PROPERTIES := Properties(props.value)];
        typeSpecific ==
          match FirstGeometryName(props.value)
          case Some(g) => stored[GEOMETRY_FIELD := Text(g)]
          case None => stored
      ensures props.None? ==> View() == old(View())
      ensures props.Some? ==>
        View() == old(View()).(
          featureProperties := props.value,
          geometryField := if FirstGeometryName(props.value).Some? then FirstGeometryName(props.value) else old(GeometryField()))
    {
      if props.Some? {
        AddCapabilityData(FEATURE_PROPERTIES, Properties(props.value));
        SetGeometryField(FirstGeometryName(props.value));
      }
    }

    /** setNamespaceUri: stores a non-null URI; null changes nothing. */
    method SetNamespaceUri(uri: Option<string>)
      requires Valid()
      modifies this
      ensures Valid() && layerType == old(layerType)
      ensures typeSpecific ==
        if uri.Some? then old(typeSpecific)[NAMESPACE_URI := Text(uri.value)] else old(typeSpecific)
      ensures View() == if uri.Some? then old(View()).(namespaceUri := uri) else old(View())
    {
      if uri.Some? {
        AddCapabilityData(NAMESPACE_URI, Text(uri.value));
      }
    }

    /** setMaxFeatures: a negative count is ignored; any other is stored and read back by getMaxScale. */
    method SetMaxFeatures(count: int)
      requires Valid() && IsInt(count)
      modifies this
      ensures Valid() && layerType == old(layerType)
      ensures typeSpecific ==
        if count < 0 then old(typeSpecific) else old(typeSpecific)[MAX_FEATURES := Count(count)]
      ensures View() == if count < 0 then old(View()) else old(View()).(maxScale := Some(count))
    {
      if count < 0 {
        return;
      }
      AddCapabilityData(MAX_FEATURES, Count(count));
    }
  }

  /**
   * A client of the class: a geometry field found once survives a later
   * property list without geometry, and a negative max-features count does
   * not replace a stored one.
   */
  method StaleFieldsScenario() returns (geometry: Option<string>, maxScale: Option<int>, properties: seq<FeatureProperty>)
    ensures geometry == Some("the_geom")
    ensures maxScale == Some(100)
    ensures properties == [FeatureProperty("name", false)]
  {
    var caps := new LayerCapabilitiesWFS("roads", "Roads");
    caps.SetFeatureProperties(Some([FeatureProperty("id", false), FeatureProperty("the_geom", true)]));
    caps.SetFeatureProperties(Some([FeatureProperty("name", false)]));
    caps.SetMaxFeatures(100);
    caps.SetMaxFeatures(-1);
    geometry := caps.GeometryField();
    maxScale := caps.MaxScale();
    properties := caps.FeatureProperties();
  }
}
