/**
 * GeoserverPopulator: the GeoServer connection properties of a module
 * (module-specific keys first, then the global ones) and the setup of the
 * three internal WFS layers that serve user content from GeoServer: my
 * places, analysis and imported user layers. Each setup looks the layer up
 * by name and either creates it with defaults or updates the existing one.
 */
module GeoserverPopulator {
  import opened Wrappers
  import opened Json
  import opened OskariLayer

  const NAMESPACE := "oskari"
  const KEY_URL := "url"
  const KEY_USER := "user"
  const KEY_PASSWD := "password"

  /** The service configuration read through PropertyUtil. */
  type Properties = map<string, string>

  /** The OskariRuntimeException thrown for an unconfigured property, with the two keys it tried. */
  datatype ConfigError = NotConfigured(preferred: string, fallback: string)

  function PreferredKey(moduleId: string, part: string): string {
    "geoserver." + moduleId + "." + part
  }

  function FallbackKey(part: string): string {
    "geoserver." + part
  }

  /**
   * getGeoserverProp: the module-specific value if configured, else the
   * global one; an error naming both keys when neither is configured, so a
   * successful result is never null.
   */
  function GetGeoserverProp(props: Properties, moduleId: string, part: string): (r: Result<string, ConfigError>)
    ensures r.Ok? <==> PreferredKey(moduleId, part) in props || FallbackKey(part) in props
    ensures PreferredKey(moduleId, part) in props ==> r == Ok(props[PreferredKey(moduleId, part)])
    ensures PreferredKey(moduleId, part) !in props && FallbackKey(part) in props ==> r == Ok(props[FallbackKey(part)])
    ensures r.Err? ==> r.error == NotConfigured(PreferredKey(moduleId, part), FallbackKey(part))
  {
    var preferProp := PreferredKey(moduleId, part);
    var fallbackProp := FallbackKey(part);
    if preferProp in props then Ok(props[preferProp])
    else if fallbackProp in props then Ok(props[fallbackProp])
    else Err(NotConfigured(preferProp, fallbackProp))
  }

  /** A module key is never the global key of the same part: it is longer. */
  lemma PreferredKeyIsNotFallback(moduleId: string, part: string)
    ensures PreferredKey(moduleId, part) != FallbackKey(part)
  {
    assert |PreferredKey(moduleId, part)| > |FallbackKey(part)|;
  }

  /** Different modules read different module keys for the same part. */
  lemma PreferredKeyInjective(m1: string, m2: string, part: string)
    requires PreferredKey(m1, part) == PreferredKey(m2, part)
    ensures m1 == m2
  {
    var k := PreferredKey(m1, part);
    assert |m1| == |m2|;
    assert m1 == k[10..10 + |m1|];
    assert m2 == PreferredKey(m2, part)[10..10 + |m2|];
  }

  /** The global value is used exactly when the module has no value of its own. */
  lemma GlobalValueIsFallback(props: Properties, moduleId: string, part: string, v: string)
    requires PreferredKey(moduleId, part) !in props
    ensures GetGeoserverProp(props[FallbackKey(part) := v], moduleId, part) == Ok(v)
  {
    PreferredKeyIsNotFallback(moduleId, part);
  }

  /** Another module's override does not change what this module reads. */
  lemma OtherModuleIgnored(props: Properties, moduleId: string, other: string, part: string, v: string)
    requires other != moduleId
    ensures GetGeoserverProp(props[PreferredKey(other, part) := v], moduleId, part) == GetGeoserverProp(props, moduleId, part)
  {
    if PreferredKey(other, part) == PreferredKey(moduleId, part) {
      PreferredKeyInjective(other, moduleId, part);
    }
    if PreferredKey(other, part) == FallbackKey(part) {
      PreferredKeyIsNotFallback(other, part);
    }
  }

  /** The three GeoServer settings of a module. */
  datatype GeoserverConf = GeoserverConf(url: string, user: string, password: string)

  /** The three lookups setupGeoserverConf makes, in its order; the first missing one is the error. */
  function ReadGeoserverConf(props: Properties, moduleId: string): (r: Result<GeoserverConf, ConfigError>)
    ensures r.Ok? <==>
      GetGeoserverProp(props, moduleId, KEY_URL).Ok? && GetGeoserverProp(props, moduleId, KEY_USER).Ok? &&
      GetGeoserverProp(props, moduleId, KEY_PASSWD).Ok?
    ensures r.Ok? ==> r.value == GeoserverConf(
      GetGeoserverProp(props, moduleId, KEY_URL).value,
      GetGeoserverProp(props, moduleId, KEY_USER).value,
      GetGeoserverProp(props, moduleId, KEY_PASSWD).value)
    ensures GetGeoserverProp(props, moduleId, KEY_URL).Err? ==> r == Err(GetGeoserverProp(props, moduleId, KEY_URL).error)
    ensures GetGeoserverProp(props, moduleId, KEY_URL).Ok? && GetGeoserverProp(props, moduleId, KEY_USER).Err? ==>
      r == Err(GetGeoserverProp(props, moduleId, KEY_USER).error)
    ensures (GetGeoserverProp(props, moduleId, KEY_URL).Ok? && GetGeoserverProp(props, moduleId, KEY_USER).Ok? &&
             GetGeoserverProp(props, moduleId, KEY_PASSWD).Err?) ==>
      r == Err(GetGeoserverProp(props, moduleId, KEY_PASSWD).error)
  {
    match GetGeoserverProp(props, moduleId, KEY_URL)
    case Err(e) => Err(e)
    case Ok(url) =>
      match GetGeoserverProp(props, moduleId, KEY_USER)
      case Err(e) => Err(e)
      case Ok(user) =>
        match GetGeoserverProp(props, moduleId, KEY_PASSWD)
        case Err(e) => Err(e)
        case Ok(password) => Ok(GeoserverConf(url, user, password))
  }

  /** The layer url points at the OWS endpoint of the oskari workspace. */
  function OwsUrl(baseUrl: string): (r: string)
    ensures |r| == |baseUrl| + 11 && r[..|baseUrl|] == baseUrl && r[|baseUrl|..] == "/oskari/ows"
  {
    baseUrl + "/" + NAMESPACE + "/ows"
  }

  /**
   * setupGeoserverConf: url, user name and password from the module's
   * settings. A missing setting throws; what was set before the throw stays
   * set (the url when the user is missing, url and user when the password is).
   */
  method SetupGeoserverConf(layer: Layer, moduleId: string, props: Properties) returns (failure: Option<ConfigError>)
    modifies layer
    ensures ReadGeoserverConf(props, moduleId).Ok? ==>
      var conf := ReadGeoserverConf(props, moduleId).value;
      failure == None &&
      layer.State() == old(layer.State()).(url := Some(OwsUrl(conf.url)), username := Some(conf.user), password := Some(conf.password))
    ensures ReadGeoserverConf(props, moduleId).Err? ==> failure == Some(ReadGeoserverConf(props, moduleId).error)
    ensures GetGeoserverProp(props, moduleId, KEY_URL).Err? ==> layer.State() == old(layer.State())
    ensures GetGeoserverProp(props, moduleId, KEY_URL).Ok? && GetGeoserverProp(props, moduleId, KEY_USER).Err? ==>
      layer.State() == old(layer.State()).(url := Some(OwsUrl(GetGeoserverProp(props, moduleId, KEY_URL).value)))
    ensures (GetGeoserverProp(props, moduleId, KEY_URL).Ok? && GetGeoserverProp(props, moduleId, KEY_USER).Ok? &&
             GetGeoserverProp(props, moduleId, KEY_PASSWD).Err?) ==>
      layer.State() == old(layer.State()).(
        url := Some(OwsUrl(GetGeoserverProp(props, moduleId, KEY_URL).value)),
        username := Some(GetGeoserverProp(props, moduleId, KEY_USER).value))
  {
    var url := GetGeoserverProp(props, moduleId, KEY_URL);
    if url.Err? {
      return Some(url.error);
    }
    layer.url := Some(OwsUrl(url.value));
    var user := GetGeoserverProp(props, moduleId, KEY_USER);
    if user.Err? {
      return Some(user.error);
    }
    layer.username := Some(user.value);
    var password := GetGeoserverProp(props, moduleId, KEY_PASSWD);
    if password.Err? {
      return Some(password.error);
    }
    layer.password := Some(password.value);
    return None;
  }

  // ---------------------------------------------------------------------
  // The internal user-content layers

  datatype LayerKind = MyPlacesLayer | AnalysisLayer | UserContentLayer

  /** The property module whose GeoServer settings the layer uses. */
  function ModuleName(k: LayerKind): string {
    match k
    case MyPlacesLayer => "myplaces"
    case AnalysisLayer => "analysis"
    case UserContentLayer => "userlayer"
  }

  function LayerName(k: LayerKind): (r: string)
    ensures |r| > |NAMESPACE| + 1 && r[..|NAMESPACE| + 1] == NAMESPACE + ":"
  {
    match k
    case MyPlacesLayer => NAMESPACE + ":my_places"
    case AnalysisLayer => NAMESPACE + ":analysis_data"
    case UserContentLayer => NAMESPACE + ":vuser_layer_data"
  }

  function DefaultOpacity(k: LayerKind): int {
    match k
    case MyPlacesLayer => 50
    case AnalysisLayer => 50
    case UserContentLayer => 80
  }

  function LocalizedNames(fi: string, sv: string, en: string): Json {
    JObject(map[
      "fi" := JObject(map["name" := JString(fi)]),
      "sv" := JObject(map["name" := JString(sv)]),
      "en" := JObject(map["name" := JString(en)])])
  }

  /** The locale a newly created layer gets: a name in Finnish, Swedish and English. */
  function DefaultLocale(k: LayerKind): Json
  {
    match k
    case MyPlacesLayer => LocalizedNames("Omat paikat", "My places", "My places")
    case AnalysisLayer => LocalizedNames("Analyysitaso", "Analys", "Analyse")
    case UserContentLayer => LocalizedNames("Omat aineistot", "User layers", "User layers")
  }

  /** Each kind's new layer is named in Finnish, Swedish and English, and in nothing else. */
  lemma DefaultLocaleNames(k: LayerKind)
    ensures DefaultLocale(k).JObject? && DefaultLocale(k).members.Keys == {"fi", "sv", "en"}
    ensures DefaultLocale(k).members["fi"].JObject? && DefaultLocale(k).members["fi"].members.Keys == {"name"}
    ensures DefaultLocale(k).members["sv"].JObject? && DefaultLocale(k).members["sv"].members.Keys == {"name"}
    ensures DefaultLocale(k).members["en"].JObject? && DefaultLocale(k).members["en"].members.Keys == {"name"}
    ensures k == MyPlacesLayer ==>
      DefaultLocale(k).members["fi"].members["name"] == JString("Omat paikat") &&
      DefaultLocale(k).members["sv"].members["name"] == JString("My places") &&
      DefaultLocale(k).members["en"].members["name"] == JString("My places")
    ensures k == AnalysisLayer ==>
      DefaultLocale(k).members["fi"].members["name"] == JString("Analyysitaso") &&
      DefaultLocale(k).members["sv"].members["name"] == JString("Analys") &&
      DefaultLocale(k).members["en"].members["name"] == JString("Analyse")
    ensures k == UserContentLayer ==>
      DefaultLocale(k).members["fi"].members["name"] == JString("Omat aineistot") &&
      DefaultLocale(k).members["sv"].members["name"] == JString("User layers") &&
      DefaultLocale(k).members["en"].members["name"] == JString("User layers")
  {
  }

  /** createUserContentAttributes: a feature limit of 2000 and the oskari namespace URL. */
  function CreateUserContentAttributes(): (r: Json)
    ensures r.JObject? && r.members.Keys == {"maxFeatures", "namespaceURL"}
    ensures r.members["maxFeatures"] == JInt(2000)
    ensures r.members["namespaceURL"] == JString("http://www.oskari.org")
  {
    var attributes := EmptyObject;
    var attributes := Put(attributes, "maxFeatures", JInt(2000));
    Put(attributes, "namespaceURL", JString("http://www.oskari.org"))
  }

  function FieldNames(): Json {
    JArray([JString("name"), JString("place_desc"), JString("link"), JString("image_url")])
  }

  function FieldLocale(name: string, desc: string, link: string, image: string): Json {
    JObject(map[
      "name" := JString(name), "place_desc" := JString(desc),
      "link" := JString(link), "image_url" := JString(image)])
  }

  /**
   * The my-places field configuration: the filterable fields name,
   * place_desc, link and image_url, both by default and in Finnish, and the
   * label of each field in English and in Finnish.
   */
  function MyplacesData(): Json {
    JObject(map[
      "filter" := JObject(map["default" := FieldNames(), "fi" := FieldNames()]),
      "locale" := JObject(map[
        "en" := FieldLocale("name", "description", "link", "image"),
        "fi" := FieldLocale("nimi", "kuvaus", "linkki", "kuva-linkki")])])
  }

  /**
   * addMyplacesAttributes: adds a "data" member holding the my-places field
   * configuration; the members already there are kept.
   */
  function AddMyplacesAttributes(attributes: Json): (r: Json)
    requires attributes.JObject?
    ensures r.JObject? && r.members.Keys == attributes.members.Keys + {"data"}
    ensures forall k :: k in attributes.members && k != "data" ==> r.members[k] == attributes.members[k]
    ensures r.members["data"] == MyplacesData()
  {
    var filter := Put(Put(EmptyObject, "default", FieldNames()), "fi", FieldNames());
    var locale := Put(Put(EmptyObject,
      "en", FieldLocale("name", "description", "link", "image")),
      "fi", FieldLocale("nimi", "kuvaus", "linkki", "kuva-linkki"));
    var data := Put(Put(EmptyObject, "filter", filter), "locale", locale);
    Put(attributes, "data", data)
  }

  /** The attributes a newly created layer gets: the user-content ones, plus the field configuration for my places. */
  function DefaultAttributes(k: LayerKind): Json
  {
    if k == MyPlacesLayer then AddMyplacesAttributes(CreateUserContentAttributes())
    else CreateUserContentAttributes()
  }

  /** All three kinds share the user-content attributes; my places adds its field configuration. */
  lemma UserContentAttributesShared(k: LayerKind)
    ensures DefaultAttributes(k).JObject?
    ensures DefaultAttributes(k).members["maxFeatures"] == JInt(2000)
    ensures DefaultAttributes(k).members["namespaceURL"] == JString("http://www.oskari.org")
    ensures k == MyPlacesLayer ==>
      DefaultAttributes(k).members.Keys == {"maxFeatures", "namespaceURL", "data"} &&
      DefaultAttributes(k).members["data"] == MyplacesData()
    ensures k != MyPlacesLayer ==> DefaultAttributes(k).members.Keys == {"maxFeatures", "namespaceURL"}
  {
  }

  /** The layer setup creates when none with the name exists, before configuration. */
  function NewInternalLayer(k: LayerKind): (r: LayerState)
    ensures r.id.None? && r.dataProviders == []
    ensures r.layerType == Some(TYPE_WFS) && r.version == Some("1.1.0") && r.name == Some(LayerName(k)) && r.internal
    ensures r.locale == Some(DefaultLocale(k)) && r.opacity == Some(DefaultOpacity(k)) && r.attributes == Some(DefaultAttributes(k))
    ensures r.url.None? && r.username.None? && r.password.None? && r.srsName.None?
  {
    LayerState(
      None, Some(TYPE_WFS), Some("1.1.0"), Some(LayerName(k)), true, Some(DefaultLocale(k)), Some(DefaultOpacity(k)),
      Some(DefaultAttributes(k)), [], None, None, None, None)
  }

  /** What setup does to either layer: add the data provider, the GeoServer settings and the srs. */
  function Configured(s: LayerState, provider: string, conf: GeoserverConf, srs: string): LayerState {
    s.(dataProviders := s.dataProviders + [provider],
       url := Some(OwsUrl(conf.url)), username := Some(conf.user), password := Some(conf.password),
       srsName := Some(srs))
  }

  /**
   * The layer a successful setup stores. A new layer is a WFS 1.1.0 layer
   * with the kind's name, internal, with the kind's locale, opacity and
   * attributes. An existing layer keeps its own name, type, locale, opacity
   * and attributes. Either way it gets the data provider, the GeoServer
   * settings and the srs.
   */
  function SetupLayer(existing: Option<LayerState>, k: LayerKind, provider: string, conf: GeoserverConf, srs: string)
    : (r: LayerState)
    ensures existing.None? ==>
      r.layerType == Some(TYPE_WFS) && r.version == Some("1.1.0") && r.name == Some(LayerName(k)) &&
      r.internal && r.opacity == Some(DefaultOpacity(k)) && r.locale == Some(DefaultLocale(k)) &&
      r.attributes == Some(DefaultAttributes(k)) && r.dataProviders == [provider]
    ensures existing.Some? ==>
      var e := existing.value;
      r.id == e.id && r.layerType == e.layerType && r.version == e.version && r.name == e.name &&
      r.internal == e.internal && r.locale == e.locale && r.opacity == e.opacity &&
      r.attributes == e.attributes && r.dataProviders == e.dataProviders + [provider]
    ensures r.url == Some(OwsUrl(conf.url)) && r.username == Some(conf.user) && r.password == Some(conf.password)
    ensures r.srsName == Some(srs)
  {
    match existing
    case Some(e) => Configured(e, provider, conf, srs)
    case None => Configured(NewInternalLayer(k), provider, conf, srs)
  }

  /** Every stored layer has an id and is stored under its own name. */
  predicate StoredByName(rows: map<string, LayerState>) {
    forall n :: n in rows ==> rows[n].id.Some? && rows[n].name == Some(n)
  }

  /** The layer table looked up through LayerHelper: layers by name; an inserted layer gets the next id. */
  class LayerStore {
    var rows: map<string, LayerState>
    var nextId: int

    ghost predicate Valid()
      reads this
    {
      StoredByName(rows)
    }

    /** getLayerWithName: a new object for the stored layer, null when there is none. */
    method GetLayerWithName(name: string) returns (layer: Layer?)
      ensures name in rows ==> layer != null && fresh(layer) && layer.State() == rows[name]
      ensures name !in rows ==> layer == null
    {
      if name in rows {
        layer := new Layer.Load(rows[name]);
      } else {
        layer := null;
      }
    }

    /** update: the stored layer of that name is replaced. */
    method Update(layer: Layer)
      requires Valid() && layer.name.Some? && layer.id.Some?
      modifies this
      ensures Valid()
      ensures rows == old(rows)[layer.name.value := layer.State()] && nextId == old(nextId)
    {
      rows := rows[layer.name.value := layer.State()];
    }

    /** insert: the layer gets the next id and is stored under its name. */
    method Insert(layer: Layer)
      requires Valid() && layer.name.Some?
      modifies this, layer
      ensures Valid()
      ensures layer.State() == old(layer.State()).(id := Some(old(nextId)))
      ensures rows == old(rows)[layer.name.value := layer.State()] && nextId == old(nextId) + 1
    {
      layer.id := Some(nextId);
      rows := rows[layer.name.value := layer.State()];
      nextId := nextId + 1;
    }
  }

  /** The store and the returned id after one setup: rows, next id, result. */
  datatype StoreAfter = StoreAfter(rows: map<string, LayerState>, nextId: int, result: Result<int, ConfigError>)

  /**
   * The effect of setup*Layer on the store: with a GeoServer setting
   * missing nothing is stored; otherwise the kind's layer is updated in
   * place (same id) when it exists and inserted with the next id when it
   * does not, and no other layer changes.
   */
  function SetupOutcome(rows: map<string, LayerState>, nextId: int, k: LayerKind, srs: string, props: Properties, provider: string)
    : (r: StoreAfter)
    requires StoredByName(rows)
    ensures ReadGeoserverConf(props, ModuleName(k)).Err? ==>
      r == StoreAfter(rows, nextId, Err(ReadGeoserverConf(props, ModuleName(k)).error))
    ensures ReadGeoserverConf(props, ModuleName(k)).Ok? ==>
      r.rows.Keys == rows.Keys + {LayerName(k)} &&
      (forall n :: n in rows && n != LayerName(k) ==> r.rows[n] == rows[n]) &&
      (LayerName(k) in rows ==> r.nextId == nextId && r.result == Ok(rows[LayerName(k)].id.value)) &&
      (LayerName(k) !in rows ==> r.nextId == nextId + 1 && r.result == Ok(nextId) && r.rows[LayerName(k)].id == Some(nextId))
  {
    match ReadGeoserverConf(props, ModuleName(k))
    case Err(e) => StoreAfter(rows, nextId, Err(e))
    case Ok(conf) =>
      var name := LayerName(k);
      if name in rows then
        StoreAfter(rows[name := SetupLayer(Some(rows[name]), k, provider, conf, srs)], nextId, Ok(rows[name].id.value))
      else
        var layer := SetupLayer(None, k, provider, conf, srs).(id := Some(nextId));
        StoreAfter(rows[name := layer], nextId + 1, Ok(nextId))
  }

  /** Unfolds SetupOutcome for a successful setup of a stored layer. */
  lemma SetupOutcomeUpdates(rows: map<string, LayerState>, nextId: int, k: LayerKind, srs: string, props: Properties, provider: string)
    requires StoredByName(rows) && ReadGeoserverConf(props, ModuleName(k)).Ok? && LayerName(k) in rows
    ensures SetupOutcome(rows, nextId, k, srs, props, provider) ==
      var conf := ReadGeoserverConf(props, ModuleName(k)).value;
      StoreAfter(rows[LayerName(k) := SetupLayer(Some(rows[LayerName(k)]), k, provider, conf, srs)],
                 nextId, Ok(rows[LayerName(k)].id.value))
  {
  }

  /** Unfolds SetupOutcome for a successful setup of a new layer. */
  lemma SetupOutcomeInserts(rows: map<string, LayerState>, nextId: int, k: LayerKind, srs: string, props: Properties, provider: string)
    requires StoredByName(rows) && ReadGeoserverConf(props, ModuleName(k)).Ok? && LayerName(k) !in rows
    ensures SetupOutcome(rows, nextId, k, srs, props, provider) ==
      var conf := ReadGeoserverConf(props, ModuleName(k)).value;
      StoreAfter(rows[LayerName(k) := SetupLayer(None, k, provider, conf, srs).(id := Some(nextId))],
                 nextId + 1, Ok(nextId))
  {
  }

  /**
   * A successful setup of a stored layer leaves the next id alone, returns
   * the layer's own id, and updates its row: id, name, type, version,
   * internal flag, locale, opacity and attributes are kept, the data
   * provider is appended, and the GeoServer URL, credentials and srs are
   * the configured ones.
   */
  lemma SetupUpdateKeepsLayer(rows: map<string, LayerState>, nextId: int, k: LayerKind, srs: string, props: Properties, provider: string)
    requires StoredByName(rows) && ReadGeoserverConf(props, ModuleName(k)).Ok? && LayerName(k) in rows
    ensures var conf := ReadGeoserverConf(props, ModuleName(k)).value;
      var out := SetupOutcome(rows, nextId, k, srs, props, provider);
      var e := rows[LayerName(k)];
      var row := out.rows[LayerName(k)];
      && out.nextId == nextId && out.result == Ok(e.id.value)
      && row.id == e.id && row.name == e.name && row.layerType == e.layerType && row.version == e.version
      && row.internal == e.internal && row.locale == e.locale && row.opacity == e.opacity
      && row.attributes == e.attributes && row.dataProviders == e.dataProviders + [provider]
      && row.url == Some(OwsUrl(conf.url)) && row.username == Some(conf.user)
      && row.password == Some(conf.password) && row.srsName == Some(srs)
  {
    SetupOutcomeUpdates(rows, nextId, k, srs, props, provider);
  }

  /**
   * A successful setup of a missing layer returns the next id, advances it,
   * and stores a new row under that id: a WFS 1.1.0 internal layer with the
   * kind's name, locale, opacity and attributes, the data provider as its
   * only provider, and the configured GeoServer URL, credentials and srs.
   */
  lemma SetupInsertCreatesLayer(rows: map<string, LayerState>, nextId: int, k: LayerKind, srs: string, props: Properties, provider: string)
    requires StoredByName(rows) && ReadGeoserverConf(props, ModuleName(k)).Ok? && LayerName(k) !in rows
    ensures var conf := ReadGeoserverConf(props, ModuleName(k)).value;
      var out := SetupOutcome(rows, nextId, k, srs, props, provider);
      var row := out.rows[LayerName(k)];
      && out.nextId == nextId + 1 && out.result == Ok(nextId)
      && row.id == Some(nextId) && row.name == Some(LayerName(k)) && row.layerType == Some(TYPE_WFS)
      && row.version == Some("1.1.0") && row.internal && row.locale == Some(DefaultLocale(k))
      && row.opacity == Some(DefaultOpacity(k)) && row.attributes == Some(DefaultAttributes(k))
      && row.dataProviders == [provider]
      && row.url == Some(OwsUrl(conf.url)) && row.username == Some(conf.user)
      && row.password == Some(conf.password) && row.srsName == Some(srs)
  {
    SetupOutcomeInserts(rows, nextId, k, srs, props, provider);
  }

  /**
   * After a successful setup the row under the layer's name carries that
   * name, the GeoServer URL and credentials, the srs, and the data provider
   * as its last provider.
   */
  lemma SetupStoresConfiguredLayer(rows: map<string, LayerState>, nextId: int, k: LayerKind, srs: string, props: Properties, provider: string)
    requires StoredByName(rows)
    requires ReadGeoserverConf(props, ModuleName(k)).Ok?
    ensures var conf := ReadGeoserverConf(props, ModuleName(k)).value;
      var row := SetupOutcome(rows, nextId, k, srs, props, provider).rows[LayerName(k)];
      row.name == Some(LayerName(k)) && row.url == Some(OwsUrl(conf.url)) &&
      row.username == Some(conf.user) && row.password == Some(conf.password) && row.srsName == Some(srs) &&
      |row.dataProviders| > 0 && row.dataProviders[|row.dataProviders| - 1] == provider
  {
  }

  /** Running the same setup twice leaves a single layer of that name: the second run updates it. */
  lemma SetupTwiceUpdates(rows: map<string, LayerState>, nextId: int, k: LayerKind, srs: string, props: Properties, provider: string)
    requires StoredByName(rows)
    requires ReadGeoserverConf(props, ModuleName(k)).Ok?
    ensures var first := SetupOutcome(rows, nextId, k, srs, props, provider);
      StoredByName(first.rows) &&
      var second := SetupOutcome(first.rows, first.nextId, k, srs, props, provider);
      second.nextId == first.nextId && second.result == first.result && second.rows.Keys == first.rows.Keys
  {
    var name := LayerName(k);
    if name in rows {
      SetupOutcomeUpdates(rows, nextId, k, srs, props, provider);
    } else {
      SetupOutcomeInserts(rows, nextId, k, srs, props, provider);
    }
    var first := SetupOutcome(rows, nextId, k, srs, props, provider);
    assert StoredByName(first.rows);
    SetupOutcomeUpdates(first.rows, first.nextId, k, srs, props, provider);
  }

  /** The start of setup*Layer: the stored layer of the kind's name, or a new one with the defaults. */
  method LoadOrCreate(store: LayerStore, k: LayerKind) returns (baseLayer: Layer, doInsert: bool)
    ensures fresh(baseLayer)
    ensures doInsert <==> LayerName(k) !in store.rows
    ensures baseLayer.State() == if doInsert then NewInternalLayer(k) else store.rows[LayerName(k)]
  {
    var name := LayerName(k);
    var found := store.GetLayerWithName(name);
    doInsert := found == null;
    if doInsert {
      baseLayer := CreateInternalLayer(k);
    } else {
      baseLayer := found;
    }
  }

  /** The new OskariLayer a setup makes when none has the name, set field by field. */
  method CreateInternalLayer(k: LayerKind) returns (baseLayer: Layer)
    ensures fresh(baseLayer)
    ensures baseLayer.State() == NewInternalLayer(k)
  {
    baseLayer := new Layer.Empty();
    baseLayer.layerType := Some(TYPE_WFS);
    baseLayer.version := Some("1.1.0");
    baseLayer.name := Some(LayerName(k));
    baseLayer.internal := true;
    baseLayer.locale := Some(DefaultLocale(k));
    baseLayer.opacity := Some(DefaultOpacity(k));
    baseLayer.attributes := Some(DefaultAttributes(k));
  }

  /**
   * The part of setup*Layer before the store is written: load or create the
   * layer, add the data provider, the GeoServer settings and the srs. A
   * missing setting is reported and nothing further is set.
   */
  method ConfigureLayer(store: LayerStore, k: LayerKind, srs: string, props: Properties, provider: string)
    returns (baseLayer: Layer, doInsert: bool, failure: Option<ConfigError>)
    ensures fresh(baseLayer)
    ensures doInsert <==> LayerName(k) !in store.rows
    ensures ReadGeoserverConf(props, ModuleName(k)).Err? ==> failure == Some(ReadGeoserverConf(props, ModuleName(k)).error)
    ensures ReadGeoserverConf(props, ModuleName(k)).Ok? ==>
      failure == None &&
      baseLayer.State() == SetupLayer(if doInsert then None else Some(store.rows[LayerName(k)]), k, provider,
                                      ReadGeoserverConf(props, ModuleName(k)).value, srs)
  {
    baseLayer, doInsert := LoadOrCreate(store, k);
    ghost var loaded := baseLayer.State();
    ghost var conf := ReadGeoserverConf(props, ModuleName(k));
    baseLayer.AddDataprovider(provider);
    failure := SetupGeoserverConf(baseLayer, ModuleName(k), props);
    if failure.Some? {
      return;
    }
    baseLayer.srsName := Some(srs);
    assert baseLayer.State() == Configured(loaded, provider, conf.value, srs);
  }

  /** The insert-or-update the three setup methods share. */
  method SetupInternalLayer(store: LayerStore, k: LayerKind, srs: string, props: Properties, provider: string)
    returns (r: Result<int, ConfigError>)
    requires store.Valid()
    modifies store
    ensures store.Valid()
    ensures StoreAfter(store.rows, store.nextId, r) ==
      SetupOutcome(old(store.rows), old(store.nextId), k, srs, props, provider)
  {
    var baseLayer, doInsert, failure := ConfigureLayer(store, k, srs, props, provider);
    if failure.Some? {
      return Err(failure.value);
    }
    if !doInsert {
      r := UpdateConfigured(store, baseLayer, k, srs, props, provider);
    } else {
      r := InsertConfigured(store, baseLayer, k, srs, props, provider);
    }
  }

  /** The update branch of setup*Layer: the configured stored layer is written back and its id returned. */
  method UpdateConfigured(store: LayerStore, baseLayer: Layer, k: LayerKind, srs: string, props: Properties, provider: string)
    returns (r: Result<int, ConfigError>)
    requires store.Valid() && ReadGeoserverConf(props, ModuleName(k)).Ok? && LayerName(k) in store.rows
    requires baseLayer.State() ==
      SetupLayer(Some(store.rows[LayerName(k)]), k, provider, ReadGeoserverConf(props, ModuleName(k)).value, srs)
    modifies store
    ensures store.Valid()
    ensures StoreAfter(store.rows, store.nextId, r) ==
      SetupOutcome(old(store.rows), old(store.nextId), k, srs, props, provider)
  {
    SetupOutcomeUpdates(store.rows, store.nextId, k, srs, props, provider);
    store.Update(baseLayer);
    return Ok(baseLayer.id.value);
  }

  /** The insert branch of setup*Layer: the configured new layer is stored under the next id, which is returned. */
  method InsertConfigured(store: LayerStore, baseLayer: Layer, k: LayerKind, srs: string, props: Properties, provider: string)
    returns (r: Result<int, ConfigError>)
    requires store.Valid() && ReadGeoserverConf(props, ModuleName(k)).Ok? && LayerName(k) !in store.rows
    requires baseLayer.State() == SetupLayer(None, k, provider, ReadGeoserverConf(props, ModuleName(k)).value, srs)
    modifies store, baseLayer
    ensures store.Valid()
    ensures StoreAfter(store.rows, store.nextId, r) ==
      SetupOutcome(old(store.rows), old(store.nextId), k, srs, props, provider)
  {
    SetupOutcomeInserts(store.rows, store.nextId, k, srs, props, provider);
    store.Insert(baseLayer);
    return Ok(baseLayer.id.value);
  }

  /** setupMyplacesLayer: the layer oskari:my_places, opacity 50 when created. */
  method SetupMyplacesLayer(store: LayerStore, srs: string, props: Properties, provider: string)
    returns (r: Result<int, ConfigError>)
    requires store.Valid()
    modifies store
    ensures store.Valid()
    ensures StoreAfter(store.rows, store.nextId, r) ==
      SetupOutcome(old(store.rows), old(store.nextId), MyPlacesLayer, srs, props, provider)
  {
    r := SetupInternalLayer(store, MyPlacesLayer, srs, props, provider);
  }

  /** setupAnalysisLayer: the layer oskari:analysis_data, opacity 50 when created. */
  method SetupAnalysisLayer(store: LayerStore, srs: string, props: Properties, provider: string)
    returns (r: Result<int, ConfigError>)
    requires store.Valid()
    modifies store
    ensures store.Valid()
    ensures StoreAfter(store.rows, store.nextId, r) ==
      SetupOutcome(old(store.rows), old(store.nextId), AnalysisLayer, srs, props, provider)
  {
    r := SetupInternalLayer(store, AnalysisLayer, srs, props, provider);
  }

  /** setupUserLayer: the layer oskari:vuser_layer_data, opacity 80 when created. */
  method SetupUserLayer(store: LayerStore, srs: string, props: Properties, provider: string)
    returns (r: Result<int, ConfigError>)
    requires store.Valid()
    modifies store
    ensures store.Valid()
    ensures StoreAfter(store.rows, store.nextId, r) ==
      SetupOutcome(old(store.rows), old(store.nextId), UserContentLayer, srs, props, provider)
  {
    r := SetupInternalLayer(store, UserContentLayer, srs, props, provider);
  }

  /** The fixed names and creation opacities of the three layers, all in the oskari workspace. */
  lemma InternalLayerNames()
    ensures LayerName(MyPlacesLayer) == "oskari:my_places" && DefaultOpacity(MyPlacesLayer) == 50
    ensures LayerName(AnalysisLayer) == "oskari:analysis_data" && DefaultOpacity(AnalysisLayer) == 50
    ensures LayerName(UserContentLayer) == "oskari:vuser_layer_data" && DefaultOpacity(UserContentLayer) == 80
    ensures forall k: LayerKind, k2: LayerKind :: k != k2 ==> LayerName(k) != LayerName(k2)
  {
    assert LayerName(MyPlacesLayer)[7] != LayerName(AnalysisLayer)[7];
    assert LayerName(MyPlacesLayer)[7] != LayerName(UserContentLayer)[7];
    assert LayerName(AnalysisLayer)[7] != LayerName(UserContentLayer)[7];
  }
}
