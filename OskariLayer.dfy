/** OskariLayer: the map layer record that the GeoServer setup creates or updates. */
module OskariLayer {
  import opened Wrappers
  import opened Json

  // OskariLayer.TYPE_WFS
  const TYPE_WFS := "wfslayer"

  /** The fields of a layer that the internal-layer setup reads or writes. */
  datatype LayerState = LayerState(
    id: Option<int>,
    layerType: Option<string>,
    version: Option<string>,
    name: Option<string>,
    internal: bool,
    locale: Option<Json>,
    opacity: Option<int>,
    attributes: Option<Json>,
    dataProviders: seq<string>,
    url: Option<string>,
    username: Option<string>,
    password: Option<string>,
    srsName: Option<string>)

  /** A layer object, changed in place through its setters. */
  class Layer {
    var id: Option<int>
    var layerType: Option<string>
    var version: Option<string>
    var name: Option<string>
    var internal: bool
    var locale: Option<Json>
    var opacity: Option<int>
    var attributes: Option<Json>
    var dataProviders: seq<string>
    var url: Option<string>
    var username: Option<string>
    var password: Option<string>
    var srsName: Option<string>

    function State(): LayerState
      reads this
    {
      LayerState(id, layerType, version, name, internal, locale, opacity, attributes,
                 dataProviders, url, username, password, srsName)
    }

    /** new OskariLayer(): nothing set yet. */
    constructor Empty()
      ensures State() == LayerState(None, None, None, None, false, None, None, None, [], None, None, None, None)
    {
      id, layerType, version, name, internal := None, None, None, None, false;
      locale, opacity, attributes, dataProviders := None, None, None, [];
      url, username, password, srsName := None, None, None, None;
    }

    /** A layer loaded from the store, as a new object. */
    constructor Load(s: LayerState)
      ensures State() == s
    {
      id, layerType, version, name, internal := s.id, s.layerType, s.version, s.name, s.internal;
      locale, opacity, attributes, dataProviders := s.locale, s.opacity, s.attributes, s.dataProviders;
      url, username, password, srsName := s.url, s.username, s.password, s.srsName;
    }

    /** addDataprovider: the provider is added after the ones the layer already has. */
    method AddDataprovider(provider: string)
      modifies this
      ensures State() == old(State()).(dataProviders := old(dataProviders) + [provider])
    {
      dataProviders := dataProviders + [provider];
    }
  }
}
