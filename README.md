# Oskari server: WFS layer plumbing, modelled in Dafny

This project models five pieces of the Oskari map server that deal with WFS
layers and their user-content variants, and proves properties of the model.

- **GetWFSLayerConfigurationHandler** (`WfsLayerConfig.dfy`). From an `id`
  request parameter it resolves the base WFS layer. An id with the
  `analysis_`, `myplaces_` or `userlayer_` prefix is redirected to the
  configured base layer id. The handler then loads that layer's cached
  configuration. For a published user layer it rewrites the layer id and
  sets the published flag and uuid. The trailing-number extraction uses
  Java's `String.split` semantics, modelled in `JavaText.dfy` along with
  `parseInt`/`parseLong` and the `(int)` narrowing cast.
- **LayerCapabilitiesWFS** (`LayerCapabilitiesWfs.dfy`). A class over a
  mutable type-specific map. Its setters and getters work on fixed keys.
  `setFeatureProperties` also records the first geometry property.
- **GeoserverPopulator** (`GeoserverPopulator.dfy`, `OskariLayer.dfy`,
  `Json.dfy`). Geoserver property lookup with a module-specific key and a
  global fallback. Setup of the three internal WFS layers (my places,
  analysis, user layers) against a layer store keyed by name: an update
  when the layer exists, otherwise an insert.
- **GetBackendStatusHandler** (`BackendStatus.dfy`). Choosing between
  "all known" and "with alert" statuses. The streaming JSON serializer is a
  method that drives a token-recording generator. A decoder for the token
  stream proves that the written document round-trips.
- **GetRecords filter helpers** (`CswFilters.dfy`). The equals, like and
  coverage filter constructors of the GetRecords tests, plus the
  "no filter" rejection of `createRequest`. Filters are modelled as an
  algebraic datatype.

`Wrappers.dfy` holds the `Option` and `Result` types. Java `null` is
`None`. A thrown exception is an `Err` value, or a reported flag where the
code dereferences `null`.

Dereferences of `null` in the handler: for an `analysis_` id with no stored
configuration for the base layer, `getLayerInfoForRedis` dereferences the
null configuration before `handleAction` can check it. This is also true for
a published user layer. The model reports these cases as `NullDereferenced`, not
as the "Couldn't find matching layer" error (GetWFSLayerConfigurationHandler.java
lines 65-67 and 89, 102).

About the filters:
- `filterFactory.and` builds a binary node. It has no identity rule for a
  missing operand.
- `createEqualsFilter` returns `null` for a null or empty criterion. It does
  not check the attribute name, so an empty one is accepted.
- Apart from rejecting a null filter, request building belongs to
  `GetRecords.createRequest`, which is not part of this model.

## Model

| member | source | states |
|---|---|---|
| JavaText.SplitCharacterisation | control-base/src/main/java/fi/nls/oskari/control/layer/GetWFSLayerConfigurationHandler.java:133 | joining the raw tokens with the separator gives the input back, and the raw tokens are the split tokens followed by empty ones only |
| JavaText.StartsWith | control-base/src/main/java/fi/nls/oskari/control/layer/GetWFSLayerConfigurationHandler.java:86 | `String.startsWith`: true exactly when the string is the prefix followed by some rest |
| JavaText.Split | control-base/src/main/java/fi/nls/oskari/control/layer/GetWFSLayerConfigurationHandler.java:133 | `String.split`: without the separator the whole string is the one token; no token holds the separator; trailing empty tokens and only those are dropped |
| JavaText.ParseInteger | control-base/src/main/java/fi/nls/oskari/control/layer/GetWFSLayerConfigurationHandler.java:139 | a parsed value always lies in the target type's range; which texts are rejected is stated by the two `ParseRejects` lemmas |
| JavaText.ParseDecimal | control-base/src/main/java/fi/nls/oskari/control/layer/GetWFSLayerConfigurationHandler.java:139 | the decimal spelling of a non-negative number parses back to it when in range, and is rejected when out of range |
| JavaText.ParseNegativeDecimal | control-base/src/main/java/fi/nls/oskari/control/layer/GetWFSLayerConfigurationHandler.java:139 | a minus sign followed by the digits of n parses to -n when in range, and is rejected otherwise |
| JavaText.ParseRejectsNoDigits | control-base/src/main/java/fi/nls/oskari/control/layer/GetWFSLayerConfigurationHandler.java:139 | empty text and a lone sign are no number |
| JavaText.ParseRejectsNonDigit | control-base/src/main/java/fi/nls/oskari/control/layer/GetWFSLayerConfigurationHandler.java:139 | a character other than a digit, except a leading sign, makes the text no number |
| JavaText.GetLong | control-base/src/main/java/fi/nls/oskari/control/layer/GetWFSLayerConfigurationHandler.java:139 | `ConversionHelper.getLong` gives the parsed long when the text parses, and the default for null or a non-number |
| JavaText.GetInt | control-base/src/main/java/fi/nls/oskari/control/layer/GetWFSLayerConfigurationHandler.java:59 | `ConversionHelper.getInt` gives the parsed int when the text parses, and the default for null or a non-number |
| JavaText.ToInt | control-base/src/main/java/fi/nls/oskari/control/layer/GetWFSLayerConfigurationHandler.java:94 | the `(int)` cast yields an int congruent to its argument modulo 2^32 |
| JavaText.ToIntKeepsInts | control-base/src/main/java/fi/nls/oskari/control/layer/GetWFSLayerConfigurationHandler.java:94 | the cast leaves values already in int range unchanged |
| WfsLayerConfig.KindOf | control-base/src/main/java/fi/nls/oskari/control/layer/GetWFSLayerConfigurationHandler.java:86-98 | the user-content kind is one whose prefix the id starts with, and there is none exactly when no prefix matches |
| WfsLayerConfig.RequestedUserLayer | control-base/src/main/java/fi/nls/oskari/control/layer/GetWFSLayerConfigurationHandler.java:86-98 | the analysis, my-places or user-layer lookup of the extracted id, for the first prefix the id starts with, and none for an id with no prefix |
| WfsLayerConfig.PrefixesExclusive | control-base/src/main/java/fi/nls/oskari/control/layer/GetWFSLayerConfigurationHandler.java:115-122 | an id with a given prefix is dispatched to that kind, so the else-if order never matters |
| WfsLayerConfig.GetBaseLayerId | control-base/src/main/java/fi/nls/oskari/control/layer/GetWFSLayerConfigurationHandler.java:114-125 | each prefix maps to its base-layer property (null when unset); any other id is returned unchanged |
| WfsLayerConfig.ExtractId | control-base/src/main/java/fi/nls/oskari/control/layer/GetWFSLayerConfigurationHandler.java:127-140 | null gives -1, fewer than two `_` tokens give -1, otherwise the result is `getLong(last token, -1)`, so any other result is the parse of that token |
| WfsLayerConfig.ExtractLastToken | control-base/src/main/java/fi/nls/oskari/control/layer/GetWFSLayerConfigurationHandler.java:133-139 | whatever precedes it, a non-empty last token without `_` is the one parsed |
| WfsLayerConfig.ExtractTrailingNumber | control-base/src/main/java/fi/nls/oskari/control/layer/GetWFSLayerConfigurationHandler.java:131-139 | `<anything>_<n>` yields n for every non-negative long n |
| WfsLayerConfig.ExtractTrailingNegative | control-base/src/main/java/fi/nls/oskari/control/layer/GetWFSLayerConfigurationHandler.java:131-139 | `<anything>_-<n>` yields -n for every n whose negation is a long, so `x_-1` cannot be told from a failure |
| WfsLayerConfig.ExtractNonNumber | control-base/src/main/java/fi/nls/oskari/control/layer/GetWFSLayerConfigurationHandler.java:138-139 | a last token that is no number yields -1 |
| WfsLayerConfig.ExtractBareSeparator | control-base/src/main/java/fi/nls/oskari/control/layer/GetWFSLayerConfigurationHandler.java:133-137 | a word followed by a lone `_` splits into one token and yields -1 |
| WfsLayerConfig.MyPlacesBareSeparator | control-base/src/main/java/fi/nls/oskari/control/layer/GetWFSLayerConfigurationHandler.java:133-137 | the bare prefix `myplaces_` yields -1 |
| WfsLayerConfig.RequestedBaseId | control-base/src/main/java/fi/nls/oskari/control/layer/GetWFSLayerConfigurationHandler.java:58-62 | the check passes exactly when `getInt` of the resolved base id is not -1, with that int as the id; otherwise it fails with the missing-`id` error |
| WfsLayerConfig.MissingIdRejected | control-base/src/main/java/fi/nls/oskari/control/layer/GetWFSLayerConfigurationHandler.java:58-62 | an absent `id` falls back to `n/a` and is rejected |
| WfsLayerConfig.PlainIdAccepted | control-base/src/main/java/fi/nls/oskari/control/layer/GetWFSLayerConfigurationHandler.java:58-60 | a plain positive int id is the base layer id itself |
| WfsLayerConfig.NonNumericIdRejected | control-base/src/main/java/fi/nls/oskari/control/layer/GetWFSLayerConfigurationHandler.java:58-62 | a plain id that is no int is rejected |
| WfsLayerConfig.MinusOneRejected | control-base/src/main/java/fi/nls/oskari/control/layer/GetWFSLayerConfigurationHandler.java:59-61 | the id `-1` is taken for the sentinel and rejected |
| WfsLayerConfig.UserContentIdUsesBaseLayer | control-base/src/main/java/fi/nls/oskari/control/layer/GetWFSLayerConfigurationHandler.java:58-60 | a prefixed id resolves to the configured base layer id of its kind |
| WfsLayerConfig.UnconfiguredBaseLayerRejected | control-base/src/main/java/fi/nls/oskari/control/layer/GetWFSLayerConfigurationHandler.java:58-62 | a prefixed id whose base-layer property is unset is rejected |
| WfsLayerConfig.FindUserLayer | control-base/src/main/java/fi/nls/oskari/control/layer/GetWFSLayerConfigurationHandler.java:87-98 | the analysis and user-layer services are looked up by the long id, the my-places service by its `(int)` cast; found exactly when the service holds that id |
| WfsLayerConfig.MyPlacesIdWraps | control-base/src/main/java/fi/nls/oskari/control/layer/GetWFSLayerConfigurationHandler.java:94 | my-places lookups see the id only modulo 2^32 |
| WfsLayerConfig.PublishedUserLayer | control-base/src/main/java/fi/nls/oskari/control/layer/GetWFSLayerConfigurationHandler.java:100 | the user layer counts only when it was found and is published |
| WfsLayerConfig.LayerInfoForRedis | control-base/src/main/java/fi/nls/oskari/control/layer/GetWFSLayerConfigurationHandler.java:76-106 | a published user layer sets layer id, published and uuid; otherwise those stay; only analysis ids replace the selected feature params, by the native columns |
| WfsLayerConfig.PlainIdKeepsFlags | control-base/src/main/java/fi/nls/oskari/control/layer/GetWFSLayerConfigurationHandler.java:85-104 | a non-prefixed id leaves the configuration untouched |
| WfsLayerConfig.WFSLayerConfiguration.constructor | control-base/src/main/java/fi/nls/oskari/control/layer/GetWFSLayerConfigurationHandler.java:78 | the loaded configuration holds the stored state |
| WfsLayerConfig.WFSLayerConfiguration.SetupPublishedFlags | control-base/src/main/java/fi/nls/oskari/control/layer/GetWFSLayerConfigurationHandler.java:147-150 | published becomes true, the uuid is replaced, nothing else changes |
| WfsLayerConfig.GetLayerInfoForRedis | control-base/src/main/java/fi/nls/oskari/control/layer/GetWFSLayerConfigurationHandler.java:76-106 | null is dereferenced exactly for a missing configuration with an analysis id or a published user layer; otherwise the new state is `LayerInfoForRedis` of the old |
| WfsLayerConfig.HandleAction | control-base/src/main/java/fi/nls/oskari/control/layer/GetWFSLayerConfigurationHandler.java:55-67 | a failed id check is the missing-parameter error; a missing configuration is the no-match error (or the null dereference); otherwise a fresh configuration in the adjusted state |
| LayerCapabilitiesWfs.FirstGeometryName | service-capabilities/src/main/java/org/oskari/capabilities/ogc/LayerCapabilitiesWFS.java:39-43 | the stream's `findFirst`: none exactly when no property is a geometry, else the name of the first geometry property |
| LayerCapabilitiesWfs.LayerCapabilitiesWFS.constructor | service-capabilities/src/main/java/org/oskari/capabilities/ogc/LayerCapabilitiesWFS.java:21-24 | name and title set, type is WFS, nothing type-specific, so every getter gives its default |
| LayerCapabilitiesWfs.LayerCapabilitiesWFS.AddCapabilityData | service-capabilities/src/main/java/org/oskari/capabilities/ogc/LayerCapabilitiesWFS.java:28 | the key is bound to the value and the rest of the map is kept |
| LayerCapabilitiesWfs.LayerCapabilitiesWFS.SupportedCrsURIs | service-capabilities/src/main/java/org/oskari/capabilities/ogc/LayerCapabilitiesWFS.java:32-34 | the stored CRS set, the empty set when none is stored |
| LayerCapabilitiesWfs.LayerCapabilitiesWFS.FeatureProperties | service-capabilities/src/main/java/org/oskari/capabilities/ogc/LayerCapabilitiesWFS.java:48-50 | the stored property list, the empty list when none is stored |
| LayerCapabilitiesWfs.LayerCapabilitiesWFS.GeometryField | service-capabilities/src/main/java/org/oskari/capabilities/ogc/LayerCapabilitiesWFS.java:59-61 | the stored geometry name, null exactly when none is stored |
| LayerCapabilitiesWfs.LayerCapabilitiesWFS.NamespaceUri | service-capabilities/src/main/java/org/oskari/capabilities/ogc/LayerCapabilitiesWFS.java:63-65 | the stored namespace URI, null exactly when none is stored |
| LayerCapabilitiesWfs.LayerCapabilitiesWFS.MaxScale | service-capabilities/src/main/java/org/oskari/capabilities/ogc/LayerCapabilitiesWFS.java:80-82 | the stored max-features count, null exactly when none is stored |
| LayerCapabilitiesWfs.LayerCapabilitiesWFS.SetSupportedCrsURIs | service-capabilities/src/main/java/org/oskari/capabilities/ogc/LayerCapabilitiesWFS.java:27-34 | the CRS set is stored and is what the getter returns afterwards |
| LayerCapabilitiesWfs.LayerCapabilitiesWFS.SetGeometryField | service-capabilities/src/main/java/org/oskari/capabilities/ogc/LayerCapabilitiesWFS.java:52-61 | a non-null name is stored and read back; null changes nothing |
| LayerCapabilitiesWfs.LayerCapabilitiesWFS.SetFeatureProperties | service-capabilities/src/main/java/org/oskari/capabilities/ogc/LayerCapabilitiesWFS.java:36-50 | null changes nothing; otherwise the list is stored and the first geometry's name becomes the geometry field, the old one kept when there is none |
| LayerCapabilitiesWfs.LayerCapabilitiesWFS.SetNamespaceUri | service-capabilities/src/main/java/org/oskari/capabilities/ogc/LayerCapabilitiesWFS.java:62-70 | a non-null URI is stored and read back; null changes nothing |
| LayerCapabilitiesWfs.LayerCapabilitiesWFS.SetMaxFeatures | service-capabilities/src/main/java/org/oskari/capabilities/ogc/LayerCapabilitiesWFS.java:71-82 | a negative count is ignored; otherwise it is what `getMaxScale` returns |
| LayerCapabilitiesWfs.StaleFieldsScenario | service-capabilities/src/main/java/org/oskari/capabilities/ogc/LayerCapabilitiesWFS.java:36-82 | properties without a geometry keep an earlier geometry field, and a negative max-features keeps the earlier value |
| OskariLayer.Layer.Empty | content-resources/src/main/java/fi/nls/oskari/geoserver/GeoserverPopulator.java:120 | a new layer has every field unset and no data providers |
| OskariLayer.Layer.Load | content-resources/src/main/java/fi/nls/oskari/geoserver/GeoserverPopulator.java:117 | a loaded layer holds the stored row |
| OskariLayer.Layer.AddDataprovider | content-resources/src/main/java/fi/nls/oskari/geoserver/GeoserverPopulator.java:130 | the provider is appended and nothing else changes |
| Json.Put | content-resources/src/main/java/fi/nls/oskari/geoserver/GeoserverPopulator.java:145 | `putValue` binds the key and keeps every other member |
| Json.OptArray | service-csw/src/test/java/org/oskari/csw/request/GetRecordsTest.java:116 | `optJSONArray` is non-null exactly when the member exists and is an array |
| Json.OptObject | service-csw/src/test/java/org/oskari/csw/request/GetRecordsTest.java:120 | `optJSONObject` is non-null exactly when the member exists and is an object |
| Json.OptObjectAt | service-csw/src/test/java/org/oskari/csw/request/GetRecordsTest.java:120 | `optJSONObject(i)` is non-null exactly when the index is in range and holds an object |
| GeoserverPopulator.GetGeoserverProp | content-resources/src/main/java/fi/nls/oskari/geoserver/GeoserverPopulator.java:74-85 | the module key wins, then the global key, and with neither the error names both keys |
| GeoserverPopulator.PreferredKeyIsNotFallback | content-resources/src/main/java/fi/nls/oskari/geoserver/GeoserverPopulator.java:75-76 | the module key is never the global key |
| GeoserverPopulator.PreferredKeyInjective | content-resources/src/main/java/fi/nls/oskari/geoserver/GeoserverPopulator.java:75 | different modules read different keys |
| GeoserverPopulator.GlobalValueIsFallback | content-resources/src/main/java/fi/nls/oskari/geoserver/GeoserverPopulator.java:78-79 | without a module key the global value is used |
| GeoserverPopulator.OtherModuleIgnored | content-resources/src/main/java/fi/nls/oskari/geoserver/GeoserverPopulator.java:75-79 | another module's key never affects the lookup |
| GeoserverPopulator.ReadGeoserverConf | content-resources/src/main/java/fi/nls/oskari/geoserver/GeoserverPopulator.java:110-112 | url, user and password are read in that order; all three present gives them, otherwise the error of the first missing one |
| GeoserverPopulator.OwsUrl | content-resources/src/main/java/fi/nls/oskari/geoserver/GeoserverPopulator.java:110 | the layer URL is the geoserver URL followed by `/oskari/ows` |
| GeoserverPopulator.SetupGeoserverConf | content-resources/src/main/java/fi/nls/oskari/geoserver/GeoserverPopulator.java:109-113 | with all three set the layer gets all three; a missing url changes nothing, a missing user leaves the url set, a missing password leaves url and user set |
| GeoserverPopulator.LayerName | content-resources/src/main/java/fi/nls/oskari/geoserver/GeoserverPopulator.java:116 | every internal layer name is in the `oskari` namespace |
| GeoserverPopulator.CreateUserContentAttributes | content-resources/src/main/java/fi/nls/oskari/geoserver/GeoserverPopulator.java:143-148 | exactly `maxFeatures` 2000 and `namespaceURL` `http://www.oskari.org` |
| GeoserverPopulator.AddMyplacesAttributes | content-resources/src/main/java/fi/nls/oskari/geoserver/GeoserverPopulator.java:150-177 | keeps every other attribute and adds `data`, whose `filter` lists the fields name, place_desc, link and image_url under `default` and `fi`, and whose `locale` labels each field in English and Finnish |
| GeoserverPopulator.UserContentAttributesShared | content-resources/src/main/java/fi/nls/oskari/geoserver/GeoserverPopulator.java:127 | the attributes of a new layer are exactly maxFeatures 2000 and the oskari namespace URL, plus, for my places only, `data` with the my-places field configuration |
| GeoserverPopulator.DefaultLocaleNames | content-resources/src/main/java/fi/nls/oskari/geoserver/GeoserverPopulator.java:125 | a new layer is named in Finnish, Swedish and English only: Omat paikat / My places / My places, Analyysitaso / Analys / Analyse, Omat aineistot / User layers / User layers |
| GeoserverPopulator.NewInternalLayer | content-resources/src/main/java/fi/nls/oskari/geoserver/GeoserverPopulator.java:120-127 | a new layer has no id, no providers and no GeoServer settings or srs yet; it is an internal WFS 1.1.0 layer with the kind's name, locale, opacity and attributes |
| GeoserverPopulator.SetupLayer | content-resources/src/main/java/fi/nls/oskari/geoserver/GeoserverPopulator.java:119-132 | a new layer gets the defaults; an existing one keeps them; either way it gets the provider, the geoserver URL, credentials and SRS |
| GeoserverPopulator.LayerStore.GetLayerWithName | content-resources/src/main/java/fi/nls/oskari/geoserver/GeoserverPopulator.java:117 | a copy of the named row, or null |
| GeoserverPopulator.LayerStore.Update | content-resources/src/main/java/fi/nls/oskari/geoserver/GeoserverPopulator.java:134 | the row of that name is replaced |
| GeoserverPopulator.LayerStore.Insert | content-resources/src/main/java/fi/nls/oskari/geoserver/GeoserverPopulator.java:138 | the layer gets the next id and is stored under its name |
| GeoserverPopulator.SetupOutcome | content-resources/src/main/java/fi/nls/oskari/geoserver/GeoserverPopulator.java:115-141 | missing configuration leaves the store as it was; otherwise only the named row changes, inserted with a new id or updated keeping its id |
| GeoserverPopulator.SetupUpdateKeepsLayer | content-resources/src/main/java/fi/nls/oskari/geoserver/GeoserverPopulator.java:133-135 | updating a stored layer keeps its id, name, type, version, internal flag, locale, opacity and attributes, appends the provider, sets the GeoServer URL, credentials and srs, allocates no id and returns the stored id |
| GeoserverPopulator.SetupInsertCreatesLayer | content-resources/src/main/java/fi/nls/oskari/geoserver/GeoserverPopulator.java:137-140 | inserting a missing layer stores it under the next id, which is returned and then advanced: an internal WFS 1.1.0 layer with the kind's name, locale, opacity and attributes, the provider as its only provider, and the GeoServer URL, credentials and srs |
| GeoserverPopulator.SetupStoresConfiguredLayer | content-resources/src/main/java/fi/nls/oskari/geoserver/GeoserverPopulator.java:123-132 | the stored row carries its name, the geoserver URL and credentials, the SRS, and the provider as its last data provider |
| GeoserverPopulator.SetupTwiceUpdates | content-resources/src/main/java/fi/nls/oskari/geoserver/GeoserverPopulator.java:117-136 | a second setup updates instead of inserting, keeps the id and allocates no new one |
| GeoserverPopulator.LoadOrCreate | content-resources/src/main/java/fi/nls/oskari/geoserver/GeoserverPopulator.java:117-128 | insert exactly when no row has the name, starting from the default new layer |
| GeoserverPopulator.CreateInternalLayer | content-resources/src/main/java/fi/nls/oskari/geoserver/GeoserverPopulator.java:120-127 | the layer built setter by setter is a fresh object in the `NewInternalLayer` state |
| GeoserverPopulator.ConfigureLayer | content-resources/src/main/java/fi/nls/oskari/geoserver/GeoserverPopulator.java:117-132 | a missing GeoServer setting is reported as the first missing one; otherwise the layer is `SetupLayer` of the stored row (or of none) |
| GeoserverPopulator.SetupInternalLayer | content-resources/src/main/java/fi/nls/oskari/geoserver/GeoserverPopulator.java:115-141 | the store after the call and the returned id are `SetupOutcome` of the store before |
| GeoserverPopulator.UpdateConfigured | content-resources/src/main/java/fi/nls/oskari/geoserver/GeoserverPopulator.java:133-135 | writing back the configured stored layer leaves the store and result as `SetupOutcome` describes |
| GeoserverPopulator.InsertConfigured | content-resources/src/main/java/fi/nls/oskari/geoserver/GeoserverPopulator.java:137-140 | inserting the configured new layer leaves the store and result as `SetupOutcome` describes |
| GeoserverPopulator.SetupMyplacesLayer | content-resources/src/main/java/fi/nls/oskari/geoserver/GeoserverPopulator.java:115-141 | the same, for the my-places layer under the `myplaces` module |
| GeoserverPopulator.SetupAnalysisLayer | content-resources/src/main/java/fi/nls/oskari/geoserver/GeoserverPopulator.java:179-205 | the same, for the analysis layer under the `analysis` module |
| GeoserverPopulator.SetupUserLayer | content-resources/src/main/java/fi/nls/oskari/geoserver/GeoserverPopulator.java:207-233 | the same, for the user-layer layer under the `userlayer` module |
| GeoserverPopulator.InternalLayerNames | content-resources/src/main/java/fi/nls/oskari/geoserver/GeoserverPopulator.java:116-218 | the three names and default opacities, and the names are distinct |
| BackendStatus.IsRequestOnlyForLayersWithAlerts | control-base/src/main/java/fi/nls/oskari/control/layer/GetBackendStatusHandler.java:64-67 | only alerts unless `Subset` is exactly `AllKnown` |
| BackendStatus.SubsetIsCaseSensitive | control-base/src/main/java/fi/nls/oskari/control/layer/GetBackendStatusHandler.java:66 | a missing or differently cased subset means alerts only |
| BackendStatus.RecordTokens | control-base/src/main/java/fi/nls/oskari/control/layer/GetBackendStatusHandler.java:87-98 | each status object is exactly seven tokens |
| BackendStatus.StringScalar | control-base/src/main/java/fi/nls/oskari/control/layer/GetBackendStatusHandler.java:89-91 | a null string is written as JSON null, and any other string as itself |
| BackendStatus.TimestampScalar | control-base/src/main/java/fi/nls/oskari/control/layer/GetBackendStatusHandler.java:92-97 | a null timestamp is written as JSON null, and any other as its epoch milliseconds |
| BackendStatus.ResponseDocument | control-base/src/main/java/fi/nls/oskari/control/layer/GetBackendStatusHandler.java:69-78 | the response is an object opened with the one field name `backendstatus` and closed after the array |
| BackendStatus.StatusArrayLayout | control-base/src/main/java/fi/nls/oskari/control/layer/GetBackendStatusHandler.java:85-100 | the k-th object sits at a fixed offset with its five fields in order |
| BackendStatus.StatusArrayRoundTrip | control-base/src/main/java/fi/nls/oskari/control/layer/GetBackendStatusHandler.java:83-101 | decoding the written array gives back the status list |
| BackendStatus.JsonGenerator.constructor | control-base/src/main/java/fi/nls/oskari/control/layer/GetBackendStatusHandler.java:83 | a generator starts with nothing written |
| BackendStatus.JsonGenerator.Write | control-base/src/main/java/fi/nls/oskari/control/layer/GetBackendStatusHandler.java:85 | appends one token |
| BackendStatus.JsonGenerator.WriteNumberField | control-base/src/main/java/fi/nls/oskari/control/layer/GetBackendStatusHandler.java:88 | appends one number field |
| BackendStatus.JsonGenerator.WriteStringField | control-base/src/main/java/fi/nls/oskari/control/layer/GetBackendStatusHandler.java:89-91 | appends one string field, null for a null string |
| BackendStatus.JsonGenerator.WriteNullField | control-base/src/main/java/fi/nls/oskari/control/layer/GetBackendStatusHandler.java:94 | appends one null field |
| BackendStatus.WriteStatusObject | control-base/src/main/java/fi/nls/oskari/control/layer/GetBackendStatusHandler.java:87-98 | one status is written as its seven tokens |
| BackendStatus.Serialize | control-base/src/main/java/fi/nls/oskari/control/layer/GetBackendStatusHandler.java:83-101 | the generator receives exactly the status array |
| BackendStatus.ResponseHoldsArray | control-base/src/main/java/fi/nls/oskari/control/layer/GetBackendStatusHandler.java:60-61 | the response document is an object whose one field holds the array |
| BackendStatus.SelectStatuses | control-base/src/main/java/fi/nls/oskari/control/layer/GetBackendStatusHandler.java:47-48 | the alert subset or the full list of the service's table |
| BackendStatus.GetBackendStatusHandler.constructor | control-base/src/main/java/fi/nls/oskari/control/layer/GetBackendStatusHandler.java:41-44 | null collaborators are replaced by the defaults |
| BackendStatus.GetBackendStatusHandler.HandleAction | control-base/src/main/java/fi/nls/oskari/control/layer/GetBackendStatusHandler.java:46-58 | status 200, the body is the response document of the selected list, and that list can be decoded from it |
| CswFilters.CreateLikeFilter | service-csw/src/test/java/org/oskari/csw/request/GetRecordsTest.java:90-101 | none exactly for a null or empty criterion; otherwise a case-insensitive like on the property with the wildcard settings |
| CswFilters.CreateEqualsFilter | service-csw/src/test/java/org/oskari/csw/request/GetRecordsTest.java:103-110 | none exactly for a null or empty criterion; otherwise property equals literal |
| CswFilters.AndFilter | service-csw/src/test/java/org/oskari/csw/request/GetRecordsTest.java:68 | the conjunction of two filters lists the first's comparisons, then the second's |
| CswFilters.CreateGeometryFilter | service-csw/src/test/java/org/oskari/csw/request/GetRecordsTest.java:112-133 | an unparsable input, and a single feature that is not an object, is the coverage error, the only error there is; no filter exactly when a document lacks a features array or has other than one feature; a filter is intersects of `ows:BoundingBox` with the reprojected geometry |
| CswFilters.GeometryFailureIsError | service-csw/src/test/java/org/oskari/csw/request/GetRecordsTest.java:120-132 | with one feature, a geometry that cannot be read or whose reprojection fails makes the coverage error |
| CswFilters.SingleFeatureCoverage | service-csw/src/test/java/org/oskari/csw/request/GetRecordsTest.java:112-129 | one readable feature gives the intersects filter with its reprojected geometry |
| CswFilters.CreateRequest | service-csw/src/test/java/org/oskari/csw/request/GetRecordsTest.java:44-48 | fails with the no-filter error exactly for a null filter, otherwise carries the filter as constraint |
| CswFilters.NoFilterRejected | service-csw/src/test/java/org/oskari/csw/request/GetRecordsTest.java:44-48 | a null filter is rejected |
| CswFilters.EmptyCriterionRequestRejected | service-csw/src/test/java/org/oskari/csw/request/GetRecordsTest.java:103-107 | a request from an empty or null criterion is rejected |
| CswFilters.SimpleFilterRequest | service-csw/src/test/java/org/oskari/csw/request/GetRecordsTest.java:50-55 | the simple test's request has `myprop = "my value"` as constraint |
| CswFilters.MultiFilterRequest | service-csw/src/test/java/org/oskari/csw/request/GetRecordsTest.java:62-68 | the multi test's request is the conjunction of two equals filters, since its "like" operand is built with `createEqualsFilter` |

## Left out

- Logging, the Redis save (`lc.save()`) and the `{"result":"success"}` response are not modelled. `HandleAction` stops at the configuration that would be saved.
- The layer configuration service, the analysis, my-places and user-layer services, and `PropertyUtil` are maps passed in as parameters. A missing property reads as `null`.
- `getAnalysisNativeColumns` is a field of the analysis record. For an analysis that was not found the model gives `null`; the real service's behaviour on `null` is not part of this model.
- JavaText.ParseInteger: accepts ASCII digits with an optional sign only. Java also accepts non-ASCII Unicode digits.
- `OskariLayer.TYPE_WFS` is taken to be `"wfslayer"`, and `CapabilitiesConstants.KEY_MAX_FEATURES` to be `"maxFeatures"`. Neither constant's source is part of this model.
- The module names `MyplacesHelper.MODULE_NAME`, `AnalysisHelper.MODULE_NAME` and `UserlayerHelper.MODULE_NAME` are taken to be `myplaces`, `analysis` and `userlayer`, the ids `setupAll` checks.
- The `LayerCapabilitiesOGC` superclass is reduced to name, title, type and the type-specific map. JSON annotations are not modelled. `FeaturePropertyType` is reduced to its name and geometry flag.
- LayerCapabilitiesWfs.LayerCapabilitiesWFS.SetSupportedCrsURIs: a `null` set is not modelled. The exception that `setMaxFeatures` swallows cannot arise in the model.
- `setupAll`, `getGeoserver` (the Feign REST client) and module enablement are not modelled: they are I/O and configuration.
- GeoserverPopulator.LayerStore.Insert: the database assigns ids. The model uses a counter.
- GeoserverPopulator.AddMyplacesAttributes: the field list comes from an unordered `HashSet`. The model keeps the argument order. The locale strings are taken as already-parsed JSON.
- `OskariLayerMapper` and the layer-to-JSON mapping are not modelled.
- GeoserverPopulator.SetupInternalLayer: `LayerHelper.getDataprovider()` is the `provider` parameter. `OskariLayer` is not part of this model; its providers are taken to be an append-only list, so a second setup of an existing layer records the provider twice.
- LayerCapabilitiesWfs.LayerCapabilitiesWFS.SetFeatureProperties: feature property names are non-null strings. In Java, `findFirst` throws when the first geometry property's name is null, after the list has been stored; the model does not capture that case.
- The Jackson `ObjectMapper` appears only as a token stream. Bytes and UTF-8 encoding, `JsonProcessingException` and the response content type are not modelled.
- The GeoTools filter factory is a datatype. The XML encoding of `GetRecords.createRequest` and the expected XML files are not modelled.
- `GeoJSONReader.toGeometry` and the reprojection are function parameters. Floating-point coordinate transformation is not modelled, nor the exception's message and cause.
