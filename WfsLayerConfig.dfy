/**
 * GetWFSLayerConfigurationHandler: how a requested layer id (a plain number,
 * or "analysis_<n>", "myplaces_<n>", "userlayer_<n>" for user content) is
 * resolved to the WFS base layer whose configuration is cached, and how the
 * cached configuration is switched over to a published user layer.
 */
module WfsLayerConfig {
  import opened Wrappers
  import opened JavaText

  const ID_PARAM := "id"
  // getHttpParam(ID, "n/a"): the value used when the request has no id
  const DEFAULT_ID := "n/a"

  const ANALYSIS_PREFIX := "analysis_"
  const MYPLACES_PREFIX := "myplaces_"
  const USERLAYER_PREFIX := "userlayer_"

  const ANALYSIS_BASELAYER_ID := "analysis.baselayer.id"
  const MYPLACES_BASELAYER_ID := "myplaces.baselayer.id"
  const USERLAYER_BASELAYER_ID := "userlayer.baselayer.id"

  /** The kinds of user content whose layers are served through one shared base layer. */
  datatype UserDataKind = Analysis | MyPlaces | UserLayer

  /** The service configuration read through PropertyUtil.get: a missing key reads as null. */
  type Properties = map<string, string>

  function GetProperty(props: Properties, key: string): Option<string> {
    if key in props then Some(props[key]) else None
  }

  function Prefix(k: UserDataKind): string {
    match k
    case Analysis => ANALYSIS_PREFIX
    case MyPlaces => MYPLACES_PREFIX
    case UserLayer => USERLAYER_PREFIX
  }

  function BaseLayerKey(k: UserDataKind): string {
    match k
    case Analysis => ANALYSIS_BASELAYER_ID
    case MyPlaces => MYPLACES_BASELAYER_ID
    case UserLayer => USERLAYER_BASELAYER_ID
  }

  /**
   * The startsWith chain shared by getBaseLayerId and getLayerInfoForRedis:
   * analysis, then my places, then user layers; first match wins.
   */
  function KindOf(sid: string): (k: Option<UserDataKind>)
    ensures k.Some? ==> StartsWith(sid, Prefix(k.value))
    ensures k.None? <==> forall kind: UserDataKind :: !StartsWith(sid, Prefix(kind))
  {
    if StartsWith(sid, ANALYSIS_PREFIX) then Some(Analysis)
    else if StartsWith(sid, MYPLACES_PREFIX) then Some(MyPlaces)
    else if StartsWith(sid, USERLAYER_PREFIX) then Some(UserLayer)
    else None
  }

  /** The three prefixes begin with different letters, so at most one of them matches. */
  lemma PrefixesExclusive(sid: string, k: UserDataKind)
    requires StartsWith(sid, Prefix(k))
    ensures KindOf(sid) == Some(k)
  {
    assert sid[0] == Prefix(k)[0];
  }

  /**
   * getBaseLayerId: a user-content id resolves to the configured base layer
   * of its kind (null when that key is not configured); any other id is
   * its own base layer id.
   */
  function GetBaseLayerId(sid: string, props: Properties): (r: Option<string>)
    ensures StartsWith(sid, ANALYSIS_PREFIX) ==> r == GetProperty(props, ANALYSIS_BASELAYER_ID)
    ensures StartsWith(sid, MYPLACES_PREFIX) ==> r == GetProperty(props, MYPLACES_BASELAYER_ID)
    ensures StartsWith(sid, USERLAYER_PREFIX) ==> r == GetProperty(props, USERLAYER_BASELAYER_ID)
    ensures KindOf(sid).None? ==> r == Some(sid)
  {
    match KindOf(sid)
    case Some(k) => GetProperty(props, BaseLayerKey(k))
    case None => Some(sid)
  }

  /**
   * extractId: the last '_'-separated token parsed as a long; -1 for null,
   * for fewer than two tokens (after split drops trailing empty ones) and
   * for a last token that is not a number.
   */
  function ExtractId(layerId: Option<string>): (r: int)
    ensures layerId.None? ==> r == -1
    ensures layerId.Some? && |Split(layerId.value, '_')| < 2 ==> r == -1
    ensures layerId.Some? && |Split(layerId.value, '_')| >= 2 ==>
      r == GetLong(Some(Split(layerId.value, '_')[|Split(layerId.value, '_')| - 1]), -1)
    ensures r != -1 ==>
      layerId.Some? && |Split(layerId.value, '_')| >= 2 &&
      ParseInteger(Split(layerId.value, '_')[|Split(layerId.value, '_')| - 1], LONG_MIN, LONG_MAX) == Some(r)
  {
    match layerId
    case None => -1
    case Some(s) =>
      var values := Split(s, '_');
      if |values| < 2 then -1 else GetLong(Some(values[|values| - 1]), -1)
  }

  /**
   * Whatever precedes it, a last token after '_' that is non-empty and has
   * no '_' of its own is the one extractId parses.
   */
  lemma ExtractLastToken(head: string, t: string)
    requires t != "" && '_' !in t
    ensures ExtractId(Some(head + "_" + t)) == GetLong(Some(t), -1)
  {
    var s := head + "_" + t;
    assert s == head + ['_'] + t;
    RawSplitConcat(head, '_', t);
    RawSplitNoSeparator(t, '_');
    assert s[|head|] == '_';
    var raw := RawSplit(s, '_');
    assert raw == RawSplit(head, '_') + [t];
    assert Split(s, '_') == raw;
  }

  /** The digits of a number spelt in decimal hold no separator. */
  lemma DecimalHasNoSeparator(n: nat)
    ensures '_' !in Decimal(n) && '_' !in "-" + Decimal(n)
  {
    var d := Decimal(n);
    forall i | 0 <= i < |d| ensures d[i] != '_' { assert IsDigit(d[i]); }
    assert ("-" + d)[1..] == d;
  }

  /**
   * A trailing "_<n>" with n a non-negative long is the id extractId finds
   * ("analysis_12", "x_y_12" and "_12" all give 12).
   */
  lemma ExtractTrailingNumber(head: string, n: nat)
    requires n <= LONG_MAX
    ensures ExtractId(Some(head + "_" + Decimal(n))) == n
  {
    DecimalHasNoSeparator(n);
    ExtractLastToken(head, Decimal(n));
    ParseDecimal(n, LONG_MIN, LONG_MAX);
  }

  /**
   * parseLong accepts a sign, so a trailing "_-<n>" gives the negative id
   * -n ("x_-5" gives -5, and "x_-1" is indistinguishable from failure).
   */
  lemma ExtractTrailingNegative(head: string, n: nat)
    requires n <= -LONG_MIN
    ensures ExtractId(Some(head + "_" + ("-" + Decimal(n)))) == -(n as int)
  {
    DecimalHasNoSeparator(n);
    ExtractLastToken(head, "-" + Decimal(n));
    ParseNegativeDecimal(n, LONG_MIN, LONG_MAX);
  }

  /** A last token that is no number gives -1. */
  lemma ExtractNonNumber(head: string, t: string)
    requires t != "" && '_' !in t && ParseInteger(t, LONG_MIN, LONG_MAX).None?
    ensures ExtractId(Some(head + "_" + t)) == -1
  {
    ExtractLastToken(head, t);
  }

  /**
   * An id that ends in the separator has no id token: split drops the
   * trailing empty token, so "myplaces_" yields the single token "myplaces".
   */
  lemma ExtractBareSeparator(word: string)
    requires '_' !in word
    ensures ExtractId(Some(word + "_")) == -1
  {
    var s := word + "_";
    RawSplitConcat(word, '_', "");
    RawSplitNoSeparator(word, '_');
    assert s == word + ['_'] + "";
    assert RawSplit(s, '_') == [word, ""];
    assert s[|word|] == '_';
    assert |Split(s, '_')| <= 1;
  }

  lemma MyPlacesBareSeparator()
    ensures ExtractId(Some(MYPLACES_PREFIX)) == -1
  {
    assert MYPLACES_PREFIX == "myplaces" + "_";
    ExtractBareSeparator("myplaces");
  }

  /** Why handleAction gives up. */
  datatype HandlerError =
    | MissingParameter(name: string)   // the id does not resolve to a base layer id
    | NoMatchingLayer                   // no configuration stored for that base layer
    | NullDereferenced                       // the code dereferences a null configuration

  /**
   * The id check of handleAction: the base layer id must parse as an int
   * other than the -1 sentinel, otherwise the request is rejected.
   */
  function RequestedBaseId(idParam: Option<string>, props: Properties): (r: Result<int, HandlerError>)
    ensures r.Ok? <==> GetInt(GetBaseLayerId(idParam.GetOr(DEFAULT_ID), props), -1) != -1
    ensures r.Ok? ==> r.value == GetInt(GetBaseLayerId(idParam.GetOr(DEFAULT_ID), props), -1) && IsInt(r.value)
    ensures r.Err? ==> r.error == MissingParameter(ID_PARAM)
  {
    var sid := idParam.GetOr(DEFAULT_ID);
    var id := GetInt(GetBaseLayerId(sid, props), -1);
    if id == -1 then Err(MissingParameter(ID_PARAM)) else Ok(id)
  }

  /** A request without an id is rejected: the default "n/a" is no number. */
  lemma MissingIdRejected(props: Properties)
    ensures RequestedBaseId(None, props) == Err(MissingParameter(ID_PARAM))
  {
    assert !IsDigit(DEFAULT_ID[0]);
    assert KindOf(DEFAULT_ID) == None by { assert DEFAULT_ID[0] == 'n'; }
  }

  /** A plain number is its own base layer id. */
  lemma PlainIdAccepted(n: nat, props: Properties)
    requires 1 <= n <= INT_MAX
    ensures RequestedBaseId(Some(Decimal(n)), props) == Ok(n)
  {
    var d := Decimal(n);
    assert IsDigit(d[0]);
    assert KindOf(d) == None;
    ParseDecimal(n, INT_MIN, INT_MAX);
  }

  /** A plain id that is no number is rejected. */
  lemma NonNumericIdRejected(sid: string, props: Properties)
    requires KindOf(sid).None? && ParseInteger(sid, INT_MIN, INT_MAX).None?
    ensures RequestedBaseId(Some(sid), props) == Err(MissingParameter(ID_PARAM))
  {
  }

  /** The id -1 itself is the sentinel and is rejected as missing. */
  lemma MinusOneRejected(props: Properties)
    ensures RequestedBaseId(Some("-1"), props) == Err(MissingParameter(ID_PARAM))
  {
    assert KindOf("-1") == None by { assert "-1"[0] == '-'; }
    assert "-1" == "-" + Decimal(1);
    ParseNegativeDecimal(1, INT_MIN, INT_MAX);
  }

  /** A user-content id is checked against its configured base layer, not its own tail. */
  lemma UserContentIdUsesBaseLayer(sid: string, k: UserDataKind, props: Properties, n: nat)
    requires StartsWith(sid, Prefix(k))
    requires 1 <= n <= INT_MAX
    requires BaseLayerKey(k) in props && props[BaseLayerKey(k)] == Decimal(n)
    ensures RequestedBaseId(Some(sid), props) == Ok(n)
  {
    PrefixesExclusive(sid, k);
    ParseDecimal(n, INT_MIN, INT_MAX);
  }

  /** A user-content id of a kind whose base layer is not configured is rejected. */
  lemma UnconfiguredBaseLayerRejected(sid: string, k: UserDataKind, props: Properties)
    requires StartsWith(sid, Prefix(k))
    requires BaseLayerKey(k) !in props
    ensures RequestedBaseId(Some(sid), props).Err?
  {
    PrefixesExclusive(sid, k);
  }

  // ---------------------------------------------------------------------
  // User content and the cached layer configuration

  /** An analysis, a my-places category or an imported user layer, as far as this handler looks at it. */
  datatype UserDataLayer = UserDataLayer(published: bool, uuid: Option<string>, nativeColumns: string)

  /** The three user-content services: analysis and user layers are found by long id, my places by int id. */
  datatype UserDataStore = UserDataStore(
    analyses: map<int, UserDataLayer>,
    myPlaces: map<int, UserDataLayer>,
    userLayers: map<int, UserDataLayer>)

  function FindIn(m: map<int, UserDataLayer>, id: int): Option<UserDataLayer> {
    if id in m then Some(m[id]) else None
  }

  /** The lookup getLayerInfoForRedis makes; the my-places service is given (int) of the long id. */
  function FindUserLayer(store: UserDataStore, k: UserDataKind, id: int): (r: Option<UserDataLayer>)
    ensures k == Analysis ==> (r.Some? <==> id in store.analyses) && (r.Some? ==> r.value == store.analyses[id])
    ensures k == MyPlaces ==> (r.Some? <==> ToInt(id) in store.myPlaces) && (r.Some? ==> r.value == store.myPlaces[ToInt(id)])
    ensures k == UserLayer ==> (r.Some? <==> id in store.userLayers) && (r.Some? ==> r.value == store.userLayers[id])
  {
    match k
    case Analysis => FindIn(store.analyses, id)
    case MyPlaces => FindIn(store.myPlaces, ToInt(id))
    case UserLayer => FindIn(store.userLayers, id)
  }

  /** The narrowing cast means a my-places id and the same id plus 2^32 find the same category. */
  lemma MyPlacesIdWraps(store: UserDataStore, id: int)
    ensures FindUserLayer(store, MyPlaces, id + 0x1_0000_0000) == FindUserLayer(store, MyPlaces, id)
  {
    assert (id + 0x1_0000_0000) % 0x1_0000_0000 == id % 0x1_0000_0000;
  }

  /** The user-content layer a requested id refers to, if any. */
  function RequestedUserLayer(requestedLayerId: string, store: UserDataStore): (r: Option<UserDataLayer>)
    ensures StartsWith(requestedLayerId, ANALYSIS_PREFIX) ==>
      r == FindUserLayer(store, Analysis, ExtractId(Some(requestedLayerId)))
    ensures !StartsWith(requestedLayerId, ANALYSIS_PREFIX) && StartsWith(requestedLayerId, MYPLACES_PREFIX) ==>
      r == FindUserLayer(store, MyPlaces, ExtractId(Some(requestedLayerId)))
    ensures (!StartsWith(requestedLayerId, ANALYSIS_PREFIX) && !StartsWith(requestedLayerId, MYPLACES_PREFIX) &&
             StartsWith(requestedLayerId, USERLAYER_PREFIX)) ==>
      r == FindUserLayer(store, UserLayer, ExtractId(Some(requestedLayerId)))
    ensures (!StartsWith(requestedLayerId, ANALYSIS_PREFIX) && !StartsWith(requestedLayerId, MYPLACES_PREFIX) &&
             !StartsWith(requestedLayerId, USERLAYER_PREFIX)) ==>
      r.None?
  {
    match KindOf(requestedLayerId)
    case None => None
    case Some(k) => FindUserLayer(store, k, ExtractId(Some(requestedLayerId)))
  }

  /** The requested user layer if it exists and is published; only then is the configuration switched over. */
  function PublishedUserLayer(requestedLayerId: string, store: UserDataStore): (r: Option<UserDataLayer>)
    ensures r.Some? ==> r.value.published && RequestedUserLayer(requestedLayerId, store) == r
    ensures r.None? ==> RequestedUserLayer(requestedLayerId, store).None? || !RequestedUserLayer(requestedLayerId, store).value.published
  {
    var u := RequestedUserLayer(requestedLayerId, store);
    if u.Some? && u.value.published then u else None
  }

  /** The analysis native columns used as the selected feature params; null for a missing analysis. */
  function NativeColumns(analysis: Option<UserDataLayer>): Option<string> {
    match analysis
    case Some(a) => Some(a.nativeColumns)
    case None => None
  }

  /** The fields of WFSLayerConfiguration this handler reads or writes. */
  datatype ConfigState = ConfigState(
    layerId: string,
    published: bool,
    uuid: Option<string>,
    selectedFeatureParams: Option<string>)

  /**
   * What getLayerInfoForRedis makes of a found configuration: for an
   * analysis the selected feature params become its native columns; for a
   * published user layer, and only then, the layer id becomes the requested
   * id, published becomes true and the uuid becomes the user layer's.
   */
  function LayerInfoForRedis(c: ConfigState, requestedLayerId: string, store: UserDataStore): (r: ConfigState)
    ensures PublishedUserLayer(requestedLayerId, store).Some? ==>
      r.layerId == requestedLayerId && r.published &&
      r.uuid == PublishedUserLayer(requestedLayerId, store).value.uuid
    ensures PublishedUserLayer(requestedLayerId, store).None? ==>
      r.layerId == c.layerId && r.published == c.published && r.uuid == c.uuid
    ensures StartsWith(requestedLayerId, ANALYSIS_PREFIX) ==>
      r.selectedFeatureParams == NativeColumns(RequestedUserLayer(requestedLayerId, store))
    ensures !StartsWith(requestedLayerId, ANALYSIS_PREFIX) ==> r.selectedFeatureParams == c.selectedFeatureParams
  {
    var c1 := if KindOf(requestedLayerId) == Some(Analysis)
              then c.(selectedFeatureParams := NativeColumns(RequestedUserLayer(requestedLayerId, store)))
              else c;
    match PublishedUserLayer(requestedLayerId, store)
    case Some(u) => c1.(layerId := requestedLayerId, published := true, uuid := u.uuid)
    case None => c1
  }

  /** A plain numeric id never touches the published flags, whatever the user-content services hold. */
  lemma PlainIdKeepsFlags(c: ConfigState, sid: string, store: UserDataStore)
    requires KindOf(sid).None?
    ensures LayerInfoForRedis(c, sid, store) == c
  {
  }

  /** The cached configuration of one WFS layer (WFSLayerConfiguration), mutated in place. */
  class WFSLayerConfiguration {
    var layerId: string
    var published: bool
    var uuid: Option<string>
    var selectedFeatureParams: Option<string>

    /** The abstract value of the fields this handler touches. */
    function State(): ConfigState
      reads this
    {
      ConfigState(layerId, published, uuid, selectedFeatureParams)
    }

    /** findConfiguration: the stored configuration of a layer, as a new object. */
    constructor (stored: ConfigState)
      ensures State() == stored
    {
      layerId := stored.layerId;
      published := stored.published;
      uuid := stored.uuid;
      selectedFeatureParams := stored.selectedFeatureParams;
    }

    /** setupPublishedFlags: published becomes true and the uuid is replaced; nothing else changes. */
    method SetupPublishedFlags(newUuid: Option<string>)
      modifies this
      ensures State() == old(State()).(published := true, uuid := newUuid)
    {
      published := true;
      uuid := newUuid;
    }
  }

  /**
   * getLayerInfoForRedis on the configuration found for the base layer (null
   * when none is stored). Reports whether the code dereferences that null:
   * it does for an analysis id (setting the native columns) and for a
   * published user layer (setting the layer id).
   */
  method GetLayerInfoForRedis(lc: WFSLayerConfiguration?, requestedLayerId: string, store: UserDataStore)
    returns (nullDereference: bool)
    modifies lc
    ensures nullDereference <==>
      lc == null &&
      (StartsWith(requestedLayerId, ANALYSIS_PREFIX) || PublishedUserLayer(requestedLayerId, store).Some?)
    ensures lc != null ==> lc.State() == LayerInfoForRedis(old(lc.State()), requestedLayerId, store)
  {
    var userDataLayerId := ExtractId(Some(requestedLayerId));
    var userLayer: Option<UserDataLayer> := None;
    var kind := KindOf(requestedLayerId);
    if kind == Some(Analysis) {
      var analysis := FindUserLayer(store, Analysis, userDataLayerId);
      if lc == null {
        return true;
      }
      lc.selectedFeatureParams := NativeColumns(analysis);
      userLayer := analysis;
    } else if kind == Some(MyPlaces) {
      userLayer := FindUserLayer(store, MyPlaces, userDataLayerId);
    } else if kind == Some(UserLayer) {
      userLayer := FindUserLayer(store, UserLayer, userDataLayerId);
    }
    assert userLayer == RequestedUserLayer(requestedLayerId, store);
    if userLayer.Some? && userLayer.value.published {
      if lc == null {
        return true;
      }
      lc.layerId := requestedLayerId;
      lc.SetupPublishedFlags(userLayer.value.uuid);
    }
    return false;
  }

  /**
   * handleAction up to the Redis save: resolve and check the id, load the
   * stored configuration of the base layer and adjust it for the requested
   * user content. The configuration returned is the one that is saved.
   */
  method HandleAction(idParam: Option<string>, props: Properties, stored: map<int, ConfigState>, store: UserDataStore)
    returns (r: Result<WFSLayerConfiguration, HandlerError>)
    ensures RequestedBaseId(idParam, props).Err? ==> r == Err(MissingParameter(ID_PARAM))
    ensures RequestedBaseId(idParam, props).Ok? && RequestedBaseId(idParam, props).value !in stored ==>
      var sid := idParam.GetOr(DEFAULT_ID);
      r == Err(if StartsWith(sid, ANALYSIS_PREFIX) || PublishedUserLayer(sid, store).Some?
               then NullDereferenced else NoMatchingLayer)
    ensures RequestedBaseId(idParam, props).Ok? && RequestedBaseId(idParam, props).value in stored ==>
      r.Ok? && fresh(r.value) &&
      r.value.State() == LayerInfoForRedis(stored[RequestedBaseId(idParam, props).value], idParam.GetOr(DEFAULT_ID), store)
  {
    var sid := idParam.GetOr(DEFAULT_ID);
    var checked := RequestedBaseId(idParam, props);
    if checked.Err? {
      return Err(checked.error);
    }
    var id := checked.value;
    var lc: WFSLayerConfiguration? := null;
    if id in stored {
      lc := new WFSLayerConfiguration(stored[id]);
    }
    var nullDereference := GetLayerInfoForRedis(lc, sid, store);
    if nullDereference {
      return Err(NullDereferenced);
    }
    if lc == null {
      return Err(NoMatchingLayer);
    }
    return Ok(lc);
  }
}
