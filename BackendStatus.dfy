/**
 * GetBackendStatusHandler: lists the monitoring status of map layers,
 * either only those with an alert (the default) or all known ones, as a
 * JSON array written field by field by a custom Jackson serializer.
 */
module BackendStatus {
  import opened Wrappers

  const SUBSET_ALL_KNOWN := "AllKnown"
  const HTTP_OK := 200

  /** One row of the backend status table; the timestamp is a Date, here its epoch milliseconds. */
  datatype BackendStatus = BackendStatus(
    mapLayerId: int,
    status: Option<string>,
    statusMessage: Option<string>,
    infoUrl: Option<string>,
    timestamp: Option<int>)

  /**
   * isRequestOnlyForLayersWithAlerts: every request asks for alerting
   * layers only, except one whose Subset is exactly "AllKnown"; a missing
   * parameter asks for alerts only.
   */
  function IsRequestOnlyForLayersWithAlerts(subset: Option<string>): (alertsOnly: bool)
    ensures !alertsOnly <==> subset.Some? && subset.value == SUBSET_ALL_KNOWN
  {
    !(subset == Some(SUBSET_ALL_KNOWN))
  }

  /** The comparison is String.equals: case matters. */
  lemma SubsetIsCaseSensitive()
    ensures IsRequestOnlyForLayersWithAlerts(Some("allknown"))
    ensures IsRequestOnlyForLayersWithAlerts(None)
    ensures !IsRequestOnlyForLayersWithAlerts(Some("AllKnown"))
  {
    assert "allknown"[0] != SUBSET_ALL_KNOWN[0];
  }

  // ---------------------------------------------------------------------
  // The JSON the serializer writes

  /** A scalar JSON value written by the generator. */
  datatype Scalar = Null | Number(n: int) | Text(s: string)

  /** The generator calls the serializers make; a field call writes its name and its value. */
  datatype Token =
    | StartArray
    | EndArray
    | StartObject
    | EndObject
    | FieldName(name: string)
    | Field(name: string, value: Scalar)

  /** writeStringField with a null string writes a JSON null. */
  function StringScalar(s: Option<string>): (r: Scalar)
    ensures r.Null? <==> s.None?
    ensures s.Some? ==> r == Text(s.value)
  {
    match s
    case Some(t) => Text(t)
    case None => Null
  }

  /** The ts field: JSON null for a missing timestamp, its epoch milliseconds otherwise. */
  function TimestampScalar(ts: Option<int>): (r: Scalar)
    ensures r.Null? <==> ts.None?
    ensures ts.Some? ==> r == Number(ts.value)
  {
    match ts
    case Some(ms) => Number(ms)
    case None => Null
  }

  const FIELD_NAMES := ["maplayer_id", "status", "statusjson", "infourl", "ts"]

  /** The object written for one status: its five fields in a fixed order. */
  function RecordTokens(bs: BackendStatus): (r: seq<Token>)
    ensures |r| == 7
  {
    [StartObject,
     Field("maplayer_id", Number(bs.mapLayerId)),
     Field("status", StringScalar(bs.status)),
     Field("statusjson", StringScalar(bs.statusMessage)),
     Field("infourl", StringScalar(bs.infoUrl)),
     Field("ts", TimestampScalar(bs.timestamp)),
     EndObject]
  }

  function RecordsTokens(value: seq<BackendStatus>): seq<Token>
    decreases |value|
  {
    if |value| == 0 then [] else RecordTokens(value[0]) + RecordsTokens(value[1..])
  }

  /** What BackendStatusResponseSerializer.serialize writes for a list. */
  function StatusArray(value: seq<BackendStatus>): seq<Token> {
    [StartArray] + RecordsTokens(value) + [EndArray]
  }

  /** The whole response: the BackendStatusResponse object with its one member. */
  function ResponseDocument(value: seq<BackendStatus>): (r: seq<Token>)
    ensures |r| == |StatusArray(value)| + 3
    ensures r[0] == StartObject && r[1] == FieldName("backendstatus") && r[|r| - 1] == EndObject
  {
    [StartObject, FieldName("backendstatus")] + StatusArray(value) + [EndObject]
  }

  lemma {:induction false} RecordsTokensAppend(value: seq<BackendStatus>, bs: BackendStatus)
    ensures RecordsTokens(value + [bs]) == RecordsTokens(value) + RecordTokens(bs)
    decreases |value|
  {
    if |value| == 0 {
      assert value + [bs] == [bs];
      assert [bs][1..] == [];
    } else {
      assert (value + [bs])[0] == value[0];
      assert (value + [bs])[1..] == value[1..] + [bs];
      RecordsTokensAppend(value[1..], bs);
    }
  }

  lemma {:induction false} RecordsTokensLayout(value: seq<BackendStatus>, k: nat)
    requires k < |value|
    ensures |RecordsTokens(value)| == 7 * |value|
    ensures RecordsTokens(value)[7 * k .. 7 * k + 7] == RecordTokens(value[k])
    decreases |value|
  {
    var rest := RecordsTokens(value[1..]);
    if |value| > 1 {
      RecordsTokensLayout(value[1..], if k > 0 then k - 1 else 0);
    } else {
      assert rest == [];
    }
    if k > 0 {
      assert value[1..][k - 1] == value[k];
      assert RecordsTokens(value)[7 * k .. 7 * k + 7] == rest[7 * (k - 1) .. 7 * (k - 1) + 7];
    }
  }

  /**
   * One object per status, in input order: the array has 7 tokens per
   * status, and the k-th object is the k-th status's, fields maplayer_id,
   * status, statusjson, infourl, ts.
   */
  lemma StatusArrayLayout(value: seq<BackendStatus>, k: nat)
    requires k < |value|
    ensures |StatusArray(value)| == 7 * |value| + 2
    ensures StatusArray(value)[1 + 7 * k .. 8 + 7 * k] == RecordTokens(value[k])
    ensures StatusArray(value)[2 + 7 * k .. 7 + 7 * k] ==
      [Field(FIELD_NAMES[0], Number(value[k].mapLayerId)),
       Field(FIELD_NAMES[1], StringScalar(value[k].status)),
       Field(FIELD_NAMES[2], StringScalar(value[k].statusMessage)),
       Field(FIELD_NAMES[3], StringScalar(value[k].infoUrl)),
       Field(FIELD_NAMES[4], TimestampScalar(value[k].timestamp))]
  {
    RecordsTokensLayout(value, k);
    var recs := RecordsTokens(value);
    var arr := StatusArray(value);
    assert arr[1 + 7 * k .. 8 + 7 * k] == recs[7 * k .. 7 * k + 7];
    assert arr[2 + 7 * k .. 7 + 7 * k] == RecordTokens(value[k])[1..6];
  }

  // ---------------------------------------------------------------------
  // Reading the array back

  function OptionalText(s: Scalar): Option<Option<string>> {
    match s
    case Null => Some(None)
    case Text(t) => Some(Some(t))
    case Number(_) => None
  }

  function OptionalNumber(s: Scalar): Option<Option<int>> {
    match s
    case Null => Some(None)
    case Number(n) => Some(Some(n))
    case Text(_) => None
  }

  /** Reads one status object of exactly seven tokens. */
  function ParseRecord(ts: seq<Token>): Option<BackendStatus>
    requires |ts| == 7
  {
    if ts[0] == StartObject && ts[6] == EndObject &&
       ts[1].Field? && ts[1].name == "maplayer_id" && ts[1].value.Number? &&
       ts[2].Field? && ts[2].name == "status" && OptionalText(ts[2].value).Some? &&
       ts[3].Field? && ts[3].name == "statusjson" && OptionalText(ts[3].value).Some? &&
       ts[4].Field? && ts[4].name == "infourl" && OptionalText(ts[4].value).Some? &&
       ts[5].Field? && ts[5].name == "ts" && OptionalNumber(ts[5].value).Some?
    then
      Some(BackendStatus(ts[1].value.n, OptionalText(ts[2].value).value, OptionalText(ts[3].value).value,
                         OptionalText(ts[4].value).value, OptionalNumber(ts[5].value).value))
    else None
  }

  function ParseRecords(ts: seq<Token>): Option<seq<BackendStatus>>
    decreases |ts|
  {
    if |ts| == 0 then Some([])
    else if |ts| < 7 then None
    else
      match ParseRecord(ts[..7])
      case None => None
      case Some(bs) =>
        match ParseRecords(ts[7..])
        case None => None
        case Some(rest) => Some([bs] + rest)
  }

  /** Reads a status array as a client of the route would. */
  function ParseStatusArray(ts: seq<Token>): Option<seq<BackendStatus>> {
    if |ts| >= 2 && ts[0] == StartArray && ts[|ts| - 1] == EndArray then ParseRecords(ts[1..|ts| - 1]) else None
  }

  lemma ParseRecordTokens(bs: BackendStatus)
    ensures ParseRecord(RecordTokens(bs)) == Some(bs)
  {
  }

  lemma {:induction false} ParseRecordsTokens(value: seq<BackendStatus>)
    ensures ParseRecords(RecordsTokens(value)) == Some(value)
    decreases |value|
  {
    if |value| > 0 {
      var ts := RecordsTokens(value);
      var head := RecordTokens(value[0]);
      assert ts == head + RecordsTokens(value[1..]);
      assert ts[..7] == head;
      assert ts[7..] == RecordsTokens(value[1..]);
      ParseRecordTokens(value[0]);
      ParseRecordsTokens(value[1..]);
      assert [value[0]] + value[1..] == value;
    }
  }

  /** The response loses nothing: reading the array back gives every status, in order, with every field. */
  lemma StatusArrayRoundTrip(value: seq<BackendStatus>)
    ensures ParseStatusArray(StatusArray(value)) == Some(value)
  {
    var ts := StatusArray(value);
    assert ts[1..|ts| - 1] == RecordsTokens(value);
    ParseRecordsTokens(value);
  }

  // ---------------------------------------------------------------------
  // The generator and the serializer

  /** A Jackson JsonGenerator, as the sequence of calls made on it. */
  class JsonGenerator {
    var tokens: seq<Token>

    constructor ()
      ensures tokens == []
    {
      tokens := [];
    }

    method Write(t: Token)
      modifies this
      ensures tokens == old(tokens) + [t]
    {
      tokens := tokens + [t];
    }

    method WriteNumberField(name: string, n: int)
      modifies this
      ensures tokens == old(tokens) + [Field(name, Number(n))]
    {
      Write(Field(name, Number(n)));
    }

    /** writeStringField: a null string is written as JSON null. */
    method WriteStringField(name: string, s: Option<string>)
      modifies this
      ensures tokens == old(tokens) + [Field(name, StringScalar(s))]
    {
      Write(Field(name, StringScalar(s)));
    }

    method WriteNullField(name: string)
      modifies this
      ensures tokens == old(tokens) + [Field(name, Null)]
    {
      Write(Field(name, Null));
    }
  }

  /** The body of the serializer's loop: one status object. */
  method WriteStatusObject(gen: JsonGenerator, bs: BackendStatus)
    modifies gen
    ensures gen.tokens == old(gen.tokens) + RecordTokens(bs)
  {
    gen.Write(StartObject);
    gen.WriteNumberField("maplayer_id", bs.mapLayerId);
    gen.WriteStringField("status", bs.status);
    gen.WriteStringField("statusjson", bs.statusMessage);
    gen.WriteStringField("infourl", bs.infoUrl);
    if bs.timestamp.None? {
      gen.WriteNullField("ts");
    } else {
      gen.WriteNumberField("ts", bs.timestamp.value);
    }
    gen.Write(EndObject);
  }

  /** BackendStatusResponseSerializer.serialize: the loop over the statuses. */
  method Serialize(value: seq<BackendStatus>, gen: JsonGenerator)
    modifies gen
    ensures gen.tokens == old(gen.tokens) + StatusArray(value)
  {
    gen.Write(StartArray);
    for i := 0 to |value|
      invariant gen.tokens == old(gen.tokens) + [StartArray] + RecordsTokens(value[..i])
    {
      WriteStatusObject(gen, value[i]);
      RecordsTokensAppend(value[..i], value[i]);
      assert value[..i + 1] == value[..i] + [value[i]];
    }
    assert value[..|value|] == value;
    gen.Write(EndArray);
  }

  // ---------------------------------------------------------------------
  // The handler

  /** What the status service queries return. */
  datatype StatusTable = StatusTable(all: seq<BackendStatus>, withAlert: seq<BackendStatus>)

  /** The status service the handler uses: the MyBatis one over the database, or one given to it. */
  datatype StatusService = MyBatisService | GivenService(table: StatusTable)

  /** The ObjectMapper the handler uses: a default one or one given to it. */
  datatype Mapper = DefaultMapper | GivenMapper(name: string)

  /** The statuses the request asks for: findAllWithAlert or findAll. */
  function SelectStatuses(service: StatusService, database: StatusTable, subset: Option<string>): (r: seq<BackendStatus>)
    ensures var t := if service.GivenService? then service.table else database;
      r == if subset == Some(SUBSET_ALL_KNOWN) then t.all else t.withAlert
  {
    var t := match service
      case MyBatisService => database
      case GivenService(table) => table;
    if IsRequestOnlyForLayersWithAlerts(subset) then t.withAlert else t.all
  }

  lemma ResponseHoldsArray(value: seq<BackendStatus>)
    ensures var doc := ResponseDocument(value);
      |doc| >= 4 && doc[2..|doc| - 1] == StatusArray(value)
  {
    var doc := ResponseDocument(value);
    assert doc == [StartObject, FieldName("backendstatus")] + StatusArray(value) + [EndObject];
  }

  /** The HTTP response: status code and the JSON written. */
  datatype Response = Response(status: int, body: seq<Token>)

  class GetBackendStatusHandler {
    const service: StatusService
    const mapper: Mapper

    /** A null service or mapper is replaced by a default one. */
    constructor (service: Option<StatusService>, mapper: Option<Mapper>)
      ensures this.service == (if service.Some? then service.value else MyBatisService)
      ensures this.mapper == (if mapper.Some? then mapper.value else DefaultMapper)
    {
      this.service := if service.Some? then service.value else MyBatisService;
      this.mapper := if mapper.Some? then mapper.value else DefaultMapper;
    }

    /** handleAction: query the chosen list and answer 200 with it serialized. */
    method HandleAction(subset: Option<string>, database: StatusTable) returns (response: Response)
      ensures response.status == HTTP_OK
      ensures response.body == ResponseDocument(SelectStatuses(service, database, subset))
      ensures ParseStatusArray(response.body[2..|response.body| - 1]) == Some(SelectStatuses(service, database, subset))
    {
      var alert := IsRequestOnlyForLayersWithAlerts(subset);
      var t := match service
        case MyBatisService => database
        case GivenService(table) => table;
      var statuses := if alert then t.withAlert else t.all;
      var gen := new JsonGenerator();
      gen.Write(StartObject);
      gen.Write(FieldName("backendstatus"));
      Serialize(statuses, gen);
      gen.Write(EndObject);
      assert gen.tokens == ResponseDocument(statuses);
      response := Response(HTTP_OK, gen.tokens);
      StatusArrayRoundTrip(statuses);
      ResponseHoldsArray(statuses);
    }
  }
}
