/** The six operations the adapter exposes to the host (cloudflare-dns.go).
    Each is a fixed pipeline of stages; the provider's answers are parameters,
    and every operation that talks to the provider also returns the request it
    sends, None when it stops before sending one. Building the provider client
    is a stage whose success is the parameter `clientOk`. */
module Crud {
  import opened Wrappers
  import opened Text
  import opened Resource
  import opened Errors
  import opened Plugin

  /** A provider call addressed to a zone. */
  datatype ZoneCall<P> = ZoneCall(zoneId: string, params: P)

  /** The request an operation sends, if any, and the result it reports. */
  datatype Exchange<P, R> = Exchange(request: Option<ZoneCall<P>>, result: R)

  datatype CreateRequest = CreateRequest(targetConfig: Option<TargetConfig>, properties: Option<RawProperties>)

  datatype ReadRequest = ReadRequest(targetConfig: Option<TargetConfig>, nativeId: string)

  datatype UpdateRequest = UpdateRequest(
    targetConfig: Option<TargetConfig>,
    nativeId: string,
    desiredProperties: Option<RawProperties>)

  datatype DeleteRequest = DeleteRequest(targetConfig: Option<TargetConfig>, nativeId: string)

  datatype ListRequest = ListRequest(targetConfig: Option<TargetConfig>, pageToken: Option<string>, pageSize: int)

  /** Outcome of Read: an error code, or the record's current properties. */
  datatype ReadResult = ReadResult(errorCode: ErrorCode, properties: Option<Properties>)

  /** Paging information of a list reply. */
  datatype ResultInfo = ResultInfo(page: int, totalPages: int)

  /** A list reply: the page's records and, when the provider sends it, its
      paging information. */
  datatype SdkPage = SdkPage(records: seq<SdkRecord>, info: Option<ResultInfo>)

  datatype ListParams = ListParams(page: int, perPage: int)

  /** Page size used when the request asks for none. */
  const DefaultListPageSize: int := 100

  function Failed(op: Operation, code: ErrorCode): ProgressResult {
    ProgressResult(op, StatusFailure, code, "")
  }

  function Succeeded(op: Operation, nativeId: string): ProgressResult {
    ProgressResult(op, StatusSuccess, NoErrorCode, nativeId)
  }

  /** The properties of a request that the adapter accepts without asking the
      provider anything: a usable target configuration, and properties that
      parse and validate. */
  predicate Accepted(config: Option<TargetConfig>, properties: Option<RawProperties>) {
    && ParseTargetConfig(config).Ok?
    && ParseProperties(properties).Ok?
    && ValidateProperties(ParseProperties(properties).value).Pass?
  }

  /** The configuration, parse and validation stages shared by Create and
      Update: the zone and the properties to send, or the request's fault. */
  function CheckInput(config: Option<TargetConfig>, properties: Option<RawProperties>): (r: Result<(string, Properties), ErrorCode>)
    ensures r.Ok? <==> Accepted(config, properties)
    ensures r.Ok? ==> r.value == (ParseTargetConfig(config).value.zoneId, ParseProperties(properties).value)
    ensures r.Err? ==> r.error == InvalidRequest
  {
    match ParseTargetConfig(config)
    case Err(_) => Err(InvalidRequest)
    case Ok(target) =>
      match ParseProperties(properties)
      case Err(_) => Err(InvalidRequest)
      case Ok(props) =>
        match ValidateProperties(props)
        case Fail(_) => Err(InvalidRequest)
        case Pass => Ok((target.zoneId, props))
  }

  /** Create: rejected input is InvalidRequest and reaches no provider call;
      a client or provider failure is InternalFailure; only a created record
      yields success, with the record's ID. */
  function Create(req: CreateRequest, clientOk: bool, reply: Result<SdkRecord, ProviderError>)
    : (x: Exchange<CreateParams, ProgressResult>)
    ensures x.result.operation == OperationCreate
    ensures x.request.Some? <==> Accepted(req.targetConfig, req.properties) && clientOk
    ensures x.request.Some? ==> x.request.value == ZoneCall(ParseTargetConfig(req.targetConfig).value.zoneId,
                                                            ToCreateParams(ParseProperties(req.properties).value))
    ensures x.result.errorCode == InvalidRequest <==> !Accepted(req.targetConfig, req.properties)
    ensures x.result.status == StatusSuccess <==> x.request.Some? && reply.Ok?
    ensures x.result.status == StatusSuccess ==> x.result.nativeId == reply.value.id && x.result.errorCode == NoErrorCode
    ensures x.result.status == StatusFailure ==> x.result.nativeId == ""
    ensures x.result.status == StatusFailure && x.result.errorCode != InvalidRequest ==> x.result.errorCode == InternalFailure
  {
    match CheckInput(req.targetConfig, req.properties)
    case Err(code) => Exchange(None, Failed(OperationCreate, code))
    case Ok((zoneId, props)) =>
      if !clientOk then Exchange(None, Failed(OperationCreate, InternalFailure))
      else
        var request := Some(ZoneCall(zoneId, ToCreateParams(props)));
        match reply
        case Err(_) => Exchange(request, Failed(OperationCreate, InternalFailure))
        case Ok(record) => Exchange(request, Succeeded(OperationCreate, record.id))
  }

  /** Update: as Create, except that success reports the request's own ID. */
  function Update(req: UpdateRequest, clientOk: bool, reply: Result<SdkRecord, ProviderError>)
    : (x: Exchange<UpdateParams, ProgressResult>)
    ensures x.result.operation == OperationUpdate
    ensures x.request.Some? <==> Accepted(req.targetConfig, req.desiredProperties) && clientOk
    ensures x.request.Some? ==> x.request.value == ZoneCall(ParseTargetConfig(req.targetConfig).value.zoneId,
                                                            ToUpdateParams(ParseProperties(req.desiredProperties).value, req.nativeId))
    ensures x.result.errorCode == InvalidRequest <==> !Accepted(req.targetConfig, req.desiredProperties)
    ensures x.result.status == StatusSuccess <==> x.request.Some? && reply.Ok?
    ensures x.result.status == StatusSuccess ==> x.result.nativeId == req.nativeId && x.result.errorCode == NoErrorCode
    ensures x.result.status == StatusFailure ==> x.result.nativeId == ""
    ensures x.result.status == StatusFailure && x.result.errorCode != InvalidRequest ==> x.result.errorCode == InternalFailure
  {
    match CheckInput(req.targetConfig, req.desiredProperties)
    case Err(code) => Exchange(None, Failed(OperationUpdate, code))
    case Ok((zoneId, props)) =>
      if !clientOk then Exchange(None, Failed(OperationUpdate, InternalFailure))
      else
        var request := Some(ZoneCall(zoneId, ToUpdateParams(props, req.nativeId)));
        match reply
        case Err(_) => Exchange(request, Failed(OperationUpdate, InternalFailure))
        case Ok(_) => Exchange(request, Succeeded(OperationUpdate, req.nativeId))
  }

  /** Update sends what Create sends for the same configuration and
      properties, addressed to the record's ID, with an absent comment passed
      as absent rather than as "". Both report the same status and error code
      when their provider calls fare alike. */
  lemma UpdateSendsWhatCreateSends(
    config: Option<TargetConfig>, properties: Option<RawProperties>, nativeId: string, clientOk: bool,
    createReply: Result<SdkRecord, ProviderError>, updateReply: Result<SdkRecord, ProviderError>)
    ensures var c := Create(CreateRequest(config, properties), clientOk, createReply);
            var u := Update(UpdateRequest(config, nativeId, properties), clientOk, updateReply);
            && (c.request.Some? <==> u.request.Some?)
            && (c.request.Some? ==>
                  var sent, updated := c.request.value.params, u.request.value.params;
                  && u.request.value.zoneId == c.request.value.zoneId
                  && updated.id == nativeId
                  && updated.recordType == sent.recordType && updated.name == sent.name
                  && updated.content == sent.content && updated.ttl == sent.ttl
                  && updated.proxied == sent.proxied && updated.priority == sent.priority
                  && sent.comment == updated.comment.GetOr(""))
            && (createReply.Ok? == updateReply.Ok? ==>
                  c.result.status == u.result.status && c.result.errorCode == u.result.errorCode)
  {
    if Accepted(config, properties) {
      CreateAndUpdateAgree(ParseProperties(properties).value, nativeId);
    }
  }

  /** Nothing that breaks the per-type rules reaches the provider: every
      record Create or Update sends has a supported type, a priority where
      MX and SRV need one, and the proxied flag only on A, AAAA and CNAME. */
  lemma SentRecordsObeyTypeRules(
    createReq: CreateRequest, updateReq: UpdateRequest, clientOk: bool,
    createReply: Result<SdkRecord, ProviderError>, updateReply: Result<SdkRecord, ProviderError>)
    ensures var c := Create(createReq, clientOk, createReply);
            c.request.Some? ==> ObeysTypeRules(c.request.value.params.recordType, c.request.value.params.proxied,
                                               c.request.value.params.priority.Some?)
    ensures var u := Update(updateReq, clientOk, updateReply);
            u.request.Some? ==> ObeysTypeRules(u.request.value.params.recordType, u.request.value.params.proxied,
                                               u.request.value.params.priority.Some?)
  {
  }

  /** Read: looks up the zone's name, then the record, and maps the record
      back to properties under that zone. A record-lookup error whose message
      reads as not-found is NotFound; every other provider or client failure
      is InternalFailure, including a failed zone lookup. */
  function Read(req: ReadRequest, clientOk: bool, zoneReply: Result<string, ProviderError>, recordReply: Result<SdkRecord, ProviderError>)
    : (r: ReadResult)
    ensures ParseTargetConfig(req.targetConfig).Err? ==> r == ReadResult(InvalidRequest, None)
    ensures r.properties.Some? <==> ParseTargetConfig(req.targetConfig).Ok? && clientOk && zoneReply.Ok? && recordReply.Ok?
    ensures r.properties.Some? ==> && r.errorCode == NoErrorCode
                                   && r.properties.value == RecordToProperties(recordReply.value, zoneReply.value)
    ensures r.errorCode == NotFound <==> && ParseTargetConfig(req.targetConfig).Ok? && clientOk && zoneReply.Ok?
                                         && recordReply.Err? && IsNotFoundError(Some(recordReply.error))
    ensures r.errorCode == InternalFailure <==> && ParseTargetConfig(req.targetConfig).Ok?
                                                && (|| !clientOk || zoneReply.Err?
                                                    || (recordReply.Err? && !IsNotFoundError(Some(recordReply.error))))
  {
    if ParseTargetConfig(req.targetConfig).Err? then ReadResult(InvalidRequest, None)
    else if !clientOk then ReadResult(InternalFailure, None)
    else
      match zoneReply
      case Err(_) => ReadResult(InternalFailure, None)
      case Ok(zoneName) =>
        match recordReply
        case Err(e) =>
          if IsNotFoundError(Some(e)) then ReadResult(NotFound, None) else ReadResult(InternalFailure, None)
        case Ok(record) => ReadResult(NoErrorCode, Some(RecordToProperties(record, zoneName)))
  }

  /** A record created through Create and then read through Read, from a
      provider that stores the create request as sent, reads back as exactly
      the properties it was created from precisely when ReadsBack holds. */
  lemma CreateThenRead(req: CreateRequest, id: string, zone: string)
    requires Accepted(req.targetConfig, req.properties)
    ensures var props := ParseProperties(req.properties).value;
            var stored := Stored(ToCreateParams(props), id, zone);
            var created := Create(req, true, Ok(stored));
            var read := Read(ReadRequest(req.targetConfig, created.result.nativeId), true, Ok(zone), Ok(stored));
            && created.request.Some? && created.request.value.params == ToCreateParams(props)
            && created.result.status == StatusSuccess && created.result.nativeId == id
            && (read.properties == Some(props) <==> ReadsBack(props, zone))
  {
    CreatedPropertiesReadBack(ParseProperties(req.properties).value, id, zone);
  }

  /** Delete: `reply` is the provider's error, None when the deletion went
      through. A not-found error counts as success, since the record is gone
      either way. */
  function Delete(req: DeleteRequest, clientOk: bool, reply: Option<ProviderError>): (x: Exchange<string, ProgressResult>)
    ensures x.result.operation == OperationDelete && x.result.nativeId == ""
    ensures x.request.Some? <==> ParseTargetConfig(req.targetConfig).Ok? && clientOk
    ensures x.request.Some? ==> x.request.value == ZoneCall(ParseTargetConfig(req.targetConfig).value.zoneId, req.nativeId)
    ensures x.result.status == StatusSuccess <==> x.request.Some? && (reply.None? || IsNotFoundError(reply))
    ensures x.result.status == StatusSuccess ==> x.result.errorCode == NoErrorCode
    ensures x.result.errorCode == InvalidRequest <==> ParseTargetConfig(req.targetConfig).Err?
    ensures x.result.errorCode == InternalFailure <==> && ParseTargetConfig(req.targetConfig).Ok?
                                                       && (!clientOk || (reply.Some? && !IsNotFoundError(reply)))
  {
    match ParseTargetConfig(req.targetConfig)
    case Err(_) => Exchange(None, Failed(OperationDelete, InvalidRequest))
    case Ok(target) =>
      if !clientOk then Exchange(None, Failed(OperationDelete, InternalFailure))
      else
        var request := Some(ZoneCall(target.zoneId, req.nativeId));
        match reply
        case None => Exchange(request, Succeeded(OperationDelete, ""))
        case Some(e) =>
          if IsNotFoundError(reply) then Exchange(request, Succeeded(OperationDelete, ""))
          else Exchange(request, Failed(OperationDelete, InternalFailure))
  }

  /** Deleting a record the provider reports as already absent reports
      exactly what deleting an existing record does. */
  lemma DeleteIsIdempotent(req: DeleteRequest, clientOk: bool, err: ProviderError)
    requires IsNotFoundError(Some(err))
    ensures Delete(req, clientOk, Some(err)) == Delete(req, clientOk, None)
  {
  }

  /** Status: operations complete synchronously, so every status check succeeds. */
  function Status(nativeId: string): (r: ProgressResult)
    ensures r.operation == OperationCheckStatus && r.status == StatusSuccess && r.errorCode == NoErrorCode
  {
    Succeeded(OperationCheckStatus, "")
  }

  /** The page a list request starts from: 1, unless a non-empty token
      starts with an integer. */
  function StartPage(pageToken: Option<string>): (page: int)
    ensures pageToken.None? || pageToken == Some("") ==> page == 1
    ensures pageToken.Some? && ScanInt(pageToken.value).Some? ==> page == ScanInt(pageToken.value).value
    ensures pageToken.Some? && ScanInt(pageToken.value).None? ==> page == 1
  {
    if pageToken.Some? && pageToken.value != "" then
      match ScanInt(pageToken.value)
      case Some(v) => v
      case None => 1
    else 1
  }

  /** A token holding a page number followed by text that is not a digit
      starts at that page: the scan stops at the first non-digit. */
  lemma StartPageIgnoresTrailingText(p: int, rest: string)
    requires 1 <= p <= Int64Max
    requires rest == [] || !IsDigit(rest[0])
    ensures StartPage(Some(FormatInt(p) + rest)) == p
  {
    ScanFormatted(p, rest);
  }

  /** "12_" starts at page 12. */
  lemma StartPageOfTrailingUnderscore()
    ensures StartPage(Some("12_")) == 12
  {
    assert ValueOf("12") == 12 by {
      assert "12"[..1] == "1";
    }
    ScanIntReads([], "", "12", "_");
    assert [] + "" + "12" + "_" == "12_";
  }

  /** The list call a request leads to, when configuration and client are usable. */
  function ListCall(req: ListRequest, clientOk: bool): (r: Option<ZoneCall<ListParams>>)
    ensures r.Some? <==> ParseTargetConfig(req.targetConfig).Ok? && clientOk
    ensures r.Some? ==> r.value.zoneId == ParseTargetConfig(req.targetConfig).value.zoneId
    ensures r.Some? && req.pageSize > 0 ==> r.value.params.perPage == req.pageSize
    ensures r.Some? && req.pageSize <= 0 ==> r.value.params.perPage == DefaultListPageSize
    ensures r.Some? ==> r.value.params.page == StartPage(req.pageToken)
  {
    match ParseTargetConfig(req.targetConfig)
    case Err(_) => None
    case Ok(target) =>
      if !clientOk then None
      else
        var perPage := if req.pageSize > 0 then req.pageSize else DefaultListPageSize;
        Some(ZoneCall(target.zoneId, ListParams(StartPage(req.pageToken), perPage)))
  }

  /** The IDs of records, in order. */
  function NativeIds(records: seq<SdkRecord>): (ids: seq<string>)
    ensures |ids| == |records|
    ensures forall i :: 0 <= i < |records| ==> ids[i] == records[i].id
    decreases |records|
  {
    if records == [] then [] else [records[0].id] + NativeIds(records[1..])
  }

  /** List: the IDs of one page and a token for the next page when the
      provider reports more pages; every failure is an empty final page. */
  function List(req: ListRequest, clientOk: bool, reply: Result<SdkPage, ProviderError>)
    : (x: Exchange<ListParams, ListResult>)
    ensures x.request == ListCall(req, clientOk)
    ensures x.request.None? || reply.Err? ==> x.result == ListResult([], None)
    ensures x.request.Some? && reply.Ok? ==> x.result.nativeIds == NativeIds(reply.value.records)
    ensures x.request.Some? && reply.Ok? ==>
              (x.result.nextPageToken.Some? <==> reply.value.info.Some? && reply.value.info.value.page < reply.value.info.value.totalPages)
    ensures x.result.nextPageToken.Some? ==> x.result.nextPageToken.value == FormatInt(reply.value.info.value.page + 1)
  {
    var call := ListCall(req, clientOk);
    if call.None? then Exchange(None, ListResult([], None))
    else
      match reply
      case Err(_) => Exchange(call, ListResult([], None))
      case Ok(page) =>
        var next :=
          if page.info.Some? && page.info.value.page < page.info.value.totalPages
          then Some(FormatInt(page.info.value.page + 1))
          else None;
        Exchange(call, ListResult(NativeIds(page.records), next))
  }
}
