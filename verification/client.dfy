/** The Cloudflare client wrapper (pkg/cloudflare/client.go): per-type request
    bodies, response mapping, list paging and name normalisation. The SDK
    calls themselves are replaced by the reply they return. */
module Client {
  import opened Wrappers
  import opened Text
  import opened RecordTypes
  import opened Errors
  import opened Zones

  /** The wrapper's own record representation. */
  datatype DNSRecord = DNSRecord(
    id: string,
    zoneId: string,
    name: string,
    recordType: string,
    content: string,
    ttl: int,
    proxied: bool,
    comment: string,
    priority: Option<int>)

  /** The part of a request body that depends on the record type: the proxied
      flag of A, AAAA and CNAME, the priority of MX, nothing for TXT and NS. */
  datatype BodyExtra = WithProxied(proxied: bool) | WithPriority(priority: int) | NoExtra

  /** A typed request body as the SDK's per-type parameter structs carry it. */
  datatype RecordBody = RecordBody(
    recordType: RecordType,
    name: string,
    content: string,
    ttl: int,
    comment: string,
    extra: BodyExtra)

  datatype ClientError = UnsupportedRecordType(recordType: string) | ApiFailure(cause: ProviderError)

  /** A request the wrapper sends (None when it fails before any call) and
      what it returns. */
  datatype ApiCall<P, T> = ApiCall(request: Option<P>, result: Result<T, ClientError>)

  /** One record of a zone, as a request addresses it. */
  datatype RecordRef = RecordRef(zoneId: string, recordId: string)

  datatype NewParams = NewParams(zoneId: string, body: RecordBody)

  datatype UpdateParams = UpdateParams(recordId: string, zoneId: string, body: RecordBody)

  /** A record as the provider's API returns it; an absent priority reads as 0. */
  datatype RecordResponse = RecordResponse(
    id: string,
    name: string,
    recordType: string,
    content: string,
    ttl: int,
    proxied: bool,
    comment: string,
    priority: int)

  datatype ListParams = ListParams(zoneId: string, perPage: int, page: Option<int>)

  datatype ListResponse = ListResponse(results: seq<RecordResponse>, page: int)

  /** One page of records and the token of the page after it, if any. */
  datatype RecordPage = RecordPage(records: seq<DNSRecord>, nextToken: Option<string>)

  /** The record types the client builds bodies for; CAA and SRV are not among them. */
  const BodyTypes: set<string> := {"A", "AAAA", "CNAME", "TXT", "MX", "NS"}

  /** Priority sent in an MX body whose record has none. */
  const DefaultMxPriority: int := 10

  /** Page size used when the caller asks for none. */
  const DefaultPageSize: int := 100

  function Body(t: RecordType, record: DNSRecord, extra: BodyExtra): RecordBody {
    RecordBody(t, record.name, record.content, record.ttl, record.comment, extra)
  }

  /** The per-type body construction shared by CreateRecord and UpdateRecord. */
  function BuildBody(record: DNSRecord): (r: Result<RecordBody, ClientError>)
    ensures r.Ok? <==> record.recordType in BodyTypes
    ensures r.Err? ==> r.error == UnsupportedRecordType(record.recordType)
    ensures r.Ok? ==> && Code(r.value.recordType) == record.recordType
                      && r.value.name == record.name
                      && r.value.content == record.content
                      && r.value.ttl == record.ttl
                      && r.value.comment == record.comment
    ensures r.Ok? ==> (r.value.extra.WithProxied? <==> r.value.recordType in {A, AAAA, CNAME})
    ensures r.Ok? && r.value.extra.WithProxied? ==> r.value.extra.proxied == record.proxied
    ensures r.Ok? ==> (r.value.extra.WithPriority? <==> r.value.recordType == MX)
    ensures r.Ok? && r.value.recordType == MX && record.priority.Some?
            ==> r.value.extra.priority == record.priority.value
    ensures r.Ok? && r.value.recordType == MX && record.priority.None?
            ==> r.value.extra.priority == DefaultMxPriority
  {
    match Parse(record.recordType)
    case Some(A) => Ok(Body(A, record, WithProxied(record.proxied)))
    case Some(AAAA) => Ok(Body(AAAA, record, WithProxied(record.proxied)))
    case Some(CNAME) => Ok(Body(CNAME, record, WithProxied(record.proxied)))
    case Some(TXT) => Ok(Body(TXT, record, NoExtra))
    case Some(MX) =>
      var priority := if record.priority.Some? then record.priority.value else DefaultMxPriority;
      Ok(Body(MX, record, WithPriority(priority)))
    case Some(NS) => Ok(Body(NS, record, NoExtra))
    case _ => Err(UnsupportedRecordType(record.recordType))
  }

  /** recordFromResponse: a zero priority means the response carries none. */
  function RecordFromResponse(resp: RecordResponse, zoneId: string): (r: DNSRecord)
    ensures r.priority.None? <==> resp.priority == 0
    ensures r.priority.Some? ==> r.priority.value == resp.priority
    ensures && r.id == resp.id && r.zoneId == zoneId && r.name == resp.name
            && r.recordType == resp.recordType && r.content == resp.content
            && r.ttl == resp.ttl && r.proxied == resp.proxied && r.comment == resp.comment
  {
    DNSRecord(
      resp.id, zoneId, resp.name, resp.recordType, resp.content, resp.ttl,
      resp.proxied, resp.comment,
      if resp.priority != 0 then Some(resp.priority) else None)
  }

  /** recordFromListItem: a list item is converted exactly as a single response is. */
  function RecordFromListItem(item: RecordResponse, zoneId: string): (r: DNSRecord)
    ensures r == RecordFromResponse(item, zoneId)
  {
    var priority := if item.priority != 0 then Some(item.priority) else None;
    DNSRecord(
      item.id, zoneId, item.name, item.recordType, item.content, item.ttl,
      item.proxied, item.comment, priority)
  }

  /** CreateRecord: builds the body, then sends it unless the type is
      unsupported; `reply` is what the provider answers. */
  function CreateRecord(record: DNSRecord, reply: Result<RecordResponse, ProviderError>): (c: ApiCall<NewParams, DNSRecord>)
    ensures c.request.Some? <==> record.recordType in BodyTypes
    ensures c.request.None? ==> c.result == Err(UnsupportedRecordType(record.recordType))
    ensures c.request.Some? ==> c.request.value == NewParams(record.zoneId, BuildBody(record).value)
    ensures c.request.Some? && reply.Err? ==> c.result == Err(ApiFailure(reply.error))
    ensures c.request.Some? && reply.Ok? ==> c.result == Ok(RecordFromResponse(reply.value, record.zoneId))
  {
    match BuildBody(record)
    case Err(e) => ApiCall(None, Err(e))
    case Ok(body) =>
      var request := NewParams(record.zoneId, body);
      match reply
      case Err(e) => ApiCall(Some(request), Err(ApiFailure(e)))
      case Ok(resp) => ApiCall(Some(request), Ok(RecordFromResponse(resp, record.zoneId)))
  }

  /** UpdateRecord: as CreateRecord, addressed to the record's ID. */
  function UpdateRecord(record: DNSRecord, reply: Result<RecordResponse, ProviderError>): (c: ApiCall<UpdateParams, DNSRecord>)
    ensures c.request.Some? <==> record.recordType in BodyTypes
    ensures c.request.None? ==> c.result == Err(UnsupportedRecordType(record.recordType))
    ensures c.request.Some? ==> c.request.value == UpdateParams(record.id, record.zoneId, BuildBody(record).value)
    ensures c.request.Some? && reply.Err? ==> c.result == Err(ApiFailure(reply.error))
    ensures c.request.Some? && reply.Ok? ==> c.result == Ok(RecordFromResponse(reply.value, record.zoneId))
  {
    match BuildBody(record)
    case Err(e) => ApiCall(None, Err(e))
    case Ok(body) =>
      var request := UpdateParams(record.id, record.zoneId, body);
      match reply
      case Err(e) => ApiCall(Some(request), Err(ApiFailure(e)))
      case Ok(resp) => ApiCall(Some(request), Ok(RecordFromResponse(resp, record.zoneId)))
  }

  /** GetRecord: fetches one record by ID and converts the reply under the
      zone asked for. */
  function GetRecord(zoneId: string, recordId: string, reply: Result<RecordResponse, ProviderError>)
    : (c: ApiCall<RecordRef, DNSRecord>)
    ensures c.request == Some(RecordRef(zoneId, recordId))
    ensures reply.Err? ==> c.result == Err(ApiFailure(reply.error))
    ensures reply.Ok? ==> c.result == Ok(RecordFromResponse(reply.value, zoneId))
  {
    match reply
    case Err(e) => ApiCall(Some(RecordRef(zoneId, recordId)), Err(ApiFailure(e)))
    case Ok(resp) => ApiCall(Some(RecordRef(zoneId, recordId)), Ok(RecordFromResponse(resp, zoneId)))
  }

  /** The conversion loop of ListRecords: every item, in order. */
  function ListItems(items: seq<RecordResponse>, zoneId: string): (r: seq<DNSRecord>)
    ensures |r| == |items|
    ensures forall i :: 0 <= i < |items| ==> r[i] == RecordFromListItem(items[i], zoneId)
    decreases |items|
  {
    if items == [] then []
    else [RecordFromListItem(items[0], zoneId)] + ListItems(items[1..], zoneId)
  }

  /** The page requested for a page token: set only when the token reads as
      a number of at least 1; otherwise left to the provider's default. */
  function RequestedPage(pageToken: Option<string>): (r: Option<int>)
    ensures r.Some? ==> r.value >= 1
    ensures r.Some? <==> pageToken.Some? && ParseDecimal(pageToken.value).Some? && ParseDecimal(pageToken.value).value >= 1
  {
    if pageToken.Some? && pageToken.value != "" then
      match ParseDecimal(pageToken.value)
      case Some(page) => if page >= 1 then Some(page) else None
      case None => None
    else None
  }

  /** The list request ListRecords sends: the page size, 100 when none is
      given, and the page the token names, if any. */
  function ListRequestFor(zoneId: string, pageToken: Option<string>, pageSize: int): (r: ListParams)
    ensures r.zoneId == zoneId && r.page == RequestedPage(pageToken)
    ensures pageSize > 0 ==> r.perPage == pageSize
    ensures pageSize <= 0 ==> r.perPage == DefaultPageSize
  {
    ListParams(zoneId, if pageSize > 0 then pageSize else DefaultPageSize, RequestedPage(pageToken))
  }

  /** ListRecords: one page of the zone's records and, when the page came back
      full, the token of the page after the one the provider reports. */
  function ListRecords(zoneId: string, pageToken: Option<string>, pageSize: int, reply: Result<ListResponse, ProviderError>)
    : (c: ApiCall<ListParams, RecordPage>)
    ensures c.request == Some(ListRequestFor(zoneId, pageToken, pageSize))
    ensures reply.Err? ==> c.result == Err(ApiFailure(reply.error))
    ensures reply.Ok? ==> c.result.Ok? && c.result.value.records == ListItems(reply.value.results, zoneId)
    ensures reply.Ok? ==> (c.result.value.nextToken.Some? <==> |reply.value.results| == c.request.value.perPage)
    ensures reply.Ok? && c.result.value.nextToken.Some? ==> c.result.value.nextToken.value == FormatInt(reply.value.page + 1)
  {
    var request := ListRequestFor(zoneId, pageToken, pageSize);
    match reply
    case Err(e) => ApiCall(Some(request), Err(ApiFailure(e)))
    case Ok(resp) =>
      var next := if |resp.results| == request.perPage then Some(FormatInt(resp.page + 1)) else None;
      ApiCall(Some(request), Ok(RecordPage(ListItems(resp.results, zoneId), next)))
  }

  /** NormalizeName: the zone apex becomes "@", a name under the zone loses
      the zone suffix, anything else is returned as it is. */
  function NormalizeName(fqdn: string, zoneDomain: string): string {
    if fqdn == zoneDomain then "@"
    else if HasSuffix(fqdn, "." + zoneDomain) then TrimSuffix(fqdn, "." + zoneDomain)
    else fqdn
  }

  lemma NormalizeApex(zone: string)
    ensures NormalizeName(zone, zone) == "@"
  {
  }

  /** A host under the zone comes back as the host, for every host and
      zone, including a host equal to the zone itself. */
  lemma NormalizeStripsZone(host: string, zone: string)
    ensures NormalizeName(host + "." + zone, zone) == host
  {
    assert host + "." + zone == host + ("." + zone);
    TrimAppended(host, "." + zone);
  }

  lemma NormalizeLeavesForeignNames(fqdn: string, zone: string)
    requires fqdn != zone && !HasSuffix(fqdn, "." + zone)
    ensures NormalizeName(fqdn, zone) == fqdn
  {
  }

  /** NormalizeName inverts the provider's qualification of every short name
      in every zone. */
  lemma NormalizeQualified(short: string, zone: string)
    ensures NormalizeName(Qualify(short, zone), zone) == short
  {
    if short != "@" {
      NormalizeStripsZone(short, zone);
    }
  }

  /** The response of a provider that stores a body as sent under `id`:
      a field the body's type lacks reads back as its zero value. */
  function Echo(body: RecordBody, id: string): RecordResponse {
    RecordResponse(
      id, body.name, Code(body.recordType), body.content, body.ttl,
      body.extra.WithProxied? && body.extra.proxied, body.comment,
      if body.extra.WithPriority? then body.extra.priority else 0)
  }

  /** What a record sent through CreateRecord reads back as, when the provider
      keeps the body as sent: the shared fields survive, proxied survives
      only on A, AAAA and CNAME, and a priority survives only on MX, where a
      missing one comes back as the default 10 and a zero one comes back absent. */
  lemma SentRecordReadsBack(record: DNSRecord, id: string)
    requires record.recordType in BodyTypes
    ensures var back := RecordFromResponse(Echo(BuildBody(record).value, id), record.zoneId);
            && back == record.(id := id, proxied := back.proxied, priority := back.priority)
            && back.proxied == (record.proxied && record.recordType in {"A", "AAAA", "CNAME"})
            && (record.recordType != "MX" ==> back.priority.None?)
            && (record.recordType == "MX" && record.priority.None? ==> back.priority == Some(DefaultMxPriority))
            && (record.recordType == "MX" && record.priority.Some? ==>
                  back.priority == if record.priority.value == 0 then None else record.priority)
  {
    var body := BuildBody(record).value;
    ParseIsInverseOfCode(record.recordType, body.recordType);
  }

  /** Fetching a record that CreateRecord sent, from a provider that keeps
      the body as sent under `id`, gives back the record CreateRecord
      returned, carrying the new ID. */
  lemma FetchedRecordMatchesCreated(record: DNSRecord, id: string)
    requires record.recordType in BodyTypes
    ensures var echo := Echo(BuildBody(record).value, id);
            var fetched := GetRecord(record.zoneId, id, Ok(echo)).result;
            && fetched == CreateRecord(record, Ok(echo)).result
            && fetched.Ok? && fetched.value.id == id && fetched.value.zoneId == record.zoneId
  {
  }
}
