/** The adapter's helpers (cloudflare-dns.go): target configuration and
    property parsing, validation, provider parameter mapping, mapping provider
    records back to properties, and the not-found test on error messages.
    JSON decoding is already done: a decoded payload is `Some`, a malformed
    one `None`, and a field missing from the payload is `None`. */
module Plugin {
  import opened Wrappers
  import opened Text
  import opened Errors
  import opened Zones

  // ---------------------------------------------------------------------------
  // Target configuration
  // ---------------------------------------------------------------------------

  /** Credentials and zone of a target; an absent field decodes as "". */
  datatype TargetConfig = TargetConfig(apiToken: string, zoneId: string)

  datatype ConfigError = MalformedTargetConfig | MissingApiToken | MissingZoneId

  /** parseTargetConfig: both the API token and the zone ID are required, the
      token being checked first. */
  function ParseTargetConfig(decoded: Option<TargetConfig>): (r: Result<TargetConfig, ConfigError>)
    ensures r.Ok? <==> decoded.Some? && decoded.value.apiToken != "" && decoded.value.zoneId != ""
    ensures r.Ok? ==> r.value == decoded.value
    ensures decoded.None? ==> r == Err(MalformedTargetConfig)
    ensures decoded.Some? && decoded.value.apiToken == "" ==> r == Err(MissingApiToken)
    ensures decoded.Some? && decoded.value.apiToken != "" && decoded.value.zoneId == "" ==> r == Err(MissingZoneId)
  {
    match decoded
    case None => Err(MalformedTargetConfig)
    case Some(config) =>
      if config.apiToken == "" then Err(MissingApiToken)
      else if config.zoneId == "" then Err(MissingZoneId)
      else Ok(config)
  }

  /** An accepted configuration is accepted again, unchanged. */
  lemma ParseTargetConfigIsIdempotent(decoded: Option<TargetConfig>)
    requires ParseTargetConfig(decoded).Ok?
    ensures ParseTargetConfig(Some(ParseTargetConfig(decoded).value)) == ParseTargetConfig(decoded)
  {
  }

  // ---------------------------------------------------------------------------
  // Properties
  // ---------------------------------------------------------------------------

  /** A decoded properties payload: each field as present in it or not. */
  datatype RawProperties = RawProperties(
    recordType: Option<string>,
    name: Option<string>,
    content: Option<string>,
    ttl: Option<int>,
    proxied: Option<bool>,
    priority: Option<int>,
    comment: Option<string>)

  /** The declarative state of one DNS record. */
  datatype Properties = Properties(
    recordType: string,
    name: string,
    content: string,
    ttl: int,
    proxied: bool,
    priority: Option<int>,
    comment: Option<string>)

  datatype PropertiesError = MalformedProperties | MissingRecordType | MissingName | MissingContent

  /** Cloudflare's "automatic" TTL, used when the payload gives none. */
  const DefaultTtl: int := 1

  /** A string field present with a non-empty value. */
  predicate Given(field: Option<string>) {
    field.Some? && field.value != ""
  }

  /** The properties a payload decodes into over the defaults TTL 1 and
      proxied false: each present field replaces its default. */
  function Decode(raw: RawProperties): Properties {
    Properties(
      raw.recordType.GetOr(""), raw.name.GetOr(""), raw.content.GetOr(""),
      raw.ttl.GetOr(DefaultTtl), raw.proxied.GetOr(false), raw.priority, raw.comment)
  }

  /** parseProperties: decodes over the defaults and then requires a record
      type, a name and a content, reporting the first one missing. */
  function ParseProperties(decoded: Option<RawProperties>): (r: Result<Properties, PropertiesError>)
    ensures r.Ok? <==> decoded.Some? && Given(decoded.value.recordType) && Given(decoded.value.name) && Given(decoded.value.content)
    ensures r.Ok? ==> && r.value.recordType == decoded.value.recordType.value
                      && r.value.name == decoded.value.name.value
                      && r.value.content == decoded.value.content.value
                      && r.value.priority == decoded.value.priority
                      && r.value.comment == decoded.value.comment
    ensures r.Ok? && decoded.value.ttl.None? ==> r.value.ttl == DefaultTtl
    ensures r.Ok? && decoded.value.ttl.Some? ==> r.value.ttl == decoded.value.ttl.value
    ensures r.Ok? ==> (r.value.proxied <==> decoded.value.proxied == Some(true))
    ensures decoded.None? ==> r == Err(MalformedProperties)
    ensures decoded.Some? && !Given(decoded.value.recordType) ==> r == Err(MissingRecordType)
    ensures decoded.Some? && Given(decoded.value.recordType) && !Given(decoded.value.name) ==> r == Err(MissingName)
    ensures decoded.Some? && Given(decoded.value.recordType) && Given(decoded.value.name) && !Given(decoded.value.content)
            ==> r == Err(MissingContent)
  {
    match decoded
    case None => Err(MalformedProperties)
    case Some(raw) =>
      var props := Decode(raw);
      if props.recordType == "" then Err(MissingRecordType)
      else if props.name == "" then Err(MissingName)
      else if props.content == "" then Err(MissingContent)
      else Ok(props)
  }

  /** The fields propertiesToJSON writes: every plain field, and priority and
      comment only when present. */
  function Serialize(props: Properties): RawProperties {
    RawProperties(
      Some(props.recordType), Some(props.name), Some(props.content),
      Some(props.ttl), Some(props.proxied), props.priority, props.comment)
  }

  /** Serialized properties parse back to themselves whenever the three
      required fields are non-empty. */
  lemma ParseSerialized(props: Properties)
    requires props.recordType != "" && props.name != "" && props.content != ""
    ensures ParseProperties(Some(Serialize(props))) == Ok(props)
  {
  }

  // ---------------------------------------------------------------------------
  // Validation
  // ---------------------------------------------------------------------------

  const SupportedRecordTypes: set<string> := {"A", "AAAA", "CNAME", "MX", "TXT", "NS", "CAA", "SRV"}

  const ProxyableRecordTypes: set<string> := {"A", "AAAA", "CNAME"}

  const PriorityRequiredTypes: set<string> := {"MX", "SRV"}

  datatype ValidationError = TypeNotSupported(recordType: string) | PriorityRequired(recordType: string) | ProxiedNotAllowed

  /** The per-type rules on a record: a supported type, a priority on the
      types that need one, and the proxied flag only on proxyable types. */
  predicate ObeysTypeRules(recordType: string, proxied: bool, hasPriority: bool) {
    && recordType in SupportedRecordTypes
    && (recordType in PriorityRequiredTypes ==> hasPriority)
    && (proxied ==> recordType in ProxyableRecordTypes)
  }

  /** validateProperties: the three rules on a record type, checked in order. */
  function ValidateProperties(props: Properties): (r: Outcome<ValidationError>)
    ensures r.Pass? <==> ObeysTypeRules(props.recordType, props.proxied, props.priority.Some?)
    ensures props.recordType !in SupportedRecordTypes ==> r == Fail(TypeNotSupported(props.recordType))
    ensures props.recordType in SupportedRecordTypes && props.recordType in PriorityRequiredTypes && props.priority.None?
            ==> r == Fail(PriorityRequired(props.recordType))
    ensures r == Fail(ProxiedNotAllowed) <==> && props.recordType in SupportedRecordTypes
                                              && (props.recordType in PriorityRequiredTypes ==> props.priority.Some?)
                                              && props.proxied && props.recordType !in ProxyableRecordTypes
  {
    if props.recordType !in SupportedRecordTypes then Fail(TypeNotSupported(props.recordType))
    else if props.recordType in PriorityRequiredTypes && props.priority.None? then Fail(PriorityRequired(props.recordType))
    else if props.proxied && props.recordType !in ProxyableRecordTypes then Fail(ProxiedNotAllowed)
    else Pass
  }

  // ---------------------------------------------------------------------------
  // Provider parameters
  // ---------------------------------------------------------------------------

  newtype uint16 = x: int | 0 <= x < 0x1_0000

  /** Go's uint16(x) conversion: the low 16 bits of the two's complement. */
  function ToUint16(x: int): uint16 {
    (x % 0x1_0000) as uint16
  }

  /** Parameters of the provider's create call; a missing comment is sent as "". */
  datatype CreateParams = CreateParams(
    recordType: string,
    name: string,
    content: string,
    ttl: int,
    proxied: bool,
    priority: Option<uint16>,
    comment: string)

  /** Parameters of the provider's update call; the comment is passed as it is. */
  datatype UpdateParams = UpdateParams(
    id: string,
    recordType: string,
    name: string,
    content: string,
    ttl: int,
    proxied: bool,
    priority: Option<uint16>,
    comment: Option<string>)

  /** The priority as sent: congruent to the property modulo 2^16, and equal
      to it whenever it fits in 16 bits. */
  function SentPriority(priority: Option<int>): (r: Option<uint16>)
    ensures r.Some? <==> priority.Some?
    ensures r.Some? ==> (r.value as int - priority.value) % 0x1_0000 == 0
    ensures r.Some? && 0 <= priority.value < 0x1_0000 ==> r.value as int == priority.value
  {
    match priority
    case None => None
    case Some(p) => Some(ToUint16(p))
  }

  /** propsToCreateParams */
  function ToCreateParams(props: Properties): (r: CreateParams)
    ensures && r.recordType == props.recordType && r.name == props.name && r.content == props.content
            && r.ttl == props.ttl && r.proxied == props.proxied
    ensures r.priority == SentPriority(props.priority)
    ensures props.comment.Some? ==> r.comment == props.comment.value
    ensures props.comment.None? ==> r.comment == ""
  {
    CreateParams(
      props.recordType, props.name, props.content, props.ttl, props.proxied,
      SentPriority(props.priority), props.comment.GetOr(""))
  }

  /** propsToUpdateParams */
  function ToUpdateParams(props: Properties, recordId: string): (r: UpdateParams)
    ensures r.id == recordId
    ensures && r.recordType == props.recordType && r.name == props.name && r.content == props.content
            && r.ttl == props.ttl && r.proxied == props.proxied
    ensures r.priority == SentPriority(props.priority)
    ensures r.comment == props.comment
  {
    UpdateParams(
      recordId, props.recordType, props.name, props.content, props.ttl, props.proxied,
      SentPriority(props.priority), props.comment)
  }

  /** Create and update parameters for the same properties carry the same
      record; they differ only in the update's ID and in the update passing
      an absent comment as absent where create sends "". */
  lemma CreateAndUpdateAgree(props: Properties, recordId: string)
    ensures var c, u := ToCreateParams(props), ToUpdateParams(props, recordId);
            && c.recordType == u.recordType && c.name == u.name && c.content == u.content
            && c.ttl == u.ttl && c.proxied == u.proxied && c.priority == u.priority
            && c.comment == u.comment.GetOr("")
  {
  }

  // ---------------------------------------------------------------------------
  // Provider records back to properties
  // ---------------------------------------------------------------------------

  /** A record as the provider SDK returns it: a fully-qualified name, an
      optional proxied flag and an optional 16-bit priority. */
  datatype SdkRecord = SdkRecord(
    id: string,
    recordType: string,
    name: string,
    content: string,
    ttl: int,
    proxied: Option<bool>,
    priority: Option<uint16>,
    comment: string)

  /** The short name recordToProperties derives: with a non-empty zone it
      strips one ".zone" suffix and only then turns the zone itself into "@";
      with an empty zone it leaves the name alone. */
  function ShortName(fqdn: string, zoneName: string): string {
    if zoneName == "" then fqdn
    else
      var trimmed := TrimSuffix(fqdn, "." + zoneName);
      if trimmed == zoneName then "@" else trimmed
  }

  /** recordToProperties */
  function RecordToProperties(record: SdkRecord, zoneName: string): (r: Properties)
    ensures r.name == ShortName(record.name, zoneName)
    ensures r.recordType == record.recordType && r.content == record.content && r.ttl == record.ttl
    ensures r.proxied <==> record.proxied == Some(true)
    ensures r.priority.Some? <==> record.priority.Some?
    ensures r.priority.Some? ==> r.priority.value == record.priority.value as int
    ensures r.comment.None? <==> record.comment == ""
    ensures r.comment.Some? ==> r.comment.value == record.comment
  {
    Properties(
      record.recordType,
      ShortName(record.name, zoneName),
      record.content,
      record.ttl,
      record.proxied == Some(true),
      match record.priority case Some(p) => Some(p as int) case None => None,
      if record.comment != "" then Some(record.comment) else None)
  }

  lemma ShortNameWithoutZone(fqdn: string)
    ensures ShortName(fqdn, "") == fqdn
  {
  }

  lemma ShortNameOfApex(zone: string)
    requires zone != ""
    ensures ShortName(zone, zone) == "@"
  {
    assert !HasSuffix(zone, "." + zone);
  }

  /** A host under a non-empty zone loses the zone; a host spelled like the
      zone itself is taken for the apex. */
  lemma ShortNameStripsZone(host: string, zone: string)
    requires zone != ""
    ensures ShortName(host + "." + zone, zone) == if host == zone then "@" else host
  {
    assert host + "." + zone == host + ("." + zone);
    TrimAppended(host, "." + zone);
  }

  lemma ShortNameLeavesForeignNames(fqdn: string, zone: string)
    requires zone != "" && fqdn != zone && !HasSuffix(fqdn, "." + zone)
    ensures ShortName(fqdn, zone) == fqdn
  {
  }

  /** recordToProperties inverts the provider's qualification of a short
      name exactly when the zone is non-empty and the short name is "@" or
      differs from the zone. */
  lemma ShortNameOfQualified(short: string, zone: string)
    ensures ShortName(Qualify(short, zone), zone) == short <==> zone != "" && (short == "@" || short != zone)
  {
    if zone == "" {
      if short != "@" {
        assert |Qualify(short, zone)| == |short| + 1;
      }
    } else if short == "@" {
      ShortNameOfApex(zone);
    } else {
      ShortNameStripsZone(short, zone);
    }
  }

  /** The record a provider that keeps a create request as sent returns for
      it under `id`: the name qualified in the zone, the rest unchanged. */
  function Stored(sent: CreateParams, id: string, zone: string): SdkRecord {
    SdkRecord(id, sent.recordType, Qualify(sent.name, zone), sent.content,
              sent.ttl, Some(sent.proxied), sent.priority, sent.comment)
  }

  /** The properties for which a create followed by a read is lossless: the
      zone is known, the name is "@" or not spelled like the zone, the
      comment is not an empty string, and any priority fits in 16 bits. */
  predicate ReadsBack(props: Properties, zone: string) {
    && zone != ""
    && (props.name == "@" || props.name != zone)
    && props.comment != Some("")
    && (props.priority.Some? ==> 0 <= props.priority.value < 0x1_0000)
  }

  /** Properties sent with create come back unchanged from a provider that
      stores them as sent exactly when ReadsBack holds. */
  lemma CreatedPropertiesReadBack(props: Properties, id: string, zone: string)
    ensures RecordToProperties(Stored(ToCreateParams(props), id, zone), zone) == props <==> ReadsBack(props, zone)
  {
    var back := RecordToProperties(Stored(ToCreateParams(props), id, zone), zone);
    ShortNameOfQualified(props.name, zone);
    if props.priority.Some? {
      var p := props.priority.value;
      assert back.priority == Some(ToUint16(p) as int);
      if !(0 <= p < 0x1_0000) {
        assert back.priority != props.priority;
      }
    }
    if props.comment == Some("") {
      assert back.comment.None?;
    }
  }

  // ---------------------------------------------------------------------------
  // Errors
  // ---------------------------------------------------------------------------

  /** isNotFoundError: a provider error whose message mentions "not found",
      "does not exist" or "404". */
  function IsNotFoundError(err: Option<ProviderError>): (r: bool)
    ensures err.None? ==> !r
    ensures err.Some? ==> (r <==> || (exists i :: OccursAt(err.value.message, "not found", i))
                                  || (exists i :: OccursAt(err.value.message, "does not exist", i))
                                  || (exists i :: OccursAt(err.value.message, "404", i)))
  {
    match err
    case None => false
    case Some(e) =>
      Contains(e.message, "not found") || Contains(e.message, "does not exist") || Contains(e.message, "404")
  }
}
