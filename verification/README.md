# Cloudflare DNS record adapter: a Dafny model

This project models the resource plugin that lets the formae orchestrator
manage Cloudflare DNS records declaratively. The plugin is a stateless
translator. It parses a target configuration and a record's properties,
validates them against per-type rules, and maps them to the provider's request
parameters. It maps provider records back to properties under the zone's name
and classifies provider errors into the host's error codes. It also pages
through a zone's records for discovery.

The model is written as pure functions. Every provider call is replaced by the
answer it returns, which becomes a parameter. So are the zone-name lookup and
the success of building the provider client. Each operation that talks to the
provider also returns the request it would send (`None` when it stops before
sending one), so contracts can say what is sent as well as what is reported.
JSON decoding is abstracted: a decoded payload is `Some`, a malformed one is
`None`, and a field missing from the payload is `None`.

Modules:

- `Wrappers`: `Option`, `Result` and `Outcome`.
- `Resource`: operations, statuses, error codes and result records of the host.
- `Errors`: the status-code classifier of `pkg/cloudflare/errors.go`.
- `Text`: the parts of Go's `strings`, `strconv` and `fmt` that the adapter
  relies on (suffix trimming, substring search, decimal integers).
- `RecordTypes`: the closed set of record type names.
- `Zones`: how the provider spells a short name, fully qualified in a zone.
- `Client`: the client wrapper of `pkg/cloudflare/client.go`. This covers the
  per-type request bodies, response mapping, list paging and `NormalizeName`.
- `Plugin`: the helpers of `cloudflare-dns.go`. These are configuration and
  property parsing, validation, the create/update parameter mapping,
  `recordToProperties` and `isNotFoundError`.
- `Crud`: the six operations Create, Read, Update, Delete, Status and List.
- `Naming`: how the two name normalisers of the repository compare.
- `Paging`: what a caller sees when following next-page tokens to the end,
  for both list implementations, against a provider holding a fixed ordered
  set of records.

## Model

| member | source | states |
|---|---|---|
| `Errors.MapErrorCode` | pkg/cloudflare/errors.go:15-39 | No error gives the empty code. An API error with status 400, 401, 403, 404, 429 or 500/502/503/504 gives that status's code. Anything else gives InternalFailure. |
| `Errors.IsNotFound` | pkg/cloudflare/errors.go:42-53 | True exactly for an API error whose status is 404. |
| `Errors.IsRateLimited` | pkg/cloudflare/errors.go:56-67 | True exactly for an API error whose status is 429. |
| `Errors.ServiceErrorStatuses` | pkg/cloudflare/errors.go:33-38 | An error maps to ServiceInternalError exactly when its status is one of 500, 502, 503, 504. Other 5xx statuses, such as 501, are InternalFailure. |
| `Errors.NotFoundAgreesWithMapping` | pkg/cloudflare/errors.go:29-30 | IsNotFound holds exactly when the classifier answers NotFound. |
| `Errors.RateLimitAgreesWithMapping` | pkg/cloudflare/errors.go:31-32 | IsRateLimited holds exactly when the classifier answers Throttling. |
| `Text.TrimSuffix` | cloudflare-dns.go:190 | With the suffix present, the result followed by the suffix is the input. Otherwise the input is unchanged. |
| `Text.Contains` | cloudflare-dns.go:244-246 | True exactly when the pattern occurs at some index of the text. |
| `Text.FormatNat` | pkg/cloudflare/client.go:257 | A non-empty all-digit numeral denoting the number, with no leading zero. |
| `Text.ScanInt` | cloudflare-dns.go:616-619 | The scan skips leading blanks (fmt's white space other than newline), then takes an optional sign and the run of plain digits after it. It succeeds exactly when that run is non-empty and its value under the sign fits in 64 bits, and then yields that value. Text after the digits is ignored. |
| `Text.ScanIntReads` | cloudflare-dns.go:618 | Blanks, an optional sign, digits and then a non-digit scan to the digits' value under the sign, whatever the leading zeros. They scan to nothing when that value is outside the 64-bit range. |
| `Text.ScanFormatted` | cloudflare-dns.go:645 | Scanning a rendered 64-bit integer gives the integer back, whatever non-digit text follows it. So the adapter's next-page token reads back as its page. |
| `Text.ParseDecimal` | pkg/cloudflare/client.go:238 | The parse succeeds exactly when the text after an optional sign is a non-empty run of digits. It then yields their value, negated after a minus sign. |
| `Text.ParseDecimalReads` | pkg/cloudflare/client.go:238-239 | An optional sign followed by digits parses to the digits' value under the sign, whatever the leading zeros. |
| `Text.ParseFormatted` | pkg/cloudflare/client.go:257 | Parsing a rendered natural number gives it back. So the client's next-page token reads back as its page. |
| `RecordTypes.Parse` | pkg/cloudflare/client.go:58-116 | A recognised type name is that type's exact, case-sensitive spelling. |
| `RecordTypes.ParseIsInverseOfCode` | pkg/cloudflare/client.go:58-116 | A string parses to a type exactly when it is that type's spelling. |
| `Client.BuildBody` | pkg/cloudflare/client.go:57-117 | A body is built exactly for A, AAAA, CNAME, TXT, MX and NS; CAA and SRV are refused as unsupported. Name, content, TTL and comment are carried over. Proxied is carried only by A/AAAA/CNAME. Priority is carried only by MX, defaulting to 10. |
| `Client.CreateRecord` | pkg/cloudflare/client.go:52-125 | A request is sent exactly for a supported type, and it holds the record's zone and body. A provider error is passed on. A reply is converted under the record's zone. |
| `Client.UpdateRecord` | pkg/cloudflare/client.go:140-213 | As CreateRecord, with the request addressed to the record's ID. |
| `Client.GetRecord` | pkg/cloudflare/client.go:128-137 | The request names the zone and the record. A provider error is passed on, and a reply is converted under the zone asked for. |
| `Client.FetchedRecordMatchesCreated` | pkg/cloudflare/client.go:52-137 | Fetching a record that CreateRecord sent, from a provider that keeps the body as sent, gives the same record CreateRecord returned, with the new ID and the caller's zone. |
| `Client.RecordFromResponse` | pkg/cloudflare/client.go:265-284 | Every field is copied and the zone ID is taken from the caller. A zero priority reads as absent, and any other priority as present. |
| `Client.RecordFromListItem` | pkg/cloudflare/client.go:287-306 | A list item converts exactly as a single response does. |
| `Client.ListItems` | pkg/cloudflare/client.go:249-252 | One record per item, in order, each converted as a list item. |
| `Client.RequestedPage` | pkg/cloudflare/client.go:237-242 | A page is requested exactly when the token reads as a number of at least 1. |
| `Client.ListRequestFor` | pkg/cloudflare/client.go:225-242 | The request carries the zone and the token's page. Its page size is the caller's when positive and 100 otherwise. |
| `Client.ListRecords` | pkg/cloudflare/client.go:224-262 | A provider error is passed on. Otherwise all items are converted, and a next token exists exactly when the page came back full. That token is the reported page plus one. |
| `Client.NormalizeApex` | pkg/cloudflare/client.go:323-326 | The zone itself normalises to "@". |
| `Client.NormalizeStripsZone` | pkg/cloudflare/client.go:328-332 | A host under the zone normalises to the host, even a host spelled like the zone. |
| `Client.NormalizeLeavesForeignNames` | pkg/cloudflare/client.go:334-335 | A name that is neither the zone nor under it is unchanged. |
| `Client.NormalizeQualified` | pkg/cloudflare/client.go:322-336 | Normalising undoes the provider's qualification for every short name and every zone. |
| `Client.SentRecordReadsBack` | pkg/cloudflare/client.go:58-124 | A record sent through CreateRecord reads back with its shared fields intact, from a provider that stores the body as sent. Proxied survives only on A/AAAA/CNAME. Priority survives only on MX, where a missing one returns as 10 and a zero one returns absent. |
| `Plugin.ParseTargetConfig` | cloudflare-dns.go:74-88 | Accepted exactly when both the API token and the zone ID are non-empty. Malformed JSON, a missing token and a missing zone ID are each reported, in that order. |
| `Plugin.ParseTargetConfigIsIdempotent` | cloudflare-dns.go:74-88 | An accepted configuration, parsed again, is accepted unchanged. |
| `Plugin.ParseProperties` | cloudflare-dns.go:91-114 | Accepted exactly when record type, name and content are non-empty, and the first missing one is reported. Fields are copied, TTL defaults to 1 and proxied to false. |
| `Plugin.ParseSerialized` | cloudflare-dns.go:33-42 | Properties written out field by field parse back to themselves when the three required fields are non-empty. |
| `Plugin.ValidateProperties` | cloudflare-dns.go:117-134 | Passes exactly when the type is supported, MX/SRV carry a priority, and only A/AAAA/CNAME are proxied. Each failure is reported in the source's order. |
| `Plugin.SentPriority` | cloudflare-dns.go:151-154 | A priority is sent exactly when one is given. It is congruent to it modulo 2^16, and equal to it when it fits in 16 bits. |
| `Plugin.ToCreateParams` | cloudflare-dns.go:142-161 | Every field is copied, the priority is cast to 16 bits, and a missing comment is sent as "". |
| `Plugin.ToUpdateParams` | cloudflare-dns.go:164-181 | Every field is copied with the record ID, the priority is cast to 16 bits, and the comment is passed as is. |
| `Plugin.CreateAndUpdateAgree` | cloudflare-dns.go:142-181 | Create and update parameters for the same properties describe the same record. They differ only in the ID and in how an absent comment is sent. |
| `Plugin.RecordToProperties` | cloudflare-dns.go:185-218 | Type, content and TTL are copied and the name is shortened under the zone. Proxied is true only when the flag is present and set. The priority is widened from 16 bits, and an empty comment reads as absent. |
| `Plugin.ShortNameWithoutZone` | cloudflare-dns.go:188 | With an empty zone the name is left alone. |
| `Plugin.ShortNameOfApex` | cloudflare-dns.go:191-194 | The zone itself becomes "@". |
| `Plugin.ShortNameStripsZone` | cloudflare-dns.go:189-194 | A host under a non-empty zone loses the zone suffix, and a host spelled like the zone is taken for the apex. |
| `Plugin.ShortNameLeavesForeignNames` | cloudflare-dns.go:187-195 | A name that is neither the zone nor under it is unchanged. |
| `Plugin.ShortNameOfQualified` | cloudflare-dns.go:186-195 | Shortening undoes the provider's qualification exactly when the zone is non-empty and the short name is "@" or differs from the zone. |
| `Plugin.CreatedPropertiesReadBack` | cloudflare-dns.go:142-218 | Properties sent on create come back unchanged from a provider that stores them as sent, with the name qualified in the zone. This holds exactly when the zone is non-empty, the name is "@" or differs from the zone, the comment is not an empty string, and any priority fits in 16 bits. |
| `Plugin.IsNotFoundError` | cloudflare-dns.go:239-247 | No error is never not-found. An error is not-found exactly when its message contains "not found", "does not exist" or "404". |
| `Crud.CheckInput` | cloudflare-dns.go:304-340 | The input is accepted exactly when the configuration parses and the properties parse and validate. Any rejection is InvalidRequest. |
| `Crud.Create` | cloudflare-dns.go:303-376 | A create call is sent exactly for accepted input with a usable client, and it holds the zone and the mapped parameters. Rejected input is InvalidRequest, and any other failure is InternalFailure. Success happens exactly when the provider creates the record, and it reports that record's ID. |
| `Crud.Update` | cloudflare-dns.go:441-514 | As Create for update parameters, except that success reports the request's own ID. |
| `Crud.UpdateSendsWhatCreateSends` | cloudflare-dns.go:303-514 | Create and Update of the same properties send a request in exactly the same cases, to the same zone, with the same record fields. The update is addressed to the given ID and passes an absent comment as absent where Create sends "". Both report the same status and error code when their provider calls fare alike. |
| `Crud.SentRecordsObeyTypeRules` | cloudflare-dns.go:117-134 | Every record Create or Update sends has a supported type, a priority where MX or SRV needs one, and the proxied flag only on A, AAAA or CNAME. |
| `Crud.Read` | cloudflare-dns.go:379-438 | A bad configuration is InvalidRequest. Properties are returned exactly when client, zone lookup and record lookup all succeed, mapped under the zone's name. A record error whose message reads as not-found is NotFound. Every other failure is InternalFailure. |
| `Crud.CreateThenRead` | cloudflare-dns.go:303-438 | For accepted input, Create sends the mapped parameters and reports the ID the provider assigned. Reading that ID back then returns the created properties exactly when the zone is non-empty, the name is "@" or differs from the zone, the comment is not "", and any priority fits in 16 bits. |
| `Crud.Delete` | cloudflare-dns.go:517-573 | A delete call is sent exactly when the configuration and client are usable. Success happens exactly when the provider deletes the record or reports it not found. A bad configuration is InvalidRequest, and any other failure is InternalFailure. |
| `Crud.DeleteIsIdempotent` | cloudflare-dns.go:546-565 | Deleting a record already gone reports exactly what deleting an existing one does. |
| `Crud.Status` | cloudflare-dns.go:578-586 | Every status check is a success with no error code. |
| `Crud.StartPage` | cloudflare-dns.go:615-619 | The start page is 1 without a token or with an empty one. Otherwise it is what the token scans to: the integer it begins with after leading blanks and an optional sign, with any text after the digits ignored, so "12_" gives 12. It is 1 when no digits follow or the value does not fit in 64 bits. |
| `Crud.StartPageIgnoresTrailingText` | cloudflare-dns.go:615-619 | A token holding a page number of at least 1 and then text that does not start with a digit starts at that page. |
| `Crud.StartPageOfTrailingUnderscore` | cloudflare-dns.go:618 | The token "12_" starts at page 12: the scan does not take "_" as part of the number. |
| `Crud.ListCall` | cloudflare-dns.go:590-628 | A list call is made exactly when the configuration and client are usable. Its page size is the request's when positive and 100 otherwise, and it starts at the token's page. |
| `Crud.NativeIds` | cloudflare-dns.go:636-640 | The records' IDs, in order. |
| `Crud.List` | cloudflare-dns.go:590-653 | Every failure is an empty page without a token. Otherwise the result has the page's IDs, and a token exists exactly when the provider reports a page beyond the current one. That token is the current page plus one. |
| `Naming.NormalisersAgree` | pkg/cloudflare/client.go:322-336 | NormalizeName and the adapter's recordToProperties shortening agree on every name except, with a non-empty zone, the zone written twice. With an empty zone they disagree on the empty name and names ending in a dot. |
| `Naming.NormalisersInvertQualify` | pkg/cloudflare/client.go:322-336 | With a non-empty zone, both normalisers undo qualification for every short name other than the zone's own spelling. |
| `Paging.AdapterListingIsComplete` | cloudflare-dns.go:609-647 | From the first page, following List's tokens yields every record exactly once and in order. It takes as many pages as the provider counts (one empty page for an empty zone), which is the record count over the page size rounded up. It ends on a page without a token. |
| `Paging.AdapterServes` | cloudflare-dns.go:609-647 | For a usable configuration, List asked with the token for page q returns the IDs on page q. It returns a token for page q + 1 exactly when q is below the provider's page count. |
| `Paging.WalkFrom` | cloudflare-dns.go:642-647 | Following the tokens of any list operation that serves the provider's pages from page p on yields the remaining pages and records in order, and then stops. |
| `Paging.AdapterWalkFrom` | cloudflare-dns.go:642-647 | From any page p, following List's tokens yields the remaining pages and records in order and then stops. |
| `Paging.ClientListingIsComplete` | pkg/cloudflare/client.go:229-259 | From the first page, following ListRecords' tokens yields every record exactly once and in order, in one page more than the number of full pages. The last page holds the remainder, so it is empty when the count is a multiple of the page size. |
| `Paging.ClientWalkFrom` | pkg/cloudflare/client.go:254-259 | From any page p, following ListRecords' tokens yields the remaining records in order and stops at the first page that is not full. |

## Left out

- JSON encoding and decoding are abstracted. So is the failure branch of
  `propertiesToJSON` (cloudflare-dns.go:230-236), which cannot fail for these
  plain fields. Read returns the properties record instead of its JSON text.
- Calls to the provider SDK, `getZoneName`, `createCloudflareClient`,
  `NewClient` and its environment lookups become parameters. The client's
  `DeleteRecord` and `GetZoneDomain` hand back the provider's error or the
  zone's name unchanged, so they are not modelled on their own. Crud.Delete
  and Crud.Read take those answers as parameters.
- Status messages are not modelled, nor is the echo of the resource type in
  Read's result. They are free text or plain copies.
- `RateLimit`, `DiscoveryFilters`, `LabelConfig`, the `Plugin` identity and
  `main.go` are constants and wiring with no behaviour to state.
- Contexts, cancellation and concurrency are not modelled. Every operation is
  a single synchronous exchange.
- Paging: the walks are stated against an idealised provider, which serves
  the requested slice of a fixed ordered set of records and counts pages as
  the ceiling of records over page size. A walk takes a fuel bound on the
  number of further calls, and the completeness lemmas supply enough of it.
  They do not show that a real provider behaves like this.
- Text.ParseDecimal: models `strconv.ParseFloat` only on an optional sign
  followed by digits. Fractions, exponents, hexadecimal forms, "inf" and
  "NaN" read as unparseable, and values stay exact rather than rounded to
  float64.
- Client.RequestedPage: inherits the restriction of Text.ParseDecimal. A
  token such as "2.5", which the source would send as a fractional page, is
  modelled as naming no page.
- Client.ListRecords: does not model the 64-bit wrap-around of the reported
  page plus one, or the float64 conversion of the page size and TTL.
- Client.BuildBody: TTL and the MX priority are kept as integers, although
  the SDK carries both as float64 values (pkg/cloudflare/client.go:95-97 and
  183-185 convert the priority). Rounding of very large values is not
  modelled.

## Notes on the code

- The adapter sends a record's short name as given, and the provider
  qualifies it in the zone. `Zones.Qualify` models that qualification, and
  the round-trip lemmas are stated over it.
- The adapter's `recordToProperties` does not undo that qualification for a
  short name spelled like the zone, nor under an empty zone name
  (`Plugin.ShortNameOfQualified`). The client's `NormalizeName` undoes it for
  every short name and every zone (`Client.NormalizeQualified`).
  `Naming.NormalisersAgree` states exactly where the two disagree.
- Create and Update report only the record's native ID, not its properties
  (cloudflare-dns.go:369-375 and 507-513).
- The adapter (`cloudflare-dns.go`) and the client wrapper
  (`pkg/cloudflare/client.go`) use different generations of the provider
  SDK. They page differently: the adapter trusts the provider's page count,
  while the wrapper stops at the first short page. The `Paging` module states
  both.
- The client wrapper builds request bodies only for A, AAAA, CNAME, TXT, MX
  and NS, and refuses CAA and SRV as unsupported (`Client.BuildBody`),
  although the adapter's validation accepts both.
