/** The DNS record types the adapter knows by name, as a closed enumeration
    with its wire spelling. */
module RecordTypes {
  import opened Wrappers

  datatype RecordType = A | AAAA | CNAME | MX | TXT | NS | CAA | SRV

  /** The type's name as it appears in properties and provider payloads. */
  function Code(t: RecordType): string {
    match t
    case A => "A"
    case AAAA => "AAAA"
    case CNAME => "CNAME"
    case MX => "MX"
    case TXT => "TXT"
    case NS => "NS"
    case CAA => "CAA"
    case SRV => "SRV"
  }

  /** The record type spelled `s`, if any; the match is exact and case-sensitive. */
  function Parse(s: string): (r: Option<RecordType>)
    ensures r.Some? ==> Code(r.value) == s
  {
    if s == "A" then Some(A)
    else if s == "AAAA" then Some(AAAA)
    else if s == "CNAME" then Some(CNAME)
    else if s == "MX" then Some(MX)
    else if s == "TXT" then Some(TXT)
    else if s == "NS" then Some(NS)
    else if s == "CAA" then Some(CAA)
    else if s == "SRV" then Some(SRV)
    else None
  }

  /** Parsing and spelling are inverse: a string names a type exactly when it
      is that type's spelling. */
  lemma ParseIsInverseOfCode(s: string, t: RecordType)
    ensures Parse(s) == Some(t) <==> Code(t) == s
  {
  }
}
