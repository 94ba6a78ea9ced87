/** The shapes the dashboard exchanges with the Cloudflare API (lib/types.ts),
    plus the small option and result wrappers the rest of the model uses. */
module Types {

  datatype Option<T> = None | Some(value: T)

  datatype Result<T, E> = Success(value: T) | Failure(error: E)

  /** One entry of an envelope's `errors` (or `messages`) list. */
  datatype ApiMessage = ApiMessage(code: int, message: string)

  /** The response envelope every upstream call answers with (`CloudflareResponse<T>`).
      When `success` is false, `result` carries no meaning. The `messages` list is
      never read by the dashboard and is not modelled. */
  datatype Envelope<T> = Envelope(success: bool, result: T, errors: seq<ApiMessage>)

  datatype ZoneOwner = ZoneOwner(id: string, ownerType: string, email: string)

  datatype ZoneAccount = ZoneAccount(id: string, name: string)

  datatype ZonePlan = ZonePlan(
    id: string, name: string, price: real, currency: string, frequency: string,
    isSubscribed: bool, canSubscribe: bool, legacyId: string, legacyDiscount: bool,
    externallyManaged: bool)

  /** A DNS zone as the upstream API describes it. */
  datatype Zone = Zone(
    id: string,
    name: string,
    status: string,
    paused: bool,
    zoneType: string,
    developmentMode: int,
    nameServers: seq<string>,
    originalNameServers: seq<string>,
    originalRegistrar: string,
    originalDnshost: string,
    createdOn: string,
    modifiedOn: string,
    activatedOn: string,
    owner: ZoneOwner,
    account: ZoneAccount,
    permissions: seq<string>,
    plan: ZonePlan)

  /** The closed set of record types (`DnsRecordType`), in declaration order. */
  datatype DnsRecordType =
    | A | AAAA | CNAME | TXT | MX | NS | SRV | CAA
    | CERT | DNSKEY | DS | NAPTR | SMIMEA | SSHFP | SVCB
    | TLSA | URI | PTR | HTTPS

  /** A JavaScript number as the record forms produce it: `parseInt` of the
      input text, which is either an integer or NaN. */
  datatype Num = Int(i: int) | NaN

  /** The structured `data` object of an SRV record. */
  datatype SrvData = SrvData(
    service: string, proto: string, name: string,
    priority: Num, weight: Num, port: Num, target: string)

  /** A DNS record as the upstream API returns it. The free-form `meta` object is
      not modelled; `data` is modelled by its SRV shape, the only one the
      dashboard writes. */
  datatype DnsRecord = DnsRecord(
    id: string,
    zoneId: string,
    zoneName: string,
    name: string,
    recordType: DnsRecordType,
    content: string,
    proxiable: bool,
    proxied: bool,
    ttl: int,
    locked: bool,
    comment: Option<string>,
    tags: seq<string>,
    createdOn: string,
    modifiedOn: string,
    priority: Option<int>,
    data: Option<SrvData>)
}
