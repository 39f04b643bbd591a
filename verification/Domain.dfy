/** The records the SDK passes around: JSON values, certificate chains and licences. */
module Domain {
  import opened Wrappers
  import opened Time

  // A number is the value its floating-point reading has; how a digit string rounds to it is
  // the JSON library's business.
  datatype Json =
    | Null
    | Bool(b: bool)
    | Num(r: real)
    | Str(s: string)
    | Arr(items: seq<Json>)
    | Obj(fields: map<string, Json>)

  type Claims = map<string, Json>

  datatype CertChain = CertChain(submaster: string, project: string, daily: string)

  // What one cache file holds.
  datatype Record = Record(token: string, chain: CertChain)

  datatype LicenseType = Perpetual | Expiring | Other(name: string)

  datatype License = License(
    key: string,
    alias: string,
    activationId: string,
    projectId: string,
    machineId: string,
    issuedAt: Instant,
    expiresAt: Instant,
    gracePeriod: Duration,
    licenseType: LicenseType,
    metadata: map<string, string>,
    entitlements: Option<Claims>)
}
