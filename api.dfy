/** The Fgtech custom resource: only the parts of api/v1 the controllers read. */
module Api {
  import opened Wrappers

  /** Go's int64 and int32. */
  type Int64 = x: int | -0x8000_0000_0000_0000 <= x < 0x8000_0000_0000_0000
  type Int32 = x: int | -0x8000_0000 <= x < 0x8000_0000

  /** FgtechSpec: version and image are required; the rest are optional overrides. */
  datatype FgtechSpec = FgtechSpec(
    version: string,
    image: string,
    extraPath: string,            // route prefix, "" when omitted
    ttlSeconds: Option<Int64>,    // nil pointer when omitted
    serviceAccount: string)       // "" when omitted

  /** A Fgtech instance as listed by the store: its identity, its creation time
      (whole seconds) and its spec. */
  datatype Fgtech = Fgtech(name: string, namespace: string, creationTimestamp: int, spec: FgtechSpec)
}
