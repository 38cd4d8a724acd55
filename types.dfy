/** The records of types.ts that the informational functions return. */
module Types {
  import opened Js

  /** A parsed `major.minor.patch` version and the string it came from. */
  datatype NodeVersionInfo = NodeVersionInfo(major: nat, minor: nat, patch: nat, raw: string)

  datatype BrowserInfo = BrowserInfo(name: string, version: string, engine: string)

  /** `platform`, `arch` and `userAgent` hold whatever the host stored, so
      they are JavaScript values; the optional fields are `None` when the
      source leaves them unset. */
  datatype SystemInfo = SystemInfo(
    platform: Value,
    arch: Value,
    nodeVersion: Option<NodeVersionInfo>,
    browserInfo: Option<BrowserInfo>,
    userAgent: Option<Value>)
}
