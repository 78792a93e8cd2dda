/**
 * The advisor flags the services raise and the estimate pipeline collects. Each service builds
 * its flag as a dictionary; the keys a flag does not carry are "" (or empty) here.
 */
module Flags {

  /** The `type` key of a flag. */
  datatype FlagType = Red | Warning | Yellow | Info

  datatype Flag = Flag(
    kind: FlagType,
    title: string,
    message: string,
    action: string,
    details: string,
    options: seq<string>)

  /** The warning sign and variation selector that open every flag title. */
  const WarningSign: string := "\U{26A0}\U{FE0F}"
}
