/** What the handlers take from the JavaScript runtime and the process environment.
    Date formatting, URI encoding and date parsing are opaque: the model receives them
    as functions and only relies on their being functions (same input, same output). */
module Platform {
  import opened Wrappers

  /** A JavaScript `Date`: a time as milliseconds since the epoch, or the Invalid Date
      that parsing an unrecognised string yields. */
  datatype Date = Date(epochMillis: int) | InvalidDate

  /** The message of the RangeError `toISOString` throws on an Invalid Date. */
  const InvalidTimeValue := "Invalid time value"

  /** `toISOString` is consulted only for valid dates; `toLocaleDateString` does not
      throw on an Invalid Date; `parseDate` is `new Date(string)` and may give one. */
  datatype Runtime = Runtime(
    toLocaleDateString: Date -> string,
    toISOString: Date -> string,
    encodeURIComponent: string -> string,
    parseDate: string -> Date)

  /** The two settings the modelled code reads from `process.env`. */
  datatype Environment = Environment(
    appUrl: Option<string>,          // NEXT_PUBLIC_APP_URL
    pinataGateway: Option<string>)   // NEXT_PUBLIC_PINATA_GATEWAY
}
