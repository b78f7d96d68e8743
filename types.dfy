/** The record the link parser returns to its callers. */
module LocationTypes {
  import opened Wrappers

  /** A location read from a shared link: the link as received, the
      coordinate pair in degrees, and the optional label and address. */
  datatype ParsedLocation = ParsedLocation(
    originalUrl: string,
    latitude: real,
    longitude: real,
    placeName: Option<string>,
    address: Option<string>)
}
