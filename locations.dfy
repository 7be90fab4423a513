/** The part of the browser location that the storefront's routing rules read. */
module Locations {

  /** A browser location: the path and the query string, already parsed into
      name/value pairs (`URLSearchParams.get` gives the first value of a name). */
  datatype Location = Location(pathname: string, query: map<string, string>)

  /** `searchParams.get(name)`, with an absent parameter read as the empty string
      (both are falsy, and every rule that reads the query treats them alike). */
  function QueryParam(loc: Location, name: string): string {
    if name in loc.query then loc.query[name] else ""
  }
}
