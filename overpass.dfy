/** The records of the geographic data source's JSON answer, as far as the
    submit handler reads them. A field that the JSON leaves out is `None`. */
module Overpass {

  datatype Option<+T> = None | Some(value: T)

  /** The `center` object the data source adds to an area element. */
  datatype Center = Center(lat: Option<real>, lon: Option<real>)

  /** One entry of the answer's `elements` list. `kind` is the JSON field
      `type` ("node" for a point, "relation" for an area); `tags` maps tag
      keys to tag values. */
  datatype Element = Element(
    kind: string,
    lat: Option<real>,
    lon: Option<real>,
    center: Option<Center>,
    tags: Option<map<string, string>>)

  /** What the fetch of a city's elements came to: the request or the JSON
      decoding threw (with the exception's message), the status was not ok,
      or the JSON was read (its `elements` field may be missing). */
  datatype Fetch = Rejected(message: string) | NotOk | Parsed(elements: Option<seq<Element>>)
}
