/**
 * One record of the events feed (the JSON objects the events API returns),
 * shared by the current bot and the two older scripts.
 */
module Feed {
  import opened Wrappers

  /** A JSON scalar from the feed: the text an f-string prints for it and its Python truthiness. */
  datatype Scalar = Scalar(text: string, truthy: bool)

  /** The `venue` sub-object; every field may be JSON null. */
  datatype Venue = Venue(
    name: Option<string>,
    address: Option<string>,
    city: Option<string>,
    state: Option<string>,
    zip: Option<string>,
    lat: Option<Scalar>,
    lon: Option<Scalar>)

  /**
   * A raw event. `time` is the ISO-8601 `time` field parsed to an instant
   * (seconds on the same scale as Week.DayStart).
   */
  datatype RawEvent = RawEvent(
    uuid: string,
    eventName: string,
    groupName: string,
    description: string,
    venue: Option<Venue>,
    time: int,
    url: string,
    status: string)

  /** What an f-string prints for a value that may be None. */
  function Render(v: Option<string>): string
  {
    match v
    case None => "None"
    case Some(s) => s
  }

  function RenderScalar(v: Option<Scalar>): string
  {
    match v
    case None => "None"
    case Some(x) => x.text
  }

  /** `x is not None and x`. */
  predicate Truthy(v: Option<Scalar>) { v.Some? && v.value.truthy }

  /** "name at address city, state zip", every part as an f-string prints it. */
  function FullAddress(v: Venue): string
  {
    Render(v.name) + " at " + Render(v.address) + " " + Render(v.city) + ", "
      + Render(v.state) + " " + Render(v.zip)
  }
}
