/**
 * The older bot's event record (c4g/event.py): the location chain, the
 * status label, the block layout and the backup text, and how they differ
 * from the current bot's rules in module Event.
 */
module C4gEvent {
  import opened Wrappers
  import opened Text
  import opened Feed
  import opened Slack
  import Current = Event

  /** `time` is the already formatted time text. */
  datatype Event = Event(
    title: string,
    groupName: string,
    description: string,
    location: Option<string>,
    time: string,
    url: string,
    status: string,
    uuid: string)

  /** Name and address are present; city, state and zip may still be missing. */
  predicate HasNameAndAddress(v: Venue) { v.name.Some? && v.address.Some? }

  /**
   * The location chain both older bots apply to a venue that is present:
   * name and address give the address line; otherwise a truthy latitude
   * gives coordinates (the latitude printed twice); otherwise the name;
   * otherwise the initial empty string.
   */
  function VenueLocation(v: Venue): (r: string)
    ensures HasNameAndAddress(v) ==> r == FullAddress(v)
    ensures !HasNameAndAddress(v) && !Truthy(v.lat) ==> r == (if v.name.Some? then v.name.value else "")
  {
    if HasNameAndAddress(v) then FullAddress(v)
    else if Truthy(v.lat) then "lat/long: " + RenderScalar(v.lat) + ", " + RenderScalar(v.lat)
    else if v.name.Some? then v.name.value
    else ""
  }

  /** The location of from_event_json: None exactly when the venue is None. */
  function Location(venue: Option<Venue>): (r: Option<string>)
    ensures r.None? <==> venue.None?
  {
    match venue
    case None => None
    case Some(v) => Some(VenueLocation(v))
  }

  /**
   * Event.from_event_json. The status labels are those of the current bot's
   * print_status; the time is formatted by `formatTime`.
   */
  function FromEventJson(raw: RawEvent, formatTime: int -> string): (e: Event)
    ensures e.location.None? <==> raw.venue.None?
    ensures e.status == Current.PrintStatus(raw.status) && e.uuid == raw.uuid
  {
    Event(raw.eventName, raw.groupName, raw.description, Location(raw.venue),
          formatTime(raw.time), raw.url, Current.PrintStatus(raw.status), raw.uuid)
  }

  /** create_slack_message: seven blocks; a missing location shows "No location". */
  function CreateSlackMessage(e: Event, quote: string -> string): (r: seq<Block>)
    ensures |r| == 7 && r[0] == HeaderBlock(e.title) && r[3] == Divider
    ensures r[5].Section? && |r[5].fields| == 2
    ensures r[5].fields[1] == "No location" <==> e.location.None?
  {
    [ HeaderBlock(e.title),
      Section(None, ["By " + e.groupName, "<" + e.url + "|*Link* :link:>"]),
      Section(Some(e.description), []),
      Divider,
      Section(None, ["*Status*", e.status]),
      Section(None, ["*Location*", Current.GetLocationUrl(e.location, quote)]),
      Section(None, ["*Time*", e.time]) ]
  }

  /** The lines of create_backup_message_text, in their order. */
  function BackupLines(e: Event): seq<string>
  {
    [ "Name: " + e.title,
      "Link: " + e.url,
      "Description: " + e.description,
      "Status: " + e.status,
      "Location: " + Render(e.location),
      "Time: " + e.time ]
  }

  /** create_backup_message_text. */
  function CreateBackupMessageText(e: Event): (r: string)
    ensures IsPrefix("Name: " + e.title + "\n", r)
  {
    "Name: " + e.title + "\n"
      + ("Link: " + e.url) + "\n"
      + ("Description: " + e.description) + "\n"
      + ("Status: " + e.status) + "\n"
      + ("Location: " + Render(e.location)) + "\n"
      + ("Time: " + e.time)
  }

  // ---------------------------------------------------------------------
  // Properties
  // ---------------------------------------------------------------------

  /**
   * The backup text splits back into exactly the six fields in the order
   * Name, Link, Description, Status, Location, Time, provided no field
   * itself holds a newline.
   */
  lemma {:induction false} BackupTextFieldOrder(e: Event)
    requires NoNewline(e.title) && NoNewline(e.url) && NoNewline(e.description)
    requires NoNewline(e.status) && NoNewline(Render(e.location)) && NoNewline(e.time)
    ensures SplitLines(CreateBackupMessageText(e)) == BackupLines(e)
  {
    var ls := BackupLines(e);
    Current.JoinSixLines(ls[0], ls[1], ls[2], ls[3], ls[4], ls[5]);
    NoNewlineConcat("Name: ", e.title);
    NoNewlineConcat("Link: ", e.url);
    NoNewlineConcat("Description: ", e.description);
    NoNewlineConcat("Status: ", e.status);
    NoNewlineConcat("Location: ", Render(e.location));
    NoNewlineConcat("Time: ", e.time);
    SplitJoinLines(ls);
  }

  /**
   * A missing venue: the blocks say "No location" while the backup text
   * prints the missing value itself, "Location: None".
   */
  lemma MissingVenueRendering(raw: RawEvent, formatTime: int -> string, quote: string -> string)
    requires raw.venue.None?
    ensures var e := FromEventJson(raw, formatTime);
            CreateSlackMessage(e, quote)[5] == Section(None, ["*Location*", "No location"])
            && BackupLines(e)[4] == "Location: None"
  {
  }

  /** Name and address beat the coordinates, whatever city, state and zip are. */
  lemma NameAndAddressWin(v: Venue, lat: Option<Scalar>, lon: Option<Scalar>)
    requires HasNameAndAddress(v)
    ensures VenueLocation(v.(lat := lat, lon := lon)) == VenueLocation(v) == FullAddress(v)
  {
  }

  /** On a complete address the older chain and the current parse_location agree. */
  lemma AgreesWithCurrentOnFullAddress(v: Venue)
    requires Current.HasFullAddress(v)
    ensures Location(Some(v)) == Current.ParseLocation(Some(v))
  {
  }

  /**
   * Without name and address but with a truthy latitude, the older chain
   * prints the latitude twice, where the current one prints latitude and
   * longitude.
   */
  lemma CoordinatesRepeatLatitude(v: Venue)
    requires !HasNameAndAddress(v) && Truthy(v.lat)
    ensures VenueLocation(v) == "lat/long: " + v.lat.value.text + ", " + v.lat.value.text
    ensures Current.ParseLocation(Some(v)) == Some("lat/long: " + v.lat.value.text + ", " + RenderScalar(v.lon))
  {
  }

  /** With nothing usable the older chain leaves "", the current one prints the name "None". */
  lemma NothingUsable(v: Venue)
    requires v.name.None? && !Truthy(v.lat)
    ensures Location(Some(v)) == Some("")
    ensures Current.ParseLocation(Some(v)) == Some("None")
  {
  }

  /**
   * The sample venue without a state: the older chain still prints the
   * address line (with "None" for the state), the current one falls back
   * to the coordinates.
   */
  lemma MissingStateDiverges()
    ensures Location(Some(Current.SampleVenue.(state := None)))
            == Some("Gower Estates Park at 24 Evelyn Ave, Greenville, None 29607")
    ensures Current.ParseLocation(Some(Current.SampleVenue.(state := None)))
            == Some("lat/long: 34.8300191, -82.3510954")
  {
    var v := Current.SampleVenue.(state := None);
    assert HasNameAndAddress(v);
    assert "Gower Estates Park" + " at " == "Gower Estates Park at ";
    assert "Gower Estates Park at " + "24 Evelyn Ave," == "Gower Estates Park at 24 Evelyn Ave,";
    assert "Gower Estates Park at 24 Evelyn Ave," + " " == "Gower Estates Park at 24 Evelyn Ave, ";
    assert "Gower Estates Park at 24 Evelyn Ave, " + "Greenville" == "Gower Estates Park at 24 Evelyn Ave, Greenville";
    assert "Gower Estates Park at 24 Evelyn Ave, Greenville" + ", " == "Gower Estates Park at 24 Evelyn Ave, Greenville, ";
    assert "Gower Estates Park at 24 Evelyn Ave, Greenville, " + "None" == "Gower Estates Park at 24 Evelyn Ave, Greenville, None";
    assert "Gower Estates Park at 24 Evelyn Ave, Greenville, None" + " " == "Gower Estates Park at 24 Evelyn Ave, Greenville, None ";
    assert "Gower Estates Park at 24 Evelyn Ave, Greenville, None " + "29607" == "Gower Estates Park at 24 Evelyn Ave, Greenville, None 29607";
    Current.ParseLocationMissingState();
  }
}
