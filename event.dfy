/**
 * The current bot's event record (src/event.py): how a feed record becomes
 * an Event and how an Event is rendered, both as blocks and as the plain
 * text that doubles as the change-detection key.
 */
module Event {
  import opened Wrappers
  import opened Text
  import opened Feed
  import opened Slack

  const TruncateLength := 250
  const Ellipsis := "..."

  const UpcomingLabel := "Upcoming \U{2705}"
  const PastLabel := "Past \U{2714}"
  const CancelledLabel := "Cancelled \U{274C}"

  const MapsSearchPrefix := "<https://www.google.com/maps/search/?api=1&query="

  datatype Event = Event(
    title: string,
    groupName: string,
    description: string,
    location: Option<string>,
    time: int,
    url: string,
    status: string,
    uuid: string)

  /** All five address parts are present (none of them is None). */
  predicate HasFullAddress(v: Venue)
  {
    v.name.Some? && v.address.Some? && v.city.Some? && v.state.Some? && v.zip.Some?
  }

  /**
   * parse_location: no venue gives no location; a complete address wins; a
   * truthy latitude gives coordinates; otherwise the venue name as printed
   * (the text "None" when the name is missing too).
   */
  function ParseLocation(venue: Option<Venue>): (r: Option<string>)
    ensures r.None? <==> venue.None?
  {
    match venue
    case None => None
    case Some(v) =>
      if HasFullAddress(v) then Some(FullAddress(v))
      else if Truthy(v.lat) then Some("lat/long: " + RenderScalar(v.lat) + ", " + RenderScalar(v.lon))
      else Some(Render(v.name))
  }

  /** truncate_string: `s[:250] + (s[250:] and "...")`. */
  function TruncateString(s: string): (r: string)
    ensures |s| <= TruncateLength ==> r == s
    ensures |s| > TruncateLength ==> r == s[..TruncateLength] + Ellipsis
    ensures |r| == if |s| <= TruncateLength then |s| else TruncateLength + |Ellipsis|
  {
    var keep := if |s| <= TruncateLength then |s| else TruncateLength;
    s[..keep] + (if |s[keep..]| > 0 then Ellipsis else "")
  }

  /**
   * get_location_url: the plain text "No location" without a location,
   * otherwise a maps search link whose link text is the location itself.
   */
  function GetLocationUrl(location: Option<string>, quote: string -> string): (r: string)
    ensures r == "No location" <==> location.None?
    ensures location.Some? ==>
              IsPrefix(MapsSearchPrefix, r) && |r| >= |location.value| + 2
              && r[|r| - |location.value| - 2..] == "|" + location.value + ">"
  {
    match location
    case None => "No location"
    case Some(l) => MapsSearchPrefix + quote(l) + "|" + l + ">"
  }

  /** print_status: emoji labels for the three known statuses, title case otherwise. */
  function PrintStatus(status: string): (r: string)
    ensures r == Title(status) <==> status != "upcoming" && status != "past" && status != "cancelled"
  {
    if status == "upcoming" then UpcomingLabel
    else if status == "past" then PastLabel
    else if status == "cancelled" then CancelledLabel
    else Title(status)
  }

  /** Event.from_event_json; `time` is already parsed in the feed record. */
  function FromEventJson(raw: RawEvent): (e: Event)
    ensures e.location.None? <==> raw.venue.None?
    ensures e.status == raw.status && e.time == raw.time && e.uuid == raw.uuid
  {
    Event(raw.eventName, raw.groupName, raw.description, ParseLocation(raw.venue),
          raw.time, raw.url, raw.status, raw.uuid)
  }

  /** generate_blocks: a header and one section, with the same truncation as the text. */
  function GenerateBlocks(e: Event, printTime: int -> string, quote: string -> string): seq<Block>
  {
    [ HeaderBlock(TruncateString(e.title)),
      Section(Some(TruncateString(e.description)),
              [ "*" + TruncateString(e.groupName) + "*",
                "<" + e.url + "|*Link* :link:>",
                "*Status*", PrintStatus(e.status),
                "*Location*", GetLocationUrl(e.location, quote),
                "*Time*", printTime(e.time) ]) ]
  }

  /** generate_text: the six-line plain-text rendering. */
  function GenerateText(e: Event, printTime: int -> string): string
  {
    TruncateString(e.title) + "\n"
      + ("Description: " + TruncateString(e.description)) + "\n"
      + ("Link: " + e.url) + "\n"
      + ("Status: " + PrintStatus(e.status)) + "\n"
      + ("Location: " + Render(e.location)) + "\n"
      + ("Time: " + printTime(e.time))
  }

  /** The lines of generate_text, in their order. */
  function TextLines(e: Event, printTime: int -> string): seq<string>
  {
    [ TruncateString(e.title),
      "Description: " + TruncateString(e.description),
      "Link: " + e.url,
      "Status: " + PrintStatus(e.status),
      "Location: " + Render(e.location),
      "Time: " + printTime(e.time) ]
  }

  // ---------------------------------------------------------------------
  // Properties
  // ---------------------------------------------------------------------

  /** Truncating an already truncated string changes nothing. */
  lemma TruncateIdempotent(s: string)
    ensures TruncateString(TruncateString(s)) == TruncateString(s)
  {
    if |s| > TruncateLength {
      var r := TruncateString(s);
      assert r[..TruncateLength] == s[..TruncateLength];
    }
  }

  /** The result keeps the first min(len, 250) characters and is at most 253 long. */
  lemma TruncateKeepsPrefix(s: string)
    ensures var keep := if |s| <= TruncateLength then |s| else TruncateLength;
            IsPrefix(s[..keep], TruncateString(s))
    ensures |TruncateString(s)| <= TruncateLength + |Ellipsis|
  {
  }

  /** A 300-character description (or any longer than 250) is shown as 250 characters and "...". */
  lemma LongTextEndsWithEllipsis(s: string)
    requires |s| > TruncateLength
    ensures |TruncateString(s)| == 253
    ensures TruncateString(s)[250..] == Ellipsis
  {
  }

  lemma TruncateNoNewline(s: string)
    requires NoNewline(s)
    ensures NoNewline(TruncateString(s))
  {
    var r := TruncateString(s);
    forall i | 0 <= i < |r| ensures r[i] != '\n' {
      if i < TruncateLength && i < |s| { assert r[i] == s[i]; }
    }
  }

  lemma {:induction false} TitleNoNewline(s: string)
    requires NoNewline(s)
    ensures NoNewline(Title(s))
  {
    TitleSpec(s);
  }

  lemma PrintStatusNoNewline(s: string)
    requires NoNewline(s)
    ensures NoNewline(PrintStatus(s))
  {
    if s != "upcoming" && s != "past" && s != "cancelled" {
      TitleNoNewline(s);
    }
  }

  /**
   * Every status label begins with the status title-cased: the known
   * statuses add an emoji after it, any other status is only title-cased.
   */
  lemma StatusLabelStartsWithTitle(s: string)
    ensures IsPrefix(Title(s), PrintStatus(s))
  {
    if s == "upcoming" {
      TitleOfLowerWord(s);
      assert Title(s) == "Upcoming";
    } else if s == "past" {
      TitleOfLowerWord(s);
      assert Title(s) == "Past";
    } else if s == "cancelled" {
      TitleOfLowerWord(s);
      assert Title(s) == "Cancelled";
    }
  }

  /**
   * The blocks are a header of at most 253 characters and one section of
   * eight fields, whose location field is the plain "No location" exactly
   * when the event has no location.
   */
  lemma GenerateBlocksShape(e: Event, printTime: int -> string, quote: string -> string)
    ensures var r := GenerateBlocks(e, printTime, quote);
            && |r| == 2 && r[0].HeaderBlock? && |r[0].text| <= TruncateLength + |Ellipsis|
            && r[1].Section? && |r[1].fields| == 8
            && (r[1].fields[5] == "No location" <==> e.location.None?)
  {
  }

  lemma JoinSixLines(a: string, b: string, c: string, d: string, e: string, f: string)
    ensures JoinLines([a, b, c, d, e, f]) == a + "\n" + b + "\n" + c + "\n" + d + "\n" + e + "\n" + f
  {
    assert JoinLines([e, f]) == e + "\n" + f by { assert [e, f][1..] == [f]; }
    assert JoinLines([d, e, f]) == d + "\n" + (e + "\n" + f) by { assert [d, e, f][1..] == [e, f]; }
    assert JoinLines([c, d, e, f]) == c + "\n" + (d + "\n" + (e + "\n" + f)) by { assert [c, d, e, f][1..] == [d, e, f]; }
    assert JoinLines([b, c, d, e, f]) == b + "\n" + (c + "\n" + (d + "\n" + (e + "\n" + f))) by { assert [b, c, d, e, f][1..] == [c, d, e, f]; }
    assert JoinLines([a, b, c, d, e, f]) == a + "\n" + (b + "\n" + (c + "\n" + (d + "\n" + (e + "\n" + f)))) by { assert [a, b, c, d, e, f][1..] == [b, c, d, e, f]; }
  }

  lemma TextIsJoinedLines(e: Event, printTime: int -> string)
    ensures GenerateText(e, printTime) == JoinLines(TextLines(e, printTime))
  {
    var ls := TextLines(e, printTime);
    JoinSixLines(ls[0], ls[1], ls[2], ls[3], ls[4], ls[5]);
  }

  /**
   * The plain text splits back into exactly the six fields in the order
   * title, Description, Link, Status, Location, Time, provided no field
   * itself holds a newline.
   */
  lemma {:induction false} GenerateTextFieldOrder(e: Event, printTime: int -> string)
    requires NoNewline(e.title) && NoNewline(e.description) && NoNewline(e.url)
    requires NoNewline(e.status) && NoNewline(Render(e.location)) && NoNewline(printTime(e.time))
    ensures SplitLines(GenerateText(e, printTime)) == TextLines(e, printTime)
  {
    TextIsJoinedLines(e, printTime);
    var ls := TextLines(e, printTime);
    TruncateNoNewline(e.title);
    TruncateNoNewline(e.description);
    PrintStatusNoNewline(e.status);
    NoNewlineConcat("Description: ", TruncateString(e.description));
    NoNewlineConcat("Link: ", e.url);
    NoNewlineConcat("Status: ", PrintStatus(e.status));
    NoNewlineConcat("Location: ", Render(e.location));
    NoNewlineConcat("Time: ", printTime(e.time));
    SplitJoinLines(ls);
  }

  /** A complete address takes precedence over the coordinates. */
  lemma FullAddressBeatsCoordinates(v: Venue, lat: Option<Scalar>, lon: Option<Scalar>)
    requires HasFullAddress(v)
    ensures ParseLocation(Some(v.(lat := lat, lon := lon))) == ParseLocation(Some(v)) == Some(FullAddress(v))
  {
  }

  const SampleVenue := Venue(Some("Gower Estates Park"), Some("24 Evelyn Ave,"), Some("Greenville"), Some("SC"),
                             Some("29607"), Some(Scalar("34.8300191", true)), Some(Scalar("-82.3510954", true)))

  /** tests/test_event.py: the full venue. */
  lemma ParseLocationFullVenue()
    ensures ParseLocation(Some(SampleVenue)) == Some("Gower Estates Park at 24 Evelyn Ave, Greenville, SC 29607")
  {
    assert HasFullAddress(SampleVenue);
    assert "Gower Estates Park" + " at " == "Gower Estates Park at ";
    assert "Gower Estates Park at " + "24 Evelyn Ave," == "Gower Estates Park at 24 Evelyn Ave,";
    assert "Gower Estates Park at 24 Evelyn Ave," + " " == "Gower Estates Park at 24 Evelyn Ave, ";
    assert "Gower Estates Park at 24 Evelyn Ave, " + "Greenville" == "Gower Estates Park at 24 Evelyn Ave, Greenville";
    assert "Gower Estates Park at 24 Evelyn Ave, Greenville" + ", " == "Gower Estates Park at 24 Evelyn Ave, Greenville, ";
    assert "Gower Estates Park at 24 Evelyn Ave, Greenville, " + "SC" == "Gower Estates Park at 24 Evelyn Ave, Greenville, SC";
    assert "Gower Estates Park at 24 Evelyn Ave, Greenville, SC" + " " == "Gower Estates Park at 24 Evelyn Ave, Greenville, SC ";
    assert "Gower Estates Park at 24 Evelyn Ave, Greenville, SC " + "29607" == "Gower Estates Park at 24 Evelyn Ave, Greenville, SC 29607";
  }

  /** tests/test_event.py: without a state the coordinates are used. */
  lemma ParseLocationMissingState()
    ensures ParseLocation(Some(SampleVenue.(state := None))) == Some("lat/long: 34.8300191, -82.3510954")
  {
    var v := SampleVenue.(state := None);
    assert !HasFullAddress(v) && Truthy(v.lat);
    assert "lat/long: " + "34.8300191" + ", " + "-82.3510954" == "lat/long: 34.8300191, -82.3510954";
  }

  /** tests/test_event.py: without a state or a latitude the venue name is used. */
  lemma ParseLocationMissingStateAndLatitude()
    ensures ParseLocation(Some(SampleVenue.(state := None, lat := None))) == Some("Gower Estates Park")
  {
    var v := SampleVenue.(state := None, lat := None);
    assert v.name == Some("Gower Estates Park") && v.state.None? && v.lat.None?;
    assert !HasFullAddress(v);
    assert !Truthy(v.lat);
    assert ParseLocation(Some(v)) == Some(Render(v.name));
    assert Render(v.name) == "Gower Estates Park";
  }
}
