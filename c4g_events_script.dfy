/**
 * The stand-alone script c4g-events.py: its own event information record,
 * block layout and backup text, and a check_api run that syncs cancelled
 * and upcoming events, skips past ones silently and reports the rest.
 */
module C4gEventsScript {
  import opened Wrappers
  import opened Text
  import opened Feed
  import opened Slack
  import opened LegacyStore
  import opened LegacyProofs
  import C4gEvent
  import Current = Event

  const NoLocation := "No location"

  /** The dictionary __get_event_information returns; `time` is already formatted. */
  datatype EventInfo = EventInfo(
    title: string,
    description: string,
    location: string,
    time: string,
    url: string,
    status: string)

  /** __get_event_information. */
  function GetEventInformation(raw: RawEvent, formatTime: int -> string): (r: EventInfo)
    ensures raw.venue.None? ==> r.location == NoLocation
    ensures raw.venue.Some? ==> r.location == C4gEvent.VenueLocation(raw.venue.value)
    ensures |r.status| == |raw.status|
  {
    EventInfo(
      raw.eventName + " by " + raw.groupName,
      raw.description,
      match raw.venue
      case None => NoLocation
      case Some(v) => C4gEvent.VenueLocation(v),
      formatTime(raw.time),
      raw.url,
      Title(raw.status))
  }

  /** __create_slack_message: the location field is always a maps link. */
  function CreateSlackMessage(info: EventInfo, quote: string -> string): (r: seq<Block>)
    ensures |r| == 7 && r[0] == HeaderBlock(info.title) && r[2] == Divider
    ensures r[5].Section? && |r[5].fields| == 2 && IsPrefix(Current.MapsSearchPrefix, r[5].fields[1])
  {
    [ HeaderBlock(info.title),
      Section(None, ["<" + info.url + "|Link :link:>"]),
      Divider,
      Section(None, ["*Description*", info.description]),
      Section(None, ["*Status*", info.status]),
      Section(None, ["*Location*", Current.MapsSearchPrefix + quote(info.location) + "|" + info.location + ">"]),
      Section(None, ["*Time*", info.time]) ]
  }

  /** The lines of __create_backup_message_text, in their order. */
  function BackupLines(info: EventInfo): seq<string>
  {
    [ "Name: " + info.title,
      "Description: " + info.description,
      "Status: " + info.status,
      "Location: " + info.location,
      "Time: " + info.time,
      "Link: " + info.url ]
  }

  /** __create_backup_message_text. */
  function CreateBackupMessageText(info: EventInfo): (r: string)
    ensures IsPrefix("Name: " + info.title + "\n", r)
  {
    "Name: " + info.title + "\n"
      + ("Description: " + info.description) + "\n"
      + ("Status: " + info.status) + "\n"
      + ("Location: " + info.location) + "\n"
      + ("Time: " + info.time) + "\n"
      + ("Link: " + info.url)
  }

  /** The status test of the event loop. */
  function ScriptAction(status: string): (a: StatusAction)
    ensures a == Sync <==> status == "cancelled" || status == "upcoming"
    ensures a == Skip <==> status == "past"
  {
    if status == "cancelled" || status == "upcoming" then Sync
    else if status == "past" then Skip
    else Report
  }

  function EventMessage(raw: RawEvent, formatTime: int -> string, quote: string -> string): Message
  {
    var info := GetEventInformation(raw, formatTime);
    Message(CreateSlackMessage(info, quote), CreateBackupMessageText(info))
  }

  function Builder(formatTime: int -> string, quote: string -> string): RawEvent -> Message
  {
    raw => EventMessage(raw, formatTime, quote)
  }

  /** check_api over the feed at instant `now`; the flag says the run failed. */
  function CheckApi(w: Legacy, chans: seq<Channel>, feed: seq<RawEvent>, now: int,
                    formatTime: int -> string, quote: string -> string): (Legacy, bool)
  {
    SweepFrom(w, DueEvents(feed, now), 0, chans, ScriptAction, Builder(formatTime, quote))
  }

  method CheckApiRun(ws: LegacyWorkspace, feed: seq<RawEvent>, now: int,
                     formatTime: int -> string, quote: string -> string) returns (failed: bool)
    modifies ws
    ensures (ws.State(), failed) == CheckApi(old(ws.State()), old(ws.channels), feed, now, formatTime, quote)
    ensures ws.channels == old(ws.channels)
  {
    var due := DueEvents(feed, now);
    failed := ws.SweepRun(due, ScriptAction, Builder(formatTime, quote));
  }

  // ---------------------------------------------------------------------
  // Properties
  // ---------------------------------------------------------------------

  /**
   * The script's location is the older bot's chain, except that a missing
   * venue is the text "No location" instead of None.
   */
  lemma LocationMatchesOlderBot(raw: RawEvent, formatTime: int -> string)
    ensures var info := GetEventInformation(raw, formatTime);
            var e := C4gEvent.FromEventJson(raw, formatTime);
            (raw.venue.None? ==> info.location == NoLocation && e.location.None?)
            && (raw.venue.Some? ==> e.location.Some? && info.location == e.location.value)
  {
  }

  /** Without a venue the location field is still a maps link, to the text "No location". */
  lemma MissingVenueLinksNoLocation(raw: RawEvent, formatTime: int -> string, quote: string -> string)
    requires raw.venue.None?
    ensures CreateSlackMessage(GetEventInformation(raw, formatTime), quote)[5]
            == Section(None, ["*Location*", Current.MapsSearchPrefix + quote(NoLocation) + "|No location>"])
  {
    var link := Current.MapsSearchPrefix + quote(NoLocation);
    assert link + "|" + NoLocation + ">" == link + "|No location>";
  }

  /**
   * The status is only title-cased: it is a prefix of the current bot's
   * label, and for a known status it lacks the emoji.
   */
  lemma StatusWithoutEmoji(raw: RawEvent, formatTime: int -> string)
    ensures IsPrefix(GetEventInformation(raw, formatTime).status, Current.PrintStatus(raw.status))
    ensures raw.status == "upcoming" ==> GetEventInformation(raw, formatTime).status == "Upcoming"
    ensures raw.status == "cancelled" ==> GetEventInformation(raw, formatTime).status == "Cancelled"
  {
    Current.StatusLabelStartsWithTitle(raw.status);
    if raw.status == "upcoming" || raw.status == "cancelled" {
      TitleOfLowerWord(raw.status);
    }
  }

  /**
   * The backup text splits back into exactly the six fields in the order
   * Name, Description, Status, Location, Time, Link, provided no field
   * itself holds a newline.
   */
  lemma {:induction false} BackupTextFieldOrder(info: EventInfo)
    requires NoNewline(info.title) && NoNewline(info.description) && NoNewline(info.status)
    requires NoNewline(info.location) && NoNewline(info.time) && NoNewline(info.url)
    ensures SplitLines(CreateBackupMessageText(info)) == BackupLines(info)
  {
    var ls := BackupLines(info);
    Current.JoinSixLines(ls[0], ls[1], ls[2], ls[3], ls[4], ls[5]);
    NoNewlineConcat("Name: ", info.title);
    NoNewlineConcat("Description: ", info.description);
    NoNewlineConcat("Status: ", info.status);
    NoNewlineConcat("Location: ", info.location);
    NoNewlineConcat("Time: ", info.time);
    NoNewlineConcat("Link: ", info.url);
    SplitJoinLines(ls);
  }

  /** With every stored ts valid, the run never fails and keeps the store valid. */
  lemma CheckApiNeverFails(w: Legacy, chans: seq<Channel>, feed: seq<RawEvent>, now: int,
                           formatTime: int -> string, quote: string -> string)
    requires Consistent(w)
    ensures var r := CheckApi(w, chans, feed, now, formatTime, quote);
            !r.1 && Consistent(r.0) && w.rows <= r.0.rows
  {
    SweepSafe(w, DueEvents(feed, now), 0, chans, ScriptAction, Builder(formatTime, quote));
  }

  /**
   * After a successful run, every cancelled or upcoming event due before
   * now + 3 days has a row in every configured channel.
   */
  lemma CheckApiCoversDueEvents(w: Legacy, chans: seq<Channel>, feed: seq<RawEvent>, now: int,
                                formatTime: int -> string, quote: string -> string)
    ensures var r := CheckApi(w, chans, feed, now, formatTime, quote);
            !r.1 ==> forall e, c ::
              (e in feed && e.time < now + LookAheadDays * SecondsPerDay && ScriptAction(e.status) == Sync && c in chans)
              ==> HasRow(r.0.rows, e.uuid, c)
  {
    var due := DueEvents(feed, now);
    SweepCovers(w, due, 0, chans, ScriptAction, Builder(formatTime, quote));
    var r := CheckApi(w, chans, feed, now, formatTime, quote);
    forall e, c | e in feed && e.time < now + LookAheadDays * SecondsPerDay && ScriptAction(e.status) == Sync
                  && c in chans
      ensures !r.1 ==> HasRow(r.0.rows, e.uuid, c)
    {
      var k :| 0 <= k < |due| && due[k] == e;
    }
  }

  /** Over distinct channels a run never gives a channel two rows for one event. */
  lemma CheckApiKeepsRowsUnique(w: Legacy, chans: seq<Channel>, feed: seq<RawEvent>, now: int,
                                formatTime: int -> string, quote: string -> string)
    requires UniqueRows(w.rows) && Distinct(chans)
    ensures UniqueRows(CheckApi(w, chans, feed, now, formatTime, quote).0.rows)
  {
    SweepUnique(w, DueEvents(feed, now), 0, chans, ScriptAction, Builder(formatTime, quote));
  }

  /** Past events are skipped silently: a feed of past events changes nothing at all. */
  lemma PastEventsSilent(w: Legacy, chans: seq<Channel>, feed: seq<RawEvent>, now: int,
                         formatTime: int -> string, quote: string -> string)
    requires forall e :: e in feed ==> e.status == "past"
    ensures CheckApi(w, chans, feed, now, formatTime, quote) == (w, false)
  {
    var due := DueEvents(feed, now);
    assert forall k :: 0 <= k < |due| ==> due[k] in feed;
    SweepAllSkipped(w, due, 0, chans, ScriptAction, Builder(formatTime, quote));
  }

  /** A feed with only unknown statuses: nothing is posted or stored, and each due event is reported. */
  lemma UnknownStatusesOnlyReported(w: Legacy, chans: seq<Channel>, feed: seq<RawEvent>, now: int,
                                    formatTime: int -> string, quote: string -> string)
    requires forall e :: e in feed ==> ScriptAction(e.status) == Report
    ensures CheckApi(w, chans, feed, now, formatTime, quote)
            == (w.(notices := w.notices + Reports(DueEvents(feed, now), 0, ScriptAction)), false)
  {
    var due := DueEvents(feed, now);
    assert forall k :: 0 <= k < |due| ==> due[k] in feed;
    SweepWithoutSync(w, due, 0, chans, ScriptAction, Builder(formatTime, quote));
  }
}
