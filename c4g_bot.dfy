/**
 * The check_api run of the older bot (c4g/bot.py): every due event whose
 * status is cancelled, upcoming or past is posted to, or updated in, every
 * configured channel; any other status is only reported.
 */
module C4gBot {
  import opened Feed
  import opened Slack
  import opened LegacyStore
  import opened LegacyProofs
  import C4gEvent

  /** The status test of the event loop. */
  function BotAction(status: string): (a: StatusAction)
    ensures a == Sync <==> status == "cancelled" || status == "upcoming" || status == "past"
    ensures a != Skip
  {
    if status == "cancelled" || status == "upcoming" || status == "past" then Sync else Report
  }

  /** The blocks and backup text sent for an event. */
  function EventMessage(raw: RawEvent, formatTime: int -> string, quote: string -> string): Message
  {
    var e := C4gEvent.FromEventJson(raw, formatTime);
    Message(C4gEvent.CreateSlackMessage(e, quote), C4gEvent.CreateBackupMessageText(e))
  }

  function Builder(formatTime: int -> string, quote: string -> string): RawEvent -> Message
  {
    raw => EventMessage(raw, formatTime, quote)
  }

  /** check_api over the feed at instant `now`; the flag says the run failed. */
  function CheckApi(w: Legacy, chans: seq<Channel>, feed: seq<RawEvent>, now: int,
                    formatTime: int -> string, quote: string -> string): (Legacy, bool)
  {
    SweepFrom(w, DueEvents(feed, now), 0, chans, BotAction, Builder(formatTime, quote))
  }

  method CheckApiRun(ws: LegacyWorkspace, feed: seq<RawEvent>, now: int,
                     formatTime: int -> string, quote: string -> string) returns (failed: bool)
    modifies ws
    ensures (ws.State(), failed) == CheckApi(old(ws.State()), old(ws.channels), feed, now, formatTime, quote)
    ensures ws.channels == old(ws.channels)
  {
    var due := DueEvents(feed, now);
    failed := ws.SweepRun(due, BotAction, Builder(formatTime, quote));
  }

  /** With every stored ts valid, the run never fails and keeps the store valid. */
  lemma CheckApiNeverFails(w: Legacy, chans: seq<Channel>, feed: seq<RawEvent>, now: int,
                           formatTime: int -> string, quote: string -> string)
    requires Consistent(w)
    ensures var r := CheckApi(w, chans, feed, now, formatTime, quote);
            !r.1 && Consistent(r.0) && w.rows <= r.0.rows
  {
    SweepSafe(w, DueEvents(feed, now), 0, chans, BotAction, Builder(formatTime, quote));
  }

  /**
   * After a successful run, every event due before now + 3 days with a
   * synced status has a row in every configured channel.
   */
  lemma CheckApiCoversDueEvents(w: Legacy, chans: seq<Channel>, feed: seq<RawEvent>, now: int,
                                formatTime: int -> string, quote: string -> string)
    ensures var r := CheckApi(w, chans, feed, now, formatTime, quote);
            !r.1 ==> forall e, c ::
              (e in feed && e.time < now + LookAheadDays * SecondsPerDay && BotAction(e.status) == Sync && c in chans)
              ==> HasRow(r.0.rows, e.uuid, c)
  {
    var due := DueEvents(feed, now);
    SweepCovers(w, due, 0, chans, BotAction, Builder(formatTime, quote));
    var r := CheckApi(w, chans, feed, now, formatTime, quote);
    forall e, c | e in feed && e.time < now + LookAheadDays * SecondsPerDay && BotAction(e.status) == Sync
                  && c in chans
      ensures !r.1 ==> HasRow(r.0.rows, e.uuid, c)
    {
      var k :| 0 <= k < |due| && due[k] == e;
    }
  }

  /** Over distinct channels a run never gives a channel two rows for one event. */
  lemma CheckApiKeepsRowsUnique(w: Legacy, chans: seq<Channel>, feed: seq<RawEvent>, now: int,
                                formatTime: int -> string, quote: string -> string)
    requires UniqueRows(w.rows) && Distinct(chans)
    ensures UniqueRows(CheckApi(w, chans, feed, now, formatTime, quote).0.rows)
  {
    SweepUnique(w, DueEvents(feed, now), 0, chans, BotAction, Builder(formatTime, quote));
  }

  /** A feed with only unknown statuses: nothing is posted or stored, and each due event is reported. */
  lemma UnknownStatusesOnlyReported(w: Legacy, chans: seq<Channel>, feed: seq<RawEvent>, now: int,
                                    formatTime: int -> string, quote: string -> string)
    requires forall e :: e in feed ==> BotAction(e.status) == Report
    ensures CheckApi(w, chans, feed, now, formatTime, quote)
            == (w.(notices := w.notices + Reports(DueEvents(feed, now), 0, BotAction)), false)
  {
    var due := DueEvents(feed, now);
    assert forall k :: 0 <= k < |due| ==> due[k] in feed;
    SweepWithoutSync(w, due, 0, chans, BotAction, Builder(formatTime, quote));
  }
}
