/**
 * The per-event synchronisation shared by the two older bots
 * (c4g-events.py and c4g/bot.py): for every due event and every configured
 * channel, update the event's message if the channel already has one,
 * otherwise post it and record a row (event uuid, ts, channel).
 *
 * The store rows name the channel by its Slack id, which is what the
 * channels-join in get_event_messages returns for them.
 */
module LegacyStore {
  import opened Wrappers
  import opened Feed
  import opened Slack

  const SecondsPerDay := 86400
  /** Only events strictly before now + 3 days are considered. */
  const LookAheadDays := 3

  datatype EventRow = EventRow(uuid: string, ts: Ts, channel: Channel)

  /** The "Couldn't parse event" line printed for an unknown status. */
  datatype Notice = Unparsed(uuid: string, status: string)

  datatype Legacy = Legacy(rows: seq<EventRow>, timelines: Timelines, notices: seq<Notice>)

  /** What a bot does with an event of a given status. */
  datatype StatusAction = Sync | Skip | Report

  // ---------------------------------------------------------------------
  // The store queries
  // ---------------------------------------------------------------------

  /** get_event_messages: the rows recorded for one event, in insertion order. */
  function EventMessages(rows: seq<EventRow>, uuid: string): (r: seq<EventRow>)
    ensures forall x :: x in r <==> x in rows && x.uuid == uuid
    ensures |r| <= |rows|
  {
    if |rows| == 0 then []
    else
      var last := rows[|rows| - 1];
      EventMessages(rows[..|rows| - 1], uuid) + (if last.uuid == uuid then [last] else [])
  }

  /** posted_channels_set. */
  function PostedChannels(msgs: seq<EventRow>): set<Channel>
  {
    set x | x in msgs :: x.channel
  }

  /** The dict comprehension channel_to_uuid: a later row for a channel overwrites an earlier one. */
  function ChannelToTs(msgs: seq<EventRow>): (r: map<Channel, Ts>)
    ensures r.Keys == PostedChannels(msgs)
  {
    if |msgs| == 0 then map[]
    else
      var last := msgs[|msgs| - 1];
      var init := msgs[..|msgs| - 1];
      assert msgs == init + [last];
      ChannelToTs(init)[last.channel := last.ts]
  }

  /** The store has a row for this event in this channel. */
  predicate HasRow(rows: seq<EventRow>, uuid: string, ch: Channel)
  {
    exists x :: x in rows && x.uuid == uuid && x.channel == ch
  }

  /** The events whose time lies strictly before now + 3 days, in feed order. */
  function DueEvents(feed: seq<RawEvent>, now: int): (r: seq<RawEvent>)
    ensures forall e :: e in r <==> e in feed && e.time < now + LookAheadDays * SecondsPerDay
    ensures |r| <= |feed|
  {
    if |feed| == 0 then []
    else
      var last := feed[|feed| - 1];
      DueEvents(feed[..|feed| - 1], now)
        + (if last.time < now + LookAheadDays * SecondsPerDay then [last] else [])
  }

  // ---------------------------------------------------------------------
  // One channel, one event, one sweep
  // ---------------------------------------------------------------------

  /**
   * The body of the channel loop: update with the stored ts when the
   * channel is in the posted set (an unknown ts makes chat_update fail,
   * which ends the run), otherwise post and record one row.
   */
  function SyncChannel(w: Legacy, uuid: string, posted: set<Channel>, tsOf: map<Channel, Ts>,
                       ch: Channel, m: Message): (r: (Legacy, bool))
    ensures r.1 <==> ch in posted && !(ch in tsOf && HasMessage(w.timelines, ch, tsOf[ch]))
    ensures ch in posted ==> r.0.rows == w.rows
    ensures ch !in posted ==>
              (|r.0.rows| == |w.rows| + 1 && r.0.rows[..|w.rows|] == w.rows
               && r.0.rows[|w.rows|].uuid == uuid && r.0.rows[|w.rows|].channel == ch)
    ensures r.0.notices == w.notices
  {
    if ch in posted then
      if ch in tsOf && HasMessage(w.timelines, ch, tsOf[ch]) then
        (w.(timelines := Update(w.timelines, ch, tsOf[ch], m)), false)
      else (w, true)
    else
      var p := Post(w.timelines, ch, m);
      (w.(timelines := p.0, rows := w.rows + [EventRow(uuid, p.1, ch)]), false)
  }

  /** The channel loop from position `i` on; the flag says the run failed. */
  function SyncFrom(w: Legacy, uuid: string, posted: set<Channel>, tsOf: map<Channel, Ts>,
                    chans: seq<Channel>, i: nat, m: Message): (r: (Legacy, bool))
    requires i <= |chans|
    ensures |w.rows| <= |r.0.rows| <= |w.rows| + (|chans| - i)
    ensures r.0.notices == w.notices
    decreases |chans| - i
  {
    if i == |chans| then (w, false)
    else
      var s := SyncChannel(w, uuid, posted, tsOf, chans[i], m);
      if s.1 then s else SyncFrom(s.0, uuid, posted, tsOf, chans, i + 1, m)
  }

  /** One event: the posted set and the ts map are read once, before the channel loop. */
  function SyncEvent(w: Legacy, uuid: string, chans: seq<Channel>, m: Message): (r: (Legacy, bool))
    ensures |w.rows| <= |r.0.rows| <= |w.rows| + |chans|
    ensures r.0.notices == w.notices
  {
    var msgs := EventMessages(w.rows, uuid);
    SyncFrom(w, uuid, PostedChannels(msgs), ChannelToTs(msgs), chans, 0, m)
  }

  /** The event loop from position `i` on. */
  function SweepFrom(w: Legacy, events: seq<RawEvent>, i: nat, chans: seq<Channel>,
                     action: string -> StatusAction, build: RawEvent -> Message): (r: (Legacy, bool))
    requires i <= |events|
    ensures |w.rows| <= |r.0.rows| && |w.notices| <= |r.0.notices|
    decreases |events| - i
  {
    if i == |events| then (w, false)
    else
      var e := events[i];
      match action(e.status)
      case Skip => SweepFrom(w, events, i + 1, chans, action, build)
      case Report =>
        SweepFrom(w.(notices := w.notices + [Unparsed(e.uuid, e.status)]), events, i + 1, chans, action, build)
      case Sync =>
        var s := SyncEvent(w, e.uuid, chans, build(e));
        if s.1 then s else SweepFrom(s.0, events, i + 1, chans, action, build)
  }

  // ---------------------------------------------------------------------
  // The store and the Slack client, updated in place
  // ---------------------------------------------------------------------

  class LegacyWorkspace {
    var rows: seq<EventRow>
    var timelines: Timelines
    var notices: seq<Notice>
    /** The configured channels (get_slack_channel_ids). */
    var channels: seq<Channel>

    constructor(channels: seq<Channel>)
      ensures this.rows == [] && this.timelines == map[] && this.notices == [] && this.channels == channels
    {
      this.rows := [];
      this.timelines := map[];
      this.notices := [];
      this.channels := channels;
    }

    function State(): Legacy
      reads this
    {
      Legacy(rows, timelines, notices)
    }

    /** One iteration of the channel loop. */
    method PostOrUpdate(uuid: string, posted: set<Channel>, tsOf: map<Channel, Ts>, ch: Channel, m: Message)
      returns (failed: bool)
      modifies this
      ensures (State(), failed) == SyncChannel(old(State()), uuid, posted, tsOf, ch, m)
      ensures channels == old(channels)
    {
      failed := false;
      if ch in posted {
        if ch in tsOf && HasMessage(timelines, ch, tsOf[ch]) {
          timelines := Update(timelines, ch, tsOf[ch], m);
        } else {
          failed := true;
        }
      } else {
        var p := Post(timelines, ch, m);
        timelines := p.0;
        rows := rows + [EventRow(uuid, p.1, ch)];
      }
    }

    /** The channel loop for one event. */
    method SyncEventRun(uuid: string, m: Message) returns (failed: bool)
      modifies this
      ensures (State(), failed) == SyncEvent(old(State()), uuid, old(channels), m)
      ensures channels == old(channels)
    {
      var msgs := EventMessages(rows, uuid);
      var posted := PostedChannels(msgs);
      var tsOf := ChannelToTs(msgs);
      ghost var goal := SyncEvent(State(), uuid, channels, m);
      failed := false;
      for i := 0 to |channels|
        invariant channels == old(channels)
        invariant SyncFrom(State(), uuid, posted, tsOf, channels, i, m) == goal
      {
        failed := PostOrUpdate(uuid, posted, tsOf, channels[i], m);
        if failed {
          return;
        }
      }
    }

    /** The event loop of check_api over the due events. */
    method SweepRun(events: seq<RawEvent>, action: string -> StatusAction, build: RawEvent -> Message)
      returns (failed: bool)
      modifies this
      ensures (State(), failed) == SweepFrom(old(State()), events, 0, old(channels), action, build)
      ensures channels == old(channels)
    {
      ghost var goal := SweepFrom(State(), events, 0, channels, action, build);
      failed := false;
      for i := 0 to |events|
        invariant channels == old(channels)
        invariant SweepFrom(State(), events, i, channels, action, build) == goal
      {
        var e := events[i];
        var act := action(e.status);
        if act == Report {
          notices := notices + [Unparsed(e.uuid, e.status)];
        } else if act == Sync {
          failed := SyncEventRun(e.uuid, build(e));
          if failed {
            return;
          }
        }
      }
    }
  }
}
