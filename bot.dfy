/**
 * The weekly reconciler of src/bot.py. For one week it compares the drafts
 * chunk_messages produced with the messages stored for that week and, per
 * channel and per position, posts, skips, updates in place, or gives up on
 * the channel when the spillover guard fires.
 *
 * The SQLite store is the sequence `rows` (insertion order); the Slack
 * workspace is a map of channel timelines (module Slack). Every call the
 * reconciler makes that an observer could see -- a guard check, a post, an
 * update, the spillover error it logs -- is appended to `log`.
 */
module Bot {
  import opened Wrappers
  import opened Slack
  import Feed
  import Week
  import MessageBuilder

  /** A row of the messages table, as create_message writes it. */
  datatype Row = Row(week: int, channel: Channel, ts: Ts, text: string, position: nat)

  /** What message_details keeps per stored message. */
  datatype Detail = Detail(ts: Ts, text: string)

  /**
   * The outcome of is_unsafe_to_spillover. `LookupFailed`: the check needed
   * the channel's most recent stored week and the channel has no row, so
   * the lookup yields nothing and the pass dies with an exception.
   */
  datatype Verdict = Safe | Unsafe | LookupFailed

  datatype Call =
    | GuardCheck(channel: Channel, verdict: Verdict)
    | PostCall(channel: Channel, text: string)
    | UpdateCall(channel: Channel, ts: Ts, text: string)
    | SpilloverLogged(channel: Channel, existing: nat, needed: nat)
  {
    predicate IsWrite() { PostCall? || UpdateCall? }
  }

  datatype World = World(rows: seq<Row>, timelines: Timelines, log: seq<Call>)

  /** How a position, or a channel, ended: carry on, spillover, or an uncaught exception. */
  datatype Status = Continue | Spillover | Crash

  /**
   * What post_or_update_messages computes once, before its loops: the
   * week, the drafts, message_details, posted_channels_set and the number
   * of rows stored for the week over all channels.
   */
  datatype Ctx = Ctx(week: int, drafts: seq<Message>, details: map<Channel, seq<Detail>>,
                     posted: set<Channel>, existing: nat)

  // ---------------------------------------------------------------------
  // Store queries
  // ---------------------------------------------------------------------

  /** A row get_messages returns: of the week, and joined with a channel of the channels table. */
  predicate InWeek(r: Row, channels: seq<Channel>, week: int)
  {
    r.week == week && r.channel in channels
  }

  /**
   * get_messages: the rows of one week whose channel is in the channels
   * table (the JOIN), in store order.
   */
  function RowsOfWeek(rows: seq<Row>, channels: seq<Channel>, week: int): (r: seq<Row>)
    ensures |r| <= |rows|
    ensures forall k :: 0 <= k < |r| ==> InWeek(r[k], channels, week)
    decreases |rows|
  {
    if rows == [] then []
    else
      var last := rows[|rows| - 1];
      RowsOfWeek(rows[..|rows| - 1], channels, week) + (if InWeek(last, channels, week) then [last] else [])
  }

  /** A row is returned exactly when it is stored, is of the week and has a listed channel. */
  lemma {:induction false} RowsOfWeekMembers(rows: seq<Row>, channels: seq<Channel>, week: int)
    ensures forall x :: x in RowsOfWeek(rows, channels, week) <==> x in rows && InWeek(x, channels, week)
    decreases |rows|
  {
    if rows != [] {
      var init := rows[..|rows| - 1];
      RowsOfWeekMembers(init, channels, week);
      assert rows == init + [rows[|rows| - 1]];
    }
  }

  function DetailOf(r: Row): Detail { Detail(r.ts, r.text) }

  /** The details of one channel's rows, in store order. */
  function DetailsOf(rows: seq<Row>, ch: Channel): (r: seq<Detail>)
    ensures |r| <= |rows|
    decreases |rows|
  {
    if rows == [] then []
    else
      var last := rows[|rows| - 1];
      DetailsOf(rows[..|rows| - 1], ch) + (if last.channel == ch then [DetailOf(last)] else [])
  }

  /** A defaultdict(list) lookup: a missing channel reads as the empty list. */
  function Get(m: map<Channel, seq<Detail>>, ch: Channel): seq<Detail>
  {
    if ch in m then m[ch] else []
  }

  /** message_details: the rows grouped by channel, appending in store order. */
  function DetailsMap(rows: seq<Row>): map<Channel, seq<Detail>>
    decreases |rows|
  {
    if rows == [] then map[]
    else
      var m := DetailsMap(rows[..|rows| - 1]);
      var last := rows[|rows| - 1];
      m[last.channel := Get(m, last.channel) + [DetailOf(last)]]
  }

  /** The most recent week stored for a channel, over all weeks; None without a row. */
  function Latest(rows: seq<Row>, ch: Channel): Option<int>
    decreases |rows|
  {
    if rows == [] then None
    else
      var last := rows[|rows| - 1];
      var before := Latest(rows[..|rows| - 1], ch);
      if last.channel != ch then before
      else match before
        case None => Some(last.week)
        case Some(w) => Some(if last.week > w then last.week else w)
  }

  predicate Matches(r: Row, week: int, ts: Ts, ch: Channel)
  {
    r.week == week && r.ts == ts && r.channel == ch
  }

  /** update_message: every row of that week, ts and channel gets the new text. */
  function UpdateRows(rows: seq<Row>, week: int, ts: Ts, ch: Channel, text: string): seq<Row>
  {
    seq(|rows|, k requires 0 <= k < |rows| => if Matches(rows[k], week, ts, ch) then rows[k].(text := text) else rows[k])
  }

  function MakeCtx(rows: seq<Row>, channels: seq<Channel>, week: int, drafts: seq<Message>): Ctx
  {
    var existing := RowsOfWeek(rows, channels, week);
    var details := DetailsMap(existing);
    Ctx(week, drafts, details, details.Keys, |existing|)
  }

  function Mine(ctx: Ctx, ch: Channel): seq<Detail> { Get(ctx.details, ch) }

  // ---------------------------------------------------------------------
  // One pass, as a specification
  // ---------------------------------------------------------------------

  /**
   * is_unsafe_to_spillover: only when the week now needs more messages than
   * are stored (and some are stored) is the channel's latest week looked up;
   * it is unsafe when that week is later than this one.
   */
  function IsUnsafeToSpillover(existing: nat, needed: nat, week: int, latest: Option<int>): (v: Verdict)
    ensures v == LookupFailed <==> needed > existing > 0 && latest.None?
    ensures v == Unsafe <==> needed > existing > 0 && latest.Some? && latest.value > week
  {
    if needed > existing > 0 then
      match latest
      case None => LookupFailed
      case Some(w) => if w > week then Unsafe else Safe
    else Safe
  }

  function Guard(ctx: Ctx, ch: Channel, rows: seq<Row>): (v: Verdict)
    ensures |ctx.drafts| <= ctx.existing || ctx.existing == 0 ==> v == Safe
    ensures v == LookupFailed ==> Latest(rows, ch).None?
  {
    IsUnsafeToSpillover(ctx.existing, |ctx.drafts|, ctx.week, Latest(rows, ch))
  }

  /** Calling the guard: the verdict, and the check recorded in the log. */
  function Checked(ctx: Ctx, ch: Channel, w: World): (World, Verdict)
  {
    var v := Guard(ctx, ch, w.rows);
    (w.(log := w.log + [GuardCheck(ch, v)]), v)
  }

  /** post_new_message followed by create_message with the position. */
  function PostDraft(ctx: Ctx, ch: Channel, i: nat, w: World): World
    requires i < |ctx.drafts|
  {
    var d := ctx.drafts[i];
    var posted := Post(w.timelines, ch, d);
    World(w.rows + [Row(ctx.week, ch, posted.1, d.text, i)], posted.0, w.log + [PostCall(ch, d.text)])
  }

  /**
   * chat_update with the stored ts followed by update_message; Slack
   * rejects an unknown ts, and that error is not caught.
   */
  function UpdateDraft(ctx: Ctx, ch: Channel, i: nat, ts: Ts, w: World): (World, Status)
    requires i < |ctx.drafts|
  {
    var d := ctx.drafts[i];
    var attempted := w.(log := w.log + [UpdateCall(ch, ts, d.text)]);
    if !HasMessage(w.timelines, ch, ts) then (attempted, Crash)
    else (attempted.(timelines := Update(w.timelines, ch, ts, d),
                     rows := UpdateRows(w.rows, ctx.week, ts, ch, d.text)), Continue)
  }

  /** The verdict's effect on the iteration: raise, die, or go on to the write. */
  function Stop(v: Verdict): Status
  {
    match v
    case Unsafe => Spillover
    case LookupFailed => Crash
    case Safe => Continue
  }

  /** One iteration of the inner loop: position `i` of the drafts in channel `ch`. */
  function Step(ctx: Ctx, ch: Channel, i: nat, w: World): (World, Status)
    requires i < |ctx.drafts|
  {
    var mine := Mine(ctx, ch);
    var d := ctx.drafts[i];
    if i > |mine| - 1 then
      // the week now needs more messages than this channel holds
      var c := Checked(ctx, ch, w);
      if c.1 != Safe then (c.0, Stop(c.1)) else (PostDraft(ctx, ch, i, c.0), Continue)
    else if ch in ctx.posted && d.text == mine[i].text then
      (w, Continue)
    else if ch in ctx.posted then
      var c := Checked(ctx, ch, w);
      if c.1 != Safe then (c.0, Stop(c.1)) else UpdateDraft(ctx, ch, i, mine[i].ts, c.0)
    else
      (PostDraft(ctx, ch, i, w), Continue)
  }

  /** The inner loop from position `i` on; it stops at the first position that does not continue. */
  function ChannelFrom(ctx: Ctx, ch: Channel, i: nat, w: World): (World, Status)
    decreases |ctx.drafts| - i
  {
    if i >= |ctx.drafts| then (w, Continue)
    else
      var r := Step(ctx, ch, i, w);
      if r.1 == Continue then ChannelFrom(ctx, ch, i + 1, r.0) else r
  }

  /**
   * One position writes at most one row and deletes none; a position that
   * stops the loop (a spillover or a crash) has written no row and posted
   * or edited nothing.
   */
  lemma StepBounds(ctx: Ctx, ch: Channel, i: nat, w: World)
    requires i < |ctx.drafts|
    ensures var r := Step(ctx, ch, i, w);
            && |w.rows| <= |r.0.rows| <= |w.rows| + 1
            && (r.1 != Continue ==> r.0.rows == w.rows && r.0.timelines == w.timelines)
  {
  }

  /** The inner loop from position `i` writes at most one row per remaining position. */
  lemma {:induction false} ChannelFromBounds(ctx: Ctx, ch: Channel, i: nat, w: World)
    ensures var r := ChannelFrom(ctx, ch, i, w);
            |w.rows| <= |r.0.rows| <= |w.rows| + (if i < |ctx.drafts| then |ctx.drafts| - i else 0)
    decreases |ctx.drafts| - i
  {
    if i < |ctx.drafts| {
      var r := Step(ctx, ch, i, w);
      StepBounds(ctx, ch, i, w);
      if r.1 == Continue {
        ChannelFromBounds(ctx, ch, i + 1, r.0);
      }
    }
  }

  /**
   * The outer loop from channel `j` on: a spillover is logged and the next
   * channel is processed; any other exception ends the pass (`true`).
   */
  function PassFrom(ctx: Ctx, channels: seq<Channel>, j: nat, w: World): (r: (World, bool))
    ensures |w.rows| <= |r.0.rows|
    decreases |channels| - j
  {
    if j >= |channels| then (w, false)
    else
      var r := ChannelFrom(ctx, channels[j], 0, w);
      ChannelFromBounds(ctx, channels[j], 0, w);
      match r.1
      case Crash => (r.0, true)
      case Spillover =>
        PassFrom(ctx, channels, j + 1,
                 r.0.(log := r.0.log + [SpilloverLogged(channels[j], ctx.existing, |ctx.drafts|)]))
      case Continue => PassFrom(ctx, channels, j + 1, r.0)
  }

  /** post_or_update_messages for a week: the final world, and whether an exception escaped. */
  function Pass(w: World, channels: seq<Channel>, week: int, drafts: seq<Message>): (r: (World, bool))
    ensures |w.rows| <= |r.0.rows|
  {
    PassFrom(MakeCtx(w.rows, channels, week, drafts), channels, 0, w)
  }

  /** parse_events_for_week: the week of the probe, its fragments, its messages, one pass. */
  function WeekDrafts(probe: int, feed: seq<Feed.RawEvent>, printTime: int -> string,
                      quote: string -> string, weekLabel: int -> string): seq<Message>
  {
    var weekStart := Week.WeekStart(probe);
    var fragments := MessageBuilder.BuildEventBlocks(feed, Week.DayStart(weekStart),
                                                     Week.DayStart(Week.WeekEnd(probe)), printTime, quote);
    MessageBuilder.Chunks(fragments, weekLabel(weekStart))
  }

  function ParseEventsForWeek(w: World, channels: seq<Channel>, probe: int, feed: seq<Feed.RawEvent>,
                              printTime: int -> string, quote: string -> string,
                              weekLabel: int -> string): (r: (World, bool))
    ensures |w.rows| <= |r.0.rows|
  {
    Pass(w, channels, Week.WeekStart(probe), WeekDrafts(probe, feed, printTime, quote, weekLabel))
  }

  /** check_api: the current week, then the week of today + 5 days, unless the first pass died. */
  function CheckApi(w: World, channels: seq<Channel>, today: int, feed: seq<Feed.RawEvent>,
                    printTime: int -> string, quote: string -> string,
                    weekLabel: int -> string): (r: (World, bool))
    ensures |w.rows| <= |r.0.rows|
  {
    var (first, crashed) := ParseEventsForWeek(w, channels, today, feed, printTime, quote, weekLabel);
    if crashed then (first, true)
    else ParseEventsForWeek(first, channels, today + Week.LookAheadDays, feed, printTime, quote, weekLabel)
  }

  // ---------------------------------------------------------------------
  // The bot's state and its operations
  // ---------------------------------------------------------------------

  class Workspace {
    var rows: seq<Row>
    var timelines: Timelines
    var log: seq<Call>
    /** The channels table, in store order. */
    var channels: seq<Channel>

    constructor(channels: seq<Channel>)
      ensures this.rows == [] && this.timelines == map[] && this.log == [] && this.channels == channels
    {
      this.rows := [];
      this.timelines := map[];
      this.log := [];
      this.channels := channels;
    }

    function State(): World
      reads this
    {
      World(rows, timelines, log)
    }

    /** get_messages over the store and the channels table. */
    method GetMessages(week: int) returns (existing: seq<Row>)
      ensures existing == RowsOfWeek(rows, channels, week)
      ensures forall x :: x in existing <==> x in rows && x.week == week && x.channel in channels
    {
      existing := RowsOfWeek(rows, channels, week);
      RowsOfWeekMembers(rows, channels, week);
    }

    method GetMostRecentWeek(ch: Channel) returns (latest: Option<int>)
      ensures latest == Latest(rows, ch)
    {
      latest := Latest(rows, ch);
    }

    method CheckSpillover(existing: nat, needed: nat, week: int, ch: Channel) returns (v: Verdict)
      modifies this
      ensures v == IsUnsafeToSpillover(existing, needed, week, Latest(old(rows), ch))
      ensures log == old(log) + [GuardCheck(ch, v)]
      ensures rows == old(rows) && timelines == old(timelines) && channels == old(channels)
    {
      v := Safe;
      if needed > existing > 0 {
        var latest := GetMostRecentWeek(ch);
        match latest {
          case None => v := LookupFailed;
          case Some(latestWeek) => if latestWeek > week { v := Unsafe; }
        }
      }
      log := log + [GuardCheck(ch, v)];
    }

    method PostNewMessage(ch: Channel, m: Message) returns (ts: Ts)
      modifies this
      ensures (timelines, ts) == Post(old(timelines), ch, m)
      ensures log == old(log) + [PostCall(ch, m.text)]
      ensures rows == old(rows) && channels == old(channels)
    {
      ts := |Timeline(timelines, ch)|;
      timelines := timelines[ch := Timeline(timelines, ch) + [m]];
      log := log + [PostCall(ch, m.text)];
    }

    /** chat_update; `ok` is false when Slack does not know the ts. */
    method ChatUpdate(ts: Ts, ch: Channel, m: Message) returns (ok: bool)
      modifies this
      ensures ok == HasMessage(old(timelines), ch, ts)
      ensures ok ==> timelines == Update(old(timelines), ch, ts, m)
      ensures !ok ==> timelines == old(timelines)
      ensures log == old(log) + [UpdateCall(ch, ts, m.text)]
      ensures rows == old(rows) && channels == old(channels)
    {
      log := log + [UpdateCall(ch, ts, m.text)];
      ok := HasMessage(timelines, ch, ts);
      if ok {
        timelines := timelines[ch := Timeline(timelines, ch)[ts := m]];
      }
    }

    method CreateMessage(week: int, text: string, ts: Ts, ch: Channel, position: nat)
      modifies this
      ensures rows == old(rows) + [Row(week, ch, ts, text, position)]
      ensures timelines == old(timelines) && log == old(log) && channels == old(channels)
    {
      rows := rows + [Row(week, ch, ts, text, position)];
    }

    method UpdateMessage(week: int, text: string, ts: Ts, ch: Channel)
      modifies this
      ensures rows == UpdateRows(old(rows), week, ts, ch, text)
      ensures timelines == old(timelines) && log == old(log) && channels == old(channels)
    {
      rows := UpdateRows(rows, week, ts, ch, text);
    }

    method PostAndRecord(ctx: Ctx, ch: Channel, i: nat)
      requires i < |ctx.drafts|
      modifies this
      ensures State() == PostDraft(ctx, ch, i, old(State()))
      ensures channels == old(channels)
    {
      var msg := ctx.drafts[i];
      var ts := PostNewMessage(ch, msg);
      CreateMessage(ctx.week, msg.text, ts, ch, i);
    }

    /** The body of the inner loop for position `i`. */
    method ProcessPosition(ctx: Ctx, ch: Channel, i: nat) returns (st: Status)
      requires i < |ctx.drafts|
      modifies this
      ensures (State(), st) == Step(ctx, ch, i, old(State()))
      ensures channels == old(channels)
    {
      var mine := Get(ctx.details, ch);
      var msg := ctx.drafts[i];
      if i > |mine| - 1 {
        var v := CheckSpillover(ctx.existing, |ctx.drafts|, ctx.week, ch);
        if v != Safe {
          st := Stop(v);
          return;
        }
        PostAndRecord(ctx, ch, i);
        st := Continue;
      } else if ch in ctx.posted && msg.text == mine[i].text {
        st := Continue;
      } else if ch in ctx.posted {
        var v := CheckSpillover(ctx.existing, |ctx.drafts|, ctx.week, ch);
        if v != Safe {
          st := Stop(v);
          return;
        }
        var timestamp := mine[i].ts;
        var ok := ChatUpdate(timestamp, ch, msg);
        if !ok {
          st := Crash;
          return;
        }
        UpdateMessage(ctx.week, msg.text, timestamp, ch);
        st := Continue;
      } else {
        PostAndRecord(ctx, ch, i);
        st := Continue;
      }
    }

    /** The inner loop: the positions of one channel, up to the first that does not continue. */
    method ProcessChannel(ctx: Ctx, ch: Channel) returns (st: Status)
      modifies this
      ensures (State(), st) == ChannelFrom(ctx, ch, 0, old(State()))
      ensures channels == old(channels)
    {
      ghost var goal := ChannelFrom(ctx, ch, 0, State());
      var i := 0;
      st := Continue;
      while i < |ctx.drafts|
        invariant 0 <= i <= |ctx.drafts|
        invariant ChannelFrom(ctx, ch, i, State()) == goal
        invariant channels == old(channels) && st == Continue
        decreases |ctx.drafts| - i
      {
        st := ProcessPosition(ctx, ch, i);
        if st != Continue {
          return;
        }
        i := i + 1;
      }
    }

    /** The first half of post_or_update_messages: the week's rows, grouped by channel. */
    method LoadContext(week: int, messages: seq<Message>) returns (ctx: Ctx)
      ensures ctx == MakeCtx(rows, channels, week, messages)
    {
      var existing := GetMessages(week);
      var details: map<Channel, seq<Detail>> := map[];
      for k := 0 to |existing|
        invariant details == DetailsMap(existing[..k])
      {
        var r := existing[k];
        assert existing[..k + 1][..k] == existing[..k];
        details := details[r.channel := Get(details, r.channel) + [Detail(r.ts, r.text)]];
      }
      assert existing[..|existing|] == existing;
      ctx := Ctx(week, messages, details, details.Keys, |existing|);
    }

    /** The outer loop of post_or_update_messages: the channels, up to the first crash. */
    method ProcessChannels(ctx: Ctx) returns (crashed: bool)
      modifies this
      ensures (State(), crashed) == PassFrom(ctx, old(channels), 0, old(State()))
      ensures channels == old(channels)
    {
      ghost var goal := PassFrom(ctx, channels, 0, State());
      crashed := false;
      for j := 0 to |channels|
        invariant PassFrom(ctx, channels, j, State()) == goal
        invariant channels == old(channels)
      {
        var ch := channels[j];
        var st := ProcessChannel(ctx, ch);
        if st == Crash {
          crashed := true;
          return;
        }
        if st == Spillover {
          log := log + [SpilloverLogged(ch, ctx.existing, |ctx.drafts|)];
        }
      }
    }

    /** post_or_update_messages; `crashed` says an exception escaped. */
    method PostOrUpdateMessages(week: int, messages: seq<Message>) returns (crashed: bool)
      modifies this
      ensures (State(), crashed) == Pass(old(State()), old(channels), week, messages)
      ensures channels == old(channels)
    {
      var ctx := LoadContext(week, messages);
      crashed := ProcessChannels(ctx);
    }

    method ParseEventsForWeekRun(probe: int, feed: seq<Feed.RawEvent>, printTime: int -> string,
                                 quote: string -> string, weekLabel: int -> string) returns (crashed: bool)
      modifies this
      ensures (State(), crashed) == ParseEventsForWeek(old(State()), old(channels), probe, feed, printTime, quote, weekLabel)
      ensures channels == old(channels)
    {
      var weekStart := Week.WeekStart(probe);
      var weekEnd := Week.WeekEnd(probe);
      var eventBlocks := MessageBuilder.BuildEventBlocks(feed, Week.DayStart(weekStart), Week.DayStart(weekEnd),
                                                         printTime, quote);
      var chunked := MessageBuilder.ChunkMessages(eventBlocks, weekLabel(weekStart));
      crashed := PostOrUpdateMessages(weekStart, chunked);
    }

    method CheckApiRun(today: int, feed: seq<Feed.RawEvent>, printTime: int -> string,
                       quote: string -> string, weekLabel: int -> string) returns (crashed: bool)
      modifies this
      ensures (State(), crashed) == CheckApi(old(State()), old(channels), today, feed, printTime, quote, weekLabel)
      ensures channels == old(channels)
    {
      crashed := ParseEventsForWeekRun(today, feed, printTime, quote, weekLabel);
      if crashed {
        return;
      }
      crashed := ParseEventsForWeekRun(today + Week.LookAheadDays, feed, printTime, quote, weekLabel);
    }
  }
}
