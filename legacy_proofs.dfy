/**
 * Properties of the legacy per-event synchronisation (module LegacyStore):
 * which ts an update uses, that a consistent store never makes the run
 * fail, that a successful event leaves every channel with a message for
 * it, that a second run only updates, and that channels never get two rows
 * for one event.
 */
module LegacyProofs {
  import opened Wrappers
  import opened Feed
  import opened Slack
  import opened LegacyStore

  /** Every stored row names a message that exists. */
  predicate Consistent(w: Legacy)
  {
    forall x :: x in w.rows ==> HasMessage(w.timelines, x.channel, x.ts)
  }

  /** Every posted channel has a stored ts, and every stored ts names an existing message. */
  predicate Resolvable(tl: Timelines, posted: set<Channel>, tsOf: map<Channel, Ts>)
  {
    (forall c :: c in posted ==> c in tsOf) && forall c :: c in tsOf ==> HasMessage(tl, c, tsOf[c])
  }

  /** No channel timeline got shorter. */
  ghost predicate Grows(a: Timelines, b: Timelines)
  {
    forall c :: |Timeline(a, c)| <= |Timeline(b, c)|
  }

  /** At most one row per (event, channel). */
  predicate UniqueRows(rows: seq<EventRow>)
  {
    forall i, j :: 0 <= i < j < |rows| && rows[i].uuid == rows[j].uuid ==> rows[i].channel != rows[j].channel
  }

  predicate Distinct(chans: seq<Channel>)
  {
    forall i, j :: 0 <= i < j < |chans| ==> chans[i] != chans[j]
  }

  // ---------------------------------------------------------------------
  // The lookups
  // ---------------------------------------------------------------------

  /** The ts recorded for a channel belongs to one of the event's rows in that channel. */
  lemma {:induction false} ChannelToTsSpec(msgs: seq<EventRow>, c: Channel)
    requires c in ChannelToTs(msgs)
    ensures exists x :: x in msgs && x.channel == c && x.ts == ChannelToTs(msgs)[c]
    decreases |msgs|
  {
    var last := msgs[|msgs| - 1];
    var init := msgs[..|msgs| - 1];
    assert msgs == init + [last];
    if c != last.channel {
      ChannelToTsSpec(init, c);
    }
  }

  /** With several rows for one channel, the ts of the last of them is the one used. */
  lemma {:induction false} ChannelToTsLastWins(msgs: seq<EventRow>, k: nat)
    requires k < |msgs|
    requires forall j :: k < j < |msgs| ==> msgs[j].channel != msgs[k].channel
    ensures msgs[k].channel in ChannelToTs(msgs) && ChannelToTs(msgs)[msgs[k].channel] == msgs[k].ts
    decreases |msgs|
  {
    var init := msgs[..|msgs| - 1];
    if k < |msgs| - 1 {
      ChannelToTsLastWins(init, k);
    }
  }

  /** Two rows of one channel: the later ts is used. */
  lemma DuplicateRowsUseLaterTs(u: string, c: Channel, t1: Ts, t2: Ts)
    ensures ChannelToTs([EventRow(u, t1, c), EventRow(u, t2, c)]) == map[c := t2]
  {
    assert [EventRow(u, t1, c), EventRow(u, t2, c)][..1] == [EventRow(u, t1, c)];
    assert [EventRow(u, t1, c)][..0] == [];
  }

  /** A channel is in the posted set exactly when the store has a row for the event there. */
  lemma PostedIffHasRow(rows: seq<EventRow>, uuid: string, c: Channel)
    ensures c in PostedChannels(EventMessages(rows, uuid)) <==> HasRow(rows, uuid, c)
  {
    if HasRow(rows, uuid, c) {
      var x :| x in rows && x.uuid == uuid && x.channel == c;
      assert x in EventMessages(rows, uuid);
    }
  }

  lemma HasRowGrows(a: seq<EventRow>, b: seq<EventRow>, uuid: string, c: Channel)
    requires a <= b && HasRow(a, uuid, c)
    ensures HasRow(b, uuid, c)
  {
    var x :| x in a && x.uuid == uuid && x.channel == c;
    var k :| 0 <= k < |a| && a[k] == x;
    assert b[k] == x;
  }

  /** A consistent store resolves every posted channel of every event. */
  lemma EventResolvable(w: Legacy, uuid: string)
    requires Consistent(w)
    ensures var msgs := EventMessages(w.rows, uuid);
            Resolvable(w.timelines, PostedChannels(msgs), ChannelToTs(msgs))
  {
    var msgs := EventMessages(w.rows, uuid);
    forall c | c in ChannelToTs(msgs)
      ensures HasMessage(w.timelines, c, ChannelToTs(msgs)[c])
    {
      ChannelToTsSpec(msgs, c);
    }
  }

  // ---------------------------------------------------------------------
  // A consistent store never makes the run fail
  // ---------------------------------------------------------------------

  lemma SyncChannelSafe(w: Legacy, uuid: string, posted: set<Channel>, tsOf: map<Channel, Ts>, ch: Channel, m: Message)
    requires Consistent(w) && Resolvable(w.timelines, posted, tsOf)
    ensures var r := SyncChannel(w, uuid, posted, tsOf, ch, m);
            !r.1 && Consistent(r.0) && Resolvable(r.0.timelines, posted, tsOf)
            && Grows(w.timelines, r.0.timelines) && w.rows <= r.0.rows && r.0.notices == w.notices
  {
  }

  lemma {:induction false} SyncFromSafe(w: Legacy, uuid: string, posted: set<Channel>, tsOf: map<Channel, Ts>,
                                        chans: seq<Channel>, i: nat, m: Message)
    requires i <= |chans|
    requires Consistent(w) && Resolvable(w.timelines, posted, tsOf)
    ensures var r := SyncFrom(w, uuid, posted, tsOf, chans, i, m);
            !r.1 && Consistent(r.0) && Resolvable(r.0.timelines, posted, tsOf)
            && Grows(w.timelines, r.0.timelines) && w.rows <= r.0.rows && r.0.notices == w.notices
    decreases |chans| - i
  {
    if i < |chans| {
      var s := SyncChannel(w, uuid, posted, tsOf, chans[i], m);
      SyncChannelSafe(w, uuid, posted, tsOf, chans[i], m);
      SyncFromSafe(s.0, uuid, posted, tsOf, chans, i + 1, m);
    }
  }

  /** With every stored ts valid, syncing one event cannot fail and keeps the store valid. */
  lemma SyncEventSafe(w: Legacy, uuid: string, chans: seq<Channel>, m: Message)
    requires Consistent(w)
    ensures var r := SyncEvent(w, uuid, chans, m);
            !r.1 && Consistent(r.0) && w.rows <= r.0.rows && r.0.notices == w.notices
  {
    EventResolvable(w, uuid);
    var msgs := EventMessages(w.rows, uuid);
    SyncFromSafe(w, uuid, PostedChannels(msgs), ChannelToTs(msgs), chans, 0, m);
  }

  /** With every stored ts valid, a whole run of check_api never fails. */
  lemma {:induction false} SweepSafe(w: Legacy, events: seq<RawEvent>, i: nat, chans: seq<Channel>,
                                     action: string -> StatusAction, build: RawEvent -> Message)
    requires i <= |events|
    requires Consistent(w)
    ensures var r := SweepFrom(w, events, i, chans, action, build);
            !r.1 && Consistent(r.0) && w.rows <= r.0.rows
    decreases |events| - i
  {
    if i < |events| {
      var e := events[i];
      match action(e.status)
      case Skip =>
        SweepSafe(w, events, i + 1, chans, action, build);
      case Report =>
        SweepSafe(w.(notices := w.notices + [Unparsed(e.uuid, e.status)]), events, i + 1, chans, action, build);
      case Sync =>
        var s := SyncEvent(w, e.uuid, chans, build(e));
        SyncEventSafe(w, e.uuid, chans, build(e));
        SweepSafe(s.0, events, i + 1, chans, action, build);
    }
  }

  // ---------------------------------------------------------------------
  // Coverage: every channel ends up with the event
  // ---------------------------------------------------------------------

  lemma {:induction false} SyncFromCovers(w: Legacy, uuid: string, posted: set<Channel>, tsOf: map<Channel, Ts>,
                                          chans: seq<Channel>, i: nat, m: Message)
    requires i <= |chans|
    requires forall c :: c in posted ==> HasRow(w.rows, uuid, c)
    ensures var r := SyncFrom(w, uuid, posted, tsOf, chans, i, m);
            w.rows <= r.0.rows && (!r.1 ==> forall c :: c in chans[i..] ==> HasRow(r.0.rows, uuid, c))
    decreases |chans| - i
  {
    if i < |chans| {
      var ch := chans[i];
      var s := SyncChannel(w, uuid, posted, tsOf, ch, m);
      if !s.1 {
        assert w.rows <= s.0.rows;
        if ch !in posted {
          assert EventRow(uuid, |Timeline(w.timelines, ch)|, ch) in s.0.rows;
        }
        assert HasRow(s.0.rows, uuid, ch);
        forall c | c in posted
          ensures HasRow(s.0.rows, uuid, c)
        {
          HasRowGrows(w.rows, s.0.rows, uuid, c);
        }
        SyncFromCovers(s.0, uuid, posted, tsOf, chans, i + 1, m);
        var r := SyncFrom(s.0, uuid, posted, tsOf, chans, i + 1, m);
        HasRowGrows(s.0.rows, r.0.rows, uuid, ch);
        forall c | c in chans[i..]
          ensures !r.1 ==> HasRow(r.0.rows, uuid, c)
        {
          if c != ch {
            var k :| i <= k < |chans| && chans[k] == c;
            assert c in chans[i + 1..];
          }
        }
      }
    }
  }

  /** After an event is synced without failure, every configured channel has a row for it. */
  lemma SyncEventCovers(w: Legacy, uuid: string, chans: seq<Channel>, m: Message)
    ensures var r := SyncEvent(w, uuid, chans, m);
            w.rows <= r.0.rows && (!r.1 ==> forall c :: c in chans ==> HasRow(r.0.rows, uuid, c))
  {
    var msgs := EventMessages(w.rows, uuid);
    forall c | c in PostedChannels(msgs)
      ensures HasRow(w.rows, uuid, c)
    {
      PostedIffHasRow(w.rows, uuid, c);
    }
    SyncFromCovers(w, uuid, PostedChannels(msgs), ChannelToTs(msgs), chans, 0, m);
    assert chans[0..] == chans;
  }

  /**
   * After a successful run every configured channel has a row for each
   * event that was synced; rows are only ever added.
   */
  lemma {:induction false} SweepCovers(w: Legacy, events: seq<RawEvent>, i: nat, chans: seq<Channel>,
                                       action: string -> StatusAction, build: RawEvent -> Message)
    requires i <= |events|
    ensures var r := SweepFrom(w, events, i, chans, action, build);
            w.rows <= r.0.rows
            && (!r.1 ==> forall k, c ::
                   i <= k < |events| && action(events[k].status) == Sync && c in chans ==>
                     HasRow(r.0.rows, events[k].uuid, c))
    decreases |events| - i
  {
    if i < |events| {
      var e := events[i];
      if action(e.status) != Sync {
        var notice := if action(e.status) == Report then [Unparsed(e.uuid, e.status)] else [];
        SweepQuietStep(w, events, i, chans, action, build);
        SweepCovers(w.(notices := w.notices + notice), events, i + 1, chans, action, build);
      } else {
        var s := SyncEvent(w, e.uuid, chans, build(e));
        SweepSyncStep(w, events, i, chans, action, build);
        SyncEventCovers(w, e.uuid, chans, build(e));
        if !s.1 {
          SweepCovers(s.0, events, i + 1, chans, action, build);
          var r := SweepFrom(s.0, events, i + 1, chans, action, build);
          forall c | c in chans
            ensures !r.1 ==> HasRow(r.0.rows, e.uuid, c)
          {
            HasRowGrows(s.0.rows, r.0.rows, e.uuid, c);
          }
        }
      }
    }
  }

  /** An event that is synced: the run stops if the sync fails, and goes on from the synced store otherwise. */
  lemma SweepSyncStep(w: Legacy, events: seq<RawEvent>, i: nat, chans: seq<Channel>,
                      action: string -> StatusAction, build: RawEvent -> Message)
    requires i < |events| && action(events[i].status) == Sync
    ensures var s := SyncEvent(w, events[i].uuid, chans, build(events[i]));
            SweepFrom(w, events, i, chans, action, build)
            == if s.1 then s else SweepFrom(s.0, events, i + 1, chans, action, build)
  {
  }

  // ---------------------------------------------------------------------
  // A second run only updates
  // ---------------------------------------------------------------------

  lemma {:induction false} SyncFromAllPosted(w: Legacy, uuid: string, posted: set<Channel>, tsOf: map<Channel, Ts>,
                                             chans: seq<Channel>, i: nat, m: Message)
    requires i <= |chans|
    requires Resolvable(w.timelines, posted, tsOf)
    requires forall c :: c in chans[i..] ==> c in posted
    ensures var r := SyncFrom(w, uuid, posted, tsOf, chans, i, m);
            !r.1 && r.0.rows == w.rows && r.0.notices == w.notices
    decreases |chans| - i
  {
    if i < |chans| {
      assert chans[i] in chans[i..];
      var s := SyncChannel(w, uuid, posted, tsOf, chans[i], m);
      forall c | c in chans[i + 1..]
        ensures c in posted
      {
        var k :| i + 1 <= k < |chans| && chans[k] == c;
        assert chans[k] in chans[i..];
      }
      SyncFromAllPosted(s.0, uuid, posted, tsOf, chans, i + 1, m);
    }
  }

  /**
   * From a consistent store, syncing an event twice over the same channels:
   * the second time only updates in place and adds no row.
   */
  lemma SecondSyncAddsNoRows(w: Legacy, uuid: string, chans: seq<Channel>, m: Message, m2: Message)
    requires Consistent(w)
    ensures var r1 := SyncEvent(w, uuid, chans, m);
            var r2 := SyncEvent(r1.0, uuid, chans, m2);
            !r1.1 && !r2.1 && r2.0.rows == r1.0.rows
  {
    var r1 := SyncEvent(w, uuid, chans, m);
    SyncEventSafe(w, uuid, chans, m);
    SyncEventCovers(w, uuid, chans, m);
    EventResolvable(r1.0, uuid);
    var msgs := EventMessages(r1.0.rows, uuid);
    forall c | c in chans[0..]
      ensures c in PostedChannels(msgs)
    {
      PostedIffHasRow(r1.0.rows, uuid, c);
    }
    SyncFromAllPosted(r1.0, uuid, PostedChannels(msgs), ChannelToTs(msgs), chans, 0, m2);
  }

  // ---------------------------------------------------------------------
  // One row per event and channel
  // ---------------------------------------------------------------------

  lemma {:induction false} SyncFromUnique(w: Legacy, uuid: string, posted: set<Channel>, tsOf: map<Channel, Ts>,
                                          chans: seq<Channel>, i: nat, m: Message)
    requires i <= |chans|
    requires UniqueRows(w.rows) && Distinct(chans)
    requires forall c :: HasRow(w.rows, uuid, c) ==> c in posted || c in chans[..i]
    ensures UniqueRows(SyncFrom(w, uuid, posted, tsOf, chans, i, m).0.rows)
    decreases |chans| - i
  {
    if i < |chans| {
      var ch := chans[i];
      var s := SyncChannel(w, uuid, posted, tsOf, ch, m);
      if !s.1 {
        if ch !in posted {
          assert ch !in chans[..i];
          assert !HasRow(w.rows, uuid, ch);
          var row := EventRow(uuid, |Timeline(w.timelines, ch)|, ch);
          assert s.0.rows == w.rows + [row];
          forall a, b | 0 <= a < b < |s.0.rows| && s.0.rows[a].uuid == s.0.rows[b].uuid
            ensures s.0.rows[a].channel != s.0.rows[b].channel
          {
            if b == |w.rows| {
              assert s.0.rows[a] in w.rows;
            }
          }
        }
        assert chans[..i + 1] == chans[..i] + [ch];
        forall c | HasRow(s.0.rows, uuid, c)
          ensures c in posted || c in chans[..i + 1]
        {
          var x :| x in s.0.rows && x.uuid == uuid && x.channel == c;
          if x !in w.rows {
            assert x.channel == ch;
          } else {
            assert HasRow(w.rows, uuid, c);
          }
        }
        SyncFromUnique(s.0, uuid, posted, tsOf, chans, i + 1, m);
      }
    }
  }

  /** Syncing an event over distinct channels never gives a channel a second row for it. */
  lemma SyncEventUnique(w: Legacy, uuid: string, chans: seq<Channel>, m: Message)
    requires UniqueRows(w.rows) && Distinct(chans)
    ensures UniqueRows(SyncEvent(w, uuid, chans, m).0.rows)
  {
    var msgs := EventMessages(w.rows, uuid);
    forall c | HasRow(w.rows, uuid, c)
      ensures c in PostedChannels(msgs) || c in chans[..0]
    {
      PostedIffHasRow(w.rows, uuid, c);
    }
    SyncFromUnique(w, uuid, PostedChannels(msgs), ChannelToTs(msgs), chans, 0, m);
  }

  /** A whole run over distinct channels keeps at most one row per event and channel. */
  lemma {:induction false} SweepUnique(w: Legacy, events: seq<RawEvent>, i: nat, chans: seq<Channel>,
                                       action: string -> StatusAction, build: RawEvent -> Message)
    requires i <= |events|
    requires UniqueRows(w.rows) && Distinct(chans)
    ensures UniqueRows(SweepFrom(w, events, i, chans, action, build).0.rows)
    decreases |events| - i
  {
    if i < |events| {
      var e := events[i];
      match action(e.status)
      case Skip =>
        SweepUnique(w, events, i + 1, chans, action, build);
      case Report =>
        SweepUnique(w.(notices := w.notices + [Unparsed(e.uuid, e.status)]), events, i + 1, chans, action, build);
      case Sync =>
        var s := SyncEvent(w, e.uuid, chans, build(e));
        SyncEventUnique(w, e.uuid, chans, build(e));
        if !s.1 {
          SweepUnique(s.0, events, i + 1, chans, action, build);
        }
    }
  }

  // ---------------------------------------------------------------------
  // Events that are not synced
  // ---------------------------------------------------------------------

  /** The notices a run prints for the events from `i` on that it reports. */
  function Reports(events: seq<RawEvent>, i: nat, action: string -> StatusAction): seq<Notice>
    requires i <= |events|
    decreases |events| - i
  {
    if i == |events| then []
    else
      (if action(events[i].status) == Report then [Unparsed(events[i].uuid, events[i].status)] else [])
        + Reports(events, i + 1, action)
  }

  /**
   * When no event is to be synced, a run posts nothing, updates nothing,
   * writes no row, and prints exactly one notice per reported event, in feed order.
   */
  lemma {:induction false} SweepWithoutSync(w: Legacy, events: seq<RawEvent>, i: nat, chans: seq<Channel>,
                                            action: string -> StatusAction, build: RawEvent -> Message)
    requires i <= |events|
    requires forall k :: i <= k < |events| ==> action(events[k].status) != Sync
    ensures SweepFrom(w, events, i, chans, action, build)
            == (w.(notices := w.notices + Reports(events, i, action)), false)
    decreases |events| - i
  {
    if i < |events| {
      var e := events[i];
      var notice := if action(e.status) == Report then [Unparsed(e.uuid, e.status)] else [];
      var w' := w.(notices := w.notices + notice);
      SweepQuietStep(w, events, i, chans, action, build);
      SweepWithoutSync(w', events, i + 1, chans, action, build);
      assert Reports(events, i, action) == notice + Reports(events, i + 1, action);
      assert w'.notices + Reports(events, i + 1, action) == w.notices + Reports(events, i, action);
    } else {
      assert w.notices + [] == w.notices;
    }
  }

  /** An event that is not synced only adds its notice, if it is reported, and hands the run on. */
  lemma SweepQuietStep(w: Legacy, events: seq<RawEvent>, i: nat, chans: seq<Channel>,
                       action: string -> StatusAction, build: RawEvent -> Message)
    requires i < |events| && action(events[i].status) != Sync
    ensures var e := events[i];
            var notice := if action(e.status) == Report then [Unparsed(e.uuid, e.status)] else [];
            SweepFrom(w, events, i, chans, action, build)
            == SweepFrom(w.(notices := w.notices + notice), events, i + 1, chans, action, build)
  {
    if action(events[i].status) == Skip {
      assert w.(notices := w.notices + []) == w;
    }
  }

  /** When every event is skipped, a run changes nothing at all. */
  lemma {:induction false} SweepAllSkipped(w: Legacy, events: seq<RawEvent>, i: nat, chans: seq<Channel>,
                                           action: string -> StatusAction, build: RawEvent -> Message)
    requires i <= |events|
    requires forall k :: i <= k < |events| ==> action(events[k].status) == Skip
    ensures SweepFrom(w, events, i, chans, action, build) == (w, false)
    decreases |events| - i
  {
    if i < |events| {
      SweepAllSkipped(w, events, i + 1, chans, action, build);
    }
  }

  /** An event at or after now + 3 days is not considered: appending one to the feed changes nothing. */
  lemma LateEventIgnored(feed: seq<RawEvent>, late: RawEvent, now: int)
    requires late.time >= now + LookAheadDays * SecondsPerDay
    ensures DueEvents(feed + [late], now) == DueEvents(feed, now)
  {
    assert (feed + [late])[..|feed|] == feed;
    assert DueEvents(feed, now) + [] == DueEvents(feed, now);
  }
}
