/**
 * Properties of one reconciliation pass of src/bot.py (module Bot): what
 * the store queries return, that no write goes out without a guard check,
 * that a channel whose guard fires is left as it was, that each channel
 * ends as if it had been reconciled alone, and that unchanged drafts cause
 * no call.
 */
module BotProofs {
  import opened Wrappers
  import opened Slack
  import opened Bot
  import Feed
  import Week

  // ---------------------------------------------------------------------
  // Store queries
  // ---------------------------------------------------------------------

  /** message_details holds, for each channel, that channel's rows in store order; only channels with rows are keys. */
  lemma {:induction false} DetailsMapSpec(rows: seq<Row>, ch: Channel)
    ensures Get(DetailsMap(rows), ch) == DetailsOf(rows, ch)
    ensures ch in DetailsMap(rows) <==> DetailsOf(rows, ch) != []
    decreases |rows|
  {
    if rows != [] {
      DetailsMapSpec(rows[..|rows| - 1], ch);
    }
  }

  /** `idx` lists positions of `rows`, strictly increasing. */
  ghost predicate Ascending(idx: seq<nat>, n: nat)
  {
    (forall k :: 0 <= k < |idx| ==> idx[k] < n) &&
    (forall k, l :: 0 <= k < l < |idx| ==> idx[k] < idx[l])
  }

  /**
   * get_messages keeps exactly the rows of the week whose channel is listed,
   * in store order: the result is `rows` read at a strictly increasing list
   * of positions, and a position is listed exactly when its row qualifies.
   */
  lemma {:induction false} RowsOfWeekSpec(rows: seq<Row>, channels: seq<Channel>, week: int) returns (idx: seq<nat>)
    ensures var r := RowsOfWeek(rows, channels, week);
            && |idx| == |r| && Ascending(idx, |rows|)
            && (forall k :: 0 <= k < |idx| ==> r[k] == rows[idx[k]])
            && (forall i :: 0 <= i < |rows| ==> (i in idx <==> InWeek(rows[i], channels, week)))
    decreases |rows|
  {
    if rows == [] {
      idx := [];
    } else {
      var init := rows[..|rows| - 1];
      var last := rows[|rows| - 1];
      var before := RowsOfWeekSpec(init, channels, week);
      var r0 := RowsOfWeek(init, channels, week);
      if InWeek(last, channels, week) {
        idx := before + [|rows| - 1];
        assert RowsOfWeek(rows, channels, week) == r0 + [last];
      } else {
        idx := before;
        assert RowsOfWeek(rows, channels, week) == r0;
      }
    }
  }

  /** The positions of the week's qualifying rows. */
  ghost function WeekIndices(rows: seq<Row>, channels: seq<Channel>, week: int): set<nat>
  {
    set i: nat | i < |rows| && InWeek(rows[i], channels, week)
  }

  /** len(existing_messages) is the number of the week's rows of listed channels in the store. */
  lemma {:induction false} RowsOfWeekCount(rows: seq<Row>, channels: seq<Channel>, week: int)
    ensures |RowsOfWeek(rows, channels, week)| == |WeekIndices(rows, channels, week)|
    decreases |rows|
  {
    if rows != [] {
      var init := rows[..|rows| - 1];
      var last := rows[|rows| - 1];
      RowsOfWeekCount(init, channels, week);
      var n := |rows| - 1;
      var all := WeekIndices(rows, channels, week);
      var before := WeekIndices(init, channels, week);
      var added: set<nat> := if InWeek(last, channels, week) then {n} else {};
      forall i: nat ensures i in all <==> i in before + added {
        if i < n {
          assert rows[i] == init[i];
        }
      }
      assert all == before + added;
      assert n !in before;
    }
  }

  /**
   * A channel's details are the (ts, text) of exactly that channel's rows,
   * in store order.
   */
  lemma {:induction false} DetailsOfSpec(rows: seq<Row>, ch: Channel) returns (idx: seq<nat>)
    ensures var r := DetailsOf(rows, ch);
            && |idx| == |r| && Ascending(idx, |rows|)
            && (forall k :: 0 <= k < |idx| ==> r[k] == DetailOf(rows[idx[k]]))
            && (forall i :: 0 <= i < |rows| ==> (i in idx <==> rows[i].channel == ch))
    decreases |rows|
  {
    if rows == [] {
      idx := [];
    } else {
      var init := rows[..|rows| - 1];
      var last := rows[|rows| - 1];
      var before := DetailsOfSpec(init, ch);
      var r0 := DetailsOf(init, ch);
      if last.channel == ch {
        idx := before + [|rows| - 1];
        assert DetailsOf(rows, ch) == r0 + [DetailOf(last)];
      } else {
        idx := before;
        assert DetailsOf(rows, ch) == r0;
      }
    }
  }

  /** The context post_or_update_messages builds is coherent: posted channels are exactly those with stored details. */
  ghost predicate Coherent(ctx: Ctx)
  {
    forall ch :: (ch in ctx.posted <==> Mine(ctx, ch) != [])
  }

  /**
   * The values read before the loops agree: the posted set is the channels
   * with details, and the count is the number of the week's rows of listed
   * channels in the store.
   */
  lemma MakeCtxCoherent(rows: seq<Row>, channels: seq<Channel>, week: int, drafts: seq<Message>)
    ensures Coherent(MakeCtx(rows, channels, week, drafts))
    ensures MakeCtx(rows, channels, week, drafts).existing == |WeekIndices(rows, channels, week)|
  {
    var ctx := MakeCtx(rows, channels, week, drafts);
    forall ch ensures ch in ctx.posted <==> Mine(ctx, ch) != [] {
      DetailsMapSpec(RowsOfWeek(rows, channels, week), ch);
    }
    RowsOfWeekCount(rows, channels, week);
  }

  /** Rows of a channel that is not in the channels table are never read: the JOIN drops them. */
  lemma UnlistedRowIgnored(rows: seq<Row>, r: Row, channels: seq<Channel>, week: int, drafts: seq<Message>)
    requires r.channel !in channels
    ensures MakeCtx(rows + [r], channels, week, drafts) == MakeCtx(rows, channels, week, drafts)
  {
    var longer := rows + [r];
    assert longer[..|longer| - 1] == rows && longer[|longer| - 1] == r;
    assert RowsOfWeek(longer, channels, week) == RowsOfWeek(rows, channels, week);
  }

  /** The last branch of the inner loop is never taken: a position below the stored count belongs to a posted channel. */
  lemma FinalBranchUnreachable(rows: seq<Row>, channels: seq<Channel>, week: int, drafts: seq<Message>,
                               ch: Channel, i: nat)
    requires i < |Mine(MakeCtx(rows, channels, week, drafts), ch)|
    ensures ch in MakeCtx(rows, channels, week, drafts).posted
  {
    MakeCtxCoherent(rows, channels, week, drafts);
  }

  /** Rewriting texts leaves every row's week, channel, ts and position as they were. */
  lemma UpdateRowsKeepsKeys(rows: seq<Row>, week: int, ts: Ts, ch: Channel, text: string)
    ensures |UpdateRows(rows, week, ts, ch, text)| == |rows|
    ensures forall k :: 0 <= k < |rows| ==>
              var r := UpdateRows(rows, week, ts, ch, text)[k];
              r.week == rows[k].week && r.channel == rows[k].channel && r.ts == rows[k].ts
              && r.position == rows[k].position
              && r.text == (if Matches(rows[k], week, ts, ch) then text else rows[k].text)
  {
  }

  /**
   * The latest-week lookup: nothing exactly when the channel has no row;
   * otherwise a week some row of the channel has, and no row of the channel
   * has a later one.
   */
  lemma {:induction false} LatestSpec(rows: seq<Row>, ch: Channel)
    ensures Latest(rows, ch).None? <==> forall k :: 0 <= k < |rows| ==> rows[k].channel != ch
    ensures Latest(rows, ch).Some? ==>
              exists k :: 0 <= k < |rows| && rows[k].channel == ch && rows[k].week == Latest(rows, ch).value
    ensures Latest(rows, ch).Some? ==>
              forall k :: 0 <= k < |rows| && rows[k].channel == ch ==> rows[k].week <= Latest(rows, ch).value
    decreases |rows|
  {
    if rows != [] {
      var init := rows[..|rows| - 1];
      LatestSpec(init, ch);
      assert forall k :: 0 <= k < |init| ==> init[k] == rows[k];
      var last := rows[|rows| - 1];
      if last.channel == ch && Latest(init, ch).Some? && Latest(init, ch).value >= last.week {
        var k :| 0 <= k < |init| && init[k].channel == ch && init[k].week == Latest(init, ch).value;
        assert rows[k] == init[k];
      }
    }
  }

  /** Two stores with the same channels and weeks at the same places agree on every channel's latest week. */
  lemma LatestSameKeys(a: seq<Row>, b: seq<Row>, ch: Channel)
    requires |a| == |b|
    requires forall k :: 0 <= k < |a| ==> a[k].channel == b[k].channel && a[k].week == b[k].week
    ensures Latest(a, ch) == Latest(b, ch)
  {
    LatestSpec(a, ch);
    LatestSpec(b, ch);
    var la, lb := Latest(a, ch), Latest(b, ch);
    if la.Some? && lb.Some? {
      var ka :| 0 <= ka < |a| && a[ka].channel == ch && a[ka].week == la.value;
      var kb :| 0 <= kb < |b| && b[kb].channel == ch && b[kb].week == lb.value;
      assert b[ka].channel == ch;
      assert a[kb].channel == ch;
    }
  }

  lemma LatestAfterAppend(rows: seq<Row>, r: Row, ch: Channel)
    ensures r.channel != ch ==> Latest(rows + [r], ch) == Latest(rows, ch)
    ensures r.channel == ch ==> Latest(rows + [r], ch)
                                == match Latest(rows, ch)
                                   case None => Some(r.week)
                                   case Some(w) => Some(if r.week > w then r.week else w)
  {
    assert (rows + [r])[..|rows|] == rows;
  }

  // ---------------------------------------------------------------------
  // The guard
  // ---------------------------------------------------------------------

  /** The guard only fires or looks anything up when the week grows and something is stored. */
  lemma GuardSpec(existing: nat, needed: nat, week: int, latest: Option<int>)
    ensures IsUnsafeToSpillover(existing, needed, week, latest) == Unsafe
            <==> needed > existing > 0 && latest.Some? && latest.value > week
    ensures IsUnsafeToSpillover(existing, needed, week, latest) == LookupFailed
            <==> needed > existing > 0 && latest.None?
    ensures !(needed > existing > 0) ==> IsUnsafeToSpillover(existing, needed, week, latest) == Safe
  {
  }

  /** Writing this week's message for the channel keeps a safe guard safe. */
  lemma GuardSafeAfterPost(ctx: Ctx, ch: Channel, rows: seq<Row>, r: Row)
    requires Guard(ctx, ch, rows) == Safe
    requires r.channel == ch && r.week == ctx.week
    ensures Guard(ctx, ch, rows + [r]) == Safe
  {
    LatestAfterAppend(rows, r, ch);
  }

  lemma GuardSameAfterUpdate(ctx: Ctx, ch: Channel, rows: seq<Row>, week: int, ts: Ts, d: Channel, text: string)
    ensures Guard(ctx, ch, UpdateRows(rows, week, ts, d, text)) == Guard(ctx, ch, rows)
  {
    UpdateRowsKeepsKeys(rows, week, ts, d, text);
    LatestSameKeys(UpdateRows(rows, week, ts, d, text), rows, ch);
  }

  // ---------------------------------------------------------------------
  // No write without a guard check
  // ---------------------------------------------------------------------

  /** Every post and every update in the log comes right after a safe guard check for the same channel. */
  predicate GuardedLog(log: seq<Call>)
  {
    forall k :: 0 <= k < |log| && log[k].IsWrite() ==>
      1 <= k && log[k - 1] == GuardCheck(log[k].channel, Safe)
  }

  lemma GuardedAppendQuiet(log: seq<Call>, c: Call)
    requires GuardedLog(log) && !c.IsWrite()
    ensures GuardedLog(log + [c])
  {
  }

  lemma GuardedAppendWrite(log: seq<Call>, ch: Channel, c: Call)
    requires GuardedLog(log) && c.IsWrite() && c.channel == ch
    ensures GuardedLog(log + [GuardCheck(ch, Safe)] + [c])
  {
  }

  lemma StepGuarded(ctx: Ctx, ch: Channel, i: nat, w: World)
    requires Coherent(ctx) && i < |ctx.drafts|
    requires GuardedLog(w.log)
    ensures GuardedLog(Step(ctx, ch, i, w).0.log)
  {
    var mine := Mine(ctx, ch);
    var d := ctx.drafts[i];
    var v := Guard(ctx, ch, w.rows);
    if i > |mine| - 1 {
      if v != Safe {
        GuardedAppendQuiet(w.log, GuardCheck(ch, v));
      } else {
        GuardedAppendWrite(w.log, ch, PostCall(ch, d.text));
      }
    } else if ch in ctx.posted && d.text == mine[i].text {
    } else if ch in ctx.posted {
      if v != Safe {
        GuardedAppendQuiet(w.log, GuardCheck(ch, v));
      } else {
        GuardedAppendWrite(w.log, ch, UpdateCall(ch, mine[i].ts, d.text));
      }
    } else {
      assert false;
    }
  }

  lemma ChannelGuarded(ctx: Ctx, ch: Channel, i: nat, w: World)
    requires Coherent(ctx) && GuardedLog(w.log)
    ensures GuardedLog(ChannelFrom(ctx, ch, i, w).0.log)
  {
    var P := (x: World) => GuardedLog(x.log);
    forall k: nat, x | k < |ctx.drafts| && P(x)
      ensures P(Step(ctx, ch, k, x).0)
    {
      StepGuarded(ctx, ch, k, x);
    }
    ChannelFromKeeps(ctx, ch, i, w, P);
  }

  lemma {:induction false} PassGuarded(ctx: Ctx, channels: seq<Channel>, j: nat, w: World)
    requires Coherent(ctx) && GuardedLog(w.log)
    ensures GuardedLog(PassFrom(ctx, channels, j, w).0.log)
    decreases |channels| - j
  {
    if j < |channels| {
      ChannelGuarded(ctx, channels[j], 0, w);
      var (next, st) := ChannelFrom(ctx, channels[j], 0, w);
      if st == Spillover {
        GuardedAppendQuiet(next.log, SpilloverLogged(channels[j], ctx.existing, |ctx.drafts|));
        PassGuarded(ctx, channels, j + 1, next.(log := next.log + [SpilloverLogged(channels[j], ctx.existing, |ctx.drafts|)]));
      } else if st == Continue {
        PassGuarded(ctx, channels, j + 1, next);
      }
    }
  }

  /** Over a whole check_api run, no post and no update is made without a safe guard check just before it. */
  lemma CheckApiGuarded(w: World, channels: seq<Channel>, today: int, feed: seq<Feed.RawEvent>,
                        printTime: int -> string, quote: string -> string, weekLabel: int -> string)
    requires GuardedLog(w.log)
    ensures GuardedLog(CheckApi(w, channels, today, feed, printTime, quote, weekLabel).0.log)
  {
    var week1 := Week.WeekStart(today);
    var drafts1 := WeekDrafts(today, feed, printTime, quote, weekLabel);
    MakeCtxCoherent(w.rows, channels, week1, drafts1);
    PassGuarded(MakeCtx(w.rows, channels, week1, drafts1), channels, 0, w);
    var (first, crashed) := Pass(w, channels, week1, drafts1);
    var week2 := Week.WeekStart(today + Week.LookAheadDays);
    var drafts2 := WeekDrafts(today + Week.LookAheadDays, feed, printTime, quote, weekLabel);
    MakeCtxCoherent(first.rows, channels, week2, drafts2);
    PassGuarded(MakeCtx(first.rows, channels, week2, drafts2), channels, 0, first);
  }

  // ---------------------------------------------------------------------
  // A channel whose guard fires is left as it was
  // ---------------------------------------------------------------------

  /**
   * When the guard is unsafe for a channel, the channel's loop writes
   * nothing: the store and Slack are unchanged; either every remaining
   * position was unchanged and skipped, or the first guard check came back
   * unsafe and ended the channel with a spillover.
   */
  lemma {:induction false} UnsafeChannelUntouched(ctx: Ctx, ch: Channel, i: nat, w: World)
    requires Coherent(ctx)
    requires Guard(ctx, ch, w.rows) == Unsafe
    ensures var (next, st) := ChannelFrom(ctx, ch, i, w);
            && next.rows == w.rows && next.timelines == w.timelines
            && (st == Continue || st == Spillover)
            && (st == Continue ==> next.log == w.log && (|ctx.drafts| <= |Mine(ctx, ch)| || i >= |ctx.drafts|))
            && (st == Spillover ==> next.log == w.log + [GuardCheck(ch, Unsafe)])
    decreases |ctx.drafts| - i
  {
    if i < |ctx.drafts| {
      var mine := Mine(ctx, ch);
      var d := ctx.drafts[i];
      if i > |mine| - 1 {
      } else if ch in ctx.posted && d.text == mine[i].text {
        UnsafeChannelUntouched(ctx, ch, i + 1, w);
      } else if ch in ctx.posted {
      } else {
        assert false;
      }
    }
  }

  /** A step taken while the guard is not unsafe raises no spillover, and leaves the guard not unsafe. */
  lemma StepNoSpillover(ctx: Ctx, ch: Channel, i: nat, w: World)
    requires Coherent(ctx) && i < |ctx.drafts| && Guard(ctx, ch, w.rows) != Unsafe
    ensures Step(ctx, ch, i, w).1 != Spillover
    ensures Step(ctx, ch, i, w).1 == Continue ==> Guard(ctx, ch, Step(ctx, ch, i, w).0.rows) != Unsafe
  {
    var mine := Mine(ctx, ch);
    var d := ctx.drafts[i];
    if Guard(ctx, ch, w.rows) == Safe {
      if i > |mine| - 1 {
        var posted := Post(w.timelines, ch, d);
        GuardSafeAfterPost(ctx, ch, w.rows, Row(ctx.week, ch, posted.1, d.text, i));
      } else if ch in ctx.posted && d.text == mine[i].text {
      } else if ch in ctx.posted {
        GuardSameAfterUpdate(ctx, ch, w.rows, ctx.week, mine[i].ts, ch, d.text);
      } else {
        assert false;
      }
    }
  }

  /** A spillover is decided on entry: the guard was already unsafe on the store the channel started from. */
  lemma {:induction false} SpilloverDecidedOnEntry(ctx: Ctx, ch: Channel, i: nat, w: World)
    requires Coherent(ctx)
    ensures ChannelFrom(ctx, ch, i, w).1 == Spillover ==> Guard(ctx, ch, w.rows) == Unsafe
    decreases |ctx.drafts| - i
  {
    if i < |ctx.drafts| && Guard(ctx, ch, w.rows) != Unsafe {
      StepNoSpillover(ctx, ch, i, w);
      var r := Step(ctx, ch, i, w);
      if r.1 == Continue {
        SpilloverDecidedOnEntry(ctx, ch, i + 1, r.0);
      }
    }
  }

  /**
   * A spillover case: a channel holds one message for
   * week W and a message for week W + 7, and W now needs two messages; the
   * pass logs the spillover and W keeps its single stored message.
   */
  lemma SpilloverExample(ch: Channel, week: int, first: string, later: string, drafts: seq<Message>)
    requires |drafts| == 2
    ensures var w := World([Row(week, ch, 0, first, 0), Row(week + 7, ch, 1, later, 0)], map[], []);
            var (next, crashed) := Pass(w, [ch], week, drafts);
            && !crashed
            && next.rows == w.rows && next.timelines == w.timelines
            && |next.log| >= 1 && next.log[|next.log| - 1] == SpilloverLogged(ch, 1, 2)
  {
    var rows := [Row(week, ch, 0, first, 0), Row(week + 7, ch, 1, later, 0)];
    var w := World(rows, map[], []);
    var ctx := MakeCtx(rows, [ch], week, drafts);
    assert rows[..1] == [rows[0]] && [rows[0]][..0] == [];
    assert RowsOfWeek(rows, [ch], week) == [rows[0]];
    assert DetailsMap([rows[0]]) == DetailsMap([])[ch := Get(DetailsMap([]), ch) + [Detail(0, first)]];
    assert Get(map[], ch) + [Detail(0, first)] == [Detail(0, first)];
    assert Mine(ctx, ch) == [Detail(0, first)];
    assert Latest([rows[0]], ch) == Some(week);
    assert Latest(rows, ch) == Some(week + 7);
    assert Guard(ctx, ch, rows) == Unsafe;
    MakeCtxCoherent(rows, [ch], week, drafts);
    UnsafeChannelUntouched(ctx, ch, 0, w);
    var (next, st) := ChannelFrom(ctx, ch, 0, w);
    assert st == Spillover;
    assert Pass(w, [ch], week, drafts) == PassFrom(ctx, [ch], 1, next.(log := next.log + [SpilloverLogged(ch, 1, 2)]));
  }

  /** The rows of the example above for week W: the two W rows, in store order. */
  lemma ExampleRowsOfWeek(rows: seq<Row>, chans: seq<Channel>, week: int)
    requires |rows| == 3 && |chans| == 2
    requires rows[0].week == week && rows[0].channel == chans[0]
    requires rows[1].week == week && rows[1].channel == chans[1]
    requires rows[2].week != week
    ensures RowsOfWeek(rows, chans, week) == [rows[0], rows[1]]
  {
    assert rows[..2] == [rows[0], rows[1]] && rows[..2][..1] == [rows[0]] && [rows[0]][..0] == [];
    assert InWeek(rows[0], chans, week) && InWeek(rows[1], chans, week) && !InWeek(rows[2], chans, week);
    assert RowsOfWeek([rows[0]], chans, week) == [rows[0]];
    assert RowsOfWeek(rows[..2], chans, week) == RowsOfWeek([rows[0]], chans, week) + [rows[1]];
  }

  /** The latest week of the example's first channel is that of its last row. */
  lemma ExampleLatest(rows: seq<Row>, a: Channel, week: int)
    requires |rows| == 3 && rows[0].week == week && rows[0].channel == a
    requires rows[1].channel != a && rows[2].channel == a && rows[2].week == week + 7
    ensures Latest(rows, a) == Some(week + 7)
  {
    assert rows[..2] == [rows[0], rows[1]] && rows[..2][..1] == [rows[0]] && [rows[0]][..0] == [];
    assert Latest([rows[0]], a) == Some(week);
    assert Latest(rows[..2], a) == Some(week);
  }

  /**
   * The guard counts the week's rows over all channels. Two channels that
   * each hold one message for week W, with the first also holding a message
   * for W + 7, make the count 2; a week that now needs two messages passes
   * the guard, and the first channel's second message is posted after its
   * W + 7 message.
   */
  lemma GuardCountsAllChannels(a: Channel, b: Channel, week: int, ta: string, tb: string, later: string,
                               drafts: seq<Message>)
    requires a != b && |drafts| == 2
    ensures var rows := [Row(week, a, 0, ta, 0), Row(week, b, 0, tb, 0), Row(week + 7, a, 1, later, 0)];
            var ctx := MakeCtx(rows, [a, b], week, drafts);
            var w := World(rows, map[], []);
            && ctx.existing == 2
            && |Mine(ctx, a)| == 1
            && Latest(rows, a) == Some(week + 7)
            && Guard(ctx, a, rows) == Safe
            && Step(ctx, a, 1, w) == (PostDraft(ctx, a, 1, w.(log := [GuardCheck(a, Safe)])), Continue)
  {
    var rows := [Row(week, a, 0, ta, 0), Row(week, b, 0, tb, 0), Row(week + 7, a, 1, later, 0)];
    var chans := [a, b];
    var weekRows := RowsOfWeek(rows, chans, week);
    ExampleRowsOfWeek(rows, chans, week);
    ExampleLatest(rows, a, week);
    DetailsMapSpec(weekRows, a);
    assert weekRows[..1] == [rows[0]];
    assert DetailsOf([rows[0]], a) == [Detail(0, ta)];
    assert DetailsOf(weekRows, a) == [Detail(0, ta)];
    var ctx := MakeCtx(rows, chans, week, drafts);
    assert ctx.existing == 2;
    assert |Mine(ctx, a)| == 1;
    assert Latest(rows, a) == Some(week + 7);
    assert Guard(ctx, a, rows) == Safe;
    var w := World(rows, map[], []);
    assert w.log + [GuardCheck(a, Safe)] == [GuardCheck(a, Safe)];
    assert Checked(ctx, a, w) == (w.(log := [GuardCheck(a, Safe)]), Safe);
    assert Step(ctx, a, 1, w) == (PostDraft(ctx, a, 1, w.(log := [GuardCheck(a, Safe)])), Continue);
  }

  /**
   * A changed position is updated in place: the message keeps its ts and
   * its place in the channel, and the rows keep their keys, only the rows of
   * that week, ts and channel taking the new text.
   */
  lemma UpdateKeepsIdentity(ctx: Ctx, ch: Channel, i: nat, w: World)
    requires i < |ctx.drafts| && i < |Mine(ctx, ch)| && ch in ctx.posted
    requires ctx.drafts[i].text != Mine(ctx, ch)[i].text
    requires Guard(ctx, ch, w.rows) == Safe
    requires HasMessage(w.timelines, ch, Mine(ctx, ch)[i].ts)
    ensures var ts := Mine(ctx, ch)[i].ts;
            var (next, st) := Step(ctx, ch, i, w);
            && st == Continue
            && Timeline(next.timelines, ch) == Timeline(w.timelines, ch)[ts := ctx.drafts[i]]
            && |next.rows| == |w.rows|
            && (forall k :: 0 <= k < |w.rows| ==>
                  next.rows[k].week == w.rows[k].week && next.rows[k].channel == w.rows[k].channel
                  && next.rows[k].ts == w.rows[k].ts && next.rows[k].position == w.rows[k].position
                  && next.rows[k].text == (if Matches(w.rows[k], ctx.week, ts, ch) then ctx.drafts[i].text
                                           else w.rows[k].text))
            && next.log == w.log + [GuardCheck(ch, Safe), UpdateCall(ch, ts, ctx.drafts[i].text)]
  {
    UpdateRowsKeepsKeys(w.rows, ctx.week, Mine(ctx, ch)[i].ts, ch, ctx.drafts[i].text);
  }

  /**
   * A position at or past the channel's stored count is posted at the end of
   * the channel and recorded under the new message's ts with its position.
   */
  lemma PostRecordsPosition(ctx: Ctx, ch: Channel, i: nat, w: World)
    requires |Mine(ctx, ch)| <= i < |ctx.drafts|
    requires Guard(ctx, ch, w.rows) == Safe
    ensures var (next, st) := Step(ctx, ch, i, w);
            var ts := |Timeline(w.timelines, ch)|;
            && st == Continue
            && Timeline(next.timelines, ch) == Timeline(w.timelines, ch) + [ctx.drafts[i]]
            && Timeline(next.timelines, ch)[ts] == ctx.drafts[i]
            && next.rows == w.rows + [Row(ctx.week, ch, ts, ctx.drafts[i].text, i)]
            && next.log == w.log + [GuardCheck(ch, Safe), PostCall(ch, ctx.drafts[i].text)]
  {
  }

  // ---------------------------------------------------------------------
  // Channels do not interfere
  // ---------------------------------------------------------------------

  function ChannelRows(rows: seq<Row>, ch: Channel): seq<Row>
    decreases |rows|
  {
    if rows == [] then []
    else
      var last := rows[|rows| - 1];
      ChannelRows(rows[..|rows| - 1], ch) + (if last.channel == ch then [last] else [])
  }

  function ChannelLog(log: seq<Call>, ch: Channel): seq<Call>
    decreases |log|
  {
    if log == [] then []
    else
      var last := log[|log| - 1];
      ChannelLog(log[..|log| - 1], ch) + (if last.channel == ch then [last] else [])
  }

  /** What one channel can tell about the world: its Slack timeline, its rows, and the calls that name it. */
  datatype ChannelView = ChannelView(timeline: seq<Message>, rows: seq<Row>, calls: seq<Call>)

  function View(w: World, ch: Channel): ChannelView
  {
    ChannelView(Timeline(w.timelines, ch), ChannelRows(w.rows, ch), ChannelLog(w.log, ch))
  }

  lemma ChannelRowsAppend(rows: seq<Row>, r: Row, ch: Channel)
    ensures ChannelRows(rows + [r], ch) == ChannelRows(rows, ch) + (if r.channel == ch then [r] else [])
  {
    assert (rows + [r])[..|rows|] == rows;
  }

  lemma ChannelLogAppend(log: seq<Call>, c: Call, ch: Channel)
    ensures ChannelLog(log + [c], ch) == ChannelLog(log, ch) + (if c.channel == ch then [c] else [])
  {
    assert (log + [c])[..|log|] == log;
  }

  lemma UpdateRowsSnoc(rows: seq<Row>, r: Row, week: int, ts: Ts, d: Channel, text: string)
    ensures UpdateRows(rows + [r], week, ts, d, text)
         == UpdateRows(rows, week, ts, d, text) + [if Matches(r, week, ts, d) then r.(text := text) else r]
  {
  }

  lemma {:induction false} ChannelRowsUpdate(rows: seq<Row>, week: int, ts: Ts, d: Channel, text: string, ch: Channel)
    ensures ChannelRows(UpdateRows(rows, week, ts, d, text), ch)
         == if d == ch then UpdateRows(ChannelRows(rows, ch), week, ts, d, text) else ChannelRows(rows, ch)
    decreases |rows|
  {
    if rows != [] {
      var init := rows[..|rows| - 1];
      var last := rows[|rows| - 1];
      assert rows == init + [last];
      var u := if Matches(last, week, ts, d) then last.(text := text) else last;
      UpdateRowsSnoc(init, last, week, ts, d, text);
      ChannelRowsUpdate(init, week, ts, d, text, ch);
      ChannelRowsAppend(UpdateRows(init, week, ts, d, text), u, ch);
      ChannelRowsAppend(init, last, ch);
      if d == ch && last.channel == ch {
        UpdateRowsSnoc(ChannelRows(init, ch), last, week, ts, d, text);
      }
    }
  }

  lemma {:induction false} LatestOfChannelRows(rows: seq<Row>, ch: Channel)
    ensures Latest(rows, ch) == Latest(ChannelRows(rows, ch), ch)
    decreases |rows|
  {
    if rows != [] {
      var init := rows[..|rows| - 1];
      var last := rows[|rows| - 1];
      LatestOfChannelRows(init, ch);
      if last.channel == ch {
        assert ChannelRows(rows, ch) == ChannelRows(init, ch) + [last];
        LatestAfterAppend(ChannelRows(init, ch), last, ch);
        assert rows == init + [last];
        LatestAfterAppend(init, last, ch);
      } else {
        assert ChannelRows(rows, ch) == ChannelRows(init, ch);
        assert Latest(rows, ch) == Latest(init, ch);
      }
    }
  }

  lemma GuardByView(ctx: Ctx, ch: Channel, w1: World, w2: World)
    requires ChannelRows(w1.rows, ch) == ChannelRows(w2.rows, ch)
    ensures Guard(ctx, ch, w1.rows) == Guard(ctx, ch, w2.rows)
  {
    LatestOfChannelRows(w1.rows, ch);
    LatestOfChannelRows(w2.rows, ch);
  }

  lemma CheckedOther(ctx: Ctx, ch: Channel, w: World, d: Channel)
    requires d != ch
    ensures View(Checked(ctx, ch, w).0, d) == View(w, d)
  {
    ChannelLogAppend(w.log, GuardCheck(ch, Guard(ctx, ch, w.rows)), d);
  }

  lemma CheckedLocal(ctx: Ctx, ch: Channel, w1: World, w2: World)
    requires View(w1, ch) == View(w2, ch)
    ensures Checked(ctx, ch, w1).1 == Checked(ctx, ch, w2).1
    ensures View(Checked(ctx, ch, w1).0, ch) == View(Checked(ctx, ch, w2).0, ch)
  {
    GuardByView(ctx, ch, w1, w2);
    ChannelLogAppend(w1.log, GuardCheck(ch, Guard(ctx, ch, w1.rows)), ch);
    ChannelLogAppend(w2.log, GuardCheck(ch, Guard(ctx, ch, w2.rows)), ch);
  }

  lemma PostDraftOther(ctx: Ctx, ch: Channel, i: nat, w: World, d: Channel)
    requires i < |ctx.drafts| && d != ch
    ensures View(PostDraft(ctx, ch, i, w), d) == View(w, d)
  {
    var m := ctx.drafts[i];
    var (tl, ts) := Post(w.timelines, ch, m);
    ChannelRowsAppend(w.rows, Row(ctx.week, ch, ts, m.text, i), d);
    ChannelLogAppend(w.log, PostCall(ch, m.text), d);
  }

  lemma PostDraftLocal(ctx: Ctx, ch: Channel, i: nat, w1: World, w2: World)
    requires i < |ctx.drafts| && View(w1, ch) == View(w2, ch)
    ensures View(PostDraft(ctx, ch, i, w1), ch) == View(PostDraft(ctx, ch, i, w2), ch)
  {
    var m := ctx.drafts[i];
    var (tl1, ts1) := Post(w1.timelines, ch, m);
    var (tl2, ts2) := Post(w2.timelines, ch, m);
    ChannelRowsAppend(w1.rows, Row(ctx.week, ch, ts1, m.text, i), ch);
    ChannelRowsAppend(w2.rows, Row(ctx.week, ch, ts2, m.text, i), ch);
    ChannelLogAppend(w1.log, PostCall(ch, m.text), ch);
    ChannelLogAppend(w2.log, PostCall(ch, m.text), ch);
  }

  lemma UpdateDraftOther(ctx: Ctx, ch: Channel, i: nat, ts: Ts, w: World, d: Channel)
    requires i < |ctx.drafts| && d != ch
    ensures View(UpdateDraft(ctx, ch, i, ts, w).0, d) == View(w, d)
  {
    var m := ctx.drafts[i];
    ChannelLogAppend(w.log, UpdateCall(ch, ts, m.text), d);
    ChannelRowsUpdate(w.rows, ctx.week, ts, ch, m.text, d);
  }

  lemma UpdateDraftLocal(ctx: Ctx, ch: Channel, i: nat, ts: Ts, w1: World, w2: World)
    requires i < |ctx.drafts| && View(w1, ch) == View(w2, ch)
    ensures UpdateDraft(ctx, ch, i, ts, w1).1 == UpdateDraft(ctx, ch, i, ts, w2).1
    ensures View(UpdateDraft(ctx, ch, i, ts, w1).0, ch) == View(UpdateDraft(ctx, ch, i, ts, w2).0, ch)
  {
    var m := ctx.drafts[i];
    ChannelLogAppend(w1.log, UpdateCall(ch, ts, m.text), ch);
    ChannelLogAppend(w2.log, UpdateCall(ch, ts, m.text), ch);
    ChannelRowsUpdate(w1.rows, ctx.week, ts, ch, m.text, ch);
    ChannelRowsUpdate(w2.rows, ctx.week, ts, ch, m.text, ch);
  }

  /** A step in one channel is invisible from any other channel. */
  lemma StepOther(ctx: Ctx, ch: Channel, i: nat, w: World, d: Channel)
    requires i < |ctx.drafts| && d != ch
    ensures View(Step(ctx, ch, i, w).0, d) == View(w, d)
  {
    var mine := Mine(ctx, ch);
    var c := Checked(ctx, ch, w);
    CheckedOther(ctx, ch, w, d);
    if i > |mine| - 1 {
      if c.1 == Safe {
        PostDraftOther(ctx, ch, i, c.0, d);
      }
    } else if ch in ctx.posted && ctx.drafts[i].text == mine[i].text {
    } else if ch in ctx.posted {
      if c.1 == Safe {
        UpdateDraftOther(ctx, ch, i, mine[i].ts, c.0, d);
      }
    } else {
      PostDraftOther(ctx, ch, i, w, d);
    }
  }

  /** A step in a channel depends only on that channel's view, and changes it the same way. */
  lemma StepLocal(ctx: Ctx, ch: Channel, i: nat, w1: World, w2: World)
    requires i < |ctx.drafts| && View(w1, ch) == View(w2, ch)
    ensures Step(ctx, ch, i, w1).1 == Step(ctx, ch, i, w2).1
    ensures View(Step(ctx, ch, i, w1).0, ch) == View(Step(ctx, ch, i, w2).0, ch)
  {
    var mine := Mine(ctx, ch);
    var c1 := Checked(ctx, ch, w1);
    var c2 := Checked(ctx, ch, w2);
    CheckedLocal(ctx, ch, w1, w2);
    if i > |mine| - 1 {
      if c1.1 == Safe {
        PostDraftLocal(ctx, ch, i, c1.0, c2.0);
      }
    } else if ch in ctx.posted && ctx.drafts[i].text == mine[i].text {
    } else if ch in ctx.posted {
      if c1.1 == Safe {
        UpdateDraftLocal(ctx, ch, i, mine[i].ts, c1.0, c2.0);
      }
    } else {
      PostDraftLocal(ctx, ch, i, w1, w2);
    }
  }

  /** The loop of a channel over an arbitrary step function: it stops at the first step that does not continue. */
  function Run(step: (nat, World) -> (World, Status), n: nat, i: nat, w: World): (World, Status)
    decreases n - i
  {
    if i >= n then (w, Continue)
    else
      var r := step(i, w);
      if r.1 == Continue then Run(step, n, i + 1, r.0) else r
  }

  /** The steps of a channel's loop as a total function. */
  function StepsOf(ctx: Ctx, ch: Channel): (nat, World) -> (World, Status)
  {
    (k: nat, x: World) => if k < |ctx.drafts| then Step(ctx, ch, k, x) else (x, Continue)
  }

  lemma {:induction false} ChannelFromIsRun(ctx: Ctx, ch: Channel, i: nat, w: World)
    ensures ChannelFrom(ctx, ch, i, w) == Run(StepsOf(ctx, ch), |ctx.drafts|, i, w)
    decreases |ctx.drafts| - i
  {
    if i < |ctx.drafts| {
      var r := Step(ctx, ch, i, w);
      assert StepsOf(ctx, ch)(i, w) == r;
      if r.1 == Continue {
        ChannelFromIsRun(ctx, ch, i + 1, r.0);
      }
    }
  }

  /** A property of the world that every step keeps holds after the loop. */
  lemma {:induction false} RunKeeps(step: (nat, World) -> (World, Status), n: nat, i: nat, w: World,
                                    P: World -> bool)
    requires P(w)
    requires forall k: nat, x :: k < n && P(x) ==> P(step(k, x).0)
    ensures P(Run(step, n, i, w).0)
    decreases n - i
  {
    if i < n {
      var r := step(i, w);
      if r.1 == Continue {
        RunKeeps(step, n, i + 1, r.0, P);
      }
    }
  }

  /**
   * A relation between two worlds that every step keeps, with the same
   * status on both sides, holds after the loop.
   */
  lemma {:induction false} RunKeepsRelation(step: (nat, World) -> (World, Status), n: nat, i: nat,
                                            w1: World, w2: World, R: (World, World) -> bool)
    requires R(w1, w2)
    requires forall k: nat, x, y {:trigger R(x, y), step(k, x)} :: k < n && R(x, y) ==>
               step(k, x).1 == step(k, y).1 && R(step(k, x).0, step(k, y).0)
    ensures Run(step, n, i, w1).1 == Run(step, n, i, w2).1
    ensures R(Run(step, n, i, w1).0, Run(step, n, i, w2).0)
    decreases n - i
  {
    if i < n {
      var r1 := step(i, w1);
      var r2 := step(i, w2);
      if r1.1 == Continue {
        RunKeepsRelation(step, n, i + 1, r1.0, r2.0, R);
      }
    }
  }

  /** A property of the world that every step keeps holds after the channel's loop. */
  lemma ChannelFromKeeps(ctx: Ctx, ch: Channel, i: nat, w: World, P: World -> bool)
    requires P(w)
    requires forall k: nat, x :: k < |ctx.drafts| && P(x) ==> P(Step(ctx, ch, k, x).0)
    ensures P(ChannelFrom(ctx, ch, i, w).0)
  {
    var steps := StepsOf(ctx, ch);
    forall k: nat, x | k < |ctx.drafts| && P(x)
      ensures P(steps(k, x).0)
    {
      assert steps(k, x) == Step(ctx, ch, k, x);
    }
    RunKeeps(steps, |ctx.drafts|, i, w, P);
    ChannelFromIsRun(ctx, ch, i, w);
  }

  lemma ChannelFromOther(ctx: Ctx, ch: Channel, i: nat, w: World, d: Channel)
    requires d != ch
    ensures View(ChannelFrom(ctx, ch, i, w).0, d) == View(w, d)
  {
    var P := (x: World) => View(x, d) == View(w, d);
    forall k: nat, x | k < |ctx.drafts| && P(x)
      ensures P(Step(ctx, ch, k, x).0)
    {
      StepOther(ctx, ch, k, x, d);
    }
    ChannelFromKeeps(ctx, ch, i, w, P);
  }

  lemma ChannelFromLocal(ctx: Ctx, ch: Channel, i: nat, w1: World, w2: World)
    requires View(w1, ch) == View(w2, ch)
    ensures ChannelFrom(ctx, ch, i, w1).1 == ChannelFrom(ctx, ch, i, w2).1
    ensures View(ChannelFrom(ctx, ch, i, w1).0, ch) == View(ChannelFrom(ctx, ch, i, w2).0, ch)
  {
    var steps := StepsOf(ctx, ch);
    var R := (x: World, y: World) => View(x, ch) == View(y, ch);
    forall k: nat, x, y | k < |ctx.drafts| && R(x, y)
      ensures steps(k, x).1 == steps(k, y).1 && R(steps(k, x).0, steps(k, y).0)
    {
      StepLocal(ctx, ch, k, x, y);
    }
    RunKeepsRelation(steps, |ctx.drafts|, i, w1, w2, R);
    ChannelFromIsRun(ctx, ch, i, w1);
    ChannelFromIsRun(ctx, ch, i, w2);
  }

  /** One channel reconciled on its own, including the spillover it logs. */
  function Solo(ctx: Ctx, ch: Channel, w: World): World
  {
    var (next, st) := ChannelFrom(ctx, ch, 0, w);
    if st == Spillover then next.(log := next.log + [SpilloverLogged(ch, ctx.existing, |ctx.drafts|)]) else next
  }

  lemma SoloOther(ctx: Ctx, ch: Channel, w: World, d: Channel)
    requires d != ch
    ensures View(Solo(ctx, ch, w), d) == View(w, d)
  {
    ChannelFromOther(ctx, ch, 0, w, d);
    var (next, st) := ChannelFrom(ctx, ch, 0, w);
    ChannelLogAppend(next.log, SpilloverLogged(ch, ctx.existing, |ctx.drafts|), d);
  }

  lemma SoloLocal(ctx: Ctx, ch: Channel, w1: World, w2: World)
    requires View(w1, ch) == View(w2, ch)
    ensures View(Solo(ctx, ch, w1), ch) == View(Solo(ctx, ch, w2), ch)
  {
    ChannelFromLocal(ctx, ch, 0, w1, w2);
    var (n1, st1) := ChannelFrom(ctx, ch, 0, w1);
    var (n2, st2) := ChannelFrom(ctx, ch, 0, w2);
    ChannelLogAppend(n1.log, SpilloverLogged(ch, ctx.existing, |ctx.drafts|), ch);
    ChannelLogAppend(n2.log, SpilloverLogged(ch, ctx.existing, |ctx.drafts|), ch);
  }

  predicate Distinct(channels: seq<Channel>)
  {
    forall a, b :: 0 <= a < b < |channels| ==> channels[a] != channels[b]
  }

  /**
   * Failure isolation: in a pass that does not die, every channel ends
   * exactly as if it had been reconciled alone from the starting world --
   * whatever the other channels did, a spillover included -- and a channel
   * the pass does not visit is untouched.
   */
  lemma {:induction false} PassIsolation(ctx: Ctx, channels: seq<Channel>, j: nat, w: World, ch: Channel)
    requires Distinct(channels) && j <= |channels|
    ensures var (final, crashed) := PassFrom(ctx, channels, j, w);
            !crashed ==>
              && (ch in channels[j..] ==> View(final, ch) == View(Solo(ctx, ch, w), ch))
              && (ch !in channels[j..] ==> View(final, ch) == View(w, ch))
    decreases |channels| - j
  {
    if j < |channels| {
      var here := channels[j];
      assert channels[j..] == [here] + channels[j + 1..];
      var (next, st) := ChannelFrom(ctx, here, 0, w);
      if st != Crash {
        var w1 := Solo(ctx, here, w);
        assert PassFrom(ctx, channels, j, w) == PassFrom(ctx, channels, j + 1, w1);
        PassIsolation(ctx, channels, j + 1, w1, ch);
        if ch == here {
          assert ch !in channels[j + 1..];
        } else {
          SoloOther(ctx, here, w, ch);
          if ch in channels[j + 1..] {
            SoloLocal(ctx, ch, w1, w);
          }
        }
      }
    }
  }

  // ---------------------------------------------------------------------
  // Unchanged drafts cause no call
  // ---------------------------------------------------------------------

  /** The texts stored for a week and a channel, in store order. */
  function StoredTexts(rows: seq<Row>, week: int, ch: Channel): seq<string>
    decreases |rows|
  {
    if rows == [] then []
    else
      var last := rows[|rows| - 1];
      StoredTexts(rows[..|rows| - 1], week, ch) + (if last.week == week && last.channel == ch then [last.text] else [])
  }

  function DraftTexts(drafts: seq<Message>): seq<string>
  {
    seq(|drafts|, k requires 0 <= k < |drafts| => drafts[k].text)
  }

  /**
   * The details message_details keeps for a listed channel carry exactly the
   * stored texts of the week; an unlisted channel has none.
   */
  lemma {:induction false} StoredTextsOfDetails(rows: seq<Row>, channels: seq<Channel>, week: int, ch: Channel)
    ensures var ds := DetailsOf(RowsOfWeek(rows, channels, week), ch);
            (ch !in channels ==> ds == []) &&
            (ch in channels ==>
               |ds| == |StoredTexts(rows, week, ch)| &&
               forall k :: 0 <= k < |ds| ==> ds[k].text == StoredTexts(rows, week, ch)[k])
    decreases |rows|
  {
    if rows != [] {
      var init := rows[..|rows| - 1];
      var last := rows[|rows| - 1];
      StoredTextsOfDetails(init, channels, week, ch);
      var before := RowsOfWeek(init, channels, week);
      if InWeek(last, channels, week) {
        assert RowsOfWeek(rows, channels, week) == before + [last];
        assert (before + [last])[..|before|] == before;
      } else {
        assert RowsOfWeek(rows, channels, week) == before;
      }
    }
  }

  lemma MineIsStored(rows: seq<Row>, channels: seq<Channel>, week: int, drafts: seq<Message>, ch: Channel)
    requires ch in channels
    ensures var mine := Mine(MakeCtx(rows, channels, week, drafts), ch);
            |mine| == |StoredTexts(rows, week, ch)| &&
            forall k :: 0 <= k < |mine| ==> mine[k].text == StoredTexts(rows, week, ch)[k]
  {
    DetailsMapSpec(RowsOfWeek(rows, channels, week), ch);
    StoredTextsOfDetails(rows, channels, week, ch);
  }

  /** A channel whose stored texts already start with the drafts' texts. */
  predicate Unchanged(ctx: Ctx, ch: Channel)
  {
    |ctx.drafts| <= |Mine(ctx, ch)| &&
    forall k :: 0 <= k < |ctx.drafts| ==> ctx.drafts[k].text == Mine(ctx, ch)[k].text
  }

  lemma {:induction false} ChannelQuiet(ctx: Ctx, ch: Channel, i: nat, w: World)
    requires Coherent(ctx) && Unchanged(ctx, ch)
    ensures ChannelFrom(ctx, ch, i, w) == (w, Continue)
    decreases |ctx.drafts| - i
  {
    if i < |ctx.drafts| {
      assert Mine(ctx, ch) != [];
      assert Step(ctx, ch, i, w) == (w, Continue);
      ChannelQuiet(ctx, ch, i + 1, w);
    }
  }

  lemma {:induction false} PassQuiet(ctx: Ctx, channels: seq<Channel>, j: nat, w: World)
    requires Coherent(ctx)
    requires forall k :: j <= k < |channels| ==> Unchanged(ctx, channels[k])
    ensures PassFrom(ctx, channels, j, w) == (w, false)
    decreases |channels| - j
  {
    if j < |channels| {
      ChannelQuiet(ctx, channels[j], 0, w);
      PassQuiet(ctx, channels, j + 1, w);
    }
  }

  /**
   * Idempotence on unchanged input: when every channel's stored texts for
   * the week start with the drafts' texts, a pass makes no call and writes
   * nothing.
   */
  lemma UnchangedWeekIsQuiet(w: World, channels: seq<Channel>, week: int, drafts: seq<Message>)
    requires forall ch :: ch in channels ==> DraftTexts(drafts) <= StoredTexts(w.rows, week, ch)
    ensures Pass(w, channels, week, drafts) == (w, false)
  {
    var ctx := MakeCtx(w.rows, channels, week, drafts);
    MakeCtxCoherent(w.rows, channels, week, drafts);
    forall k | 0 <= k < |channels| ensures Unchanged(ctx, channels[k]) {
      var ch := channels[k];
      MineIsStored(w.rows, channels, week, drafts, ch);
      assert forall n :: 0 <= n < |drafts| ==> DraftTexts(drafts)[n] == drafts[n].text;
    }
    PassQuiet(ctx, channels, 0, w);
  }

  lemma DraftTextsFrom(drafts: seq<Message>, i: nat)
    requires i < |drafts|
    ensures DraftTexts(drafts[i..]) == [drafts[i].text] + DraftTexts(drafts[i + 1..])
  {
  }

  lemma StoredTextsAppend(rows: seq<Row>, r: Row, week: int, ch: Channel)
    ensures StoredTexts(rows + [r], week, ch)
         == StoredTexts(rows, week, ch) + (if r.week == week && r.channel == ch then [r.text] else [])
  {
    assert (rows + [r])[..|rows|] == rows;
  }

  /** A position that continues hands the channel's loop on to the next position. */
  lemma ChannelFromContinues(ctx: Ctx, ch: Channel, i: nat, w: World)
    requires i < |ctx.drafts| && Step(ctx, ch, i, w).1 == Continue
    ensures ChannelFrom(ctx, ch, i, w) == ChannelFrom(ctx, ch, i + 1, Step(ctx, ch, i, w).0)
  {
  }

  /** In a week with nothing stored, a position is posted after a safe check, and stored as one more row. */
  lemma FreshStep(ctx: Ctx, ch: Channel, i: nat, w: World) returns (next: World)
    requires ctx.existing == 0 && Mine(ctx, ch) == [] && i < |ctx.drafts|
    ensures Step(ctx, ch, i, w) == (next, Continue)
    ensures |next.rows| == |w.rows| + 1 && next.rows[..|w.rows|] == w.rows
    ensures var r := next.rows[|w.rows|];
            r.week == ctx.week && r.channel == ch && r.text == ctx.drafts[i].text
  {
    next := PostDraft(ctx, ch, i, w.(log := w.log + [GuardCheck(ch, Safe)]));
    assert (w.rows + [next.rows[|w.rows|]])[..|w.rows|] == w.rows;
  }

  /** In a week nothing is stored for, every position of a channel is posted, in order, and the loop continues. */
  lemma {:induction false} FreshChannel(ctx: Ctx, ch: Channel, i: nat, w: World, d: Channel)
    requires ctx.existing == 0 && Mine(ctx, ch) == [] && i <= |ctx.drafts|
    ensures ChannelFrom(ctx, ch, i, w).1 == Continue
    ensures StoredTexts(ChannelFrom(ctx, ch, i, w).0.rows, ctx.week, d)
         == StoredTexts(w.rows, ctx.week, d) + (if d == ch then DraftTexts(ctx.drafts[i..]) else [])
    decreases |ctx.drafts| - i
  {
    if i < |ctx.drafts| {
      var next := FreshStep(ctx, ch, i, w);
      ChannelFromContinues(ctx, ch, i, w);
      var r := next.rows[|next.rows| - 1];
      StoredTextsAppend(w.rows, r, ctx.week, d);
      FreshChannel(ctx, ch, i + 1, next, d);
      DraftTextsFrom(ctx.drafts, i);
    } else {
      assert DraftTexts(ctx.drafts[i..]) == [];
    }
  }

  /** A channel whose loop continues hands the pass on to the next channel. */
  lemma PassFromContinues(ctx: Ctx, channels: seq<Channel>, j: nat, w: World)
    requires j < |channels| && ChannelFrom(ctx, channels[j], 0, w).1 == Continue
    ensures PassFrom(ctx, channels, j, w) == PassFrom(ctx, channels, j + 1, ChannelFrom(ctx, channels[j], 0, w).0)
  {
  }

  /** In a list without repeats, a channel is in a suffix exactly once. */
  lemma DistinctTail(channels: seq<Channel>, j: nat, d: Channel)
    requires Distinct(channels) && j < |channels|
    ensures d in channels[j..] <==> d == channels[j] || d in channels[j + 1..]
    ensures d == channels[j] ==> d !in channels[j + 1..]
  {
    assert channels[j..] == [channels[j]] + channels[j + 1..];
  }

  lemma {:induction false} FreshPass(ctx: Ctx, channels: seq<Channel>, j: nat, w: World, d: Channel)
    requires ctx.existing == 0 && ctx.details == map[] && Distinct(channels) && j <= |channels|
    ensures !PassFrom(ctx, channels, j, w).1
    ensures StoredTexts(PassFrom(ctx, channels, j, w).0.rows, ctx.week, d)
         == StoredTexts(w.rows, ctx.week, d) + (if d in channels[j..] then DraftTexts(ctx.drafts) else [])
    decreases |channels| - j
  {
    if j < |channels| {
      var here := channels[j];
      var all := DraftTexts(ctx.drafts);
      assert ctx.drafts[0..] == ctx.drafts;
      FreshChannel(ctx, here, 0, w, d);
      var mid := ChannelFrom(ctx, here, 0, w).0;
      var s0 := StoredTexts(w.rows, ctx.week, d);
      var s1 := StoredTexts(mid.rows, ctx.week, d);
      assert s1 == s0 + (if d == here then all else []);
      PassFromContinues(ctx, channels, j, w);
      FreshPass(ctx, channels, j + 1, mid, d);
      var s2 := StoredTexts(PassFrom(ctx, channels, j + 1, mid).0.rows, ctx.week, d);
      assert s2 == s1 + (if d in channels[j + 1..] then all else []);
      DistinctTail(channels, j, d);
      if d == here {
        assert s2 == s0 + all;
      } else {
        assert s1 == s0;
      }
    }
  }

  /**
   * A fresh week is posted once: when nothing is stored for the week, the
   * first pass does not die, and a second pass with the same drafts makes no
   * call and writes nothing.
   */
  lemma FreshWeekSecondPassQuiet(w: World, channels: seq<Channel>, week: int, drafts: seq<Message>)
    requires RowsOfWeek(w.rows, channels, week) == [] && Distinct(channels)
    ensures !Pass(w, channels, week, drafts).1
    ensures var first := Pass(w, channels, week, drafts).0;
            Pass(first, channels, week, drafts) == (first, false)
  {
    FreshWeekFirstPass(w, channels, week, drafts);
    UnchangedWeekIsQuiet(Pass(w, channels, week, drafts).0, channels, week, drafts);
  }

  /** The first pass over a fresh week stores every draft's text, in order, in every channel. */
  lemma FreshWeekFirstPass(w: World, channels: seq<Channel>, week: int, drafts: seq<Message>)
    requires RowsOfWeek(w.rows, channels, week) == [] && Distinct(channels)
    ensures !Pass(w, channels, week, drafts).1
    ensures forall ch :: ch in channels ==>
              DraftTexts(drafts) <= StoredTexts(Pass(w, channels, week, drafts).0.rows, week, ch)
  {
    var ctx := MakeCtx(w.rows, channels, week, drafts);
    assert ctx.details == map[] && ctx.existing == 0;
    var first := PassFrom(ctx, channels, 0, w).0;
    assert channels[0..] == channels;
    forall ch | ch in channels
      ensures DraftTexts(drafts) <= StoredTexts(first.rows, week, ch)
    {
      FreshPass(ctx, channels, 0, w, ch);
      NoRowsNoTexts(w.rows, channels, week, ch);
      assert StoredTexts(first.rows, week, ch) == [] + DraftTexts(drafts);
    }
    FreshPass(ctx, channels, 0, w, "");
  }

  lemma NoRowsNoTexts(rows: seq<Row>, channels: seq<Channel>, week: int, ch: Channel)
    requires RowsOfWeek(rows, channels, week) == [] && ch in channels
    ensures StoredTexts(rows, week, ch) == []
  {
    StoredTextsOfDetails(rows, channels, week, ch);
  }
}
