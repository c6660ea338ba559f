/**
 * The weekly digest builder (src/message_builder.py): one fragment per event
 * in the week, a message count computed from the total text length, and a
 * greedy packing of the fragments into header-prefixed messages under a
 * 3000-character cap.
 */
module MessageBuilder {
  import opened Wrappers
  import opened Text
  import opened Feed
  import opened Slack
  import Event

  const MaxMessageCharacterLength := 3000
  const HeaderBufferLength := 61
  /** The content budget one message is assumed to hold when counting messages. */
  const MessageBudget := MaxMessageCharacterLength - HeaderBufferLength

  const SupportedStatuses := ["cancelled", "upcoming", "past"]

  /** A rendered piece of a message: blocks plus plain text; `text_length` is `|text|`. */
  datatype Fragment = Fragment(blocks: seq<Block>, text: string)

  function TextLength(f: Fragment): nat { |f.text| }

  // ---------------------------------------------------------------------
  // Headers and event fragments
  // ---------------------------------------------------------------------

  const HeaderPrefix := "HackGreenville Events for the week of "
  const HeaderRule := "\n\n===\n\n"

  /** The header line; `weekLabel` is the week start printed as "%B %-d". */
  function HeaderTitle(weekLabel: string, index: nat, total: nat): string
  {
    HeaderPrefix + weekLabel + " - " + NatToString(index) + " of " + NatToString(total)
  }

  /** build_header: a header block and a divider; the text adds the "===" rule. */
  function BuildHeader(weekLabel: string, index: nat, total: nat): (h: Fragment)
  {
    var title := HeaderTitle(weekLabel, index, total);
    Fragment([HeaderBlock(title), Divider], title + HeaderRule)
  }

  /**
   * build_single_event_block: nothing for an event outside [weekStart,
   * weekEnd] (both ends included) or with an unsupported status; otherwise
   * the event's blocks and a divider, and its text followed by a blank line.
   */
  function BuildSingleEventBlock(raw: RawEvent, weekStart: int, weekEnd: int,
                                 printTime: int -> string, quote: string -> string): (r: Option<Fragment>)
    ensures r.Some? <==> weekStart <= raw.time <= weekEnd && raw.status in SupportedStatuses
    ensures r.Some? ==> r.value.text == Event.GenerateText(Event.FromEventJson(raw), printTime) + "\n\n"
  {
    var e := Event.FromEventJson(raw);
    if e.time < weekStart || e.time > weekEnd then None
    else if e.status !in SupportedStatuses then None
    else
      var text := Event.GenerateText(e, printTime) + "\n\n";
      Some(Fragment(Event.GenerateBlocks(e, printTime, quote) + [Divider], text))
  }

  /** The present values of a sequence of options, in order (Python's `filter(bool, ...)`). */
  function Somes<T>(opts: seq<Option<T>>): (r: seq<T>)
    ensures |r| <= |opts|
    decreases |opts|
  {
    if opts == [] then []
    else match opts[0]
      case None => Somes(opts[1..])
      case Some(v) => [v] + Somes(opts[1..])
  }

  /** build_event_blocks: one candidate per event of the feed, the absent ones dropped. */
  function BuildEventBlocks(feed: seq<RawEvent>, weekStart: int, weekEnd: int,
                            printTime: int -> string, quote: string -> string): (r: seq<Fragment>)
    ensures |r| <= |feed|
  {
    Somes(Map(feed, Builder(weekStart, weekEnd, printTime, quote)))
  }

  /** `f` applied to every element, in order (a list comprehension). */
  function Map<A, B>(xs: seq<A>, f: A -> B): seq<B>
  {
    seq(|xs|, i requires 0 <= i < |xs| => f(xs[i]))
  }

  /** build_single_event_block for one week, as the function the comprehension applies. */
  function Builder(weekStart: int, weekEnd: int, printTime: int -> string, quote: string -> string): RawEvent -> Option<Fragment>
  {
    raw => BuildSingleEventBlock(raw, weekStart, weekEnd, printTime, quote)
  }

  // ---------------------------------------------------------------------
  // Message count
  // ---------------------------------------------------------------------

  function SumLengths(frags: seq<Fragment>): nat
    decreases |frags|
  {
    if frags == [] then 0 else SumLengths(frags[..|frags| - 1]) + TextLength(frags[|frags| - 1])
  }

  /**
   * total_messages_needed: the total text length divided by the budget,
   * rounded up, and never less than one.
   */
  function TotalMessagesNeeded(frags: seq<Fragment>): (n: nat)
    ensures n >= 1
    ensures SumLengths(frags) == 0 ==> n == 1
    ensures SumLengths(frags) > 0 ==> (n - 1) * MessageBudget < SumLengths(frags) <= n * MessageBudget
  {
    var needed := (SumLengths(frags) + MessageBudget - 1) / MessageBudget;
    if needed == 0 then 1 else needed
  }

  // ---------------------------------------------------------------------
  // Greedy packing, as a specification
  // ---------------------------------------------------------------------

  function ConcatTexts(fs: seq<Fragment>): string
    decreases |fs|
  {
    if fs == [] then "" else ConcatTexts(fs[..|fs| - 1]) + fs[|fs| - 1].text
  }

  function ConcatBlocks(fs: seq<Fragment>): seq<Block>
    decreases |fs|
  {
    if fs == [] then [] else ConcatBlocks(fs[..|fs| - 1]) + fs[|fs| - 1].blocks
  }

  /** Message number `index` (1-based): its header followed by the fragments of its group. */
  function Assemble(weekLabel: string, index: nat, total: nat, group: seq<Fragment>): Message
  {
    var h := BuildHeader(weekLabel, index, total);
    Message(h.blocks + ConcatBlocks(group), h.text + ConcatTexts(group))
  }

  /** The two ways Partition extends its groups by one fragment. */
  function JoinGroups(groups: seq<seq<Fragment>>, f: Fragment): seq<seq<Fragment>>
    requires |groups| >= 1
  {
    groups[..|groups| - 1] + [groups[|groups| - 1] + [f]]
  }

  function OpenGroup(groups: seq<seq<Fragment>>, f: Fragment): seq<seq<Fragment>>
  {
    groups + [[f]]
  }

  predicate FitsOpen(groups: seq<seq<Fragment>>, f: Fragment, weekLabel: string, total: nat)
    requires |groups| >= 1
  {
    TextLength(f) + |Assemble(weekLabel, |groups|, total, groups[|groups| - 1]).text| < MaxMessageCharacterLength
  }

  /**
   * The groups of fragments the loop of chunk_messages forms: the next
   * fragment joins the open message when its length plus the message's
   * current length is under the cap, and opens a new message otherwise.
   */
  function Partition(frags: seq<Fragment>, weekLabel: string, total: nat): (groups: seq<seq<Fragment>>)
    ensures |groups| >= 1
    decreases |frags|
  {
    if frags == [] then [[]]
    else
      var groups := Partition(frags[..|frags| - 1], weekLabel, total);
      var f := frags[|frags| - 1];
      if FitsOpen(groups, f, weekLabel, total) then JoinGroups(groups, f) else OpenGroup(groups, f)
  }

  function AssembleAll(groups: seq<seq<Fragment>>, weekLabel: string, total: nat): seq<Message>
    decreases |groups|
  {
    if groups == [] then []
    else AssembleAll(groups[..|groups| - 1], weekLabel, total)
         + [Assemble(weekLabel, |groups|, total, groups[|groups| - 1])]
  }

  /** The messages chunk_messages returns. */
  function Chunks(frags: seq<Fragment>, weekLabel: string): seq<Message>
  {
    var total := TotalMessagesNeeded(frags);
    AssembleAll(Partition(frags, weekLabel, total), weekLabel, total)
  }

  function Flatten(groups: seq<seq<Fragment>>): seq<Fragment>
    decreases |groups|
  {
    if groups == [] then [] else Flatten(groups[..|groups| - 1]) + groups[|groups| - 1]
  }

  // ---------------------------------------------------------------------
  // chunk_messages
  // ---------------------------------------------------------------------

  /** Appending a fragment to a group extends the assembled message by that fragment. */
  lemma AssembleExtend(weekLabel: string, index: nat, total: nat, group: seq<Fragment>, f: Fragment)
    ensures Assemble(weekLabel, index, total, group + [f])
         == Message(Assemble(weekLabel, index, total, group).blocks + f.blocks,
                    Assemble(weekLabel, index, total, group).text + f.text)
  {
    assert (group + [f])[..|group|] == group;
  }

  /** One unfolding of Partition, in the shape the loop of ChunkMessages needs. */
  lemma PartitionAppend(frags: seq<Fragment>, f: Fragment, weekLabel: string, total: nat)
    ensures var groups := Partition(frags, weekLabel, total);
            var open := groups[|groups| - 1];
            Partition(frags + [f], weekLabel, total)
            == if TextLength(f) + |Assemble(weekLabel, |groups|, total, open).text| < MaxMessageCharacterLength
               then groups[..|groups| - 1] + [open + [f]]
               else groups + [[f]]
  {
    var longer := frags + [f];
    assert longer[..|longer| - 1] == frags;
    assert longer[|longer| - 1] == f;
    var groups := Partition(frags, weekLabel, total);
    assert Partition(longer, weekLabel, total)
        == if FitsOpen(groups, f, weekLabel, total) then JoinGroups(groups, f) else OpenGroup(groups, f);
  }

  /**
   * What chunk_messages holds after its loop has consumed `frags[..i]`: the
   * saved messages are all groups of the packing but the last, and the open
   * message is the last group assembled.
   */
  predicate ChunkingState(frags: seq<Fragment>, i: nat, weekLabel: string, total: nat,
                          messages: seq<Message>, blocks: seq<Block>, text: string)
    requires i <= |frags|
  {
    var groups := Partition(frags[..i], weekLabel, total);
    && |messages| == |groups| - 1
    && messages == AssembleAll(groups[..|groups| - 1], weekLabel, total)
    && Message(blocks, text) == Assemble(weekLabel, |groups|, total, groups[|groups| - 1])
  }

  /** A loop iteration that adds the fragment to the open message keeps ChunkingState. */
  lemma ChunkingStepJoin(frags: seq<Fragment>, i: nat, weekLabel: string, total: nat,
                         messages: seq<Message>, blocks: seq<Block>, text: string)
    requires i < |frags|
    requires ChunkingState(frags, i, weekLabel, total, messages, blocks, text)
    requires TextLength(frags[i]) + |text| < MaxMessageCharacterLength
    ensures ChunkingState(frags, i + 1, weekLabel, total, messages,
                          blocks + frags[i].blocks, text + frags[i].text)
  {
    var f := frags[i];
    assert frags[..i + 1] == frags[..i] + [f];
    PartitionAppend(frags[..i], f, weekLabel, total);
    var groups := Partition(frags[..i], weekLabel, total);
    var open := groups[|groups| - 1];
    var closed := groups[..|groups| - 1];
    AssembleExtend(weekLabel, |groups|, total, open, f);
    var next := closed + [open + [f]];
    assert next[..|next| - 1] == closed;
  }

  lemma AssembleAllSnoc(groups: seq<seq<Fragment>>, weekLabel: string, total: nat)
    requires groups != []
    ensures AssembleAll(groups, weekLabel, total)
         == AssembleAll(groups[..|groups| - 1], weekLabel, total)
          + [Assemble(weekLabel, |groups|, total, groups[|groups| - 1])]
  {
  }

  /**
   * A header is a header block and a divider; its text is the header
   * block's title followed by the "===" rule, and the title names the week
   * and the message number.
   */
  lemma HeaderShape(weekLabel: string, index: nat, total: nat)
    ensures var h := BuildHeader(weekLabel, index, total);
            && |h.blocks| == 2 && h.blocks[0].HeaderBlock? && h.blocks[1] == Divider
            && h.text == h.blocks[0].text + HeaderRule
            && IsPrefix(HeaderPrefix + weekLabel + " - " + NatToString(index), h.blocks[0].text)
  {
    var front := HeaderPrefix + weekLabel + " - " + NatToString(index);
    assert HeaderTitle(weekLabel, index, total) == front + (" of " + NatToString(total));
  }

  /** A message holding one fragment is its header followed by that fragment. */
  lemma AssembleSingle(weekLabel: string, index: nat, total: nat, f: Fragment)
    ensures Assemble(weekLabel, index, total, [f])
         == Message(BuildHeader(weekLabel, index, total).blocks + f.blocks,
                    BuildHeader(weekLabel, index, total).text + f.text)
  {
    assert [f][..0] == [];
    assert ConcatTexts([f]) == f.text;
    assert ConcatBlocks([f]) == f.blocks;
  }

  /** A loop iteration that saves the open message and opens a new one keeps ChunkingState. */
  lemma ChunkingStepOpen(frags: seq<Fragment>, i: nat, weekLabel: string, total: nat,
                         messages: seq<Message>, blocks: seq<Block>, text: string)
    requires i < |frags|
    requires ChunkingState(frags, i, weekLabel, total, messages, blocks, text)
    requires TextLength(frags[i]) + |text| >= MaxMessageCharacterLength
    ensures var h := BuildHeader(weekLabel, |messages| + 2, total);
            ChunkingState(frags, i + 1, weekLabel, total, messages + [Message(blocks, text)],
                          h.blocks + frags[i].blocks, h.text + frags[i].text)
  {
    var f := frags[i];
    assert frags[..i + 1] == frags[..i] + [f];
    PartitionAppend(frags[..i], f, weekLabel, total);
    var groups := Partition(frags[..i], weekLabel, total);
    AssembleAllSnoc(groups, weekLabel, total);
    AssembleSingle(weekLabel, |groups| + 1, total, f);
    var next := groups + [[f]];
    assert next[..|next| - 1] == groups;
  }

  method ChunkMessages(eventBlocks: seq<Fragment>, weekLabel: string) returns (messages: seq<Message>)
    ensures messages == Chunks(eventBlocks, weekLabel)
  {
    var total := TotalMessagesNeeded(eventBlocks);
    messages := [];
    var initialHeader := BuildHeader(weekLabel, 1, total);
    var blocks := initialHeader.blocks;
    var text := initialHeader.text;
    ChunkingStart(eventBlocks, weekLabel, total);
    for i := 0 to |eventBlocks|
      invariant ChunkingState(eventBlocks, i, weekLabel, total, messages, blocks, text)
    {
      var event := eventBlocks[i];
      if TextLength(event) + |text| < MaxMessageCharacterLength {
        // the event can be added to the open message
        ChunkingStepJoin(eventBlocks, i, weekLabel, total, messages, blocks, text);
        blocks := blocks + event.blocks;
        text := text + event.text;
      } else {
        // save the open message and start a new one
        ChunkingStepOpen(eventBlocks, i, weekLabel, total, messages, blocks, text);
        messages := messages + [Message(blocks, text)];
        var newHeader := BuildHeader(weekLabel, |messages| + 1, total);
        blocks := newHeader.blocks + event.blocks;
        text := newHeader.text + event.text;
      }
    }
    ChunkingFinish(eventBlocks, weekLabel, total, messages, blocks, text);
    messages := messages + [Message(blocks, text)];
  }

  /** Before the loop, the open message is the first header and nothing is saved. */
  lemma ChunkingStart(frags: seq<Fragment>, weekLabel: string, total: nat)
    ensures var h := BuildHeader(weekLabel, 1, total);
            ChunkingState(frags, 0, weekLabel, total, [], h.blocks, h.text)
  {
    assert frags[..0] == [];
    var h := BuildHeader(weekLabel, 1, total);
    assert h.blocks + ConcatBlocks([]) == h.blocks;
    assert h.text + ConcatTexts([]) == h.text;
  }

  /** After the loop, saving the open message gives every group assembled. */
  lemma ChunkingFinish(frags: seq<Fragment>, weekLabel: string, total: nat,
                       messages: seq<Message>, blocks: seq<Block>, text: string)
    requires ChunkingState(frags, |frags|, weekLabel, total, messages, blocks, text)
    ensures messages + [Message(blocks, text)] == AssembleAll(Partition(frags, weekLabel, total), weekLabel, total)
  {
    assert frags[..|frags|] == frags;
    var groups := Partition(frags, weekLabel, total);
    AssembleAllSnoc(groups, weekLabel, total);
  }

  // ---------------------------------------------------------------------
  // Properties of the packing
  // ---------------------------------------------------------------------

  lemma {:induction false} AssembleAllIndex(groups: seq<seq<Fragment>>, weekLabel: string, total: nat)
    ensures |AssembleAll(groups, weekLabel, total)| == |groups|
    ensures forall k :: 0 <= k < |groups| ==>
              AssembleAll(groups, weekLabel, total)[k] == Assemble(weekLabel, k + 1, total, groups[k])
    decreases |groups|
  {
    if groups != [] {
      var init := groups[..|groups| - 1];
      AssembleAllSnoc(groups, weekLabel, total);
      AssembleAllIndex(init, weekLabel, total);
      var all := AssembleAll(groups, weekLabel, total);
      var before := AssembleAll(init, weekLabel, total);
      assert all == before + [Assemble(weekLabel, |groups|, total, groups[|groups| - 1])];
      forall k | 0 <= k < |groups|
        ensures all[k] == Assemble(weekLabel, k + 1, total, groups[k])
      {
        if k < |init| {
          assert all[k] == before[k] && init[k] == groups[k];
        }
      }
    }
  }

  /** Packing reorders, drops and duplicates nothing: the groups concatenate to the input. */
  lemma {:induction false} PartitionFlatten(frags: seq<Fragment>, weekLabel: string, total: nat)
    ensures Flatten(Partition(frags, weekLabel, total)) == frags
    decreases |frags|
  {
    if frags != [] {
      var init := frags[..|frags| - 1];
      var f := frags[|frags| - 1];
      assert init + [f] == frags;
      var groups := Partition(init, weekLabel, total);
      PartitionFlatten(init, weekLabel, total);
      if FitsOpen(groups, f, weekLabel, total) {
        assert Partition(frags, weekLabel, total) == JoinGroups(groups, f);
        FlattenJoin(groups, f);
      } else {
        assert Partition(frags, weekLabel, total) == OpenGroup(groups, f);
        FlattenAppend(groups, [f]);
      }
    }
  }

  lemma FlattenAppend(groups: seq<seq<Fragment>>, g: seq<Fragment>)
    ensures Flatten(groups + [g]) == Flatten(groups) + g
  {
    assert (groups + [g])[..|groups|] == groups;
  }

  lemma FlattenJoin(groups: seq<seq<Fragment>>, f: Fragment)
    requires |groups| >= 1
    ensures Flatten(JoinGroups(groups, f)) == Flatten(groups) + [f]
  {
    var closed := groups[..|groups| - 1];
    var open := groups[|groups| - 1];
    FlattenAppend(closed, open + [f]);
    assert closed + [open] == groups;
    FlattenAppend(closed, open);
  }

  /** Every message after the first opens with a fragment. */
  predicate LaterGroupsNonEmpty(groups: seq<seq<Fragment>>)
  {
    forall k :: 1 <= k < |groups| ==> groups[k] != []
  }

  /**
   * Each fragment that joined a message fitted: its length plus the length
   * of the message so far is under the cap (an opening fragment of a later
   * message is exempt).
   */
  predicate JoinsFit(groups: seq<seq<Fragment>>, weekLabel: string, total: nat)
  {
    forall k, j :: 0 <= k < |groups| && 0 <= j < |groups[k]| && (k == 0 || j > 0) ==>
      TextLength(groups[k][j]) + |Assemble(weekLabel, k + 1, total, groups[k][..j]).text|
      < MaxMessageCharacterLength
  }

  /** The fragment that extended each later message did not fit into the one before it. */
  predicate OpenersOverflow(groups: seq<seq<Fragment>>, weekLabel: string, total: nat)
  {
    forall k :: 0 <= k < |groups| - 1 && groups[k + 1] != [] ==>
      TextLength(groups[k + 1][0]) + |Assemble(weekLabel, k + 1, total, groups[k]).text|
      >= MaxMessageCharacterLength
  }

  lemma PartitionStep(frags: seq<Fragment>, weekLabel: string, total: nat)
    requires frags != []
    ensures var groups := Partition(frags[..|frags| - 1], weekLabel, total);
            var f := frags[|frags| - 1];
            Partition(frags, weekLabel, total)
            == if FitsOpen(groups, f, weekLabel, total) then JoinGroups(groups, f) else OpenGroup(groups, f)
  {
  }

  lemma LaterGroupsNonEmptyStep(groups: seq<seq<Fragment>>, f: Fragment)
    requires |groups| >= 1 && LaterGroupsNonEmpty(groups)
    ensures LaterGroupsNonEmpty(JoinGroups(groups, f))
    ensures LaterGroupsNonEmpty(OpenGroup(groups, f))
  {
    var joined := JoinGroups(groups, f);
    assert forall k :: 0 <= k < |groups| - 1 ==> joined[k] == groups[k];
    var extended := OpenGroup(groups, f);
    assert forall k :: 0 <= k < |groups| ==> extended[k] == groups[k];
  }

  lemma JoinsFitAfterJoin(groups: seq<seq<Fragment>>, f: Fragment, weekLabel: string, total: nat)
    requires |groups| >= 1 && JoinsFit(groups, weekLabel, total)
    requires FitsOpen(groups, f, weekLabel, total)
    ensures JoinsFit(JoinGroups(groups, f), weekLabel, total)
  {
    var n := |groups|;
    var open := groups[n - 1];
    var next := JoinGroups(groups, f);
    forall k, j | 0 <= k < |next| && 0 <= j < |next[k]| && (k == 0 || j > 0)
      ensures TextLength(next[k][j]) + |Assemble(weekLabel, k + 1, total, next[k][..j]).text|
              < MaxMessageCharacterLength
    {
      if k < n - 1 {
        assert next[k] == groups[k];
      } else {
        assert next[k] == open + [f];
        if j < |open| {
          assert next[k][j] == open[j];
          assert next[k][..j] == open[..j];
        } else {
          assert next[k][j] == f;
          assert next[k][..j] == open;
        }
      }
    }
  }

  lemma JoinsFitAfterOpen(groups: seq<seq<Fragment>>, f: Fragment, weekLabel: string, total: nat)
    requires |groups| >= 1 && JoinsFit(groups, weekLabel, total)
    ensures JoinsFit(OpenGroup(groups, f), weekLabel, total)
  {
    var next := OpenGroup(groups, f);
    forall k, j | 0 <= k < |next| && 0 <= j < |next[k]| && (k == 0 || j > 0)
      ensures TextLength(next[k][j]) + |Assemble(weekLabel, k + 1, total, next[k][..j]).text|
              < MaxMessageCharacterLength
    {
      assert k < |groups| && next[k] == groups[k];
    }
  }

  lemma OverflowAfterJoin(groups: seq<seq<Fragment>>, f: Fragment, weekLabel: string, total: nat)
    requires |groups| >= 1 && LaterGroupsNonEmpty(groups) && OpenersOverflow(groups, weekLabel, total)
    ensures OpenersOverflow(JoinGroups(groups, f), weekLabel, total)
  {
    var n := |groups|;
    var next := JoinGroups(groups, f);
    assert forall k :: 0 <= k < n - 1 ==> next[k] == groups[k];
    if n >= 2 {
      assert groups[n - 1] != [];
      assert next[n - 1][0] == groups[n - 1][0];
    }
  }

  lemma OverflowAfterOpen(groups: seq<seq<Fragment>>, f: Fragment, weekLabel: string, total: nat)
    requires |groups| >= 1 && OpenersOverflow(groups, weekLabel, total)
    requires !FitsOpen(groups, f, weekLabel, total)
    ensures OpenersOverflow(OpenGroup(groups, f), weekLabel, total)
  {
    var n := |groups|;
    var next := OpenGroup(groups, f);
    assert forall k :: 0 <= k < n ==> next[k] == groups[k];
    assert next[n][0] == f;
  }

  lemma {:induction false} PartitionIsGreedy(frags: seq<Fragment>, weekLabel: string, total: nat)
    ensures var groups := Partition(frags, weekLabel, total);
            LaterGroupsNonEmpty(groups) && JoinsFit(groups, weekLabel, total) && OpenersOverflow(groups, weekLabel, total)
    decreases |frags|
  {
    if frags != [] {
      var init := frags[..|frags| - 1];
      var f := frags[|frags| - 1];
      PartitionIsGreedy(init, weekLabel, total);
      PartitionStep(frags, weekLabel, total);
      var groups := Partition(init, weekLabel, total);
      LaterGroupsNonEmptyStep(groups, f);
      if FitsOpen(groups, f, weekLabel, total) {
        JoinsFitAfterJoin(groups, f, weekLabel, total);
        OverflowAfterJoin(groups, f, weekLabel, total);
      } else {
        JoinsFitAfterOpen(groups, f, weekLabel, total);
        OverflowAfterOpen(groups, f, weekLabel, total);
      }
    }
  }

  /** Assembling a non-empty group is assembling all but its last fragment, then that fragment. */
  lemma AssembleLast(weekLabel: string, index: nat, total: nat, group: seq<Fragment>)
    requires group != []
    ensures |Assemble(weekLabel, index, total, group).text|
         == |Assemble(weekLabel, index, total, group[..|group| - 1]).text| + TextLength(group[|group| - 1])
  {
  }

  /**
   * What chunk_messages returns: one message per group of the packing, the
   * k-th (from 1) made of the header "k of total" and the k-th group; the
   * groups concatenate to the input fragments; every message is under the
   * cap unless it holds at most one fragment; and the first fragment of
   * each later message would not have fitted into the message before it.
   */
  lemma ChunksSpec(frags: seq<Fragment>, weekLabel: string)
    ensures var total := TotalMessagesNeeded(frags);
            var groups := Partition(frags, weekLabel, total);
            var messages := Chunks(frags, weekLabel);
            && |messages| == |groups|
            && Flatten(groups) == frags
            && (forall k :: 0 <= k < |messages| ==> messages[k] == Assemble(weekLabel, k + 1, total, groups[k]))
            && (forall k :: 1 <= k < |groups| ==> groups[k] != [])
            && (forall k :: 0 <= k < |messages| ==>
                  |messages[k].text| < MaxMessageCharacterLength || |groups[k]| <= 1)
            && (forall k :: 0 <= k < |messages| - 1 ==>
                  TextLength(groups[k + 1][0]) + |messages[k].text| >= MaxMessageCharacterLength)
  {
    var total := TotalMessagesNeeded(frags);
    var groups := Partition(frags, weekLabel, total);
    var messages := Chunks(frags, weekLabel);
    AssembleAllIndex(groups, weekLabel, total);
    PartitionFlatten(frags, weekLabel, total);
    PartitionIsGreedy(frags, weekLabel, total);
    forall k | 0 <= k < |messages|
      ensures |messages[k].text| < MaxMessageCharacterLength || |groups[k]| <= 1
    {
      if |groups[k]| > 1 {
        var j := |groups[k]| - 1;
        AssembleLast(weekLabel, k + 1, total, groups[k]);
        assert TextLength(groups[k][j]) + |Assemble(weekLabel, k + 1, total, groups[k][..j]).text|
               < MaxMessageCharacterLength;
      }
    }
  }

  /** Every message begins with its own header, numbered from 1 and naming the same total. */
  lemma ChunksHeaders(frags: seq<Fragment>, weekLabel: string)
    ensures var total := TotalMessagesNeeded(frags);
            var messages := Chunks(frags, weekLabel);
            |messages| >= 1 &&
            forall k :: 0 <= k < |messages| ==>
              IsPrefix(BuildHeader(weekLabel, k + 1, total).text, messages[k].text) &&
              |messages[k].blocks| >= 2 && messages[k].blocks[..2] == BuildHeader(weekLabel, k + 1, total).blocks
  {
    var total := TotalMessagesNeeded(frags);
    var groups := Partition(frags, weekLabel, total);
    AssembleAllIndex(groups, weekLabel, total);
  }

  /** A week without events still gets one message: the header "1 of 1" alone. */
  lemma ChunksOfEmptyWeek(weekLabel: string)
    ensures Chunks([], weekLabel) == [Message(BuildHeader(weekLabel, 1, 1).blocks, BuildHeader(weekLabel, 1, 1).text)]
  {
    assert SumLengths([]) == 0;
    var groups := Partition([], weekLabel, 1);
    assert groups == [[]];
    assert groups[..0] == [];
    var h := BuildHeader(weekLabel, 1, 1);
    assert Assemble(weekLabel, 1, 1, []) == Message(h.blocks + [], h.text + "");
    assert h.blocks + [] == h.blocks && h.text + "" == h.text;
    AssembleAllIndex(groups, weekLabel, 1);
  }

  /**
   * When the first fragment does not fit under the first header, the first
   * message is the header alone and the fragment opens message 2.
   */
  lemma {:induction false} FirstFragmentTooLong(frags: seq<Fragment>, weekLabel: string, total: nat)
    requires frags != []
    requires TextLength(frags[0]) + |BuildHeader(weekLabel, 1, total).text| >= MaxMessageCharacterLength
    ensures |Partition(frags, weekLabel, total)| >= 2
    ensures Partition(frags, weekLabel, total)[0] == []
    ensures Partition(frags, weekLabel, total)[1] != []
    ensures Partition(frags, weekLabel, total)[1][0] == frags[0]
    decreases |frags|
  {
    var init := frags[..|frags| - 1];
    var f := frags[|frags| - 1];
    if |frags| == 1 {
      assert init == [];
      assert Partition(frags, weekLabel, total) == [[], [f]];
    } else {
      assert init[0] == frags[0];
      FirstFragmentTooLong(init, weekLabel, total);
      var groups := Partition(init, weekLabel, total);
      var n := |groups|;
      if TextLength(f) + |Assemble(weekLabel, n, total, groups[n - 1]).text| < MaxMessageCharacterLength {
        var next := groups[..n - 1] + [groups[n - 1] + [f]];
        assert Partition(frags, weekLabel, total) == next;
        assert next[0] == groups[0];
        if n == 2 {
          assert next[1] == groups[1] + [f];
        } else {
          assert next[1] == groups[1];
        }
      } else {
        var next := groups + [[f]];
        assert Partition(frags, weekLabel, total) == next;
        assert next[0] == groups[0] && next[1] == groups[1];
      }
    }
  }

  lemma HeaderLength(weekLabel: string, index: nat, total: nat)
    requires 1 <= index < 10 && 1 <= total < 10
    ensures |BuildHeader(weekLabel, index, total).text| == 54 + |weekLabel|
  {
  }

  /**
   * The message count is computed from lengths before packing and can be
   * too small: three fragments of 1500 characters need three messages,
   * while the headers say "of 2".
   */
  lemma ChunkCountExceedsTotal(frags: seq<Fragment>, weekLabel: string)
    requires |frags| == 3 && |weekLabel| <= 100
    requires forall i :: 0 <= i < 3 ==> TextLength(frags[i]) == 1500
    ensures TotalMessagesNeeded(frags) == 2
    ensures |Chunks(frags, weekLabel)| == 3
  {
    assert frags[..2][..1] == frags[..1] && frags[..3] == frags && frags[..2][..1][..0] == [];
    assert SumLengths(frags[..0]) == 0;
    assert SumLengths(frags[..1]) == 1500;
    assert SumLengths(frags[..2]) == 3000;
    assert SumLengths(frags) == 4500;
    var total := TotalMessagesNeeded(frags);
    HeaderLength(weekLabel, 1, 2);
    HeaderLength(weekLabel, 2, 2);
    var g1 := Partition(frags[..1], weekLabel, total);
    assert Partition(frags[..0], weekLabel, total) == [[]];
    assert |Assemble(weekLabel, 1, 2, []).text| == 54 + |weekLabel|;
    assert [] + [frags[0]] == [frags[0]];
    assert g1 == [[frags[0]]];
    var g2 := Partition(frags[..2], weekLabel, total);
    assert |Assemble(weekLabel, 1, 2, [frags[0]]).text| == 54 + |weekLabel| + 1500;
    assert g2 == [[frags[0]], [frags[1]]];
    assert |Assemble(weekLabel, 2, 2, [frags[1]]).text| == 54 + |weekLabel| + 1500;
    assert |Partition(frags, weekLabel, total)| == 3;
    AssembleAllIndex(Partition(frags, weekLabel, total), weekLabel, total);
  }

  /**
   * The count can also be too large: one fragment of 2945 characters fits
   * under an empty week label in one message, while the header says "1 of 2".
   */
  lemma ChunkCountBelowTotal(f: Fragment)
    requires TextLength(f) == 2945
    ensures TotalMessagesNeeded([f]) == 2
    ensures Chunks([f], "") == [Assemble("", 1, 2, [f])]
  {
    assert [f][..0] == [];
    assert SumLengths([f]) == 2945;
    HeaderLength("", 1, 2);
    assert Partition([], "", 2) == [[]];
    assert |Assemble("", 1, 2, []).text| == 54;
    assert [] + [f] == [f];
    var groups := Partition([f], "", 2);
    assert groups == [[f]];
    assert groups[..0] == [];
    AssembleAllIndex(groups, "", 2);
  }

  /** Distinct message numbers give distinct header texts. */
  lemma HeaderIdentifiesIndex(weekLabel: string, i: nat, j: nat, total: nat)
    requires BuildHeader(weekLabel, i, total).text == BuildHeader(weekLabel, j, total).text
    ensures i == j
  {
    var front := HeaderPrefix + weekLabel + " - ";
    var di, dj := NatToString(i), NatToString(j);
    var t := NatToString(total);
    assert BuildHeader(weekLabel, i, total).text == front + di + " of " + t + HeaderRule;
    assert BuildHeader(weekLabel, j, total).text == front + dj + " of " + t + HeaderRule;
    CancelBack(front + di + " of " + t, front + dj + " of " + t, HeaderRule);
    CancelBack(front + di + " of ", front + dj + " of ", t);
    CancelBack(front + di, front + dj, " of ");
    CancelFront(front, di, dj);
    NatToStringInjective(i, j);
  }

  // ---------------------------------------------------------------------
  // Properties of the event fragments
  // ---------------------------------------------------------------------

  lemma {:induction false} SomesAppend<T>(a: seq<Option<T>>, b: seq<Option<T>>)
    ensures Somes(a + b) == Somes(a) + Somes(b)
    decreases |a|
  {
    if a == [] {
      assert a + b == b;
    } else {
      assert (a + b)[1..] == a[1..] + b;
      assert (a + b)[0] == a[0];
      SomesAppend(a[1..], b);
    }
  }

  lemma {:induction false} SomesMembers<T>(opts: seq<Option<T>>, v: T)
    ensures v in Somes(opts) <==> Some(v) in opts
    decreases |opts|
  {
    if opts != [] {
      SomesMembers(opts[1..], v);
      assert opts == [opts[0]] + opts[1..];
    }
  }

  /** Mapping a concatenation is concatenating the mapped parts. */
  lemma MapAppend<A, B>(a: seq<A>, b: seq<A>, f: A -> B)
    ensures Map(a + b, f) == Map(a, f) + Map(b, f)
  {
    forall i | 0 <= i < |a + b|
      ensures Map(a + b, f)[i] == (Map(a, f) + Map(b, f))[i]
    {
      if i < |a| {
        assert (a + b)[i] == a[i];
      } else {
        assert (a + b)[i] == b[i - |a|];
      }
    }
  }

  /** A value is in the mapped sequence exactly when some element maps to it. */
  lemma MapMembers<A, B>(xs: seq<A>, f: A -> B, y: B)
    ensures y in Map(xs, f) <==> exists i :: 0 <= i < |xs| && f(xs[i]) == y
  {
    if y in Map(xs, f) {
      var i :| 0 <= i < |xs| && Map(xs, f)[i] == y;
      assert f(xs[i]) == y;
    }
    if exists i :: 0 <= i < |xs| && f(xs[i]) == y {
      var i :| 0 <= i < |xs| && f(xs[i]) == y;
      assert Map(xs, f)[i] == y;
    }
  }

  /** Building fragments commutes with concatenating feeds. */
  lemma BuildEventBlocksAppend(a: seq<RawEvent>, b: seq<RawEvent>, weekStart: int, weekEnd: int,
                               printTime: int -> string, quote: string -> string)
    ensures BuildEventBlocks(a + b, weekStart, weekEnd, printTime, quote)
         == BuildEventBlocks(a, weekStart, weekEnd, printTime, quote)
          + BuildEventBlocks(b, weekStart, weekEnd, printTime, quote)
  {
    var build := Builder(weekStart, weekEnd, printTime, quote);
    MapAppend(a, b, build);
    SomesAppend(Map(a, build), Map(b, build));
  }

  /**
   * A fragment is kept exactly when some event of the feed builds it: every
   * kept fragment comes from an event in the week with a supported status.
   */
  lemma BuildEventBlocksMembers(feed: seq<RawEvent>, weekStart: int, weekEnd: int,
                                printTime: int -> string, quote: string -> string, f: Fragment)
    ensures f in BuildEventBlocks(feed, weekStart, weekEnd, printTime, quote)
        <==> exists i :: 0 <= i < |feed| && BuildSingleEventBlock(feed[i], weekStart, weekEnd, printTime, quote) == Some(f)
  {
    var build := Builder(weekStart, weekEnd, printTime, quote);
    SomesMembers(Map(feed, build), f);
    MapMembers(feed, build, Some(f));
    if exists i :: 0 <= i < |feed| && build(feed[i]) == Some(f) {
      var i :| 0 <= i < |feed| && build(feed[i]) == Some(f);
      assert BuildSingleEventBlock(feed[i], weekStart, weekEnd, printTime, quote) == Some(f);
    }
    if exists i :: 0 <= i < |feed| && BuildSingleEventBlock(feed[i], weekStart, weekEnd, printTime, quote) == Some(f) {
      var i :| 0 <= i < |feed| && BuildSingleEventBlock(feed[i], weekStart, weekEnd, printTime, quote) == Some(f);
      assert build(feed[i]) == Some(f);
    }
  }
}
