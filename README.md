# slack-events-bot, modelled in Dafny

HackGreenville's Slack events bot reads the Upstate event feed. It keeps
one run of messages per week in every configured Slack channel. The
messages list that week's events, split across as many messages as the
3000-character budget needs. Running the check again updates the stored
messages in place. It posts extra messages only when the next week has
not been posted yet ("spillover"). A small web front end rate-limits the
`/check_api` slash command: each Slack team gets one run per 15 minutes.
Two older bots are modelled too: `c4g-events.py` and `c4g/bot.py`. They
posted one message per event instead, and remembered (event, channel, ts)
rows.

The project has one module per file:

| file | module | models |
|---|---|---|
| `wrappers.dfy` | `Wrappers` | `Option` |
| `text.dfy` | `Text` | decimal rendering, Python's `str.title()`, line joining and splitting, substring search |
| `feed.dfy` | `Feed` | the raw feed record and how f-strings render its optional fields |
| `slack.dfy` | `Slack` | blocks, messages, and channel timelines with `chat_postMessage` / `chat_update` |
| `event.dfy` | `Event` | `src/event.py`: location parsing, truncation, status labels, blocks and backup text |
| `message_builder.dfy` | `MessageBuilder` | `src/message_builder.py`: headers, event fragments, the message count, greedy chunking |
| `week.dfy` | `Week` | the week arithmetic of `parse_events_for_week` and `check_api` |
| `bot.dfy` | `Bot` | `src/bot.py`: the reconciler as specification functions, and the class `Workspace` whose methods update the store and the Slack timelines in place |
| `bot_proofs.dfy` | `BotProofs` | properties of the reconciler |
| `server.dfy` | `Server` | `src/server.py`: team-domain extraction, request detection, the cooldown store (class `CooldownStore`) and the rate-limiting middleware |
| `legacy_store.dfy` | `LegacyStore` | the per-event synchronisation both older bots share (class `LegacyWorkspace`) |
| `legacy_proofs.dfy` | `LegacyProofs` | properties of that synchronisation |
| `c4g_event.dfy` | `C4gEvent` | `c4g/event.py` |
| `c4g_bot.dfy` | `C4gBot` | `check_api` of `c4g/bot.py` |
| `c4g_events_script.dfy` | `C4gEventsScript` | `c4g-events.py` |

## Modelling choices

**Slack and the store**
- A Slack `ts` is the index of the message in its channel's timeline. Posting appends; `chat_update` replaces one entry.
- A `chat_update` on a `ts` the channel does not have is the Slack API error. It ends the run.
- The SQLite tables are sequences of rows in insertion order.
- `get_messages` joins the messages with the channels table, so it returns only rows of channels that are still configured. The model filters on the channel list for the same effect.
- `get_most_recent_message_for_channel` is called by `src/bot.py` but defined in no shown file. It is modelled as the largest week stored for the channel. When the channel has no row, the lookup fails (`LookupFailed`): the Python code would index `None`, and the pass dies.

**Rate limiting**
- The cooldown store maps (team domain, resource) to an expiry instant in seconds.
- Creating a cooldown inserts, or overwrites, the expiry `now + minutes * 60`.
- The team domain is extracted with the exact semantics of the regular expression `team_domain=(.+?(?=&))`. The capture cannot contain a newline. It is the shortest non-empty run that is followed by `&`, so an empty `team_domain=` value captures the next field, starting with its `&`.

**Parameters**
- Time formatting is a parameter: `print_datetime`, `strftime('%B %-d')`, and `strftime('%B %-d, %Y %I:%M %p')`.
- `urllib.parse.quote` is a parameter.
- Feed times are integers (seconds).

**Modelling choices the code dictates:**
- `build_single_event_block` keeps an event at exactly the week end (`event.time > week_end` rejects only later times).
- The stored message position is the 0-based `msg_idx`.
- The spillover guard runs on updates as well as on posts.
- The guard compares the stored row count over all channels,
  `len(existing_messages)`, with the number of messages the week needs.
  - So a channel that is one message short can go unnoticed when other channels hold rows.
  - `BotProofs.GuardCountsAllChannels` shows such a case.

## Model

| member | source | states |
|---|---|---|
| Text.DigitChar | src/message_builder.py:24-25 | a digit below ten becomes the character whose code is '0' plus that digit |
| Text.NatToString | src/message_builder.py:24-25 | the decimal text of a number is non-empty and made of digits only |
| Text.ParseNatToString | src/message_builder.py:24-25 | reading the decimal text back gives the number: the rendering loses nothing |
| Text.NatToStringInjective | src/message_builder.py:24-25 | different numbers have different decimal texts |
| Text.TitleFrom | src/event.py:61 | title-casing keeps the length |
| Text.TitleFromSpec | src/event.py:61 | title-casing changes only case; uncased characters are copied; a cased character is upper-case exactly when it starts a word (the character before it is not cased) |
| Text.TitleSpec | src/event.py:61 | the same characterisation for `str.title()` from the start of the string |
| Text.TitleFromIdempotent | src/event.py:61 | title-casing an already title-cased text changes nothing |
| Text.TitleFromLowerTail | src/event.py:61 | lower-case letters that continue a word stay as they are |
| Text.TitleOfLowerWord | c4g-events.py:151 | a lower-case word becomes its first letter upper-cased followed by the rest unchanged |
| Text.TitleIdempotent | src/event.py:61 | `title()` is idempotent |
| Text.SplitLines | src/event.py:133-142 | splitting on newlines always yields at least one line |
| Text.SplitLineThenRest | src/event.py:133-142 | a newline-free first line followed by a newline splits off as the first line |
| Text.SplitJoinLines | src/event.py:133-142 | joining newline-free lines with newlines and splitting again gives back the same lines |
| Text.NoNewlineConcat | src/event.py:133-142 | two newline-free texts joined are newline-free |
| Text.FindFrom | src/server.py:42 | the search returns the first occurrence at or after the start, or none when there is none |
| Text.Contains | src/server.py:42 | `t in s` holds exactly when t occurs somewhere in s |
| Slack.Post | src/bot.py:53-61 | posting appends the message to that channel only and returns a `ts` that now names it |
| Slack.Update | src/bot.py:130-136 | updating replaces exactly the message at `ts` in that channel and leaves every other message and channel alone |
| Event.ParseLocation | src/event.py:10-31 | the location is missing exactly when the venue is missing |
| Event.TruncateString | src/event.py:34-36 | a text of at most 250 characters is kept; a longer one is cut to 250 characters plus "..."; the length follows |
| Event.TruncateIdempotent | src/event.py:34-36 | truncating twice is truncating once |
| Event.TruncateKeepsPrefix | src/event.py:34-36 | the kept part is a prefix of the result and the result is at most 253 characters |
| Event.LongTextEndsWithEllipsis | src/event.py:34-36 | an over-long text becomes exactly 253 characters ending in "..." |
| Event.TruncateNoNewline | src/event.py:34-36 | truncation introduces no newline |
| Event.TitleNoNewline | src/event.py:61 | title-casing introduces no newline |
| Event.PrintStatusNoNewline | src/event.py:50-61 | no status label introduces a newline |
| Event.StatusLabelStartsWithTitle | src/event.py:50-61 | every status label starts with the title-cased status (the known ones add an emoji) |
| Event.GetLocationUrl | src/event.py:39-47 | the text is "No location" exactly when there is no location; otherwise it is a Google Maps search link ending in a bar, the location and `>` |
| Event.PrintStatus | src/event.py:50-61 | the label is the plain title-cased status exactly when the status is none of upcoming, past and cancelled |
| Event.FromEventJson | src/event.py:94-105 | the location is missing exactly when the venue is; status, time and uuid are copied |
| Event.GenerateBlocksShape | src/event.py:107-131 | the blocks are a header of at most 253 characters and a section of eight fields, whose location field is "No location" exactly when the event has none |
| Event.JoinSixLines | src/event.py:133-142 | six lines joined are the six lines separated by newlines |
| Event.TextIsJoinedLines | src/event.py:133-142 | the backup text is the six field lines joined with newlines |
| Event.GenerateTextFieldOrder | src/event.py:133-142 | the backup text splits back into title, description, link, status, location and time, in that order, when no field holds a newline |
| Event.FullAddressBeatsCoordinates | src/event.py:15-26 | a complete address wins whatever the coordinates are |
| Event.ParseLocationFullVenue | tests/test_event.py:8-12 | the sample venue parses to "Gower Estates Park at 24 Evelyn Ave, Greenville, SC 29607" |
| Event.ParseLocationMissingState | tests/test_event.py:25-32 | without a state the sample venue falls back to "lat/long: 34.8300191, -82.3510954" |
| Event.ParseLocationMissingStateAndLatitude | tests/test_event.py:35-43 | without state and latitude it falls back to the venue name |
| MessageBuilder.BuildSingleEventBlock | src/message_builder.py:47-70 | a fragment is built exactly when the event lies in the week (both ends included) and has a supported status; its text is the event's backup text followed by a blank line |
| MessageBuilder.Somes | src/message_builder.py:79-87 | dropping the blanks never lengthens the list |
| MessageBuilder.BuildEventBlocks | src/message_builder.py:73-87 | there are at most as many fragments as feed events |
| MessageBuilder.SomesAppend | src/message_builder.py:79-87 | filtering a concatenation is concatenating the filtered parts |
| MessageBuilder.SomesMembers | src/message_builder.py:79-87 | a value survives the filter exactly when it was present |
| MessageBuilder.BuildEventBlocksAppend | src/message_builder.py:73-87 | the fragments of two feeds one after the other are the two fragment lists one after the other: feed order is kept |
| MessageBuilder.BuildEventBlocksMembers | src/message_builder.py:73-87 | a fragment is in the result exactly when some feed event builds it |
| MessageBuilder.TotalMessagesNeeded | src/message_builder.py:90-105 | at least one message; otherwise the exact ceiling of the total fragment length over 2939 |
| MessageBuilder.Partition | src/message_builder.py:108-142 | the chunking always yields at least one group |
| MessageBuilder.ChunkMessages | src/message_builder.py:108-142 | the loop produces exactly the specified chunking of the fragments |
| MessageBuilder.ChunkingStepJoin | src/message_builder.py:123-126 | a fragment that fits is appended to the open message, and the loop invariant is kept |
| MessageBuilder.ChunkingStepOpen | src/message_builder.py:129-137 | a fragment that does not fit closes the open message and starts the next one under header number count + 1, keeping the invariant |
| MessageBuilder.AssembleExtend | src/message_builder.py:123-126 | adding a fragment to a group appends its blocks and its text to the message |
| MessageBuilder.PartitionAppend | src/message_builder.py:121-137 | one more fragment joins the last group when it fits under 3000 characters, and starts a new group otherwise |
| MessageBuilder.PartitionStep | src/message_builder.py:121-137 | the same step stated for the last fragment of a non-empty list |
| MessageBuilder.AssembleAllIndex | src/message_builder.py:129-140 | message k is group k under header k + 1, and there is one message per group |
| MessageBuilder.PartitionFlatten | src/message_builder.py:121-140 | the groups, concatenated, are the fragments: none is lost, duplicated or reordered |
| MessageBuilder.LaterGroupsNonEmptyStep | src/message_builder.py:129-137 | both steps keep every group after the first non-empty |
| MessageBuilder.JoinsFitAfterJoin | src/message_builder.py:123-126 | joining a fragment that fits keeps every joined fragment within the budget |
| MessageBuilder.JoinsFitAfterOpen | src/message_builder.py:129-137 | opening a group keeps that property |
| MessageBuilder.OverflowAfterJoin | src/message_builder.py:123-126 | joining keeps "every group opener overflowed the previous message" |
| MessageBuilder.OverflowAfterOpen | src/message_builder.py:129-137 | a fragment that does not fit opens a group it overflowed |
| MessageBuilder.PartitionIsGreedy | src/message_builder.py:121-140 | the chunking is greedy: later groups are non-empty, every joined fragment fitted, every new group started because its first fragment overflowed |
| MessageBuilder.AssembleLast | src/message_builder.py:123-126 | a message's text length is the previous length plus the last fragment's length |
| MessageBuilder.ChunksSpec | src/message_builder.py:108-142 | the messages are the groups under numbered headers; together they hold every fragment in order; each is under 3000 characters unless its group is a single fragment; each message was closed only because the next fragment did not fit |
| MessageBuilder.ChunksHeaders | src/message_builder.py:19-44 | every message starts with its own header text and header plus divider blocks, numbered 1, 2, ... of the computed total |
| MessageBuilder.ChunksOfEmptyWeek | src/message_builder.py:112-142 | an empty week yields one message that is the header "1 of 1" alone |
| MessageBuilder.FirstFragmentTooLong | src/message_builder.py:123-140 | a first fragment that overflows even the first header leaves the first message as a bare header and moves the fragment to the second one |
| MessageBuilder.HeaderShape | src/message_builder.py:19-44 | a header is a header block and a divider; its text is the block's text plus the rule, and the block starts with the week label and the index |
| MessageBuilder.HeaderLength | src/message_builder.py:14-26 | with one-digit numbers the header is 54 characters plus the week label |
| MessageBuilder.ChunkCountExceedsTotal | src/message_builder.py:96-142 | three fragments of 1500 characters give the count 2 while chunking yields 3 messages, so headers say "of 2" on three messages |
| MessageBuilder.ChunkCountBelowTotal | src/message_builder.py:96-142 | a single fragment of 2945 characters gives the count 2 while chunking yields one message |
| MessageBuilder.HeaderIdentifiesIndex | src/message_builder.py:19-26 | two headers of the same week and total are equal only for the same index |
| Week.Weekday | src/bot.py:173 | the weekday is between 0 and 6 |
| Week.WeekStart | src/bot.py:173 | the week start is a Sunday, 1 to 7 days before the probe |
| Week.WeekEnd | src/bot.py:174 | the week end is the Sunday 7 days after the start |
| Week.WeekStartIsLastSundayBefore | src/bot.py:173 | no Sunday strictly before the probe is later than the week start |
| Week.SundayProbe | src/bot.py:173 | a Sunday probe belongs to the week starting on the previous Sunday |
| Week.WeekStartShift | src/bot.py:173-174 | probing a week later gives the next week |
| Week.ProbesShareOrFollow | src/bot.py:194-198 | the probe 5 days ahead belongs to the same week or to the next one |
| Week.BoundaryInstantInTwoWeeks | src/message_builder.py:56-57 | an event at the very start of the week end belongs to this week's window and to the next week's window |
| Bot.RowsOfWeek | src/database.py:77-90 | every row returned is of the requested week and of a configured channel, and there are never more than stored |
| Bot.RowsOfWeekMembers | src/database.py:77-90 | a stored row is returned exactly when it is of the requested week and its channel is configured (the JOIN with the channels table) |
| Bot.DetailsOf | src/bot.py:71-78 | a channel's details are at most the rows |
| BotProofs.RowsOfWeekSpec | src/database.py:77-90 | the week's rows are the stored rows that match, in store order: there is a strictly increasing index map into the store, hitting exactly the matching rows |
| BotProofs.RowsOfWeekCount | src/database.py:77-90 | the number of rows returned is the number of stored rows of the week in configured channels |
| BotProofs.DetailsOfSpec | src/bot.py:71-78 | entry k of a channel's details is the (ts, text) of the k-th row of that channel, in order, and every row of the channel is used |
| BotProofs.UnlistedRowIgnored | src/database.py:81-84 | a stored row of a channel that is no longer configured changes nothing the pass reads |
| Bot.Workspace.GetMessages | src/database.py:77-90 | returns a row exactly when it is stored, of the week, and of a configured channel; the order is the specified store order |
| Bot.IsUnsafeToSpillover | src/bot.py:21-50 | the lookup fails exactly when more messages are needed than stored, some are stored and the channel has no week; unsafe exactly when, instead, its latest week is later |
| Bot.Guard | src/bot.py:91-95 | with no shortfall, or nothing stored, the verdict is safe; a failed lookup means the channel has no stored week |
| Bot.StepBounds | src/bot.py:86-154 | one position writes at most one row and deletes none; a position that spills over or crashes writes no row and posts or edits nothing |
| Bot.ChannelFromBounds | src/bot.py:85-168 | the inner loop from a position writes at most one row per remaining position |
| Bot.PassFrom | src/bot.py:84-168 | the channel loop never deletes a row |
| Bot.Pass | src/bot.py:64-168 | a pass never deletes a row |
| Bot.ParseEventsForWeek | src/bot.py:171-180 | a week's run never deletes a row |
| Bot.CheckApi | src/bot.py:183-198 | a run never deletes a row |
| Bot.Workspace.GetMostRecentWeek | src/bot.py:36-38 | returns the channel's latest stored week, or nothing |
| Bot.Workspace.CheckSpillover | src/bot.py:21-50 | returns the guard's verdict for the channel, records the check, and changes nothing else |
| Bot.Workspace.PostNewMessage | src/bot.py:53-61 | posts to the channel, returns the new `ts`, records the post, and leaves the store alone |
| Bot.Workspace.ChatUpdate | src/bot.py:130-136 | succeeds exactly when the channel has the `ts`, and then replaces that message; records the call |
| Bot.Workspace.CreateMessage | src/database.py:36-53 | appends exactly one row (week, channel, ts, text, position) |
| Bot.Workspace.UpdateMessage | src/database.py:56-74 | rewrites the text of the rows matching week, ts and channel |
| Bot.Workspace.PostAndRecord | src/bot.py:142-154 | posts the draft and records its row, as specified |
| Bot.Workspace.ProcessPosition | src/bot.py:86-154 | one position: new message, unchanged message, update or first post, with the guard, as specified |
| Bot.Workspace.ProcessChannel | src/bot.py:85-168 | the position loop for one channel; an unsafe spillover ends the channel with the error logged |
| Bot.Workspace.LoadContext | src/bot.py:66-82 | the store is read once: the detail dictionary, the posted set and the row count are exactly those of the week's rows |
| Bot.Workspace.ProcessChannels | src/bot.py:84-168 | the loop over the channels runs each channel in turn on the values read before it, stopping at a crash, and keeps the channel list |
| Bot.Workspace.PostOrUpdateMessages | src/bot.py:64-168 | the whole pass over all channels, reading the store once before the loops |
| Bot.Workspace.ParseEventsForWeekRun | src/bot.py:171-180 | computes the week of the probe, builds and chunks its events and runs the pass |
| Bot.Workspace.CheckApiRun | src/bot.py:183-198 | runs the week of today and then the week of today + 5 days, stopping at a crash |
| BotProofs.DetailsMapSpec | src/bot.py:71-78 | the default dictionary gives each channel its rows' details in order, and has a key exactly for channels with rows |
| BotProofs.MakeCtxCoherent | src/bot.py:66-82 | the values read before the loops agree with one another (posted set = channels with details); the count is the number of stored rows of the week in configured channels |
| BotProofs.FinalBranchUnreachable | src/bot.py:142-154 | when a channel has a stored message at a position it is in the posted set, so the final branch only runs for positions with nothing stored |
| BotProofs.UpdateRowsKeepsKeys | src/database.py:56-74 | updating keeps every row's week, channel, ts and position, and rewrites the text exactly of the matching rows |
| BotProofs.LatestSpec | src/bot.py:36-42 | the latest week is missing exactly when the channel has no row, and otherwise is the largest week among its rows |
| BotProofs.LatestSameKeys | src/bot.py:36-42 | the latest week depends only on rows' channels and weeks |
| BotProofs.LatestAfterAppend | src/bot.py:106-108 | a new row changes only its own channel's latest week, to the larger of the two |
| BotProofs.GuardSpec | src/bot.py:21-50 | the guard fires exactly when more messages are needed than stored, some are stored, and the channel holds a later week; without a stored week the lookup fails |
| BotProofs.GuardSafeAfterPost | src/bot.py:92-108 | posting a row for this week and channel keeps a safe verdict safe |
| BotProofs.GuardSameAfterUpdate | src/bot.py:138-140 | updating rows never changes a verdict |
| BotProofs.GuardedAppendQuiet | src/bot.py:84-168 | a call that does not write keeps "every write was preceded by a safe check" |
| BotProofs.GuardedAppendWrite | src/bot.py:92-108 | a write right after a safe check of its channel keeps that property |
| BotProofs.StepGuarded | src/bot.py:86-154 | one position keeps that property |
| BotProofs.ChannelGuarded | src/bot.py:85-168 | one channel keeps that property |
| BotProofs.PassGuarded | src/bot.py:64-168 | one pass keeps that property |
| BotProofs.CheckApiGuarded | src/bot.py:183-198 | a whole run never posts or updates without a safe check of that channel just before |
| BotProofs.UnsafeChannelUntouched | src/bot.py:90-95 | on an unsafe channel nothing is posted, updated or stored; either the run spills over with the error logged, or the channel needs no new message |
| BotProofs.SpilloverDecidedOnEntry | src/bot.py:155-168 | a spillover only happens on a channel that was unsafe when the channel's loop began |
| BotProofs.StepNoSpillover | src/bot.py:90-108 | on a channel that is not unsafe one position never spills over, and a position that continues leaves the channel not unsafe |
| BotProofs.SpilloverExample | src/bot.py:90-95 | a channel with this week's message and next week's already posted, when two messages are now needed, is left untouched and the error is logged |
| BotProofs.GuardCountsAllChannels | src/bot.py:91-93 | with one row in each of two channels and a later week in the first, growing to two messages is judged safe for the first channel, which then posts |
| BotProofs.UpdateKeepsIdentity | src/bot.py:119-140 | a changed draft updates the same `ts` in place, rewrites only the matching rows' text, and records the check and the update |
| BotProofs.PostRecordsPosition | src/bot.py:91-108 | a position beyond the stored ones is posted at the end of the channel and stored with its week, ts, text and 0-based position |
| BotProofs.ChannelRowsAppend | src/bot.py:106-108 | a new row extends its own channel's rows only |
| BotProofs.ChannelLogAppend | src/bot.py:84-168 | a new call extends its own channel's log only |
| BotProofs.ChannelRowsUpdate | src/database.py:56-74 | an update in one channel changes only that channel's rows |
| BotProofs.LatestOfChannelRows | src/bot.py:36-42 | the latest week of a channel can be read from its own rows |
| BotProofs.GuardByView | src/bot.py:21-50 | the verdict for a channel depends only on its own rows |
| BotProofs.CheckedOther | src/bot.py:92-94 | checking one channel does not change what any other channel sees |
| BotProofs.CheckedLocal | src/bot.py:92-94 | the check depends only on the channel's own state |
| BotProofs.PostDraftOther | src/bot.py:142-154 | posting in one channel does not change any other channel |
| BotProofs.PostDraftLocal | src/bot.py:142-154 | posting depends only on the channel's own state |
| BotProofs.UpdateDraftOther | src/bot.py:130-140 | updating in one channel does not change any other channel |
| BotProofs.UpdateDraftLocal | src/bot.py:130-140 | updating depends only on the channel's own state |
| BotProofs.StepOther | src/bot.py:86-154 | one position of one channel does not change any other channel |
| BotProofs.StepLocal | src/bot.py:86-154 | one position depends only on the channel's own state |
| BotProofs.ChannelFromOther | src/bot.py:85-168 | one channel's loop does not change any other channel |
| BotProofs.ChannelFromLocal | src/bot.py:85-168 | a channel's loop depends only on its own state |
| BotProofs.SoloOther | src/bot.py:85-168 | running one channel alone touches no other channel |
| BotProofs.SoloLocal | src/bot.py:85-168 | running one channel alone depends only on its own state |
| BotProofs.PassIsolation | src/bot.py:84-168 | over distinct channels, a pass that does not crash leaves each channel exactly as if it had been processed alone, and channels outside the list unchanged |
| BotProofs.StoredTextsOfDetails | src/bot.py:71-78 | a configured channel's details carry its stored texts of the week, in order; an unconfigured channel has none |
| BotProofs.MineIsStored | src/bot.py:71-82 | for a configured channel, what the pass compares against is exactly the texts stored for that channel and week |
| BotProofs.ChannelQuiet | src/bot.py:109-118 | a channel whose stored texts equal the drafts sees no call at all |
| BotProofs.PassQuiet | src/bot.py:84-168 | a pass over such channels changes nothing |
| BotProofs.UnchangedWeekIsQuiet | src/bot.py:64-168 | when every channel already stores the drafts (as a prefix), the pass changes nothing and does not crash |
| BotProofs.FreshChannel | src/bot.py:142-154 | on a week with nothing stored, a channel gets every draft from the position on, in order, and others get nothing |
| BotProofs.FreshPass | src/bot.py:64-168 | on a week with nothing stored, the pass succeeds and stores every draft once in every listed channel |
| BotProofs.FreshWeekFirstPass | src/bot.py:64-168 | over distinct channels, the first pass of a week with no stored rows in configured channels does not crash and stores every draft in every channel |
| BotProofs.FreshWeekSecondPassQuiet | src/bot.py:64-168 | after the first pass of a fresh week, running the same drafts again changes nothing: the pass is idempotent |
| Server.ScanEnd | src/server.py:31 | finds the first `&` after the capture start that closes a newline-free capture of at least one character, or reports that none exists |
| Server.Search | src/server.py:31 | finds the leftmost `team_domain=` that can match and its shortest valid capture, or reports that none exists |
| Server.IdentifySlackTeamDomain | src/server.py:27-36 | the domain is missing exactly when no position matches; otherwise it is the capture of the leftmost match ended at its first valid `&` |
| Server.MatchIsReported | src/server.py:27-36 | whenever a position and end form a match, that match's capture is the domain returned |
| Server.TeamDomainShape | src/server.py:31 | a found domain is non-empty, holds no newline, and holds no `&` except possibly as its first character |
| Server.TeamDomainOfFormPayload | tests/helpers/utils.py:22-28 | a form body with the field `team_domain=d&` (d without `&` or newline), and no earlier key, yields d |
| Server.EmptyTeamDomainTakesNextField | src/server.py:31 | an empty `team_domain=` value captures the next field, starting with its `&` |
| Server.NoAmpersandNoDomain | src/server.py:31-34 | a body without `&` has no domain |
| Server.CheckApiBeingRequested | src/server.py:39-43 | true exactly for the events path with `command=%2Fcheck_api` in the body |
| Server.OnCooldown | src/server.py:46-73 | no domain means on cooldown; no record means free; otherwise on cooldown until and including the expiry instant |
| Server.CreateCooldown | src/server.py:76-84 | the record for (domain, resource) becomes now + minutes * 60; every other record is kept |
| Server.OtherRequestsPassThrough | src/server.py:121-133 | any other request is forwarded and leaves the cooldowns alone |
| Server.ThrottledKeepsExpiry | src/server.py:121-129 | a throttled request is a `/check_api` one, gets the cooldown text, and changes no record |
| Server.AllowedCheckApiSetsCooldown | src/server.py:121-133 | a forwarded `/check_api` had a domain, whose record becomes now + 900; other records are kept |
| Server.MissingDomainThrottled | src/server.py:121-129 | a `/check_api` request without a team domain is always throttled |
| Server.ExpiryInstantOnCooldown | src/server.py:68-73 | a team is still throttled at its expiry instant and free one second later |
| Server.CooldownWindow | tests/test_server.py:71-114 | after an allowed run, the same request is throttled exactly until 900 seconds later |
| Server.AllowedRequestsAreSpaced | src/server.py:114-133 | two allowed runs of one team, one after the other, are more than 15 minutes apart |
| Server.CooldownAfterUpdate | src/server.py:76-84 | without a domain nothing changes; with one, its `/check_api` record becomes now + 900 and every other record is kept |
| Server.RateLimit | src/server.py:114-133 | a request is throttled exactly when it is a `/check_api` one and its team is on cooldown; a throttled or other request keeps every record, and the throttled one gets the cooldown text |
| Server.CooldownStore.GetCooldownExpiryTime | src/server.py:63 | returns the record of (domain, resource) exactly when there is one |
| Server.CooldownStore.CreateCooldownRecord | src/server.py:76-84 | the store becomes the cooldown insert or overwrite |
| Server.CooldownStore.CheckApiOnCooldown | src/server.py:46-73 | answers the cooldown question and changes nothing |
| Server.CooldownStore.UpdateCheckApiCooldown | src/server.py:76-84 | sets a 15-minute cooldown for a known domain, and does nothing without one |
| Server.CooldownStore.RateLimitCheckApi | src/server.py:114-133 | the middleware's response and new store are those of the rate-limiting function |
| LegacyStore.EventMessages | c4g/database.py:57-69 | exactly the rows of the event, and no more rows than stored |
| LegacyStore.ChannelToTs | c4g/bot.py:92-94 | the map has a key exactly for every posted channel |
| LegacyStore.DueEvents | c4g/bot.py:79-82 | exactly the feed events strictly before now + 3 days |
| LegacyStore.SyncChannel | c4g/bot.py:100-122 | it fails exactly when the channel is posted and Slack lacks its stored ts; a posted channel keeps the rows, an unposted one gets exactly one row (event, ts, channel) |
| LegacyStore.SyncFrom | c4g/bot.py:100-122 | the channel loop adds at most one row per remaining channel and deletes none, printing nothing |
| LegacyStore.SyncEvent | c4g/bot.py:89-122 | one event adds at most one row per channel and deletes none, printing nothing |
| LegacyStore.SweepFrom | c4g/bot.py:84-126 | the event loop deletes no row and no report |
| LegacyStore.LegacyWorkspace.PostOrUpdate | c4g/bot.py:100-122 | one channel: update a posted channel at its stored `ts` (failing when Slack lacks it), or post and record a row |
| LegacyStore.LegacyWorkspace.SyncEventRun | c4g/bot.py:89-122 | one event over all channels, reading the posted set and ts map once, stopping at a failure |
| LegacyStore.LegacyWorkspace.SweepRun | c4g/bot.py:84-126 | the event loop: sync, skip or report each event as its status says, stopping at a failure |
| LegacyProofs.ChannelToTsSpec | c4g/bot.py:92-94 | every ts in the map comes from a row of that channel |
| LegacyProofs.ChannelToTsLastWins | c4g/bot.py:92-94 | a channel maps to the ts of its last row |
| LegacyProofs.DuplicateRowsUseLaterTs | c4g/bot.py:92-94 | with two rows for one channel, the later ts is used |
| LegacyProofs.PostedIffHasRow | c4g/bot.py:97-98 | a channel is in the posted set exactly when the store has a row for the event there |
| LegacyProofs.HasRowGrows | c4g/database.py:34-44 | a row once stored stays when rows are only appended |
| LegacyProofs.EventResolvable | c4g/bot.py:89-98 | in a consistent store, every posted channel maps to a ts that Slack has |
| LegacyProofs.SyncChannelSafe | c4g/bot.py:100-122 | on a consistent store, one channel never fails, keeps consistency, only adds messages and rows, and prints nothing |
| LegacyProofs.SyncFromSafe | c4g/bot.py:100-122 | the same for the channel loop from any position |
| LegacyProofs.SyncEventSafe | c4g/bot.py:89-122 | the same for one event |
| LegacyProofs.SweepSafe | c4g/bot.py:84-126 | on a consistent store, a sweep never fails, stays consistent, and only adds rows |
| LegacyProofs.SyncFromCovers | c4g/bot.py:100-122 | a complete channel loop leaves a row in every channel from the position on |
| LegacyProofs.SyncEventCovers | c4g/bot.py:89-122 | a complete event sync leaves a row in every channel |
| LegacyProofs.SweepCovers | c4g/bot.py:84-126 | a complete sweep leaves a row for every synced event in every channel |
| LegacyProofs.SyncFromAllPosted | c4g/bot.py:101-108 | when every remaining channel is posted with a resolvable ts, the loop only updates: no row is added |
| LegacyProofs.SecondSyncAddsNoRows | c4g/bot.py:89-122 | syncing an event a second time adds no row: repeated runs update instead of reposting |
| LegacyProofs.SyncFromUnique | c4g/bot.py:100-122 | over distinct channels, the loop never stores two rows for one (event, channel) |
| LegacyProofs.SyncEventUnique | c4g/bot.py:89-122 | the same for one event |
| LegacyProofs.SweepUnique | c4g/bot.py:84-126 | the same for a sweep |
| LegacyProofs.SweepWithoutSync | c4g/bot.py:123-126 | when no event is synced, a sweep only appends one report per reported event |
| LegacyProofs.SweepAllSkipped | c4g-events.py:125-127 | when every event is skipped, a sweep changes nothing |
| LegacyProofs.LateEventIgnored | c4g/bot.py:79-82 | an event at or after now + 3 days does not change the due list |
| C4gEvent.Location | c4g/event.py:33-46 | the location is missing exactly when the venue is missing |
| C4gEvent.VenueLocation | c4g/event.py:35-45 | a name and an address give the full address; with neither those nor a truthy latitude it is the name, or "" |
| C4gEvent.FromEventJson | c4g/event.py:31-70 | the location is missing exactly when the venue is; the status is the current bot's label and the uuid is copied |
| C4gEvent.CreateSlackMessage | c4g/event.py:72-153 | seven blocks: the title header, a divider at position 3, and a two-field section whose location is "No location" exactly when there is none |
| C4gEvent.CreateBackupMessageText | c4g/event.py:155-163 | the backup text starts with the line `Name: ` + title |
| C4gEvent.BackupTextFieldOrder | c4g/event.py:155-163 | the backup text splits back into Name, Link, Description, Status, Location, Time when no field holds a newline |
| C4gEvent.MissingVenueRendering | c4g/event.py:72-75 | without a venue the blocks say "No location" while the backup text says "Location: None" |
| C4gEvent.NameAndAddressWin | c4g/event.py:35-40 | name and address win whatever the coordinates are, even with city, state or zip missing |
| C4gEvent.AgreesWithCurrentOnFullAddress | c4g/event.py:35-40 | on a complete address the older chain and the current parser agree |
| C4gEvent.CoordinatesRepeatLatitude | c4g/event.py:41-43 | the older chain prints the latitude twice; the current parser prints latitude and longitude |
| C4gEvent.NothingUsable | c4g/event.py:33-46 | with no name and no truthy latitude the older chain gives "" and the current parser gives "None" |
| C4gEvent.MissingStateDiverges | c4g/event.py:35-40 | for the sample venue without a state the older chain prints the address with "None", the current parser gives coordinates |
| C4gBot.BotAction | c4g/bot.py:85-88 | an event is synced exactly when its status is cancelled, upcoming or past; nothing is skipped silently |
| C4gBot.CheckApiRun | c4g/bot.py:72-126 | the run's new state and failure flag are those of the sweep over the due events |
| C4gBot.CheckApiNeverFails | c4g/bot.py:72-126 | on a consistent store the run never fails, stays consistent, and only adds rows |
| C4gBot.CheckApiCoversDueEvents | c4g/bot.py:79-122 | after a successful run every due, synced event has a row in every channel |
| C4gBot.CheckApiKeepsRowsUnique | c4g/bot.py:100-122 | over distinct channels, a run never stores two rows for one (event, channel) |
| C4gBot.UnknownStatusesOnlyReported | c4g/bot.py:123-126 | a feed of unknown statuses posts and stores nothing and reports each due event once |
| C4gEventsScript.ScriptAction | c4g-events.py:87-130 | cancelled and upcoming events are synced, past ones skipped, and all others reported |
| C4gEventsScript.CheckApiRun | c4g-events.py:76-130 | the run's new state and failure flag are those of the sweep over the due events |
| C4gEventsScript.LocationMatchesOlderBot | c4g-events.py:135-143 | the script's location is the older bot's chain, with "No location" for a missing venue |
| C4gEventsScript.MissingVenueLinksNoLocation | c4g-events.py:156-231 | without a venue the location field is still a maps link, to "No location" |
| C4gEventsScript.StatusWithoutEmoji | c4g-events.py:151 | the status is a prefix of the current bot's label: "Upcoming" and "Cancelled" without emoji |
| C4gEventsScript.GetEventInformation | c4g-events.py:134-153 | a missing venue gives "No location", a present one the older bot's chain; the status keeps its length under title-casing |
| C4gEventsScript.CreateSlackMessage | c4g-events.py:156-231 | seven blocks: the title header, a divider, and a two-field section whose location field is always a maps link |
| C4gEventsScript.CreateBackupMessageText | c4g-events.py:235-236 | the backup text starts with the line `Name: ` + title |
| C4gEventsScript.BackupTextFieldOrder | c4g-events.py:235-236 | the backup text splits back into Name, Description, Status, Location, Time, Link when no field holds a newline |
| C4gEventsScript.CheckApiNeverFails | c4g-events.py:76-130 | on a consistent store the run never fails, stays consistent, and only adds rows |
| C4gEventsScript.CheckApiCoversDueEvents | c4g-events.py:82-124 | after a successful run every due cancelled or upcoming event has a row in every channel |
| C4gEventsScript.CheckApiKeepsRowsUnique | c4g-events.py:98-124 | over distinct channels, a run never stores two rows for one (event, channel) |
| C4gEventsScript.PastEventsSilent | c4g-events.py:125-127 | a feed of past events changes nothing at all |
| C4gEventsScript.UnknownStatusesOnlyReported | c4g-events.py:128-130 | a feed of unknown statuses posts and stores nothing and reports each due event once |

## Left out

**I/O and services**
- The HTTP fetch of the event feed: the feed is a parameter.
- SQLite and the Slack Web API are not modelled as such: they are the sequences and timelines above.
- Their failures are left out, except one. In the model, `chat_postMessage` and the store writes never fail, and `chat_update` fails only on an unknown `ts`. In `src/bot.py` any other Slack or SQLite exception gets past `except UnsafeMessageSpilloverError` (`src/bot.py:155`) and ends the whole pass, not just one channel. The model's `Crash` status has the same effect, and `BotProofs.PassIsolation` proves its claims only for a pass that does not crash.
- Concurrency, the asyncio event loop, the periodic loops (`periodically_check_api`, `periodically_delete_old_messages`) and the threads: no interleaving is modelled.
- The slash commands: `add_channel`, `remove_channel` and `trigger_check_api` in all three programs.
- `create_tables`, `get_slack_channel_ids`, `add_channel` and `remove_channel` of the databases: the configured channels are a field.
- The cooldown database functions called by `src/server.py` are not part of this model. They are modelled as the map in `CooldownStore`.
- Request signing and authentication (`src/auth.py`), the health check route, and the body-caching helpers `set_body` / `get_body`.

**Values taken as given**
- The UTF-8 decoding of the request body: the body is a string.
- Time zones, `dateutil` parsing and `strftime`: times are integer seconds, and formatting is a parameter.
- `urllib.parse.quote`: a parameter.
- `math.ceil` on a float quotient: modelled as the exact integer ceiling.
- `str.title()`: modelled for ASCII letters only.
- Feed fields (title, description, group name, url, status) are taken to be strings. A JSON `null` description makes `truncate_string` raise in `src/event.py:34-36`; the older bots print `None` instead. Neither is modelled.
- `get_messages` has no `ORDER BY`. The model assumes SQLite returns the rows in insertion order, which is what the pass relies on to match positions.

**Output**
- `print` and `logging` output: only the spillover error (`SpilloverLogged`) and the unknown-status notices of the older bots (`Notice`) are modelled.

**The older bots**
- `c4g/bot.py` calls `create_event_message` with four arguments, while `c4g/database.py` declares five. The model stores the row the caller means: (event uuid, ts, channel).
- The internal channel id that both older bots store is elided: a row names the Slack channel, which is what `get_event_messages` joins back to.
- `event_messages_count`, `get_slack_channel_id` and `get_channel_id` only serve that indirection.
- `json.dumps` of the block list in `c4g-events.py` is not modelled.
- The older bots' `get_event_messages` also joins with the channels table. Their rows of removed channels are not filtered out, because the model only reads them for the configured channels.

**Weaker contracts**
- Bot.Workspace.GetMostRecentWeek: `get_most_recent_message_for_channel` is defined in no shown file. It is modelled as the largest stored week of the channel, and a channel without rows makes the pass crash.
- MessageBuilder.TotalMessagesNeeded: states the exact rational ceiling, not the float division the code performs.
