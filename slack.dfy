/**
 * The messaging platform as the bots see it. A channel's timeline is the
 * ordered list of messages posted to it; the timestamp `ts` that
 * chat_postMessage returns identifies a message within its channel, and is
 * modelled as that message's index in the timeline.
 */
module Slack {
  import opened Wrappers

  type Channel = string
  type Ts = nat

  /** The block layout, kept only as far as the texts it carries. */
  datatype Block =
    | HeaderBlock(text: string)
    | Divider
    | Section(body: Option<string>, fields: seq<string>)

  /** What chat_postMessage / chat_update send: blocks plus the plain-text fallback. */
  datatype Message = Message(blocks: seq<Block>, text: string)

  type Timelines = map<Channel, seq<Message>>

  function Timeline(tl: Timelines, ch: Channel): seq<Message>
  {
    if ch in tl then tl[ch] else []
  }

  predicate HasMessage(tl: Timelines, ch: Channel, ts: Ts) { ts < |Timeline(tl, ch)| }

  /** chat_postMessage: appends to the channel and returns the new message's ts. */
  function Post(tl: Timelines, ch: Channel, m: Message): (r: (Timelines, Ts))
    ensures Timeline(r.0, ch) == Timeline(tl, ch) + [m]
    ensures r.1 == |Timeline(tl, ch)| && HasMessage(r.0, ch, r.1)
    ensures forall d :: d != ch ==> Timeline(r.0, d) == Timeline(tl, d)
  {
    (tl[ch := Timeline(tl, ch) + [m]], |Timeline(tl, ch)|)
  }

  /** chat_update: replaces the message with that ts, in place; nothing moves. */
  function Update(tl: Timelines, ch: Channel, ts: Ts, m: Message): (r: Timelines)
    requires HasMessage(tl, ch, ts)
    ensures Timeline(r, ch) == Timeline(tl, ch)[ts := m]
    ensures |Timeline(r, ch)| == |Timeline(tl, ch)|
    ensures forall d :: d != ch ==> Timeline(r, d) == Timeline(tl, d)
  {
    tl[ch := Timeline(tl, ch)[ts := m]]
  }
}
