/** The cache effects of a channel payload and of a new message
    (`UpdateCache for Channel` in src/models/channel/mod.rs and
    `UpdateCache for Message` in src/models/message/mod.rs). */
module ChannelCache {
  import opened Wrappers
  import opened Entities
  import opened Mirror

  /** The mirror after a channel payload: the channel under its own id,
      inserted or overwritten. */
  function ApplyChannel(st: Snapshot, c: Channel): Snapshot {
    st.(channels := st.channels[c.Id() := c])
  }

  /** `UpdateCache for Channel`. */
  method UpdateChannel(c: Channel, cache: Cache)
    modifies cache
    ensures cache.State() == ApplyChannel(old(cache.State()), c)
  {
    cache.channels := cache.channels[c.Id() := c];
  }

  /** A text, group or direct-message channel records `id` as its last message;
      a voice channel has no such field and is returned as it is. */
  function WithLastMessage(c: Channel, id: ID): (r: Channel)
    ensures c.Voice? ==> r == c
  {
    match c
    case Text(t) => Channel.Text(t.(lastMessageId := Some(id)))
    case Group(g) => Channel.Group(g.(lastMessageId := Some(id)))
    case DirectMessage(d) => Channel.DirectMessage(d.(lastMessageId := Some(id)))
    case Voice(_) => c
  }

  /** The mirror after a message: the message's cached channel, if any, gets
      the message's id as its last message id. */
  function ApplyMessage(st: Snapshot, m: Message): Snapshot {
    if m.channelId in st.channels
    then st.(channels := st.channels[m.channelId := WithLastMessage(st.channels[m.channelId], m.id)])
    else st
  }

  /** `UpdateCache for Message`: a `get_mut` on the channel, then one field write
      per variant. */
  method UpdateMessage(m: Message, cache: Cache)
    modifies cache
    ensures cache.State() == ApplyMessage(old(cache.State()), m)
  {
    if m.channelId in cache.channels {
      var channel := cache.channels[m.channelId];
      match channel {
        case Text(t) => channel := Channel.Text(t.(lastMessageId := Some(m.id)));
        case Group(g) => channel := Channel.Group(g.(lastMessageId := Some(m.id)));
        case DirectMessage(d) => channel := Channel.DirectMessage(d.(lastMessageId := Some(m.id)));
        case Voice(_) =>
      }
      cache.channels := cache.channels[m.channelId := channel];
    }
  }

  /** After a channel payload, looking up its id gives the channel back; every
      other channel and the other maps are unchanged. */
  lemma ChannelStored(st: Snapshot, c: Channel)
    ensures c.Id() in ApplyChannel(st, c).channels && ApplyChannel(st, c).channels[c.Id()] == c
    ensures forall k :: k in st.channels && k != c.Id() ==> ApplyChannel(st, c).channels[k] == st.channels[k]
    ensures ApplyChannel(st, c).channels.Keys == st.channels.Keys + {c.Id()}
    ensures ApplyChannel(st, c).(channels := st.channels) == st
    ensures Keyed(st) ==> Keyed(ApplyChannel(st, c))
  {
  }

  /** The last-message field of a channel, where it has one. */
  function LastMessage(c: Channel): Option<ID> {
    match c
    case Text(t) => t.lastMessageId
    case Group(g) => g.lastMessageId
    case DirectMessage(d) => d.lastMessageId
    case Voice(_) => None
  }

  /** A message sets the last message id of a cached text, group or
      direct-message channel and changes nothing else in the channel: the
      channel with its old last message id put back is the old channel. */
  lemma {:induction false} MessageEffect(st: Snapshot, m: Message)
    requires m.channelId in st.channels && !st.channels[m.channelId].Voice?
    ensures var c := ApplyMessage(st, m).channels[m.channelId];
      && LastMessage(c) == Some(m.id)
      && c.Id() == st.channels[m.channelId].Id()
      && c.Text? == st.channels[m.channelId].Text?
      && c.Group? == st.channels[m.channelId].Group?
      && WithLastMessageRestored(c, LastMessage(st.channels[m.channelId])) == st.channels[m.channelId]
  {
    var old_c := st.channels[m.channelId];
    match old_c {
      case Text(t) =>
      case Group(g) =>
      case DirectMessage(d) =>
    }
  }

  /** `c` with its last message id set back to `last`. */
  function WithLastMessageRestored(c: Channel, last: Option<ID>): Channel {
    match c
    case Text(t) => Channel.Text(t.(lastMessageId := last))
    case Group(g) => Channel.Group(g.(lastMessageId := last))
    case DirectMessage(d) => Channel.DirectMessage(d.(lastMessageId := last))
    case Voice(_) => c
  }

  /** A message for a voice channel or an uncached channel changes nothing. */
  lemma MessageNoEffect(st: Snapshot, m: Message)
    requires m.channelId !in st.channels || st.channels[m.channelId].Voice?
    ensures ApplyMessage(st, m) == st
  {
  }

  /** Only the message's channel can change, and replaying the message changes
      nothing more. */
  lemma MessageFrame(st: Snapshot, m: Message)
    ensures ApplyMessage(st, m).(channels := st.channels) == st
    ensures ApplyMessage(st, m).channels.Keys == st.channels.Keys
    ensures forall k :: k in st.channels && k != m.channelId ==> ApplyMessage(st, m).channels[k] == st.channels[k]
    ensures ApplyMessage(ApplyMessage(st, m), m) == ApplyMessage(st, m)
    ensures Keyed(st) ==> Keyed(ApplyMessage(st, m))
  {
  }
}
