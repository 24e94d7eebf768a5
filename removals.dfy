/** Events that remove one cached entity: a deleted channel
    (src/models/events/channel/delete.rs), a deleted server
    (src/models/events/server/delete.rs) and a member who left
    (src/models/events/server/member_leave.rs). */
module RemovalEvents {
  import opened Entities
  import opened Mirror

  datatype ChannelDeleteEvent = ChannelDeleteEvent(channelId: ID)
  datatype ServerDeleteEvent = ServerDeleteEvent(serverId: ID)
  datatype ServerMemberLeaveEvent = ServerMemberLeaveEvent(serverId: ID, userId: ID)

  /** The composite key the leave event removes, built with `MemberID::from`. */
  function LeaveKey(e: ServerMemberLeaveEvent): MemberID {
    MemberIdFrom(e.serverId, e.userId)
  }

  /** The mirror after each removal: one key gone from one map. */
  function ApplyChannelDelete(st: Snapshot, e: ChannelDeleteEvent): Snapshot {
    st.(channels := st.channels - {e.channelId})
  }

  function ApplyServerDelete(st: Snapshot, e: ServerDeleteEvent): Snapshot {
    st.(servers := st.servers - {e.serverId})
  }

  function ApplyMemberLeave(st: Snapshot, e: ServerMemberLeaveEvent): Snapshot {
    st.(members := st.members - {LeaveKey(e)})
  }

  /** `ChannelDeleteEvent::update`. */
  method UpdateChannelDelete(e: ChannelDeleteEvent, cache: Cache)
    modifies cache
    ensures cache.State() == ApplyChannelDelete(old(cache.State()), e)
  {
    cache.channels := cache.channels - {e.channelId};
  }

  /** `ServerDeleteEvent::update`. */
  method UpdateServerDelete(e: ServerDeleteEvent, cache: Cache)
    modifies cache
    ensures cache.State() == ApplyServerDelete(old(cache.State()), e)
  {
    cache.servers := cache.servers - {e.serverId};
  }

  /** `ServerMemberLeaveEvent::update`. */
  method UpdateMemberLeave(e: ServerMemberLeaveEvent, cache: Cache)
    modifies cache
    ensures cache.State() == ApplyMemberLeave(old(cache.State()), e)
  {
    cache.members := cache.members - {LeaveKey(e)};
  }

  /** A deleted channel is gone; every other channel and the other three maps
      are as they were; an uncached id changes nothing. */
  lemma ChannelDeleteEffect(st: Snapshot, e: ChannelDeleteEvent)
    ensures e.channelId !in ApplyChannelDelete(st, e).channels
    ensures ApplyChannelDelete(st, e).channels.Keys == st.channels.Keys - {e.channelId}
    ensures forall k :: k in st.channels && k != e.channelId ==> ApplyChannelDelete(st, e).channels[k] == st.channels[k]
    ensures ApplyChannelDelete(st, e).(channels := st.channels) == st
    ensures e.channelId !in st.channels ==> ApplyChannelDelete(st, e) == st
  {
  }

  /** A deleted server is gone and nothing else changes. */
  lemma ServerDeleteEffect(st: Snapshot, e: ServerDeleteEvent)
    ensures e.serverId !in ApplyServerDelete(st, e).servers
    ensures ApplyServerDelete(st, e).servers.Keys == st.servers.Keys - {e.serverId}
    ensures forall k :: k in st.servers && k != e.serverId ==> ApplyServerDelete(st, e).servers[k] == st.servers[k]
    ensures ApplyServerDelete(st, e).(servers := st.servers) == st
    ensures e.serverId !in st.servers ==> ApplyServerDelete(st, e) == st
  {
  }

  /** The member under `(server_id, user_id)` is gone and nothing else changes. */
  lemma MemberLeaveEffect(st: Snapshot, e: ServerMemberLeaveEvent)
    ensures MemberID(e.serverId, e.userId) !in ApplyMemberLeave(st, e).members
    ensures ApplyMemberLeave(st, e).members.Keys == st.members.Keys - {MemberID(e.serverId, e.userId)}
    ensures forall k :: k in st.members && k != MemberID(e.serverId, e.userId) ==>
      ApplyMemberLeave(st, e).members[k] == st.members[k]
    ensures ApplyMemberLeave(st, e).(members := st.members) == st
    ensures MemberID(e.serverId, e.userId) !in st.members ==> ApplyMemberLeave(st, e) == st
  {
  }

  /** Each removal applied twice is applied once. */
  lemma Idempotent(st: Snapshot, c: ChannelDeleteEvent, s: ServerDeleteEvent, m: ServerMemberLeaveEvent)
    ensures ApplyChannelDelete(ApplyChannelDelete(st, c), c) == ApplyChannelDelete(st, c)
    ensures ApplyServerDelete(ApplyServerDelete(st, s), s) == ApplyServerDelete(st, s)
    ensures ApplyMemberLeave(ApplyMemberLeave(st, m), m) == ApplyMemberLeave(st, m)
  {
  }

  /** No cascade: deleting a channel leaves every cached server's channel list,
      and deleting a server leaves its channels and members cached. */
  lemma NoCascade(st: Snapshot, c: ChannelDeleteEvent, s: ServerDeleteEvent)
    ensures forall k :: k in st.servers ==>
      k in ApplyChannelDelete(st, c).servers &&
      ApplyChannelDelete(st, c).servers[k].channels == st.servers[k].channels
    ensures ApplyServerDelete(st, s).channels == st.channels
    ensures ApplyServerDelete(st, s).members == st.members
  {
  }

  /** Removals keep every map keyed by identifier. */
  lemma ChannelDeleteKeepsKeyed(st: Snapshot, c: ChannelDeleteEvent)
    requires Keyed(st)
    ensures Keyed(ApplyChannelDelete(st, c))
  {
  }

  lemma ServerDeleteKeepsKeyed(st: Snapshot, s: ServerDeleteEvent)
    requires Keyed(st)
    ensures Keyed(ApplyServerDelete(st, s))
  {
  }

  lemma MemberLeaveKeepsKeyed(st: Snapshot, m: ServerMemberLeaveEvent)
    requires Keyed(st)
    ensures Keyed(ApplyMemberLeave(st, m))
  {
  }
}
