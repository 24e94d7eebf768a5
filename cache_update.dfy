/** `Cache::update` (src/cache.rs): the dispatch of one inbound event to the
    cache effect of its kind. */
module CacheUpdate {
  import opened Entities
  import opened Mirror
  import opened ServerEvents
  import Http
  import Wrappers
  import Resources
  import ReadyEvents
  import ChannelCache
  import RemovalEvents
  import GroupMembershipEvents
  import ServerUpdateEvents
  import MemberUpdateEvents
  import MemberJoinEvents
  import UserUpdateEvents

  /** The kinds `Cache::update` lists; every other kind leaves the mirror alone. */
  predicate Cached(e: ServerEvent) {
    e.Ready? || e.Message? || e.ChannelCreate? || e.ChannelUpdate? || e.ChannelDelete?
    || e.ChannelGroupJoin? || e.ChannelGroupLeave? || e.ServerUpdate? || e.ServerDelete?
    || e.ServerMemberUpdate? || e.ServerMemberJoin? || e.ServerMemberLeave? || e.UserUpdate?
  }

  /** The mirror after one event, or the panic of the update task. Only a member
      join can panic, in its fetch; `memberResponse` is the remote answer to that
      fetch's GET. The channel update's own effect is not part of this model and
      is taken as leaving the mirror unchanged. */
  function Apply(st: Snapshot, e: ServerEvent, memberResponse: Http.Response<Member>): MemberJoinEvents.Effect {
    match e
    case Ready(r) => MemberJoinEvents.Updated(ReadyEvents.Apply(st, r))
    case Message(m) => MemberJoinEvents.Updated(ChannelCache.ApplyMessage(st, m))
    case ChannelCreate(c) => MemberJoinEvents.Updated(ChannelCache.ApplyChannel(st, c))
    case ChannelDelete(d) => MemberJoinEvents.Updated(RemovalEvents.ApplyChannelDelete(st, d))
    case ChannelGroupJoin(j) => MemberJoinEvents.Updated(GroupMembershipEvents.ApplyJoin(st, j))
    case ChannelGroupLeave(l) => MemberJoinEvents.Updated(GroupMembershipEvents.ApplyLeave(st, l))
    case ServerUpdate(u) => MemberJoinEvents.Updated(ServerUpdateEvents.Apply(st, u))
    case ServerDelete(d) => MemberJoinEvents.Updated(RemovalEvents.ApplyServerDelete(st, d))
    case ServerMemberUpdate(u) => MemberJoinEvents.Updated(MemberUpdateEvents.Apply(st, u))
    case ServerMemberJoin(j) => MemberJoinEvents.Apply(st, j, memberResponse)
    case ServerMemberLeave(l) => MemberJoinEvents.Updated(RemovalEvents.ApplyMemberLeave(st, l))
    case UserUpdate(u) => MemberJoinEvents.Updated(UserUpdateEvents.Apply(st, u))
    case _ => MemberJoinEvents.Updated(st)
  }

  /** `Cache::update` on the shared cache. */
  method Update(e: ServerEvent, memberResponse: Http.Response<Member>, cache: Cache) returns (panicked: bool)
    modifies cache
    ensures panicked <==> Apply(old(cache.State()), e, memberResponse).TaskPanicked?
    ensures !panicked ==> Apply(old(cache.State()), e, memberResponse) == MemberJoinEvents.Updated(cache.State())
    ensures panicked ==> cache.State() == old(cache.State())
  {
    if e.ServerMemberJoin? {
      panicked := MemberJoinEvents.Update(e.memberJoin, memberResponse, cache);
    } else {
      UpdateInfallible(e, memberResponse, cache);
      panicked := false;
    }
  }

  /** The events whose update cannot panic. */
  method UpdateInfallible(e: ServerEvent, memberResponse: Http.Response<Member>, cache: Cache)
    requires !e.ServerMemberJoin?
    modifies cache
    ensures Apply(old(cache.State()), e, memberResponse) == MemberJoinEvents.Updated(cache.State())
  {
    if ChannelKind(e) {
      UpdateChannelKind(e, memberResponse, cache);
    } else {
      UpdateOtherKind(e, memberResponse, cache);
    }
  }

  /** The listed events that concern one channel. */
  predicate ChannelKind(e: ServerEvent) {
    e.Message? || e.ChannelCreate? || e.ChannelDelete? || e.ChannelGroupJoin? || e.ChannelGroupLeave?
  }

  method UpdateChannelKind(e: ServerEvent, memberResponse: Http.Response<Member>, cache: Cache)
    requires ChannelKind(e)
    modifies cache
    ensures Apply(old(cache.State()), e, memberResponse) == MemberJoinEvents.Updated(cache.State())
  {
    match e {
      case Message(m) => ChannelCache.UpdateMessage(m, cache);
      case ChannelCreate(c) => ChannelCache.UpdateChannel(c, cache);
      case ChannelDelete(d) => RemovalEvents.UpdateChannelDelete(d, cache);
      case ChannelGroupJoin(j) => GroupMembershipEvents.UpdateJoin(j, cache);
      case ChannelGroupLeave(l) => GroupMembershipEvents.UpdateLeave(l, cache);
    }
  }

  method UpdateOtherKind(e: ServerEvent, memberResponse: Http.Response<Member>, cache: Cache)
    requires !ChannelKind(e) && !e.ServerMemberJoin?
    modifies cache
    ensures Apply(old(cache.State()), e, memberResponse) == MemberJoinEvents.Updated(cache.State())
  {
    if ServerKind(e) {
      UpdateServerKind(e, memberResponse, cache);
    } else if e.Ready? {
      ReadyEvents.Update(e.ready, cache);
    } else if e.UserUpdate? {
      UserUpdateEvents.Update(e.userUpdate, cache);
    }
  }

  method UpdateServerKind(e: ServerEvent, memberResponse: Http.Response<Member>, cache: Cache)
    requires ServerKind(e) && !e.ServerMemberJoin?
    modifies cache
    ensures Apply(old(cache.State()), e, memberResponse) == MemberJoinEvents.Updated(cache.State())
  {
    match e {
      case ServerUpdate(u) => ServerUpdateEvents.Update(u, cache);
      case ServerDelete(d) => RemovalEvents.UpdateServerDelete(d, cache);
      case ServerMemberUpdate(u) => MemberUpdateEvents.Update(u, cache);
      case ServerMemberLeave(l) => RemovalEvents.UpdateMemberLeave(l, cache);
    }
  }

  /** Events outside the listed kinds leave the mirror as it is. */
  lemma UnlistedUnchanged(st: Snapshot, e: ServerEvent, memberResponse: Http.Response<Member>)
    requires !Cached(e)
    ensures Apply(st, e, memberResponse) == MemberJoinEvents.Updated(st)
  {
  }

  /** The model's stand-in for the channel update: `ChannelUpdateEvent::update`
      is not part of this model, so `Apply` leaves the mirror as it is. */
  lemma ChannelUpdateStub(st: Snapshot, e: ServerEvent, memberResponse: Http.Response<Member>)
    requires e.ChannelUpdate?
    ensures Apply(st, e, memberResponse) == MemberJoinEvents.Updated(st)
  {
  }

  /** The update task panics exactly for a member join whose member is not
      cached. */
  lemma PanicsIff(st: Snapshot, e: ServerEvent, memberResponse: Http.Response<Member>)
    ensures Apply(st, e, memberResponse).TaskPanicked? <==>
      e.ServerMemberJoin? && MemberID(e.memberJoin.serverId, e.memberJoin.userId) !in st.members
  {
    if e.ServerMemberJoin? {
      var j := e.memberJoin;
      if MemberID(j.serverId, j.userId) !in st.members {
        MemberJoinEvents.UncachedPanics(st, j, memberResponse);
      } else {
        var k := MemberID(j.serverId, j.userId);
        assert Resources.FetchMember(st, j.serverId, j.userId, memberResponse) == Http.Returned(Wrappers.Ok(st.members[k]));
      }
    }
  }

  /** Every event keeps every map keyed by identifier. */
  lemma KeepsKeyed(st: Snapshot, e: ServerEvent, memberResponse: Http.Response<Member>)
    requires Keyed(st)
    ensures Apply(st, e, memberResponse).Updated? ==> Keyed(Apply(st, e, memberResponse).state)
  {
    if ChannelKind(e) {
      ChannelKindKeepsKeyed(st, e, memberResponse);
    } else {
      OtherKindKeepsKeyed(st, e, memberResponse);
    }
  }

  lemma ChannelKindKeepsKeyed(st: Snapshot, e: ServerEvent, memberResponse: Http.Response<Member>)
    requires Keyed(st) && ChannelKind(e)
    ensures Apply(st, e, memberResponse).Updated? && Keyed(Apply(st, e, memberResponse).state)
  {
    var after := Apply(st, e, memberResponse).state;
    match e
    case Message(m) =>
      assert after == ChannelCache.ApplyMessage(st, m);
      ChannelCache.MessageFrame(st, m);
    case ChannelCreate(c) =>
      assert after == ChannelCache.ApplyChannel(st, c);
      ChannelCache.ChannelStored(st, c);
    case ChannelDelete(d) =>
      assert after == RemovalEvents.ApplyChannelDelete(st, d);
      RemovalEvents.ChannelDeleteKeepsKeyed(st, d);
    case ChannelGroupJoin(j) =>
      assert after == GroupMembershipEvents.ApplyJoin(st, j);
      GroupMembershipEvents.JoinKeepsKeyed(st, j);
    case ChannelGroupLeave(l) =>
      assert after == GroupMembershipEvents.ApplyLeave(st, l);
      GroupMembershipEvents.LeaveKeepsKeyed(st, l);
  }

  lemma OtherKindKeepsKeyed(st: Snapshot, e: ServerEvent, memberResponse: Http.Response<Member>)
    requires Keyed(st) && !ChannelKind(e)
    ensures Apply(st, e, memberResponse).Updated? ==> Keyed(Apply(st, e, memberResponse).state)
  {
    var effect := Apply(st, e, memberResponse);
    if ServerKind(e) {
      ServerKindKeepsKeyed(st, e, memberResponse);
    } else if e.Ready? {
      assert effect.state == ReadyEvents.Apply(st, e.ready);
      ReadyEvents.ReadyKeepsKeyed(st, e.ready);
    } else if e.UserUpdate? {
      assert effect.state == UserUpdateEvents.Apply(st, e.userUpdate);
      UserUpdateEvents.KeepsKeyed(st, e.userUpdate);
    } else if e.ChannelUpdate? {
      ChannelUpdateStub(st, e, memberResponse);
    } else {
      UnlistedUnchanged(st, e, memberResponse);
    }
  }

  /** The listed events that concern a server or its members. */
  predicate ServerKind(e: ServerEvent) {
    e.ServerUpdate? || e.ServerDelete? || e.ServerMemberUpdate? || e.ServerMemberJoin? || e.ServerMemberLeave?
  }

  lemma ServerKindKeepsKeyed(st: Snapshot, e: ServerEvent, memberResponse: Http.Response<Member>)
    requires Keyed(st) && ServerKind(e)
    ensures Apply(st, e, memberResponse).Updated? ==> Keyed(Apply(st, e, memberResponse).state)
  {
    if e.ServerUpdate? || e.ServerDelete? {
      ServerEntryKeepsKeyed(st, e, memberResponse);
    } else {
      MemberEntryKeepsKeyed(st, e, memberResponse);
    }
  }

  lemma ServerEntryKeepsKeyed(st: Snapshot, e: ServerEvent, memberResponse: Http.Response<Member>)
    requires Keyed(st) && (e.ServerUpdate? || e.ServerDelete?)
    ensures Apply(st, e, memberResponse).Updated? && Keyed(Apply(st, e, memberResponse).state)
  {
    var after := Apply(st, e, memberResponse).state;
    if e.ServerUpdate? {
      assert after == ServerUpdateEvents.Apply(st, e.serverUpdate);
      ServerUpdateEvents.KeepsKeyed(st, e.serverUpdate);
    } else {
      assert after == RemovalEvents.ApplyServerDelete(st, e.serverDelete);
      RemovalEvents.ServerDeleteKeepsKeyed(st, e.serverDelete);
    }
  }

  lemma MemberEntryKeepsKeyed(st: Snapshot, e: ServerEvent, memberResponse: Http.Response<Member>)
    requires Keyed(st) && (e.ServerMemberUpdate? || e.ServerMemberJoin? || e.ServerMemberLeave?)
    ensures Apply(st, e, memberResponse).Updated? ==> Keyed(Apply(st, e, memberResponse).state)
  {
    var effect := Apply(st, e, memberResponse);
    if e.ServerMemberUpdate? {
      assert effect.state == MemberUpdateEvents.Apply(st, e.memberUpdate);
      MemberUpdateEvents.KeepsKeyed(st, e.memberUpdate);
    } else if e.ServerMemberJoin? {
      JoinKeepsKeyed(st, e, memberResponse);
    } else {
      assert effect.state == RemovalEvents.ApplyMemberLeave(st, e.memberLeave);
      RemovalEvents.MemberLeaveKeepsKeyed(st, e.memberLeave);
    }
  }

  lemma JoinKeepsKeyed(st: Snapshot, e: ServerEvent, memberResponse: Http.Response<Member>)
    requires Keyed(st) && e.ServerMemberJoin?
    ensures Apply(st, e, memberResponse).Updated? ==> Keyed(Apply(st, e, memberResponse).state)
  {
    assert Apply(st, e, memberResponse) == MemberJoinEvents.Apply(st, e.memberJoin, memberResponse);
    MemberJoinEvents.KeepsKeyed(st, e.memberJoin, memberResponse);
  }
}
