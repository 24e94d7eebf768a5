/** A partial update of a cached server member
    (src/models/events/server/member_update.rs). */
module MemberUpdateEvents {
  import opened Wrappers
  import opened Entities
  import opened Mirror

  /** A member field the update asks to remove. */
  datatype MemberField = Nickname | Avatar

  /** The fields that changed; an empty role list means "unchanged". */
  datatype PartialMember = PartialMember(nickname: Option<string>, avatar: Option<Attachment>, roles: seq<ID>)

  datatype ServerMemberUpdateEvent = ServerMemberUpdateEvent(memberId: MemberID, data: PartialMember, clear: Option<MemberField>)

  /** The member after the event: a present value replaces the stored one,
      otherwise a cleared field becomes absent, otherwise it stays. */
  function Patched(m: Member, e: ServerMemberUpdateEvent): Member {
    Member(
      id := m.id,
      nickname :=
        if e.data.nickname.Some? then e.data.nickname
        else if e.clear == Some(Nickname) then None else m.nickname,
      avatar :=
        if e.data.avatar.Some? then e.data.avatar
        else if e.clear == Some(Avatar) then None else m.avatar,
      roles := if e.data.roles != [] then e.data.roles else m.roles)
  }

  /** The mirror after the event: only the cached member under `memberId` changes. */
  function Apply(st: Snapshot, e: ServerMemberUpdateEvent): Snapshot {
    if e.memberId in st.members
    then st.(members := st.members[e.memberId := Patched(st.members[e.memberId], e)])
    else st
  }

  /** `ServerMemberUpdateEvent::update`: on the cached member, the clear first,
      then each present data field. */
  method Update(e: ServerMemberUpdateEvent, cache: Cache)
    modifies cache
    ensures cache.State() == Apply(old(cache.State()), e)
  {
    if e.memberId in cache.members {
      var member := cache.members[e.memberId];
      if e.clear.Some? {
        match e.clear.value
        case Nickname => member := member.(nickname := None);
        case Avatar => member := member.(avatar := None);
      }
      if e.data.nickname.Some? {
        member := member.(nickname := e.data.nickname);
      }
      if e.data.avatar.Some? {
        member := member.(avatar := e.data.avatar);
      }
      if e.data.roles != [] {
        member := member.(roles := e.data.roles);
      }
      cache.members := cache.members[e.memberId := member];
    }
  }

  /** An update for a member that is not cached changes nothing. */
  lemma UncachedUnchanged(st: Snapshot, e: ServerMemberUpdateEvent)
    requires e.memberId !in st.members
    ensures Apply(st, e) == st
  {
  }

  /** A cleared field without a data value ends up absent; a data value wins
      over a clear of the same field, because the clear runs first. */
  lemma ClearAndData(m: Member, e: ServerMemberUpdateEvent)
    ensures e.clear == Some(Nickname) && e.data.nickname.None? ==> Patched(m, e).nickname.None?
    ensures e.clear == Some(Avatar) && e.data.avatar.None? ==> Patched(m, e).avatar.None?
    ensures e.data.nickname.Some? ==> Patched(m, e).nickname == e.data.nickname
    ensures e.data.avatar.Some? ==> Patched(m, e).avatar == e.data.avatar
  {
  }

  /** Roles are replaced exactly when the event carries some. */
  lemma RolesReplacedIffNonEmpty(m: Member, e: ServerMemberUpdateEvent)
    ensures e.data.roles != [] ==> Patched(m, e).roles == e.data.roles
    ensures e.data.roles == [] ==> Patched(m, e).roles == m.roles
  {
  }

  /** Only the addressed member changes; users, channels and servers stay. */
  lemma Frame(st: Snapshot, e: ServerMemberUpdateEvent)
    ensures Apply(st, e).users == st.users && Apply(st, e).channels == st.channels
    ensures Apply(st, e).servers == st.servers
    ensures Apply(st, e).members.Keys == st.members.Keys
    ensures forall k :: k in st.members && k != e.memberId ==> Apply(st, e).members[k] == st.members[k]
  {
  }

  /** Applying the same update twice is applying it once. */
  lemma Idempotent(st: Snapshot, e: ServerMemberUpdateEvent)
    ensures Apply(Apply(st, e), e) == Apply(st, e)
  {
  }

  /** The update keeps the members map keyed by member id. */
  lemma KeepsKeyed(st: Snapshot, e: ServerMemberUpdateEvent)
    requires Keyed(st)
    ensures Keyed(Apply(st, e))
  {
  }
}
