/** A partial update of a cached user (src/models/events/user_update.rs). */
module UserUpdateEvents {
  import opened Wrappers
  import opened Entities
  import opened Mirror

  /** A user field the update asks to remove. */
  datatype UserField = ProfileContent | ProfileBackground | StatusText | Avatar

  /** The fields that changed. The profile is carried but never stored. */
  datatype PartialUser = PartialUser(
    status: Option<UserStatus>,
    profile: Option<UserProfile>,
    avatar: Option<Attachment>,
    online: Option<bool>)

  datatype UserUpdateEvent = UserUpdateEvent(userId: ID, data: PartialUser, clear: Option<UserField>)

  /** The status after the clear: clearing the status text empties the text of
      an existing status and leaves an absent status absent. */
  function ClearedStatus(status: Option<UserStatus>, clear: Option<UserField>): Option<UserStatus> {
    if clear == Some(StatusText) && status.Some? then Some(status.value.(text := None)) else status
  }

  /** The user after the event. The profile clears have no effect, because the
      mirror keeps no profile. */
  function Patched(u: User, e: UserUpdateEvent): User {
    u.(
      status := if e.data.status.Some? then e.data.status else ClearedStatus(u.status, e.clear),
      avatar :=
        if e.data.avatar.Some? then e.data.avatar
        else if e.clear == Some(Avatar) then None else u.avatar,
      online := e.data.online.GetOr(u.online))
  }

  /** The mirror after the event: only the cached user under `userId` changes. */
  function Apply(st: Snapshot, e: UserUpdateEvent): Snapshot {
    if e.userId in st.users
    then st.(users := st.users[e.userId := Patched(st.users[e.userId], e)])
    else st
  }

  /** `UserUpdateEvent::update`: on the cached user, the clear first, then each
      present data field. */
  method Update(e: UserUpdateEvent, cache: Cache)
    modifies cache
    ensures cache.State() == Apply(old(cache.State()), e)
  {
    if e.userId in cache.users {
      var user := cache.users[e.userId];
      if e.clear.Some? {
        match e.clear.value
        case StatusText =>
          if user.status.Some? {
            user := user.(status := Some(user.status.value.(text := None)));
          }
        case Avatar => user := user.(avatar := None);
        case _ =>
      }
      if e.data.status.Some? {
        user := user.(status := e.data.status);
      }
      if e.data.avatar.Some? {
        user := user.(avatar := e.data.avatar);
      }
      if e.data.online.Some? {
        user := user.(online := e.data.online.value);
      }
      cache.users := cache.users[e.userId := user];
    }
  }

  /** An update for a user that is not cached changes nothing. */
  lemma UncachedUnchanged(st: Snapshot, e: UserUpdateEvent)
    requires e.userId !in st.users
    ensures Apply(st, e) == st
  {
  }

  /** The profile, and a clear of the profile, leave the user as the other
      fields alone would. */
  lemma ProfileIgnored(u: User, e: UserUpdateEvent, p: Option<UserProfile>)
    ensures Patched(u, e.(data := e.data.(profile := p))) == Patched(u, e)
    ensures e.clear == Some(ProfileContent) || e.clear == Some(ProfileBackground) ==>
      Patched(u, e) == Patched(u, e.(clear := None))
  {
  }

  /** Clearing the status text keeps the presence and empties the text; a new
      status in the same event wins. */
  lemma StatusTextClear(u: User, e: UserUpdateEvent)
    requires e.clear == Some(StatusText) && e.data.status.None?
    ensures Patched(u, e).status.Some? <==> u.status.Some?
    ensures u.status.Some? ==> Patched(u, e).status.value == UserStatus(None, u.status.value.presence)
  {
  }

  /** A data value wins over a clear of the same field. */
  lemma DataWinsOverClear(u: User, e: UserUpdateEvent)
    ensures e.data.status.Some? ==> Patched(u, e).status == e.data.status
    ensures e.data.avatar.Some? ==> Patched(u, e).avatar == e.data.avatar
    ensures e.clear == Some(Avatar) && e.data.avatar.None? ==> Patched(u, e).avatar.None?
  {
  }

  /** Identity, name, badges, flags and bot information never change. */
  lemma Frame(u: User, e: UserUpdateEvent)
    ensures var r := Patched(u, e);
      r.id == u.id && r.username == u.username && r.badges == u.badges && r.flags == u.flags && r.bot == u.bot
  {
  }

  /** Applying the same update twice is applying it once. */
  lemma Idempotent(st: Snapshot, e: UserUpdateEvent)
    ensures Apply(Apply(st, e), e) == Apply(st, e)
  {
  }

  /** The update keeps the users map keyed by user id. */
  lemma KeepsKeyed(st: Snapshot, e: UserUpdateEvent)
    requires Keyed(st)
    ensures Keyed(Apply(st, e))
  {
  }
}
