/** A member joined a server (src/models/events/server/member_join.rs): the
    member is fetched cache-first and the fetched member inserted. */
module MemberJoinEvents {
  import opened Wrappers
  import opened Entities
  import opened Mirror
  import Http
  import Resources

  datatype ServerMemberJoinEvent = ServerMemberJoinEvent(serverId: ID, userId: ID)

  /** The result of the update task: the mirror afterwards, or a panic of the
      task (which leaves the mirror as it was). */
  datatype Effect = Updated(state: Snapshot) | TaskPanicked

  /** `ServerMemberJoinEvent::update`: a fetched member is inserted under its
      own id; a failed fetch changes nothing; a panicking fetch ends the task.
      `response` is the remote answer to the member GET. */
  function Apply(st: Snapshot, e: ServerMemberJoinEvent, response: Http.Response<Member>): Effect {
    match Resources.FetchMember(st, e.serverId, e.userId, response)
    case Panicked => TaskPanicked
    case Returned(Ok(m)) => Updated(st.(members := st.members[m.id := m]))
    case Returned(Err(_)) => Updated(st)
  }

  /** The update task against the class. */
  method Update(e: ServerMemberJoinEvent, response: Http.Response<Member>, cache: Cache) returns (panicked: bool)
    modifies cache
    ensures panicked <==> Apply(old(cache.State()), e, response) == TaskPanicked
    ensures !panicked ==> Updated(cache.State()) == Apply(old(cache.State()), e, response)
    ensures panicked ==> cache.State() == old(cache.State())
  {
    var fetched := Resources.FetchMember(cache.State(), e.serverId, e.userId, response);
    match fetched {
      case Panicked => return true;
      case Returned(Ok(m)) => cache.members := cache.members[m.id := m];
      case Returned(Err(_)) =>
    }
    return false;
  }

  /** A member already cached under the event's key is fetched from the cache
      and written back unchanged: the mirror does not change. */
  lemma CachedUnchanged(st: Snapshot, e: ServerMemberJoinEvent, response: Http.Response<Member>)
    requires Keyed(st) && MemberID(e.serverId, e.userId) in st.members
    ensures Apply(st, e, response) == Updated(st)
  {
    var k := MemberID(e.serverId, e.userId);
    assert st.members[st.members[k].id := st.members[k]] == st.members;
  }

  /** A member not cached is fetched with GET `servers/{s}/members/{u}`, whose
      lease panics: the task panics whatever the remote end would answer. */
  lemma UncachedPanics(st: Snapshot, e: ServerMemberJoinEvent, response: Http.Response<Member>)
    requires MemberID(e.serverId, e.userId) !in st.members
    ensures Apply(st, e, response) == TaskPanicked
  {
    Resources.MemberMiss(st, e.serverId, e.userId, response);
  }

  /** Whatever happens, only the members map can change, and only by storing a
      fetched member under its own id. */
  lemma Frame(st: Snapshot, e: ServerMemberJoinEvent, response: Http.Response<Member>)
    ensures Apply(st, e, response).Updated? ==>
      var after := Apply(st, e, response).state;
      && after.(members := st.members) == st
      && (after.members == st.members
          || exists m: Member :: after.members == st.members[m.id := m])
  {
  }

  /** The join keeps the members map keyed by member id. */
  lemma KeepsKeyed(st: Snapshot, e: ServerMemberJoinEvent, response: Http.Response<Member>)
    requires Keyed(st)
    ensures Apply(st, e, response).Updated? ==> Keyed(Apply(st, e, response).state)
  {
  }
}
