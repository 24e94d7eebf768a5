/** A partial update of a cached server (src/models/events/server/update.rs). */
module ServerUpdateEvents {
  import opened Wrappers
  import opened Entities
  import opened Mirror
  import SystemChannels

  /** A field the update asks to remove. */
  datatype ServerField = Icon | Banner | Description

  /** The fields that changed; an absent field, or an empty category list, means
      "unchanged". */
  datatype PartialServer = PartialServer(
    name: Option<string>,
    description: Option<string>,
    icon: Option<Attachment>,
    banner: Option<Attachment>,
    categories: seq<Category>,
    systemMessages: Option<SystemChannels.SystemMessageChannels>,
    nsfw: Option<bool>)

  datatype ServerUpdateEvent = ServerUpdateEvent(serverId: ID, data: PartialServer, clear: Option<ServerField>)

  /** The server after the event, field by field: a present value replaces the
      stored one; otherwise a cleared field becomes absent; otherwise the stored
      value stays. `id`, `ownerId`, `channels` and `flags` never change. */
  function Patched(s: Server, e: ServerUpdateEvent): Server {
    var d := e.data;
    Server(
      id := s.id,
      ownerId := s.ownerId,
      name := d.name.GetOr(s.name),
      description :=
        if d.description.Some? then d.description
        else if e.clear == Some(Description) then None else s.description,
      channels := s.channels,
      categories := if d.categories != [] then d.categories else s.categories,
      systemMessages := d.systemMessages.GetOr(s.systemMessages),
      icon := if d.icon.Some? then d.icon else if e.clear == Some(Icon) then None else s.icon,
      banner := if d.banner.Some? then d.banner else if e.clear == Some(Banner) then None else s.banner,
      flags := s.flags,
      nsfw := d.nsfw.GetOr(s.nsfw))
  }

  /** The mirror after the event: only the server under `serverId` changes, and
      only when it is cached. */
  function Apply(st: Snapshot, e: ServerUpdateEvent): Snapshot {
    if e.serverId in st.servers
    then st.(servers := st.servers[e.serverId := Patched(st.servers[e.serverId], e)])
    else st
  }

  /** `ServerUpdateEvent::update`: on the cached server, first the clear, then
      each present data field in turn. */
  method Update(e: ServerUpdateEvent, cache: Cache)
    modifies cache
    ensures cache.State() == Apply(old(cache.State()), e)
  {
    if e.serverId in cache.servers {
      var server := Patch(cache.servers[e.serverId], e);
      cache.servers := cache.servers[e.serverId := server];
    }
  }

  /** The body of `ServerUpdateEvent::update` on one server, field by field. */
  method Patch(s: Server, e: ServerUpdateEvent) returns (r: Server)
    ensures r == Patched(s, e)
  {
    var icon, banner, description := s.icon, s.banner, s.description;
    if e.clear.Some? {
      match e.clear.value
      case Icon => icon := None;
      case Banner => banner := None;
      case Description => description := None;
    }
    assert icon == if e.clear == Some(Icon) then None else s.icon;
    assert banner == if e.clear == Some(Banner) then None else s.banner;
    assert description == if e.clear == Some(Description) then None else s.description;
    var name := s.name;
    if e.data.name.Some? {
      name := e.data.name.value;
    }
    if e.data.description.Some? {
      description := e.data.description;
    }
    if e.data.icon.Some? {
      icon := e.data.icon;
    }
    if e.data.banner.Some? {
      banner := e.data.banner;
    }
    var categories := s.categories;
    if e.data.categories != [] {
      categories := e.data.categories;
    }
    var systemMessages := s.systemMessages;
    if e.data.systemMessages.Some? {
      systemMessages := e.data.systemMessages.value;
    }
    var nsfw := s.nsfw;
    if e.data.nsfw.Some? {
      nsfw := e.data.nsfw.value;
    }
    assert icon == Patched(s, e).icon;
    assert banner == Patched(s, e).banner;
    assert description == Patched(s, e).description;
    assert name == Patched(s, e).name;
    assert categories == Patched(s, e).categories;
    assert systemMessages == Patched(s, e).systemMessages;
    assert nsfw == Patched(s, e).nsfw;
    r := s.(name := name, description := description, categories := categories,
            systemMessages := systemMessages, icon := icon, banner := banner, nsfw := nsfw);
  }

  /** An update for a server that is not cached changes nothing. */
  lemma UncachedUnchanged(st: Snapshot, e: ServerUpdateEvent)
    requires e.serverId !in st.servers
    ensures Apply(st, e) == st
  {
  }

  /** A cleared field with no data value for it ends up absent. */
  lemma ClearRemoves(s: Server, e: ServerUpdateEvent)
    ensures e.clear == Some(Icon) && e.data.icon.None? ==> Patched(s, e).icon.None?
    ensures e.clear == Some(Banner) && e.data.banner.None? ==> Patched(s, e).banner.None?
    ensures e.clear == Some(Description) && e.data.description.None? ==> Patched(s, e).description.None?
  {
  }

  /** The clear runs first, so a data value for the same field wins over it. */
  lemma DataWinsOverClear(s: Server, e: ServerUpdateEvent)
    ensures e.data.icon.Some? ==> Patched(s, e).icon == e.data.icon
    ensures e.data.banner.Some? ==> Patched(s, e).banner == e.data.banner
    ensures e.data.description.Some? ==> Patched(s, e).description == e.data.description
  {
  }

  /** An empty category list leaves the stored categories. */
  lemma EmptyCategoriesUnchanged(s: Server, e: ServerUpdateEvent)
    requires e.data.categories == []
    ensures Patched(s, e).categories == s.categories
  {
  }

  /** An event that carries nothing changes nothing. */
  lemma EmptyEventIsIdentity(s: Server, e: ServerUpdateEvent)
    requires e.clear.None? && e.data == PartialServer(None, None, None, None, [], None, None)
    ensures Patched(s, e) == s
  {
  }

  /** Applying the same update twice is applying it once. */
  lemma Idempotent(st: Snapshot, e: ServerUpdateEvent)
    ensures Apply(Apply(st, e), e) == Apply(st, e)
  {
  }

  /** The update keeps the servers map keyed by server id. */
  lemma KeepsKeyed(st: Snapshot, e: ServerUpdateEvent)
    requires Keyed(st)
    ensures Keyed(Apply(st, e))
  {
  }
}
