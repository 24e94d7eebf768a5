/** The REST calls of the entity types: the path each one builds, its verb and
    body, the limiter each one draws, and the cache-first `fetch` pattern
    (src/models/channel/mod.rs, src/models/message/mod.rs,
    src/models/server/mod.rs, src/models/server/member.rs, src/models/user/mod.rs). */
module Resources {
  import opened Wrappers
  import opened Entities
  import opened Mirror
  import Http
  import MessageBuilders
  import ChannelBuilders

  /** `format!("{}/{}", a, b)`. */
  function Join(a: string, b: string): string {
    a + "/" + b
  }

  function ChannelPath(id: ID): string { Join("channels", id) }
  function MessagesPath(channelId: ID): string { Join("channels", Join(channelId, "messages")) }
  function MessagePath(channelId: ID, id: ID): string { Join("channels", Join(channelId, Join("messages", id))) }
  function ServerPath(id: ID): string { Join("servers", id) }
  function ServerMembersPath(id: ID): string { Join("servers", Join(id, "members")) }
  function ServerChannelsPath(id: ID): string { Join("servers", Join(id, "channels")) }
  function MemberPath(serverId: ID, userId: ID): string { Join("servers", Join(serverId, Join("members", userId))) }
  function BanPath(serverId: ID, userId: ID): string { Join("servers", Join(serverId, Join("bans", userId))) }
  function UserPath(id: ID): string { Join("users", id) }
  function ProfilePath(id: ID): string { Join("users", Join(id, "profile")) }

  /** One REST call an entity method makes, with the arguments it is given. */
  datatype Call =
    | ChannelFetch(channelId: ID)
    | ChannelEdit(channelId: ID, editChannel: ChannelBuilders.EditChannel)
    | ChannelDelete(channelId: ID)
    | MessageFetch(channelId: ID, messageId: ID)
    | MessageCreate(channelId: ID, createMessage: MessageBuilders.CreateMessage)
    | MessageReply(message: Message, reply: MessageBuilders.CreateMessage, mention: bool)
    | MessageEdit(message: Message, editMessage: MessageBuilders.EditMessage)
    | MessageDelete(message: Message)
    | ServerFetch(serverId: ID)
    | ServerMembersFetch(serverId: ID)
    | ServerEdit(serverId: ID)
    | ServerCreateChannel(serverId: ID, createChannel: ChannelBuilders.CreateChannel)
    | ServerLeave(serverId: ID)
    | ServerUnban(serverId: ID, userId: ID)
    | MemberFetch(memberId: MemberID)
    | MemberEdit(memberId: MemberID)
    | MemberKick(memberId: MemberID)
    | MemberBan(memberId: MemberID, reason: Option<string>)
    | UserFetch(userId: ID)
    | UserProfileFetch(userId: ID)

  /** The request each call sends. `delete_after` sends the same request as
      `delete` after its delay; the edit builders of servers and members are not
      part of this model. */
  function RequestFor(c: Call): Http.Request {
    match c
    case ChannelFetch(id) => Http.Request(Http.GET, ChannelPath(id), Http.NoBody)
    case ChannelEdit(id, b) => Http.Request(Http.PATCH, ChannelPath(id), Http.EditChannelBody(b))
    case ChannelDelete(id) => Http.Request(Http.DELETE, ChannelPath(id), Http.NoBody)
    case MessageFetch(cid, id) => Http.Request(Http.GET, MessagePath(cid, id), Http.NoBody)
    case MessageCreate(cid, b) => Http.Request(Http.POST, MessagesPath(cid), Http.CreateMessageBody(b))
    case MessageReply(m, b, mention) =>
      Http.Request(Http.POST, MessagesPath(m.channelId), Http.CreateMessageBody(b.ReplyTo(m.id, mention)))
    case MessageEdit(m, b) => Http.Request(Http.PATCH, MessagePath(m.channelId, m.id), Http.EditMessageBody(b))
    case MessageDelete(m) => Http.Request(Http.DELETE, MessagePath(m.channelId, m.id), Http.NoBody)
    case ServerFetch(id) => Http.Request(Http.GET, ServerPath(id), Http.NoBody)
    case ServerMembersFetch(id) => Http.Request(Http.GET, ServerMembersPath(id), Http.NoBody)
    case ServerEdit(id) => Http.Request(Http.PATCH, ServerPath(id), Http.OtherBody)
    case ServerCreateChannel(id, b) => Http.Request(Http.POST, ServerChannelsPath(id), Http.CreateChannelBody(b))
    case ServerLeave(id) => Http.Request(Http.DELETE, ServerPath(id), Http.NoBody)
    case ServerUnban(id, u) => Http.Request(Http.DELETE, BanPath(id, u), Http.NoBody)
    case MemberFetch(k) => Http.Request(Http.GET, MemberPath(k.serverId, k.userId), Http.NoBody)
    case MemberEdit(k) => Http.Request(Http.PATCH, MemberPath(k.serverId, k.userId), Http.OtherBody)
    case MemberKick(k) => Http.Request(Http.DELETE, MemberPath(k.serverId, k.userId), Http.NoBody)
    case MemberBan(k, why) =>
      Http.Request(Http.PUT, BanPath(k.serverId, k.userId), Http.BanBody(CreateBanNew(why)))
    case UserFetch(id) => Http.Request(Http.GET, UserPath(id), Http.NoBody)
    case UserProfileFetch(id) => Http.Request(Http.GET, ProfilePath(id), Http.NoBody)
  }

  /** The resource family a call addresses, by the type whose method makes it. */
  datatype Root = ChannelsRoot | ServersRoot | UsersRoot

  function RootOf(c: Call): Root {
    if c.ChannelFetch? || c.ChannelEdit? || c.ChannelDelete? || c.MessageFetch? || c.MessageCreate?
       || c.MessageReply? || c.MessageEdit? || c.MessageDelete?
    then ChannelsRoot
    else if c.UserFetch? || c.UserProfileFetch? then UsersRoot
    else ServersRoot
  }

  /** The limiter a call should draw, stated per family: POST and DELETE always
      take the shared limiter, because no path starts with '/'; otherwise
      `channels` routes get a fresh 1/s limiter, `users` routes the shared one,
      and `servers` routes panic. */
  function ExpectedLease(c: Call): Http.Lease {
    var verb := RequestFor(c).verb;
    if verb == Http.POST || verb == Http.DELETE then Http.Shared
    else match RootOf(c)
      case ChannelsRoot => Http.Fresh(1)
      case UsersRoot => Http.Shared
      case ServersRoot => Http.Panic
  }

  /** The first path segment of each family. */
  function RootName(r: Root): string {
    match r case ChannelsRoot => "channels" case ServersRoot => "servers" case UsersRoot => "users"
  }

  /** What follows the family name and its '/' in a call's path. */
  function PathRest(c: Call): string {
    match c
    case ChannelFetch(id) => id
    case ChannelEdit(id, _) => id
    case ChannelDelete(id) => id
    case MessageFetch(cid, id) => Join(cid, Join("messages", id))
    case MessageCreate(cid, _) => Join(cid, "messages")
    case MessageReply(m, _, _) => Join(m.channelId, "messages")
    case MessageEdit(m, _) => Join(m.channelId, Join("messages", m.id))
    case MessageDelete(m) => Join(m.channelId, Join("messages", m.id))
    case ServerFetch(id) => id
    case ServerMembersFetch(id) => Join(id, "members")
    case ServerEdit(id) => id
    case ServerCreateChannel(id, _) => Join(id, "channels")
    case ServerLeave(id) => id
    case ServerUnban(id, u) => Join(id, Join("bans", u))
    case MemberFetch(k) => Join(k.serverId, Join("members", k.userId))
    case MemberEdit(k) => Join(k.serverId, Join("members", k.userId))
    case MemberKick(k) => Join(k.serverId, Join("members", k.userId))
    case MemberBan(k, _) => Join(k.serverId, Join("bans", k.userId))
    case UserFetch(id) => id
    case UserProfileFetch(id) => Join(id, "profile")
  }

  /** Every path is its family's name, a '/', and the rest; so its first
      segment names the family and it never starts with '/'. */
  lemma {:induction false} PathRoot(c: Call)
    ensures RequestFor(c).path == Join(RootName(RootOf(c)), PathRest(c))
    ensures Http.FirstSegment(RequestFor(c).path) == RootName(RootOf(c))
    ensures !Http.StartsWith(RequestFor(c).path, "/")
  {
    var root, path := RootName(RootOf(c)), RequestFor(c).path;
    PathShape(c);
    assert '/' !in root;
    Http.FirstSegmentOfJoin(root, PathRest(c));
    assert path[0] == root[0] != '/';
  }

  /** Each call's path, case by case, is its family's name and its rest. */
  lemma PathShape(c: Call)
    ensures RequestFor(c).path == Join(RootName(RootOf(c)), PathRest(c))
  {
    match c {
      case ChannelFetch(_) =>
      case ChannelEdit(_, _) =>
      case ChannelDelete(_) =>
      case MessageFetch(_, _) =>
      case MessageCreate(_, _) =>
      case MessageReply(_, _, _) =>
      case MessageEdit(_, _) =>
      case MessageDelete(_) =>
      case ServerFetch(_) =>
      case ServerMembersFetch(_) =>
      case ServerEdit(_) =>
      case ServerCreateChannel(_, _) =>
      case ServerLeave(_) =>
      case ServerUnban(_, _) =>
      case MemberFetch(_) =>
      case MemberEdit(_) =>
      case MemberKick(_) =>
      case MemberBan(_, _) =>
      case UserFetch(_) =>
      case UserProfileFetch(_) =>
    }
  }

  /** `obtain_lease` gives every call the limiter `ExpectedLease` names. */
  lemma {:induction false} CallLease(c: Call)
    ensures Http.ObtainLease(RequestFor(c).path, RequestFor(c).verb) == ExpectedLease(c)
  {
    PathRoot(c);
    var r := RequestFor(c);
    if r.verb == Http.POST || r.verb == Http.DELETE {
      Http.NoLeadingSlashIsShared(r.path);
    } else {
      Http.TableRates(r.path, r.verb);
      assert "users" !in Http.RateLimits;
      if RootOf(c) == ServersRoot {
        Http.LeasePanicsIff(r.path, r.verb);
      }
    }
  }

  /** `Message::reply` posts to the message's own channel the caller's builder
      with exactly one more reply, to this message. */
  lemma ReplyAddsOne(m: Message, b: MessageBuilders.CreateMessage, mention: bool)
    ensures RequestFor(MessageReply(m, b, mention)) ==
      RequestFor(MessageCreate(m.channelId, b.ReplyTo(m.id, mention)))
    ensures var body := RequestFor(MessageReply(m, b, mention)).body.createMessage;
      body.replies == b.replies + [MessageBuilders.Reply(m.id, mention)] && body.(replies := b.replies) == b
  {
  }

  /** Fetching, editing and deleting a message all address the same path. */
  lemma MessageCallsShareAPath(m: Message, e: MessageBuilders.EditMessage)
    ensures RequestFor(MessageFetch(m.channelId, m.id)).path == RequestFor(MessageEdit(m, e)).path
      == RequestFor(MessageDelete(m)).path == MessagePath(m.channelId, m.id)
  {
  }

  /** Distinct messages have distinct paths: a path determines the channel and
      the message when the channel id holds no '/'. */
  lemma {:induction false} MessagePathInjective(c1: ID, id1: ID, c2: ID, id2: ID)
    requires '/' !in c1 && '/' !in c2
    requires MessagePath(c1, id1) == MessagePath(c2, id2)
    ensures c1 == c2 && id1 == id2
  {
    var p1, p2 := Join(c1, Join("messages", id1)), Join(c2, Join("messages", id2));
    assert p1 == MessagePath(c1, id1)[9..] && p2 == MessagePath(c2, id2)[9..];
    Http.FirstSegmentOfJoin(c1, Join("messages", id1));
    Http.FirstSegmentOfJoin(c2, Join("messages", id2));
    assert c1 == c2;
    assert id1 == p1[|c1| + 10..] && id2 == p2[|c2| + 10..];
  }

  /** The cache-first `fetch` of channels, servers, members and users: a cached
      value is returned as it is, without a request; otherwise the GET is made
      and `response` is its remote answer. The cache is read, never written. */
  function FetchChannel(st: Snapshot, id: ID, response: Http.Response<Channel>): (r: Http.Reply<Channel>)
    ensures id in st.channels ==> r == Http.Returned(Ok(st.channels[id]))
    ensures id !in st.channels ==> r == Http.Answer(Http.GET, ChannelPath(id), response)
  {
    if id in st.channels then Http.Returned(Ok(st.channels[id]))
    else Http.Answer(RequestFor(ChannelFetch(id)).verb, RequestFor(ChannelFetch(id)).path, response)
  }

  function FetchServer(st: Snapshot, id: ID, response: Http.Response<Server>): (r: Http.Reply<Server>)
    ensures id in st.servers ==> r == Http.Returned(Ok(st.servers[id]))
    ensures id !in st.servers ==> r == Http.Answer(Http.GET, ServerPath(id), response)
  {
    if id in st.servers then Http.Returned(Ok(st.servers[id]))
    else Http.Answer(RequestFor(ServerFetch(id)).verb, RequestFor(ServerFetch(id)).path, response)
  }

  /** `Member::fetch` looks the cache up under `MemberID::from((server_id, user_id))`. */
  function FetchMember(st: Snapshot, serverId: ID, userId: ID, response: Http.Response<Member>): (r: Http.Reply<Member>)
    ensures MemberIdFrom(serverId, userId) in st.members ==>
      r == Http.Returned(Ok(st.members[MemberID(serverId, userId)]))
    ensures MemberIdFrom(serverId, userId) !in st.members ==>
      r == Http.Answer(Http.GET, MemberPath(serverId, userId), response)
  {
    var key := MemberIdFrom(serverId, userId);
    if key in st.members then Http.Returned(Ok(st.members[key]))
    else Http.Answer(RequestFor(MemberFetch(key)).verb, RequestFor(MemberFetch(key)).path, response)
  }

  function FetchUser(st: Snapshot, id: ID, response: Http.Response<User>): (r: Http.Reply<User>)
    ensures id in st.users ==> r == Http.Returned(Ok(st.users[id]))
    ensures id !in st.users ==> r == Http.Answer(Http.GET, UserPath(id), response)
  {
    if id in st.users then Http.Returned(Ok(st.users[id]))
    else Http.Answer(RequestFor(UserFetch(id)).verb, RequestFor(UserFetch(id)).path, response)
  }

  /** On a miss, channel and user fetches deliver the remote answer, while
      server and member fetches panic in `obtain_lease`, whatever the answer. */
  lemma MissOutcomes(st: Snapshot, id: ID, s: ID, u: ID,
                     rc: Http.Response<Channel>, rs: Http.Response<Server>,
                     rm: Http.Response<Member>, ru: Http.Response<User>)
    ensures id !in st.channels ==> FetchChannel(st, id, rc) == Http.Returned(Http.Deliver(rc))
    ensures id !in st.servers ==> FetchServer(st, id, rs) == Http.Panicked
    ensures MemberID(s, u) !in st.members ==> FetchMember(st, s, u, rm) == Http.Panicked
    ensures id !in st.users ==> FetchUser(st, id, ru) == Http.Returned(Http.Deliver(ru))
  {
    ChannelMiss(st, id, rc);
    ServerMiss(st, id, rs);
    MemberMiss(st, s, u, rm);
    UserMiss(st, id, ru);
  }

  lemma ChannelMiss(st: Snapshot, id: ID, rc: Http.Response<Channel>)
    ensures id !in st.channels ==> FetchChannel(st, id, rc) == Http.Returned(Http.Deliver(rc))
  {
    if id !in st.channels {
      Http.FirstSegmentOfJoin("channels", id);
      Http.TableRates(ChannelPath(id), Http.GET);
    }
  }

  lemma ServerMiss(st: Snapshot, id: ID, rs: Http.Response<Server>)
    ensures id !in st.servers ==> FetchServer(st, id, rs) == Http.Panicked
  {
    if id !in st.servers {
      Http.FirstSegmentOfJoin("servers", id);
      Http.LeasePanicsIff(ServerPath(id), Http.GET);
    }
  }

  lemma MemberMiss(st: Snapshot, s: ID, u: ID, rm: Http.Response<Member>)
    ensures MemberID(s, u) !in st.members ==> FetchMember(st, s, u, rm) == Http.Panicked
  {
    if MemberID(s, u) !in st.members {
      Http.FirstSegmentOfJoin("servers", Join(s, Join("members", u)));
      Http.LeasePanicsIff(MemberPath(s, u), Http.GET);
    }
  }

  lemma UserMiss(st: Snapshot, id: ID, ru: Http.Response<User>)
    ensures id !in st.users ==> FetchUser(st, id, ru) == Http.Returned(Http.Deliver(ru))
  {
    if id !in st.users {
      Http.FirstSegmentOfJoin("users", id);
      assert "users" !in Http.RateLimits;
      Http.TableRates(UserPath(id), Http.GET);
    }
  }
}
