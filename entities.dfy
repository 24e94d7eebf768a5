/** The records of the remote service that the client mirrors and passes around
    (src/models/{user,channel,server,message}/...), with their pure accessors. */
module Entities {
  import opened Wrappers
  import MessageContent
  import SystemChannels

  type ID = string

  /** Unsigned integer widths of the wire records. */
  newtype u8 = x: int | 0 <= x < 0x100
  newtype u32 = x: int | 0 <= x < 0x1_0000_0000

  /** An uploaded file (icon, avatar, banner, message attachment); tag and
      metadata are not kept. */
  datatype Attachment = Attachment(id: ID, filename: string, contentType: string, size: nat)

  /** A user's status; status.rs is not part of this model, the Revolt record
      carries a free text and a presence. */
  datatype UserStatus = UserStatus(text: Option<string>, presence: Option<string>)

  /** A user's profile; profile.rs is not part of this model. */
  datatype UserProfile = UserProfile(content: Option<string>, background: Option<Attachment>)

  /** Present on bot accounts. */
  datatype BotInformation = BotInformation(ownerId: ID)

  datatype User = User(
    id: ID,
    username: string,
    avatar: Option<Attachment>,
    status: Option<UserStatus>,
    badges: u32,
    flags: u8,
    online: bool,
    bot: Option<BotInformation>)
  {
    /** `is_bot`: the account carries bot information. */
    predicate IsBot() {
      bot.Some?
    }
  }

  datatype TextChannel = TextChannel(
    id: ID, serverId: ID, name: string, description: Option<string>,
    icon: Option<Attachment>, lastMessageId: Option<ID>, nsfw: bool)

  datatype VoiceChannel = VoiceChannel(
    id: ID, serverId: ID, name: string, description: Option<string>,
    icon: Option<Attachment>, nsfw: bool)

  datatype GroupChannel = GroupChannel(
    id: ID, ownerId: ID, name: string, description: Option<string>,
    recipients: seq<ID>, icon: Option<Attachment>, lastMessageId: Option<ID>, nsfw: bool)

  /** `recipients: [ID; 2]` is a pair. */
  datatype DirectMessageChannel = DirectMessageChannel(
    id: ID, active: bool, recipients: (ID, ID), lastMessageId: Option<ID>)

  datatype Channel =
    | Text(text: TextChannel)
    | Voice(voice: VoiceChannel)
    | Group(group: GroupChannel)
    | DirectMessage(dm: DirectMessageChannel)
  {
    /** `Channel::id`: the id of whichever variant this is. */
    function Id(): (r: ID)
      ensures Text? ==> r == text.id
      ensures Voice? ==> r == voice.id
      ensures Group? ==> r == group.id
      ensures DirectMessage? ==> r == dm.id
    {
      match this
      case Text(c) => c.id
      case Voice(c) => c.id
      case Group(c) => c.id
      case DirectMessage(c) => c.id
    }

    /** `get_text_channel`: the inner record exactly when this is a text channel. */
    function GetTextChannel(): (r: Option<TextChannel>)
      ensures r.Some? <==> Text?
      ensures r.Some? ==> this == Text(r.value)
    {
      if Text? then Some(text) else None
    }

    /** `get_voice_channel`: the inner record exactly when this is a voice channel. */
    function GetVoiceChannel(): (r: Option<VoiceChannel>)
      ensures r.Some? <==> Voice?
      ensures r.Some? ==> this == Voice(r.value)
    {
      if Voice? then Some(voice) else None
    }

    /** `get_group_channel`: the inner record exactly when this is a group. */
    function GetGroupChannel(): (r: Option<GroupChannel>)
      ensures r.Some? <==> Group?
      ensures r.Some? ==> this == Group(r.value)
    {
      if Group? then Some(group) else None
    }

    /** `get_dm_channel`: the inner record exactly when this is a direct message. */
    function GetDmChannel(): (r: Option<DirectMessageChannel>)
      ensures r.Some? <==> DirectMessage?
      ensures r.Some? ==> this == DirectMessage(r.value)
    {
      if DirectMessage? then Some(dm) else None
    }
  }

  /** A server category groups channel ids under a title. */
  datatype Category = Category(id: ID, title: string, channels: seq<ID>)

  /** `ServerFlags` is a `u8` bit set. */
  datatype Server = Server(
    id: ID,
    ownerId: ID,
    name: string,
    description: Option<string>,
    channels: seq<ID>,
    categories: seq<Category>,
    systemMessages: SystemChannels.SystemMessageChannels,
    icon: Option<Attachment>,
    banner: Option<Attachment>,
    flags: u8,
    nsfw: bool)

  /** The composite key of a member: the server and the user. */
  datatype MemberID = MemberID(serverId: ID, userId: ID)

  /** `MemberID::from((server_id, user_id))`. */
  function MemberIdFrom(serverId: ID, userId: ID): (r: MemberID)
    ensures r.serverId == serverId && r.userId == userId
  {
    MemberID(serverId, userId)
  }

  /** The body of a ban request (src/models/server/member.rs). */
  datatype CreateBan = CreateBan(reason: Option<string>)

  /** `CreateBan::new`: the reason, if any, is carried over as given. */
  function CreateBanNew(reason: Option<string>): (r: CreateBan)
    ensures r.reason == reason
  {
    match reason
    case Some(text) => CreateBan(Some(text))
    case None => CreateBan(None)
  }

  datatype Member = Member(id: MemberID, nickname: Option<string>, avatar: Option<Attachment>, roles: seq<ID>)

  /** The edit timestamp of a message; edited.rs is not part of this model. */
  datatype MessageEdited = MessageEdited(date: string)

  /** An embed on a received message; embed.rs is not part of this model. */
  datatype Embed = Embed(raw: string)

  /** A name and avatar a message is shown under; masquerade.rs is not part of
      this model, the Revolt record carries an optional name and avatar url. */
  datatype Masquerade = Masquerade(name: Option<string>, avatar: Option<string>)

  datatype Message = Message(
    id: ID,
    nonce: Option<string>,
    channelId: ID,
    authorId: ID,
    content: MessageContent.Content,
    attachments: seq<Attachment>,
    embeds: seq<Embed>,
    mentions: seq<ID>,
    replies: seq<ID>,
    masquerade: Option<Masquerade>,
    edited: Option<MessageEdited>)
  {
    /** `is_edited`: the message carries an edit date. */
    predicate IsEdited() {
      edited.Some?
    }
  }

  /** The body of GET `servers/{id}/members`: two parallel lists. */
  datatype ServerMembers = ServerMembers(members: seq<Member>, users: seq<User>)

  /** `zip` of two lists: as long as the shorter one, pair `i` built from the two
      elements at `i`. */
  function Zip<A, B>(xs: seq<A>, ys: seq<B>): (r: seq<(A, B)>)
    ensures |r| == if |xs| <= |ys| then |xs| else |ys|
    ensures forall i :: 0 <= i < |r| ==> r[i] == (xs[i], ys[i])
  {
    if xs == [] || ys == [] then [] else [(xs[0], ys[0])] + Zip(xs[1..], ys[1..])
  }

  /** `From<ServerMembers> for Vec<(Member, User)>`. */
  function MemberPairs(body: ServerMembers): (r: seq<(Member, User)>)
    ensures |r| <= |body.members| && |r| <= |body.users|
    ensures |r| == |body.members| || |r| == |body.users|
    ensures forall i :: 0 <= i < |r| ==> r[i].0 == body.members[i] && r[i].1 == body.users[i]
  {
    Zip(body.members, body.users)
  }
}
