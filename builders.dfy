/** Request bodies for creating and editing messages (src/builders/message.rs).
    Every setter consumes the builder and returns the updated value. */
module MessageBuilders {
  import opened Wrappers
  import Entities

  type ID = string

  /** One message this message replies to. */
  datatype Reply = Reply(id: ID, mention: bool)

  /** The embed builder; embed.rs is not part of this model, so only its
      default value and the settings a build function adds are kept. */
  datatype CreateEmbed = CreateEmbed(settings: seq<string>)

  /** `CreateEmbed::default()`. */
  const DefaultEmbed: CreateEmbed := CreateEmbed([])

  datatype CreateMessage = CreateMessage(
    content: string,
    attachments: seq<ID>,
    replies: seq<Reply>,
    embeds: seq<CreateEmbed>,
    masquerade: Option<Entities.Masquerade>)
  {
    /** `attachment`: one more attachment id at the end, nothing else changes. */
    function Attachment(id: ID): (r: CreateMessage)
      ensures r.attachments == attachments + [id]
      ensures r.(attachments := attachments) == this
    {
      this.(attachments := attachments + [id])
    }

    /** `reply`: one more reply at the end, nothing else changes. */
    function ReplyTo(id: ID, mention: bool): (r: CreateMessage)
      ensures r.replies == replies + [Reply(id, mention)]
      ensures r.(replies := replies) == this
    {
      this.(replies := replies + [Reply(id, mention)])
    }

    /** `embed`: the build function applied to a default embed, appended. */
    function Embed(build: CreateEmbed -> CreateEmbed): (r: CreateMessage)
      ensures r.embeds == embeds + [build(DefaultEmbed)]
      ensures r.(embeds := embeds) == this
    {
      this.(embeds := embeds + [build(DefaultEmbed)])
    }

    /** `masquerade`: set, replacing any earlier masquerade. */
    function Masquerade(m: Entities.Masquerade): (r: CreateMessage)
      ensures r.masquerade == Some(m)
      ensures r.(masquerade := masquerade) == this
    {
      this.(masquerade := Some(m))
    }
  }

  /** `CreateMessage::new`: the content and nothing else. */
  function NewCreateMessage(content: string): (r: CreateMessage)
    ensures r.content == content
    ensures r.attachments == [] && r.replies == [] && r.embeds == []
    ensures r.masquerade == None
  {
    CreateMessage(content, [], [], [], None)
  }

  /** `From<T> for CreateMessage`: the same as `new`. */
  function CreateMessageFrom(content: string): (r: CreateMessage)
    ensures r == NewCreateMessage(content)
  {
    NewCreateMessage(content)
  }

  datatype EditMessage = EditMessage(content: Option<string>, embeds: seq<CreateEmbed>)
  {
    /** `content`: set the new content, keep the embeds. */
    function Content(c: string): (r: EditMessage)
      ensures r.content == Some(c) && r.embeds == embeds
    {
      this.(content := Some(c))
    }

    /** `embed`: the build function applied to a default embed, appended. */
    function Embed(build: CreateEmbed -> CreateEmbed): (r: EditMessage)
      ensures r.embeds == embeds + [build(DefaultEmbed)] && r.content == content
    {
      this.(embeds := embeds + [build(DefaultEmbed)])
    }
  }

  /** `EditMessage::new`, the derived default: no content, no embeds. */
  function NewEditMessage(): (r: EditMessage)
    ensures r.content == None && r.embeds == []
  {
    EditMessage(None, [])
  }

  /** `From<T> for EditMessage`: new content, no embeds. */
  function EditMessageFrom(content: string): (r: EditMessage)
    ensures r.content == Some(content) && r.embeds == []
  {
    NewEditMessage().Content(content)
  }

  /** Each `attachment` call grows the list by exactly its id, in call order. */
  lemma {:induction false} AttachmentsInOrder(b: CreateMessage, ids: seq<ID>)
    ensures AttachAll(b, ids).attachments == b.attachments + ids
    ensures AttachAll(b, ids).(attachments := b.attachments) == b
    decreases |ids|
  {
    if ids != [] {
      AttachmentsInOrder(b.Attachment(ids[0]), ids[1..]);
      assert b.attachments + [ids[0]] + ids[1..] == b.attachments + ids;
    }
  }

  /** A chain of `attachment` calls. */
  function AttachAll(b: CreateMessage, ids: seq<ID>): CreateMessage
    decreases |ids|
  {
    if ids == [] then b else AttachAll(b.Attachment(ids[0]), ids[1..])
  }
}

/** Request bodies for creating and editing channels (src/builders/channel.rs). */
module ChannelBuilders {
  import opened Wrappers

  type ID = string

  /** The kind of channel to create. */
  datatype ChannelType = TextType | VoiceType

  /** A field an edit can remove; channel/update.rs, which declares it, is not
      part of this model. */
  datatype ChannelField = Icon | Description

  datatype CreateChannel = CreateChannel(kind: ChannelType, name: string, description: Option<string>, nsfw: bool)
  {
    /** `description`: set the description only. */
    function Description(d: string): (r: CreateChannel)
      ensures r.description == Some(d)
      ensures r.(description := description) == this
    {
      this.(description := Some(d))
    }

    /** `nsfw`: set the flag only. */
    function Nsfw(flag: bool): (r: CreateChannel)
      ensures r.nsfw == flag
      ensures r.(nsfw := nsfw) == this
    {
      this.(nsfw := flag)
    }
  }

  /** `CreateChannel::text`. */
  function TextChannel(name: string): (r: CreateChannel)
    ensures r.kind == TextType && r.name == name && r.description == None && !r.nsfw
  {
    CreateChannel(TextType, name, None, false)
  }

  /** `CreateChannel::voice`. */
  function VoiceChannel(name: string): (r: CreateChannel)
    ensures r.kind == VoiceType && r.name == name && r.description == None && !r.nsfw
  {
    CreateChannel(VoiceType, name, None, false)
  }

  datatype EditChannel = EditChannel(
    name: Option<string>,
    description: Option<string>,
    icon: Option<ID>,
    nsfw: Option<bool>,
    remove: Option<ChannelField>)
  {
    /** `name`: set the name only. */
    function Name(n: string): (r: EditChannel)
      ensures r.name == Some(n) && r.(name := name) == this
    {
      this.(name := Some(n))
    }

    /** `description`: set the description only. */
    function Description(d: string): (r: EditChannel)
      ensures r.description == Some(d) && r.(description := description) == this
    {
      this.(description := Some(d))
    }

    /** `icon`: set the icon only. */
    function Icon(id: ID): (r: EditChannel)
      ensures r.icon == Some(id) && r.(icon := icon) == this
    {
      this.(icon := Some(id))
    }

    /** `nsfw`: set the flag only. */
    function Nsfw(flag: bool): (r: EditChannel)
      ensures r.nsfw == Some(flag) && r.(nsfw := nsfw) == this
    {
      this.(nsfw := Some(flag))
    }

    /** `remove`: set the field to remove only. */
    function Remove(f: ChannelField): (r: EditChannel)
      ensures r.remove == Some(f) && r.(remove := remove) == this
    {
      this.(remove := Some(f))
    }
  }

  /** `EditChannel::new`, the derived default: every field absent. */
  function NewEditChannel(): (r: EditChannel)
    ensures r.name == None && r.description == None && r.icon == None
    ensures r.nsfw == None && r.remove == None
  {
    EditChannel(None, None, None, None, None)
  }

  /** A later call of the same setter overwrites the earlier one. */
  lemma SettersLastWins(e: EditChannel, a: string, b: string, i: ID, j: ID, f: bool, g: bool)
    ensures e.Name(a).Name(b) == e.Name(b)
    ensures e.Description(a).Description(b) == e.Description(b)
    ensures e.Icon(i).Icon(j) == e.Icon(j)
    ensures e.Nsfw(f).Nsfw(g) == e.Nsfw(g)
  {
  }
}
