/** Message content and its display text (src/models/message/content.rs). */
module MessageContent {

  type ID = string

  /** A message the server itself writes into a channel. */
  datatype SystemMessage =
    | Text(content: string)
    | UserAdded(id: ID, actor: ID)
    | UserRemove(id: ID, actor: ID)
    | UserJoined(id: ID)
    | UserLeft(id: ID)
    | UserKicked(id: ID)
    | UserBanned(id: ID)
    | ChannelRenamed(name: string, actor: ID)
    | ChannelDescriptionChanged(actor: ID)
    | ChannelIconChanged(actor: ID)

  /** What a message carries: text a user typed, or a system message. */
  datatype Content = Text(text: string) | SystemMessage(system: SystemMessage)

  /** The kinds of system message that display as a fixed sentence. */
  datatype SentenceKind =
    | Added | Removed | Joined | Left | Kicked | Banned | Renamed | DescriptionChanged | IconChanged

  /** The kind of a non-text system message; ignores every field of the variant. */
  function KindOf(m: SystemMessage): SentenceKind
    requires !m.Text?
  {
    match m
    case UserAdded(_, _) => Added
    case UserRemove(_, _) => Removed
    case UserJoined(_) => Joined
    case UserLeft(_) => Left
    case UserKicked(_) => Kicked
    case UserBanned(_) => Banned
    case ChannelRenamed(_, _) => Renamed
    case ChannelDescriptionChanged(_) => DescriptionChanged
    case ChannelIconChanged(_) => IconChanged
  }

  /** The fixed sentence shown for each kind of system message. */
  function Sentence(k: SentenceKind): string {
    match k
    case Added => "User added to the channel."
    case Removed => "User removed from the channel."
    case Joined => "User joined the channel."
    case Left => "User left the channel."
    case Kicked => "User kicked from the channel."
    case Banned => "User banned from the channel."
    case Renamed => "Channel renamed."
    case DescriptionChanged => "Channel description changed."
    case IconChanged => "Channel icon changed."
  }

  /** `Display for Content`: user text and system text verbatim, every other
      system message as its fixed sentence. Total over all variants. */
  function Display(c: Content): (r: string)
    ensures c.Text? ==> r == c.text
    ensures c.SystemMessage? && c.system.Text? ==> r == c.system.content
    ensures c.SystemMessage? && !c.system.Text? ==> r == Sentence(KindOf(c.system))
  {
    match c
    case Text(t) => t
    case SystemMessage(m) =>
      match m
      case Text(content) => content
      case UserAdded(_, _) => "User added to the channel."
      case UserRemove(_, _) => "User removed from the channel."
      case UserJoined(_) => "User joined the channel."
      case UserLeft(_) => "User left the channel."
      case UserKicked(_) => "User kicked from the channel."
      case UserBanned(_) => "User banned from the channel."
      case ChannelRenamed(_, _) => "Channel renamed."
      case ChannelDescriptionChanged(_) => "Channel description changed."
      case ChannelIconChanged(_) => "Channel icon changed."
  }

  /** Two system messages of the same non-text kind display identically,
      whatever ids or names they carry. */
  lemma DisplayIgnoresFields(m1: SystemMessage, m2: SystemMessage)
    requires !m1.Text? && !m2.Text? && KindOf(m1) == KindOf(m2)
    ensures Display(SystemMessage(m1)) == Display(SystemMessage(m2))
  {
  }

  /** Distinct kinds display distinct sentences, so the sentence identifies the kind. */
  lemma SentenceInjective(k1: SentenceKind, k2: SentenceKind)
    requires k1 != k2
    ensures Sentence(k1) != Sentence(k2)
  {
  }
}
